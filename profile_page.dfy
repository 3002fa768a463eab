/**
  The profile page (src/pages/Profile.jsx): loading the stored user, the
  confirm-gated logout, and the fallbacks shown for missing user fields.
  `JSON.parse` is a parameter: None stands for a parse that throws.
 */
module ProfilePage {
  import opened Wrappers
  import opened JsValues
  import opened Session

  /** The fields of the stored user that the page shows. */
  datatype UserRecord = UserRecord(id: JsValue, name: JsValue, email: JsValue)

  /** Which way `loadUserInfo` goes. */
  datatype UserBranch = ShowUser(user: UserRecord) | ForceLogout

  /**
    `if (userData) setUserInfo(JSON.parse(userData)) else handleLogout()`, with a
    throwing parse caught and sent to `handleLogout` as well.
   */
  function BranchOf(stored: Option<string>, parse: string -> Option<UserRecord>): (b: UserBranch)
    ensures b.ShowUser? <==> stored.Some? && stored.value != "" && parse(stored.value).Some?
    ensures b.ShowUser? ==> b.user == parse(stored.value).value
  {
    match stored
    case None => ForceLogout
    case Some(text) =>
      if text == "" then ForceLogout
      else match parse(text)
        case None => ForceLogout
        case Some(u) => ShowUser(u)
  }

  /** After a logout the stored user is gone, so the next load takes the logout branch. */
  lemma LogoutLeadsToLogoutBranch(items: map<string, string>, parse: string -> Option<UserRecord>)
    ensures BranchOf(StoredUser(ClearSession(items)), parse) == ForceLogout
  {
    StoredUserAfterClear(items);
  }

  /** After a login whose user text parses, the next load shows that user. */
  lemma LoginLeadsToUser(items: map<string, string>, token: string, userJson: string,
                         parse: string -> Option<UserRecord>, user: UserRecord)
    requires userJson != "" && parse(userJson) == Some(user)
    ensures BranchOf(StoredUser(WriteSession(items, token, userJson)), parse) == ShowUser(user)
  {
    StoredUserAfterWrite(items, token, userJson);
  }

  /** `userInfo?.name || 'Kullanıcı'`. */
  function DisplayName(userInfo: Option<UserRecord>): (shown: JsValue)
    ensures userInfo.Some? && Truthy(userInfo.value.name) ==> shown == userInfo.value.name
    ensures !(userInfo.Some? && Truthy(userInfo.value.name)) ==> shown == Str("Kullanıcı")
    ensures Truthy(shown)
  {
    Or(if userInfo.Some? then userInfo.value.name else Undefined, Str("Kullanıcı"))
  }

  /** `userInfo?.email || '-'`. */
  function DisplayEmail(userInfo: Option<UserRecord>): (shown: JsValue)
    ensures userInfo.Some? && Truthy(userInfo.value.email) ==> shown == userInfo.value.email
    ensures !(userInfo.Some? && Truthy(userInfo.value.email)) ==> shown == Str("-")
    ensures Truthy(shown)
  {
    Or(if userInfo.Some? then userInfo.value.email else Undefined, Str("-"))
  }

  /** `userInfo?.id || '-'`. */
  function DisplayId(userInfo: Option<UserRecord>): (shown: JsValue)
    ensures userInfo.Some? && Truthy(userInfo.value.id) ==> shown == userInfo.value.id
    ensures !(userInfo.Some? && Truthy(userInfo.value.id)) ==> shown == Str("-")
    ensures Truthy(shown)
  {
    Or(if userInfo.Some? then userInfo.value.id else Undefined, Str("-"))
  }

  class ProfileScreen {
    var userInfo: Option<UserRecord>
    var loading: bool

    constructor ()
      ensures userInfo.None? && loading
    {
      userInfo, loading := None, true;
    }

    /**
      `handleLogout`: only on confirmation are exactly 'token' and 'user'
      removed and '/login' navigated to; declining changes nothing.
     */
    method Logout(confirmed: bool, storage: BrowserStorage) returns (navigateTo: Option<string>)
      modifies storage
      ensures confirmed ==> storage.items == ClearSession(old(storage.items)) && navigateTo == Some("/login")
      ensures !confirmed ==> storage.items == old(storage.items) && navigateTo.None?
    {
      navigateTo := None;
      if confirmed {
        storage.RemoveItem(TokenKey);
        storage.RemoveItem(UserKey);
        navigateTo := Some("/login");
      }
    }

    /**
      `loadUserInfo`: a stored user that parses becomes `userInfo`; a missing,
      empty or unparseable one goes through `handleLogout`, whose confirmation
      is `confirmed`. Loading ends on every path.
     */
    method LoadUserInfo(storage: BrowserStorage, parse: string -> Option<UserRecord>, confirmed: bool)
      returns (navigateTo: Option<string>)
      modifies this, storage
      ensures !loading
      ensures BranchOf(old(StoredUser(storage.items)), parse).ShowUser? ==>
        && userInfo == Some(BranchOf(old(StoredUser(storage.items)), parse).user)
        && storage.items == old(storage.items) && navigateTo.None?
      ensures BranchOf(old(StoredUser(storage.items)), parse).ForceLogout? ==>
        && userInfo == old(userInfo)
        && (confirmed ==> storage.items == ClearSession(old(storage.items)) && navigateTo == Some("/login"))
        && (!confirmed ==> storage.items == old(storage.items) && navigateTo.None?)
    {
      var userData := storage.GetItem(UserKey);
      assert userData == StoredUser(storage.items);
      match BranchOf(userData, parse) {
        case ShowUser(u) =>
          userInfo := Some(u);
          navigateTo := None;
        case ForceLogout =>
          navigateTo := Logout(confirmed, storage);
      }
      loading := false;
    }
  }
}
