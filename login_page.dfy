/**
  The login / registration form (src/pages/Login.jsx): the mode toggle, the
  form fields, the endpoint and payload chosen on submit, and the session keys
  written when the backend hands back a token.
 */
module LoginPage {
  import opened Wrappers
  import opened Session

  /** The keys the form starts with; `handleChange` may add others. */
  const FormKeys: set<string> := {"email", "password", "name"}

  const LoginEndpoint: string := "/api/login"
  const RegisterEndpoint: string := "/api/register"
  const FallbackError: string := "Bir hata oluştu"

  function Endpoint(isLogin: bool): (e: string)
    ensures isLogin <==> e == LoginEndpoint
    ensures !isLogin <==> e == RegisterEndpoint
  {
    if isLogin then LoginEndpoint else RegisterEndpoint
  }

  /** Login sends only `{ email, password }`; registration sends the whole form, name included. */
  function Payload(isLogin: bool, form: map<string, string>): (p: map<string, string>)
    requires FormKeys <= form.Keys
    ensures isLogin ==> p.Keys == {"email", "password"} && p["email"] == form["email"] && p["password"] == form["password"]
    ensures !isLogin ==> p == form && "name" in p
  {
    if isLogin then map["email" := form["email"], "password" := form["password"]] else form
  }

  /** What the form submits: the endpoint, the body, and the mode the alert will name. */
  datatype AuthRequest = AuthRequest(endpoint: string, payload: map<string, string>, isLogin: bool)

  /**
    The outcome of the post: a thrown error (the backend's `error` field, "" if
    none, and the error's message), or a body. In a body, `token` and `error`
    are "" when absent, and `userJson` is what `JSON.stringify(user)` gave
    once setItem has turned it into a string.
   */
  datatype AuthReply =
    | AuthThrew(serverError: string, message: string)
    | AuthReply(token: string, userJson: string, error: string)

  datatype Notice = Welcome(isLogin: bool) | Failed(detail: string)

  /** The detail of a failure alert: the server's error, else the fallback for a body or the error's message for a throw. */
  function FailureDetail(reply: AuthReply): (d: string)
    ensures reply.AuthReply? && reply.error == "" ==> d == FallbackError
    ensures reply.AuthThrew? && reply.serverError == "" ==> d == reply.message
    ensures reply.AuthReply? && reply.error != "" ==> d == reply.error
    ensures reply.AuthThrew? && reply.serverError != "" ==> d == reply.serverError
  {
    match reply
    case AuthReply(_, _, error) => if error != "" then error else FallbackError
    case AuthThrew(serverError, message) => if serverError != "" then serverError else message
  }

  class LoginForm {
    var isLogin: bool
    var formData: map<string, string>
    var loading: bool

    predicate Valid()
      reads this
    {
      FormKeys <= formData.Keys
    }

    /** Login mode, empty email, password and name, not loading. */
    constructor ()
      ensures Valid()
      ensures isLogin && !loading && formData == map["email" := "", "password" := "", "name" := ""]
    {
      isLogin, loading := true, false;
      formData := map["email" := "", "password" := "", "name" := ""];
    }

    /** The two mode buttons: `setIsLogin(true)` and `setIsLogin(false)`; the form keeps its fields. */
    method SetMode(login: bool)
      requires Valid()
      modifies this
      ensures Valid() && isLogin == login && formData == old(formData) && loading == old(loading)
    {
      isLogin := login;
    }

    /** `handleChange`: `{...formData, [name]: value}` — only the named field changes. */
    method HandleChange(name: string, value: string)
      requires Valid()
      modifies this
      ensures Valid()
      ensures formData == old(formData)[name := value]
      ensures forall k :: k in old(formData) && k != name ==> formData[k] == old(formData)[k]
      ensures isLogin == old(isLogin) && loading == old(loading)
    {
      formData := formData[name := value];
    }

    /** The synchronous start of `handleSubmit` (the button is disabled while loading). */
    method BeginSubmit() returns (req: AuthRequest)
      requires Valid() && !loading
      modifies this
      ensures Valid() && loading && isLogin == old(isLogin) && formData == old(formData)
      ensures req.isLogin == isLogin
      ensures req.endpoint == Endpoint(isLogin) && req.payload == Payload(isLogin, formData)
    {
      loading := true;
      req := AuthRequest(Endpoint(isLogin), Payload(isLogin, formData), isLogin);
    }

    /**
      The rest of `handleSubmit`. Only a reply carrying a token writes 'token'
      and 'user' and navigates to '/'; a reply without one, or a thrown error,
      leaves storage alone and reports why. Loading ends in every case.
     */
    method FinishSubmit(req: AuthRequest, reply: AuthReply, storage: BrowserStorage)
      returns (notice: Notice, navigateTo: Option<string>)
      requires Valid() && loading
      modifies this, storage
      ensures Valid() && !loading && isLogin == old(isLogin) && formData == old(formData)
      ensures reply.AuthReply? && reply.token != "" ==>
        && storage.items == WriteSession(old(storage.items), reply.token, reply.userJson)
        && notice == Welcome(req.isLogin) && navigateTo == Some("/")
      ensures !(reply.AuthReply? && reply.token != "") ==>
        && storage.items == old(storage.items)
        && notice == Failed(FailureDetail(reply)) && navigateTo.None?
    {
      if reply.AuthReply? && reply.token != "" {
        storage.SetItem(TokenKey, reply.token);
        storage.SetItem(UserKey, reply.userJson);
        notice, navigateTo := Welcome(req.isLogin), Some("/");
      } else {
        notice, navigateTo := Failed(FailureDetail(reply)), None;
      }
      loading := false;
    }
  }
}
