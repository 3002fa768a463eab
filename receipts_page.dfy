/**
  The receipts list page (src/pages/Receipts.jsx): the footer totals, the
  export guard, the category colour of a row, and the edit-in-place draft
  (`editingId` / `editForm`) with its load, edit, cancel, save and delete steps.
  Backend replies and confirmation answers are parameters.
 */
module ReceiptsPage {
  import opened Wrappers
  import opened JsValues
  import opened ReceiptLists

  /** The footer row: `TOPLAM (count Fiş)`, the amount total and the KDV %20 total. */
  datatype Totals = Totals(count: nat, totalAmount: real, kdv20: real)

  function Footer(rs: seq<Receipt>): (t: Totals)
    ensures t.count == |rs|
    ensures rs == [] ==> t == Totals(0, 0.0, 0.0)
    ensures t.totalAmount == AmountTotal(rs) && t.kdv20 == Kdv20Total(rs)
  {
    Totals(|rs|, AmountTotal(rs), Kdv20Total(rs))
  }

  /** Adding a receipt adds one to the count and its own contributions to the two sums. */
  lemma FooterGrows(rs: seq<Receipt>, r: Receipt)
    ensures Footer(rs + [r]).count == Footer(rs).count + 1
    ensures Footer(rs + [r]).totalAmount == Footer(rs).totalAmount + FloatOrZero(r.toplam_tutar)
    ensures Footer(rs + [r]).kdv20 == Footer(rs).kdv20 + FloatOrZero(r.kdv20)
  {
    SumLeftAppend(rs, [r], AmountOf);
    SumLeftAppend(rs, [r], Kdv20Of);
    SumLeftSingle(r, AmountOf);
    SumLeftSingle(r, Kdv20Of);
  }

  /**
    `exportToExcel`'s guard and mapping: with no receipts nothing is sent (the
    "Fiş bulunamadı!" alert); otherwise the rows posted to `/api/ocr/export-excel`.
   */
  function ExportRequest(rs: seq<Receipt>): (req: Option<seq<ReceiptRow>>)
    ensures req.None? <==> rs == []
    ensures req.Some? ==> req.value == ExportRows(rs) && |req.value| == |rs|
  {
    if |rs| == 0 then None else Some(ExportRows(rs))
  }

  /** The colour table of `getGiderColor`. */
  const CategoryColors: map<string, string> := map[
    "OTOPARK" := "#e3f2fd",
    "MARKET" := "#f3e5f5",
    "YİYECEK" := "#fff3e0",
    "YAKIT" := "#ffebee",
    "ULAŞIM" := "#e8f5e9"]

  const DefaultColor: string := "#f3f4f6"

  /** The properties every plain object literal inherits from Object.prototype; all of them are truthy. */
  const ObjectPrototypeKeys: set<string> := {
    "constructor", "__proto__", "hasOwnProperty", "isPrototypeOf", "propertyIsEnumerable",
    "toLocaleString", "toString", "valueOf",
    "__defineGetter__", "__defineSetter__", "__lookupGetter__", "__lookupSetter__"}

  /**
    The property key `colors[v]` looks up. A number's key is its decimal form,
    which is none of the keys above, so numbers are given no key here.
   */
  function PropertyKey(v: JsValue): Option<string>
  {
    match v
    case Undefined => Some("undefined")
    case Null => Some("null")
    case Bool(b) => Some(if b then "true" else "false")
    case Num(_) => None
    case Str(s) => Some(s)
  }

  /** What `colors[cinsi] || '#f3f4f6'` evaluates to: a colour string, or an inherited prototype member. */
  datatype ColorLookup = Color(hex: string) | InheritedMember(name: string)

  /** `getGiderColor` as written: the lookup also finds members inherited from Object.prototype. */
  function GiderColorAsWritten(cinsi: JsValue): (r: ColorLookup)
    ensures r.InheritedMember? <==> PropertyKey(cinsi).Some? && PropertyKey(cinsi).value in ObjectPrototypeKeys
  {
    match PropertyKey(cinsi)
    case None => Color(DefaultColor)
    case Some(k) =>
      if k in CategoryColors then Color(CategoryColors[k])
      else if k in ObjectPrototypeKeys then InheritedMember(k)
      else Color(DefaultColor)
  }

  /** A category the backend may send returns a function, not a colour, from the function as written. */
  lemma GiderColorPrototypeLeak()
    ensures GiderColorAsWritten(Str("constructor")) == InheritedMember("constructor")
    ensures GiderColorAsWritten(Str("toString")).InheritedMember?
  {
  }

  /** `getGiderColor` as intended: the five listed categories get their colours, every other value the default. */
  function GiderColor(cinsi: JsValue): (color: string)
    ensures cinsi.Str? && cinsi.s in CategoryColors ==> color == CategoryColors[cinsi.s]
    ensures !(cinsi.Str? && cinsi.s in CategoryColors) ==> color == DefaultColor
  {
    match PropertyKey(cinsi)
    case Some(k) => if k in CategoryColors then CategoryColors[k] else DefaultColor
    case None => DefaultColor
  }

  /** The five categories, and the fallback for 'DİĞER' and a missing category. */
  lemma GiderColorTable()
    ensures GiderColor(Str("OTOPARK")) == "#e3f2fd"
    ensures GiderColor(Str("MARKET")) == "#f3e5f5"
    ensures GiderColor(Str("YİYECEK")) == "#fff3e0"
    ensures GiderColor(Str("YAKIT")) == "#ffebee"
    ensures GiderColor(Str("ULAŞIM")) == "#e8f5e9"
    ensures GiderColor(Str("DİĞER")) == DefaultColor
    ensures GiderColor(Undefined) == DefaultColor
  {
  }

  /** The two agree on every value whose key is not an inherited member. */
  lemma GiderColorAgrees(cinsi: JsValue)
    requires !(PropertyKey(cinsi).Some? && PropertyKey(cinsi).value in ObjectPrototypeKeys)
    ensures GiderColorAsWritten(cinsi) == Color(GiderColor(cinsi))
  {
  }

  /** The six keys of the edit draft. */
  const DraftKeys: set<string> := {"firma_unvani", "tarih", "fis_no", "gider_cinsi", "toplam_tutar", "kdv20"}

  /** The receipt field an edit-draft key names. */
  function DraftField(r: Receipt, key: string): JsValue
  {
    match key
    case "firma_unvani" => r.firma_unvani
    case "tarih" => r.tarih
    case "fis_no" => r.fis_no
    case "gider_cinsi" => r.gider_cinsi
    case "toplam_tutar" => r.toplam_tutar
    case "kdv20" => r.kdv20
    case _ => Undefined
  }

  /** The draft `handleEdit` builds: each of the six fields, or '' where the receipt's value is falsy. */
  function DraftOf(r: Receipt): (draft: map<string, JsValue>)
    ensures draft.Keys == DraftKeys
    ensures forall k :: k in DraftKeys ==> draft[k] == if Truthy(DraftField(r, k)) then DraftField(r, k) else Str("")
    ensures forall k :: k in DraftKeys ==> Truthy(draft[k]) || draft[k] == Str("")
  {
    map[
      "firma_unvani" := Or(r.firma_unvani, Str("")),
      "tarih" := Or(r.tarih, Str("")),
      "fis_no" := Or(r.fis_no, Str("")),
      "gider_cinsi" := Or(r.gider_cinsi, Str("")),
      "toplam_tutar" := Or(r.toplam_tutar, Str("")),
      "kdv20" := Or(r.kdv20, Str(""))]
  }

  /** What the page announces after a save or delete. */
  datatype Notice = Updated | UpdateFailed | Deleted | DeleteFailed

  /** The page's state: the loaded list, the loading flag, and the row being edited with its draft. */
  class ReceiptsScreen {
    var receipts: seq<Receipt>
    var loading: bool
    var editingId: JsValue
    var editForm: map<string, JsValue>

    /** `useState([])`, `useState(true)`, `useState(null)`, `useState({})`. */
    constructor ()
      ensures receipts == [] && loading && editingId == Null && editForm == map[]
    {
      receipts, loading, editingId, editForm := [], true, Null, map[];
    }

    /** `loadReceipts`: a successful reply replaces the list; anything else keeps it; loading ends either way. */
    method Load(reply: ListReply)
      modifies this
      ensures !loading
      ensures reply.ListReply? && reply.success ==> receipts == reply.receipts
      ensures !(reply.ListReply? && reply.success) ==> receipts == old(receipts)
      ensures editingId == old(editingId) && editForm == old(editForm)
    {
      if reply.ListReply? && reply.success {
        receipts := reply.receipts;
      }
      loading := false;
    }

    /** `handleEdit(receipt)`: the row's id becomes the one being edited and the draft is rebuilt from it. */
    method Edit(r: Receipt)
      modifies this
      ensures editingId == r.id && editForm == DraftOf(r)
      ensures receipts == old(receipts) && loading == old(loading)
    {
      editingId := r.id;
      editForm := DraftOf(r);
    }

    /** The `onChange` of one of the six edit inputs: `{...editForm, [key]: value}` — only that key changes. */
    method ChangeField(key: string, value: string)
      requires key in DraftKeys
      modifies this
      ensures editForm == old(editForm)[key := Str(value)]
      ensures forall k :: k in old(editForm) && k != key ==> k in editForm && editForm[k] == old(editForm)[k]
      ensures editingId == old(editingId) && receipts == old(receipts) && loading == old(loading)
    {
      editForm := editForm[key := Str(value)];
    }

    /** `handleCancel`: nothing is being edited and the draft is empty. */
    method Cancel()
      modifies this
      ensures editingId == Null && editForm == map[]
      ensures receipts == old(receipts) && loading == old(loading)
    {
      editingId := Null;
      editForm := map[];
    }

    /**
      `handleSave(receiptId)`: the whole draft is sent by `PUT` to the receipt
      `receiptId`, returned as `target`. When the update
      succeeds the row leaves edit mode and the list is reloaded (its reply is
      `reload`); when it fails the draft and the edited row stay as they were.
     */
    method Save(receiptId: JsValue, putOk: bool, reload: ListReply)
      returns (target: JsValue, body: map<string, JsValue>, notice: Notice)
      modifies this
      ensures target == receiptId && body == old(editForm)
      ensures editForm == old(editForm)
      ensures putOk ==> notice == Updated && editingId == Null
      ensures putOk && reload.ListReply? && reload.success ==> receipts == reload.receipts
      ensures putOk && !(reload.ListReply? && reload.success) ==> receipts == old(receipts)
      ensures putOk ==> !loading
      ensures !putOk ==> notice == UpdateFailed && editingId == old(editingId)
      ensures !putOk ==> receipts == old(receipts) && loading == old(loading)
    {
      target, body := receiptId, editForm;
      if putOk {
        notice := Updated;
        editingId := Null;
        Load(reload);
      } else {
        notice := UpdateFailed;
      }
    }

    /**
      `handleDelete(receiptId)`: nothing happens unless the user confirms, and
      only then is a `DELETE` sent for `receiptId` (the `target`); a
      successful delete reloads the list, which a failed reload leaves as it was.
     */
    method Delete(receiptId: JsValue, confirmed: bool, deleteOk: bool, reload: ListReply)
      returns (target: Option<JsValue>, notice: Option<Notice>)
      modifies this
      ensures confirmed <==> target == Some(receiptId)
      ensures !confirmed ==> notice == None && receipts == old(receipts) && loading == old(loading)
      ensures confirmed && deleteOk ==> notice == Some(Deleted) && !loading
      ensures confirmed && deleteOk && reload.ListReply? && reload.success ==> receipts == reload.receipts
      ensures confirmed && deleteOk && !(reload.ListReply? && reload.success) ==> receipts == old(receipts)
      ensures confirmed && !deleteOk ==> notice == Some(DeleteFailed) && receipts == old(receipts) && loading == old(loading)
      ensures editingId == old(editingId) && editForm == old(editForm)
    {
      if !confirmed {
        return None, None;
      }
      target := Some(receiptId);
      if deleteOk {
        notice := Some(Deleted);
        Load(reload);
      } else {
        notice := Some(DeleteFailed);
      }
    }
  }
}
