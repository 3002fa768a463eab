/**
  What the Receipts and Dashboard pages share: a stored receipt as the
  `/api/ocr/receipts` list returns it, the reply to that list request, the
  `reduce` sums over `parseFloat(...) || 0`, and the renaming `map` that turns
  receipts into export rows.
 */
module ReceiptLists {
  import opened JsValues

  /** A stored receipt, keyed as the backend sends it; any field may be missing (undefined). */
  datatype Receipt = Receipt(
    id: JsValue,
    firma_unvani: JsValue,
    tarih: JsValue,
    fis_no: JsValue,
    gider_cinsi: JsValue,
    toplam_tutar: JsValue,
    kdv1: JsValue,
    kdv10: JsValue,
    kdv20: JsValue)

  /**
    The client-side record with camel-case keys: an export row, and also the
    shape of the Upload page's result card.
   */
  datatype ReceiptRow = ReceiptRow(
    firmaUnvani: JsValue,
    tarih: JsValue,
    fisNo: JsValue,
    giderCinsi: JsValue,
    toplamTutar: JsValue,
    kdv1: JsValue,
    kdv10: JsValue,
    kdv20: JsValue)

  /** The outcome of `GET /api/ocr/receipts`: a transport error, or a body `{ success, receipts }`. */
  datatype ListReply = ListFailed | ListReply(success: bool, receipts: seq<Receipt>)

  /** `rs.reduce((sum, r) => sum + f(r), 0)`: a left fold, first receipt added first. */
  function SumLeft(rs: seq<Receipt>, f: Receipt -> real): real
  {
    if rs == [] then 0.0 else SumLeft(rs[..|rs| - 1], f) + f(rs[|rs| - 1])
  }

  /** One receipt's contribution to the amount total: `parseFloat(r.toplam_tutar) || 0`. */
  function AmountOf(r: Receipt): real
  {
    FloatOrZero(r.toplam_tutar)
  }

  /** One receipt's contribution to the VAT total: `parseFloat(r.kdv20) || 0`. */
  function Kdv20Of(r: Receipt): real
  {
    FloatOrZero(r.kdv20)
  }

  /** The amount total: 0 for no receipts or none with a numeric amount, never negative when no amount is. */
  function AmountTotal(rs: seq<Receipt>): (total: real)
    ensures rs == [] ==> total == 0.0
    ensures (forall i :: 0 <= i < |rs| ==> ParseFloat(rs[i].toplam_tutar).None?) ==> total == 0.0
    ensures (forall i :: 0 <= i < |rs| ==> AmountOf(rs[i]) >= 0.0) ==> total >= 0.0
  {
    SumLeftSigns(rs, AmountOf);
    SumLeft(rs, AmountOf)
  }

  /** The VAT total over kdv20, with the same guarantees. */
  function Kdv20Total(rs: seq<Receipt>): (total: real)
    ensures rs == [] ==> total == 0.0
    ensures (forall i :: 0 <= i < |rs| ==> ParseFloat(rs[i].kdv20).None?) ==> total == 0.0
    ensures (forall i :: 0 <= i < |rs| ==> Kdv20Of(rs[i]) >= 0.0) ==> total >= 0.0
  {
    SumLeftSigns(rs, Kdv20Of);
    SumLeft(rs, Kdv20Of)
  }

  /** A fold of zero contributions is 0, and a fold of non-negative ones is non-negative. */
  lemma {:induction false} SumLeftSigns(rs: seq<Receipt>, f: Receipt -> real)
    ensures (forall i :: 0 <= i < |rs| ==> f(rs[i]) == 0.0) ==> SumLeft(rs, f) == 0.0
    ensures (forall i :: 0 <= i < |rs| ==> f(rs[i]) >= 0.0) ==> SumLeft(rs, f) >= 0.0
  {
    if rs != [] {
      var init := rs[..|rs| - 1];
      SumLeftSigns(init, f);
      assert forall i :: 0 <= i < |init| ==> init[i] == rs[i];
    }
  }

  /** The fold distributes over concatenation, so the total is independent of how the list is split. */
  lemma {:induction false} SumLeftAppend(a: seq<Receipt>, b: seq<Receipt>, f: Receipt -> real)
    ensures SumLeft(a + b, f) == SumLeft(a, f) + SumLeft(b, f)
  {
    if b == [] {
      assert a + b == a;
    } else {
      var b' := b[..|b| - 1];
      assert (a + b)[..|a + b| - 1] == a + b';
      SumLeftAppend(a, b', f);
    }
  }

  /** Two lists whose receipts contribute the same values, position by position, have the same sum. */
  lemma {:induction false} SumLeftCongruent(a: seq<Receipt>, b: seq<Receipt>, f: Receipt -> real, g: Receipt -> real)
    requires |a| == |b|
    requires forall i :: 0 <= i < |a| ==> f(a[i]) == g(b[i])
    ensures SumLeft(a, f) == SumLeft(b, g)
  {
    if a != [] {
      SumLeftCongruent(a[..|a| - 1], b[..|b| - 1], f, g);
    }
  }

  /** The sum over one receipt is that receipt's contribution. */
  lemma SumLeftSingle(r: Receipt, f: Receipt -> real)
    ensures SumLeft([r], f) == f(r)
  {
    assert [r][..0] == [];
  }

  /** A receipt whose amount is missing or not numeric adds nothing, wherever it sits in the list. */
  lemma AmountTotalSkipsUnparsed(a: seq<Receipt>, r: Receipt, b: seq<Receipt>)
    requires ParseFloat(r.toplam_tutar).None?
    ensures AmountTotal(a + [r] + b) == AmountTotal(a + b)
  {
    SumLeftAppend(a + [r], b, AmountOf);
    SumLeftAppend(a, [r], AmountOf);
    SumLeftSingle(r, AmountOf);
    SumLeftAppend(a, b, AmountOf);
  }

  /** The VAT total reads only kdv20: lists that agree on kdv20 agree on the total, whatever their kdv1 and kdv10. */
  lemma Kdv20TotalReadsOnlyKdv20(a: seq<Receipt>, b: seq<Receipt>)
    requires |a| == |b|
    requires forall i :: 0 <= i < |a| ==> a[i].kdv20 == b[i].kdv20
    ensures Kdv20Total(a) == Kdv20Total(b)
  {
    SumLeftCongruent(a, b, Kdv20Of, Kdv20Of);
  }

  /** The amount total reads only toplam_tutar. */
  lemma AmountTotalReadsOnlyAmount(a: seq<Receipt>, b: seq<Receipt>)
    requires |a| == |b|
    requires forall i :: 0 <= i < |a| ==> a[i].toplam_tutar == b[i].toplam_tutar
    ensures AmountTotal(a) == AmountTotal(b)
  {
    SumLeftCongruent(a, b, AmountOf, AmountOf);
  }

  /** With no negative amounts the total is not negative and bounds every single amount. */
  lemma {:induction false} AmountTotalBounds(rs: seq<Receipt>)
    requires forall i :: 0 <= i < |rs| ==> AmountOf(rs[i]) >= 0.0
    ensures AmountTotal(rs) >= 0.0
    ensures forall i :: 0 <= i < |rs| ==> AmountOf(rs[i]) <= AmountTotal(rs)
  {
    if rs != [] {
      var init := rs[..|rs| - 1];
      AmountTotalBounds(init);
      assert forall i :: 0 <= i < |init| ==> init[i] == rs[i];
    }
  }

  /** The export `map`: the eight fields of a receipt under their camel-case names; the id is dropped. */
  function ToRow(r: Receipt): ReceiptRow
  {
    ReceiptRow(r.firma_unvani, r.tarih, r.fis_no, r.gider_cinsi, r.toplam_tutar, r.kdv1, r.kdv10, r.kdv20)
  }

  /** Inverse of ToRow, given back the id it drops. */
  function FromRow(row: ReceiptRow, id: JsValue): Receipt
  {
    Receipt(id, row.firmaUnvani, row.tarih, row.fisNo, row.giderCinsi, row.toplamTutar, row.kdv1, row.kdv10, row.kdv20)
  }

  /** The renaming loses nothing but the id. */
  lemma RowRoundTrip(r: Receipt)
    ensures FromRow(ToRow(r), r.id) == r
  {
  }

  /** `receipts.map(r => ({ firmaUnvani: r.firma_unvani, ... }))`. */
  function ExportRows(rs: seq<Receipt>): (rows: seq<ReceiptRow>)
    ensures |rows| == |rs|
    ensures forall i :: 0 <= i < |rs| ==>
      && rows[i].firmaUnvani == rs[i].firma_unvani
      && rows[i].tarih == rs[i].tarih
      && rows[i].fisNo == rs[i].fis_no
      && rows[i].giderCinsi == rs[i].gider_cinsi
      && rows[i].toplamTutar == rs[i].toplam_tutar
      && rows[i].kdv1 == rs[i].kdv1
      && rows[i].kdv10 == rs[i].kdv10
      && rows[i].kdv20 == rs[i].kdv20
  {
    if rs == [] then [] else [ToRow(rs[0])] + ExportRows(rs[1..])
  }

  /** The export mapping is one-to-one: lists with the same ids and the same rows are the same list. */
  lemma ExportRowsInjective(a: seq<Receipt>, b: seq<Receipt>)
    requires |a| == |b| && forall i :: 0 <= i < |a| ==> a[i].id == b[i].id
    requires ExportRows(a) == ExportRows(b)
    ensures a == b
  {
    forall i | 0 <= i < |a|
      ensures a[i] == b[i]
    {
      RowRoundTrip(a[i]);
      RowRoundTrip(b[i]);
      assert ExportRows(a)[i] == ToRow(a[i]);
    }
  }

  /** The mapping commutes with concatenation, so it keeps the order of the receipts. */
  lemma {:induction false} ExportRowsAppend(a: seq<Receipt>, b: seq<Receipt>)
    ensures ExportRows(a + b) == ExportRows(a) + ExportRows(b)
  {
    if a != [] {
      assert (a + b)[1..] == a[1..] + b;
      ExportRowsAppend(a[1..], b);
    } else {
      assert a + b == b;
    }
  }
}
