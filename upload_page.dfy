/**
  The file a page picks, and the step both upload pages share: the compressed
  image is wrapped in a new File that keeps the picked file's name and is
  labelled as JPEG. The compression library itself is not modelled: its output
  bytes are a parameter.
 */
module ImageFiles {
  datatype File = File(name: string, mimeType: string, bytes: seq<bv8>)

  /** `new File([compressedBlob], file.name, { type: 'image/jpeg' })`. */
  function CompressedFile(picked: File, blob: seq<bv8>): (f: File)
    ensures f.name == picked.name && f.mimeType == "image/jpeg" && f.bytes == blob
  {
    File(picked.name, "image/jpeg", blob)
  }
}

/**
  The receipt upload page (src/pages/Upload.jsx): picking and compressing a
  photo, posting it, classifying the backend's reading of the receipt, and the
  result card with its VAT total and warning.
 */
module UploadPage {
  import opened Wrappers
  import opened JsValues
  import opened ReceiptLists
  import opened ImageFiles

  /** The receipt in an upload reply, keyed as the OCR backend sends it. */
  datatype UploadedReceipt = UploadedReceipt(
    company_name: JsValue,
    date: JsValue,
    receipt_number: JsValue,
    category: JsValue,
    total: JsValue,
    vat1: JsValue,
    vat10: JsValue,
    vat20: JsValue)

  /**
    The outcome of `POST /api/receipts/upload`: a thrown error (with the
    backend's `error` field, if any, and the error's own message) or a body
    `{ success, receipt }`.
   */
  datatype UploadReply =
    | UploadThrew(serverError: JsValue, message: string)
    | UploadReply(success: bool, receipt: UploadedReceipt)

  /** The three-way reading of a saved receipt. */
  datatype Verdict = TotalUnreadable | FieldsMissing | Complete

  /** `parseFloat(receipt.total || 0) === 0 || !receipt.total`, in the order the page tests it. */
  function TotalMissing(total: JsValue): (missing: bool)
    ensures missing <==> !Truthy(total) || ParseFloat(total) == Some(0.0)
  {
    FloatOfOrZero(total) == Some(0.0) || !Truthy(total)
  }

  /**
    The alert chosen after a successful upload: the missing-total warning is
    tested first, then the missing company name or date, and only then is the
    upload a plain success.
   */
  function Classify(rc: UploadedReceipt): (v: Verdict)
    ensures v == TotalUnreadable <==> !Truthy(rc.total) || ParseFloat(rc.total) == Some(0.0)
    ensures v == FieldsMissing <==>
      Truthy(rc.total) && ParseFloat(rc.total) != Some(0.0) && (!Truthy(rc.company_name) || !Truthy(rc.date))
    ensures v == Complete <==>
      Truthy(rc.total) && ParseFloat(rc.total) != Some(0.0) && Truthy(rc.company_name) && Truthy(rc.date)
  {
    var hasRequiredFields := Truthy(rc.company_name) && Truthy(rc.date);
    if TotalMissing(rc.total) then TotalUnreadable
    else if !hasRequiredFields then FieldsMissing
    else Complete
  }

  /** A total that is present but not a number (parseFloat gives NaN) does not raise the missing-total warning. */
  lemma NonNumericTotalIsNotMissing(rc: UploadedReceipt)
    requires Truthy(rc.total) && ParseFloat(rc.total).None?
    ensures Classify(rc) != TotalUnreadable
  {
  }

  /** The result card's fields, renamed from the backend's keys. */
  function ResultOf(rc: UploadedReceipt): (row: ReceiptRow)
    ensures row.firmaUnvani == rc.company_name && row.tarih == rc.date && row.fisNo == rc.receipt_number
    ensures row.giderCinsi == rc.category && row.toplamTutar == rc.total
    ensures row.kdv1 == rc.vat1 && row.kdv10 == rc.vat10 && row.kdv20 == rc.vat20
  {
    ReceiptRow(rc.company_name, rc.date, rc.receipt_number, rc.category, rc.total, rc.vat1, rc.vat10, rc.vat20)
  }

  /** The result card's warning: `!result.toplamTutar || parseFloat(result.toplamTutar) === 0`. */
  function CardWarning(row: ReceiptRow): (warn: bool)
    ensures warn <==> TotalMissing(row.toplamTutar)
  {
    !Truthy(row.toplamTutar) || ParseFloat(row.toplamTutar) == Some(0.0)
  }

  /** The card warns exactly when the upload raised the missing-total alert for the same reply. */
  lemma CardWarningMatchesAlert(rc: UploadedReceipt)
    ensures CardWarning(ResultOf(rc)) <==> Classify(rc) == TotalUnreadable
  {
  }

  /** A missing (falsy) VAT field counts as 0; a present one is parsed and may be NaN. */
  function VatOrZero(v: JsValue): (r: Option<real>)
    ensures !Truthy(v) ==> r == Some(0.0)
    ensures Truthy(v) ==> r == ParseFloat(v)
  {
    FloatOfOrZero(v)
  }

  /**
    `Toplam KDV`: `parseFloat(kdv1 || 0) + parseFloat(kdv10 || 0) + parseFloat(kdv20 || 0)`.
    None is NaN, which any present but non-numeric field produces.
   */
  function TotalVat(row: ReceiptRow): (r: Option<real>)
    ensures r.Some? <==> VatOrZero(row.kdv1).Some? && VatOrZero(row.kdv10).Some? && VatOrZero(row.kdv20).Some?
    ensures r.Some? ==> r.value == VatOrZero(row.kdv1).value + VatOrZero(row.kdv10).value + VatOrZero(row.kdv20).value
  {
    match (VatOrZero(row.kdv1), VatOrZero(row.kdv10), VatOrZero(row.kdv20))
    case (Some(a), Some(b), Some(c)) => Some(a + b + c)
    case _ => None
  }

  /** With numbers in all three fields the total VAT is their sum; missing fields count as 0. */
  lemma TotalVatOfNumbers(row: ReceiptRow, a: real, b: real, c: real)
    requires row.kdv1 == Num(a) && row.kdv10 == Num(b) && row.kdv20 == Num(c)
    ensures TotalVat(row) == Some(a + b + c)
    ensures TotalVat(row.(kdv1 := Undefined)) == Some(b + c)
    ensures TotalVat(row.(kdv1 := Null, kdv10 := Str(""), kdv20 := Undefined)) == Some(0.0)
  {
  }

  /** What the page tells the user. */
  datatype Notice =
    | ChoosePhoto                 // 'Lütfen bir fotoğraf seçin!'
    | PhotoUnprocessable          // 'Fotoğraf işlenemedi!'
    | Saved(verdict: Verdict)     // one of the three alerts after a successful upload
    | UploadFailed(detail: JsValue)

  /** `error.response?.data?.error || error.message`. */
  function ErrorDetail(serverError: JsValue, message: string): (detail: JsValue)
    ensures Truthy(serverError) ==> detail == serverError
    ensures !Truthy(serverError) ==> detail == Str(message)
    ensures Truthy(detail) <==> Truthy(serverError) || message != ""
  {
    Or(serverError, Str(message))
  }

  class UploadScreen {
    var selectedFile: Option<File>
    var preview: Option<string>
    var loading: bool
    var result: Option<ReceiptRow>

    /** While a request is in flight a file is selected and no result is shown. */
    predicate Valid()
      reads this
    {
      loading ==> selectedFile.Some? && result.None?
    }

    constructor ()
      ensures Valid()
      ensures selectedFile.None? && preview.None? && !loading && result.None?
    {
      selectedFile, preview, loading, result := None, None, false, None;
    }

    /**
      `handleFileSelect`: no file picked changes nothing; a compression failure
      (`compressed` is None) alerts and changes nothing; otherwise the compressed
      file is selected and its data URL becomes the preview.
     */
    method SelectFile(picked: Option<File>, compressed: Option<seq<bv8>>, dataUrl: string) returns (notice: Option<Notice>)
      requires Valid()
      modifies this
      ensures Valid() && loading == old(loading) && result == old(result)
      ensures picked.None? ==> notice.None? && selectedFile == old(selectedFile) && preview == old(preview)
      ensures picked.Some? && compressed.None? ==>
        notice == Some(PhotoUnprocessable) && selectedFile == old(selectedFile) && preview == old(preview)
      ensures picked.Some? && compressed.Some? ==>
        notice.None? && selectedFile == Some(CompressedFile(picked.value, compressed.value)) && preview == Some(dataUrl)
    {
      notice := None;
      if picked.Some? {
        if compressed.None? {
          notice := Some(PhotoUnprocessable);
        } else {
          selectedFile := Some(CompressedFile(picked.value, compressed.value));
          preview := Some(dataUrl);
        }
      }
    }

    /**
      The synchronous start of `handleUpload` (its button is hidden while loading): with no file it alerts and changes
      nothing, sending no request; otherwise the selected file is sent, loading
      starts and the previous result is cleared.
     */
    method StartUpload() returns (sent: Option<File>, notice: Option<Notice>)
      requires Valid() && !loading
      modifies this
      ensures Valid()
      ensures old(selectedFile).None? ==> sent.None? && notice == Some(ChoosePhoto)
      ensures old(selectedFile).None? ==>
        selectedFile == old(selectedFile) && preview == old(preview) && loading == old(loading) && result == old(result)
      ensures old(selectedFile).Some? ==> sent == old(selectedFile) && notice.None?
      ensures old(selectedFile).Some? ==>
        loading && result.None? && selectedFile == old(selectedFile) && preview == old(preview)
    {
      if selectedFile.None? {
        return None, Some(ChoosePhoto);
      }
      sent, notice := selectedFile, None;
      loading := true;
      result := None;
    }

    /**
      The rest of `handleUpload`, once the reply is in. Success shows the result,
      raises the classifier's alert and clears file and preview; `success: false`
      (silently) and a thrown error (with an alert) keep file and preview and
      leave the result empty. Loading ends in every case.
     */
    method FinishUpload(reply: UploadReply) returns (notice: Option<Notice>)
      requires Valid() && loading
      modifies this
      ensures Valid() && !loading
      ensures reply.UploadReply? && reply.success ==>
        && result == Some(ResultOf(reply.receipt))
        && notice == Some(Saved(Classify(reply.receipt)))
        && selectedFile.None? && preview.None?
      ensures reply.UploadReply? && !reply.success ==>
        notice.None? && result.None? && selectedFile == old(selectedFile) && preview == old(preview)
      ensures reply.UploadThrew? ==>
        && notice == Some(UploadFailed(ErrorDetail(reply.serverError, reply.message)))
        && result.None? && selectedFile == old(selectedFile) && preview == old(preview)
    {
      notice := None;
      match reply {
        case UploadReply(success, rc) =>
          if success {
            result := Some(ResultOf(rc));
            notice := Some(Saved(Classify(rc)));
            selectedFile := None;
            preview := None;
          }
        case UploadThrew(serverError, message) =>
          notice := Some(UploadFailed(ErrorDetail(serverError, message)));
      }
      loading := false;
    }

    /** `handleReset`: file, preview and result are cleared. Neither of its two buttons is shown while loading. */
    method Reset()
      requires Valid() && !loading
      modifies this
      ensures Valid()
      ensures selectedFile.None? && preview.None? && result.None? && loading == old(loading)
    {
      selectedFile, preview, result := None, None, None;
    }
  }
}
