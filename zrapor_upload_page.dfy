/**
  The Z-report upload page (src/pages/ZRaporUpload.jsx): the same pick,
  compress and post steps as the receipt upload, against
  `/api/z-reports/upload`, with its own field mapping and no review heuristic.
 */
module ZReportUploadPage {
  import opened Wrappers
  import opened JsValues
  import opened ImageFiles

  /** The report in an upload reply, keyed as the OCR backend sends it. */
  datatype UploadedZReport = UploadedZReport(
    report_date: JsValue,
    fiscal_number: JsValue,
    total_sales: JsValue,
    total_vat: JsValue,
    cash_amount: JsValue,
    credit_card_amount: JsValue,
    receipt_count: JsValue)

  /** The result card's record. */
  datatype ZReportResult = ZReportResult(
    tarih: JsValue,
    raporNo: JsValue,
    toplamSatis: JsValue,
    toplamKdv: JsValue,
    nakitSatis: JsValue,
    posSatis: JsValue,
    fisNo: JsValue)

  /** A thrown error, or a body `{ success, zReport }`. */
  datatype ZReportReply =
    | ZReportThrew(serverError: JsValue, message: string)
    | ZReportReply(success: bool, zReport: UploadedZReport)

  /** The renaming of the seven report fields for the result card. */
  function ResultOf(z: UploadedZReport): (r: ZReportResult)
    ensures r.tarih == z.report_date && r.raporNo == z.fiscal_number
    ensures r.toplamSatis == z.total_sales && r.toplamKdv == z.total_vat
    ensures r.nakitSatis == z.cash_amount && r.posSatis == z.credit_card_amount
    ensures r.fisNo == z.receipt_count
  {
    ZReportResult(z.report_date, z.fiscal_number, z.total_sales, z.total_vat,
                  z.cash_amount, z.credit_card_amount, z.receipt_count)
  }

  /** Inverse of ResultOf. */
  function ReportOf(r: ZReportResult): UploadedZReport
  {
    UploadedZReport(r.tarih, r.raporNo, r.toplamSatis, r.toplamKdv, r.nakitSatis, r.posSatis, r.fisNo)
  }

  /** The mapping is a pure renaming: every field of the report can be read back from the card. */
  lemma ResultRoundTrip(z: UploadedZReport)
    ensures ReportOf(ResultOf(z)) == z
  {
  }

  datatype Notice =
    | ChoosePhoto                 // 'Lütfen bir fotoğraf seçin!'
    | PhotoUnprocessable          // 'Fotoğraf işlenemedi!'
    | Saved                       // the one success alert, whatever the report holds
    | UploadFailed(detail: JsValue)

  class ZReportUploadScreen {
    var selectedFile: Option<File>
    var preview: Option<string>
    var loading: bool
    var result: Option<ZReportResult>

    /** While a request is in flight a file is selected and no result is shown. */
    predicate Valid()
      reads this
    {
      loading ==> selectedFile.Some? && result.None?
    }

    constructor ()
      ensures Valid()
      ensures selectedFile.None? && preview.None? && !loading && result.None?
    {
      selectedFile, preview, loading, result := None, None, false, None;
    }

    /**
      `handleFileSelect`: the compressed file keeps the picked file's name and is
      typed image/jpeg; a compression failure alerts and changes nothing.
     */
    method SelectFile(picked: Option<File>, compressed: Option<seq<bv8>>, dataUrl: string) returns (notice: Option<Notice>)
      requires Valid()
      modifies this
      ensures Valid() && loading == old(loading) && result == old(result)
      ensures picked.None? ==> notice.None? && selectedFile == old(selectedFile) && preview == old(preview)
      ensures picked.Some? && compressed.None? ==>
        notice == Some(PhotoUnprocessable) && selectedFile == old(selectedFile) && preview == old(preview)
      ensures picked.Some? && compressed.Some? ==>
        && notice.None? && preview == Some(dataUrl)
        && selectedFile == Some(CompressedFile(picked.value, compressed.value))
        && selectedFile.value.name == picked.value.name && selectedFile.value.mimeType == "image/jpeg"
    {
      notice := None;
      if picked.Some? {
        if compressed.None? {
          notice := Some(PhotoUnprocessable);
        } else {
          selectedFile := Some(CompressedFile(picked.value, compressed.value));
          preview := Some(dataUrl);
        }
      }
    }

    /**
      The synchronous start of `handleUpload` (its button is hidden while
      loading): with no file it alerts and sends nothing; otherwise loading
      starts and the previous result is cleared.
     */
    method StartUpload() returns (sent: Option<File>, notice: Option<Notice>)
      requires Valid() && !loading
      modifies this
      ensures Valid()
      ensures old(selectedFile).None? ==> sent.None? && notice == Some(ChoosePhoto)
      ensures old(selectedFile).None? ==>
        selectedFile == old(selectedFile) && preview == old(preview) && loading == old(loading) && result == old(result)
      ensures old(selectedFile).Some? ==> sent == old(selectedFile) && notice.None?
      ensures old(selectedFile).Some? ==>
        loading && result.None? && selectedFile == old(selectedFile) && preview == old(preview)
    {
      if selectedFile.None? {
        return None, Some(ChoosePhoto);
      }
      sent, notice := selectedFile, None;
      loading := true;
      result := None;
    }

    /**
      The rest of `handleUpload`: success keeps the mapped report, always gives
      the plain success alert and clears file and preview; `success: false` and
      a thrown error keep file and preview with no result. Loading ends in every case.
     */
    method FinishUpload(reply: ZReportReply) returns (notice: Option<Notice>)
      requires Valid() && loading
      modifies this
      ensures Valid() && !loading
      ensures reply.ZReportReply? && reply.success ==>
        result == Some(ResultOf(reply.zReport)) && notice == Some(Saved) && selectedFile.None? && preview.None?
      ensures reply.ZReportReply? && !reply.success ==>
        notice.None? && result.None? && selectedFile == old(selectedFile) && preview == old(preview)
      ensures reply.ZReportThrew? ==>
        && notice == Some(UploadFailed(Or(reply.serverError, Str(reply.message))))
        && result.None? && selectedFile == old(selectedFile) && preview == old(preview)
    {
      notice := None;
      match reply {
        case ZReportReply(success, z) =>
          if success {
            result := Some(ResultOf(z));
            notice := Some(Saved);
            selectedFile := None;
            preview := None;
          }
        case ZReportThrew(serverError, message) =>
          notice := Some(UploadFailed(Or(serverError, Str(message))));
      }
      loading := false;
    }

    /** `handleReset`: file, preview and result are cleared. Neither of its two buttons is shown while loading. */
    method Reset()
      requires Valid() && !loading
      modifies this
      ensures Valid()
      ensures selectedFile.None? && preview.None? && result.None? && loading == old(loading)
    {
      selectedFile, preview, result := None, None, None;
    }
  }
}
