/**
  The dashboard (src/pages/Dashboard.jsx): the statistics computed from the
  receipt list, the export flow with its own list request, and the choice
  between the export button and the empty-state card.
 */
module DashboardPage {
  import opened JsValues
  import opened ReceiptLists
  import ReceiptsPage

  datatype Stats = Stats(totalReceipts: nat, totalAmount: real, totalKdv: real)

  /** The statistics `loadStats` derives from a successful list reply. */
  function StatsOf(rs: seq<Receipt>): (s: Stats)
    ensures s.totalReceipts == |rs|
    ensures s.totalAmount == AmountTotal(rs) && s.totalKdv == Kdv20Total(rs)
  {
    Stats(|rs|, AmountTotal(rs), Kdv20Total(rs))
  }

  /** For the same list the dashboard shows exactly the figures of the Receipts page's footer. */
  lemma StatsMatchFooter(rs: seq<Receipt>)
    ensures StatsOf(rs).totalReceipts == ReceiptsPage.Footer(rs).count
    ensures StatsOf(rs).totalAmount == ReceiptsPage.Footer(rs).totalAmount
    ensures StatsOf(rs).totalKdv == ReceiptsPage.Footer(rs).kdv20
  {
  }

  /** What the export button leads to. */
  datatype ExportDecision =
    | FetchError                         // the list request threw: the error alert, nothing posted
    | NothingToExport                    // `!success` or an empty list: "no receipts" alert, nothing posted
    | PostRows(rows: seq<ReceiptRow>)    // the rows posted to `/api/ocr/export-excel`

  /** `exportToExcel`: the guard on the fresh list reply, then the mapping. */
  function ExportDecisionOf(reply: ListReply): (d: ExportDecision)
    ensures d.FetchError? <==> reply.ListFailed?
    ensures d.NothingToExport? <==> reply.ListReply? && (!reply.success || reply.receipts == [])
    ensures d.PostRows? ==> reply.ListReply? && reply.success && d.rows == ExportRows(reply.receipts)
    ensures d.PostRows? ==> |d.rows| == |reply.receipts| > 0
  {
    match reply
    case ListFailed => FetchError
    case ListReply(success, rs) =>
      if !success || |rs| == 0 then NothingToExport else PostRows(ExportRows(rs))
  }

  /** Whichever of the two the quick-actions area shows below the upload button. */
  datatype Panel = ExportButton(count: nat) | EmptyState

  /** `stats.totalReceipts > 0 && <button>` and `stats.totalReceipts === 0 && <card>`: exactly one is shown. */
  function PanelOf(stats: Stats): (p: Panel)
    ensures p.ExportButton? <==> stats.totalReceipts > 0
    ensures p.EmptyState? <==> stats.totalReceipts == 0
    ensures p.ExportButton? ==> p.count == stats.totalReceipts
  {
    if stats.totalReceipts > 0 then ExportButton(stats.totalReceipts) else EmptyState
  }

  class DashboardScreen {
    var stats: Stats
    var loading: bool

    /** Zero receipts, zero amount, zero VAT; loading until the first reply. */
    constructor ()
      ensures stats == Stats(0, 0.0, 0.0) && loading
    {
      stats, loading := Stats(0, 0.0, 0.0), true;
    }

    /** `loadStats`: a successful reply replaces the statistics; an error or `success: false` keeps them. */
    method LoadStats(reply: ListReply)
      modifies this
      ensures !loading
      ensures reply.ListReply? && reply.success ==> stats == StatsOf(reply.receipts)
      ensures !(reply.ListReply? && reply.success) ==> stats == old(stats)
    {
      if reply.ListReply? && reply.success {
        stats := StatsOf(reply.receipts);
      }
      loading := false;
    }
  }
}
