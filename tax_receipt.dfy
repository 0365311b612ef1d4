/**
 * The tax-receipt modal: fixed donation records, their total and count, and
 * the names of the files it offers for download.
 */
module TaxReceipt {
  import opened Wrappers
  import opened ListOps

  datatype Donation = Donation(date: string, campaign: string, amount: int, receiptId: string)

  /** The summary the open modal shows. */
  datatype Summary = Summary(totalDonations: int, receiptsAvailable: int, receipts: seq<Donation>)

  const Donations: seq<Donation> := [
    Donation("2024-01-15", "Hurricane Relief Fund", 250, "TR-2024-001"),
    Donation("2024-02-20", "Earthquake Response", 100, "TR-2024-002"),
    Donation("2024-03-10", "Wildfire Recovery", 75, "TR-2024-003"),
    Donation("2024-04-05", "Flood Relief", 150, "TR-2024-004")
  ]

  const ReceiptPrefix: string := "tax-receipt-"
  const ReceiptSuffix: string := ".pdf"
  const YearlyReportName: string := "yearly-tax-report-2024.pdf"

  function DonationAmount(d: Donation): int
  {
    d.amount
  }

  /** `totalDonations`. */
  function TotalDonations(ds: seq<Donation>): int
  {
    SumOf(DonationAmount, ds)
  }

  /** The receipt ids, in list order. */
  function ReceiptIds(ds: seq<Donation>): (r: seq<string>)
    ensures |r| == |ds| && forall k :: 0 <= k < |ds| ==> r[k] == ds[k].receiptId
  {
    if ds == [] then [] else [ds[0].receiptId] + ReceiptIds(ds[1..])
  }

  /** The rendered modal: nothing when closed, otherwise the total, the count and the receipts. */
  function Render(isOpen: bool): (r: Option<Summary>)
    ensures !isOpen ==> r == None
    ensures isOpen ==> r.Some? && r.value.receiptsAvailable == |Donations| && r.value.receipts == Donations
    ensures isOpen ==> r.value.totalDonations == TotalDonations(Donations)
  {
    if isOpen then Some(Summary(TotalDonations(Donations), |Donations|, Donations)) else None
  }

  /** The data's total is 575 over four receipts. */
  lemma ReceiptTotals()
    ensures TotalDonations(Donations) == 575 && |Donations| == 4
  {
    var ds := Donations;
    SumOfFront(DonationAmount, ds);
    SumOfFront(DonationAmount, ds[1..]);
    SumOfFront(DonationAmount, ds[2..]);
    SumOfFront(DonationAmount, ds[3..]);
    assert ds[3..][1..] == [];
  }

  /** The receipt ids are pairwise distinct, as their use as list keys needs. */
  lemma ReceiptIdsDistinct()
    ensures NoDuplicates(ReceiptIds(Donations))
  {
    var ids := ReceiptIds(Donations);
    forall i, j | 0 <= i < j < |ids| ensures ids[i] != ids[j] {
      assert ids[i][10] != ids[j][10];
    }
  }

  /** The per-receipt download name `tax-receipt-${receiptId}.pdf`. */
  function ReceiptFileName(receiptId: string): (r: string)
    ensures |r| == |ReceiptPrefix| + |receiptId| + |ReceiptSuffix|
    ensures r[..|ReceiptPrefix|] == ReceiptPrefix && r[|r| - |ReceiptSuffix|..] == ReceiptSuffix
  {
    ReceiptPrefix + receiptId + ReceiptSuffix
  }

  /** The receipt id a download name carries. */
  function ReceiptIdOf(fileName: string): string
    requires |fileName| >= |ReceiptPrefix| + |ReceiptSuffix|
  {
    fileName[|ReceiptPrefix|..|fileName| - |ReceiptSuffix|]
  }

  /** The id can be read back from the file name, so different receipts get different names. */
  lemma ReceiptFileNameRoundTrip(receiptId: string, other: string)
    ensures ReceiptIdOf(ReceiptFileName(receiptId)) == receiptId
    ensures other != receiptId ==> ReceiptFileName(other) != ReceiptFileName(receiptId)
  {
    var n := ReceiptFileName(receiptId);
    assert n[|ReceiptPrefix|..|n| - |ReceiptSuffix|] == receiptId;
    var m := ReceiptFileName(other);
    assert m[|ReceiptPrefix|..|m| - |ReceiptSuffix|] == other;
  }
  /** What a download handler does: the file name it offers and the alert it raises. */
  datatype Download = Download(fileName: string, alert: string)

  /** handleDownloadReceipt. */
  function DownloadReceipt(receiptId: string): (r: Download)
    ensures r.fileName == ReceiptFileName(receiptId)
    ensures r.alert == "Tax receipt " + receiptId + " downloaded successfully!"
  {
    Download(ReceiptFileName(receiptId), "Tax receipt " + receiptId + " downloaded successfully!")
  }

  /** handleDownloadYearlyReport: one fixed name, never a receipt's. */
  function DownloadYearlyReport(): (r: Download)
    ensures r.fileName == YearlyReportName && r.alert == "Yearly tax report downloaded successfully!"
  {
    Download(YearlyReportName, "Yearly tax report downloaded successfully!")
  }

  /** No receipt, whatever its id, downloads under the yearly report's name. */
  lemma YearlyReportNameIsNoReceiptName(receiptId: string)
    ensures ReceiptFileName(receiptId) != YearlyReportName
  {
    assert ReceiptFileName(receiptId)[0] == ReceiptPrefix[0] == 't';
    assert YearlyReportName[0] == 'y';
  }
}
