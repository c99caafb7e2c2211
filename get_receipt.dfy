/** The tax receipt (routes/Receipts/GetReceipt.ts): the USD cents expended from
    one address's donations made strictly inside a time window are summed, and a
    receipt is issued when the sum is not zero. Whether luxon accepts each
    timestamp and the URL the PDF generator returns ("" when it fails) are inputs. */
module Receipts {
  import opened Js
  import opened Records

  const BadBeginMessage := "The beginTimestamp must be a timestamp in milliseconds"
  const BadEndMessage := "The endTimestamp must be a timestamp in milliseconds"
  const NoDonorNameMessage := "A donorName must be provided"
  const NoAddressMessage := "An ethereum address for the donor must be provided"
  const NothingFoundMessage := "No donations could be found for the address, beginning date and ending date provided"
  const NoPdfMessage := "A PDF could not be generated for a receipt"

  /** The query strings ("" when absent) and luxon's verdict on each timestamp. */
  datatype ReceiptQuery = ReceiptQuery(
    beginTimestamp: string,
    endTimestamp: string,
    donorName: string,
    address: string,
    beginIsValidDate: bool,
    endIsValidDate: bool)

  datatype ReceiptUrl = ReceiptUrl(url: string)

  /** A timestamp parameter is present, is a number, and is a date luxon accepts. */
  predicate TimestampGiven(s: string, isValidDate: bool)
  {
    s != [] && ToNumber(s).Finite? && isValidDate
  }

  /** A donation that counts: from exactly this address (case matters) and made
      strictly after `begin` and strictly before `end`, in milliseconds. */
  predicate InWindow(d: Donation, address: string, begin: int, end: int)
  {
    d.donator == address && begin < d.timestamp * 1000 < end
  }

  function Counted(address: string, begin: int, end: int): Donation -> bool
  {
    d => InWindow(d, address, begin, end)
  }

  function ExpendedUsdOf(d: Donation): int
  {
    d.valueExpendedUSD
  }

  /** The USD cents expended from the donations in the window. */
  function WindowTotal(ds: seq<Donation>, address: string, begin: int, end: int): int
  {
    Sum(Filter(ds, Counted(address, begin, end)), ExpendedUsdOf)
  }

  /** The summing loop over the donation list. */
  method TotalCentsExpended(ds: seq<Donation>, address: string, begin: int, end: int) returns (total: int)
    ensures total == WindowTotal(ds, address, begin, end)
  {
    total := 0;
    for i := 0 to |ds|
      invariant total == WindowTotal(ds[..i], address, begin, end)
    {
      var donation := ds[i];
      assert ds[..i + 1] == ds[..i] + [donation];
      FilterConcat(ds[..i], [donation], Counted(address, begin, end));
      SumConcat(Filter(ds[..i], Counted(address, begin, end)), Filter([donation], Counted(address, begin, end)), ExpendedUsdOf);
      var timestampMilli := donation.timestamp * 1000;
      if donation.donator == address && timestampMilli > begin && timestampMilli < end {
        total := total + donation.valueExpendedUSD;
      }
    }
    assert ds[..|ds|] == ds;
  }

  /** The specification of the route: the checks in order, then the sum, then
      the PDF. `GetReceipt` below is the loop that implements it. */
  function ReceiptReply(q: ReceiptQuery, ds: seq<Donation>, url: string): (r: Reply<ReceiptUrl>)
    ensures !TimestampGiven(q.beginTimestamp, q.beginIsValidDate) ==> r == Failure(400, BadBeginMessage)
    ensures TimestampGiven(q.beginTimestamp, q.beginIsValidDate) && !TimestampGiven(q.endTimestamp, q.endIsValidDate)
            ==> r == Failure(400, BadEndMessage)
    ensures r.ok <==>
      && TimestampGiven(q.beginTimestamp, q.beginIsValidDate)
      && TimestampGiven(q.endTimestamp, q.endIsValidDate)
      && q.donorName != [] && q.address != []
      && WindowTotal(ds, q.address, ToNumber(q.beginTimestamp).n, ToNumber(q.endTimestamp).n) != 0
      && url != []
    ensures r.ok ==> r == Success(ReceiptUrl(url))
    ensures !r.ok ==> r.status in {400, 500} && r.payload.None?
  {
    if !TimestampGiven(q.beginTimestamp, q.beginIsValidDate) then Failure(400, BadBeginMessage)
    else if !TimestampGiven(q.endTimestamp, q.endIsValidDate) then Failure(400, BadEndMessage)
    else if q.donorName == [] then Failure(400, NoDonorNameMessage)
    else if q.address == [] then Failure(400, NoAddressMessage)
    else if WindowTotal(ds, q.address, ToNumber(q.beginTimestamp).n, ToNumber(q.endTimestamp).n) == 0 then
      Failure(400, NothingFoundMessage)
    else if url == [] then Failure(500, NoPdfMessage)
    else Success(ReceiptUrl(url))
  }

  /** `init`, the implementation: proved to give `ReceiptReply`. */
  method GetReceipt(q: ReceiptQuery, allDonations: seq<Donation>, url: string) returns (reply: Reply<ReceiptUrl>)
    ensures reply == ReceiptReply(q, allDonations, url)
  {
    if !TimestampGiven(q.beginTimestamp, q.beginIsValidDate) {
      return Failure(400, BadBeginMessage);
    }
    if !TimestampGiven(q.endTimestamp, q.endIsValidDate) {
      return Failure(400, BadEndMessage);
    }
    if q.donorName == [] {
      return Failure(400, NoDonorNameMessage);
    }
    if q.address == [] {
      return Failure(400, NoAddressMessage);
    }
    var totalCentsExpended := TotalCentsExpended(allDonations, q.address,
      ToNumber(q.beginTimestamp).n, ToNumber(q.endTimestamp).n);
    if totalCentsExpended == 0 {
      return Failure(400, NothingFoundMessage);
    }
    if url == [] {
      return Failure(500, NoPdfMessage);
    }
    reply := Success(ReceiptUrl(url));
  }

  /** The total is never negative, and it is zero exactly when no donation in the
      window had any USD expended from it. */
  lemma WindowTotalZero(ds: seq<Donation>, address: string, begin: int, end: int)
    ensures WindowTotal(ds, address, begin, end) >= 0
    ensures WindowTotal(ds, address, begin, end) == 0 <==>
      forall d :: d in ds && InWindow(d, address, begin, end) ==> d.valueExpendedUSD == 0
  {
    var counted := Filter(ds, Counted(address, begin, end));
    SumNonNegative(counted, ExpendedUsdOf);
    forall d ensures d in counted <==> d in ds && InWindow(d, address, begin, end) {
      FilterMembers(ds, Counted(address, begin, end), d);
    }
    if WindowTotal(ds, address, begin, end) == 0 {
      forall d | d in ds && InWindow(d, address, begin, end) ensures d.valueExpendedUSD == 0 {
        var i :| 0 <= i < |counted| && counted[i] == d;
      }
    }
  }

  /** One more donation adds its expended cents when it is in the window (same
      address, strictly inside), and nothing otherwise. */
  lemma WindowTotalAppend(ds: seq<Donation>, d: Donation, address: string, begin: int, end: int)
    ensures WindowTotal(ds + [d], address, begin, end)
         == WindowTotal(ds, address, begin, end) + (if InWindow(d, address, begin, end) then d.valueExpendedUSD else 0)
  {
    FilterConcat(ds, [d], Counted(address, begin, end));
    SumConcat(Filter(ds, Counted(address, begin, end)), Filter([d], Counted(address, begin, end)), ExpendedUsdOf);
  }

  /** The address is compared with its case, and both ends of the window are
      excluded: a donation at exactly the beginning or the end does not count. */
  lemma WindowIsStrictAndCaseSensitive(d: Donation, begin: int, end: int)
    requires d.valueExpendedUSD > 0 && d.donator == "0xAB"
    ensures WindowTotal([d], "0xab", begin, end) == 0
    ensures d.timestamp * 1000 == begin ==> WindowTotal([d], "0xAB", begin, end) == 0
    ensures d.timestamp * 1000 == end ==> WindowTotal([d], "0xAB", begin, end) == 0
    ensures begin < d.timestamp * 1000 < end ==> WindowTotal([d], "0xAB", begin, end) == d.valueExpendedUSD
  {
    assert "0xAB" != "0xab" by {
      assert "0xAB"[2] != "0xab"[2];
    }
    WindowTotalAppend([], d, "0xab", begin, end);
    WindowTotalAppend([], d, "0xAB", begin, end);
    assert [] + [d] == [d];
  }
}
