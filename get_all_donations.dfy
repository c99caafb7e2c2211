/** The donation list (routes/Donations/GetAllDonations.ts): the cached donations
    in timestamp order, only those of one address (compared ignoring case) when an
    address is given, one page of them and the number that matched. */
module DonationListing {
  import opened Js
  import opened Records

  datatype DonationPage = DonationPage(donations: seq<Donation>, total: nat)

  function FromAddress(address: string): Donation -> bool
  {
    (d: Donation) => SameIgnoringCase(d.donator, address)
  }

  /** The donations the route lists, before paging; `address` is "" when absent. */
  function Listed(address: string, ds: seq<Donation>): seq<Donation>
  {
    var allDonations := SortBy(ds, TimestampOf);
    if address == [] then allDonations else Filter(allDonations, FromAddress(address))
  }

  /** `init`: a page error is a 400; otherwise the page and the matched count. */
  function AllDonationsReply(page: Page, address: string, ds: seq<Donation>): (r: Reply<DonationPage>)
    ensures r.ok <==> page.PageRange?
    ensures page.PageError? ==> r == Failure(400, page.message)
    ensures r.ok ==>
      && r.status == 200
      && r.payload == Some(DonationPage(Slice(Listed(address, ds), page.start, page.end), |Listed(address, ds)|))
  {
    match page
    case PageError(message) => Failure(400, message)
    case PageRange(start, end) =>
      var donations := Listed(address, ds);
      Success(DonationPage(Slice(donations, start, end), |donations|))
  }

  /** The listed donations are in timestamp order, are the donations of the
      address (or all of them) with every repetition kept, and only those. */
  lemma ListedMeaning(address: string, ds: seq<Donation>)
    ensures SortedBy(Listed(address, ds), TimestampOf)
    ensures address == [] ==> multiset(Listed(address, ds)) == multiset(ds)
    ensures address != [] ==> multiset(Listed(address, ds)) == multiset(Filter(ds, FromAddress(address)))
    ensures forall d :: d in Listed(address, ds) <==>
      d in ds && (address == [] || SameIgnoringCase(d.donator, address))
  {
    var allDonations := SortBy(ds, TimestampOf);
    SortByCorrect(ds, TimestampOf);
    if address != [] {
      FilterSorted(allDonations, FromAddress(address), TimestampOf);
      FilterPermutation(allDonations, ds, FromAddress(address));
      forall d ensures d in Listed(address, ds) <==> d in ds && SameIgnoringCase(d.donator, address) {
        FilterMembers(allDonations, FromAddress(address), d);
        assert d in allDonations <==> d in multiset(ds);
      }
    } else {
      forall d ensures d in Listed(address, ds) <==> d in ds {
        assert d in allDonations <==> d in multiset(ds);
      }
    }
  }

  /** `total` counts every matching donation, not just the page. */
  lemma TotalCountsMatches(page: Page, address: string, ds: seq<Donation>)
    requires page.PageRange? && address != []
    ensures AllDonationsReply(page, address, ds).payload.value.total == |Filter(ds, FromAddress(address))|
  {
    ListedMeaning(address, ds);
    assert |multiset(Listed(address, ds))| == |multiset(Filter(ds, FromAddress(address)))|;
  }
}
