/** The expended-donation list (routes/ExpendedDonations/GetAllExpendedDonations.ts):
    the cached expended donations in ascending expended-donation number, only those
    of one address (compared ignoring case) when an address is given, and of one
    donation number when an address and a number are both given. */
module ExpendedDonationListing {
  import opened Js
  import opened Records

  const NotIntegerMessage := "The donation number must be an integer"

  /** The query; an absent parameter is "". */
  datatype ExpendedQuery = ExpendedQuery(page: Page, address: string, donationNumber: string)

  datatype ExpendedPage = ExpendedPage(expendedDonations: seq<ExpendedDonation>, total: nat)

  function ExpendedNumberOf(e: ExpendedDonation): int
  {
    e.expendedDonationNumber
  }

  function ExpendedFrom(address: string): ExpendedDonation -> bool
  {
    (e: ExpendedDonation) => SameIgnoringCase(e.donator, address)
  }

  function OfDonation(n: int): ExpendedDonation -> bool
  {
    (e: ExpendedDonation) => e.donationNumber == n
  }

  /** The number filter is used only alongside an address. */
  predicate FiltersNumber(q: ExpendedQuery)
  {
    q.address != [] && q.donationNumber != []
  }

  /** The expended donations the route lists, before paging, or None when the
      donation number is not a number. */
  function Listed(q: ExpendedQuery, eds: seq<ExpendedDonation>): Option<seq<ExpendedDonation>>
  {
    var allExpendedDonations := SortBy(eds, ExpendedNumberOf);
    var byAddress := if q.address == [] then allExpendedDonations
                     else Filter(allExpendedDonations, ExpendedFrom(q.address));
    if !FiltersNumber(q) then Some(byAddress)
    else match ToNumber(q.donationNumber)
      case NaN => None
      case Finite(n) => Some(Filter(byAddress, OfDonation(n)))
  }

  /** `init`: a page error, then a donation number that is not a number, are 400s;
      otherwise the page and the number of matches. */
  function ExpendedReply(q: ExpendedQuery, eds: seq<ExpendedDonation>): (r: Reply<ExpendedPage>)
    ensures r.ok <==> q.page.PageRange? && (FiltersNumber(q) ==> ToNumber(q.donationNumber).Finite?)
    ensures q.page.PageError? ==> r == Failure(400, q.page.message)
    ensures q.page.PageRange? && FiltersNumber(q) && ToNumber(q.donationNumber).NaN? ==> r == Failure(400, NotIntegerMessage)
    ensures r.ok ==>
      && r.status == 200 && Listed(q, eds).Some?
      && r.payload == Some(ExpendedPage(Slice(Listed(q, eds).value, q.page.start, q.page.end), |Listed(q, eds).value|))
  {
    match q.page
    case PageError(message) => Failure(400, message)
    case PageRange(start, end) =>
      match Listed(q, eds)
      case None => Failure(400, NotIntegerMessage)
      case Some(expendedDonations) =>
        Success(ExpendedPage(Slice(expendedDonations, start, end), |expendedDonations|))
  }

  /** What is listed: in expended-donation order, and exactly the expended
      donations of the address (ignoring case) and, when given with it, of the
      donation number. Without an address the number is ignored. */
  lemma ListedMeaning(q: ExpendedQuery, eds: seq<ExpendedDonation>)
    requires Listed(q, eds).Some?
    ensures SortedBy(Listed(q, eds).value, ExpendedNumberOf)
    ensures forall e :: e in Listed(q, eds).value <==>
      && e in eds
      && (q.address == [] || SameIgnoringCase(e.donator, q.address))
      && (FiltersNumber(q) ==> Finite(e.donationNumber) == ToNumber(q.donationNumber))
    ensures q.address == [] ==> multiset(Listed(q, eds).value) == multiset(eds)
  {
    var allExpendedDonations := SortBy(eds, ExpendedNumberOf);
    SortByCorrect(eds, ExpendedNumberOf);
    var byAddress := if q.address == [] then allExpendedDonations
                     else Filter(allExpendedDonations, ExpendedFrom(q.address));
    assert SortedBy(byAddress, ExpendedNumberOf) by {
      if q.address != [] {
        FilterSorted(allExpendedDonations, ExpendedFrom(q.address), ExpendedNumberOf);
      }
    }
    forall e ensures e in byAddress <==> e in eds && (q.address == [] || SameIgnoringCase(e.donator, q.address)) {
      assert e in allExpendedDonations <==> e in multiset(eds);
      if q.address != [] {
        FilterMembers(allExpendedDonations, ExpendedFrom(q.address), e);
      }
    }
    if FiltersNumber(q) {
      var n := ToNumber(q.donationNumber).n;
      FilterSorted(byAddress, OfDonation(n), ExpendedNumberOf);
      forall e ensures e in Listed(q, eds).value <==> e in byAddress && e.donationNumber == n {
        FilterMembers(byAddress, OfDonation(n), e);
      }
    }
  }

  /** A number that is not a number is refused even when nothing would match. */
  lemma NotANumberRefused(start: nat, end: nat, address: string, eds: seq<ExpendedDonation>)
    requires address != []
    ensures ExpendedReply(ExpendedQuery(PageRange(start, end), address, "12a"), eds) == Failure(400, NotIntegerMessage)
  {
    assert !IsDigit("12a"[2]);
  }
}
