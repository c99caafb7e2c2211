/** The records the service keeps in its cache and reads from the ledger, and the
    `{ok, payload, error}` reply every HTTP route sends. Ledger integers (wei, cents,
    counters, timestamps) are `nat`. */
module Records {
  import opened Js

  /** One donation as the ledger's `donations(address, number)` view returns it. */
  datatype Donation = Donation(
    donator: string,
    value: nat,
    timestamp: nat,
    valueExpendedETH: nat,
    valueExpendedUSD: nat,
    valueRefundedETH: nat,
    donationNumber: nat,
    numExpenditures: nat)

  /** The key the routes order donations by. */
  function TimestampOf(d: Donation): int
  {
    d.timestamp
  }

  /** What is left of a donation to expend or refund: value - expended - refunded
      (negative when the ledger's balance invariant is broken). */
  function Available(d: Donation): int
  {
    d.value - d.valueExpendedETH - d.valueRefundedETH
  }

  /** Maps a global donation index to the (address, per-address number) pair of
      the donation. `addressDonationNum` comes from `Number()` and may be NaN. */
  datatype DonationTrackerItem = DonationTrackerItem(
    overallDonationNum: nat,
    addressDonationNum: Num,
    address: string)

  /** An expended donation not yet written to the ledger. The USD and plates
      shares are NaN when the expenditure's wei is 0 (0/0 in the source). */
  datatype PendingExpendedDonation = PendingExpendedDonation(
    donator: string,
    valueExpendedETH: nat,
    valueExpendedUSD: Num,
    donationNumber: nat,
    expenditureNumber: nat,
    platesDeployed: Num)

  /** A refund not yet written to the ledger. */
  datatype PendingRefund = PendingRefund(
    address: string,
    donationNumber: nat,
    valueETHToRefund: int)

  datatype ExpendedDonation = ExpendedDonation(
    expendedDonationNumber: nat,
    donator: string,
    valueExpendedETH: nat,
    valueExpendedUSD: nat,
    expenditureNumber: nat,
    donationNumber: nat,
    platesDeployed: nat)

  datatype Expenditure = Expenditure(
    expenditureNumber: nat,
    valueExpendedETH: nat,
    valueExpendedUSD: nat,
    videoHash: string,
    receiptHash: string,
    timestamp: nat,
    numExpendedDonations: nat,
    valueExpendedByDonations: nat,
    platesDeployed: nat)

  /** The maximum or the latest donation, as cached for the landing page. */
  datatype SpotlightDonation = SpotlightDonation(donator: string, value: nat, timestamp: Num)

  /** The page window a paginated route asks for: `getPageStartEnd(page, pageSize)`,
      which is not part of this model, gives either an error message or the
      bounds passed to `slice`. */
  datatype Page = PageError(message: string) | PageRange(start: nat, end: nat)

  /** The JSON body `{ok, payload, error}` and the status code a route asks for. */
  datatype Reply<P> = Reply(ok: bool, status: nat, payload: Option<P>, error: Option<string>)

  function Success<P>(payload: P): Reply<P>
  {
    Reply(true, 200, Some(payload), None)
  }

  function Failure<P>(status: nat, message: string): Reply<P>
  {
    Reply(false, status, None, Some(message))
  }
}
