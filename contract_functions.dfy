/** The read side of the ledger contract (Infura/StandardCharity/ContractFunctions.ts):
    the guards around one `eth_call`, and how each getter turns the decoded result
    into a value, with its default when the result is missing.

    A decoded result is a map from field names ('0', 'donator', ...) to the strings
    the ABI decoder produced; a missing key is `undefined`. The wallet, the call
    encoding, the RPC response and the decoder are inputs. */
module LedgerReads {
  import opened Js
  import opened Records

  type Decoded = map<string, string>

  /** `result && result[key]`: present and a nonempty string. */
  predicate Truthy(r: Option<Decoded>, key: string)
  {
    r.Some? && key in r.value && r.value[key] != []
  }

  /** The body of the `eth_call`; `value` is only set when nonzero. */
  datatype CallObject = CallObject(from: string, to: string, data: string, value: Option<int>)

  /** What `callStandardCharityContract` sent (None: nothing) and what it returns. */
  datatype Rpc = Rpc(sent: Option<CallObject>, result: Option<Decoded>)

  /** `callStandardCharityContract`. `wallet` is the configured wallet address;
      `callData` is "" when encoding failed; `response` is the RPC's `result`
      ("" when absent); `decoded` is what the decoder makes of it (None: it threw). */
  function CallStandardCharityContract(wallet: Option<string>, contract: string, callData: string,
                                       value: int, response: string, decoded: Option<Decoded>): (r: Rpc)
    ensures r.result.Some? ==> wallet.Some? && callData != [] && response != []
    ensures r.sent.Some? <==> wallet.Some? && callData != []
    ensures r.sent.Some? ==> r.sent.value.from == wallet.value && r.sent.value.data == callData
    ensures r.sent.Some? ==> (r.sent.value.value.Some? <==> value != 0)
    ensures r.sent.Some? && value != 0 ==> r.sent.value.value == Some(value)
  {
    if wallet.None? then Rpc(None, None)
    else if callData == [] then Rpc(None, None)
    else
      var call := CallObject(wallet.value, contract, callData, if value != 0 then Some(value) else None);
      if response == [] then Rpc(Some(call), None)
      else Rpc(Some(call), decoded)
  }

  // ---------------------------------------------------------------------------
  // Getters with defaults

  /** The count getters (`getTotalNumDonations`, `getTotalNumExpenditures`,
      `getTotalNumExpendedDonations`, `getTotalExpendedUsd`): `Number(result['0'])`,
      or 0 when it is missing or empty. */
  function CountOrZero(r: Option<Decoded>): (n: Num)
    ensures !Truthy(r, "0") ==> n == Finite(0)
    ensures Truthy(r, "0") ==> n == ToNumber(r.value["0"])
  {
    if Truthy(r, "0") then ToNumber(r.value["0"]) else Finite(0)
  }

  /** The amount getters (`getStandardCharityContractBalance`, `getTotalDonationsEth`,
      `getTotalExpendedEth`): the raw string, or "0" when it is missing or empty. */
  function AmountOrZero(r: Option<Decoded>): (s: string)
    ensures s != []
    ensures Truthy(r, "0") ==> s == r.value["0"]
    ensures !Truthy(r, "0") ==> s == "0"
  {
    if Truthy(r, "0") then r.value["0"] else "0"
  }

  /** A call of the ledger that threw out of the getter's own code, returned null,
      or returned a decoded result. */
  datatype Call = CallThrew | CallResult(result: Option<Decoded>)

  /** `getNextDonationToExpend`: null when the result is missing, but 0 when the
      getter throws. */
  function NextDonationToExpend(c: Call): (r: Option<Num>)
    ensures c.CallThrew? ==> r == Some(Finite(0))
    ensures c.CallResult? ==> (r.None? <==> !Truthy(c.result, "0"))
  {
    match c
    case CallThrew => Some(Finite(0))
    case CallResult(res) => if Truthy(res, "0") then Some(ToNumber(res.value["0"])) else None
  }

  /** A count the ledger printed in decimal reads back as itself; a result
      without field '0' reads as 0. */
  lemma CountOrZeroRoundTrip(k: nat, fields: Decoded)
    ensures CountOrZero(Some(fields["0" := NatToString(k)])) == Finite(k)
    ensures "0" !in fields ==> CountOrZero(Some(fields)) == Finite(0)
    ensures CountOrZero(None) == Finite(0)
  {
    ToNumberOfNatToString(k);
    NatToStringHasNoDash(k);
  }

  /** An amount is passed on as the ledger's decimal string, which `Number()`
      reads back as the amount; a missing amount is the string "0", which reads
      as 0. */
  lemma AmountOrZeroRoundTrip(k: nat, fields: Decoded)
    ensures ToNumber(AmountOrZero(Some(fields["0" := NatToString(k)]))) == Finite(k)
    ensures "0" !in fields ==> ToNumber(AmountOrZero(Some(fields))) == Finite(0)
    ensures ToNumber(AmountOrZero(None)) == Finite(0)
  {
    ToNumberOfNatToString(k);
    NatToStringHasNoDash(k);
    ToNumberOfNatToString(0);
  }

  /** The pointer the ledger printed reads back as itself; a missing one is null,
      unlike the 0 of a getter that threw. */
  lemma NextDonationToExpendRoundTrip(k: nat, fields: Decoded)
    ensures NextDonationToExpend(CallResult(Some(fields["0" := NatToString(k)]))) == Some(Finite(k))
    ensures "0" !in fields ==> NextDonationToExpend(CallResult(Some(fields))) == None
    ensures NextDonationToExpend(CallResult(None)) == None
  {
    ToNumberOfNatToString(k);
    NatToStringHasNoDash(k);
  }

  /** `getMaxDonation` and `getLatestDonation`: null unless donator, value and
      timestamp are all present and nonempty; `toBN` of a value that is not a
      decimal string throws, which also gives null. */
  function Spotlight(r: Option<Decoded>): (d: Option<SpotlightDonation>)
    ensures d.Some? ==> Truthy(r, "donator") && Truthy(r, "value") && Truthy(r, "timestamp")
    ensures d.Some? ==>
      && d.value.donator == r.value["donator"]
      && ToNumber(r.value["value"]) == Finite(d.value.value)
      && d.value.timestamp == ToNumber(r.value["timestamp"])
    ensures Truthy(r, "donator") && Truthy(r, "value") && Truthy(r, "timestamp") && AllDigits(r.value["value"])
      ==> d.Some?
  {
    if !Truthy(r, "donator") || !Truthy(r, "value") || !Truthy(r, "timestamp") then None
    else if !AllDigits(r.value["value"]) then None
    else Some(SpotlightDonation(r.value["donator"], DecimalValue(r.value["value"]), ToNumber(r.value["timestamp"])))
  }

  // ---------------------------------------------------------------------------
  // The donation tracker string "<addressDonationNum>-<hex address>"

  /** The text before the first '-'. */
  function BeforeDash(s: string): (r: string)
    ensures '-' !in r && |r| <= |s|
  {
    if s == [] || s[0] == '-' then [] else [s[0]] + BeforeDash(s[1..])
  }

  /** The text after the first '-', if there is one. */
  function AfterDash(s: string): (r: Option<string>)
    ensures r.None? <==> '-' !in s
  {
    if s == [] then None
    else if s[0] == '-' then Some(s[1..])
    else AfterDash(s[1..])
  }

  /** `getDonationTracker(n)`: splits `result['0']` on '-' and takes the first two
      parts; null when either is empty or the result is missing. */
  function ParseDonationTracker(n: nat, r: Option<Decoded>): (t: Option<DonationTrackerItem>)
    ensures t.Some? ==> t.value.overallDonationNum == n && |t.value.address| > 2 && t.value.address[..2] == "0x"
    ensures !Truthy(r, "0") ==> t.None?
  {
    if !Truthy(r, "0") then None
    else
      var s := r.value["0"];
      var num := BeforeDash(s);
      var rest := AfterDash(s);
      if num == [] || rest.None? then None
      else
        var address := BeforeDash(rest.value);
        if address == [] then None
        else Some(DonationTrackerItem(n, ToNumber(num), "0x" + address))
  }

  lemma {:induction false} SplitAtDash(a: string, b: string)
    requires '-' !in a
    ensures BeforeDash(a + "-" + b) == a
    ensures AfterDash(a + "-" + b) == Some(b)
  {
    if a != [] {
      SplitAtDash(a[1..], b);
      assert (a + "-" + b)[1..] == a[1..] + "-" + b;
    } else {
      assert a + "-" + b == "-" + b;
    }
  }

  lemma {:induction false} NoDashWhole(s: string)
    requires '-' !in s
    ensures BeforeDash(s) == s
  {
    if s != [] {
      NoDashWhole(s[1..]);
      assert s == [s[0]] + s[1..];
    }
  }

  /** The tracker string the ledger writes for address-donation `k` of address
      `0x<hex>` parses back to that number and address. */
  lemma ParseDonationTrackerRoundTrip(n: nat, k: nat, hex: string)
    requires hex != [] && '-' !in hex
    ensures ParseDonationTracker(n, Some(map["0" := NatToString(k) + "-" + hex]))
         == Some(DonationTrackerItem(n, Finite(k), "0x" + hex))
  {
    NatToStringHasNoDash(k);
    ToNumberOfNatToString(k);
    SplitAtDash(NatToString(k), hex);
    NoDashWhole(hex);
  }

  /** A tracker string without a '-' is refused. */
  lemma ParseDonationTrackerNeedsDash(n: nat, s: string)
    requires '-' !in s
    ensures ParseDonationTracker(n, Some(map["0" := s])) == None
  {
  }

  // ---------------------------------------------------------------------------
  // getDonation

  const DonationFields: seq<string> := ["donator", "value", "timestamp", "valueExpendedETH",
    "valueExpendedUSD", "valueRefundedETH", "donationNumber", "numExpenditures"]

  /** `getDonation`: null unless every one of the eight fields is present and
      nonempty; otherwise exactly those fields, unchanged. */
  function GetDonation(r: Option<Decoded>): (d: Option<Decoded>)
    ensures d.Some? <==> forall i :: 0 <= i < |DonationFields| ==> Truthy(r, DonationFields[i])
    ensures d.Some? ==>
      && d.value.Keys == (set f | f in DonationFields)
      && forall f :: f in d.value ==> f in r.value && d.value[f] == r.value[f]
  {
    if forall i :: 0 <= i < |DonationFields| ==> Truthy(r, DonationFields[i]) then
      assert forall f :: f in DonationFields ==> f in r.value by {
        forall f | f in DonationFields ensures f in r.value {
          var i :| 0 <= i < |DonationFields| && DonationFields[i] == f;
        }
      }
      Some(map f | f in DonationFields :: r.value[f])
    else None
  }
}
