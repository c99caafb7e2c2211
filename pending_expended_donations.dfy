/** The FIFO allocation of one expenditure's wei across the donations, in the
    order of the donation tracker (routes/ExpendedDonations/PendingExpendedDonations.ts).

    Starting at the cached `nextDonationToExpend` pointer, each step looks the
    pointer up in the tracker, finds the donation and either skips it (nothing
    left in it) or takes `min(remaining, available)` wei from it, queueing one
    pending expended donation. The pointer is advanced in the cache only to an
    index that has a tracker item; the last step leaves the pointer for the
    next expenditure and, when it differs from the ledger's, stores it as the
    pending pointer for the terminal ledger write. */
module ExpenditureAllocation {
  import opened Js
  import opened Records
  import opened Cache

  const NoPointer := "Could not get next donation to expend"
  const NoTrackerItem := "Could not get donation tracker item to create expended donation"
  const NoDonation := "Could not get donation to expend"
  const NoMoreDonations := "There are no more donations to expend"

  /** `string | true` as `createPendingExpendedDonation` returns it. */
  datatype RunResult = Created | Error(message: string)

  /** What one allocation run does to the cache: the pending items pushed, in push
      order; the last value written to `nextDonationToExpend` (None: not written);
      the value written to `pendingNextDonationToExpend` (None: not written); and
      what the run returns. */
  datatype Allocation = Allocation(
    items: seq<PendingExpendedDonation>,
    pointer: Option<nat>,
    pending: Option<nat>,
    result: RunResult)

  /** The fixed inputs of a run: the cached tracker and donation lists (the run does
      not change them), the expenditure's totals from the constructor, and what the
      ledger's `nextDonationToExpend` view returns at the last step. */
  datatype Input = Input(
    tracker: seq<DonationTrackerItem>,
    donations: seq<Donation>,
    wei: nat,
    usd: int,
    plates: int,
    expenditureNumber: nat,
    ledgerNext: Option<nat>)

  /** lodash `find(tracker, o => o.overallDonationNum === n)`. */
  function FindTracker(tracker: seq<DonationTrackerItem>, n: nat): (r: Option<DonationTrackerItem>)
    ensures r.Some? ==> r.value in tracker && r.value.overallDonationNum == n
    ensures r.None? ==> forall t :: t in tracker ==> t.overallDonationNum != n
  {
    if tracker == [] then None
    else if tracker[0].overallDonationNum == n then Some(tracker[0])
    else FindTracker(tracker[1..], n)
  }

  /** The donation a tracker item names: same address ignoring case, same
      per-address number. */
  predicate Names(t: DonationTrackerItem, d: Donation)
  {
    SameIgnoringCase(d.donator, t.address) && t.addressDonationNum == Finite(d.donationNumber)
  }

  /** lodash `find(allDonations, o => names the tracker item)`. */
  function FindDonation(donations: seq<Donation>, t: DonationTrackerItem): (r: Option<Donation>)
    ensures r.Some? ==> r.value in donations && Names(t, r.value)
    ensures r.None? ==> forall d :: d in donations ==> !Names(t, d)
  {
    if donations == [] then None
    else if Names(t, donations[0]) then Some(donations[0])
    else FindDonation(donations[1..], t)
  }

  /** lodash `find` returns the first match: no tracker item before the one found
      has index `n`. */
  lemma {:induction false} FindTrackerFirst(tracker: seq<DonationTrackerItem>, n: nat)
    ensures FindTracker(tracker, n).Some? ==>
      exists i :: 0 <= i < |tracker| && tracker[i] == FindTracker(tracker, n).value
        && forall j :: 0 <= j < i ==> tracker[j].overallDonationNum != n
  {
    if tracker != [] && tracker[0].overallDonationNum != n {
      FindTrackerFirst(tracker[1..], n);
      if FindTracker(tracker, n).Some? {
        var i :| 0 <= i < |tracker[1..]| && tracker[1..][i] == FindTracker(tracker, n).value
          && forall j :: 0 <= j < i ==> tracker[1..][j].overallDonationNum != n;
        assert tracker[i + 1] == FindTracker(tracker, n).value;
      }
    } else if tracker != [] {
      assert tracker[0] == FindTracker(tracker, n).value;
    }
  }

  /** The same for the donation lookup: when the cached list holds several
      donations that the tracker item names, the first of them is taken. */
  lemma {:induction false} FindDonationFirst(donations: seq<Donation>, t: DonationTrackerItem)
    ensures FindDonation(donations, t).Some? ==>
      exists i :: 0 <= i < |donations| && donations[i] == FindDonation(donations, t).value
        && forall j :: 0 <= j < i ==> !Names(t, donations[j])
  {
    if donations != [] && !Names(t, donations[0]) {
      FindDonationFirst(donations[1..], t);
      if FindDonation(donations, t).Some? {
        var i :| 0 <= i < |donations[1..]| && donations[1..][i] == FindDonation(donations, t).value
          && forall j :: 0 <= j < i ==> !Names(t, donations[1..][j]);
        assert donations[i + 1] == FindDonation(donations, t).value;
      }
    } else if donations != [] {
      assert donations[0] == FindDonation(donations, t).value;
    }
  }

  /** `Math.round(total * take / wei)`, computed exactly and rounding halves up;
      NaN when `wei` is 0. */
  function Share(total: int, take: nat, wei: nat): (r: Num)
    ensures r.NaN? <==> wei == 0
    ensures r.Finite? ==> 2 * wei * r.n - wei <= 2 * total * take < 2 * wei * r.n + wei
  {
    if wei == 0 then NaN
    else
      var q := (2 * total * take + wei) / (2 * wei);
      assert 2 * wei * q <= 2 * total * take + wei < 2 * wei * q + 2 * wei;
      Finite(q)
  }

  /** The pending expended donation for `take` wei of donation `d`. */
  function Item(c: Input, d: Donation, take: nat): PendingExpendedDonation
  {
    PendingExpendedDonation(d.donator, take, Share(c.usd, take, c.wei), d.donationNumber,
      c.expenditureNumber, Share(c.plates, take, c.wei))
  }

  /** How many tracker items lie above index `p`: the measure every step shrinks. */
  function CountAbove(tracker: seq<DonationTrackerItem>, p: nat): nat
  {
    if tracker == [] then 0
    else (if tracker[0].overallDonationNum > p then 1 else 0) + CountAbove(tracker[1..], p)
  }

  lemma {:induction false} AdvanceShrinks(tracker: seq<DonationTrackerItem>, p: nat)
    ensures CountAbove(tracker, p + 1) <= CountAbove(tracker, p)
    ensures FindTracker(tracker, p + 1).Some? ==> CountAbove(tracker, p + 1) < CountAbove(tracker, p)
  {
    if tracker != [] {
      AdvanceShrinks(tracker[1..], p);
    }
  }

  /** `o` run after `prefix` items were pushed and `written` was written to the
      pointer. */
  function After(prefix: seq<PendingExpendedDonation>, written: Option<nat>, o: Allocation): Allocation
  {
    Allocation(prefix + o.items, if o.pointer.Some? then o.pointer else written, o.pending, o.result)
  }

  /** The terminal write `setNewDonationToExpend(q, true)`: the pointer becomes q,
      and q is kept as the pending pointer unless the ledger already has it. */
  function Last(c: Input, items: seq<PendingExpendedDonation>, q: nat): Allocation
  {
    Allocation(items, Some(q), if c.ledgerNext == Some(q) then None else Some(q), Created)
  }

  /** One call of `createPendingExpendedDonation` with the pointer read as `p`. */
  function Step(c: Input, p: nat, rem: nat): Allocation
    decreases CountAbove(c.tracker, p)
  {
    if p == 0 then Allocation([], None, None, Error(NoPointer))
    else match FindTracker(c.tracker, p)
      case None => Allocation([], None, None, Error(NoTrackerItem))
      case Some(t) =>
        match FindDonation(c.donations, t)
        case None => Allocation([], None, None, Error(NoDonation))
        case Some(d) =>
          var available := Available(d);
          var advances := FindTracker(c.tracker, p + 1).Some?;
          if available <= 0 then
            if !advances then Allocation([], None, None, Error(NoMoreDonations))
            else
              AdvanceShrinks(c.tracker, p);
              After([], Some(p + 1), Step(c, p + 1, rem))
          else
            var take: nat := if rem > available then available else rem;
            var item := Item(c, d, take);
            if rem > available then
              if !advances then Allocation([item], None, None, Error(NoMoreDonations))
              else
                AdvanceShrinks(c.tracker, p);
                After([item], Some(p + 1), Step(c, p + 1, rem - take))
            else if rem == available then
              // the result of this last write is not looked at: without a tracker
              // item at p + 1 the pointer stays and the run still succeeds
              if advances then Last(c, [item], p + 1) else Allocation([item], None, None, Created)
            else
              Last(c, [item], p)
  }

  /** A run that starts from the cached pointer `stored`. */
  function Allocate(c: Input, stored: Option<nat>, rem: nat): Allocation
  {
    if stored.None? then Allocation([], None, None, Error(NoPointer)) else Step(c, stored.value, rem)
  }

  function Wei(i: PendingExpendedDonation): int { i.valueExpendedETH }

  // ---------------------------------------------------------------------------
  // Properties of a run

  /** Without a usable pointer (absent or 0) nothing is pushed and nothing written. */
  lemma NoPointerNoItems(c: Input, stored: Option<nat>, rem: nat)
    requires stored.None? || stored.value == 0
    ensures Allocate(c, stored, rem) == Allocation([], None, None, Error(NoPointer))
  {
  }

  /** A run that returns true has pushed items whose wei adds up exactly to the
      amount it was asked to expend. */
  lemma {:induction false} Conservation(c: Input, p: nat, rem: nat)
    requires Step(c, p, rem).result == Created
    ensures Sum(Step(c, p, rem).items, Wei) == rem
    decreases CountAbove(c.tracker, p), 1
  {
    if Found(c, p) {
      var t := FindTracker(c.tracker, p).value;
      ConservationAt(c, p, rem, t, FindDonation(c.donations, t).value);
    } else {
      Stuck(c, p, rem);
    }
  }

  lemma {:induction false} ConservationAt(c: Input, p: nat, rem: nat, t: DonationTrackerItem, d: Donation)
    requires p > 0 && FindTracker(c.tracker, p) == Some(t) && FindDonation(c.donations, t) == Some(d)
    requires Step(c, p, rem).result == Created
    ensures Sum(Step(c, p, rem).items, Wei) == rem
    decreases CountAbove(c.tracker, p), 0
  {
    var available := Available(d);
    if available <= 0 {
      SkipExhausted(c, p, rem, t, d);
      AdvanceShrinks(c.tracker, p);
      Conservation(c, p + 1, rem);
      assert Step(c, p, rem).items == [] + Step(c, p + 1, rem).items;
      assert [] + Step(c, p + 1, rem).items == Step(c, p + 1, rem).items;
    } else if rem > available {
      Overdraw(c, p, rem, t, d);
      AdvanceShrinks(c.tracker, p);
      var take: nat := available;
      Conservation(c, p + 1, rem - take);
      assert Step(c, p, rem).items == [Item(c, d, take)] + Step(c, p + 1, rem - take).items;
      SumConcat([Item(c, d, take)], Step(c, p + 1, rem - take).items, Wei);
      assert Sum([Item(c, d, take)], Wei) == take;
    } else {
      LastStep(c, p, rem, t, d);
      assert Sum(Step(c, p, rem).items[1..], Wei) == 0;
    }
  }

  /** A USD or plates share as an integer; NaN, which only a 0-wei expenditure
      gives, counts as 0. */
  function ShareValue(x: Num): int { if x.Finite? then x.n else 0 }

  function UsdOf(i: PendingExpendedDonation): int { ShareValue(i.valueExpendedUSD) }

  function PlatesOf(i: PendingExpendedDonation): int { ShareValue(i.platesDeployed) }

  /** Each rounded share is within half a unit of the exact share of its wei, so
      over `items` the rounded shares of `total` add up to within |items| halves of
      `total`'s exact share of their wei (scaled by 2 * wei). */
  lemma {:induction false} SharesSumBound(items: seq<PendingExpendedDonation>, pick: PendingExpendedDonation -> int,
                                          total: int, wei: nat)
    requires wei > 0
    requires forall i :: 0 <= i < |items| ==> pick(items[i]) == ShareValue(Share(total, items[i].valueExpendedETH, wei))
    ensures -(|items| * wei) <= 2 * wei * Sum(items, pick) - 2 * total * Sum(items, Wei) <= |items| * wei
  {
    if items != [] {
      var tail := items[1..];
      assert forall i :: 0 <= i < |tail| ==> tail[i] == items[i + 1];
      SharesSumBound(tail, pick, total, wei);
      var a := pick(items[0]);
      assert a == ShareValue(Share(total, items[0].valueExpendedETH, wei));
      AddShare(wei, total, a, items[0].valueExpendedETH, Sum(tail, pick), Sum(tail, Wei), |tail|);
    }
  }

  /** The induction step of `SharesSumBound` on plain integers. */
  lemma AddShare(wei: nat, total: int, a: int, b: nat, s: int, w: int, n: nat)
    requires wei > 0 && a == ShareValue(Share(total, b, wei))
    requires -(n * wei) <= 2 * wei * s - 2 * total * w <= n * wei
    ensures -((n + 1) * wei) <= 2 * wei * (a + s) - 2 * total * (b + w) <= (n + 1) * wei
  {
    assert 2 * wei * (a + s) - 2 * total * (b + w) == (2 * wei * a - 2 * total * b) + (2 * wei * s - 2 * total * w);
    assert (n + 1) * wei == n * wei + wei;
  }

  /** Splitting loses nothing on the wei leg and rounds the USD and plates legs by
      at most half a unit per item: a run that returns true has pushed items whose
      USD (and plates) add up to within |items| / 2 of the expenditure's USD (and
      plates) share of the wei it allocated. */
  lemma RoundingBound(c: Input, p: nat, rem: nat)
    requires c.wei > 0 && Step(c, p, rem).result == Created
    ensures var items := Step(c, p, rem).items;
      && Sum(items, Wei) == rem
      && -(|items| * c.wei) <= 2 * c.wei * Sum(items, UsdOf) - 2 * c.usd * rem <= |items| * c.wei
      && -(|items| * c.wei) <= 2 * c.wei * Sum(items, PlatesOf) - 2 * c.plates * rem <= |items| * c.wei
  {
    var items := Step(c, p, rem).items;
    Conservation(c, p, rem);
    ItemsBounded(c, p, rem);
    SharesSumBound(items, UsdOf, c.usd, c.wei);
    SharesSumBound(items, PlatesOf, c.plates, c.wei);
  }

  /** Dividing the bound of `RoundingBound` by the expenditure's wei. */
  lemma ScaleDown(w: int, u: int, total: int, k: int)
    requires w > 0 && -(k * w) <= 2 * w * u - 2 * total * w <= k * w
    ensures -k <= 2 * u - 2 * total <= k
  {
    assert 2 * w * u - 2 * total * w == w * (2 * u - 2 * total);
  }

  /** A whole expenditure that is allocated: its items' wei add up to the
      expenditure's wei exactly, and their USD and plates differ from the
      expenditure's by at most half a unit per item. */
  lemma ExpenditureRounding(c: Input, stored: Option<nat>)
    requires c.wei > 0 && Allocate(c, stored, c.wei).result == Created
    ensures var items := Allocate(c, stored, c.wei).items;
      && Sum(items, Wei) == c.wei
      && -|items| <= 2 * Sum(items, UsdOf) - 2 * c.usd <= |items|
      && -|items| <= 2 * Sum(items, PlatesOf) - 2 * c.plates <= |items|
  {
    var items := Allocate(c, stored, c.wei).items;
    RoundingBound(c, stored.value, c.wei);
    ScaleDown(c.wei, Sum(items, UsdOf), c.usd, |items|);
    ScaleDown(c.wei, Sum(items, PlatesOf), c.plates, |items|);
  }

  /** `item` takes at most `rem` wei (something when `rem` is not 0) from a
      donation that a tracker item at index `p` or above names and that still has
      that much available, with the constructor totals' shares of its wei. */
  ghost predicate WellTaken(c: Input, p: nat, rem: nat, item: PendingExpendedDonation)
  {
    && item.valueExpendedETH <= rem
    && (rem > 0 ==> item.valueExpendedETH > 0)
    && item.valueExpendedUSD == Share(c.usd, item.valueExpendedETH, c.wei)
    && item.platesDeployed == Share(c.plates, item.valueExpendedETH, c.wei)
    && item.expenditureNumber == c.expenditureNumber
    && exists t, d :: t in c.tracker && d in c.donations && Names(t, d)
         && t.overallDonationNum >= p
         && item.donator == d.donator && item.donationNumber == d.donationNumber
         && 0 < Available(d) && item.valueExpendedETH <= Available(d)
  }

  /** Every pushed item takes `min(remaining, available)` from a donation the
      tracker names that still has wei available: never more than that donation's
      available wei, never more than was asked for, and something whenever
      something was asked for. Its USD and plates are the constructor totals'
      shares of the item's wei. */
  lemma {:induction false} ItemsBounded(c: Input, p: nat, rem: nat)
    ensures forall i :: 0 <= i < |Step(c, p, rem).items| ==> WellTaken(c, p, rem, Step(c, p, rem).items[i])
    decreases CountAbove(c.tracker, p), 1
  {
    if Found(c, p) {
      var t := FindTracker(c.tracker, p).value;
      var d := FindDonation(c.donations, t).value;
      if Available(d) <= 0 {
        ItemsBoundedSkip(c, p, rem, t, d);
      } else {
        ItemsBoundedTake(c, p, rem, t, d);
      }
    } else {
      Stuck(c, p, rem);
    }
  }

  /** `ItemsBounded` when the donation at `p` has nothing left. */
  lemma {:induction false} ItemsBoundedSkip(c: Input, p: nat, rem: nat, t: DonationTrackerItem, d: Donation)
    requires p > 0 && FindTracker(c.tracker, p) == Some(t) && FindDonation(c.donations, t) == Some(d)
    requires Available(d) <= 0
    ensures forall i :: 0 <= i < |Step(c, p, rem).items| ==> WellTaken(c, p, rem, Step(c, p, rem).items[i])
    decreases CountAbove(c.tracker, p), 0
  {
    var items := Step(c, p, rem).items;
    SkipExhausted(c, p, rem, t, d);
    if FindTracker(c.tracker, p + 1).Some? {
      AdvanceShrinks(c.tracker, p);
      ItemsBounded(c, p + 1, rem);
      var rest := Step(c, p + 1, rem).items;
      assert items == [] + rest;
      TakenLater(c, p, rem, rem, [], rest);
    } else {
      assert items == [];
    }
  }

  /** `ItemsBounded` when the donation at `p` still has wei available. */
  lemma {:induction false} ItemsBoundedTake(c: Input, p: nat, rem: nat, t: DonationTrackerItem, d: Donation)
    requires p > 0 && FindTracker(c.tracker, p) == Some(t) && FindDonation(c.donations, t) == Some(d)
    requires Available(d) > 0
    ensures forall i :: 0 <= i < |Step(c, p, rem).items| ==> WellTaken(c, p, rem, Step(c, p, rem).items[i])
    decreases CountAbove(c.tracker, p), 0
  {
    var available := Available(d);
    var items := Step(c, p, rem).items;
    var take: nat := if rem > available then available else rem;
    var item := Item(c, d, take);
    ItemWellTaken(c, p, rem, t, d);
    if rem > available {
      Overdraw(c, p, rem, t, d);
      if FindTracker(c.tracker, p + 1).Some? {
        AdvanceShrinks(c.tracker, p);
        ItemsBounded(c, p + 1, rem - take);
        var rest := Step(c, p + 1, rem - take).items;
        assert items == [item] + rest;
        TakenLater(c, p, rem - take, rem, [item], rest);
      } else {
        assert items == [item];
      }
    } else {
      LastStep(c, p, rem, t, d);
      assert items == [item];
    }
  }

  /** The item a step takes from the donation it found is well taken. */
  lemma ItemWellTaken(c: Input, p: nat, rem: nat, t: DonationTrackerItem, d: Donation)
    requires FindTracker(c.tracker, p) == Some(t) && FindDonation(c.donations, t) == Some(d)
    requires 0 < Available(d)
    ensures var take: nat := if rem > Available(d) then Available(d) else rem;
      WellTaken(c, p, rem, Item(c, d, take))
  {
    assert t in c.tracker && d in c.donations && Names(t, d) && t.overallDonationNum >= p;
  }

  /** Items taken later in the run, from what was left then, are well taken for
      the run as a whole, after the ones taken at `p`. */
  lemma TakenLater(c: Input, p: nat, left: nat, rem: nat, first: seq<PendingExpendedDonation>,
                   rest: seq<PendingExpendedDonation>)
    requires forall i :: 0 <= i < |first| ==> WellTaken(c, p, rem, first[i])
    requires forall i :: 0 <= i < |rest| ==> WellTaken(c, p + 1, left, rest[i])
    requires left <= rem && (left == 0 ==> rem == 0)
    ensures forall i :: 0 <= i < |first + rest| ==> WellTaken(c, p, rem, (first + rest)[i])
  {
    forall i | 0 <= i < |first + rest| ensures WellTaken(c, p, rem, (first + rest)[i]) {
      if i >= |first| {
        assert (first + rest)[i] == rest[i - |first|];
        assert WellTaken(c, p + 1, left, rest[i - |first|]);
      }
    }
  }

  /** Step `p` finds its tracker item and the donation it names. */
  predicate Found(c: Input, p: nat)
  {
    p > 0 && FindTracker(c.tracker, p).Some? && FindDonation(c.donations, FindTracker(c.tracker, p).value).Some?
  }

  /** Every pointer `o` writes is `p` or a later tracker index, and the pending
      pointer, when written, is the final pointer and differs from the ledger's. */
  predicate PointerOk(c: Input, p: nat, o: Allocation)
  {
    && (o.pointer.Some? ==> o.pointer.value >= p && FindTracker(c.tracker, o.pointer.value).Some?)
    && (o.pending.Some? ==> o.pending == o.pointer && c.ledgerNext != o.pending && o.result == Created)
  }

  /** The pointer only moves forward: every value the run writes is the pointer it
      started from or a later tracker index, and the pending pointer, when written,
      is the final pointer and differs from the ledger's. */
  lemma {:induction false} PointerMonotone(c: Input, p: nat, rem: nat)
    ensures PointerOk(c, p, Step(c, p, rem))
    decreases CountAbove(c.tracker, p), 1
  {
    if Found(c, p) {
      var t := FindTracker(c.tracker, p).value;
      PointerMonotoneAt(c, p, rem, t, FindDonation(c.donations, t).value);
    } else {
      Stuck(c, p, rem);
    }
  }

  lemma {:induction false} PointerMonotoneAt(c: Input, p: nat, rem: nat, t: DonationTrackerItem, d: Donation)
    requires p > 0 && FindTracker(c.tracker, p) == Some(t) && FindDonation(c.donations, t) == Some(d)
    ensures PointerOk(c, p, Step(c, p, rem))
    decreases CountAbove(c.tracker, p), 0
  {
    var available := Available(d);
    if available <= 0 {
      SkipExhausted(c, p, rem, t, d);
      if FindTracker(c.tracker, p + 1).Some? {
        AdvanceShrinks(c.tracker, p);
        PointerMonotone(c, p + 1, rem);
      }
    } else if rem > available {
      Overdraw(c, p, rem, t, d);
      if FindTracker(c.tracker, p + 1).Some? {
        AdvanceShrinks(c.tracker, p);
        PointerMonotone(c, p + 1, rem - available);
      }
    } else {
      LastStep(c, p, rem, t, d);
    }
  }

  /** A step that finds no pointer, tracker item or donation pushes and writes
      nothing and fails. */
  lemma Stuck(c: Input, p: nat, rem: nat)
    requires !Found(c, p)
    ensures Step(c, p, rem).items == [] && Step(c, p, rem).pointer.None? && Step(c, p, rem).pending.None?
    ensures Step(c, p, rem).result.Error?
  {
  }

  /** A donation with nothing available yields no item: the run moves the pointer
      one index on (when the tracker has it) and goes on with the same amount. */
  lemma SkipExhausted(c: Input, p: nat, rem: nat, t: DonationTrackerItem, d: Donation)
    requires p > 0 && FindTracker(c.tracker, p) == Some(t) && FindDonation(c.donations, t) == Some(d)
    requires Available(d) <= 0
    ensures FindTracker(c.tracker, p + 1).None? ==>
      Step(c, p, rem) == Allocation([], None, None, Error(NoMoreDonations))
    ensures FindTracker(c.tracker, p + 1).Some? ==>
      Step(c, p, rem) == After([], Some(p + 1), Step(c, p + 1, rem))
  {
  }

  /** A donation with less available than what remains is drained: one item for
      all of it, and the run goes on at the next index with the rest. */
  lemma Overdraw(c: Input, p: nat, rem: nat, t: DonationTrackerItem, d: Donation)
    requires p > 0 && FindTracker(c.tracker, p) == Some(t) && FindDonation(c.donations, t) == Some(d)
    requires 0 < Available(d) < rem
    ensures FindTracker(c.tracker, p + 1).None? ==>
      Step(c, p, rem) == Allocation([Item(c, d, Available(d))], None, None, Error(NoMoreDonations))
    ensures FindTracker(c.tracker, p + 1).Some? ==>
      Step(c, p, rem) == After([Item(c, d, Available(d))], Some(p + 1), Step(c, p + 1, rem - Available(d)))
  {
  }

  /** The last step: an exact fit moves the pointer past the donation, a partial
      fit keeps it on the donation for the next expenditure. */
  lemma LastStep(c: Input, p: nat, rem: nat, t: DonationTrackerItem, d: Donation)
    requires p > 0 && FindTracker(c.tracker, p) == Some(t) && FindDonation(c.donations, t) == Some(d)
    requires 0 < Available(d) && rem <= Available(d)
    ensures var o := Step(c, p, rem);
      && o.result == Created && o.items == [Item(c, d, rem)]
      && (rem == Available(d) && FindTracker(c.tracker, p + 1).Some? ==> o.pointer == Some(p + 1))
      && (rem == Available(d) && FindTracker(c.tracker, p + 1).None? ==> o.pointer == None && o.pending == None)
      && (rem < Available(d) ==> o.pointer == Some(p))
      && (o.pointer.Some? ==> (o.pending.Some? <==> c.ledgerNext != o.pointer))
  {
  }

  /** 1000 wei against donations with 600 and 500 available: 600 from the first,
      400 from the second, and the pointer left on the second. */
  lemma TwoDonations(ledgerNext: Option<nat>)
    ensures var a := Donation("0xa", 600, 10, 0, 0, 0, 1, 0);
            var b := Donation("0xB", 500, 20, 0, 0, 0, 1, 0);
            var c := Input([DonationTrackerItem(1, Finite(1), "0xA"), DonationTrackerItem(2, Finite(1), "0xb")],
                           [b, a], 1000, 50, 4, 7, ledgerNext);
            var o := Allocate(c, Some(1), 1000);
      && o.result == Created
      && o.items == [Item(c, a, 600), Item(c, b, 400)]
      && o.items[0].valueExpendedUSD == Finite(30) && o.items[1].platesDeployed == Finite(2)
      && o.pointer == Some(2)
      && (o.pending == Some(2) <==> ledgerNext != Some(2))
  {
    var a := Donation("0xa", 600, 10, 0, 0, 0, 1, 0);
    var b := Donation("0xB", 500, 20, 0, 0, 0, 1, 0);
    var ta := DonationTrackerItem(1, Finite(1), "0xA");
    var tb := DonationTrackerItem(2, Finite(1), "0xb");
    var c := Input([ta, tb], [b, a], 1000, 50, 4, 7, ledgerNext);
    TwoDonationsLookups(c, a, b, ta, tb);
    Overdraw(c, 1, 1000, ta, a);
    LastStep(c, 2, 400, tb, b);
    var last := Step(c, 2, 400);
    assert last == Last(c, [Item(c, b, 400)], 2);
    assert Allocate(c, Some(1), 1000) == After([Item(c, a, 600)], Some(2), last);
    assert Share(50, 600, 1000) == Finite(30) && Share(4, 400, 1000) == Finite(2);
  }

  /** The tracker and donation lookups of `TwoDonations`: the tracker's addresses
      differ in case from the donations'. */
  lemma {:induction false} TwoDonationsLookups(c: Input, a: Donation, b: Donation, ta: DonationTrackerItem, tb: DonationTrackerItem)
    requires a == Donation("0xa", 600, 10, 0, 0, 0, 1, 0) && b == Donation("0xB", 500, 20, 0, 0, 0, 1, 0)
    requires ta == DonationTrackerItem(1, Finite(1), "0xA") && tb == DonationTrackerItem(2, Finite(1), "0xb")
    requires c.tracker == [ta, tb] && c.donations == [b, a]
    ensures FindTracker(c.tracker, 1) == Some(ta) && FindTracker(c.tracker, 2) == Some(tb)
    ensures FindTracker(c.tracker, 3).None?
    ensures FindDonation(c.donations, ta) == Some(a) && FindDonation(c.donations, tb) == Some(b)
  {
    assert Lower("0xa") == Lower("0xA") == "0xa";
    assert Lower("0xB") == Lower("0xb") == "0xb";
    assert !SameIgnoringCase(b.donator, ta.address) by {
      assert Lower("0xB")[2] != Lower("0xA")[2];
    }
  }

  // ---------------------------------------------------------------------------
  // The class

  /** One expenditure to allocate, with the totals fixed at construction. */
  class PendingExpendedDonations {
    const store: Store
    const expenditureWei: nat
    const expenditureUsd: int
    const expenditureNumber: nat
    const expenditurePlatesDeployed: int

    constructor (store: Store, expenditureWei: nat, expenditureUsd: int, expenditureNumber: nat,
                 expenditurePlatesDeployed: int)
      ensures this.store == store && this.expenditureWei == expenditureWei
      ensures this.expenditureUsd == expenditureUsd && this.expenditureNumber == expenditureNumber
      ensures this.expenditurePlatesDeployed == expenditurePlatesDeployed
    {
      this.store := store;
      this.expenditureWei := expenditureWei;
      this.expenditureUsd := expenditureUsd;
      this.expenditureNumber := expenditureNumber;
      this.expenditurePlatesDeployed := expenditurePlatesDeployed;
    }

    function InputFor(s: Contents, ledgerNext: Option<nat>): Input
      reads this
    {
      Input(s.donationTrackerItems, s.allDonations, expenditureWei, expenditureUsd,
        expenditurePlatesDeployed, expenditureNumber, ledgerNext)
    }

    /** The cache after running allocation `o` on contents `s`. */
    static function Applied(s: Contents, o: Allocation): Contents
    {
      s.(pendingExpendedDonations := Reverse(o.items) + s.pendingExpendedDonations,
         nextDonationToExpend := if o.pointer.Some? then o.pointer else s.nextDonationToExpend,
         pendingNextDonationToExpend := if o.pending.Some? then o.pending else s.pendingNextDonationToExpend)
    }

    /** `init`: runs the allocation for the whole expenditure and reports whether
        it completed. `ledgerNext` is what the ledger's pointer view returns. */
    method Init(ledgerNext: Option<nat>) returns (created: bool)
      modifies store
      ensures var o := Allocate(InputFor(old(store.Snapshot()), ledgerNext),
                                old(store.nextDonationToExpend), expenditureWei);
        && created == (o.result == Created)
        && store.Snapshot() == Applied(old(store.Snapshot()), o)
    {
      var r := CreatePendingExpendedDonation(ledgerNext);
      created := r == Created;
    }

    /** `setNewDonationToExpend(n, isLast)`: writes the pointer only when the tracker
        has an item at `n`; on the last step also keeps `n` as the pending pointer
        unless the ledger already points there. */
    method SetNewDonationToExpend(n: nat, isLast: bool, ledgerNext: Option<nat>) returns (r: RunResult)
      modifies store
      ensures FindTracker(old(store.donationTrackerItems), n).None? ==>
        r == Error(NoMoreDonations) && store.Snapshot() == old(store.Snapshot())
      ensures FindTracker(old(store.donationTrackerItems), n).Some? ==>
        r == Created &&
        store.Snapshot() == old(store.Snapshot()).(
          nextDonationToExpend := Some(n),
          pendingNextDonationToExpend :=
            if isLast && ledgerNext != Some(n) then Some(n) else old(store.pendingNextDonationToExpend))
    {
      var item := FindTracker(store.donationTrackerItems, n);
      if item.None? {
        return Error(NoMoreDonations);
      }
      store.SetNextDonationToExpend(n);
      if isLast {
        if ledgerNext == Some(n) {
          return Created;
        }
        store.SetPendingNextDonationToExpend(n);
      }
      r := Created;
    }

    /** What a turn that found donation `d` at pointer `p` did, taking the cache
        from `s0` to `s1`: it either finished the run `Step(c, p, rem)`, or pushed
        `items`, moved the pointer on to a later tracker index `q` and left `rest`
        wei for the rest of the run. */
    static ghost predicate Outcome(c: Input, p: nat, rem: nat, s0: Contents, s1: Contents, finished: bool,
                                   r: RunResult, rest: nat, items: seq<PendingExpendedDonation>, q: nat)
    {
      var o := Step(c, p, rem);
      && s1.donationTrackerItems == s0.donationTrackerItems
      && s1.allDonations == s0.allDonations
      && (finished ==> r == o.result && s1 == Applied(s0, o))
      && (!finished ==>
            && CountAbove(c.tracker, q) < CountAbove(c.tracker, p)
            && FindTracker(c.tracker, q).Some?
            && o == After(items, Some(q), Step(c, q, rest))
            && s1 == s0.(pendingExpendedDonations := Reverse(items) + s0.pendingExpendedDonations,
                         nextDonationToExpend := Some(q)))
    }

    /** A turn on a donation with nothing available: move the pointer on. */
    method SkipTurn(ghost c: Input, ledgerNext: Option<nat>, p: nat, rem: nat, ghost t: DonationTrackerItem, ghost d: Donation)
      returns (finished: bool, r: RunResult, rest: nat, ghost items: seq<PendingExpendedDonation>, ghost q: nat)
      requires c == InputFor(store.Snapshot(), ledgerNext)
      requires p > 0 && FindTracker(c.tracker, p) == Some(t) && FindDonation(c.donations, t) == Some(d)
      requires Available(d) <= 0
      modifies store
      ensures Outcome(c, p, rem, old(store.Snapshot()), store.Snapshot(), finished, r, rest, items, q)
    {
      SkipExhausted(c, p, rem, t, d);
      rest, items, q := rem, [], p + 1;
      r := SetNewDonationToExpend(p + 1, false, ledgerNext);
      finished := r != Created;
      if !finished {
        AdvanceShrinks(c.tracker, p);
        assert Reverse<PendingExpendedDonation>([]) == [];
      }
    }

    /** A turn on a donation with less available than remains: drain it. */
    method DrainTurn(ghost c: Input, ledgerNext: Option<nat>, p: nat, rem: nat, ghost t: DonationTrackerItem, d: Donation)
      returns (finished: bool, r: RunResult, rest: nat, ghost items: seq<PendingExpendedDonation>, ghost q: nat)
      requires c == InputFor(store.Snapshot(), ledgerNext)
      requires p > 0 && FindTracker(c.tracker, p) == Some(t) && FindDonation(c.donations, t) == Some(d)
      requires 0 < Available(d) < rem
      modifies store
      ensures Outcome(c, p, rem, old(store.Snapshot()), store.Snapshot(), finished, r, rest, items, q)
    {
      Overdraw(c, p, rem, t, d);
      var take: nat := Available(d);
      var item := Item(InputFor(store.Snapshot(), ledgerNext), d, take);
      store.PushToPendingExpendedDonations([item]);
      items, q, rest := [item], p + 1, rem - take;
      assert Reverse(items) == [item];
      r := SetNewDonationToExpend(p + 1, false, ledgerNext);
      finished := r != Created;
      if !finished {
        AdvanceShrinks(c.tracker, p);
      }
    }

    /** The last turn: the donation covers what remains. */
    method LastTurn(ghost c: Input, ledgerNext: Option<nat>, p: nat, rem: nat, ghost t: DonationTrackerItem, d: Donation)
      returns (finished: bool, r: RunResult, rest: nat, ghost items: seq<PendingExpendedDonation>, ghost q: nat)
      requires c == InputFor(store.Snapshot(), ledgerNext)
      requires p > 0 && FindTracker(c.tracker, p) == Some(t) && FindDonation(c.donations, t) == Some(d)
      requires 0 < Available(d) && rem <= Available(d)
      modifies store
      ensures Outcome(c, p, rem, old(store.Snapshot()), store.Snapshot(), finished, r, rest, items, q)
    {
      LastStep(c, p, rem, t, d);
      var item := Item(InputFor(store.Snapshot(), ledgerNext), d, rem);
      store.PushToPendingExpendedDonations([item]);
      items, q, rest := [item], 0, rem;
      assert Reverse(items) == [item];
      if rem == Available(d) {
        var _ := SetNewDonationToExpend(p + 1, true, ledgerNext);
      } else {
        var _ := SetNewDonationToExpend(p, true, ledgerNext);
      }
      finished, r := true, Created;
    }

    /** One turn of `createPendingExpendedDonation`: reads the pointer, then either
        finishes the run (`finished`) or takes from or skips one donation and
        moves the pointer on to `q`, leaving `rest` wei to allocate. */
    method Turn(ledgerNext: Option<nat>, rem: nat)
      returns (finished: bool, r: RunResult, rest: nat, ghost items: seq<PendingExpendedDonation>, ghost q: nat)
      modifies store
      ensures var c := InputFor(old(store.Snapshot()), ledgerNext);
        var stored := old(store.nextDonationToExpend);
        if stored.None? || stored.value == 0 || FindTracker(c.tracker, stored.value).None?
           || FindDonation(c.donations, FindTracker(c.tracker, stored.value).value).None?
        then finished && r == Allocate(c, stored, rem).result && store.Snapshot() == old(store.Snapshot())
        else Outcome(c, stored.value, rem, old(store.Snapshot()), store.Snapshot(), finished, r, rest, items, q)
    {
      ghost var c := InputFor(store.Snapshot(), ledgerNext);
      rest, items, q := rem, [], 0;
      var stored := store.nextDonationToExpend;
      if stored.None? || stored.value == 0 {
        NoPointerNoItems(c, stored, rem);
        return true, Error(NoPointer), rest, items, q;
      }
      var p := stored.value;
      var t := FindTracker(store.donationTrackerItems, p);
      if t.None? {
        return true, Error(NoTrackerItem), rest, items, q;
      }
      var d := FindDonation(store.allDonations, t.value);
      if d.None? {
        return true, Error(NoDonation), rest, items, q;
      }
      var available := Available(d.value);
      if available <= 0 {
        finished, r, rest, items, q := SkipTurn(c, ledgerNext, p, rem, t.value, d.value);
      } else if rem > available {
        finished, r, rest, items, q := DrainTurn(c, ledgerNext, p, rem, t.value, d.value);
      } else {
        finished, r, rest, items, q := LastTurn(c, ledgerNext, p, rem, t.value, d.value);
      }
    }

    /** `createPendingExpendedDonation`, its recursion written as a loop of turns. */
    method CreatePendingExpendedDonation(ledgerNext: Option<nat>) returns (r: RunResult)
      modifies store
      ensures var o := Allocate(InputFor(old(store.Snapshot()), ledgerNext),
                                old(store.nextDonationToExpend), expenditureWei);
        && r == o.result
        && store.Snapshot() == Applied(old(store.Snapshot()), o)
    {
      ghost var s0 := store.Snapshot();
      ghost var c := InputFor(s0, ledgerNext);
      ghost var whole := Allocate(c, s0.nextDonationToExpend, expenditureWei);
      var rem: nat := expenditureWei;
      ghost var left: nat := 0;
      if s0.nextDonationToExpend.Some? {
        left := CountAbove(c.tracker, s0.nextDonationToExpend.value);
      }
      while true
        invariant InputFor(store.Snapshot(), ledgerNext) == c
        invariant store.nextDonationToExpend.Some? ==> left == CountAbove(c.tracker, store.nextDonationToExpend.value)
        invariant whole.result == Allocate(c, store.nextDonationToExpend, rem).result
        invariant Applied(s0, whole) == Applied(store.Snapshot(), Allocate(c, store.nextDonationToExpend, rem))
        decreases left
      {
        var finished, rest;
        ghost var before := store.Snapshot();
        ghost var items, q;
        finished, r, rest, items, q := Turn(ledgerNext, rem);
        if finished {
          if before == store.Snapshot() {
            assert Applied(before, Allocate(c, before.nextDonationToExpend, rem)) == before;
          }
          return;
        }
        AppliedAfter(before, items, q, Step(c, q, rest));
        rem := rest;
        left := CountAbove(c.tracker, q);
      }
    }
  }

  /** Applying a run whose first turns pushed `items` and moved the pointer to `q`
      is applying the rest of the run to the cache those turns left. */
  lemma AppliedAfter(s: Contents, items: seq<PendingExpendedDonation>, q: nat, o: Allocation)
    ensures PendingExpendedDonations.Applied(s, After(items, Some(q), o))
         == PendingExpendedDonations.Applied(s.(
              pendingExpendedDonations := Reverse(items) + s.pendingExpendedDonations,
              nextDonationToExpend := Some(q)), o)
  {
    ReverseConcat(items, o.items);
    assert Reverse(o.items) + (Reverse(items) + s.pendingExpendedDonations)
        == (Reverse(o.items) + Reverse(items)) + s.pendingExpendedDonations;
  }
}
