/** The ledger helpers with a retry budget, and the removal of one entry from each
    pending queue (Infura/StandardCharity/Helpers.ts).

    A helper instance holds one retry counter, 10 at construction, that every
    fetch and write of the instance draws on: a call that has to retry first takes
    one from the counter, and a call that finds the counter at 0 gives up. Ledger
    answers are oracle functions from the attempt number (0 for the first fetch of
    a call) to what that attempt returned. */
module LedgerHelpers {
  import opened Js
  import opened Records
  import opened Cache

  /** What one ledger call did: threw, returned a falsy value, or returned a value. */
  datatype Fetch<T> = Threw | Empty | Got(value: T)

  /** The last attempt of a call and how many retries led to it. */
  datatype Attempts<T> = Attempts(last: Fetch<T>, retries: nat)

  const InitialRetries: nat := 10

  /** Attempt `k` and, while `again` holds of an answer and the budget lasts, the
      attempts after it. */
  function Retried<T>(fetch: nat -> Fetch<T>, again: Fetch<T> -> bool, budget: nat, k: nat): (a: Attempts<T>)
    ensures a.retries <= budget
    ensures a.last == fetch(k + a.retries)
    decreases budget
  {
    var x := fetch(k);
    if again(x) && budget > 0 then
      var rest := Retried(fetch, again, budget - 1, k + 1);
      Attempts(rest.last, rest.retries + 1)
    else
      Attempts(x, 0)
  }

  /** Every attempt before the last one asked for a retry, and the last one asks
      for another only when the budget is spent. */
  lemma {:induction false} RetriedStops<T>(fetch: nat -> Fetch<T>, again: Fetch<T> -> bool, budget: nat, k: nat)
    ensures var a := Retried(fetch, again, budget, k);
      && (forall j :: k <= j < k + a.retries ==> again(fetch(j)))
      && (again(a.last) ==> a.retries == budget)
    decreases budget
  {
    if again(fetch(k)) && budget > 0 {
      RetriedStops(fetch, again, budget - 1, k + 1);
    }
  }

  /** The value a getter returns after its attempts: the last answer, unless it
      still asked for a retry or was no value at all. */
  function Found<T>(a: Attempts<T>, again: Fetch<T> -> bool): (r: Option<T>)
    ensures r.Some? <==> a.last.Got? && !again(a.last)
    ensures r.Some? ==> a.last == Got(r.value)
  {
    if a.last.Got? && !again(a.last) then Some(a.last.value) else None
  }

  /** `getDonation` retries on a donation whose value is '0' only; a falsy answer
      or an exception gives null at once. */
  predicate DonationAgain(x: Fetch<Donation>) { x.Got? && x.value.value == 0 }

  /** `getDonationTracker` and `getExpenditure` retry on a falsy answer. */
  predicate IsEmpty<T>(x: Fetch<T>) { x.Empty? }

  /** `getExpendedDonation` retries on a falsy answer or a '0' wei value. */
  predicate ExpendedAgain(x: Fetch<ExpendedDonation>) { x.Empty? || (x.Got? && x.value.valueExpendedETH == 0) }

  /** `getDonation` returns a donation only when some attempt within the budget
      had a nonzero value and every attempt before it had value '0'; a falsy first
      answer is never retried. */
  lemma GetDonationMeaning(fetch: nat -> Fetch<Donation>, budget: nat)
    ensures var a := Retried(fetch, DonationAgain, budget, 0);
      && (fetch(0).Empty? ==> a.retries == 0 && Found(a, DonationAgain) == None)
      && (Found(a, DonationAgain).Some? ==>
            Found(a, DonationAgain).value.value != 0
            && fetch(a.retries) == Got(Found(a, DonationAgain).value)
            && forall j :: 0 <= j < a.retries ==> fetch(j).Got? && fetch(j).value.value == 0)
      && (Found(a, DonationAgain).None? ==> !fetch(a.retries).Got? || a.retries == budget)
  {
    RetriedStops(fetch, DonationAgain, budget, 0);
  }

  /** `getExpendedDonation` never returns an expended donation of '0' wei. */
  lemma GetExpendedDonationMeaning(fetch: nat -> Fetch<ExpendedDonation>, budget: nat)
    ensures var a := Retried(fetch, ExpendedAgain, budget, 0);
      && (Found(a, ExpendedAgain).Some? ==> Found(a, ExpendedAgain).value.valueExpendedETH != 0)
      && (forall j :: 0 <= j < a.retries ==> fetch(j).Empty? || (fetch(j).Got? && fetch(j).value.valueExpendedETH == 0))
      && (Found(a, ExpendedAgain).None? && !fetch(a.retries).Threw? ==> a.retries == budget)
  {
    RetriedStops(fetch, ExpendedAgain, budget, 0);
  }

  // ---------------------------------------------------------------------------
  // Removing one entry from a pending queue

  /** The entry that `deletePendingExpendedDonation(donator, n)` removes. */
  predicate ExpendedMatches(p: PendingExpendedDonation, donator: string, n: nat)
  {
    SameIgnoringCase(p.donator, donator) && p.donationNumber == n
  }

  /** The entry that `deletePendingRefund(address, n)` removes. */
  predicate RefundMatches(p: PendingRefund, address: string, n: nat)
  {
    SameIgnoringCase(p.address, address) && p.donationNumber == n
  }

  function KeepExpended(donator: string, n: nat): PendingExpendedDonation -> bool
  {
    p => !ExpendedMatches(p, donator, n)
  }

  function KeepRefund(address: string, n: nat): PendingRefund -> bool
  {
    p => !RefundMatches(p, address, n)
  }

  /** The queue after the delete-and-repush: the survivors, pushed back in one LPUSH
      (so their order is reversed). */
  function WithoutExpended(queue: seq<PendingExpendedDonation>, donator: string, n: nat): seq<PendingExpendedDonation>
  {
    Reverse(Filter(queue, KeepExpended(donator, n)))
  }

  function WithoutRefund(queue: seq<PendingRefund>, address: string, n: nat): seq<PendingRefund>
  {
    Reverse(Filter(queue, KeepRefund(address, n)))
  }

  lemma {:induction false} ReverseMembers<T>(s: seq<T>, x: T)
    ensures x in Reverse(s) <==> x in s
  {
    ReverseMultiset(s);
    assert x in Reverse(s) <==> x in multiset(Reverse(s));
  }

  /** Removal drops exactly the entries of that donator (in any letter case) and
      number, keeps every other entry as many times as it was there, and removes
      nothing when no entry matches. */
  lemma WithoutExpendedMeaning(queue: seq<PendingExpendedDonation>, donator: string, n: nat)
    ensures forall x :: x in WithoutExpended(queue, donator, n) <==> x in queue && !ExpendedMatches(x, donator, n)
    ensures multiset(WithoutExpended(queue, donator, n)) == multiset(Filter(queue, KeepExpended(donator, n)))
    ensures (forall i :: 0 <= i < |queue| ==> !ExpendedMatches(queue[i], donator, n)) ==>
      WithoutExpended(queue, donator, n) == Reverse(queue)
  {
    var keep := KeepExpended(donator, n);
    forall x ensures x in WithoutExpended(queue, donator, n) <==> x in queue && !ExpendedMatches(x, donator, n) {
      ReverseMembers(Filter(queue, keep), x);
      FilterMembers(queue, keep, x);
    }
    ReverseMultiset(Filter(queue, keep));
    if forall i :: 0 <= i < |queue| ==> !ExpendedMatches(queue[i], donator, n) {
      FilterAll(queue, keep);
    }
  }

  lemma WithoutRefundMeaning(queue: seq<PendingRefund>, address: string, n: nat)
    ensures forall x :: x in WithoutRefund(queue, address, n) <==> x in queue && !RefundMatches(x, address, n)
    ensures multiset(WithoutRefund(queue, address, n)) == multiset(Filter(queue, KeepRefund(address, n)))
    ensures (forall i :: 0 <= i < |queue| ==> !RefundMatches(queue[i], address, n)) ==>
      WithoutRefund(queue, address, n) == Reverse(queue)
  {
    var keep := KeepRefund(address, n);
    forall x ensures x in WithoutRefund(queue, address, n) <==> x in queue && !RefundMatches(x, address, n) {
      ReverseMembers(Filter(queue, keep), x);
      FilterMembers(queue, keep, x);
    }
    ReverseMultiset(Filter(queue, keep));
    if forall i :: 0 <= i < |queue| ==> !RefundMatches(queue[i], address, n) {
      FilterAll(queue, keep);
    }
  }

  /** Two removals of the same entry leave the queue as one removal does, up to the
      reversal of each repush. */
  lemma {:induction false} WithoutExpendedTwice(queue: seq<PendingExpendedDonation>, donator: string, n: nat)
    ensures multiset(WithoutExpended(WithoutExpended(queue, donator, n), donator, n))
         == multiset(WithoutExpended(queue, donator, n))
  {
    var once := WithoutExpended(queue, donator, n);
    WithoutExpendedMeaning(queue, donator, n);
    WithoutExpendedMeaning(once, donator, n);
    assert forall i :: 0 <= i < |once| ==> !ExpendedMatches(once[i], donator, n) by {
      forall i | 0 <= i < |once| ensures !ExpendedMatches(once[i], donator, n) {
        assert once[i] in once;
      }
    }
    ReverseMultiset(once);
  }

  // ---------------------------------------------------------------------------
  // The helper instance

  class Helpers {
    const store: Store
    var numRetries: nat

    constructor (store: Store)
      ensures this.store == store && numRetries == InitialRetries
    {
      this.store := store;
      numRetries := InitialRetries;
    }

    /** One ledger call with its retries: each retry takes one from the shared
        budget before the next attempt. */
    method Retry<T>(fetch: nat -> Fetch<T>, again: Fetch<T> -> bool, k: nat) returns (last: Fetch<T>)
      modifies this
      ensures var a := Retried(fetch, again, old(numRetries), k);
        last == a.last && numRetries == old(numRetries) - a.retries
      decreases numRetries
    {
      var x := fetch(k);
      if again(x) && numRetries > 0 {
        numRetries := numRetries - 1;
        last := Retry(fetch, again, k + 1);
      } else {
        last := x;
      }
    }

    /** `getDonation`. The record's number fields are already numbers here, so
        the normalisation keeps the donation as fetched. */
    method GetDonation(fetch: nat -> Fetch<Donation>) returns (r: Option<Donation>)
      modifies this
      ensures var a := Retried(fetch, DonationAgain, old(numRetries), 0);
        r == Found(a, DonationAgain) && numRetries == old(numRetries) - a.retries
    {
      var last := Retry(fetch, DonationAgain, 0);
      r := if last.Got? && !DonationAgain(last) then Some(last.value) else None;
    }

    /** `getDonationTracker`: the item carries the index it was asked for. */
    method GetDonationTracker(n: nat, fetch: nat -> Fetch<DonationTrackerItem>) returns (r: Option<DonationTrackerItem>)
      modifies this
      ensures var a := Retried(fetch, IsEmpty, old(numRetries), 0);
        && numRetries == old(numRetries) - a.retries
        && (r.Some? <==> a.last.Got?)
        && (r.Some? ==> r.value == a.last.value.(overallDonationNum := n))
    {
      var last := Retry(fetch, IsEmpty, 0);
      r := if last.Got? then Some(last.value.(overallDonationNum := n)) else None;
    }

    /** `getExpenditure`. */
    method GetExpenditure(fetch: nat -> Fetch<Expenditure>) returns (r: Option<Expenditure>)
      modifies this
      ensures var a := Retried(fetch, IsEmpty, old(numRetries), 0);
        r == Found(a, IsEmpty) && numRetries == old(numRetries) - a.retries
    {
      var last := Retry(fetch, IsEmpty, 0);
      r := if last.Got? then Some(last.value) else None;
    }

    /** `getExpendedDonation`. */
    method GetExpendedDonation(fetch: nat -> Fetch<ExpendedDonation>) returns (r: Option<ExpendedDonation>)
      modifies this
      ensures var a := Retried(fetch, ExpendedAgain, old(numRetries), 0);
        r == Found(a, ExpendedAgain) && numRetries == old(numRetries) - a.retries
    {
      var last := Retry(fetch, ExpendedAgain, 0);
      r := if last.Got? && !ExpendedAgain(last) then Some(last.value) else None;
    }

    /** `deletePendingExpendedDonation`: keeps the other entries, deletes the key,
        and pushes the survivors back when there are any. */
    method DeletePendingExpendedDonation(donator: string, n: nat) returns (ok: bool)
      modifies store
      ensures ok
      ensures var rest := Filter(old(store.pendingExpendedDonations), KeepExpended(donator, n));
        && store.Snapshot() == old(store.Snapshot()).(pendingExpendedDonations := Reverse(rest))
        && store.writes == old(store.writes) + [PendingExpendedDonationsKey]
             + (if rest == [] then [] else [PendingExpendedDonationsKey])
    {
      var all := store.pendingExpendedDonations;
      var updated: seq<PendingExpendedDonation> := [];
      var i := 0;
      while i < |all|
        invariant 0 <= i <= |all|
        invariant unchanged(store)
        invariant updated == Filter(all[..i], KeepExpended(donator, n))
      {
        FilterConcat(all[..i], [all[i]], KeepExpended(donator, n));
        assert all[..i + 1] == all[..i] + [all[i]];
        if !(SameIgnoringCase(all[i].donator, donator) && all[i].donationNumber == n) {
          updated := updated + [all[i]];
        }
        i := i + 1;
      }
      assert all[..i] == all;
      assert Reverse(updated) == [] <== updated == [];
      store.DeletePendingExpendedDonations();
      if |updated| > 0 {
        store.PushToPendingExpendedDonations(updated);
      }
      ok := true;
    }

    /** `deletePendingRefund`: the same removal on the refund queue. */
    method DeletePendingRefund(address: string, n: nat) returns (ok: bool)
      modifies store
      ensures ok
      ensures var rest := Filter(old(store.pendingRefunds), KeepRefund(address, n));
        && store.Snapshot() == old(store.Snapshot()).(pendingRefunds := Reverse(rest))
        && store.writes == old(store.writes) + [PendingRefundsKey]
             + (if rest == [] then [] else [PendingRefundsKey])
    {
      var all := store.pendingRefunds;
      var updated: seq<PendingRefund> := [];
      var i := 0;
      while i < |all|
        invariant 0 <= i <= |all|
        invariant unchanged(store)
        invariant updated == Filter(all[..i], KeepRefund(address, n))
      {
        FilterConcat(all[..i], [all[i]], KeepRefund(address, n));
        assert all[..i + 1] == all[..i] + [all[i]];
        if !(SameIgnoringCase(all[i].address, address) && all[i].donationNumber == n) {
          updated := updated + [all[i]];
        }
        i := i + 1;
      }
      assert all[..i] == all;
      assert Reverse(updated) == [] <== updated == [];
      store.DeletePendingRefunds();
      if |updated| > 0 {
        store.PushToPendingRefunds(updated);
      }
      ok := true;
    }

    /** `createExpendedDonation`: submits the item, retrying while the ledger
        answers falsy and the budget lasts, then removes the item from the pending
        queue in every case. Only an exception makes it report false. */
    method CreateExpendedDonation(item: PendingExpendedDonation, write: nat -> Fetch<string>) returns (ok: bool)
      modifies this, store
      ensures var a := Retried(write, IsEmpty, old(numRetries), 0);
        && ok == !a.last.Threw?
        && numRetries == old(numRetries) - a.retries
        && store.Snapshot() == old(store.Snapshot()).(pendingExpendedDonations :=
             WithoutExpended(old(store.pendingExpendedDonations), item.donator, item.donationNumber))
    {
      var last := Retry(write, IsEmpty, 0);
      var _ := DeletePendingExpendedDonation(item.donator, item.donationNumber);
      ok := !last.Threw?;
    }

    /** `refundDonation`: the same protocol for a refund. */
    method RefundDonation(refund: PendingRefund, write: nat -> Fetch<string>) returns (ok: bool)
      modifies this, store
      ensures var a := Retried(write, IsEmpty, old(numRetries), 0);
        && ok == !a.last.Threw?
        && numRetries == old(numRetries) - a.retries
        && store.Snapshot() == old(store.Snapshot()).(pendingRefunds :=
             WithoutRefund(old(store.pendingRefunds), refund.address, refund.donationNumber))
    {
      var last := Retry(write, IsEmpty, 0);
      var _ := DeletePendingRefund(refund.address, refund.donationNumber);
      ok := !last.Threw?;
    }
  }

  /** A write that keeps answering falsy still reports success once the budget is
      spent, after exactly `budget` retries. */
  lemma ExhaustedWriteReportsSuccess(write: nat -> Fetch<string>, budget: nat)
    requires forall k :: write(k) == Empty
    ensures Retried(write, IsEmpty, budget, 0) == Attempts(Empty, budget)
  {
    RetriedAllEmpty(write, budget, 0);
  }

  lemma {:induction false} RetriedAllEmpty(write: nat -> Fetch<string>, budget: nat, k: nat)
    requires forall j :: write(j) == Empty
    ensures Retried(write, IsEmpty, budget, k) == Attempts(Empty, budget)
    decreases budget
  {
    if budget > 0 {
      RetriedAllEmpty(write, budget - 1, k + 1);
    }
  }
}
