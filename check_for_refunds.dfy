/** The refund sweep (routes/Refunds/CheckForRefunds.ts): every cached donation of
    the last 27 days that still holds unexpended, unrefunded wei becomes a pending
    refund of that amount; the pending-refund queue is replaced by the new list and
    the first refund is handed to the ledger helpers. The clock is the `nowMillis`
    parameter. */
module RefundSweep {
  import opened Js
  import opened Records
  import opened Cache

  const DaysAgoToCheck: nat := 27
  const SecondsPerDay: nat := 86400

  /** `Math.round(nowMillis / 1000) - 27 * 86400`: the oldest timestamp, in seconds,
      that is still swept. */
  function Cutoff(nowMillis: nat): (t: int)
    ensures 1000 * (t + DaysAgoToCheck * SecondsPerDay) <= nowMillis + 500 < 1000 * (t + DaysAgoToCheck * SecondsPerDay) + 1000
  {
    (nowMillis + 500) / 1000 - DaysAgoToCheck * SecondsPerDay
  }

  /** A donation the sweep refunds: not older than the cutoff, and with a nonzero
      balance left (only equality with zero is tested). */
  predicate Refundable(d: Donation, cutoff: int)
  {
    !(d.timestamp < cutoff) && Available(d) != 0
  }

  function RefundOf(d: Donation): PendingRefund
  {
    PendingRefund(d.donator, d.donationNumber, Available(d))
  }

  /** `buildPendingRefunds` over the donation list, in list order. */
  function BuildPendingRefunds(donations: seq<Donation>, cutoff: int): seq<PendingRefund>
  {
    if donations == [] then []
    else
      var d := donations[0];
      var rest := BuildPendingRefunds(donations[1..], cutoff);
      if d.timestamp < cutoff then rest
      else if Available(d) == 0 then rest
      else [RefundOf(d)] + rest
  }

  /** The sweep keeps the order of the donation list: sweeping two lists one after
      the other gives the two results one after the other. */
  lemma {:induction false} BuildPendingRefundsConcat(a: seq<Donation>, b: seq<Donation>, cutoff: int)
    ensures BuildPendingRefunds(a + b, cutoff) == BuildPendingRefunds(a, cutoff) + BuildPendingRefunds(b, cutoff)
  {
    if a == [] {
      assert a + b == b;
    } else {
      BuildPendingRefundsConcat(a[1..], b, cutoff);
      assert (a + b)[0] == a[0] && (a + b)[1..] == a[1..] + b;
      if Refundable(a[0], cutoff) {
        var h := [RefundOf(a[0])];
        assert BuildPendingRefunds(a, cutoff) == h + BuildPendingRefunds(a[1..], cutoff);
        assert BuildPendingRefunds(a + b, cutoff) == h + BuildPendingRefunds(a[1..] + b, cutoff);
        ConcatAssoc(h, BuildPendingRefunds(a[1..], cutoff), BuildPendingRefunds(b, cutoff));
      } else {
        assert BuildPendingRefunds(a, cutoff) == BuildPendingRefunds(a[1..], cutoff);
        assert BuildPendingRefunds(a + b, cutoff) == BuildPendingRefunds(a[1..] + b, cutoff);
      }
    }
  }

  /** A refund is in the result exactly when some refundable donation asks for it:
      same address, same number, and its value less what was expended and refunded. */
  lemma {:induction false} BuildPendingRefundsMembers(donations: seq<Donation>, cutoff: int, x: PendingRefund)
    ensures x in BuildPendingRefunds(donations, cutoff) <==>
      exists d :: d in donations && Refundable(d, cutoff) && x == RefundOf(d)
    ensures x in BuildPendingRefunds(donations, cutoff) ==> x.valueETHToRefund != 0
  {
    if donations != [] {
      BuildPendingRefundsMembers(donations[1..], cutoff, x);
      var d0 := donations[0];
      assert forall d :: d in donations <==> d == d0 || d in donations[1..] by {
        assert donations == [d0] + donations[1..];
      }
      if Refundable(d0, cutoff) && x == RefundOf(d0) {
        assert d0 in donations;
      }
    }
  }

  /** Old donations and settled donations are not refunded; a sweep over only such
      donations is empty. */
  lemma {:induction false} NothingToRefund(donations: seq<Donation>, cutoff: int)
    requires forall i :: 0 <= i < |donations| ==> !Refundable(donations[i], cutoff)
    ensures BuildPendingRefunds(donations, cutoff) == []
  {
    if donations != [] {
      NothingToRefund(donations[1..], cutoff);
    }
  }

  /** The sweep looks at the window of the last 27 days: a donation with wei left
      that was made within it is refunded in full, one made before it is not. */
  lemma SweepTakesRecentDonations(d: Donation, nowMillis: nat)
    requires Available(d) != 0
    ensures 1000 * (d.timestamp + DaysAgoToCheck * SecondsPerDay) >= nowMillis + 500 ==>
      BuildPendingRefunds([d], Cutoff(nowMillis)) == [PendingRefund(d.donator, d.donationNumber, Available(d))]
    ensures 1000 * (d.timestamp + DaysAgoToCheck * SecondsPerDay) + 1000 <= nowMillis ==>
      BuildPendingRefunds([d], Cutoff(nowMillis)) == []
  {
    var t := Cutoff(nowMillis);
    assert BuildPendingRefunds([d], t) == (if Refundable(d, t) then [RefundOf(d)] else []) + BuildPendingRefunds([], t);
  }

  class CheckForRefunds {
    const store: Store

    constructor (store: Store)
      ensures this.store == store
    {
      this.store := store;
    }

    /** `endCheckForRefunds`: releases the refund lock. */
    method EndCheckForRefunds()
      modifies store
      ensures store.Snapshot() == old(store.Snapshot()).(isCreatingRefunds := false)
      ensures store.writes == old(store.writes) + [IsCreatingRefundsKey]
    {
      store.SetIsCreatingRefunds(false);
    }

    /** `init`: takes the refund lock without looking at either lock, sweeps, and
        either releases the lock (nothing to refund) or replaces the queue and
        returns the refund handed to the ledger, keeping the lock. */
    method Init(nowMillis: nat) returns (submitted: Option<PendingRefund>)
      modifies store
      ensures var r := BuildPendingRefunds(old(store.allDonations), Cutoff(nowMillis));
        && (r == [] ==>
              && submitted == None
              && store.Snapshot() == old(store.Snapshot()).(isCreatingRefunds := false)
              && store.writes == old(store.writes) + [IsCreatingRefundsKey, IsCreatingRefundsKey])
        && (r != [] ==>
              && submitted == Some(r[0])
              && store.Snapshot() == old(store.Snapshot()).(isCreatingRefunds := true, pendingRefunds := Reverse(r))
              && store.writes == old(store.writes) + [IsCreatingRefundsKey, PendingRefundsKey, PendingRefundsKey])
    {
      store.SetIsCreatingRefunds(true);
      var refunds := BuildPendingRefunds(store.allDonations, Cutoff(nowMillis));
      if |refunds| == 0 {
        EndCheckForRefunds();
        return None;
      }
      store.DeletePendingRefunds();
      store.PushToPendingRefunds(refunds);
      submitted := Some(refunds[0]);
    }
  }
}
