/** The cache (a redis instance) as the workflows use it: scalar keys and lists.
    A list is held in redis order, most recently pushed first, and read back
    whole in that order. */
module Cache {
  import opened Js
  import opened Records

  /** The keys the workflows write, for recording the order of writes. */
  datatype Key =
    | NextDonationToExpendKey
    | PendingNextDonationToExpendKey
    | IsCreatingExpenditureKey
    | IsCreatingRefundsKey
    | ContractBalanceKey
    | TotalNumDonationsKey
    | MaxDonationKey
    | LatestDonationKey
    | TotalDonationsEthKey
    | AllDonationsKey
    | PendingExpendedDonationsKey
    | PendingRefundsKey

  /** The value of every key at one moment. An absent scalar key is `None`; an
      absent list is the empty list. */
  datatype Contents = Contents(
    nextDonationToExpend: Option<nat>,
    pendingNextDonationToExpend: Option<nat>,
    isCreatingExpenditure: bool,
    isCreatingRefunds: bool,
    standardCharityContractBalance: Option<nat>,
    totalNumDonations: Option<nat>,
    maxDonation: Option<SpotlightDonation>,
    latestDonation: Option<SpotlightDonation>,
    totalDonationsEth: Option<nat>,
    donationTrackerItems: seq<DonationTrackerItem>,
    allDonations: seq<Donation>,
    pendingExpendedDonations: seq<PendingExpendedDonation>,
    pendingRefunds: seq<PendingRefund>)

  /** redis `LPUSH key item1 item2 ...`: each item is put at the head in turn, so
      the last item ends up first. */
  method LPush<T>(list: seq<T>, items: seq<T>) returns (r: seq<T>)
    ensures r == Reverse(items) + list
    ensures |r| == |list| + |items|
    ensures multiset(r) == multiset(items) + multiset(list)
  {
    r := list;
    var i := 0;
    while i < |items|
      invariant 0 <= i <= |items|
      invariant r == Reverse(items[..i]) + list
    {
      ReverseConcat(items[..i], [items[i]]);
      assert items[..i + 1] == items[..i] + [items[i]];
      r := [items[i]] + r;
      i := i + 1;
    }
    assert items[..i] == items;
    ReverseMultiset(items);
  }

  class Store {
    var nextDonationToExpend: Option<nat>
    var pendingNextDonationToExpend: Option<nat>
    var isCreatingExpenditure: bool
    var isCreatingRefunds: bool
    var standardCharityContractBalance: Option<nat>
    var totalNumDonations: Option<nat>
    var maxDonation: Option<SpotlightDonation>
    var latestDonation: Option<SpotlightDonation>
    var totalDonationsEth: Option<nat>
    var donationTrackerItems: seq<DonationTrackerItem>
    var allDonations: seq<Donation>
    var pendingExpendedDonations: seq<PendingExpendedDonation>
    var pendingRefunds: seq<PendingRefund>

    /** The keys written so far, oldest first. */
    ghost var writes: seq<Key>

    function Snapshot(): Contents
      reads this
    {
      Contents(nextDonationToExpend, pendingNextDonationToExpend, isCreatingExpenditure,
        isCreatingRefunds, standardCharityContractBalance, totalNumDonations, maxDonation,
        latestDonation, totalDonationsEth, donationTrackerItems, allDonations,
        pendingExpendedDonations, pendingRefunds)
    }

    /** A store holding the given contents, with no writes recorded. */
    constructor (c: Contents)
      ensures Snapshot() == c && writes == []
    {
      nextDonationToExpend := c.nextDonationToExpend;
      pendingNextDonationToExpend := c.pendingNextDonationToExpend;
      isCreatingExpenditure := c.isCreatingExpenditure;
      isCreatingRefunds := c.isCreatingRefunds;
      standardCharityContractBalance := c.standardCharityContractBalance;
      totalNumDonations := c.totalNumDonations;
      maxDonation := c.maxDonation;
      latestDonation := c.latestDonation;
      totalDonationsEth := c.totalDonationsEth;
      donationTrackerItems := c.donationTrackerItems;
      allDonations := c.allDonations;
      pendingExpendedDonations := c.pendingExpendedDonations;
      pendingRefunds := c.pendingRefunds;
      writes := [];
    }

    /** `getStandardCharityContractBalance`: the cached balance, 0 when absent. */
    function ContractBalance(): (b: nat)
      reads this
      ensures standardCharityContractBalance.None? ==> b == 0
    {
      if standardCharityContractBalance.Some? then standardCharityContractBalance.value else 0
    }

    method SetNextDonationToExpend(n: nat)
      modifies this
      ensures Snapshot() == old(Snapshot()).(nextDonationToExpend := Some(n))
      ensures writes == old(writes) + [NextDonationToExpendKey]
    {
      nextDonationToExpend := Some(n);
      writes := writes + [NextDonationToExpendKey];
    }

    method SetPendingNextDonationToExpend(n: nat)
      modifies this
      ensures Snapshot() == old(Snapshot()).(pendingNextDonationToExpend := Some(n))
      ensures writes == old(writes) + [PendingNextDonationToExpendKey]
    {
      pendingNextDonationToExpend := Some(n);
      writes := writes + [PendingNextDonationToExpendKey];
    }

    method SetIsCreatingExpenditure(b: bool)
      modifies this
      ensures Snapshot() == old(Snapshot()).(isCreatingExpenditure := b)
      ensures writes == old(writes) + [IsCreatingExpenditureKey]
    {
      isCreatingExpenditure := b;
      writes := writes + [IsCreatingExpenditureKey];
    }

    method SetIsCreatingRefunds(b: bool)
      modifies this
      ensures Snapshot() == old(Snapshot()).(isCreatingRefunds := b)
      ensures writes == old(writes) + [IsCreatingRefundsKey]
    {
      isCreatingRefunds := b;
      writes := writes + [IsCreatingRefundsKey];
    }

    /** `setStandardCharityContractBalance`: copies the ledger's balance. */
    method SetStandardCharityContractBalance(balance: nat)
      modifies this
      ensures Snapshot() == old(Snapshot()).(standardCharityContractBalance := Some(balance))
      ensures writes == old(writes) + [ContractBalanceKey]
      ensures ContractBalance() == balance
    {
      standardCharityContractBalance := Some(balance);
      writes := writes + [ContractBalanceKey];
    }

    /** `setTotalNumDonations`: copies the ledger's count. */
    method SetTotalNumDonations(n: nat)
      modifies this
      ensures Snapshot() == old(Snapshot()).(totalNumDonations := Some(n))
      ensures writes == old(writes) + [TotalNumDonationsKey]
    {
      totalNumDonations := Some(n);
      writes := writes + [TotalNumDonationsKey];
    }

    /** `setMaxDonation`: writes only when the ledger returned a donation. */
    method SetMaxDonation(d: Option<SpotlightDonation>)
      modifies this
      ensures Snapshot() == if d.Some? then old(Snapshot()).(maxDonation := d) else old(Snapshot())
      ensures writes == old(writes) + (if d.Some? then [MaxDonationKey] else [])
    {
      if d.Some? {
        maxDonation := d;
        writes := writes + [MaxDonationKey];
      }
    }

    /** `setLatestDonation`: writes only when the ledger returned a donation. */
    method SetLatestDonation(d: Option<SpotlightDonation>)
      modifies this
      ensures Snapshot() == if d.Some? then old(Snapshot()).(latestDonation := d) else old(Snapshot())
      ensures writes == old(writes) + (if d.Some? then [LatestDonationKey] else [])
    {
      if d.Some? {
        latestDonation := d;
        writes := writes + [LatestDonationKey];
      }
    }

    /** `setTotalDonationsEth`: copies the ledger's total. */
    method SetTotalDonationsEth(total: nat)
      modifies this
      ensures Snapshot() == old(Snapshot()).(totalDonationsEth := Some(total))
      ensures writes == old(writes) + [TotalDonationsEthKey]
    {
      totalDonationsEth := Some(total);
      writes := writes + [TotalDonationsEthKey];
    }

    /** `pushDonation`: one LPUSH of one donation. */
    method PushDonation(d: Donation)
      modifies this
      ensures Snapshot() == old(Snapshot()).(allDonations := [d] + old(allDonations))
      ensures writes == old(writes) + [AllDonationsKey]
    {
      allDonations := LPush(allDonations, [d]);
      writes := writes + [AllDonationsKey];
    }

    /** `pushToPendingExpendedDonations`: one LPUSH of the given items. */
    method PushToPendingExpendedDonations(items: seq<PendingExpendedDonation>)
      modifies this
      ensures Snapshot() == old(Snapshot()).(pendingExpendedDonations := Reverse(items) + old(pendingExpendedDonations))
      ensures writes == old(writes) + [PendingExpendedDonationsKey]
    {
      pendingExpendedDonations := LPush(pendingExpendedDonations, items);
      writes := writes + [PendingExpendedDonationsKey];
    }

    /** `pushToPendingRefunds`: one LPUSH of the given items. */
    method PushToPendingRefunds(items: seq<PendingRefund>)
      modifies this
      ensures Snapshot() == old(Snapshot()).(pendingRefunds := Reverse(items) + old(pendingRefunds))
      ensures writes == old(writes) + [PendingRefundsKey]
    {
      pendingRefunds := LPush(pendingRefunds, items);
      writes := writes + [PendingRefundsKey];
    }

    /** `deleteKey(PENDING_EXPENDED_DONATIONS)`. */
    method DeletePendingExpendedDonations()
      modifies this
      ensures Snapshot() == old(Snapshot()).(pendingExpendedDonations := [])
      ensures writes == old(writes) + [PendingExpendedDonationsKey]
    {
      pendingExpendedDonations := [];
      writes := writes + [PendingExpendedDonationsKey];
    }

    /** `deleteKey(PENDING_REFUNDS)`. */
    method DeletePendingRefunds()
      modifies this
      ensures Snapshot() == old(Snapshot()).(pendingRefunds := [])
      ensures writes == old(writes) + [PendingRefundsKey]
    {
      pendingRefunds := [];
      writes := writes + [PendingRefundsKey];
    }
  }
}
