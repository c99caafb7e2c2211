/** Donations grouped by one of their fields (routes/Donations/GetDonationsGroupedBy.ts):
    the cached donations are ordered by timestamp, split into groups sharing the
    value of the `by` field, each group summed up, optionally ordered by one of the
    totals, and one page of groups returned with the number of groups.

    Groups come out in the order JavaScript lists an object's own keys: keys that
    are array indices (canonical numbers below 2^32 - 1) first, ascending, then the
    other keys in the order they first appear. */
module DonationGroups {
  import opened Js
  import opened Records

  const NoByMessage := "A by value must be provided in the request"
  const ByListMessage := "Only the following values may be provided as a value for by: donator, value, numExpenditures, valueExpendedETH, valueExpendedUSD, valueRefundedETH"
  const SortByMessage := "The sortBy value must be one of the following: totalValue, totalValueExpendedETH, totalValueExpendedUSD, totalValueRefundedETH, totalNumExpenditures"
  const SortDirMessage := "The sortDir value must be one of the following: asc, desc"

  // ---------------------------------------------------------------------------
  // The `by` field and the group keys

  datatype GroupField = ByDonator | ByValue | ByNumExpenditures | ByValueExpendedETH
                      | ByValueExpendedUSD | ByValueRefundedETH

  function FieldName(f: GroupField): string
  {
    match f
    case ByDonator => "donator"
    case ByValue => "value"
    case ByNumExpenditures => "numExpenditures"
    case ByValueExpendedETH => "valueExpendedETH"
    case ByValueExpendedUSD => "valueExpendedUSD"
    case ByValueRefundedETH => "valueRefundedETH"
  }

  /** The six accepted `by` values; anything else is refused. */
  function ParseBy(s: string): (f: Option<GroupField>)
    ensures f.Some? ==> FieldName(f.value) == s
    ensures forall g :: s == FieldName(g) ==> f == Some(g)
  {
    if s == "donator" then Some(ByDonator)
    else if s == "value" then Some(ByValue)
    else if s == "numExpenditures" then Some(ByNumExpenditures)
    else if s == "valueExpendedETH" then Some(ByValueExpendedETH)
    else if s == "valueExpendedUSD" then Some(ByValueExpendedUSD)
    else if s == "valueRefundedETH" then Some(ByValueRefundedETH)
    else None
  }

  /** The property name lodash `groupBy` files a donation under: the address, or
      the decimal text of a number (kept here as the number itself). */
  datatype GroupKey = Address(address: string) | Amount(amount: nat)

  function KeyOf(d: Donation, f: GroupField): GroupKey
  {
    match f
    case ByDonator => Address(d.donator)
    case ByValue => Amount(d.value)
    case ByNumExpenditures => Amount(d.numExpenditures)
    case ByValueExpendedETH => Amount(d.valueExpendedETH)
    case ByValueExpendedUSD => Amount(d.valueExpendedUSD)
    case ByValueRefundedETH => Amount(d.valueRefundedETH)
  }

  const MaxArrayIndex: nat := 4294967294

  /** A property name that JavaScript treats as an array index. Addresses start
      with "0x" and never are. */
  predicate IsIndexKey(k: GroupKey)
  {
    k.Amount? && k.amount <= MaxArrayIndex
  }

  predicate NotIndexKey(k: GroupKey)
  {
    !IsIndexKey(k)
  }

  function IndexOf(k: GroupKey): int
  {
    if k.Amount? then k.amount else 0
  }

  /** Own-property order: index keys ascending, then the rest as inserted. */
  function JsKeyOrder(keys: seq<GroupKey>): seq<GroupKey>
  {
    SortBy(Filter(keys, IsIndexKey), IndexOf) + Filter(keys, NotIndexKey)
  }

  ghost predicate Distinct(s: seq<GroupKey>)
  {
    forall x :: multiset(s)[x] <= 1
  }

  function Unlike(k: GroupKey): GroupKey -> bool
  {
    x => x != k
  }

  /** Each key once, at its first appearance. */
  function Dedup(s: seq<GroupKey>): seq<GroupKey>
    decreases |s|
  {
    if s == [] then [] else [s[0]] + Dedup(Filter(s[1..], Unlike(s[0])))
  }

  function KeysOf(ds: seq<Donation>, f: GroupField): (r: seq<GroupKey>)
    ensures |r| == |ds| && forall i :: 0 <= i < |ds| ==> r[i] == KeyOf(ds[i], f)
  {
    seq(|ds|, i requires 0 <= i < |ds| => KeyOf(ds[i], f))
  }

  /** The group keys of `ds`, in the order the groups are listed. */
  function OrderedKeys(ds: seq<Donation>, f: GroupField): seq<GroupKey>
  {
    JsKeyOrder(Dedup(KeysOf(ds, f)))
  }

  function HasKey(f: GroupField, k: GroupKey): Donation -> bool
  {
    d => KeyOf(d, f) == k
  }

  /** The members of the group of key `k`, in list order. */
  function Members(ds: seq<Donation>, f: GroupField, k: GroupKey): seq<Donation>
  {
    Filter(ds, HasKey(f, k))
  }

  function MembersFor(keys: seq<GroupKey>, ds: seq<Donation>, f: GroupField): (r: seq<seq<Donation>>)
    ensures |r| == |keys|
    ensures forall i :: 0 <= i < |keys| ==> r[i] == Members(ds, f, keys[i])
  {
    if keys == [] then [] else [Members(ds, f, keys[0])] + MembersFor(keys[1..], ds, f)
  }

  /** `values(groupBy(ds, by))`. */
  function GroupsOf(ds: seq<Donation>, f: GroupField): seq<seq<Donation>>
  {
    MembersFor(OrderedKeys(ds, f), ds, f)
  }

  /** The sum of `g` over every member of every group. */
  function SumGroups(gs: seq<seq<Donation>>, g: Donation -> int): int
  {
    if gs == [] then 0 else Sum(gs[0], g) + SumGroups(gs[1..], g)
  }

  // ---------------------------------------------------------------------------
  // Key order and deduplication

  lemma {:induction false} IndexSplit(keys: seq<GroupKey>)
    ensures multiset(Filter(keys, IsIndexKey)) + multiset(Filter(keys, NotIndexKey)) == multiset(keys)
  {
    if keys != [] {
      var k := keys[0];
      IndexSplit(keys[1..]);
      assert Filter(keys, IsIndexKey) == (if IsIndexKey(k) then [k] else []) + Filter(keys[1..], IsIndexKey);
      assert Filter(keys, NotIndexKey) == (if NotIndexKey(k) then [k] else []) + Filter(keys[1..], NotIndexKey);
      MultisetCons(keys);
    }
  }

  /** Listing the keys in own-property order loses and gains none. The index keys
      come first, in ascending order, and the other keys keep their order. */
  lemma JsKeyOrderMeaning(keys: seq<GroupKey>)
    ensures multiset(JsKeyOrder(keys)) == multiset(keys)
    ensures var n := |Filter(keys, IsIndexKey)|;
      && n <= |JsKeyOrder(keys)|
      && (forall i :: 0 <= i < n ==> IsIndexKey(JsKeyOrder(keys)[i]))
      && SortedBy(JsKeyOrder(keys)[..n], IndexOf)
      && JsKeyOrder(keys)[n..] == Filter(keys, NotIndexKey)
  {
    var ix := Filter(keys, IsIndexKey);
    SortByCorrect(ix, IndexOf);
    IndexSplit(keys);
    var r := JsKeyOrder(keys);
    assert r[..|ix|] == SortBy(ix, IndexOf);
    forall i | 0 <= i < |ix| ensures IsIndexKey(r[i]) {
      assert r[i] in multiset(SortBy(ix, IndexOf));
      FilterMembers(keys, IsIndexKey, r[i]);
    }
  }

  /** Deduplication keeps exactly the keys that occur, each once. */
  lemma {:induction false} DedupMeaning(s: seq<GroupKey>)
    ensures Distinct(Dedup(s))
    ensures forall x :: x in Dedup(s) <==> x in s
    decreases |s|
  {
    if s != [] {
      var t := Filter(s[1..], Unlike(s[0]));
      DedupMeaning(t);
      var r := Dedup(s);
      assert r == [s[0]] + Dedup(t);
      FilterMembers(s[1..], Unlike(s[0]), s[0]);
      assert s[0] !in Dedup(t);
      MultisetCons(r);
      assert r[1..] == Dedup(t);
      forall x ensures multiset(r)[x] <= 1 {
        if x == s[0] {
          assert x !in multiset(Dedup(t));
        }
      }
      forall x ensures x in r <==> x in s {
        FilterMembers(s[1..], Unlike(s[0]), x);
        assert x in s <==> x == s[0] || x in s[1..];
      }
    }
  }

  lemma KeysOfMeaning(ds: seq<Donation>, f: GroupField, k: GroupKey)
    ensures k in KeysOf(ds, f) <==> exists d :: d in ds && KeyOf(d, f) == k
  {
    if k in KeysOf(ds, f) {
      var i :| 0 <= i < |ds| && KeysOf(ds, f)[i] == k;
      assert ds[i] in ds;
    }
    if exists d :: d in ds && KeyOf(d, f) == k {
      var d :| d in ds && KeyOf(d, f) == k;
      var i :| 0 <= i < |ds| && ds[i] == d;
      assert KeysOf(ds, f)[i] == k;
    }
  }

  /** The ordered keys are the keys of the donations, each once. */
  lemma OrderedKeysMeaning(ds: seq<Donation>, f: GroupField)
    ensures Distinct(OrderedKeys(ds, f))
    ensures forall k :: k in OrderedKeys(ds, f) <==> exists d :: d in ds && KeyOf(d, f) == k
  {
    var keys := Dedup(KeysOf(ds, f));
    DedupMeaning(KeysOf(ds, f));
    JsKeyOrderMeaning(keys);
    forall k ensures k in OrderedKeys(ds, f) <==> exists d :: d in ds && KeyOf(d, f) == k {
      assert k in OrderedKeys(ds, f) <==> k in multiset(keys);
      KeysOfMeaning(ds, f, k);
    }
  }

  // ---------------------------------------------------------------------------
  // The groups partition the list

  lemma DistinctTail(keys: seq<GroupKey>)
    requires keys != [] && Distinct(keys)
    ensures Distinct(keys[1..]) && keys[0] !in keys[1..]
  {
    assert keys == [keys[0]] + keys[1..];
    forall x ensures multiset(keys[1..])[x] <= 1 {
      assert multiset(keys)[x] == multiset{keys[0]}[x] + multiset(keys[1..])[x];
    }
    assert multiset(keys)[keys[0]] == 1 + multiset(keys[1..])[keys[0]];
  }

  lemma MembersCons(d: Donation, rest: seq<Donation>, f: GroupField, k: GroupKey, g: Donation -> int)
    ensures Sum(Members([d] + rest, f, k), g) == (if KeyOf(d, f) == k then g(d) else 0) + Sum(Members(rest, f, k), g)
  {
    assert ([d] + rest)[1..] == rest;
    var head := if KeyOf(d, f) == k then [d] else [];
    assert Members([d] + rest, f, k) == head + Members(rest, f, k);
    SumConcat(head, Members(rest, f, k), g);
  }

  lemma SumGroupsUnfold(keys: seq<GroupKey>, ds: seq<Donation>, f: GroupField, g: Donation -> int)
    requires keys != []
    ensures SumGroups(MembersFor(keys, ds, f), g)
         == Sum(Members(ds, f, keys[0]), g) + SumGroups(MembersFor(keys[1..], ds, f), g)
  {
    var m := MembersFor(keys, ds, f);
    assert m == [Members(ds, f, keys[0])] + MembersFor(keys[1..], ds, f);
    assert m[1..] == MembersFor(keys[1..], ds, f);
  }

  /** Adding one donation in front adds it to the one group of its key. */
  lemma {:induction false} SumGroupsCons(keys: seq<GroupKey>, d: Donation, rest: seq<Donation>,
                                         f: GroupField, g: Donation -> int)
    requires Distinct(keys)
    ensures SumGroups(MembersFor(keys, [d] + rest, f), g)
         == (if KeyOf(d, f) in keys then g(d) else 0) + SumGroups(MembersFor(keys, rest, f), g)
  {
    if keys != [] {
      DistinctTail(keys);
      SumGroupsCons(keys[1..], d, rest, f, g);
      MembersCons(d, rest, f, keys[0], g);
      assert KeyOf(d, f) in keys <==> KeyOf(d, f) == keys[0] || KeyOf(d, f) in keys[1..] by {
        assert keys == [keys[0]] + keys[1..];
      }
      SumGroupsUnfold(keys, [d] + rest, f, g);
      SumGroupsUnfold(keys, rest, f, g);
    }
  }

  /** Summing over the groups is summing over the list, when every donation's
      key is listed once. */
  lemma {:induction false} SumGroupsAll(keys: seq<GroupKey>, ds: seq<Donation>, f: GroupField, g: Donation -> int)
    requires Distinct(keys)
    requires forall d :: d in ds ==> KeyOf(d, f) in keys
    ensures SumGroups(MembersFor(keys, ds, f), g) == Sum(ds, g)
  {
    if ds == [] {
      EmptyGroups(keys, f, g);
    } else {
      assert ds == [ds[0]] + ds[1..];
      SumGroupsAll(keys, ds[1..], f, g);
      SumGroupsCons(keys, ds[0], ds[1..], f, g);
    }
  }

  /** Every total summed over the groups equals the total over the list. */
  lemma GroupsSum(ds: seq<Donation>, f: GroupField, g: Donation -> int)
    ensures SumGroups(GroupsOf(ds, f), g) == Sum(ds, g)
  {
    OrderedKeysMeaning(ds, f);
    SumGroupsAll(OrderedKeys(ds, f), ds, f, g);
  }

  lemma {:induction false} EmptyGroups(keys: seq<GroupKey>, f: GroupField, g: Donation -> int)
    ensures SumGroups(MembersFor(keys, [], f), g) == 0
  {
    if keys != [] {
      EmptyGroups(keys[1..], f, g);
    }
  }

  /** `groupBy` partitions the list: one nonempty group per distinct key, each
      holding exactly the donations with that key in list order, and every sum
      over all groups equal to the sum over the list (so every donation is in
      exactly one group). */
  lemma GroupsPartition(ds: seq<Donation>, f: GroupField)
    ensures var keys := OrderedKeys(ds, f); var gs := GroupsOf(ds, f);
      && Distinct(keys)
      && |gs| == |keys|
      && (forall i :: 0 <= i < |gs| ==> gs[i] != [] && gs[i] == Filter(ds, HasKey(f, keys[i])))
      && (forall i, d :: 0 <= i < |gs| ==> (d in gs[i] <==> d in ds && KeyOf(d, f) == keys[i]))
      && (forall d :: d in ds ==> exists i :: 0 <= i < |gs| && d in gs[i])
      && (forall g :: SumGroups(gs, g) == Sum(ds, g))
  {
    var keys := OrderedKeys(ds, f);
    var gs := GroupsOf(ds, f);
    OrderedKeysMeaning(ds, f);
    forall i, d | 0 <= i < |gs| ensures d in gs[i] <==> d in ds && KeyOf(d, f) == keys[i] {
      FilterMembers(ds, HasKey(f, keys[i]), d);
    }
    forall i | 0 <= i < |gs| ensures gs[i] != [] {
      assert keys[i] in keys;
      var d :| d in ds && KeyOf(d, f) == keys[i];
      assert d in gs[i];
    }
    forall d | d in ds ensures exists i :: 0 <= i < |gs| && d in gs[i] {
      assert KeyOf(d, f) in keys;
      var i :| 0 <= i < |keys| && keys[i] == KeyOf(d, f);
      assert d in gs[i];
    }
    forall g ensures SumGroups(gs, g) == Sum(ds, g) {
      GroupsSum(ds, f, g);
    }
  }

  /** Groups cut from the timestamp-ordered list are themselves in timestamp order. */
  lemma GroupsInTimestampOrder(ds: seq<Donation>, f: GroupField)
    ensures var sorted := SortBy(ds, TimestampOf); var gs := GroupsOf(sorted, f);
      forall i :: 0 <= i < |gs| ==> SortedBy(gs[i], TimestampOf)
  {
    var sorted := SortBy(ds, TimestampOf);
    SortByCorrect(ds, TimestampOf);
    var keys := OrderedKeys(sorted, f);
    forall i | 0 <= i < |keys| ensures SortedBy(Members(sorted, f, keys[i]), TimestampOf) {
      FilterSorted(sorted, HasKey(f, keys[i]), TimestampOf);
    }
  }

  // ---------------------------------------------------------------------------
  // Per-group totals

  function ValueOf(d: Donation): int { d.value }
  function ExpendedEthOf(d: Donation): int { d.valueExpendedETH }
  function ExpendedUsdOf(d: Donation): int { d.valueExpendedUSD }
  function RefundedEthOf(d: Donation): int { d.valueRefundedETH }
  function NumExpendituresOf(d: Donation): int { d.numExpenditures }

  datatype GroupedDonation = GroupedDonation(
    donations: seq<Donation>,
    donator: string,
    totalValue: int,
    totalValueExpendedETH: int,
    totalValueExpendedUSD: int,
    totalValueRefundedETH: int,
    totalNumExpenditures: int)

  /** A group's entry: its members, its first member's donator and the five sums. */
  function Summary(item: seq<Donation>): GroupedDonation
    requires item != []
  {
    GroupedDonation(item, item[0].donator, Sum(item, ValueOf), Sum(item, ExpendedEthOf),
      Sum(item, ExpendedUsdOf), Sum(item, RefundedEthOf), Sum(item, NumExpendituresOf))
  }

  function Summaries(gs: seq<seq<Donation>>): (r: seq<GroupedDonation>)
    requires forall i :: 0 <= i < |gs| ==> gs[i] != []
    ensures |r| == |gs|
  {
    seq(|gs|, i requires 0 <= i < |gs| => Summary(gs[i]))
  }

  /** The totals loop of one group. */
  method Summarise(item: seq<Donation>) returns (g: GroupedDonation)
    requires item != []
    ensures g == Summary(item)
  {
    var totalValue := 0;
    var totalValueExpendedETH := 0;
    var totalValueExpendedUSD := 0;
    var totalValueRefundedETH := 0;
    var totalNumExpenditures := 0;
    for i := 0 to |item|
      invariant totalValue == Sum(item[..i], ValueOf)
      invariant totalValueExpendedETH == Sum(item[..i], ExpendedEthOf)
      invariant totalValueExpendedUSD == Sum(item[..i], ExpendedUsdOf)
      invariant totalValueRefundedETH == Sum(item[..i], RefundedEthOf)
      invariant totalNumExpenditures == Sum(item[..i], NumExpendituresOf)
    {
      var donation := item[i];
      assert item[..i + 1] == item[..i] + [donation];
      SumConcat(item[..i], [donation], ValueOf);
      SumConcat(item[..i], [donation], ExpendedEthOf);
      SumConcat(item[..i], [donation], ExpendedUsdOf);
      SumConcat(item[..i], [donation], RefundedEthOf);
      SumConcat(item[..i], [donation], NumExpendituresOf);
      totalValue := totalValue + donation.value;
      totalValueExpendedETH := totalValueExpendedETH + donation.valueExpendedETH;
      totalValueExpendedUSD := totalValueExpendedUSD + donation.valueExpendedUSD;
      totalValueRefundedETH := totalValueRefundedETH + donation.valueRefundedETH;
      totalNumExpenditures := totalNumExpenditures + donation.numExpenditures;
    }
    assert item[..|item|] == item;
    g := GroupedDonation(item, item[0].donator, totalValue, totalValueExpendedETH,
      totalValueExpendedUSD, totalValueRefundedETH, totalNumExpenditures);
  }

  /** The loop over the groups, pushing one entry per group. */
  method SummariseGroups(gs: seq<seq<Donation>>) returns (donations: seq<GroupedDonation>)
    requires forall i :: 0 <= i < |gs| ==> gs[i] != []
    ensures donations == Summaries(gs)
  {
    donations := [];
    for i := 0 to |gs|
      invariant |donations| == i
      invariant forall j :: 0 <= j < i ==> donations[j] == Summary(gs[j])
    {
      var finalDonation := Summarise(gs[i]);
      donations := donations + [finalDonation];
    }
  }

  /** Summing one total over the entries sums the matching field over all members. */
  lemma {:induction false} SummariesSum(gs: seq<seq<Donation>>, pick: GroupedDonation -> int, g: Donation -> int)
    requires forall i :: 0 <= i < |gs| ==> gs[i] != []
    requires forall item :: item != [] ==> pick(Summary(item)) == Sum(item, g)
    ensures Sum(Summaries(gs), pick) == SumGroups(gs, g)
  {
    if gs != [] {
      SummariesSum(gs[1..], pick, g);
      assert Summaries(gs)[1..] == Summaries(gs[1..]);
    }
  }

  function TotalValueOf(g: GroupedDonation): int { g.totalValue }
  function TotalExpendedEthOf(g: GroupedDonation): int { g.totalValueExpendedETH }
  function TotalExpendedUsdOf(g: GroupedDonation): int { g.totalValueExpendedUSD }
  function TotalRefundedEthOf(g: GroupedDonation): int { g.totalValueRefundedETH }
  function TotalNumExpendituresOf(g: GroupedDonation): int { g.totalNumExpenditures }

  lemma GroupsNonEmpty(ds: seq<Donation>, f: GroupField)
    ensures forall i :: 0 <= i < |GroupsOf(ds, f)| ==> GroupsOf(ds, f)[i] != []
  {
    GroupsPartition(ds, f);
  }

  /** One entry per group of `ds`, in group order. */
  function GroupEntries(ds: seq<Donation>, f: GroupField): seq<GroupedDonation>
  {
    GroupsNonEmpty(ds, f);
    Summaries(GroupsOf(ds, f))
  }

  /** Grouping neither loses nor double counts: each of the five totals, summed
      over the groups, is the same total over all donations. */
  lemma GroupTotalsConserved(ds: seq<Donation>, f: GroupField)
    ensures var entries := GroupEntries(ds, f);
      && Sum(entries, TotalValueOf) == Sum(ds, ValueOf)
      && Sum(entries, TotalExpendedEthOf) == Sum(ds, ExpendedEthOf)
      && Sum(entries, TotalExpendedUsdOf) == Sum(ds, ExpendedUsdOf)
      && Sum(entries, TotalRefundedEthOf) == Sum(ds, RefundedEthOf)
      && Sum(entries, TotalNumExpendituresOf) == Sum(ds, NumExpendituresOf)
  {
    GroupsNonEmpty(ds, f);
    var gs := GroupsOf(ds, f);
    GroupsSum(ds, f, ValueOf);
    SummariesSum(gs, TotalValueOf, ValueOf);
    GroupsSum(ds, f, ExpendedEthOf);
    SummariesSum(gs, TotalExpendedEthOf, ExpendedEthOf);
    GroupsSum(ds, f, ExpendedUsdOf);
    SummariesSum(gs, TotalExpendedUsdOf, ExpendedUsdOf);
    GroupsSum(ds, f, RefundedEthOf);
    SummariesSum(gs, TotalRefundedEthOf, RefundedEthOf);
    GroupsSum(ds, f, NumExpendituresOf);
    SummariesSum(gs, TotalNumExpendituresOf, NumExpendituresOf);
  }

  // ---------------------------------------------------------------------------
  // Ordering the groups and the reply

  datatype SortField = TotalValue | TotalValueExpendedETH | TotalValueExpendedUSD
                     | TotalValueRefundedETH | TotalNumExpenditures

  function SortFieldName(s: SortField): string
  {
    match s
    case TotalValue => "totalValue"
    case TotalValueExpendedETH => "totalValueExpendedETH"
    case TotalValueExpendedUSD => "totalValueExpendedUSD"
    case TotalValueRefundedETH => "totalValueRefundedETH"
    case TotalNumExpenditures => "totalNumExpenditures"
  }

  /** The five accepted `sortBy` values. */
  function ParseSortBy(s: string): (r: Option<SortField>)
    ensures r.Some? ==> SortFieldName(r.value) == s
    ensures forall t :: s == SortFieldName(t) ==> r == Some(t)
  {
    if s == "totalValue" then Some(TotalValue)
    else if s == "totalValueExpendedETH" then Some(TotalValueExpendedETH)
    else if s == "totalValueExpendedUSD" then Some(TotalValueExpendedUSD)
    else if s == "totalValueRefundedETH" then Some(TotalValueRefundedETH)
    else if s == "totalNumExpenditures" then Some(TotalNumExpenditures)
    else None
  }

  function Ascending(s: SortField): GroupedDonation -> int
  {
    match s
    case TotalValue => TotalValueOf
    case TotalValueExpendedETH => TotalExpendedEthOf
    case TotalValueExpendedUSD => TotalExpendedUsdOf
    case TotalValueRefundedETH => TotalRefundedEthOf
    case TotalNumExpenditures => TotalNumExpendituresOf
  }

  /** lodash `orderBy(..., 'desc')` is the stable ascending sort on the negated key. */
  function Descending(s: SortField): GroupedDonation -> int
  {
    g => -Ascending(s)(g)
  }

  /** The key the groups are ordered by: `sortDir` "asc", or descending by default. */
  function SortKey(s: SortField, sortDir: string): GroupedDonation -> int
  {
    if sortDir == "asc" then Ascending(s) else Descending(s)
  }

  datatype GroupQuery = GroupQuery(groupBy: string, sortBy: string, sortDir: string, page: Page)

  datatype GroupedPage = GroupedPage(groupedDonations: seq<GroupedDonation>, total: nat)

  /** The order of checks: `by` present, `by` allowed, the page, then (only when a
      `sortBy` is given) `sortBy` allowed and `sortDir` allowed or absent. */
  predicate Accepted(q: GroupQuery)
  {
    && ParseBy(q.groupBy).Some? && q.page.PageRange?
    && (q.sortBy != "" ==> ParseSortBy(q.sortBy).Some? && q.sortDir in {"", "asc", "desc"})
  }

  /** The groups of the timestamp-ordered donations, each with its totals. */
  function Entries(ds: seq<Donation>, f: GroupField): seq<GroupedDonation>
  {
    GroupEntries(SortBy(ds, TimestampOf), f)
  }

  /** The entries, ordered by the requested total when there is one. */
  function Ordered(entries: seq<GroupedDonation>, q: GroupQuery): seq<GroupedDonation>
    requires q.sortBy != "" ==> ParseSortBy(q.sortBy).Some?
  {
    if q.sortBy == "" then entries else SortBy(entries, SortKey(ParseSortBy(q.sortBy).value, q.sortDir))
  }

  /** The specification of the route's reply; `GetDonationsGroupedBy` below is
      the implementation proved to give it. */
  function GroupedReply(q: GroupQuery, ds: seq<Donation>): (r: Reply<GroupedPage>)
    ensures r.ok <==> Accepted(q)
    ensures !r.ok ==> r.status == 400 && r.payload.None?
    ensures q.groupBy == "" ==> r == Failure(400, NoByMessage)
    ensures q.groupBy != "" && ParseBy(q.groupBy).None? ==> r == Failure(400, ByListMessage)
    ensures ParseBy(q.groupBy).Some? && q.page.PageError? ==> r == Failure(400, q.page.message)
    ensures r.ok ==>
      && r.status == 200 && r.payload.Some?
      && r.payload.value.total == |OrderedKeys(SortBy(ds, TimestampOf), ParseBy(q.groupBy).value)|
      && r.payload.value.groupedDonations
         == Slice(Ordered(Entries(ds, ParseBy(q.groupBy).value), q), q.page.start, q.page.end)
  {
    if q.groupBy == "" then Failure(400, NoByMessage)
    else match ParseBy(q.groupBy)
      case None => Failure(400, ByListMessage)
      case Some(f) =>
        match q.page
        case PageError(message) => Failure(400, message)
        case PageRange(start, end) =>
          var entries := Entries(ds, f);
          if q.sortBy == "" then Success(GroupedPage(Slice(entries, start, end), |entries|))
          else match ParseSortBy(q.sortBy)
            case None => Failure(400, SortByMessage)
            case Some(s) =>
              if q.sortDir != "" && q.sortDir != "asc" && q.sortDir != "desc" then Failure(400, SortDirMessage)
              else
                var donations := SortBy(entries, SortKey(s, q.sortDir));
                SortByCorrect(entries, SortKey(s, q.sortDir));
                Success(GroupedPage(Slice(donations, start, end), |donations|))
  }

  /** `init`, the implementation of `GroupedReply`: validates, groups, runs the
      totals loop, orders and pages. */
  method GetDonationsGroupedBy(q: GroupQuery, allDonations: seq<Donation>) returns (reply: Reply<GroupedPage>)
    ensures reply == GroupedReply(q, allDonations)
  {
    if q.groupBy == "" {
      return Failure(400, NoByMessage);
    }
    var field := ParseBy(q.groupBy);
    if field.None? {
      return Failure(400, ByListMessage);
    }
    if q.page.PageError? {
      return Failure(400, q.page.message);
    }
    var sorted := SortBy(allDonations, TimestampOf);
    GroupsNonEmpty(sorted, field.value);
    var donations := SummariseGroups(GroupsOf(sorted, field.value));
    if q.sortBy != "" {
      var sortBy := ParseSortBy(q.sortBy);
      if sortBy.None? {
        return Failure(400, SortByMessage);
      }
      if q.sortDir != "" && q.sortDir != "asc" && q.sortDir != "desc" {
        return Failure(400, SortDirMessage);
      }
      SortByCorrect(donations, SortKey(sortBy.value, q.sortDir));
      donations := SortBy(donations, SortKey(sortBy.value, q.sortDir));
    }
    reply := Success(GroupedPage(Slice(donations, q.page.start, q.page.end), |donations|));
  }

  /** A successful reply lists every group once, ordered by the requested total
      when one is given; the groups with equal totals keep their listing order. */
  lemma OrderedMeaning(entries: seq<GroupedDonation>, q: GroupQuery)
    requires q.sortBy != "" ==> ParseSortBy(q.sortBy).Some?
    ensures multiset(Ordered(entries, q)) == multiset(entries)
    ensures q.sortBy != "" ==> SortedBy(Ordered(entries, q), SortKey(ParseSortBy(q.sortBy).value, q.sortDir))
    ensures q.sortBy != "" ==> var key := SortKey(ParseSortBy(q.sortBy).value, q.sortDir);
      forall k :: Filter(Ordered(entries, q), KeyIs(key, k)) == Filter(entries, KeyIs(key, k))
  {
    if q.sortBy != "" {
      var key := SortKey(ParseSortBy(q.sortBy).value, q.sortDir);
      SortByCorrect(entries, key);
      forall k ensures Filter(SortBy(entries, key), KeyIs(key, k)) == Filter(entries, KeyIs(key, k)) {
        SortByStable(entries, key, k);
      }
    }
  }
}
