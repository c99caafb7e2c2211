/** The ledger event listener (Infura/StandardCharity/ContractEvents.ts): an event
    is matched by its first topic against the registered topics and handed to the
    one handler of its name. Only a new donation changes the cache: the donation
    is pushed and five aggregates are refreshed from the ledger. The decoder, the
    donation fetch and the aggregate reads are inputs. */
module LedgerEvents {
  import opened Js
  import opened Records
  import opened Cache

  datatype EventName = LogNewDonation | LogNewExpenditure | LogNewExpendedDonation | LogNewRefund

  datatype EventWithTopic = EventWithTopic(event: EventName, topic: string)

  /** A log entry; `topics` is None when it is missing or not an array. */
  datatype ContractEvent = ContractEvent(topics: Option<seq<string>>, data: string)

  /** lodash `find(eventsWithTopics, o => o.topic === topic)`. */
  function FindTopic(registered: seq<EventWithTopic>, topic: string): (r: Option<EventWithTopic>)
    ensures r.Some? ==> r.value in registered && r.value.topic == topic
    ensures r.None? ==> forall e :: e in registered ==> e.topic != topic
  {
    if registered == [] then None
    else if registered[0].topic == topic then Some(registered[0])
    else FindTopic(registered[1..], topic)
  }

  /** A log entry with a usable first topic. */
  predicate WellFormed(e: ContractEvent)
  {
    e.topics.Some? && |e.topics.value| > 0 && e.topics.value[0] != []
  }

  /** `init`: the handler an event goes to, if any. */
  function Dispatch(registered: seq<EventWithTopic>, e: ContractEvent): (r: Option<EventName>)
    ensures r.Some? ==> WellFormed(e)
  {
    if !WellFormed(e) then None
    else match FindTopic(registered, e.topics.value[0])
      case None => None
      case Some(t) => Some(t.event)
  }

  /** An event reaches a handler exactly when it is well formed and its first topic
      is registered, and then it reaches the handler of the first registration of
      that topic. */
  lemma DispatchMeaning(registered: seq<EventWithTopic>, e: ContractEvent)
    ensures Dispatch(registered, e).Some? <==>
      WellFormed(e) && exists t :: t in registered && t.topic == e.topics.value[0]
    ensures Dispatch(registered, e).Some? ==>
      exists i :: 0 <= i < |registered| && registered[i].topic == e.topics.value[0]
        && registered[i].event == Dispatch(registered, e).value
        && forall j :: 0 <= j < i ==> registered[j].topic != e.topics.value[0]
  {
    if WellFormed(e) {
      FindTopicFirst(registered, e.topics.value[0]);
    }
  }

  lemma {:induction false} FindTopicFirst(registered: seq<EventWithTopic>, topic: string)
    ensures FindTopic(registered, topic).Some? ==>
      exists i :: 0 <= i < |registered| && registered[i] == FindTopic(registered, topic).value
        && forall j :: 0 <= j < i ==> registered[j].topic != topic
  {
    if registered != [] && registered[0].topic != topic {
      FindTopicFirst(registered[1..], topic);
      if FindTopic(registered, topic).Some? {
        var i :| 0 <= i < |registered[1..]| && registered[1..][i] == FindTopic(registered, topic).value
          && forall j :: 0 <= j < i ==> registered[1..][j].topic != topic;
        assert registered[i + 1] == FindTopic(registered, topic).value;
      }
    } else if registered != [] {
      assert registered[0] == FindTopic(registered, topic).value;
    }
  }

  /** Two registrations with distinct topics dispatch each of their events to its
      own handler. */
  lemma DispatchDistinct(a: EventWithTopic, b: EventWithTopic, data: string)
    requires a.topic != b.topic && a.topic != [] && b.topic != []
    ensures Dispatch([a, b], ContractEvent(Some([a.topic]), data)) == Some(a.event)
    ensures Dispatch([a, b], ContractEvent(Some([b.topic]), data)) == Some(b.event)
  {
  }

  /** What the ledger reports when the aggregates are refreshed. */
  datatype Aggregates = Aggregates(
    totalNumDonations: nat,
    maxDonation: Option<SpotlightDonation>,
    latestDonation: Option<SpotlightDonation>,
    totalDonationsEth: nat,
    contractBalance: nat)

  /** The cache writes of a donation that was fetched: the push, then the count,
      the maximum and latest donations (when the ledger has them), the ETH total
      and the balance. */
  function NewDonationWrites(a: Aggregates): seq<Key>
  {
    [AllDonationsKey, TotalNumDonationsKey]
      + (if a.maxDonation.Some? then [MaxDonationKey] else [])
      + (if a.latestDonation.Some? then [LatestDonationKey] else [])
      + [TotalDonationsEthKey, ContractBalanceKey]
  }

  /** What `newDonation` does to the cache, from contents `s0` and writes `w0` to
      `s1` and `w1`: nothing unless the event names a donator and a number and the
      donation is fetched; then the donation is pushed and the aggregates are
      written in order. */
  ghost predicate DonationRecorded(s0: Contents, s1: Contents, w0: seq<Key>, w1: seq<Key>,
                                   decoded: Option<map<string, string>>, fetch: (string, Num) -> Option<Donation>,
                                   aggregates: Aggregates)
  {
    var named := decoded.Some? && "donator" in decoded.value && decoded.value["donator"] != []
                 && "donationNumber" in decoded.value && decoded.value["donationNumber"] != [];
    var fetched := if named then fetch(decoded.value["donator"], ToNumber(decoded.value["donationNumber"])) else None;
    && (fetched.None? ==> s1 == s0 && w1 == w0)
    && (fetched.Some? ==>
          && s1 == s0.(
               allDonations := [fetched.value] + s0.allDonations,
               totalNumDonations := Some(aggregates.totalNumDonations),
               maxDonation := if aggregates.maxDonation.Some? then aggregates.maxDonation else s0.maxDonation,
               latestDonation := if aggregates.latestDonation.Some? then aggregates.latestDonation else s0.latestDonation,
               totalDonationsEth := Some(aggregates.totalDonationsEth),
               standardCharityContractBalance := Some(aggregates.contractBalance))
          && w1 == w0 + NewDonationWrites(aggregates))
  }

  class ContractEvents {
    const store: Store
    const eventsWithTopics: seq<EventWithTopic>

    constructor (store: Store, eventsWithTopics: seq<EventWithTopic>)
      ensures this.store == store && this.eventsWithTopics == eventsWithTopics
    {
      this.store := store;
      this.eventsWithTopics := eventsWithTopics;
    }

    /** `newDonation`. `decoded` is the decoded event data (None: decoding failed);
        `fetch` is the ledger's `getDonation(donator, number)`. Nothing is written
        unless the event names a donator and a number and the donation is fetched. */
    method NewDonation(decoded: Option<map<string, string>>, fetch: (string, Num) -> Option<Donation>,
                       aggregates: Aggregates)
      modifies store
      ensures DonationRecorded(old(store.Snapshot()), store.Snapshot(), old(store.writes), store.writes,
                               decoded, fetch, aggregates)
    {
      if decoded.None? {
        return;
      }
      var event := decoded.value;
      if !("donator" in event && event["donator"] != []) || !("donationNumber" in event && event["donationNumber"] != []) {
        return;
      }
      var donation := fetch(event["donator"], ToNumber(event["donationNumber"]));
      if donation.None? {
        return;
      }
      store.PushDonation(donation.value);
      store.SetTotalNumDonations(aggregates.totalNumDonations);
      store.SetMaxDonation(aggregates.maxDonation);
      store.SetLatestDonation(aggregates.latestDonation);
      store.SetTotalDonationsEth(aggregates.totalDonationsEth);
      store.SetStandardCharityContractBalance(aggregates.contractBalance);
    }

    /** `newExpenditure`, `newExpendedDonation` and `newRefund` do nothing. */
    method Ignore(e: ContractEvent)
      ensures unchanged(store)
    {
    }

    /** `init`: dispatches the event; only a new donation touches the cache. */
    method Init(e: ContractEvent, decoded: Option<map<string, string>>, fetch: (string, Num) -> Option<Donation>,
                aggregates: Aggregates) returns (handler: Option<EventName>)
      modifies store
      ensures handler == Dispatch(eventsWithTopics, e)
      ensures handler != Some(LogNewDonation) ==> unchanged(store)
      ensures handler == Some(LogNewDonation) ==>
        DonationRecorded(old(store.Snapshot()), store.Snapshot(), old(store.writes), store.writes,
                         decoded, fetch, aggregates)
    {
      handler := Dispatch(eventsWithTopics, e);
      if handler == Some(LogNewDonation) {
        NewDonation(decoded, fetch, aggregates);
      } else if handler.Some? {
        Ignore(e);
      }
    }
  }
}
