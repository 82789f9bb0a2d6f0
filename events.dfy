/**
 * The event bus the basket service publishes checkout events to, and the
 * rule on that bus that routes them to the order service.
 */
module Events {
  import opened Wrappers
  import opened Json

  /** The bus name, source and detail-type the checkout rule is configured with. */
  const BusName: string := "MssEventBus"
  const CheckoutSource: string := "com.swn.basket.checkoutbasket"
  const CheckoutDetailType: string := "CheckoutBasket"

  /** One entry of a `put_events` call; `detail` is the JSON document the entry carries. */
  datatype Entry = Entry(
    source: string,
    resources: seq<string>,
    detail: Value,
    detailType: string,
    eventBusName: string)

  /** The bus's answer for one entry: an event id, or a failure code. */
  datatype EntryResult = Accepted(eventId: nat) | Rejected

  /** The `put_events` response: `FailedEntryCount` and one result per entry, in entry order. */
  datatype PutEventsResult = PutEventsResult(failedEntryCount: nat, results: seq<EntryResult>)

  /** The entries the bus took in, given its per-entry results. */
  function Delivered(entries: seq<Entry>, results: seq<EntryResult>): seq<Entry>
    requires |entries| == |results|
    decreases |entries|
  {
    if entries == [] then []
    else
      var n := |entries| - 1;
      Delivered(entries[..n], results[..n]) + (if results[n].Accepted? then [entries[n]] else [])
  }

  /** The number of rejected entries. */
  function Failures(results: seq<EntryResult>): nat
    decreases |results|
  {
    if results == [] then 0
    else
      var n := |results| - 1;
      Failures(results[..n]) + (if results[n].Rejected? then 1 else 0)
  }

  /** Every entry is either taken in or counted as failed. */
  lemma {:induction false} DeliveredOrFailed(entries: seq<Entry>, results: seq<EntryResult>)
    requires |entries| == |results|
    ensures |Delivered(entries, results)| + Failures(results) == |entries|
    decreases |entries|
  {
    if entries != [] {
      var n := |entries| - 1;
      DeliveredOrFailed(entries[..n], results[..n]);
    }
  }

  /** A single entry is taken in exactly when the response reports no failed entry. */
  lemma SingleEntry(e: Entry, res: PutEventsResult)
    requires |res.results| == 1 && res.failedEntryCount == Failures(res.results)
    ensures Delivered([e], res.results) == if res.failedEntryCount == 0 then [e] else []
  {
    assert [e][..0] == [] && res.results[..0] == [];
  }

  /** The checkout rule's pattern: exact source and detail-type, on the bus the rule belongs to. */
  predicate MatchesCheckoutRule(e: Entry) {
    e.eventBusName == BusName && e.source == CheckoutSource && e.detailType == CheckoutDetailType
  }

  /** The entries of a bus's log that the checkout rule hands to its target, in log order. */
  function Routed(log: seq<Entry>): (r: seq<Entry>)
    ensures forall e :: e in r ==> e in log && MatchesCheckoutRule(e)
    decreases |log|
  {
    if log == [] then []
    else
      var n := |log| - 1;
      Routed(log[..n]) + (if MatchesCheckoutRule(log[n]) then [log[n]] else [])
  }

  /** Taking in one more entry hands it to the target if it matches the rule, and nothing otherwise. */
  lemma RoutedAppend(log: seq<Entry>, e: Entry)
    ensures Routed(log + [e]) == if MatchesCheckoutRule(e) then Routed(log) + [e] else Routed(log)
  {
    assert (log + [e])[..|log|] == log;
  }

  /** Every matching entry of the log reaches the target. */
  lemma {:induction false} RoutedComplete(log: seq<Entry>, e: Entry)
    requires e in log && MatchesCheckoutRule(e)
    ensures e in Routed(log)
    decreases |log|
  {
    var n := |log| - 1;
    if log[n] != e {
      assert log == log[..n] + [log[n]];
      RoutedComplete(log[..n], e);
    }
  }

  /** The bus: the entries it has taken in, in arrival order. */
  class EventBus {
    var log: seq<Entry>
    var nextId: nat

    constructor ()
      ensures log == [] && nextId == 0
    {
      log, nextId := [], 0;
    }

    /**
     * `put_events`: the call as a whole may fail (`None`, a `ClientError`),
     * and otherwise each entry is taken in or rejected on its own; the
     * response counts the rejections and the log grows by the entries taken in.
     */
    method PutEvents(entries: seq<Entry>) returns (r: Option<PutEventsResult>)
      modifies this
      ensures r.None? ==> log == old(log)
      ensures r.Some? ==> |r.value.results| == |entries|
      ensures r.Some? ==> r.value.failedEntryCount == Failures(r.value.results)
      ensures r.Some? ==> log == old(log) + Delivered(entries, r.value.results)
    {
      var reachable: bool :| true;
      if !reachable {
        return None;
      }
      var results: seq<EntryResult> := [];
      var failed := 0;
      var i := 0;
      while i < |entries|
        invariant 0 <= i <= |entries|
        invariant |results| == i
        invariant failed == Failures(results)
        invariant log == old(log) + Delivered(entries[..i], results)
      {
        var accept: bool :| true;
        var res := if accept then Accepted(nextId) else Rejected;
        assert entries[..i + 1][..i] == entries[..i];
        assert (results + [res])[..i] == results;
        if accept {
          log := log + [entries[i]];
          nextId := nextId + 1;
        } else {
          failed := failed + 1;
        }
        results := results + [res];
        i := i + 1;
      }
      assert entries[..i] == entries;
      r := Some(PutEventsResult(failed, results));
    }
  }
}
