/**
 * The event log of the instrumented simulator: an append-only list of typed
 * events, an event counter that stamps each event, and a request counter.
 * Timestamps are wall-clock floats and are not modelled.
 */
module EventLog {
  import opened Common

  /** The ten event kinds, with the string value each one serialises to. */
  datatype EventType =
    | PageFaultType | KvWriteType | PrefixReuseType | CopyOnWriteType | PageFreedType
    | TokenStepType | DecodeStartType | DecodeEndType | RequestStartType | RequestEndType
  {
    function Value(): string
    {
      match this
      case PageFaultType => "page_fault"
      case KvWriteType => "kv_write"
      case PrefixReuseType => "prefix_reuse"
      case CopyOnWriteType => "copy_on_write"
      case PageFreedType => "page_freed"
      case TokenStepType => "token_step"
      case DecodeStartType => "decode_start"
      case DecodeEndType => "decode_end"
      case RequestStartType => "request_start"
      case RequestEndType => "request_end"
    }
  }

  /** The details payload of each kind, carrying exactly the fields the logger records for it. */
  datatype Details =
    | PageFault(pageId: nat)
    | KvWrite(pageId: nat, slot: nat, tokenIdx: nat, layer: nat)
    | PrefixReuse(prefixKey: string, numPages: nat)
    | CopyOnWrite(sourcePageId: nat, newPageId: nat)
    | PageFreed(pageId: nat)
    | TokenStep(tokenIdx: nat)
    | DecodeStart(numPages: nat)
    | DecodeEnd
    | RequestStart(prompt: string, requestId: nat)
    | RequestEnd(requestId: nat)
  {
    function Type(): EventType
    {
      match this
      case PageFault(_) => PageFaultType
      case KvWrite(_, _, _, _) => KvWriteType
      case PrefixReuse(_, _) => PrefixReuseType
      case CopyOnWrite(_, _) => CopyOnWriteType
      case PageFreed(_) => PageFreedType
      case TokenStep(_) => TokenStepType
      case DecodeStart(_) => DecodeStartType
      case DecodeEnd => DecodeEndType
      case RequestStart(_, _) => RequestStartType
      case RequestEnd(_) => RequestEndType
    }
  }

  datatype Event = Event(eventId: nat, requestId: nat, details: Details)

  /** The dictionary form an event is exported in (`Event.to_dict`), without the timestamp. */
  datatype EventDict = EventDict(eventId: nat, eventType: string, requestId: nat, details: Details)

  datatype Summary = Summary(totalEvents: nat, eventCounts: map<EventType, nat>, numRequests: nat)

  function DetailsOf(es: seq<Event>): (ds: seq<Details>)
    ensures |ds| == |es|
    ensures forall i | 0 <= i < |es| :: ds[i] == es[i].details
  {
    seq(|es|, i requires 0 <= i < |es| => es[i].details)
  }

  /** Number of events of type t. */
  function Count(es: seq<Event>, t: EventType): nat
  {
    if es == [] then 0
    else Count(es[..|es| - 1], t) + (if es[|es| - 1].details.Type() == t then 1 else 0)
  }

  function CountOr0(m: map<EventType, nat>, t: EventType): nat
  {
    if t in m then m[t] else 0
  }

  /** Sum of the counts a map holds over all ten types. */
  function SumCounts(m: map<EventType, nat>): nat
  {
    CountOr0(m, PageFaultType) + CountOr0(m, KvWriteType) + CountOr0(m, PrefixReuseType)
    + CountOr0(m, CopyOnWriteType) + CountOr0(m, PageFreedType) + CountOr0(m, TokenStepType)
    + CountOr0(m, DecodeStartType) + CountOr0(m, DecodeEndType) + CountOr0(m, RequestStartType)
    + CountOr0(m, RequestEndType)
  }

  /** Sum over all ten types of the number of events of that type. */
  function SumOfCounts(es: seq<Event>): nat
  {
    Count(es, PageFaultType) + Count(es, KvWriteType) + Count(es, PrefixReuseType)
    + Count(es, CopyOnWriteType) + Count(es, PageFreedType) + Count(es, TokenStepType)
    + Count(es, DecodeStartType) + Count(es, DecodeEndType) + Count(es, RequestStartType)
    + Count(es, RequestEndType)
  }

  /** Every event is counted under exactly one type: the per-type counts add up to the number of events. */
  lemma {:induction false} CountsAddUp(es: seq<Event>)
    ensures SumOfCounts(es) == |es|
    decreases |es|
  {
    if es != [] {
      var init := es[..|es| - 1];
      CountsAddUp(init);
    }
  }

  /** The events one stretch of logging appends: ids from base + 1 on, each stamped with request id rid. */
  function Stamped(base: nat, rid: nat, ds: seq<Details>): (es: seq<Event>)
    ensures |es| == |ds|
    ensures forall i | 0 <= i < |ds| :: es[i] == Event(base + i + 1, rid, ds[i])
  {
    seq(|ds|, i requires 0 <= i < |ds| => Event(base + i + 1, rid, ds[i]))
  }

  /** e1 is e0 followed by events carrying the details ds, numbered on from e0 and stamped with request id rid. */
  ghost predicate Extends(e0: seq<Event>, e1: seq<Event>, rid: nat, ds: seq<Details>)
  {
    e1 == e0 + Stamped(|e0|, rid, ds)
  }

  /** Two stretches of logging in a row are one stretch logging both. */
  lemma ExtendsTrans(e0: seq<Event>, e1: seq<Event>, e2: seq<Event>, rid: nat, a: seq<Details>, b: seq<Details>)
    requires Extends(e0, e1, rid, a) && Extends(e1, e2, rid, b)
    ensures Extends(e0, e2, rid, a + b)
  {
    assert Stamped(|e0|, rid, a) + Stamped(|e1|, rid, b) == Stamped(|e0|, rid, a + b);
  }

  /** The event log (backend/event_logger.py, class EventLogger). */
  class EventLogger {
    var events: seq<Event>
    var eventCounter: nat
    var requestCounter: nat
    var currentRequestId: nat

    /** Event ids since the last clear run 1, 2, 3, ... in append order. */
    ghost predicate Valid()
      reads this
    {
      && eventCounter == |events|
      && (forall i | 0 <= i < |events| :: events[i].eventId == i + 1)
    }

    function Details(): seq<Details>
      reads this
    {
      DetailsOf(events)
    }

    /**
     * Since the pre-state, exactly the details ds were logged, each stamped
     * with the request id in force, which did not change.
     */
    twostate predicate Logged(new ds: seq<Details>)
      reads this
    {
      && Valid()
      && Extends(old(events), events, currentRequestId, ds)
      && requestCounter == old(requestCounter)
      && currentRequestId == old(currentRequestId)
    }

    constructor()
      ensures Valid()
      ensures events == [] && eventCounter == 0 && requestCounter == 0 && currentRequestId == 0
    {
      events := [];
      eventCounter := 0;
      requestCounter := 0;
      currentRequestId := 0;
    }

    /** `log_event`: stamp the next event id and the request id in force, and append. */
    method LogEvent(d: Details)
      requires Valid()
      modifies this
      ensures Valid()
      ensures eventCounter == old(eventCounter) + 1
      ensures events == old(events) + [Event(eventCounter, currentRequestId, d)]
      ensures Details() == old(Details()) + [d]
      ensures requestCounter == old(requestCounter) && currentRequestId == old(currentRequestId)
      ensures Logged([d])
    {
      eventCounter := eventCounter + 1;
      events := events + [Event(eventCounter, currentRequestId, d)];
      assert DetailsOf(events) == DetailsOf(old(events)) + [d];
    }

    /** `start_request`: a new request id, announced by a request_start event carrying it. */
    method StartRequest(prompt: string)
      requires Valid()
      modifies this
      ensures Valid()
      ensures requestCounter == old(requestCounter) + 1 && currentRequestId == requestCounter
      ensures eventCounter == old(eventCounter) + 1
      ensures events == old(events) + [Event(eventCounter, requestCounter, RequestStart(prompt, requestCounter))]
      ensures Details() == old(Details()) + [RequestStart(prompt, requestCounter)]
    {
      requestCounter := requestCounter + 1;
      currentRequestId := requestCounter;
      LogEvent(RequestStart(prompt, currentRequestId));
    }

    /** `end_request`: a request_end event for the current request, which stays current. */
    method EndRequest()
      requires Valid()
      modifies this
      ensures Valid()
      ensures requestCounter == old(requestCounter) && currentRequestId == old(currentRequestId)
      ensures eventCounter == old(eventCounter) + 1
      ensures events == old(events) + [Event(eventCounter, currentRequestId, RequestEnd(currentRequestId))]
      ensures Details() == old(Details()) + [RequestEnd(currentRequestId)]
    {
      LogEvent(RequestEnd(currentRequestId));
    }

    /** `clear`: the events and the event counter go; the request counters stay. */
    method Clear()
      modifies this
      ensures Valid()
      ensures events == [] && eventCounter == 0
      ensures requestCounter == old(requestCounter) && currentRequestId == old(currentRequestId)
    {
      events := [];
      eventCounter := 0;
    }

    /** `get_events`: one dictionary per event, in log order. */
    function GetEvents(): (r: seq<EventDict>)
      reads this
      ensures |r| == |events|
      ensures forall i | 0 <= i < |r| ::
        r[i].eventId == events[i].eventId && r[i].requestId == events[i].requestId
        && r[i].eventType == events[i].details.Type().Value() && r[i].details == events[i].details
    {
      seq(|events|, i requires 0 <= i < |events| reads this =>
        EventDict(events[i].eventId, events[i].details.Type().Value(), events[i].requestId, events[i].details))
    }

    /** `get_summary`: per-type counts of the logged events, which add up to their total. */
    method GetSummary() returns (s: Summary)
      ensures s.totalEvents == |events| && s.numRequests == requestCounter
      ensures forall t :: t in s.eventCounts <==> Count(events, t) > 0
      ensures forall t | t in s.eventCounts :: s.eventCounts[t] == Count(events, t)
      ensures SumCounts(s.eventCounts) == s.totalEvents
    {
      var counts: map<EventType, nat> := map[];
      var i := 0;
      while i < |events|
        invariant 0 <= i <= |events|
        invariant forall t :: CountOr0(counts, t) == Count(events[..i], t)
        invariant forall t | t in counts :: counts[t] > 0
      {
        var t := events[i].details.Type();
        CountStep(events, i);
        var next := counts[t := CountOr0(counts, t) + 1];
        assert forall u :: CountOr0(next, u) == CountOr0(counts, u) + (if t == u then 1 else 0);
        counts := next;
        i := i + 1;
      }
      assert events[..i] == events;
      SummaryAddsUp(counts, events);
      s := Summary(|events|, counts, requestCounter);
    }
  }

  lemma CountStep(es: seq<Event>, i: nat)
    requires i < |es|
    ensures forall t :: Count(es[..i + 1], t) == Count(es[..i], t) + (if es[i].details.Type() == t then 1 else 0)
  {
    assert es[..i + 1][..i] == es[..i];
  }

  lemma SummaryAddsUp(m: map<EventType, nat>, es: seq<Event>)
    requires forall t :: CountOr0(m, t) == Count(es, t)
    ensures SumCounts(m) == |es|
  {
    CountsAddUp(es);
  }
}
