/**
 * The narration engine of the backend (backend/narration.py): the token
 * texts, the replay of the event dictionaries up to a step into a token ->
 * (page, slot) mapping and into a per-page summary, and the page -> tokens
 * bookkeeping that explaining a kv_write does on the side. The explanation
 * prose itself is not modelled.
 *
 * The engine reads the dictionaries `get_events` produces; their
 * `event_type` string always names the variant of their details
 * (EventLogger.GetEvents), so the replays dispatch on the details.
 */
module Narration {
  import opened Common
  import opened EventLog
  import opened PageTables
  import opened Prefix

  /** One entry of `get_token_mapping`: {"text", "page_id", "slot", "event_id"}. */
  datatype TokenPlace = TokenPlace(text: string, pageId: nat, slot: nat, eventId: nat)

  datatype PageStatus = Allocated | Copied | Freed

  /** "created_at" of a faulted-in page, or "source" of a copy. */
  datatype PageOrigin = CreatedAt(eventId: nat) | CopiedFrom(sourceId: nat)

  /** One entry of `get_page_summary`: {"used_slots", "ref_count", "status", ...}. */
  datatype PageInfo = PageInfo(usedSlots: nat, refCount: int, status: PageStatus, origin: PageOrigin)

  /** `token_text.get(idx, f"Token {idx}")`. */
  function TokenText(texts: map<nat, string>, idx: nat): string
  {
    if idx in texts then texts[idx] else "Token " + DecimalString(idx)
  }

  /** The dictionaries `get_events` returns for a list of events. */
  function DictsOf(es: seq<Event>): (ds: seq<EventDict>)
    ensures |ds| == |es|
    ensures forall i | 0 <= i < |es| :: ds[i] == EventDict(es[i].eventId, es[i].details.Type().Value(), es[i].requestId, es[i].details)
  {
    seq(|es|, i requires 0 <= i < |es| => EventDict(es[i].eventId, es[i].details.Type().Value(), es[i].requestId, es[i].details))
  }

  lemma GetEventsAreDicts(logger: EventLogger)
    ensures logger.GetEvents() == DictsOf(logger.events)
  {
  }

  // ---------------------------------------------------------------------
  // get_token_mapping
  // ---------------------------------------------------------------------

  /** Event e writes token t (a kv_write of that token index). */
  predicate WritesToken(e: EventDict, t: nat)
  {
    e.details.KvWrite? && e.details.tokenIdx == t
  }

  /** What a kv_write records for its token. */
  function PlaceOf(texts: map<nat, string>, e: EventDict): TokenPlace
    requires e.details.KvWrite?
  {
    TokenPlace(TokenText(texts, e.details.tokenIdx), e.details.pageId, e.details.slot, e.eventId)
  }

  /** One iteration of the mapping loop. */
  function MapStep(texts: map<nat, string>, m: map<nat, TokenPlace>, e: EventDict): map<nat, TokenPlace>
  {
    if e.details.KvWrite? then m[e.details.tokenIdx := PlaceOf(texts, e)] else m
  }

  /** The mapping loop over es, started from m. */
  function MapAll(texts: map<nat, string>, m: map<nat, TokenPlace>, es: seq<EventDict>): map<nat, TokenPlace>
    decreases |es|
  {
    if es == [] then m else MapStep(texts, MapAll(texts, m, es[..|es| - 1]), es[|es| - 1])
  }

  /**
   * The mapping holds exactly the tokens some kv_write of es writes, and
   * for each of them the place its latest write records.
   */
  lemma {:induction false} LatestWriteWins(texts: map<nat, string>, es: seq<EventDict>, t: nat)
    ensures t in MapAll(texts, map[], es) <==> exists j | 0 <= j < |es| :: WritesToken(es[j], t)
    ensures forall j | 0 <= j < |es| && WritesToken(es[j], t) && (forall j' | j < j' < |es| :: !WritesToken(es[j'], t)) ::
      MapAll(texts, map[], es)[t] == PlaceOf(texts, es[j])
    decreases |es|
  {
    if es != [] {
      var init, e := es[..|es| - 1], es[|es| - 1];
      LatestWriteWins(texts, init, t);
      forall j | 0 <= j < |init| && WritesToken(es[j], t)
        ensures WritesToken(init[j], t)
      {
      }
      if !WritesToken(e, t) {
        forall j | 0 <= j < |init| && WritesToken(init[j], t)
          ensures WritesToken(es[j], t)
        {
        }
      }
    }
  }

  lemma {:induction false} MapAllAppend(texts: map<nat, string>, m: map<nat, TokenPlace>, a: seq<EventDict>, b: seq<EventDict>)
    ensures MapAll(texts, m, a + b) == MapAll(texts, MapAll(texts, m, a), b)
    decreases |b|
  {
    if b == [] {
      assert a + b == a;
    } else {
      MapAllAppend(texts, m, a, b[..|b| - 1]);
      assert (a + b)[..|a + b| - 1] == a + b[..|b| - 1];
    }
  }

  /** The mapping names exactly the table's token positions, each at its entry's page and slot, under its text. */
  ghost predicate Recovers(texts: map<nat, string>, m: map<nat, TokenPlace>, entries: seq<Entry>)
  {
    && (forall t: nat :: t in m <==> t < |entries|)
    && (forall t | 0 <= t < |entries| ::
          m[t].pageId == entries[t].0 && m[t].slot == entries[t].1 && m[t].text == TokenText(texts, t))
  }

  lemma {:induction false} DictsAppend(a: seq<Event>, b: seq<Event>)
    ensures DictsOf(a + b) == DictsOf(a) + DictsOf(b)
  {
  }

  lemma {:induction false} StampedSplit(base: nat, rid: nat, a: seq<Details>, b: seq<Details>)
    ensures Stamped(base, rid, a + b) == Stamped(base, rid, a) + Stamped(base + |a|, rid, b)
  {
  }

  /**
   * Replaying events whose kv_writes all write token u at (p, s) changes
   * no other token, and leaves u at (p, s) once one of them is a kv_write.
   */
  lemma {:induction false} ReplayOneToken(texts: map<nat, string>, m: map<nat, TokenPlace>, es: seq<EventDict>, u: nat, p: nat, s: nat)
    requires forall j | 0 <= j < |es| && es[j].details.KvWrite? :: es[j].details == KvWrite(p, s, u, es[j].details.layer)
    ensures forall t | t != u :: (t in MapAll(texts, m, es) <==> t in m) && (t in m ==> MapAll(texts, m, es)[t] == m[t])
    ensures (exists j | 0 <= j < |es| :: es[j].details.KvWrite?) ==>
      u in MapAll(texts, m, es) && MapAll(texts, m, es)[u].pageId == p && MapAll(texts, m, es)[u].slot == s
      && MapAll(texts, m, es)[u].text == TokenText(texts, u)
    decreases |es|
  {
    if es != [] {
      var init := es[..|es| - 1];
      ReplayOneToken(texts, m, init, u, p, s);
      if !es[|es| - 1].details.KvWrite? && exists j | 0 <= j < |es| :: es[j].details.KvWrite? {
        var j :| 0 <= j < |es| && es[j].details.KvWrite?;
        assert init[j].details.KvWrite?;
      }
    }
  }

  /** A token's build log: its kv_writes all write that token at its entry, and it ends with one. */
  lemma {:induction false} TokenLogWrites(u: nat, e: Entry, layers: nat)
    requires layers > 0
    ensures var ds := TokenLog(u, e, layers);
      && ds != [] && ds[|ds| - 1] == KvWrite(e.0, e.1, u, layers - 1)
      && forall j | 0 <= j < |ds| && ds[j].KvWrite? :: ds[j] == KvWrite(e.0, e.1, u, ds[j].layer)
  {
    var fault: seq<Details> := if e.1 == 0 then [PageFault(e.0)] else [];
    var writes := KvWrites(e.0, e.1, u, layers);
    var ds := TokenLog(u, e, layers);
    assert ds == [TokenStep(u)] + fault + writes;
    forall j | 0 <= j < |ds| && ds[j].KvWrite?
      ensures ds[j] == KvWrite(e.0, e.1, u, ds[j].layer)
    {
      if j >= 1 + |fault| {
        assert ds[j] == writes[j - 1 - |fault|];
      }
    }
  }

  /** Adding token |entries| at entry e, and nothing else, to a mapping that recovers entries. */
  lemma {:induction false} RecoversSnoc(texts: map<nat, string>, m: map<nat, TokenPlace>, m': map<nat, TokenPlace>, entries: seq<Entry>, e: Entry)
    requires Recovers(texts, m, entries)
    requires forall t | t != |entries| :: (t in m' <==> t in m) && (t in m ==> m'[t] == m[t])
    requires |entries| in m' && m'[|entries|].pageId == e.0 && m'[|entries|].slot == e.1
    requires m'[|entries|].text == TokenText(texts, |entries|)
    ensures Recovers(texts, m', entries + [e])
  {
  }

  /** Replaying one token's build log adds that token at its entry. */
  lemma {:induction false} TokenReplay(texts: map<nat, string>, m: map<nat, TokenPlace>, entries: seq<Entry>, e: Entry, layers: nat, base: nat, rid: nat)
    requires layers > 0 && Recovers(texts, m, entries)
    ensures Recovers(texts, MapAll(texts, m, DictsOf(Stamped(base, rid, TokenLog(|entries|, e, layers)))), entries + [e])
  {
    var u := |entries|;
    var ds := TokenLog(u, e, layers);
    var es := DictsOf(Stamped(base, rid, ds));
    TokenLogWrites(u, e, layers);
    assert forall j | 0 <= j < |es| :: es[j].details == ds[j];
    ReplayOneToken(texts, m, es, u, e.0, e.1);
    assert es[|es| - 1].details.KvWrite?;
    RecoversSnoc(texts, m, MapAll(texts, m, es), entries, e);
  }

  /** The dictionaries of two stretches of logging in a row. */
  lemma {:induction false} DictsSplit(base: nat, rid: nat, a: seq<Details>, b: seq<Details>)
    ensures DictsOf(Stamped(base, rid, a + b)) == DictsOf(Stamped(base, rid, a)) + DictsOf(Stamped(base + |a|, rid, b))
  {
    StampedSplit(base, rid, a, b);
    DictsAppend(Stamped(base, rid, a), Stamped(base + |a|, rid, b));
  }

  /** The replay of two stretches of logging in a row: the replay of the first, continued over the second. */
  lemma {:induction false} ReplaySplit(texts: map<nat, string>, base: nat, rid: nat, a: seq<Details>, b: seq<Details>)
    ensures MapAll(texts, map[], DictsOf(Stamped(base, rid, a + b)))
      == MapAll(texts, MapAll(texts, map[], DictsOf(Stamped(base, rid, a))), DictsOf(Stamped(base + |a|, rid, b)))
  {
    var da, db := DictsOf(Stamped(base, rid, a)), DictsOf(Stamped(base + |a|, rid, b));
    DictsSplit(base, rid, a, b);
    MapAllAppend(texts, map[], da, db);
  }

  /**
   * Replaying the log of a prefix build (compute_prefix on the
   * instrumented pool) with at least one layer maps exactly the prefix's
   * tokens, token t to the page and slot of table entry t.
   */
  lemma {:induction false} ReplayRecoversTable(texts: map<nat, string>, entries: seq<Entry>, layers: nat, base: nat, rid: nat)
    requires layers > 0
    ensures Recovers(texts, MapAll(texts, map[], DictsOf(Stamped(base, rid, PrefixLog(entries, layers)))), entries)
    decreases |entries|
  {
    if entries != [] {
      var init, e := entries[..|entries| - 1], entries[|entries| - 1];
      assert entries == init + [e];
      var a := PrefixLog(init, layers);
      ReplayRecoversTable(texts, init, layers, base, rid);
      PrefixLogAppend(init, e, layers);
      ReplaySplit(texts, base, rid, a, TokenLog(|init|, e, layers));
      TokenReplay(texts, MapAll(texts, map[], DictsOf(Stamped(base, rid, a))), init, e, layers, base + |a|, rid);
    }
  }

  // ---------------------------------------------------------------------
  // get_page_summary
  // ---------------------------------------------------------------------

  function Max(a: nat, b: nat): nat
  {
    if a < b then b else a
  }

  /** One iteration of the summary loop. */
  function SummaryStep(pages: map<nat, PageInfo>, e: EventDict): map<nat, PageInfo>
  {
    match e.details
    case PageFault(p) => pages[p := PageInfo(0, 1, Allocated, CreatedAt(e.eventId))]
    case KvWrite(p, slot, _, _) =>
      if p in pages then pages[p := pages[p].(usedSlots := Max(pages[p].usedSlots, slot + 1))] else pages
    case CopyOnWrite(src, dst) =>
      if src in pages then
        var dropped := pages[src := pages[src].(refCount := pages[src].refCount - 1)];
        dropped[dst := PageInfo(dropped[src].usedSlots, 1, Copied, CopiedFrom(src))]
      else pages
    case PageFreed(p) => if p in pages then pages[p := pages[p].(status := Freed)] else pages
    case _ => pages
  }

  /** The summary loop over es, started from pages. */
  function SummaryAll(pages: map<nat, PageInfo>, es: seq<EventDict>): map<nat, PageInfo>
    decreases |es|
  {
    if es == [] then pages else SummaryStep(SummaryAll(pages, es[..|es| - 1]), es[|es| - 1])
  }

  /** Event e (re)creates page p: a page_fault of p, or a copy_on_write into p. */
  predicate Creates(e: EventDict, p: nat)
  {
    || (e.details.PageFault? && e.details.pageId == p)
    || (e.details.CopyOnWrite? && e.details.newPageId == p)
  }

  /**
   * A page is in the summary only if some event created it, and every
   * faulted-in page is (a page is marked freed, never removed); no entry's
   * ref count exceeds 1, since entries start at 1 and only copies
   * decrement.
   */
  lemma {:induction false} SummaryShape(es: seq<EventDict>)
    ensures forall p | p in SummaryAll(map[], es) :: exists j | 0 <= j < |es| :: Creates(es[j], p)
    ensures forall j | 0 <= j < |es| && es[j].details.PageFault? :: es[j].details.pageId in SummaryAll(map[], es)
    ensures forall p | p in SummaryAll(map[], es) :: SummaryAll(map[], es)[p].refCount <= 1
    decreases |es|
  {
    if es != [] {
      var init, e := es[..|es| - 1], es[|es| - 1];
      SummaryShape(init);
      var before, after := SummaryAll(map[], init), SummaryAll(map[], es);
      forall p | p in after
        ensures exists j | 0 <= j < |es| :: Creates(es[j], p)
      {
        if p in before {
          var j :| 0 <= j < |init| && Creates(init[j], p);
          assert Creates(es[j], p);
        } else {
          assert Creates(es[|es| - 1], p);
        }
      }
      forall j | 0 <= j < |es| && es[j].details.PageFault?
        ensures es[j].details.pageId in after
      {
        if j < |init| {
          assert init[j].details.PageFault?;
        }
      }
    }
  }

  /**
   * Between two (re)creations of a page its used_slots never decreases,
   * and the page stays in the summary.
   */
  lemma {:induction false} UsedSlotsGrow(pages: map<nat, PageInfo>, es: seq<EventDict>, more: seq<EventDict>, p: nat)
    requires p in SummaryAll(pages, es)
    requires forall j | 0 <= j < |more| :: !Creates(more[j], p)
    ensures p in SummaryAll(pages, es + more)
    ensures SummaryAll(pages, es + more)[p].usedSlots >= SummaryAll(pages, es)[p].usedSlots
    decreases |more|
  {
    if more == [] {
      assert es + more == es;
    } else {
      var init := more[..|more| - 1];
      UsedSlotsGrow(pages, es, init, p);
      assert (es + more)[..|es + more| - 1] == es + init;
      assert !Creates(more[|more| - 1], p);
    }
  }

  /** A kv_write on a page the summary knows leaves it with at least slot + 1 used slots. */
  lemma {:induction false} WriteFillsSlot(pages: map<nat, PageInfo>, e: EventDict)
    requires e.details.KvWrite? && e.details.pageId in pages
    ensures SummaryStep(pages, e)[e.details.pageId].usedSlots >= e.details.slot + 1
    ensures SummaryStep(pages, e)[e.details.pageId].usedSlots >= pages[e.details.pageId].usedSlots
  {
  }

  // ---------------------------------------------------------------------
  // page_allocations (the side effect of explain_event)
  // ---------------------------------------------------------------------

  /** What explaining e does to page_allocations: a kv_write appends its token under its page. */
  function Allot(m: map<nat, seq<nat>>, e: EventDict): map<nat, seq<nat>>
  {
    if e.details.KvWrite? then
      var p := e.details.pageId;
      m[p := (if p in m then m[p] else []) + [e.details.tokenIdx]]
    else m
  }

  function AllotAll(m: map<nat, seq<nat>>, es: seq<EventDict>): map<nat, seq<nat>>
    decreases |es|
  {
    if es == [] then m else Allot(AllotAll(m, es[..|es| - 1]), es[|es| - 1])
  }

  /** The token indices of the kv_writes on page p, in event order. */
  function WritesOn(es: seq<EventDict>, p: nat): seq<nat>
    decreases |es|
  {
    if es == [] then []
    else
      var e := es[|es| - 1];
      WritesOn(es[..|es| - 1], p) + (if e.details.KvWrite? && e.details.pageId == p then [e.details.tokenIdx] else [])
  }

  /** Explaining events in order from a fresh engine lists under each page the tokens written to it, in order. */
  lemma {:induction false} AllotmentsInOrder(es: seq<EventDict>, p: nat)
    ensures p in AllotAll(map[], es) <==> WritesOn(es, p) != []
    ensures p in AllotAll(map[], es) ==> AllotAll(map[], es)[p] == WritesOn(es, p)
    decreases |es|
  {
    if es != [] {
      AllotmentsInOrder(es[..|es| - 1], p);
    }
  }

  /** `NarrationEngine`: the token texts and the page -> tokens record. */
  class NarrationEngine {
    var tokenText: map<nat, string>
    var pageAllocations: map<nat, seq<nat>>

    constructor()
      ensures tokenText == map[] && pageAllocations == map[]
    {
      tokenText := map[];
      pageAllocations := map[];
    }

    /** `set_tokens`: index i names tokens[i], and nothing else is named. */
    method SetTokens(tokens: seq<string>)
      modifies this`tokenText
      ensures forall i: nat :: i in tokenText <==> i < |tokens|
      ensures forall i | 0 <= i < |tokens| :: tokenText[i] == tokens[i]
    {
      tokenText := map i: nat | i < |tokens| :: tokens[i];
    }

    /** The bookkeeping `explain_event` does: a kv_write's token is appended under its page. */
    method ExplainEvent(e: EventDict)
      modifies this`pageAllocations
      ensures pageAllocations == Allot(old(pageAllocations), e)
    {
      if e.details.KvWrite? {
        var p := e.details.pageId;
        if p !in pageAllocations {
          pageAllocations := pageAllocations[p := []];
        }
        pageAllocations := pageAllocations[p := pageAllocations[p] + [e.details.tokenIdx]];
      }
    }

    /** `get_token_mapping(step, all_events)`: the mapping loop over `all_events[:step + 1]`. */
    method GetTokenMapping(step: int, allEvents: seq<EventDict>) returns (mapping: map<nat, TokenPlace>)
      ensures mapping == MapAll(tokenText, map[], SliceTo(allEvents, step + 1))
    {
      var events := allEvents[..SliceEnd(|allEvents|, step + 1)];
      mapping := map[];
      for i := 0 to |events|
        invariant mapping == MapAll(tokenText, map[], events[..i])
      {
        var e := events[i];
        assert events[..i + 1][..i] == events[..i];
        if e.details.KvWrite? {
          mapping := mapping[e.details.tokenIdx := TokenPlace(TokenText(tokenText, e.details.tokenIdx), e.details.pageId, e.details.slot, e.eventId)];
        }
      }
      assert events[..|events|] == events;
    }

    /** `get_page_summary(step, all_events)`: the summary loop over `all_events[:step + 1]`. */
    method GetPageSummary(step: int, allEvents: seq<EventDict>) returns (pages: map<nat, PageInfo>)
      ensures pages == SummaryAll(map[], SliceTo(allEvents, step + 1))
    {
      var events := allEvents[..SliceEnd(|allEvents|, step + 1)];
      pages := map[];
      for i := 0 to |events|
        invariant pages == SummaryAll(map[], events[..i])
      {
        var e := events[i];
        assert events[..i + 1][..i] == events[..i];
        match e.details {
          case PageFault(p) =>
            pages := pages[p := PageInfo(0, 1, Allocated, CreatedAt(e.eventId))];
          case KvWrite(p, slot, _, _) =>
            if p in pages {
              pages := pages[p := pages[p].(usedSlots := Max(pages[p].usedSlots, slot + 1))];
            }
          case CopyOnWrite(src, dst) =>
            if src in pages {
              pages := pages[src := pages[src].(refCount := pages[src].refCount - 1)];
              pages := pages[dst := PageInfo(pages[src].usedSlots, 1, Copied, CopiedFrom(src))];
            }
          case PageFreed(p) =>
            if p in pages {
              pages := pages[p := pages[p].(status := Freed)];
            }
          case _ =>
        }
      }
      assert events[..|events|] == events;
    }
  }
}
