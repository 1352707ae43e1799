/**
 * The frontend's replay of the event log (`KVVisualizer`): token keys built
 * from a 32-bit FNV-1a hash of the token text (Fowler/Noll/Vo, section 2 of
 * the IETF draft draft-eastlake-fnv), the prefix of events up to a step, the
 * most recent token and request, and the cache context that decides whether
 * the token processed at a step was served from a previous request's pages.
 *
 * JavaScript values are modelled as far as the code inspects them: strings are
 * sequences of UTF-16 code units, numbers are integers, and everything the code
 * only tests for being a number or a string is `Other`.
 */
module Visualizer {
  import opened Common
  import opened EventLog

  // ---------------------------------------------------------------------
  // JavaScript values
  // ---------------------------------------------------------------------

  /** A UTF-16 code unit, what `charCodeAt` returns. */
  type CodeUnit = bv16

  type JsString = seq<CodeUnit>

  datatype JsValue = Undefined | Null | Num(n: int) | Str(s: JsString) | Other

  /** One parsed event as the frontend receives it: `event_type` and the `details` object. */
  datatype JsEvent = JsEvent(eventType: string, details: map<string, JsValue>)

  /** `this.data`: the event list and the `tokens` field, `None` when that field is not an array. */
  datatype VizData = VizData(events: seq<JsEvent>, tokens: Option<seq<JsValue>>)

  /** `obj?.key`: a missing property reads as `undefined`. */
  function Field(obj: map<string, JsValue>, key: string): JsValue
  {
    if key in obj then obj[key] else Undefined
  }

  /** `arr[i]`: outside the array it reads as `undefined`. */
  function Element(arr: seq<JsValue>, i: int): JsValue
  {
    if 0 <= i < |arr| then arr[i] else Undefined
  }

  predicate Nullish(v: JsValue)
  {
    v.Undefined? || v.Null?
  }

  /** `a ?? b`. */
  function Coalesce(a: JsValue, b: JsValue): (r: JsValue)
    ensures !Nullish(a) ==> r == a
    ensures Nullish(a) ==> r == b
  {
    if Nullish(a) then b else a
  }

  /** The UTF-16 encoding a Unicode string arrives in once it is a JavaScript string. */
  function CodeUnits(c: char): (r: JsString)
    ensures |r| == if (c as int) < 0x1_0000 then 1 else 2
  {
    var n := c as int;
    if n < 0x1_0000 then [n as bv16]
    else [(0xD800 + (n - 0x1_0000) / 0x400) as bv16, (0xDC00 + (n - 0x1_0000) % 0x400) as bv16]
  }

  function Utf16(s: string): (r: JsString)
    ensures |r| >= |s|
    decreases |s|
  {
    if s == [] then [] else CodeUnits(s[0]) + Utf16(s[1..])
  }

  // ---------------------------------------------------------------------
  // hashToken: 32-bit FNV-1a over UTF-16 code units, as 8 hex digits
  // ---------------------------------------------------------------------

  const FnvOffsetBasis: nat := 0x811c9dc5
  const FnvPrime: nat := 0x0100_0193
  const TwoTo32: nat := 0x1_0000_0000

  /** Bitwise exclusive or of two non-negative integers, bit by bit from the lowest. */
  function Xor(a: nat, b: nat): nat
    decreases a + b
  {
    if a == 0 && b == 0 then 0
    else 2 * Xor(a / 2, b / 2) + (if a % 2 == b % 2 then 0 else 1)
  }

  /**
   * FNV-1a: start from the offset basis, and for each code unit XOR it in and
   * multiply by the prime modulo 2^32. `hash ^= c`, `Math.imul` and `>>> 0`
   * compute the same 32 bits, read as an unsigned number.
   */
  function Fnv1a(text: JsString): (h: nat)
    ensures h < TwoTo32
    decreases |text|
  {
    if text == [] then FnvOffsetBasis
    else (Xor(Fnv1a(text[..|text| - 1]), text[|text| - 1] as nat) * FnvPrime) % TwoTo32
  }

  /** `s.padStart(width, fill)`. */
  function PadStart(s: string, width: nat, fill: char): (r: string)
    ensures |r| == if |s| < width then width else |s|
    ensures |s| < width ==> r == seq(width - |s|, _ => fill) + s
    ensures |s| >= width ==> r == s
  {
    if |s| < width then seq(width - |s|, _ => fill) + s else s
  }

  /** `hash.toString(16).padStart(8, "0")` for a hash read as an unsigned 32-bit number. */
  function Hex8(h: nat): string
    requires h < TwoTo32
  {
    PadStart(ToRadix(h, 16), 8, '0')
  }

  lemma SixteenToTheEighth()
    ensures Pow(16, 8) == TwoTo32
  {
    assert Pow(16, 2) == 256;
    assert Pow(16, 4) == 16 * (16 * Pow(16, 2));
    assert Pow(16, 6) == 16 * (16 * Pow(16, 4));
    assert Pow(16, 8) == 16 * (16 * Pow(16, 6));
  }

  /** The rendering of a hash is exactly 8 lower-case hex digits and reads back as the hash. */
  lemma {:induction false} HexOfHash(h: nat)
    requires h < TwoTo32
    ensures |Hex8(h)| == 8
    ensures forall i | 0 <= i < 8 :: IsHexDigit(Hex8(h)[i])
    ensures ParseRadix(Hex8(h), 16) == h
  {
    var d := ToRadix(h, 16);
    SixteenToTheEighth();
    RadixLength(h, 16, 8);
    RadixDigits(h, 16);
    RadixRoundTrip(h, 16);
    LeadingZeros(8 - |d|, d, 16);
    assert Hex8(h) == seq(8 - |d|, _ => '0') + d;
    forall i | 0 <= i < 8
      ensures IsHexDigit(Hex8(h)[i])
    {
      if i >= 8 - |d| {
        assert Hex8(h)[i] == d[i - (8 - |d|)];
      }
    }
  }

  /** Different hashes render differently. */
  lemma HexInjective(h1: nat, h2: nat)
    requires h1 < TwoTo32 && h2 < TwoTo32
    ensures Hex8(h1) == Hex8(h2) <==> h1 == h2
  {
    HexOfHash(h1);
    HexOfHash(h2);
  }

  /** The empty text hashes to the offset basis, rendered "811c9dc5". */
  lemma {:induction false} EmptyTextHash()
    ensures Hex8(Fnv1a([])) == "811c9dc5"
  {
    assert ToRadix(0x811c9dc5, 16) == ToRadix(0x811c9dc, 16) + ['5'];
    assert ToRadix(0x811c9dc, 16) == ToRadix(0x811c9d, 16) + ['c'];
    assert ToRadix(0x811c9d, 16) == ToRadix(0x811c9, 16) + ['d'];
    assert ToRadix(0x811c9, 16) == ToRadix(0x811c, 16) + ['9'];
    assert ToRadix(0x811c, 16) == ToRadix(0x811, 16) + ['c'];
    assert ToRadix(0x811, 16) == ToRadix(0x81, 16) + ['1'];
    assert ToRadix(0x81, 16) == ToRadix(0x8, 16) + ['1'];
  }

  /** `hashToken(text)`: the FNV-1a loop, then the hash rendered as 8 hex digits. */
  method HashToken(text: JsString) returns (hex: string)
    ensures hex == Hex8(Fnv1a(text))
    ensures |hex| == 8 && forall i | 0 <= i < 8 :: IsHexDigit(hex[i])
    ensures ParseRadix(hex, 16) == Fnv1a(text)
  {
    var hash := FnvOffsetBasis;
    for i := 0 to |text|
      invariant hash == Fnv1a(text[..i])
    {
      assert text[..i + 1][..i] == text[..i];
      hash := (Xor(hash, text[i] as nat) * FnvPrime) % TwoTo32;
    }
    assert text[..|text|] == text;
    hex := PadStart(ToRadix(hash, 16), 8, '0');
    HexOfHash(hash);
  }

  // ---------------------------------------------------------------------
  // makeTokenKey
  // ---------------------------------------------------------------------

  /** `typeof tokenText === "string" ? tokenText : ""`. */
  function SafeText(v: JsValue): (r: JsString)
    ensures v.Str? ==> r == v.s
    ensures !v.Str? ==> r == []
  {
    if v.Str? then v.s else []
  }

  /** The key `${hash}:${tokenIdx}`. */
  function TokenKey(text: JsValue, idx: int): string
  {
    Hex8(Fnv1a(SafeText(text))) + ":" + DecimalString(idx)
  }

  method MakeTokenKey(text: JsValue, idx: int) returns (key: string)
    ensures key == TokenKey(text, idx)
    ensures |key| > 9 && key[8] == ':'
  {
    var hex := HashToken(SafeText(text));
    key := hex + ":" + DecimalString(idx);
    RadixDigits(if idx < 0 then -idx else idx, 10);
  }

  /** Keys are equal exactly when the token indices are equal and the texts hash alike. */
  lemma TokenKeyInjective(a: JsValue, i: int, b: JsValue, j: int)
    ensures TokenKey(a, i) == TokenKey(b, j) <==> i == j && Fnv1a(SafeText(a)) == Fnv1a(SafeText(b))
  {
    var ha, hb := Hex8(Fnv1a(SafeText(a))), Hex8(Fnv1a(SafeText(b)));
    var ka, kb := TokenKey(a, i), TokenKey(b, j);
    HexOfHash(Fnv1a(SafeText(a)));
    HexOfHash(Fnv1a(SafeText(b)));
    if ka == kb {
      assert ka[..8] == ha && kb[..8] == hb;
      HexInjective(Fnv1a(SafeText(a)), Fnv1a(SafeText(b)));
      assert ka[9..] == DecimalString(i) && kb[9..] == DecimalString(j);
      DecimalRoundTrip(i);
      DecimalRoundTrip(j);
    }
  }

  // ---------------------------------------------------------------------
  // getEventsUpToStep, getCurrentTokenIdx, getCurrentRequestId, isLayer0
  // ---------------------------------------------------------------------

  /** `getEventsUpToStep(step)`: `events.slice(0, step + 1)`, or nothing without data. */
  function EventsUpTo(data: Option<VizData>, step: int): (r: seq<JsEvent>)
    ensures data.None? ==> r == []
    ensures data.Some? ==> r <= data.value.events
    ensures data.Some? && -1 <= step ==> |r| == if step + 1 <= |data.value.events| then step + 1 else |data.value.events|
    ensures data.Some? && step < -1 ==> |r| == if |data.value.events| + step + 1 < 0 then 0 else |data.value.events| + step + 1
  {
    if data.None? then [] else SliceTo(data.value.events, step + 1)
  }

  /** Index of the last event satisfying p. */
  function LastWhere(es: seq<JsEvent>, p: JsEvent -> bool): (r: Option<nat>)
    ensures r.Some? ==> r.value < |es| && p(es[r.value]) && forall j | r.value < j < |es| :: !p(es[j])
    ensures r.None? ==> forall j | 0 <= j < |es| :: !p(es[j])
    decreases |es|
  {
    if es == [] then None
    else if p(es[|es| - 1]) then Some(|es| - 1)
    else LastWhere(es[..|es| - 1], p)
  }

  /** The backward scan the visualizer performs three times: stop at the last event satisfying p. */
  method FindLast(es: seq<JsEvent>, p: JsEvent -> bool) returns (r: Option<nat>)
    ensures r == LastWhere(es, p)
  {
    var i := |es|;
    while i > 0
      invariant 0 <= i <= |es|
      invariant forall j | i <= j < |es| :: !p(es[j])
    {
      if p(es[i - 1]) {
        return Some(i - 1);
      }
      i := i - 1;
    }
    return None;
  }

  predicate IsTokenStep(e: JsEvent)
  {
    e.eventType == "token_step" && Field(e.details, "token_idx").Num?
  }

  predicate IsRequestMark(e: JsEvent)
  {
    e.eventType == "request_start" && Field(e.details, "request_id").Num?
  }

  predicate IsRequestStart(e: JsEvent)
  {
    e.eventType == "request_start"
  }

  /** The token index of the last token_step with a numeric index, if any. */
  function CurrentTokenIdx(events: seq<JsEvent>): (r: Option<int>)
    ensures r.None? <==> forall j | 0 <= j < |events| :: !IsTokenStep(events[j])
    ensures r.Some? ==> exists i | 0 <= i < |events| ::
      IsTokenStep(events[i]) && Field(events[i].details, "token_idx") == Num(r.value)
      && forall j | i < j < |events| :: !IsTokenStep(events[j])
  {
    match LastWhere(events, IsTokenStep)
    case None => None
    case Some(i) => Some(Field(events[i].details, "token_idx").n)
  }

  /** The request id of the last request_start with a numeric id, else 0. */
  function CurrentRequestId(events: seq<JsEvent>): (r: int)
    ensures (forall j | 0 <= j < |events| :: !IsRequestMark(events[j])) ==> r == 0
    ensures (exists j | 0 <= j < |events| :: IsRequestMark(events[j])) ==> exists i | 0 <= i < |events| ::
      IsRequestMark(events[i]) && Field(events[i].details, "request_id") == Num(r)
      && forall j | i < j < |events| :: !IsRequestMark(events[j])
  {
    match LastWhere(events, IsRequestMark)
    case None => 0
    case Some(i) => Field(events[i].details, "request_id").n
  }

  method GetCurrentTokenIdx(events: seq<JsEvent>) returns (r: Option<int>)
    ensures r == CurrentTokenIdx(events)
  {
    var i := FindLast(events, IsTokenStep);
    r := if i.Some? then Some(Field(events[i.value].details, "token_idx").n) else None;
  }

  method GetCurrentRequestId(events: seq<JsEvent>) returns (r: int)
    ensures r == CurrentRequestId(events)
  {
    var i := FindLast(events, IsRequestMark);
    r := if i.Some? then Field(events[i.value].details, "request_id").n else 0;
  }

  /** `isLayer0(details)`: `layer ?? layer_idx` is absent or exactly 0. */
  predicate IsLayer0(details: map<string, JsValue>)
  {
    var layer := Coalesce(Field(details, "layer"), Field(details, "layer_idx"));
    Nullish(layer) || layer == Num(0)
  }

  /** Both fields absent: layer 0; otherwise the first present one decides. */
  lemma IsLayer0Cases(details: map<string, JsValue>)
    ensures Nullish(Field(details, "layer")) && Nullish(Field(details, "layer_idx")) ==> IsLayer0(details)
    ensures !Nullish(Field(details, "layer")) ==> (IsLayer0(details) <==> details["layer"] == Num(0))
    ensures Nullish(Field(details, "layer")) && !Nullish(Field(details, "layer_idx")) ==>
      (IsLayer0(details) <==> details["layer_idx"] == Num(0))
  {
  }

  // ---------------------------------------------------------------------
  // The JSON the backend's events arrive as
  // ---------------------------------------------------------------------

  /** The `details` dictionary each event kind is logged with. */
  function DetailsJson(d: Details): map<string, JsValue>
  {
    match d
    case PageFault(p) => map["page_id" := Num(p)]
    case KvWrite(p, s, t, l) => map["page_id" := Num(p), "slot" := Num(s), "token_idx" := Num(t), "layer" := Num(l)]
    case PrefixReuse(k, n) => map["prefix_key" := Str(Utf16(k)), "num_pages" := Num(n)]
    case CopyOnWrite(src, dst) => map["source_page_id" := Num(src), "new_page_id" := Num(dst)]
    case PageFreed(p) => map["page_id" := Num(p)]
    case TokenStep(t) => map["token_idx" := Num(t)]
    case DecodeStart(n) => map["num_pages" := Num(n)]
    case DecodeEnd => map[]
    case RequestStart(prompt, rid) => map["prompt" := Str(Utf16(prompt)), "request_id" := Num(rid)]
    case RequestEnd(rid) => map["request_id" := Num(rid)]
  }

  function JsonOf(d: EventDict): JsEvent
  {
    JsEvent(d.eventType, DetailsJson(d.details))
  }

  /** How the visualizer's tests read an event the logger exported. */
  lemma ReadsLoggedEvent(d: EventDict)
    requires d.eventType == d.details.Type().Value()
    ensures IsLayer0(JsonOf(d).details) <==> (d.details.KvWrite? ==> d.details.layer == 0)
    ensures IsTokenStep(JsonOf(d)) <==> d.details.TokenStep?
    ensures IsRequestMark(JsonOf(d)) <==> d.details.RequestStart?
    ensures IsRequestStart(JsonOf(d)) <==> d.details.RequestStart?
    ensures d.details.TokenStep? ==> Field(JsonOf(d).details, "token_idx") == Num(d.details.tokenIdx)
    ensures d.details.RequestStart? ==> Field(JsonOf(d).details, "request_id") == Num(d.details.requestId)
  {
  }

  // ---------------------------------------------------------------------
  // computeCacheContext
  // ---------------------------------------------------------------------

  /** Where a prior write put a token: `{pageId, slot}` as read from the event. */
  datatype Location = Location(pageId: JsValue, slot: JsValue)

  datatype CacheContext = CacheContext(
    requestStartIndex: nat,
    priorCache: map<string, Location>,
    currentWrites: set<string>,
    currentTokenIdx: Option<int>,
    cacheHit: bool,
    cacheHitTokenIdx: Option<int>,
    cacheHitPageId: Option<JsValue>)

  const EmptyContext := CacheContext(0, map[], {}, None, false, None, None)

  function TokenList(d: VizData): seq<JsValue>
  {
    if d.tokens.Some? then d.tokens.value else []
  }

  /** The key of token t: `makeTokenKey(tokens[t] ?? "", t)`. */
  function KeyAt(tokens: seq<JsValue>, t: int): string
  {
    TokenKey(Coalesce(Element(tokens, t), Str([])), t)
  }

  /** A kv_write of layer 0 with a numeric token index: the writes the cache context counts. */
  predicate Layer0Write(e: JsEvent)
  {
    e.eventType == "kv_write" && IsLayer0(e.details) && Field(e.details, "token_idx").Num?
  }

  /** The numeric `token_idx` of an event (0 when it has none). */
  function TokenIdxOf(e: JsEvent): int
  {
    var v := Field(e.details, "token_idx");
    if v.Num? then v.n else 0
  }

  /** The key a counted write files its token under. */
  function WriteKeys(tokens: seq<JsValue>): JsEvent -> string
  {
    e => KeyAt(tokens, TokenIdxOf(e))
  }

  function LocationOf(e: JsEvent): Location
  {
    Location(Field(e.details, "page_id"), Field(e.details, "slot"))
  }

  /** e is a counted write filed under key k. */
  predicate WritesKey(key: JsEvent -> string, e: JsEvent, k: string)
  {
    Layer0Write(e) && key(e) == k
  }

  /** `priorCache`: key -> location of the counted writes, a later write replacing an earlier one. */
  function PriorCache(key: JsEvent -> string, es: seq<JsEvent>): map<string, Location>
    decreases |es|
  {
    if es == [] then map[]
    else
      var m := PriorCache(key, es[..|es| - 1]);
      var e := es[|es| - 1];
      if Layer0Write(e) then m[key(e) := LocationOf(e)] else m
  }

  /** `currentWrites`: the keys of the counted writes. */
  function CurrentWrites(key: JsEvent -> string, es: seq<JsEvent>): set<string>
    decreases |es|
  {
    if es == [] then {}
    else
      var s := CurrentWrites(key, es[..|es| - 1]);
      var e := es[|es| - 1];
      if Layer0Write(e) then s + {key(e)} else s
  }

  /** The index of the last request_start, or 0. */
  function RequestStartIndex(events: seq<JsEvent>): (r: nat)
    ensures r <= |events|
  {
    match LastWhere(events, IsRequestStart)
    case None => 0
    case Some(i) => i
  }

  /** `cacheHitTokenIdx`: the token index when the event at `step` itself is a numeric token_step. */
  function HitIndex(d: VizData, step: int): Option<int>
  {
    if 0 <= step < |d.events| && IsTokenStep(d.events[step]) then Some(TokenIdxOf(d.events[step]))
    else None
  }

  /** Whether the hit candidate's key was written before the current request and not since. */
  predicate Hit(tokens: seq<JsValue>, hitIdx: Option<int>, prior: map<string, Location>, current: set<string>)
  {
    hitIdx.Some? && 0 <= hitIdx.value < |tokens|
    && KeyAt(tokens, hitIdx.value) in prior && KeyAt(tokens, hitIdx.value) !in current
  }

  /** The context `computeCacheContext(step)` returns. */
  function ContextOf(data: Option<VizData>, step: int): CacheContext
  {
    if data.None? then EmptyContext
    else
      var d := data.value;
      var events := EventsUpTo(data, step);
      var tokens := TokenList(d);
      var start := RequestStartIndex(events);
      var prior := PriorCache(WriteKeys(tokens), events[..start]);
      var current := CurrentWrites(WriteKeys(tokens), events[start..]);
      var hitIdx := HitIndex(d, step);
      var hit := Hit(tokens, hitIdx, prior, current);
      CacheContext(start, prior, current, CurrentTokenIdx(events), hit, hitIdx,
        if hit then Some(prior[KeyAt(tokens, hitIdx.value)].pageId) else None)
  }

  /** The test "a counted write filed under k". */
  function WriterOf(key: JsEvent -> string, k: string): JsEvent -> bool
  {
    e => WritesKey(key, e, k)
  }

  /** A key is in `priorCache` exactly when a counted write has it, and it maps to the location of the last one. */
  lemma {:induction false} PriorCacheMeaning(key: JsEvent -> string, es: seq<JsEvent>, k: string)
    ensures k in PriorCache(key, es) <==> LastWhere(es, WriterOf(key, k)).Some?
    ensures k in PriorCache(key, es) ==> PriorCache(key, es)[k] == LocationOf(es[LastWhere(es, WriterOf(key, k)).value])
    decreases |es|
  {
    if es != [] {
      var init := es[..|es| - 1];
      PriorCacheMeaning(key, init, k);
      var last := LastWhere(init, WriterOf(key, k));
      if !WritesKey(key, es[|es| - 1], k) && last.Some? {
        assert es[last.value] == init[last.value];
      }
    }
  }

  /** A key is in `currentWrites` exactly when a counted write has it. */
  lemma {:induction false} CurrentWritesMeaning(key: JsEvent -> string, es: seq<JsEvent>, k: string)
    ensures k in CurrentWrites(key, es) <==> LastWhere(es, WriterOf(key, k)).Some?
    decreases |es|
  {
    if es != [] {
      CurrentWritesMeaning(key, es[..|es| - 1], k);
    }
  }

  /** One more event at the end of a window of `currentWrites`. */
  lemma CurrentWritesStep(key: JsEvent -> string, es: seq<JsEvent>, lo: nat, i: nat)
    requires lo <= i < |es|
    ensures CurrentWrites(key, es[lo..i + 1]) ==
      if Layer0Write(es[i]) then CurrentWrites(key, es[lo..i]) + {key(es[i])} else CurrentWrites(key, es[lo..i])
  {
    assert es[lo..i + 1][..i - lo] == es[lo..i];
  }

  /** Some counted write among es[lo..hi] is filed under k. */
  predicate WrittenBetween(key: JsEvent -> string, es: seq<JsEvent>, lo: nat, hi: nat, k: string)
    requires lo <= hi <= |es|
  {
    exists i | lo <= i < hi :: WritesKey(key, es[i], k)
  }

  /** The two cache functions over a split of the events, read on the whole sequence. */
  lemma {:induction false} SplitMeaning(key: JsEvent -> string, es: seq<JsEvent>, start: nat, k: string)
    requires start <= |es|
    ensures k in PriorCache(key, es[..start]) <==> WrittenBetween(key, es, 0, start, k)
    ensures k in CurrentWrites(key, es[start..]) <==> WrittenBetween(key, es, start, |es|, k)
  {
    PriorCacheMeaning(key, es[..start], k);
    CurrentWritesMeaning(key, es[start..], k);
    var p := WriterOf(key, k);
    if WrittenBetween(key, es, 0, start, k) {
      var i :| 0 <= i < start && WritesKey(key, es[i], k);
      assert p(es[..start][i]);
    }
    var a := LastWhere(es[..start], p);
    if a.Some? {
      assert es[..start][a.value] == es[a.value];
    }
    if WrittenBetween(key, es, start, |es|, k) {
      var i :| start <= i < |es| && WritesKey(key, es[i], k);
      assert p(es[start..][i - start]);
    }
    var b := LastWhere(es[start..], p);
    if b.Some? {
      assert es[start..][b.value] == es[start + b.value];
    }
  }

  /**
   * A cache hit at `step`: the event there is a numeric token_step for a token t
   * of the token list, a counted write filed under t's key precedes the last
   * request_start, and none is at or after it.
   */
  lemma CacheHitMeaning(d: VizData, step: int)
    ensures var events := EventsUpTo(Some(d), step);
      var start := RequestStartIndex(events);
      var tokens := TokenList(d);
      ContextOf(Some(d), step).cacheHit <==>
        0 <= step < |d.events| && IsTokenStep(d.events[step])
        && var t := TokenIdxOf(d.events[step]);
        0 <= t < |tokens|
        && WrittenBetween(WriteKeys(tokens), events, 0, start, KeyAt(tokens, t))
        && !WrittenBetween(WriteKeys(tokens), events, start, |events|, KeyAt(tokens, t))
  {
    var events := EventsUpTo(Some(d), step);
    var tokens := TokenList(d);
    if 0 <= step < |d.events| && IsTokenStep(d.events[step]) {
      SplitMeaning(WriteKeys(tokens), events, RequestStartIndex(events), KeyAt(tokens, TokenIdxOf(d.events[step])));
    }
  }

  /** A cache hit for token t means layer 0 of that very token index was written before the last request began. */
  lemma CacheHitHasPriorWrite(d: VizData, step: int)
    requires ContextOf(Some(d), step).cacheHit
    ensures ContextOf(Some(d), step).cacheHitTokenIdx.Some?
    ensures var events := EventsUpTo(Some(d), step);
      exists i | 0 <= i < RequestStartIndex(events) ::
        Layer0Write(events[i]) && TokenIdxOf(events[i]) == ContextOf(Some(d), step).cacheHitTokenIdx.value
  {
    var events := EventsUpTo(Some(d), step);
    var tokens := TokenList(d);
    CacheHitMeaning(d, step);
    var t := TokenIdxOf(d.events[step]);
    var i :| 0 <= i < RequestStartIndex(events) && WritesKey(WriteKeys(tokens), events[i], KeyAt(tokens, t));
    var u := TokenIdxOf(events[i]);
    TokenKeyInjective(Coalesce(Element(tokens, u), Str([])), u, Coalesce(Element(tokens, t), Str([])), t);
  }

  /** The loop over the events before the last request_start. */
  method BuildPriorCache(tokens: seq<JsValue>, events: seq<JsEvent>, start: nat) returns (prior: map<string, Location>)
    requires start <= |events|
    ensures prior == PriorCache(WriteKeys(tokens), events[..start])
  {
    prior := map[];
    for i := 0 to start
      invariant prior == PriorCache(WriteKeys(tokens), events[..i])
    {
      assert events[..i + 1][..i] == events[..i];
      var e := events[i];
      if e.eventType == "kv_write" && IsLayer0(e.details) && Field(e.details, "token_idx").Num? {
        var t := Field(e.details, "token_idx").n;
        var key := MakeTokenKey(Coalesce(Element(tokens, t), Str([])), t);
        prior := prior[key := Location(Field(e.details, "page_id"), Field(e.details, "slot"))];
      }
    }
  }

  /** The loop over the events from the last request_start on. */
  method BuildCurrentWrites(tokens: seq<JsValue>, events: seq<JsEvent>, start: nat) returns (writes: set<string>)
    requires start <= |events|
    ensures writes == CurrentWrites(WriteKeys(tokens), events[start..])
  {
    writes := {};
    for i := start to |events|
      invariant writes == CurrentWrites(WriteKeys(tokens), events[start..i])
    {
      CurrentWritesStep(WriteKeys(tokens), events, start, i);
      var e := events[i];
      if e.eventType == "kv_write" && IsLayer0(e.details) && Field(e.details, "token_idx").Num? {
        var t := Field(e.details, "token_idx").n;
        var key := MakeTokenKey(Coalesce(Element(tokens, t), Str([])), t);
        writes := writes + {key};
      }
    }
    assert events[start..|events|] == events[start..];
  }

  /** The cache-hit test of `computeCacheContext` for the event at `step`. */
  method CheckHit(d: VizData, step: int, prior: map<string, Location>, writes: set<string>)
    returns (hitIdx: Option<int>, hit: bool, pageId: Option<JsValue>)
    ensures hitIdx == HitIndex(d, step)
    ensures hit == Hit(TokenList(d), hitIdx, prior, writes)
    ensures pageId == if hit then Some(prior[KeyAt(TokenList(d), hitIdx.value)].pageId) else None
  {
    var tokens := if d.tokens.Some? then d.tokens.value else [];
    hitIdx := None;
    if 0 <= step < |d.events| && d.events[step].eventType == "token_step" && Field(d.events[step].details, "token_idx").Num? {
      hitIdx := Some(Field(d.events[step].details, "token_idx").n);
    }
    hit := false;
    pageId := None;
    if hitIdx.Some? && 0 <= hitIdx.value < |tokens| {
      var key := MakeTokenKey(Coalesce(tokens[hitIdx.value], Str([])), hitIdx.value);
      if key in prior && key !in writes {
        hit := true;
        pageId := Some(prior[key].pageId);
      }
    }
  }

  /** The body of `computeCacheContext` once data is present. */
  method BuildContext(d: VizData, step: int) returns (ctx: CacheContext)
    ensures ctx == ContextOf(Some(d), step)
  {
    var events := d.events[..SliceEnd(|d.events|, step + 1)];
    var tokens := if d.tokens.Some? then d.tokens.value else [];
    var last := FindLast(events, IsRequestStart);
    var start: nat := if last.Some? then last.value else 0;
    var prior := BuildPriorCache(tokens, events, start);
    var writes := BuildCurrentWrites(tokens, events, start);
    var current := GetCurrentTokenIdx(events);
    var hitIdx, hit, pageId := CheckHit(d, step, prior, writes);
    ctx := CacheContext(start, prior, writes, current, hit, hitIdx, pageId);
  }

  /** `KVVisualizer`: the loaded simulation, the playback position and the memoised cache context. */
  class KvVisualizer {
    var data: Option<VizData>
    var currentStep: int
    var maxSteps: nat
    var prefixTokenIndices: seq<JsValue>
    var memoStep: Option<int>
    var memo: Option<CacheContext>

    /** A memoised context is the one the current data gives for the memoised step. */
    ghost predicate Valid()
      reads this
    {
      (memo.Some? <==> memoStep.Some?)
      && (memo.Some? ==> memo.value == ContextOf(data, memoStep.value))
    }

    constructor()
      ensures Valid()
      ensures data.None? && currentStep == 0 && maxSteps == 0 && prefixTokenIndices == []
      ensures memoStep.None? && memo.None?
    {
      data := None;
      currentStep := 0;
      maxSteps := 0;
      prefixTokenIndices := [];
      memoStep := None;
      memo := None;
    }

    /** `setData(data, prefixTokenIndices)`; `None` stands for an argument that is not an array. */
    method SetData(d: VizData, prefix: Option<seq<JsValue>>)
      modifies this
      ensures Valid()
      ensures data == Some(d) && currentStep == 0 && maxSteps == |d.events|
      ensures prefixTokenIndices == if prefix.Some? then prefix.value else []
      ensures memoStep.None? && memo.None?
    {
      data := Some(d);
      currentStep := 0;
      maxSteps := |d.events|;
      prefixTokenIndices := if prefix.Some? then prefix.value else [];
      memoStep := None;
      memo := None;
    }

    /** `computeCacheContext(step)`: a repeat of the memoised step returns the memoised context. */
    method ComputeCacheContext(step: int) returns (ctx: CacheContext)
      requires Valid()
      modifies this`memoStep, this`memo
      ensures Valid()
      ensures ctx == ContextOf(data, step)
      ensures old(memoStep) == Some(step) ==> ctx == old(memo).value
      ensures memoStep == Some(step) && memo == Some(ctx)
    {
      if memoStep == Some(step) && memo.Some? {
        return memo.value;
      }
      if data.None? {
        ctx := EmptyContext;
      } else {
        ctx := BuildContext(data.value, step);
      }
      memoStep := Some(step);
      memo := Some(ctx);
    }
  }
}
