/**
 * The page logic of the frontend: the chat history of simulations and the
 * selected entry, prompt truncation for labels, the indices of the tokens a
 * simulation shares with the previous one, and the playback clamp of the
 * timeline. Rendering, timers and the HTTP call are not part of this model:
 * the simulation a request returns is a parameter.
 */
module MainUi {
  import opened Common
  import opened Visualizer

  const Ellipsis: JsString := [46, 46, 46]

  /**
   * `truncatePrompt(text, maxLen)`: texts longer than maxLen code units keep
   * their first maxLen units (none when maxLen is negative, as `substring`
   * clamps it to 0) followed by "...".
   */
  function TruncatePrompt(text: JsString, maxLen: int): (r: JsString)
    ensures |text| <= maxLen ==> r == text
    ensures |text| > maxLen ==> |r| == (if maxLen < 0 then 0 else maxLen) + 3
    ensures |text| > maxLen ==> r[..|r| - 3] <= text && r[|r| - 3..] == Ellipsis
  {
    if |text| > maxLen then text[..if maxLen < 0 then 0 else maxLen] + Ellipsis else text
  }

  /** The labels of the chat list use 30 units, the request header 50. */
  const ChatLabelLength := 30
  const HeaderLength := 50

  // ---------------------------------------------------------------------
  // The prefix shared with the previous simulation
  // ---------------------------------------------------------------------

  /** `a === b` for the values a token list holds; an `Other` value is an object, identical only to itself. */
  predicate StrictEquals(a: JsValue, b: JsValue)
  {
    a == b && !a.Other?
  }

  /** Length of the longest common prefix of two token lists under `===`. */
  function CommonPrefixLength(a: seq<JsValue>, b: seq<JsValue>): (k: nat)
    ensures k <= |a| && k <= |b|
    ensures forall i | 0 <= i < k :: StrictEquals(a[i], b[i])
    ensures k < |a| && k < |b| ==> !StrictEquals(a[k], b[k])
    decreases |a|
  {
    if a == [] || b == [] || !StrictEquals(a[0], b[0]) then 0
    else 1 + CommonPrefixLength(a[1..], b[1..])
  }

  /** Any length with the two properties of the longest common prefix is that length. */
  lemma CommonPrefixUnique(a: seq<JsValue>, b: seq<JsValue>, k: nat)
    requires k <= |a| && k <= |b|
    requires forall i | 0 <= i < k :: StrictEquals(a[i], b[i])
    requires k == |a| || k == |b| || !StrictEquals(a[k], b[k])
    ensures k == CommonPrefixLength(a, b)
  {
  }

  /** The list 0, 1, ..., n - 1. */
  function Range(n: nat): (r: seq<int>)
    ensures |r| == n && forall i | 0 <= i < n :: r[i] == i
  {
    seq(n, i => i)
  }

  /** The loop of `loadSimulation` that collects the shared token indices. */
  method PrefixTokens(prev: seq<JsValue>, curr: seq<JsValue>) returns (indices: seq<int>)
    ensures indices == Range(CommonPrefixLength(prev, curr))
  {
    indices := [];
    var minLen := if |prev| < |curr| then |prev| else |curr|;
    var i := 0;
    while i < minLen
      invariant 0 <= i <= minLen
      invariant indices == Range(i)
      invariant forall j | 0 <= j < i :: StrictEquals(prev[j], curr[j])
    {
      if StrictEquals(prev[i], curr[i]) {
        indices := indices + [i];
      } else {
        CommonPrefixUnique(prev, curr, i);
        return;
      }
      i := i + 1;
    }
    CommonPrefixUnique(prev, curr, i);
  }

  // ---------------------------------------------------------------------
  // The chat history and its selection
  // ---------------------------------------------------------------------

  /** One entry of `chatHistory`: the prompt and the simulation the backend returned for it. */
  datatype Simulation = Simulation(prompt: JsString, data: VizData)

  /** The prefix indices `loadSimulation(idx)` hands to the visualizer. */
  function PrefixIndices(history: seq<Simulation>, idx: int): seq<int>
    requires 0 <= idx < |history|
  {
    if idx > 0 then Range(CommonPrefixLength(TokenList(history[idx - 1].data), TokenList(history[idx].data)))
    else []
  }

  /** The shared indices are exactly the positions where the previous and current token lists agree from the start. */
  lemma PrefixIndicesMeaning(history: seq<Simulation>, idx: int)
    requires 0 <= idx < |history|
    ensures idx == 0 ==> PrefixIndices(history, idx) == []
    ensures idx > 0 ==>
      var prev, curr := TokenList(history[idx - 1].data), TokenList(history[idx].data);
      var k := |PrefixIndices(history, idx)|;
      (forall i | 0 <= i < k :: PrefixIndices(history, idx)[i] == i && StrictEquals(prev[i], curr[i]))
      && (k < |prev| && k < |curr| ==> !StrictEquals(prev[k], curr[k]))
  {
  }

  function AsNumbers(s: seq<int>): (r: seq<JsValue>)
    ensures |r| == |s| && forall i | 0 <= i < |s| :: r[i] == Num(s[i])
  {
    seq(|s|, i requires 0 <= i < |s| => Num(s[i]))
  }

  /** A selection is valid when it names an entry, or is -1 exactly when the history is empty. */
  predicate ValidSelection(history: seq<Simulation>, current: int)
  {
    -1 <= current < |history| && (current == -1 <==> history == [])
  }

  /** The selection after the delete button of entry idx removes it from a history now n long. */
  function SelectionAfterDelete(current: int, idx: int, n: nat): int
  {
    if current == idx then (if n > 0 then 0 else -1)
    else if current > idx then current - 1
    else current
  }

  function Without(history: seq<Simulation>, idx: nat): (r: seq<Simulation>)
    requires idx < |history|
    ensures |r| == |history| - 1
    ensures forall i | 0 <= i < idx :: r[i] == history[i]
    ensures forall i | idx <= i < |r| :: r[i] == history[i + 1]
  {
    history[..idx] + history[idx + 1..]
  }

  /** Deleting keeps a valid selection valid, and keeps the selected simulation when it was not the deleted one. */
  lemma DeleteKeepsSelection(history: seq<Simulation>, current: int, idx: nat)
    requires ValidSelection(history, current) && idx < |history|
    ensures var rest := Without(history, idx);
      var c := SelectionAfterDelete(current, idx, |rest|);
      ValidSelection(rest, c)
      && (current != idx ==> rest[c] == history[current])
      && (current == idx ==> c == if rest == [] then -1 else 0)
  {
  }

  /** The page state: `chatHistory`, `currentSimulationIndex` and the visualizer. */
  class App {
    var chatHistory: seq<Simulation>
    var current: int
    const viz: KvVisualizer

    ghost predicate Valid()
      reads this, viz
    {
      ValidSelection(chatHistory, current) && viz.Valid()
    }

    constructor(viz: KvVisualizer)
      requires viz.Valid()
      ensures this.viz == viz && chatHistory == [] && current == -1
      ensures Valid()
    {
      this.viz := viz;
      chatHistory := [];
      current := -1;
    }

    /** `loadSimulation(idx)`: outside the history nothing changes; otherwise select idx and show it. */
    method LoadSimulation(idx: int)
      requires Valid()
      modifies this`current, viz
      ensures Valid()
      ensures !(0 <= idx < |chatHistory|) ==> current == old(current) && unchanged(viz)
      ensures 0 <= idx < |chatHistory| ==>
        current == idx
        && viz.data == Some(chatHistory[idx].data)
        && viz.prefixTokenIndices == AsNumbers(PrefixIndices(chatHistory, idx))
        && viz.currentStep == 0 && viz.maxSteps == |chatHistory[idx].data.events|
    {
      if idx < 0 || idx >= |chatHistory| {
        return;
      }
      current := idx;
      var sim := chatHistory[idx];
      var prefix: seq<int> := [];
      if idx > 0 {
        var prev := chatHistory[idx - 1].data;
        prefix := PrefixTokens(if prev.tokens.Some? then prev.tokens.value else [],
                               if sim.data.tokens.Some? then sim.data.tokens.value else []);
      }
      viz.SetData(sim.data, Some(AsNumbers(prefix)));
    }

    /** The delete button of entry idx: remove it, move the selection, and reload the selection. */
    method DeleteAt(idx: nat)
      requires Valid() && idx < |chatHistory|
      modifies this, viz
      ensures Valid()
      ensures chatHistory == Without(old(chatHistory), idx)
      ensures current == SelectionAfterDelete(old(current), idx, |chatHistory|)
      ensures old(current) != idx ==> chatHistory[current] == old(chatHistory[current])
      ensures current >= 0 ==>
        && viz.data == Some(chatHistory[current].data)
        && viz.prefixTokenIndices == AsNumbers(PrefixIndices(chatHistory, current))
        && viz.currentStep == 0 && viz.maxSteps == |chatHistory[current].data.events|
      ensures current < 0 ==> unchanged(viz)
    {
      DeleteKeepsSelection(chatHistory, current, idx);
      chatHistory := chatHistory[..idx] + chatHistory[idx + 1..];
      if current == idx {
        current := if |chatHistory| > 0 then 0 else -1;
      } else if current > idx {
        current := current - 1;
      }
      LoadSimulation(current);
    }

    /**
     * The run button with a trimmed prompt: an empty prompt or a failed
     * request (`None`) changes nothing; otherwise the simulation is appended,
     * selected and shown.
     */
    method AddSimulation(prompt: JsString, result: Option<VizData>)
      requires Valid()
      modifies this, viz
      ensures Valid()
      ensures prompt == [] || result.None? ==> chatHistory == old(chatHistory) && current == old(current) && unchanged(viz)
      ensures prompt != [] && result.Some? ==>
        chatHistory == old(chatHistory) + [Simulation(prompt, result.value)]
        && current == |chatHistory| - 1
        && viz.data == result
        && viz.prefixTokenIndices == AsNumbers(PrefixIndices(chatHistory, current))
        && viz.currentStep == 0 && viz.maxSteps == |result.value.events|
    {
      if prompt == [] || result.None? {
        return;
      }
      chatHistory := chatHistory + [Simulation(prompt, result.value)];
      current := |chatHistory| - 1;
      LoadSimulation(current);
    }

    /** The clear button, once `confirm` returned `confirmed`. */
    method ClearHistory(confirmed: bool)
      requires Valid()
      modifies this
      ensures Valid()
      ensures confirmed ==> chatHistory == [] && current == -1
      ensures !confirmed ==> chatHistory == old(chatHistory) && current == old(current)
    {
      if confirmed {
        chatHistory := [];
        current := -1;
      }
    }
  }

  // ---------------------------------------------------------------------
  // Playback
  // ---------------------------------------------------------------------

  /** The last step of the timeline: `Math.max(0, maxSteps - 1)`. */
  function LastStep(maxSteps: int): nat
  {
    if maxSteps - 1 > 0 then maxSteps - 1 else 0
  }

  /** Playback starts only when there are at least two steps. */
  predicate CanPlay(maxSteps: int)
  {
    maxSteps > 1
  }

  /** One timer tick from slider position `position`: the next position and whether playback stops. */
  function Tick(maxSteps: int, position: int): (int, bool)
  {
    var next := if position + 1 < LastStep(maxSteps) then position + 1 else LastStep(maxSteps);
    (next, next >= LastStep(maxSteps))
  }

  /** The position after n ticks (stopping is not consulted). */
  function Advance(maxSteps: int, position: int, n: nat): int
  {
    if n == 0 then position else Tick(maxSteps, Advance(maxSteps, position, n - 1)).0
  }

  /**
   * From any slider position, playback visits each following step once, in
   * order, never passes the last step, and stops exactly on reaching it.
   */
  lemma {:induction false} PlaybackReachesEnd(maxSteps: int, position: int, n: nat)
    requires CanPlay(maxSteps) && 0 <= position <= LastStep(maxSteps)
    requires n <= LastStep(maxSteps) - position
    ensures Advance(maxSteps, position, n) == position + n
    ensures n < LastStep(maxSteps) - position ==>
      (Tick(maxSteps, position + n).1 <==> n + 1 == LastStep(maxSteps) - position)
  {
    if n > 0 {
      PlaybackReachesEnd(maxSteps, position, n - 1);
    }
  }

  /** Once at the last step a tick stays there and stops. */
  lemma TickAtEnd(maxSteps: int)
    ensures Tick(maxSteps, LastStep(maxSteps)) == (LastStep(maxSteps), true)
  {
  }
}
