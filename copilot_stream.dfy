/**
 * The response side of the Copilot Chat provider:
 * `map_to_language_model_completion_events`, which turns the vendor's
 * response events into host completion events. Text is passed on at once;
 * tool calls arrive as fragments keyed by an index and are assembled in an
 * accumulator until the finish reason `tool_calls` drains it.
 *
 * The asynchronous stream plumbing becomes a loop over a finite sequence of
 * events. `serde_json::Value::from_str` enters as the parameter `parse`.
 */
module CopilotStream {
  import opened Wrappers
  import Json
  import opened LanguageModel
  import CC = CopilotChat

  /** A tool call being assembled (`RawToolCall`). */
  datatype RawToolCall = RawToolCall(id: string, name: string, arguments: string)

  /** `RawToolCall::default()`. */
  const EmptyCall: RawToolCall := RawToolCall("", "", "")

  /** The accumulator `tool_calls_by_index`. */
  type Accumulator = map<nat, RawToolCall>

  // ------------------------------------------------------------------
  // Accumulating tool-call fragments
  // ------------------------------------------------------------------

  /** One fragment applied to its entry: a present id or name replaces, argument text is appended. */
  function Absorb(entry: RawToolCall, chunk: CC.ToolCallChunk): RawToolCall
  {
    var entry := if chunk.id.Some? then entry.(id := chunk.id.value) else entry;
    match chunk.functionDelta
    case None => entry
    case Some(f) =>
      var named := if f.name.Some? then entry.(name := f.name.value) else entry;
      if f.arguments.Some? then named.(arguments := named.arguments + f.arguments.value) else named
  }

  /** Folds one fragment into the accumulator, creating its entry if absent. */
  function ApplyChunk(calls: Accumulator, chunk: CC.ToolCallChunk): Accumulator
  {
    calls[chunk.index := Absorb(StoredOrEmpty(calls, chunk.index), chunk)]
  }

  /** The entry for `index` before a fragment is applied: the stored one or the default. */
  function StoredOrEmpty(calls: Accumulator, index: nat): RawToolCall
  {
    if index in calls then calls[index] else EmptyCall
  }

  /** The accumulator after folding in a delta's fragments, in order. */
  function Accumulate(calls: Accumulator, chunks: seq<CC.ToolCallChunk>): Accumulator
  {
    if chunks == [] then calls else ApplyChunk(Accumulate(calls, chunks[..|chunks| - 1]), chunks[|chunks| - 1])
  }

  /** The id of the last fragment for `index` that carries one, or `default`. */
  function LastId(chunks: seq<CC.ToolCallChunk>, index: nat, default: string): string
  {
    if chunks == [] then default
    else
      var chunk := chunks[|chunks| - 1];
      if chunk.index == index && chunk.id.Some? then chunk.id.value else LastId(chunks[..|chunks| - 1], index, default)
  }

  /** The name of the last fragment for `index` that carries one, or `default`. */
  function LastName(chunks: seq<CC.ToolCallChunk>, index: nat, default: string): string
  {
    if chunks == [] then default
    else
      var chunk := chunks[|chunks| - 1];
      if chunk.index == index && chunk.functionDelta.Some? && chunk.functionDelta.value.name.Some? then
        chunk.functionDelta.value.name.value
      else
        LastName(chunks[..|chunks| - 1], index, default)
  }

  /** The argument text a fragment carries, if any. */
  function ArgumentText(chunk: CC.ToolCallChunk): string
  {
    match chunk.functionDelta
    case None => ""
    case Some(f) => if f.arguments.Some? then f.arguments.value else ""
  }

  /** All argument text of the fragments for `index`, concatenated in arrival order. */
  function ArgumentsFor(chunks: seq<CC.ToolCallChunk>, index: nat): string
  {
    if chunks == [] then ""
    else
      ArgumentsFor(chunks[..|chunks| - 1], index)
      + (if chunks[|chunks| - 1].index == index then ArgumentText(chunks[|chunks| - 1]) else "")
  }

  /** The indices the fragments mention. */
  function Indices(chunks: seq<CC.ToolCallChunk>): set<nat>
  {
    set k | 0 <= k < |chunks| :: chunks[k].index
  }

  /** What the fragments promise for `index`, starting from `before`. */
  function Assembled(chunks: seq<CC.ToolCallChunk>, index: nat, before: RawToolCall): RawToolCall
  {
    RawToolCall(LastId(chunks, index, before.id), LastName(chunks, index, before.name),
                before.arguments + ArgumentsFor(chunks, index))
  }

  lemma {:induction false} NotMentioned(chunks: seq<CC.ToolCallChunk>, index: nat, before: RawToolCall)
    requires index !in Indices(chunks)
    ensures Assembled(chunks, index, before) == before
  {
    if chunks != [] {
      var init := chunks[..|chunks| - 1];
      IndicesSnoc(chunks);
      NotMentioned(init, index, before);
    }
  }

  /** The reference view takes one more fragment the way `Absorb` does. */
  lemma AssembledSnoc(chunks: seq<CC.ToolCallChunk>, index: nat, before: RawToolCall)
    requires chunks != []
    ensures var init, chunk := chunks[..|chunks| - 1], chunks[|chunks| - 1];
      Assembled(chunks, index, before)
      == if chunk.index == index then Absorb(Assembled(init, index, before), chunk) else Assembled(init, index, before)
  {
    var init, chunk := chunks[..|chunks| - 1], chunks[|chunks| - 1];
    var args := before.arguments + ArgumentsFor(init, index);
    if chunk.index == index {
      assert before.arguments + ArgumentsFor(chunks, index) == args + ArgumentText(chunk);
    } else {
      assert before.arguments + ArgumentsFor(chunks, index) == args;
    }
  }

  lemma IndicesSnoc(chunks: seq<CC.ToolCallChunk>)
    requires chunks != []
    ensures Indices(chunks) == Indices(chunks[..|chunks| - 1]) + {chunks[|chunks| - 1].index}
  {
    var init := chunks[..|chunks| - 1];
    assert forall k | 0 <= k < |init| :: chunks[k] == init[k];
  }

  /**
   * Per index, folding fragments in creates the entry if absent, leaves the
   * id and name of the last fragment that carries one (or the stored ones),
   * and appends every argument fragment for that index in order.
   */
  lemma {:induction false} AccumulateSpec(calls: Accumulator, chunks: seq<CC.ToolCallChunk>, index: nat)
    ensures Accumulate(calls, chunks).Keys == calls.Keys + Indices(chunks)
    ensures index in Accumulate(calls, chunks) ==>
              Accumulate(calls, chunks)[index] == Assembled(chunks, index, StoredOrEmpty(calls, index))
  {
    if chunks != [] {
      var init, chunk := chunks[..|chunks| - 1], chunks[|chunks| - 1];
      var before := StoredOrEmpty(calls, index);
      var folded := Accumulate(calls, init);
      AccumulateSpec(calls, init, index);
      IndicesSnoc(chunks);
      AssembledSnoc(chunks, index, before);
      if index !in folded {
        NotMentioned(init, index, before);
      }
      assert StoredOrEmpty(folded, index) == Assembled(init, index, before);
    }
  }

  /** Fragments split over consecutive deltas accumulate as if they had arrived in one. */
  lemma {:induction false} AccumulateAppend(calls: Accumulator, a: seq<CC.ToolCallChunk>, b: seq<CC.ToolCallChunk>)
    ensures Accumulate(Accumulate(calls, a), b) == Accumulate(calls, a + b)
  {
    if b == [] {
      assert a + b == a;
    } else {
      AccumulateAppend(calls, a, b[..|b| - 1]);
      assert (a + b)[..|a + b| - 1] == a + b[..|b| - 1];
      assert (a + b)[|a + b| - 1] == b[|b| - 1];
    }
  }

  // ------------------------------------------------------------------
  // Completing a tool call
  // ------------------------------------------------------------------

  /** The input of an assembled call: an empty buffer means no arguments, the empty object. */
  function ParseArguments(arguments: string, parse: string -> Result<Json.Value, string>): Result<Json.Value, string>
  {
    if arguments == "" then Ok(Json.EmptyObject) else parse(arguments)
  }

  /** The completion event for one drained call: a complete tool use, or the parse error with the call's id, name and raw text. */
  function ToolCallEvent(call: RawToolCall, parse: string -> Result<Json.Value, string>): (r: CompletionResult)
    ensures r.Ok? ==>
              && r.value.ToolUse?
              && r.value.toolUse.id == call.id
              && r.value.toolUse.name == call.name
              && r.value.toolUse.rawInput == call.arguments
              && r.value.toolUse.isInputComplete
    ensures call.arguments == "" ==> r.Ok? && r.value.toolUse.input == Json.EmptyObject
    ensures call.arguments != "" && parse(call.arguments).Ok? ==> r.Ok? && r.value.toolUse.input == parse(call.arguments).value
    ensures r.Err? <==> call.arguments != "" && parse(call.arguments).Err?
    ensures r.Err? ==> r.error == BadInputJson(call.id, call.name, call.arguments, parse(call.arguments).error)
  {
    match ParseArguments(call.arguments, parse)
    case Ok(input) => Ok(LanguageModelCompletionEvent.ToolUse(LanguageModelToolUse(call.id, call.name, call.arguments, input, true)))
    case Err(error) => Err(BadInputJson(call.id, call.name, call.arguments, error))
  }

  // ------------------------------------------------------------------
  // Draining: the order of a hash map is unspecified
  // ------------------------------------------------------------------

  /** `order` lists every key of `calls` exactly once: a possible drain order. */
  ghost predicate IsKeyOrder(order: seq<nat>, calls: Accumulator)
  {
    && (forall j | 0 <= j < |order| :: order[j] in calls)
    && Distinct(order)
    && (forall k | k in calls :: k in order)
  }

  /** The events of draining `calls` in the given order. */
  function DrainEvents(calls: Accumulator, order: seq<nat>, parse: string -> Result<Json.Value, string>): seq<CompletionResult>
    requires forall j | 0 <= j < |order| :: order[j] in calls
  {
    seq(|order|, j requires 0 <= j < |order| => ToolCallEvent(calls[order[j]], parse))
  }

  lemma {:induction false} DistinctCardinality(order: seq<nat>)
    requires Distinct(order)
    ensures |set j | 0 <= j < |order| :: order[j]| == |order|
  {
    if order != [] {
      var init := order[..|order| - 1];
      DistinctCardinality(init);
      var s := set j | 0 <= j < |order| :: order[j];
      var t := set j | 0 <= j < |init| :: init[j];
      assert s == t + {order[|order| - 1]};
      assert order[|order| - 1] !in t;
    }
  }

  /** A drain visits each accumulated entry once: it yields as many events as there are entries. */
  lemma KeyOrderLength(order: seq<nat>, calls: Accumulator)
    requires IsKeyOrder(order, calls)
    ensures |order| == |calls|
  {
    DistinctCardinality(order);
    assert (set j | 0 <= j < |order| :: order[j]) == calls.Keys;
  }

  lemma DrainEventsSplit(calls: Accumulator, a: seq<nat>, b: seq<nat>, parse: string -> Result<Json.Value, string>)
    requires forall j | 0 <= j < |a| :: a[j] in calls
    requires forall j | 0 <= j < |b| :: b[j] in calls
    ensures DrainEvents(calls, a + b, parse) == DrainEvents(calls, a, parse) + DrainEvents(calls, b, parse)
  {
  }

  ghost predicate Distinct(order: seq<nat>)
  {
    forall i, j | 0 <= i < j < |order| :: order[i] != order[j]
  }

  /** The sequence with position `p` removed. */
  function Without(order: seq<nat>, p: nat): seq<nat>
    requires p < |order|
  {
    order[..p] + order[p + 1..]
  }

  /** Removing position `p` of a distinct sequence keeps it distinct and drops exactly `order[p]`. */
  lemma RemoveAt(order: seq<nat>, p: nat)
    requires p < |order| && Distinct(order)
    ensures Distinct(Without(order, p))
    ensures forall x :: x in Without(order, p) <==> x in order && x != order[p]
  {
    var rest := Without(order, p);
    forall i, j | 0 <= i < j < |rest| ensures rest[i] != rest[j] {
      var i' := if i < p then i else i + 1;
      var j' := if j < p then j else j + 1;
      assert rest[i] == order[i'] && rest[j] == order[j'];
    }
    forall x ensures x in rest <==> x in order && x != order[p] {
      if x in rest {
        var q :| 0 <= q < |rest| && rest[q] == x;
        var q' := if q < p then q else q + 1;
        assert order[q'] == x;
      }
      if x in order && x != order[p] {
        var q :| 0 <= q < |order| && order[q] == x;
        if q < p {
          assert rest[q] == x;
        } else {
          assert rest[q - 1] == x;
        }
      }
    }
  }

  /** The drain events of a sequence are those of position `p` plus those of the rest. */
  lemma DrainRemove(calls: Accumulator, order: seq<nat>, p: nat, parse: string -> Result<Json.Value, string>)
    requires p < |order|
    requires forall j | 0 <= j < |order| :: order[j] in calls
    ensures forall j | 0 <= j < |Without(order, p)| :: Without(order, p)[j] in calls
    ensures multiset(DrainEvents(calls, order, parse))
         == multiset{ToolCallEvent(calls[order[p]], parse)} + multiset(DrainEvents(calls, Without(order, p), parse))
  {
    assert order == order[..p] + [order[p]] + order[p + 1..];
    DrainEventsSplit(calls, order[..p], [order[p]], parse);
    DrainEventsSplit(calls, order[..p] + [order[p]], order[p + 1..], parse);
    DrainEventsSplit(calls, order[..p], order[p + 1..], parse);
  }

  lemma {:induction false} DrainMultiset(
    calls: Accumulator, o1: seq<nat>, o2: seq<nat>, parse: string -> Result<Json.Value, string>)
    requires forall j | 0 <= j < |o1| :: o1[j] in calls
    requires forall j | 0 <= j < |o2| :: o2[j] in calls
    requires Distinct(o1) && Distinct(o2)
    requires |o1| == |o2| && forall k :: k in o1 <==> k in o2
    ensures multiset(DrainEvents(calls, o1, parse)) == multiset(DrainEvents(calls, o2, parse))
    decreases |o1|
  {
    if o1 != [] {
      var k := o1[0];
      assert k in o1;
      var p :| 0 <= p < |o2| && o2[p] == k;
      RemoveAt(o1, 0);
      RemoveAt(o2, p);
      var r1, r2 := Without(o1, 0), Without(o2, p);
      forall x ensures x in r1 <==> x in r2 {
      }
      DrainMultiset(calls, r1, r2, parse);
      DrainRemove(calls, o1, 0, parse);
      DrainRemove(calls, o2, p, parse);
    }
  }

  /**
   * Draining yields the same events whatever order the map visits its
   * entries in, compared as a multiset.
   */
  lemma DrainOrderIrrelevant(calls: Accumulator, o1: seq<nat>, o2: seq<nat>, parse: string -> Result<Json.Value, string>)
    requires IsKeyOrder(o1, calls) && IsKeyOrder(o2, calls)
    ensures |DrainEvents(calls, o1, parse)| == |DrainEvents(calls, o2, parse)| == |calls|
    ensures multiset(DrainEvents(calls, o1, parse)) == multiset(DrainEvents(calls, o2, parse))
  {
    KeyOrderLength(o1, calls);
    KeyOrderLength(o2, calls);
    DrainMultiset(calls, o1, o2, parse);
  }

  // ------------------------------------------------------------------
  // One response event
  // ------------------------------------------------------------------

  const NoChoicesMessage: string := "Response contained no choices"

  const NoDeltaMessage: string := "Response contained no delta"

  /**
   * The delta and finish reason of the first choice of an event, or the one
   * error the event yields: the transport error, no choice, or no delta
   * (the incremental delta when streaming, the whole message otherwise).
   */
  function SelectDelta(event: Result<CC.ResponseEvent, string>, isStreaming: bool)
    : (r: Result<(CC.ResponseDelta, Option<string>), LanguageModelCompletionError>)
    ensures event.Err? ==> r == Err(Other(event.error))
    ensures event.Ok? && event.value.choices == [] ==> r == Err(Other(NoChoicesMessage))
    ensures event.Ok? && event.value.choices != [] ==>
              var choice := event.value.choices[0];
              var delta := if isStreaming then choice.delta else choice.message;
              && (delta.None? ==> r == Err(Other(NoDeltaMessage)))
              && (delta.Some? ==> r == Ok((delta.value, choice.finishReason)))
  {
    match event
    case Err(error) => Err(Other(error))
    case Ok(response) =>
      if response.choices == [] then Err(Other(NoChoicesMessage))
      else
        var choice := response.choices[0];
        var delta := if isStreaming then choice.delta else choice.message;
        match delta
        case None => Err(Other(NoDeltaMessage))
        case Some(d) => Ok((d, choice.finishReason))
  }

  function TextEvents(delta: CC.ResponseDelta): seq<CompletionResult>
  {
    if delta.content.Some? then [Ok(LanguageModelCompletionEvent.Text(delta.content.value))] else []
  }

  /**
   * What one event does, given the accumulator `calls` before it: the events
   * `out` it yields and the accumulator `after`. A bad event yields its one
   * error and leaves the accumulator alone. Otherwise text comes first, the
   * fragments are folded in, and the finish reason decides the rest:
   * `tool_calls` drains every entry, in the order `order`, then stops for
   * tool use; any other reason stops the turn; none adds nothing.
   */
  ghost predicate StepSpec(
    calls: Accumulator, event: Result<CC.ResponseEvent, string>, isStreaming: bool,
    parse: string -> Result<Json.Value, string>,
    out: seq<CompletionResult>, order: seq<nat>, after: Accumulator)
  {
    match SelectDelta(event, isStreaming)
    case Err(error) => out == [Err(error)] && after == calls
    case Ok(selected) =>
      var delta, finish := selected.0, selected.1;
      var folded := Accumulate(calls, delta.toolCalls);
      if finish == Some("tool_calls") then
        && after == map[]
        && IsKeyOrder(order, folded)
        && out == TextEvents(delta) + DrainEvents(folded, order, parse) + [Ok(Stop(StopReason.ToolUse))]
      else if finish.Some? then
        after == folded && out == TextEvents(delta) + [Ok(Stop(EndTurn))]
      else
        after == folded && out == TextEvents(delta)
  }

  /**
   * The outcome of an event is the same whatever the drain order, up to the
   * order of the drained events: same accumulator, same events as a
   * multiset, and the same number of events.
   */
  lemma StepDeterminedUpToDrainOrder(
    calls: Accumulator, event: Result<CC.ResponseEvent, string>, isStreaming: bool,
    parse: string -> Result<Json.Value, string>,
    out1: seq<CompletionResult>, order1: seq<nat>, after1: Accumulator,
    out2: seq<CompletionResult>, order2: seq<nat>, after2: Accumulator)
    requires StepSpec(calls, event, isStreaming, parse, out1, order1, after1)
    requires StepSpec(calls, event, isStreaming, parse, out2, order2, after2)
    ensures after1 == after2
    ensures |out1| == |out2|
    ensures multiset(out1) == multiset(out2)
  {
    var selected := SelectDelta(event, isStreaming);
    if selected.Ok? && selected.value.1 == Some("tool_calls") {
      var delta := selected.value.0;
      var folded := Accumulate(calls, delta.toolCalls);
      DrainOrderIrrelevant(folded, order1, order2, parse);
    }
  }

  /**
   * After `tool_calls` the accumulator is empty, one event per accumulated
   * entry sits between the text and the final `Stop(ToolUse)`.
   */
  lemma ToolCallsStep(
    calls: Accumulator, event: Result<CC.ResponseEvent, string>, isStreaming: bool,
    parse: string -> Result<Json.Value, string>,
    out: seq<CompletionResult>, order: seq<nat>, after: Accumulator)
    requires StepSpec(calls, event, isStreaming, parse, out, order, after)
    requires SelectDelta(event, isStreaming).Ok? && SelectDelta(event, isStreaming).value.1 == Some("tool_calls")
    ensures var delta := SelectDelta(event, isStreaming).value.0;
      && after == map[]
      && |out| == |TextEvents(delta)| + |Accumulate(calls, delta.toolCalls)| + 1
      && out[|out| - 1] == Ok(Stop(StopReason.ToolUse))
      && (forall j | |TextEvents(delta)| <= j < |out| - 1 :: out[j].Err? || out[j].value.ToolUse?)
  {
    var delta := SelectDelta(event, isStreaming).value.0;
    KeyOrderLength(order, Accumulate(calls, delta.toolCalls));
  }

  /**
   * The shape of what one event yields: a bad event yields exactly one
   * error and keeps the accumulator; otherwise the text, if any, comes
   * first and a `Stop` can only be the last event.
   */
  lemma StepShape(
    calls: Accumulator, event: Result<CC.ResponseEvent, string>, isStreaming: bool,
    parse: string -> Result<Json.Value, string>,
    out: seq<CompletionResult>, order: seq<nat>, after: Accumulator)
    requires StepSpec(calls, event, isStreaming, parse, out, order, after)
    ensures SelectDelta(event, isStreaming).Err? ==> |out| == 1 && out[0].Err? && after == calls
    ensures SelectDelta(event, isStreaming).Ok? && SelectDelta(event, isStreaming).value.0.content.Some? ==>
              |out| > 0 && out[0] == Ok(LanguageModelCompletionEvent.Text(SelectDelta(event, isStreaming).value.0.content.value))
    ensures forall j | 0 <= j < |out| - 1 :: !(out[j].Ok? && out[j].value.Stop?)
  {
  }

  /**
   * A worked example: the buffered call at index 0 gets its last argument
   * fragment in an event that finishes with `tool_calls`, and the output
   * is that one completed call followed by `Stop(ToolUse)`.
   */
  lemma ReassemblyExample(
    parse: string -> Result<Json.Value, string>, out: seq<CompletionResult>, order: seq<nat>, after: Accumulator)
    requires StepSpec(
               map[0 := RawToolCall("call_1", "grep", "{\"query\":")],
               Ok(CC.ResponseEvent([CC.ResponseChoice(
                 Some("tool_calls"),
                 Some(CC.ResponseDelta(Option.None, [CC.ToolCallChunk(0, Option.None, Some(CC.FunctionChunk(Option.None, Some("\"x\"}"))))])),
                 Option.None)])),
               true, parse, out, order, after)
    ensures after == map[]
    ensures out == [ToolCallEvent(RawToolCall("call_1", "grep", "{\"query\":\"x\"}"), parse), Ok(Stop(StopReason.ToolUse))]
  {
    var folded := map[0 := RawToolCall("call_1", "grep", "{\"query\":\"x\"}")];
    assert "{\"query\":" + "\"x\"}" == "{\"query\":\"x\"}";
    KeyOrderLength(order, folded);
    assert order[0] in folded;
  }

  /** The fragments of a fresh call at index 0: first its name, then its arguments in two pieces. */
  function FooFragments(): seq<CC.ToolCallChunk>
  {
    [CC.ToolCallChunk(0, Option.None, Some(CC.FunctionChunk(Some("foo"), Option.None))),
     CC.ToolCallChunk(0, Option.None, Some(CC.FunctionChunk(Option.None, Some("{\"x\":")))),
     CC.ToolCallChunk(0, Option.None, Some(CC.FunctionChunk(Option.None, Some("1}"))))]
  }

  /** Folding those fragments into an empty accumulator assembles one call at index 0. */
  lemma FooFragmentsAssemble()
    ensures Accumulate(map[], FooFragments()) == map[0 := RawToolCall("", "foo", "{\"x\":1}")]
  {
    var c := FooFragments();
    assert c[..1][..0] == [];
    assert Accumulate(map[], c[..1]) == map[0 := RawToolCall("", "foo", "")];
    assert c[..2][..1] == c[..1];
    assert "" + "{\"x\":" == "{\"x\":";
    assert Accumulate(map[], c[..2]) == map[0 := RawToolCall("", "foo", "{\"x\":")];
    assert c[..|c| - 1] == c[..2];
    assert "{\"x\":" + "1}" == "{\"x\":1}";
  }

  /**
   * A worked example from an empty accumulator: an event whose delta carries
   * the name and both argument pieces and finishes with `tool_calls` yields
   * exactly the one call `foo` with arguments `{"x":1}`, then `Stop(ToolUse)`.
   */
  lemma FreshReassemblyExample(
    parse: string -> Result<Json.Value, string>, out: seq<CompletionResult>, order: seq<nat>, after: Accumulator)
    requires StepSpec(
               map[],
               Ok(CC.ResponseEvent([CC.ResponseChoice(
                 Some("tool_calls"), Some(CC.ResponseDelta(Option.None, FooFragments())), Option.None)])),
               true, parse, out, order, after)
    ensures after == map[]
    ensures out == [ToolCallEvent(RawToolCall("", "foo", "{\"x\":1}"), parse), Ok(Stop(StopReason.ToolUse))]
  {
    var folded := map[0 := RawToolCall("", "foo", "{\"x\":1}")];
    FooFragmentsAssemble();
    KeyOrderLength(order, folded);
    assert order[0] in folded;
  }

  /** Draining one more key: its event is appended, and the order stays duplicate-free. */
  lemma DrainStep(calls: Accumulator, order: seq<nat>, index: nat, parse: string -> Result<Json.Value, string>)
    requires forall j | 0 <= j < |order| :: order[j] in calls && order[j] != index
    requires Distinct(order) && index in calls
    ensures Distinct(order + [index])
    ensures forall j | 0 <= j < |order + [index]| :: (order + [index])[j] in calls
    ensures DrainEvents(calls, order + [index], parse) == DrainEvents(calls, order, parse) + [ToolCallEvent(calls[index], parse)]
  {
  }

  // ------------------------------------------------------------------
  // The state machine
  // ------------------------------------------------------------------

  /** The per-call state of the normalizer: its accumulator of partial tool calls. */
  class CompletionEventMapper {
    const isStreaming: bool
    const parse: string -> Result<Json.Value, string>
    var toolCallsByIndex: Accumulator

    constructor (isStreaming: bool, parse: string -> Result<Json.Value, string>)
      ensures this.isStreaming == isStreaming && this.parse == parse
      ensures toolCallsByIndex == map[]
    {
      this.isStreaming := isStreaming;
      this.parse := parse;
      toolCallsByIndex := map[];
    }

    /** Folds the fragments of one delta into the accumulator, one entry at a time. */
    method AddToolCallChunks(chunks: seq<CC.ToolCallChunk>)
      modifies this
      ensures toolCallsByIndex == Accumulate(old(toolCallsByIndex), chunks)
    {
      for i := 0 to |chunks|
        invariant toolCallsByIndex == Accumulate(old(toolCallsByIndex), chunks[..i])
      {
        var chunk := chunks[i];
        var entry := if chunk.index in toolCallsByIndex then toolCallsByIndex[chunk.index] else EmptyCall;
        if chunk.id.Some? {
          entry := entry.(id := chunk.id.value);
        }
        if chunk.functionDelta.Some? {
          var fn := chunk.functionDelta.value;
          if fn.name.Some? {
            entry := entry.(name := fn.name.value);
          }
          if fn.arguments.Some? {
            entry := entry.(arguments := entry.arguments + fn.arguments.value);
          }
        }
        toolCallsByIndex := toolCallsByIndex[chunk.index := entry];
        assert chunks[..i + 1][..i] == chunks[..i];
      }
      assert chunks[..|chunks|] == chunks;
    }

    /** Empties the accumulator, turning each entry into its event in whatever order the map yields them. */
    method DrainToolCalls() returns (events: seq<CompletionResult>, ghost order: seq<nat>)
      modifies this
      ensures toolCallsByIndex == map[]
      ensures IsKeyOrder(order, old(toolCallsByIndex))
      ensures events == DrainEvents(old(toolCallsByIndex), order, parse)
    {
      ghost var all := toolCallsByIndex;
      events, order := [], [];
      while toolCallsByIndex != map[]
        invariant forall k | k in toolCallsByIndex :: k in all && toolCallsByIndex[k] == all[k]
        invariant forall j | 0 <= j < |order| :: order[j] in all && order[j] !in toolCallsByIndex
        invariant Distinct(order)
        invariant forall k | k in all :: k in toolCallsByIndex || k in order
        invariant events == DrainEvents(all, order, parse)
        decreases |toolCallsByIndex|
      {
        var index :| index in toolCallsByIndex;
        DrainStep(all, order, index, parse);
        events := events + [ToolCallEvent(toolCallsByIndex[index], parse)];
        order := order + [index];
        toolCallsByIndex := toolCallsByIndex - {index};
      }
    }

    /** Handles one item of the vendor stream. */
    method Next(event: Result<CC.ResponseEvent, string>) returns (events: seq<CompletionResult>, ghost order: seq<nat>)
      modifies this
      ensures StepSpec(old(toolCallsByIndex), event, isStreaming, parse, events, order, toolCallsByIndex)
    {
      order := [];
      if event.Err? {
        return [Err(Other(event.error))], order;
      }
      var response := event.value;
      if response.choices == [] {
        return [Err(Other(NoChoicesMessage))], order;
      }
      var choice := response.choices[0];
      var delta := if isStreaming then choice.delta else choice.message;
      if delta.None? {
        return [Err(Other(NoDeltaMessage))], order;
      }
      assert SelectDelta(event, isStreaming) == Ok((delta.value, choice.finishReason));
      events := [];
      if delta.value.content.Some? {
        events := events + [Ok(LanguageModelCompletionEvent.Text(delta.value.content.value))];
      }
      assert events == TextEvents(delta.value);
      AddToolCallChunks(delta.value.toolCalls);
      match choice.finishReason {
        case Some(reason) =>
          if reason == "stop" {
            events := events + [Ok(Stop(EndTurn))];
          } else if reason == "tool_calls" {
            var drained;
            drained, order := DrainToolCalls();
            events := events + drained + [Ok(Stop(StopReason.ToolUse))];
          } else {
            events := events + [Ok(Stop(EndTurn))];
          }
        case None =>
      }
    }
  }

  // ------------------------------------------------------------------
  // The whole stream
  // ------------------------------------------------------------------

  function Concat(chunks: seq<seq<CompletionResult>>): seq<CompletionResult>
  {
    if chunks == [] then [] else Concat(chunks[..|chunks| - 1]) + chunks[|chunks| - 1]
  }

  /**
   * `map_to_language_model_completion_events` over a finite stream: starting
   * from an empty accumulator, every event is handled in arrival order (an
   * error event included; processing goes on with the next one), and the
   * output is the concatenation of what each event yields.
   */
  method MapToCompletionEvents(
    events: seq<Result<CC.ResponseEvent, string>>, isStreaming: bool, parse: string -> Result<Json.Value, string>)
    returns (out: seq<CompletionResult>,
             ghost states: seq<Accumulator>, ghost outputs: seq<seq<CompletionResult>>, ghost orders: seq<seq<nat>>)
    ensures |states| == |events| + 1 && |outputs| == |events| && |orders| == |events|
    ensures states[0] == map[]
    ensures forall i | 0 <= i < |events| ::
              StepSpec(states[i], events[i], isStreaming, parse, outputs[i], orders[i], states[i + 1])
    ensures out == Concat(outputs)
  {
    var mapper := new CompletionEventMapper(isStreaming, parse);
    out, states, outputs, orders := [], [map[]], [], [];
    for i := 0 to |events|
      invariant |states| == i + 1 && |outputs| == i && |orders| == i
      invariant states[0] == map[] && states[i] == mapper.toolCallsByIndex
      invariant mapper.isStreaming == isStreaming && mapper.parse == parse
      invariant forall j | 0 <= j < i ::
                  StepSpec(states[j], events[j], isStreaming, parse, outputs[j], orders[j], states[j + 1])
      invariant out == Concat(outputs)
    {
      var produced, order := mapper.Next(events[i]);
      out := out + produced;
      outputs := outputs + [produced];
      orders := orders + [order];
      states := states + [mapper.toolCallsByIndex];
      assert outputs[..i] == outputs[..|outputs| - 1];
    }
  }
}
