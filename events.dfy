/**
 * The event mapper of the Antigravity stream: one parsed `data:` payload
 * becomes `text-delta` and `tool-call` events, read from
 * `response.candidates[0].content.parts` with JavaScript's property-access
 * and truthiness rules.
 */
module StreamEvents {
  import opened Wrappers
  import opened Js
  import opened Text

  /** The neutral stream parts the adapter enqueues; every tool call has tool-call type `function`. */
  datatype Event =
    | TextDelta(textDelta: Value)
    | ToolCall(toolCallId: Value, toolName: Value, args: Value)
    | Finish(finishReason: string, promptTokens: nat, completionTokens: nat)

  /** The one finish event of a stream: reason `stop`, usage reported as zero. */
  const FinishEvent: Event := Finish("stop", 0, 0)

  /** What the stream is errored with. */
  datatype StreamError =
      /** `JSON.parse` rejected this payload. */
    | SyntaxError(payload: string)
      /** A property was read on null or undefined, or a non-iterable was iterated. */
    | TypeError(operation: string)
      /** The byte reader rejected. */
    | ReadFailure

  /** The events enqueued so far and, if something threw, what. */
  datatype Progress = Progress(events: seq<Event>, failure: Option<StreamError>)

  predicate NoFinish(events: seq<Event>) {
    forall k :: 0 <= k < |events| ==> !events[k].Finish?
  }

  /**
   * The events of one vendor part, the first of which will sit at stream
   * position `pos`: a text delta when `part.text` is truthy, then a tool
   * call when `part.functionCall` is truthy; its id is the vendor's when that
   * is truthy and `fallback` of its own position otherwise. Reading
   * `part.text` on a null part throws.
   */
  function PartEvents(part: Value, pos: nat, fallback: nat -> string): (r: Progress)
    ensures r.failure.Some? <==> IsNullish(part)
    ensures r.failure.Some? ==> r.events == []
    ensures NoFinish(r.events)
    ensures !IsNullish(part) ==>
      var text, call := Get(part, "text"), Get(part, "functionCall");
      && |r.events| == (if Truthy(text) then 1 else 0) + (if Truthy(call) then 1 else 0)
      && (Truthy(text) ==> r.events[0] == TextDelta(text))
      && (Truthy(call) ==>
            var e := r.events[|r.events| - 1];
            var id := Get(call, "id");
            && e.ToolCall? && e.toolName == Get(call, "name") && e.args == Get(call, "args")
            && (Truthy(id) ==> e.toolCallId == id)
            && (!Truthy(id) ==> e.toolCallId == Str(fallback(pos + |r.events| - 1))))
  {
    if IsNullish(part) then Progress([], Some(TypeError("read part.text")))
    else
      var text := Get(part, "text");
      var deltas := if Truthy(text) then [TextDelta(text)] else [];
      var call := Get(part, "functionCall");
      if Truthy(call) then
        var id := Get(call, "id");
        var callId := if Truthy(id) then id else Str(fallback(pos + |deltas|));
        Progress(deltas + [ToolCall(callId, Get(call, "name"), Get(call, "args"))], None)
      else Progress(deltas, None)
  }

  /**
   * The events after `prior` once the parts have been visited in order,
   * stopping at the first part that throws. Events are only ever appended.
   */
  function AfterParts(prior: seq<Event>, parts: seq<Value>, fallback: nat -> string): (r: Progress)
    ensures prior <= r.events
    ensures NoFinish(prior) ==> NoFinish(r.events)
    ensures r.failure.None? <==> forall i :: 0 <= i < |parts| ==> !IsNullish(parts[i])
  {
    if parts == [] then Progress(prior, None)
    else
      var before := AfterParts(prior, AllButLast(parts), fallback);
      if before.failure.Some? then before
      else
        var step := PartEvents(Last(parts), |before.events|, fallback);
        Progress(before.events + step.events, step.failure)
  }

  /** `chunk.response?.candidates?.[0]?.content?.parts`, for a chunk that is not nullish. */
  function PartsPath(chunk: Value): Value
  {
    GetOpt(GetOpt(FirstOpt(GetOpt(Get(chunk, "response"), "candidates")), "content"), "parts")
  }

  /** The parts the mapper iterates over with effect: those of a truthy array at the parts path. */
  function VisitedParts(chunk: Value): seq<Value>
  {
    if IsNullish(chunk) then [] else
    match PartsPath(chunk)
    case Arr(items) => items
    case _ => []
  }

  /**
   * The events after `prior` once one parsed payload has been mapped.
   * `chunk.response` throws on a null chunk; a missing or falsy parts path
   * yields nothing; a string there is iterated character by character, and
   * characters have neither `text` nor `functionCall`; any other truthy
   * non-array is not iterable and throws.
   */
  function AfterPayload(prior: seq<Event>, chunk: Value, fallback: nat -> string): (r: Progress)
    ensures prior <= r.events
    ensures NoFinish(prior) ==> NoFinish(r.events)
    ensures !IsNullish(chunk) && !Truthy(PartsPath(chunk)) ==> r == Progress(prior, None)
  {
    if IsNullish(chunk) then Progress(prior, Some(TypeError("read chunk.response")))
    else
      var parts := PartsPath(chunk);
      if !Truthy(parts) then Progress(prior, None)
      else match parts
        case Arr(items) => AfterParts(prior, items, fallback)
        case Str(_) => Progress(prior, None)
        case _ => Progress(prior, Some(TypeError("iterate parts")))
  }

  /** The texts carried by the text deltas among `events`, in order. */
  function Texts(events: seq<Event>): seq<Value>
  {
    if events == [] then []
    else Texts(AllButLast(events)) + (if Last(events).TextDelta? then [Last(events).textDelta] else [])
  }

  /** The truthy `text` fields of the parts, in part order. */
  function TruthyTexts(parts: seq<Value>): seq<Value>
  {
    if parts == [] then []
    else
      var text := Get(Last(parts), "text");
      TruthyTexts(AllButLast(parts)) + (if Truthy(text) then [text] else [])
  }

  lemma {:induction false} TextsAppend(a: seq<Event>, b: seq<Event>)
    ensures Texts(a + b) == Texts(a) + Texts(b)
  {
    if b == [] {
      assert a + b == a;
    } else {
      assert AllButLast(a + b) == a + AllButLast(b);
      assert Last(a + b) == Last(b);
      TextsAppend(a, AllButLast(b));
    }
  }

  /** The text deltas of one part: its text when truthy, nothing otherwise. */
  lemma PartTexts(part: Value, pos: nat, fallback: nat -> string)
    requires !IsNullish(part)
    ensures var text := Get(part, "text");
      Texts(PartEvents(part, pos, fallback).events) == if Truthy(text) then [text] else []
  {
    var events := PartEvents(part, pos, fallback).events;
    var text, call := Get(part, "text"), Get(part, "functionCall");
    if Truthy(text) && Truthy(call) {
      assert AllButLast(events) == [TextDelta(text)];
      assert Texts([TextDelta(text)]) == Texts([]) + [text];
    } else if Truthy(text) {
      assert events == [TextDelta(text)];
      assert Texts(events) == Texts([]) + [text];
    } else if Truthy(call) {
      assert Texts(events) == Texts([]);
    }
  }

  /**
   * Every part with a truthy text yields exactly one text delta carrying
   * that text verbatim, in part order; no text is merged, dropped or added.
   */
  lemma {:induction false} TextDeltasFollowParts(prior: seq<Event>, parts: seq<Value>, fallback: nat -> string)
    requires AfterParts(prior, parts, fallback).failure.None?
    ensures Texts(AfterParts(prior, parts, fallback).events) == Texts(prior) + TruthyTexts(parts)
  {
    if parts != [] {
      var before := AfterParts(prior, AllButLast(parts), fallback);
      assert before.failure.None?;
      TextDeltasFollowParts(prior, AllButLast(parts), fallback);
      var step := PartEvents(Last(parts), |before.events|, fallback);
      assert AfterParts(prior, parts, fallback).events == before.events + step.events;
      TextsAppend(before.events, step.events);
      PartTexts(Last(parts), |before.events|, fallback);
    }
  }

  /** A payload whose parts path is missing, falsy or not a list of parts enqueues no event. */
  lemma PayloadWithoutPartsIsSilent(prior: seq<Event>, chunk: Value, fallback: nat -> string)
    requires !IsNullish(chunk) && !PartsPath(chunk).Arr?
    ensures AfterPayload(prior, chunk, fallback).events == prior
  {
  }

  /** `part.functionCall?.id`, the id the vendor gave a call. */
  function VendorId(part: Value): Value
  {
    Get(Get(part, "functionCall"), "id")
  }

  /** `v` is the truthy vendor id of one of the parts. */
  predicate IsVendorId(parts: seq<Value>, v: Value)
  {
    exists i :: 0 <= i < |parts| && Truthy(VendorId(parts[i])) && v == VendorId(parts[i])
  }

  /**
   * Every tool call the parts loop emits at stream position `k` carries
   * either the truthy vendor id of one of the parts or `fallback(k)`:
   * synthesized ids are a function of the position alone.
   */
  lemma {:induction false} SynthesizedIdsFollowPosition(prior: seq<Event>, parts: seq<Value>, fallback: nat -> string)
    ensures var r := AfterParts(prior, parts, fallback);
      forall k :: |prior| <= k < |r.events| && r.events[k].ToolCall? ==>
        IsVendorId(parts, r.events[k].toolCallId) || r.events[k].toolCallId == Str(fallback(k))
  {
    if parts != [] {
      var init := AllButLast(parts);
      var before := AfterParts(prior, init, fallback);
      SynthesizedIdsFollowPosition(prior, init, fallback);
      if before.failure.None? {
        var step := PartEvents(Last(parts), |before.events|, fallback);
        var r := before.events + step.events;
        forall k | |prior| <= k < |r| && r[k].ToolCall?
          ensures IsVendorId(parts, r[k].toolCallId) || r[k].toolCallId == Str(fallback(k))
        {
          if k >= |before.events| {
            assert r[k] == step.events[k - |before.events|];
            assert k - |before.events| == |step.events| - 1;
            var last := |parts| - 1;
            assert Last(parts) == parts[last];
            if Truthy(VendorId(parts[last])) {
              assert r[k].toolCallId == VendorId(parts[last]);
            }
          } else if IsVendorId(init, r[k].toolCallId) {
            var i :| 0 <= i < |init| && Truthy(VendorId(init[i])) && r[k].toolCallId == VendorId(init[i]);
            assert init[i] == parts[i];
          }
        }
      }
    }
  }

  /**
   * The fallback id template, `call_` followed by a decimal number. The
   * adapter fills it with a clock reading in milliseconds; numbered by
   * stream position instead, it gives one id per position.
   */
  function CallId(n: nat): (r: string)
    ensures "call_" <= r
  {
    "call_" + NatToString(n)
  }

  lemma CallIdInjective(i: nat, j: nat)
    requires CallId(i) == CallId(j)
    ensures i == j
  {
    var a, b := NatToString(i), NatToString(j);
    assert a == CallId(i)[5..] && b == CallId(j)[5..];
    NatToStringInjective(i, j);
  }

  /**
   * With ids numbered by stream position, two tool calls of one payload
   * whose ids are not vendor ids never share an id.
   */
  lemma PositionIdsDistinct(prior: seq<Event>, parts: seq<Value>)
    ensures var r := AfterParts(prior, parts, CallId);
      forall k1, k2 :: |prior| <= k1 < k2 < |r.events| && r.events[k1].ToolCall? && r.events[k2].ToolCall?
        && !IsVendorId(parts, r.events[k1].toolCallId) && !IsVendorId(parts, r.events[k2].toolCallId)
        ==> r.events[k1].toolCallId != r.events[k2].toolCallId
  {
    SynthesizedIdsFollowPosition(prior, parts, CallId);
    var r := AfterParts(prior, parts, CallId);
    forall k1, k2 | |prior| <= k1 < k2 < |r.events| && r.events[k1].ToolCall? && r.events[k2].ToolCall?
      && !IsVendorId(parts, r.events[k1].toolCallId) && !IsVendorId(parts, r.events[k2].toolCallId)
      ensures r.events[k1].toolCallId != r.events[k2].toolCallId
    {
      if r.events[k1].toolCallId == r.events[k2].toolCallId {
        CallIdInjective(k1, k2);
      }
    }
  }

  /** A part that only calls the tool `name`, without a vendor id. */
  function CallWithoutId(name: string): Value
  {
    Obj(map["functionCall" := Obj(map["name" := Str(name)])])
  }

  lemma CallWithoutIdEvents(name: string, pos: nat, fallback: nat -> string)
    ensures PartEvents(CallWithoutId(name), pos, fallback).events == [ToolCall(Str(fallback(pos)), Str(name), Undefined)]
  {
    var call := Obj(map["name" := Str(name)]);
    assert Get(CallWithoutId(name), "functionCall") == call;
    assert Get(CallWithoutId(name), "text") == Undefined;
    assert Get(call, "id") == Undefined && Get(call, "args") == Undefined && Get(call, "name") == Str(name);
  }

  /** Two tool calls without vendor ids, `f` then `g`, take the fallbacks of positions 0 and 1. */
  lemma TwoCallsWithoutId(fallback: nat -> string)
    ensures AfterParts([], [CallWithoutId("f"), CallWithoutId("g")], fallback).events
         == [ToolCall(Str(fallback(0)), Str("f"), Undefined), ToolCall(Str(fallback(1)), Str("g"), Undefined)]
  {
    var f, g := CallWithoutId("f"), CallWithoutId("g");
    CallWithoutIdEvents("f", 0, fallback);
    CallWithoutIdEvents("g", 1, fallback);
    assert AllButLast([f]) == [] && Last([f]) == f;
    assert AllButLast([f, g]) == [f] && Last([f, g]) == g;
    assert AfterParts([], [f], fallback).events == [ToolCall(Str(fallback(0)), Str("f"), Undefined)];
  }

  /**
   * As written, the fallback is `call_${Date.now()}`: two tool calls without
   * a vendor id mapped within the same millisecond, as the parts of one
   * payload are, get the same id.
   */
  lemma ClockFallbackCollides(clock: nat -> nat)
    requires clock(0) == clock(1)
    ensures var r := AfterParts([], [CallWithoutId("f"), CallWithoutId("g")], (k: nat) => CallId(clock(k)));
      && |r.events| == 2 && r.events[0].ToolCall? && r.events[1].ToolCall?
      && r.events[0].toolCallId == r.events[1].toolCallId
  {
    TwoCallsWithoutId((k: nat) => CallId(clock(k)));
  }
}
