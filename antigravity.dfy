/**
 * The Antigravity language model: `doGenerate` is unsupported, and
 * `doStream` translates the prompt, fails upfront on a non-OK response, and
 * otherwise decodes the server-sent-event stream chunk by chunk into
 * neutral events, ending in exactly one `finish` event or in an error.
 */
module Antigravity {
  import opened Wrappers
  import opened Js
  import opened Text
  import opened Prompt
  import opened MessageTranslation
  import opened SseDecoder
  import opened StreamEvents

  /** The `provider` getter of the Antigravity model. */
  function Provider(): string
  {
    "google-antigravity"
  }

  /** How the last read of the byte stream ended: `done`, or a rejected read. */
  datatype ReadEnd = Done | ReadError

  /**
   * The fetched response: `ok`, `status`, the text of its body (read only
   * when not OK) and, when OK, the already-decoded chunks its reader yields
   * before `end`.
   */
  datatype Response = Response(ok: bool, status: nat, bodyText: string, chunks: seq<string>, end: ReadEnd)

  datatype StreamEnd = Closed | Errored(error: StreamError)

  /** What a consumer of the stream sees: the enqueued events, then close or error. */
  datatype StreamResult = StreamResult(events: seq<Event>, end: StreamEnd)

  /**
   * What `doStream` resolves to: the contents sent, the stream, and the raw
   * call, which echoes the prompt and the remaining call options.
   */
  datatype StreamCall = StreamCall(contents: seq<VendorContent>, stream: StreamResult, rawPrompt: seq<Message>, rawSettings: map<string, Value>)

  datatype CallError =
    | PromptNotTranslatable(cause: TranslationError)
    | RequestFailed(message: string)
    | Unsupported(message: string)

  /* ---------- Specification of the stream, stage by stage ---------- */

  /** One payload after `prior`: parse it, then map it; a payload that does not parse errors the stream. */
  function AfterPayloadText(prior: seq<Event>, payload: string, parse: string -> Option<Value>, fallback: nat -> string): (r: Progress)
    ensures prior <= r.events
    ensures NoFinish(prior) ==> NoFinish(r.events)
    ensures parse(payload).None? ==> r == Progress(prior, Some(SyntaxError(payload)))
  {
    match parse(payload)
    case None => Progress(prior, Some(SyntaxError(payload)))
    case Some(chunk) => AfterPayload(prior, chunk, fallback)
  }

  /** The payloads in order after `prior`, stopping at the first that throws. */
  function AfterPayloads(prior: seq<Event>, payloads: seq<string>, parse: string -> Option<Value>, fallback: nat -> string): (r: Progress)
    ensures prior <= r.events
    ensures NoFinish(prior) ==> NoFinish(r.events)
  {
    if payloads == [] then Progress(prior, None)
    else
      var before := AfterPayloads(prior, AllButLast(payloads), parse, fallback);
      if before.failure.Some? then before
      else AfterPayloadText(before.events, Last(payloads), parse, fallback)
  }

  /** One complete line after `prior`: only a line with a payload does anything. */
  function AfterLine(prior: seq<Event>, line: string, parse: string -> Option<Value>, fallback: nat -> string): (r: Progress)
    ensures LinePayload(line).None? ==> r == Progress(prior, None)
  {
    match LinePayload(line)
    case None => Progress(prior, None)
    case Some(payload) => AfterPayloadText(prior, payload, parse, fallback)
  }

  /** The complete lines in order after `prior`, stopping at the first that throws. */
  function AfterLines(prior: seq<Event>, lines: seq<string>, parse: string -> Option<Value>, fallback: nat -> string): Progress
  {
    if lines == [] then Progress(prior, None)
    else
      var before := AfterLines(prior, AllButLast(lines), parse, fallback);
      if before.failure.Some? then before
      else AfterLine(before.events, Last(lines), parse, fallback)
  }

  /** The stream's progress and carry-over buffer once the chunks have arrived. */
  datatype RunState = RunState(progress: Progress, buffer: string)

  /** Chunk by chunk: decode, then handle the released lines; nothing more is read after a throw. */
  function AfterChunks(chunks: seq<string>, parse: string -> Option<Value>, fallback: nat -> string): RunState
  {
    if chunks == [] then RunState(Progress([], None), [])
    else
      var before := AfterChunks(AllButLast(chunks), parse, fallback);
      if before.progress.failure.Some? then before
      else
        var step := Step(before.buffer, Last(chunks));
        RunState(AfterLines(before.progress.events, step.lines, parse, fallback), step.buffer)
  }

  /** How the stream ends once the reader is exhausted: a throw errors it, a clean end finishes it. */
  function Outcome(p: Progress, end: ReadEnd): StreamResult
  {
    if p.failure.Some? then StreamResult(p.events, Errored(p.failure.value))
    else if end == ReadError then StreamResult(p.events, Errored(ReadFailure))
    else StreamResult(p.events + [FinishEvent], Closed)
  }

  function StreamOutcome(chunks: seq<string>, end: ReadEnd, parse: string -> Option<Value>, fallback: nat -> string): StreamResult
  {
    Outcome(AfterChunks(chunks, parse, fallback).progress, end)
  }

  /* ---------- The stream, as the adapter runs it ---------- */

  /** The loop over the parts of one payload, enqueueing as it goes. */
  method EmitParts(prior: seq<Event>, parts: seq<Value>, fallback: nat -> string) returns (events: seq<Event>, failure: Option<StreamError>)
    ensures Progress(events, failure) == AfterParts(prior, parts, fallback)
  {
    events, failure := prior, None;
    var i := 0;
    while i < |parts|
      invariant 0 <= i <= |parts|
      invariant AfterParts(prior, parts[..i], fallback) == Progress(events, None)
    {
      var part := parts[i];
      assert AllButLast(parts[..i + 1]) == parts[..i] && Last(parts[..i + 1]) == part;
      if IsNullish(part) {
        failure := Some(TypeError("read part.text"));
        PartsFailureSticks(prior, parts, i + 1, fallback);
        return;
      }
      var pos := |events|;
      var text := Get(part, "text");
      if Truthy(text) {
        events := events + [TextDelta(text)];
      }
      var call := Get(part, "functionCall");
      if Truthy(call) {
        var id := Get(call, "id");
        var callId := if Truthy(id) then id else Str(fallback(|events|));
        events := events + [ToolCall(callId, Get(call, "name"), Get(call, "args"))];
      }
      assert events == AfterParts(prior, parts[..i], fallback).events + PartEvents(part, pos, fallback).events;
      i := i + 1;
    }
    assert parts[..i] == parts;
  }

  /** One complete line: filter on `data:`, trim, parse, map. */
  method EmitLine(prior: seq<Event>, line: string, parse: string -> Option<Value>, fallback: nat -> string)
    returns (events: seq<Event>, failure: Option<StreamError>)
    ensures Progress(events, failure) == AfterLine(prior, line, parse, fallback)
  {
    events, failure := prior, None;
    if !StartsWith(line, DataPrefix) {
      return;
    }
    var json := Trim(line[|DataPrefix|..]);
    if json == [] {
      return;
    }
    var parsed := parse(json);
    if parsed.None? {
      failure := Some(SyntaxError(json));
      return;
    }
    var chunk := parsed.value;
    if IsNullish(chunk) {
      failure := Some(TypeError("read chunk.response"));
      return;
    }
    var parts := PartsPath(chunk);
    if Truthy(parts) {
      match parts
      case Arr(items) =>
        events, failure := EmitParts(prior, items, fallback);
      case Str(_) =>
        // Iterating a string visits one-character strings, which have neither `text` nor `functionCall`.
      case _ =>
        failure := Some(TypeError("iterate parts"));
    }
  }

  /** The loop over the complete lines one chunk released. */
  method EmitLines(prior: seq<Event>, lines: seq<string>, parse: string -> Option<Value>, fallback: nat -> string)
    returns (events: seq<Event>, failure: Option<StreamError>)
    ensures Progress(events, failure) == AfterLines(prior, lines, parse, fallback)
  {
    events, failure := prior, None;
    var i := 0;
    while i < |lines|
      invariant 0 <= i <= |lines|
      invariant AfterLines(prior, lines[..i], parse, fallback) == Progress(events, None)
      invariant failure.None?
    {
      assert AllButLast(lines[..i + 1]) == lines[..i] && Last(lines[..i + 1]) == lines[i];
      events, failure := EmitLine(events, lines[i], parse, fallback);
      if failure.Some? {
        LinesFailureSticks(prior, lines, i + 1, parse, fallback);
        return;
      }
      i := i + 1;
    }
    assert lines[..i] == lines;
  }

  /**
   * The stream's `start`: read chunks until the reader is done, keeping the
   * carry-over buffer; enqueue the events of every complete line; on a
   * clean end enqueue one `finish`; on any throw error the stream instead.
   */
  method RunStream(chunks: seq<string>, end: ReadEnd, parse: string -> Option<Value>, fallback: nat -> string)
    returns (r: StreamResult)
    ensures r == StreamOutcome(chunks, end, parse, fallback)
  {
    var buffer: string := [];
    var events: seq<Event> := [];
    var k := 0;
    while k < |chunks|
      invariant 0 <= k <= |chunks|
      invariant AfterChunks(chunks[..k], parse, fallback) == RunState(Progress(events, None), buffer)
    {
      assert AllButLast(chunks[..k + 1]) == chunks[..k] && Last(chunks[..k + 1]) == chunks[k];
      ghost var step := Step(buffer, chunks[k]);
      buffer := buffer + chunks[k];
      var lines := SplitLines(buffer);
      buffer := lines[|lines| - 1];
      lines := lines[..|lines| - 1];
      assert lines == step.lines && buffer == step.buffer;
      var failure;
      events, failure := EmitLines(events, lines, parse, fallback);
      if failure.Some? {
        ChunksFailureSticks(chunks, k + 1, parse, fallback);
        return StreamResult(events, Errored(failure.value));
      }
      k := k + 1;
    }
    assert chunks[..k] == chunks;
    if end == ReadError {
      r := StreamResult(events, Errored(ReadFailure));
    } else {
      r := StreamResult(events + [FinishEvent], Closed);
    }
  }

  /** The message of the upfront error: `Antigravity error (<status>): <body>`. */
  function HttpErrorMessage(status: nat, body: string): (m: string)
    ensures var code := NatToString(status);
      && |"Antigravity error ("| + |code| <= |m|
      && m[|"Antigravity error ("|..|"Antigravity error ("| + |code|] == code
      && |body| <= |m| && m[|m| - |body|..] == body
  {
    "Antigravity error (" + NatToString(status) + "): " + body
  }

  /**
   * `doStream`: the prompt is translated first; a non-OK response fails
   * with its status and body before any stream exists; otherwise the
   * stream runs over the response's chunks. `settings` is what remains of
   * the call options once `messages` and `stopSequences` are taken out.
   */
  method DoStream(messages: seq<Message>, settings: map<string, Value>, response: Response, parse: string -> Option<Value>, fallback: nat -> string)
    returns (r: Result<StreamCall, CallError>)
    ensures Translate(messages).Failure? ==> r == Failure(PromptNotTranslatable(Translate(messages).error))
    ensures Translate(messages).Success? && !response.ok ==>
      r == Failure(RequestFailed(HttpErrorMessage(response.status, response.bodyText)))
    ensures Translate(messages).Success? && response.ok ==>
      r == Success(StreamCall(Translate(messages).value, StreamOutcome(response.chunks, response.end, parse, fallback), messages, settings))
  {
    var contents := Translate(messages);
    if contents.Failure? {
      return Failure(PromptNotTranslatable(contents.error));
    }
    if !response.ok {
      return Failure(RequestFailed(HttpErrorMessage(response.status, response.bodyText)));
    }
    var stream := RunStream(response.chunks, response.end, parse, fallback);
    r := Success(StreamCall(contents.value, stream, messages, settings));
  }

  /** `doGenerate` is not implemented: it always fails, pointing to streaming. */
  function DoGenerate(messages: seq<Message>): (r: Result<StreamCall, CallError>)
    ensures r == Failure(Unsupported("Not implemented. Use doStream."))
  {
    Failure(Unsupported("Not implemented. Use doStream."))
  }

  /* ---------- Properties of the stream ---------- */

  /** Once a prefix of the parts has thrown, the remaining parts are never visited. */
  lemma {:induction false} PartsFailureSticks(prior: seq<Event>, parts: seq<Value>, n: nat, fallback: nat -> string)
    requires n <= |parts| && AfterParts(prior, parts[..n], fallback).failure.Some?
    ensures AfterParts(prior, parts, fallback) == AfterParts(prior, parts[..n], fallback)
  {
    if n < |parts| {
      assert AllButLast(parts)[..n] == parts[..n];
      PartsFailureSticks(prior, AllButLast(parts), n, fallback);
    } else {
      assert parts[..n] == parts;
    }
  }

  /** Once a prefix of the lines has thrown, the remaining lines are never handled. */
  lemma {:induction false} LinesFailureSticks(prior: seq<Event>, lines: seq<string>, n: nat, parse: string -> Option<Value>, fallback: nat -> string)
    requires n <= |lines| && AfterLines(prior, lines[..n], parse, fallback).failure.Some?
    ensures AfterLines(prior, lines, parse, fallback) == AfterLines(prior, lines[..n], parse, fallback)
  {
    if n < |lines| {
      assert AllButLast(lines)[..n] == lines[..n];
      LinesFailureSticks(prior, AllButLast(lines), n, parse, fallback);
    } else {
      assert lines[..n] == lines;
    }
  }

  /** Once the handling of a prefix of the chunks has thrown, no further chunk is read. */
  lemma {:induction false} ChunksFailureSticks(chunks: seq<string>, n: nat, parse: string -> Option<Value>, fallback: nat -> string)
    requires n <= |chunks| && AfterChunks(chunks[..n], parse, fallback).progress.failure.Some?
    ensures AfterChunks(chunks, parse, fallback) == AfterChunks(chunks[..n], parse, fallback)
  {
    if n < |chunks| {
      assert AllButLast(chunks)[..n] == chunks[..n];
      ChunksFailureSticks(AllButLast(chunks), n, parse, fallback);
    } else {
      assert chunks[..n] == chunks;
    }
  }

  /** Handling lines one after another is handling their concatenation. */
  lemma {:induction false} AfterLinesAppend(prior: seq<Event>, a: seq<string>, b: seq<string>, parse: string -> Option<Value>, fallback: nat -> string)
    ensures var first := AfterLines(prior, a, parse, fallback);
      AfterLines(prior, a + b, parse, fallback)
        == if first.failure.Some? then first else AfterLines(first.events, b, parse, fallback)
  {
    if b == [] {
      assert a + b == a;
    } else {
      assert AllButLast(a + b) == a + AllButLast(b) && Last(a + b) == Last(b);
      AfterLinesAppend(prior, a, AllButLast(b), parse, fallback);
    }
  }

  /** Handling lines is handling their payloads: a line without one does nothing. */
  lemma {:induction false} LinesArePayloads(prior: seq<Event>, lines: seq<string>, parse: string -> Option<Value>, fallback: nat -> string)
    ensures AfterLines(prior, lines, parse, fallback) == AfterPayloads(prior, Payloads(lines), parse, fallback)
  {
    if lines != [] {
      LinesArePayloads(prior, AllButLast(lines), parse, fallback);
      var ps := Payloads(AllButLast(lines));
      match LinePayload(Last(lines))
      case None =>
      case Some(p) =>
        assert AllButLast(ps + [p]) == ps && Last(ps + [p]) == p;
    }
  }

  /**
   * Chunk by chunk, the stream handles exactly the complete lines of the
   * whole input, and while nothing has thrown its buffer is the input's
   * unterminated tail.
   */
  lemma {:induction false} AfterChunksIsWhole(chunks: seq<string>, parse: string -> Option<Value>, fallback: nat -> string)
    ensures AfterChunks(chunks, parse, fallback).progress == AfterLines([], CompleteLines(Concat(chunks)), parse, fallback)
    ensures AfterChunks(chunks, parse, fallback).progress.failure.None? ==>
      AfterChunks(chunks, parse, fallback).buffer == Leftover(Concat(chunks))
  {
    if chunks == [] {
      assert SplitLines([]) == [[]];
    } else {
      var init := AllButLast(chunks);
      AfterChunksIsWhole(init, parse, fallback);
      var text := Concat(init);
      StepExtends(text, Last(chunks));
      var step := Step(Leftover(text), Last(chunks));
      AfterLinesAppend([], CompleteLines(text), step.lines, parse, fallback);
      var before := AfterChunks(init, parse, fallback);
      if before.progress.failure.Some? {
        assert AfterLines([], CompleteLines(text) + step.lines, parse, fallback) == before.progress;
      }
    }
  }

  /**
   * Chunking invariance of the whole stream: the events and the way the
   * stream ends depend only on the payloads of the complete lines of the
   * concatenated input, never on where the chunk boundaries fall.
   */
  lemma StreamDependsOnlyOnPayloads(chunks: seq<string>, end: ReadEnd, parse: string -> Option<Value>, fallback: nat -> string)
    ensures StreamOutcome(chunks, end, parse, fallback)
         == Outcome(AfterPayloads([], Payloads(CompleteLines(Concat(chunks))), parse, fallback), end)
  {
    AfterChunksIsWhole(chunks, parse, fallback);
    LinesArePayloads([], CompleteLines(Concat(chunks)), parse, fallback);
  }

  lemma StreamChunkingInvariance(c1: seq<string>, c2: seq<string>, end: ReadEnd, parse: string -> Option<Value>, fallback: nat -> string)
    requires Concat(c1) == Concat(c2)
    ensures StreamOutcome(c1, end, parse, fallback) == StreamOutcome(c2, end, parse, fallback)
  {
    StreamDependsOnlyOnPayloads(c1, end, parse, fallback);
    StreamDependsOnlyOnPayloads(c2, end, parse, fallback);
  }

  /**
   * A stream is closed exactly when nothing threw and the reader ended
   * cleanly; then its one `finish` event, with reason `stop` and zero
   * usage, comes after every other event. An errored stream has no `finish`.
   */
  lemma {:induction false} ExactlyOneFinishOrError(chunks: seq<string>, end: ReadEnd, parse: string -> Option<Value>, fallback: nat -> string)
    ensures var r := StreamOutcome(chunks, end, parse, fallback);
      && (r.end.Closed? <==> AfterChunks(chunks, parse, fallback).progress.failure.None? && end == Done)
      && (r.end.Closed? ==> |r.events| >= 1 && Last(r.events) == FinishEvent && NoFinish(AllButLast(r.events)))
      && (r.end.Errored? ==> NoFinish(r.events))
  {
    AfterChunksNoFinish(chunks, parse, fallback);
    var p := AfterChunks(chunks, parse, fallback).progress;
    assert AllButLast(p.events + [FinishEvent]) == p.events;
  }

  lemma {:induction false} AfterLinesNoFinish(prior: seq<Event>, lines: seq<string>, parse: string -> Option<Value>, fallback: nat -> string)
    requires NoFinish(prior)
    ensures NoFinish(AfterLines(prior, lines, parse, fallback).events)
  {
    if lines != [] {
      AfterLinesNoFinish(prior, AllButLast(lines), parse, fallback);
    }
  }

  lemma {:induction false} AfterChunksNoFinish(chunks: seq<string>, parse: string -> Option<Value>, fallback: nat -> string)
    ensures NoFinish(AfterChunks(chunks, parse, fallback).progress.events)
  {
    if chunks != [] {
      var before := AfterChunks(AllButLast(chunks), parse, fallback);
      AfterChunksNoFinish(AllButLast(chunks), parse, fallback);
      if before.progress.failure.None? {
        AfterLinesNoFinish(before.progress.events, Step(before.buffer, Last(chunks)).lines, parse, fallback);
      }
    }
  }

  /**
   * A payload that does not parse ends the stream: the events are those of
   * the payloads before it, no later payload is mapped, and there is no
   * `finish`.
   */
  lemma BadPayloadErrorsStream(before: seq<string>, bad: string, after: seq<string>, parse: string -> Option<Value>, fallback: nat -> string)
    requires AfterPayloads([], before, parse, fallback).failure.None?
    requires parse(bad).None?
    ensures AfterPayloads([], before + [bad] + after, parse, fallback)
         == Progress(AfterPayloads([], before, parse, fallback).events, Some(SyntaxError(bad)))
  {
    var ps := before + [bad];
    assert AllButLast(ps) == before && Last(ps) == bad;
    PayloadsFailureSticks(ps + after, |ps|, parse, fallback);
    assert (ps + after)[..|ps|] == ps;
  }

  lemma {:induction false} PayloadsFailureSticks(payloads: seq<string>, n: nat, parse: string -> Option<Value>, fallback: nat -> string)
    requires n <= |payloads| && AfterPayloads([], payloads[..n], parse, fallback).failure.Some?
    ensures AfterPayloads([], payloads, parse, fallback) == AfterPayloads([], payloads[..n], parse, fallback)
  {
    if n < |payloads| {
      assert AllButLast(payloads)[..n] == payloads[..n];
      PayloadsFailureSticks(AllButLast(payloads), n, parse, fallback);
    } else {
      assert payloads[..n] == payloads;
    }
  }

  /** The truthy texts of the parts of a parsed payload; none for a payload that does not parse. */
  function ParsedTexts(parsed: Option<Value>): seq<Value>
  {
    if parsed.Some? then TruthyTexts(VisitedParts(parsed.value)) else []
  }

  /** The truthy texts of the parts of every payload that parses, payload after payload. */
  function PayloadTexts(payloads: seq<string>, parse: string -> Option<Value>): seq<Value>
  {
    if payloads == [] then []
    else PayloadTexts(AllButLast(payloads), parse) + ParsedTexts(parse(Last(payloads)))
  }

  lemma PayloadTextsDeltas(prior: seq<Event>, chunk: Value, fallback: nat -> string)
    requires AfterPayload(prior, chunk, fallback).failure.None?
    ensures Texts(AfterPayload(prior, chunk, fallback).events) == Texts(prior) + TruthyTexts(VisitedParts(chunk))
  {
    if !IsNullish(chunk) && Truthy(PartsPath(chunk)) && PartsPath(chunk).Arr? {
      TextDeltasFollowParts(prior, PartsPath(chunk).items, fallback);
    } else {
      assert TruthyTexts([]) == [];
    }
  }

  /**
   * Across payloads, as long as nothing throws, the text deltas carry
   * exactly the truthy texts of the parts in arrival order: two payloads
   * with one text each give two separate deltas, never one merged one.
   */
  lemma {:induction false} StreamTextsInArrivalOrder(prior: seq<Event>, payloads: seq<string>, parse: string -> Option<Value>, fallback: nat -> string)
    requires AfterPayloads(prior, payloads, parse, fallback).failure.None?
    ensures Texts(AfterPayloads(prior, payloads, parse, fallback).events) == Texts(prior) + PayloadTexts(payloads, parse)
  {
    if payloads != [] {
      var init, last := AllButLast(payloads), Last(payloads);
      var before := AfterPayloads(prior, init, parse, fallback);
      assert before.failure.None?;
      StreamTextsInArrivalOrder(prior, init, parse, fallback);
      var parsed := parse(last);
      if parsed.Some? {
        assert AfterPayloads(prior, payloads, parse, fallback) == AfterPayload(before.events, parsed.value, fallback);
        PayloadTextsDeltas(before.events, parsed.value, fallback);
      }
    }
  }
}
