/**
 * The server-sent-event line decoder of the Antigravity stream: a carry-over
 * buffer that every chunk is appended to, split on "\n", its last segment
 * kept back, and a filter that turns complete `data:` lines into payloads.
 */
module SseDecoder {
  import opened Wrappers
  import opened Text

  const DataPrefix: string := "data:"

  /** The complete lines one chunk releases and the new carry-over buffer. */
  datatype Decoded = Decoded(lines: seq<string>, buffer: string)

  /**
   * One chunk arrives: `buffer += chunk; lines = buffer.split("\n");
   * buffer = lines.pop()`. The new buffer holds no newline, neither does any
   * released line, and the released lines followed by the buffer, joined by
   * newlines, are exactly the old buffer followed by the chunk.
   */
  function Step(buffer: string, chunk: string): (r: Decoded)
    ensures Newline !in r.buffer
    ensures forall i :: 0 <= i < |r.lines| ==> Newline !in r.lines[i]
    ensures JoinLines(r.lines + [r.buffer]) == buffer + chunk
  {
    var segments := SplitLines(buffer + chunk);
    JoinSplit(buffer + chunk);
    assert segments == AllButLast(segments) + [Last(segments)];
    Decoded(AllButLast(segments), Last(segments))
  }

  /** All chunks glued together, as they would arrive in one piece. */
  function Concat(chunks: seq<string>): string
  {
    if chunks == [] then [] else Concat(AllButLast(chunks)) + Last(chunks)
  }

  /** The lines released while the chunks arrive one by one, and the buffer left at the end. */
  function DecodeChunks(chunks: seq<string>): Decoded
  {
    if chunks == [] then Decoded([], [])
    else
      var before := DecodeChunks(AllButLast(chunks));
      var step := Step(before.buffer, Last(chunks));
      Decoded(before.lines + step.lines, step.buffer)
  }

  /** The newline-terminated lines of a text: every segment but the last. */
  function CompleteLines(s: string): seq<string>
  {
    AllButLast(SplitLines(s))
  }

  /** What stays in the buffer once a text has been read: its last segment. */
  function Leftover(s: string): string
  {
    Last(SplitLines(s))
  }

  /** Reading more input: the complete lines so far, then those of the leftover followed by the addition. */
  lemma SplitExtends(x: string, y: string)
    ensures CompleteLines(x + y) == CompleteLines(x) + CompleteLines(Leftover(x) + y)
    ensures Leftover(x + y) == Leftover(Leftover(x) + y)
  {
    var sx, sy := SplitLines(x), SplitLines(y);
    var glued := [Last(sx) + sy[0]] + sy[1..];
    SplitAppend(x, y);
    SplitAfterHead(Last(sx), y);
    assert SplitLines(x + y) == AllButLast(sx) + glued;
    assert SplitLines(Leftover(x) + y) == glued;
    assert AllButLast(AllButLast(sx) + glued) == AllButLast(sx) + AllButLast(glued);
    assert Last(AllButLast(sx) + glued) == Last(glued);
  }

  /** Appending to a text completes its lines, then the leftover and the addition are split together. */
  lemma StepExtends(x: string, y: string)
    ensures CompleteLines(x + y) == CompleteLines(x) + Step(Leftover(x), y).lines
    ensures Leftover(x + y) == Step(Leftover(x), y).buffer
  {
    SplitExtends(x, y);
  }

  /**
   * Chunking invariance: however the input is cut into chunks, the lines
   * released are the complete lines of the whole input and the buffer left
   * at the end is its last, unterminated segment.
   */
  lemma {:induction false} DecodeChunksIsSplit(chunks: seq<string>)
    ensures DecodeChunks(chunks) == Decoded(CompleteLines(Concat(chunks)), Leftover(Concat(chunks)))
  {
    if chunks != [] {
      DecodeChunksIsSplit(AllButLast(chunks));
      StepExtends(Concat(AllButLast(chunks)), Last(chunks));
    }
  }

  /** Two ways of cutting the same input into chunks release the same lines and leave the same buffer. */
  lemma ChunkingInvariance(c1: seq<string>, c2: seq<string>)
    requires Concat(c1) == Concat(c2)
    ensures DecodeChunks(c1) == DecodeChunks(c2)
  {
    DecodeChunksIsSplit(c1);
    DecodeChunksIsSplit(c2);
  }

  /**
   * A trailing fragment without a newline never completes a line: it only
   * lengthens the leftover, which is discarded at the end of input.
   */
  lemma TrailingFragmentNeverReleased(s: string, t: string)
    requires Newline !in t
    ensures CompleteLines(s + t) == CompleteLines(s)
    ensures Leftover(s + t) == Leftover(s) + t
  {
    SplitAppend(s, t);
    SplitNoNewline(t);
  }

  /**
   * The payload of one complete line: present exactly when the line starts
   * with `data:` and something other than whitespace follows; it is then
   * the rest of the line with surrounding whitespace trimmed.
   */
  function LinePayload(line: string): (r: Option<string>)
    ensures r.Some? <==> StartsWith(line, DataPrefix) && !AllWhitespace(line[|DataPrefix|..])
    ensures r.Some? ==> r.value != [] && r.value == Trim(line[|DataPrefix|..])
  {
    if !StartsWith(line, DataPrefix) then None
    else
      var json := Trim(line[|DataPrefix|..]);
      if json == [] then None else Some(json)
  }

  /** The payloads of a sequence of lines, in line order. */
  function Payloads(lines: seq<string>): (r: seq<string>)
    ensures |r| <= |lines|
    ensures forall k :: 0 <= k < |r| ==> r[k] != []
  {
    if lines == [] then []
    else match LinePayload(Last(lines))
      case None => Payloads(AllButLast(lines))
      case Some(p) => Payloads(AllButLast(lines)) + [p]
  }

  /** Payload extraction works line by line, so it distributes over concatenation. */
  lemma {:induction false} PayloadsAppend(a: seq<string>, b: seq<string>)
    ensures Payloads(a + b) == Payloads(a) + Payloads(b)
  {
    if b != [] {
      assert AllButLast(a + b) == a + AllButLast(b);
      assert Last(a + b) == Last(b);
      PayloadsAppend(a, AllButLast(b));
    } else {
      assert a + b == a;
    }
  }

  /** Lines that do not start with `data:` contribute no payload. */
  lemma {:induction false} NonDataLinesIgnored(lines: seq<string>)
    requires forall i :: 0 <= i < |lines| ==> !StartsWith(lines[i], DataPrefix)
    ensures Payloads(lines) == []
  {
    if lines != [] {
      NonDataLinesIgnored(AllButLast(lines));
    }
  }
}
