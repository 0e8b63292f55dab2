// Client::extractNextLine and Server::processClientBuffer: cutting the byte
// stream of one connection into lines (section 2.3 of RFC 2812).
module Framing {
  import opened Results

  const MAX_LINE: nat := 512            // a complete line with its terminator
  const MAX_INPUT_BUFFER: nat := 8192
  const RECEIVE_BUFFER_SIZE: nat := 4096

  /** Position of the first LF, or the length when there is none. */
  function FirstLF(text: string): (n: nat)
    ensures n <= |text|
    ensures n < |text| ==> text[n] == '\n'
    ensures '\n' !in text[..n]
  {
    if text == "" || text[0] == '\n' then 0 else 1 + FirstLF(text[1..])
  }

  /** The content of a line that ended in LF: one CR before it is dropped. */
  function StripCR(text: string): string {
    if text != "" && text[|text| - 1] == '\r' then text[..|text| - 1] else text
  }

  /** A line ends in CR LF or in LF alone: one CR goes with it, and nothing else. */
  lemma StripsOneCR(text: string)
    ensures StripCR(text + "\r") == text
    ensures (text == "" || text[|text| - 1] != '\r') ==> StripCR(text) == text
  {
  }

  datatype LineRead =
    | Incomplete
    | Complete(line: string, rest: string)
    | TooLong(rest: string)

  /** The specification of Client::extractNextLine on a buffer. */
  function ExtractNext(buffer: string): LineRead {
    var n := FirstLF(buffer);
    if n == |buffer| then
      if |buffer| > MAX_LINE - 1 then TooLong("") else Incomplete
    else if n + 1 > MAX_LINE then TooLong(buffer[n + 1..])
    else Complete(StripCR(buffer[..n]), buffer[n + 1..])
  }

  // ------------------------------------------------------------------
  // The connection as a reader of chunks
  // ------------------------------------------------------------------

  datatype Cause = LineTooLong | BufferOverflow | Requested

  datatype Reader =
    | Open(buffer: string, lines: seq<string>)
    | Closed(lines: seq<string>, cause: Cause)

  /**
   * Whether the connection has asked to be closed once these lines have been
   * dispatched: a QUIT, a dispatch error, a full output buffer, ...
   */
  type Quits = seq<string> -> bool

  function NeverQuits(): Quits {
    lines => false
  }

  /** The loop of Server::processClientBuffer. */
  function Drain(buffer: string, lines: seq<string>, quits: Quits): Reader
    decreases |buffer|
  {
    match ExtractNext(buffer)
    case Incomplete => Open(buffer, lines)
    case TooLong(_) => Closed(lines, LineTooLong)
    case Complete(line, rest) =>
      if line == "" then Drain(rest, lines, quits)
      else if quits(lines + [line]) then Closed(lines + [line], Requested)
      else Drain(rest, lines + [line], quits)
  }

  /** One successful recv, as Server::receiveClientData handles it. */
  function Receive(r: Reader, chunk: string, quits: Quits): Reader {
    match r
    case Closed(_, _) => r
    case Open(buffer, lines) =>
      if |buffer| + |chunk| > MAX_INPUT_BUFFER then Closed(lines, BufferOverflow)
      else Drain(buffer + chunk, lines, quits)
  }

  function ReceiveAll(r: Reader, chunks: seq<string>, quits: Quits): Reader
    decreases |chunks|
  {
    if chunks == [] then r else ReceiveAll(Receive(r, chunks[0], quits), chunks[1..], quits)
  }

  // ------------------------------------------------------------------
  // The reference splitter, which sees the whole stream
  // ------------------------------------------------------------------

  /** The pieces that end in LF, without it. */
  function Segments(stream: string): seq<string>
    decreases |stream|
  {
    var n := FirstLF(stream);
    if n == |stream| then [] else [stream[..n]] + Segments(stream[n + 1..])
  }

  /** What follows the last LF. */
  function Tail(stream: string): string
    decreases |stream|
  {
    var n := FirstLF(stream);
    if n == |stream| then stream else Tail(stream[n + 1..])
  }

  /** Deliver the non-empty segments in order until one has 512 bytes or more. */
  function Judge(segments: seq<string>, tail: string, lines: seq<string>, quits: Quits): Reader {
    if segments == [] then
      if |tail| >= MAX_LINE then Closed(lines, LineTooLong) else Open(tail, lines)
    else if |segments[0]| >= MAX_LINE then Closed(lines, LineTooLong)
    else
      var line := StripCR(segments[0]);
      if line == "" then Judge(segments[1..], tail, lines, quits)
      else if quits(lines + [line]) then Closed(lines + [line], Requested)
      else Judge(segments[1..], tail, lines + [line], quits)
  }

  function Split(stream: string, quits: Quits): Reader {
    Judge(Segments(stream), Tail(stream), [], quits)
  }

  // ------------------------------------------------------------------
  // Chunk independence
  // ------------------------------------------------------------------

  /** What a connection holds between two reads. */
  predicate Idle(buffer: string) {
    '\n' !in buffer && |buffer| < MAX_LINE
  }

  lemma {:induction false} DrainIsJudge(buffer: string, lines: seq<string>, quits: Quits)
    ensures Drain(buffer, lines, quits) == Judge(Segments(buffer), Tail(buffer), lines, quits)
    decreases |buffer|
  {
    var n := FirstLF(buffer);
    if n < |buffer| {
      var rest := buffer[n + 1..];
      assert Segments(buffer)[1..] == Segments(rest);
      DrainIsJudge(rest, lines, quits);
      DrainIsJudge(rest, lines + [StripCR(buffer[..n])], quits);
    }
  }

  lemma {:induction false} DrainIdle(buffer: string, lines: seq<string>, quits: Quits)
    ensures var r := Drain(buffer, lines, quits);
            match r
            case Open(pending, _) => Idle(pending)
            case Closed(_, cause) => cause != BufferOverflow
    decreases |buffer|
  {
    match ExtractNext(buffer)
    case Incomplete =>
      assert buffer[..|buffer|] == buffer;
    case TooLong(_) =>
    case Complete(line, rest) =>
      DrainIdle(rest, lines, quits);
      DrainIdle(rest, lines + [line], quits);
  }

  lemma {:induction false} FirstLFConcat(a: string, b: string)
    ensures FirstLF(a + b) == if FirstLF(a) < |a| then FirstLF(a) else |a| + FirstLF(b)
  {
    if a == "" {
      assert a + b == b;
    } else {
      assert (a + b)[1..] == a[1..] + b;
      FirstLFConcat(a[1..], b);
    }
  }

  /** Draining a prefix first and the rest later is draining everything at once. */
  lemma {:induction false} DrainConcat(a: string, b: string, lines: seq<string>, quits: Quits)
    ensures Drain(a + b, lines, quits) ==
            match Drain(a, lines, quits)
            case Closed(_, _) => Drain(a, lines, quits)
            case Open(pending, delivered) => Drain(pending + b, delivered, quits)
    decreases |a|
  {
    hide FirstLF, StripCR;
    FirstLFConcat(a, b);
    var n := FirstLF(a);
    if n < |a| {
      assert (a + b)[..n] == a[..n];
      assert (a + b)[n + 1..] == a[n + 1..] + b;
      DrainConcat(a[n + 1..], b, lines, quits);
      DrainConcat(a[n + 1..], b, lines + [StripCR(a[..n])], quits);
    }
  }

  lemma ReceiveOneOf(buffer: string, lines: seq<string>, chunk: string, rest: string, quits: Quits)
    requires Idle(buffer)
    requires |chunk| <= RECEIVE_BUFFER_SIZE
    ensures var r := Receive(Open(buffer, lines), chunk, quits);
            && (r.Open? ==> Idle(r.buffer))
            && Drain(buffer + (chunk + rest), lines, quits) ==
                 (if r.Open? then Drain(r.buffer + rest, r.lines, quits) else r)
  {
    DrainIdle(buffer + chunk, lines, quits);
    DrainConcat(buffer + chunk, rest, lines, quits);
    assert buffer + chunk + rest == buffer + (chunk + rest);
  }

  lemma {:induction false} ReceiveAllIsDrain(buffer: string, lines: seq<string>, chunks: seq<string>, quits: Quits)
    requires Idle(buffer)
    requires forall c :: c in chunks ==> |c| <= RECEIVE_BUFFER_SIZE
    ensures ReceiveAll(Open(buffer, lines), chunks, quits) == Drain(buffer + Flatten(chunks), lines, quits)
    decreases |chunks|
  {
    if chunks == [] {
      assert buffer + "" == buffer;
      assert FirstLF(buffer) == |buffer|;
    } else {
      ReceiveOneOf(buffer, lines, chunks[0], Flatten(chunks[1..]), quits);
      var r := Receive(Open(buffer, lines), chunks[0], quits);
      if r.Open? {
        ReceiveAllIsDrain(r.buffer, r.lines, chunks[1..], quits);
      } else {
        ClosedStaysClosed(r, chunks[1..], quits);
      }
    }
  }

  lemma {:induction false} ClosedStaysClosed(r: Reader, chunks: seq<string>, quits: Quits)
    requires r.Closed?
    ensures ReceiveAll(r, chunks, quits) == r
    decreases |chunks|
  {
    if chunks != [] {
      ClosedStaysClosed(r, chunks[1..], quits);
    }
  }

  /**
   * However TCP cut the stream into reads, the delivered lines, the verdict and
   * the pending residue are those of the splitter that sees the whole stream.
   * In particular the 511-byte limit on pending data and the 512-byte limit on
   * complete lines never disagree, and the overflow branch never fires.
   */
  lemma ChunkIndependence(chunks: seq<string>, quits: Quits)
    requires forall c :: c in chunks ==> |c| <= RECEIVE_BUFFER_SIZE
    ensures var r := ReceiveAll(Open("", []), chunks, quits);
            && r == Split(Flatten(chunks), quits)
            && (r.Open? ==> Idle(r.buffer))
            && (r.Closed? ==> r.cause != BufferOverflow)
  {
    ReceiveAllIsDrain("", [], chunks, quits);
    assert "" + Flatten(chunks) == Flatten(chunks);
    DrainIsJudge(Flatten(chunks), [], quits);
    DrainIdle(Flatten(chunks), [], quits);
  }

  // ------------------------------------------------------------------
  // Stopping early
  // ------------------------------------------------------------------

  function LinesRead(r: Reader): seq<string> {
    match r
    case Open(_, lines) => lines
    case Closed(lines, _) => lines
  }

  lemma {:induction false} DrainOnlyAdds(buffer: string, lines: seq<string>, quits: Quits)
    ensures lines <= LinesRead(Drain(buffer, lines, quits))
    decreases |buffer|
  {
    match ExtractNext(buffer)
    case Incomplete =>
    case TooLong(_) =>
    case Complete(line, rest) =>
      DrainOnlyAdds(rest, lines, quits);
      DrainOnlyAdds(rest, lines + [line], quits);
  }

  /** Whoever asks to close earlier has had a prefix of the lines. */
  lemma {:induction false} QuittingCutsShort(buffer: string, lines: seq<string>, quits: Quits)
    ensures LinesRead(Drain(buffer, lines, quits)) <= LinesRead(Drain(buffer, lines, NeverQuits()))
    decreases |buffer|
  {
    match ExtractNext(buffer)
    case Incomplete =>
    case TooLong(_) =>
    case Complete(line, rest) =>
      QuittingCutsShort(rest, lines, quits);
      QuittingCutsShort(rest, lines + [line], quits);
      DrainOnlyAdds(rest, lines + [line], NeverQuits());
  }

  /** A connection that asks to close after exactly these lines, if at all. */
  function QuitsAfter(lines: seq<string>, asked: bool): Quits {
    read => asked && read == lines
  }

  /** Until then it reads as one that never asks. */
  lemma {:induction false} SameUntilAsked(buffer: string, lines: seq<string>, last: seq<string>, asked: bool)
    requires Drain(buffer, lines, NeverQuits()).Open?
    requires asked ==> |LinesRead(Drain(buffer, lines, NeverQuits()))| < |last|
    ensures Drain(buffer, lines, QuitsAfter(last, asked)) == Drain(buffer, lines, NeverQuits())
    decreases |buffer|
  {
    match ExtractNext(buffer)
    case Incomplete =>
    case Complete(line, rest) =>
      var more := if line == "" then lines else lines + [line];
      DrainOnlyAdds(rest, more, NeverQuits());
      SameUntilAsked(rest, more, last, asked);
  }
}
