// What every socket event keeps: the registry invariant, the member replays,
// and the agreement of each connection with the reference splitter.
module ConnectionLaws {
  import opened Results
  import opened Codec
  import opened Framing
  import opened ServerState
  import opened Primitives
  import opened Membership
  import opened Commands
  import opened CommandLaws
  import opened DispatchLaws
  import opened Connection

  // ------------------------------------------------------------------
  // Connections only move forward
  // ------------------------------------------------------------------

  /** What is sent, accepted, received and served only grows, and a closing connection accepts nothing more. */
  ghost predicate Grows(u: User, v: User) {
    && AccountFollows(u.account, v.account)
    && u.out.sent <= v.out.sent
    && u.out.accepted <= v.out.accepted
    && (u.out.closing ==>
          v.out.closing && v.out.reason == u.out.reason && v.out.accepted == u.out.accepted)
    && u.received <= v.received
    && u.lines <= v.lines
  }

  predicate SameInput(u: User, v: User) {
    v.inBuffer == u.inBuffer && v.received == u.received && v.lines == u.lines
  }

  /** The same clients, moving forward; nothing was read from any but `fd`. */
  ghost predicate Evolves(a: State, b: State, fd: int) {
    && b.users.Keys == a.users.Keys && b.order == a.order && b.password == a.password
    && forall id :: id in a.users ==>
         && Grows(a.users[id], b.users[id])
         && (id != fd ==> SameInput(a.users[id], b.users[id]))
  }

  ghost predicate AllMarked(st: State) {
    forall id :: id in st.users && !Virtual(id) ==> Marked(st.users[id])
  }

  /** What every event must preserve. */
  ghost predicate Sound(st: State) {
    Inv(st) && AllMarked(st)
  }

  lemma SoundInv(st: State)
    requires Sound(st)
    ensures Inv(st)
  {
  }

  lemma EvolvesTrans(a: State, b: State, c: State, fd: int)
    requires Evolves(a, b, fd) && Evolves(b, c, fd)
    ensures Evolves(a, c, fd)
  {
  }

  lemma FollowsEvolves(a: State, b: State, fd: int)
    requires Follows(a, b)
    ensures Evolves(a, b, fd)
    ensures fd in a.users ==> SameInput(a.users[fd], b.users[fd])
  {
  }

  lemma EvolvesSelf(st: State, fd: int)
    ensures Evolves(st, st, fd)
  {
  }

  // ------------------------------------------------------------------
  // Reading
  // ------------------------------------------------------------------

  lemma InputUserOk(st: State, fd: int, buffer: string, received: string, lines: seq<string>)
    requires UsersOk(st) && fd in st.users
    ensures UserOk(st.password, fd, st.users[fd].(inBuffer := buffer, received := received, lines := lines))
  {
  }

  lemma InputInv(st: State, fd: int, buffer: string, received: string, lines: seq<string>)
    requires Inv(st) && fd in st.users
    ensures Inv(WithInput(st, fd, buffer, received, lines))
  {
    var v := st.users[fd].(inBuffer := buffer, received := received, lines := lines);
    assert SameIdentity(st.users[fd], v);
    hide UsersOk, Logged, ChansOk, Linked, Indexed, Polled, UserOk;
    InputUserOk(st, fd, buffer, received, lines);
    OneUserOk(st, fd, v);
    OneUserIndexes(st, fd, v);
    OneUserLogs(st, fd, v);
  }

  lemma InputKeeps(st: State, fd: int, buffer: string, received: string, lines: seq<string>)
    requires Sound(st) && fd in st.users
    requires st.users[fd].received <= received && st.users[fd].lines <= lines
    ensures var after := WithInput(st, fd, buffer, received, lines);
            Sound(after) && Evolves(st, after, fd)
  {
    hide Inv;
    InputInv(st, fd, buffer, received, lines);
  }

  lemma RequestSound(st: State, fd: int, reason: string)
    requires Sound(st) && fd in st.users
    ensures var after := WithRequest(st, fd, reason);
            Sound(after) && Evolves(st, after, fd) && after.users[fd].out.closing
  {
    hide Inv, Follows, Evolves;
    RequestSteady(st, fd, reason);
    FollowsEvolves(st, WithRequest(st, fd, reason), fd);
  }

  /** An exception excuses the client's own replay, and then closes its connection. */
  lemma ClosedIsMarked(a: State, b: State, fd: int)
    requires AllMarked(a) && Keeps(a, b, fd) && fd in a.users
    ensures var after := WithRequest(b, fd, "");
            Sound(after) && Evolves(a, after, fd) && SameInput(a.users[fd], after.users[fd])
  {
    hide Inv, Evolves, UserFollows;
    assert fd in b.users;
    hide Follows;
    RequestKeepsInv(b, fd, "");
    var after := WithRequest(b, fd, "");
    FollowsTrans(a, b, after);
    FollowsEvolves(a, after, fd);
    assert after.users[fd].out.closing;
  }

  lemma KeepsSound(a: State, b: State, fd: int)
    requires AllMarked(a) && Keeps(a, b, BOT)
    ensures Sound(b) && Evolves(a, b, fd)
    ensures fd in a.users ==> SameInput(a.users[fd], b.users[fd])
  {
  }

  lemma ServeLineSound(st: State, fd: int, line: string, answer: BotAnswer)
    requires Sound(st) && fd in st.users && !Virtual(fd)
    ensures var r := ServeLine(st, fd, line, answer);
            Sound(r) && Evolves(st, r, fd) && SameInput(st.users[fd], r.users[fd])
  {
    hide Inv, Keeps, AllMarked, Evolves, Dispatch, Parse, WithRequest;
    match Parse(line)
    case Failure(_) => EvolvesSelf(st, fd);
    case Success(m) =>
      DispatchKeeps(st, fd, m, answer);
      match Dispatch(st, fd, m, answer)
      case Done(st1) => KeepsSound(st, st1, fd);
      case Threw(st1) => ClosedIsMarked(st, st1, fd);
  }

  lemma ServeTakenSound(st: State, fd: int, line: string, rest: string, oracle: Oracle)
    requires Sound(st) && fd in st.users && !Virtual(fd)
    ensures var r := ServeTaken(st, fd, line, rest, oracle);
            && Sound(r) && Evolves(st, r, fd)
            && r.users[fd].inBuffer == rest
            && r.users[fd].received == st.users[fd].received
            && r.users[fd].lines == if line == "" then st.users[fd].lines else st.users[fd].lines + [line]
  {
    hide Inv, AllMarked, Sound, Evolves, ServeLine;
    var u := st.users[fd];
    var st1 := TakeLine(st, fd, line, rest);
    InputKeeps(st, fd, rest, u.received, if line == "" then u.lines else u.lines + [line]);
    if line != "" {
      ServeLineSound(st1, fd, line, oracle(|u.lines|));
      EvolvesTrans(st, st1, ServeLine(st1, fd, line, oracle(|u.lines|)), fd);
    }
  }

  /** What processing an input buffer achieves for its connection. */
  ghost predicate Processed(u: User, v: User, connected: bool) {
    && v.received == u.received
    && (v.out.closing <==> !connected)
    && (connected ==> Drain(u.inBuffer, u.lines, NeverQuits()) == Open(v.inBuffer, v.lines))
  }

  lemma ExtractShrinks(buffer: string)
    ensures ExtractNext(buffer).Complete? ==> |ExtractNext(buffer).rest| < |buffer|
  {
  }

  lemma ProcessStep(st: State, fd: int, oracle: Oracle)
    requires fd in st.users && !st.users[fd].out.closing
    requires ExtractNext(st.users[fd].inBuffer).Complete?
    ensures var taken := ExtractNext(st.users[fd].inBuffer);
            var st1 := ServeTaken(st, fd, taken.line, taken.rest, oracle);
            |st1.users[fd].inBuffer| < |st.users[fd].inBuffer| ==>
              ProcessBuffer(st, fd, oracle) == ProcessBuffer(st1, fd, oracle)
  {
    hide ServeTaken, ExtractNext;
  }

  lemma ProcessLast(st: State, fd: int, oracle: Oracle)
    requires Sound(st) && fd in st.users && !ExtractNext(st.users[fd].inBuffer).Complete?
    ensures var r := ProcessBuffer(st, fd, oracle);
            && Sound(r.st) && Evolves(st, r.st, fd)
            && Processed(st.users[fd], r.st.users[fd], r.connected)
  {
    hide Inv, Sound, Evolves, ServeTaken, ExtractNext, Drain;
    var u := st.users[fd];
    EvolvesSelf(st, fd);
    DrainStops(u.inBuffer, u.lines);
    if ExtractNext(u.inBuffer).TooLong? {
      var rest := ExtractNext(u.inBuffer).rest;
      var st1 := WithInput(st, fd, rest, u.received, u.lines);
      InputKeeps(st, fd, rest, u.received, u.lines);
      RequestSound(st1, fd, "IRC line exceeds maximum length");
      EvolvesTrans(st, st1, WithRequest(st1, fd, "IRC line exceeds maximum length"), fd);
    }
  }

  lemma DrainStops(buffer: string, lines: seq<string>)
    ensures ExtractNext(buffer).Incomplete? ==> Drain(buffer, lines, NeverQuits()) == Open(buffer, lines)
  {
  }

  lemma DrainTakes(buffer: string, lines: seq<string>)
    requires ExtractNext(buffer).Complete?
    ensures var taken := ExtractNext(buffer);
            Drain(buffer, lines, NeverQuits()) ==
            Drain(taken.rest, if taken.line == "" then lines else lines + [taken.line], NeverQuits())
  {
  }

  lemma ClosingIsRefused(st: State, fd: int, oracle: Oracle)
    requires fd in st.users && st.users[fd].out.closing
    ensures ProcessBuffer(st, fd, oracle) == Served(st, false)
  {
  }

  /** Lines are served in order until the buffer holds no complete one or the connection is to close. */
  lemma {:induction false} ProcessBufferSound(st: State, fd: int, oracle: Oracle)
    requires Sound(st) && fd in st.users && !Virtual(fd)
    ensures var r := ProcessBuffer(st, fd, oracle);
            && Sound(r.st) && Evolves(st, r.st, fd)
            && Processed(st.users[fd], r.st.users[fd], r.connected)
    decreases |st.users[fd].inBuffer|
  {
    hide Inv, Sound, Evolves, ServeTaken, ExtractNext, Drain, ProcessBuffer;
    var u := st.users[fd];
    if u.out.closing {
      ClosingIsRefused(st, fd, oracle);
      EvolvesSelf(st, fd);
    } else if !ExtractNext(u.inBuffer).Complete? {
      ProcessLast(st, fd, oracle);
    } else {
      var taken := ExtractNext(u.inBuffer);
      var st1 := ServeTaken(st, fd, taken.line, taken.rest, oracle);
      ExtractShrinks(u.inBuffer);
      ServeTakenSound(st, fd, taken.line, taken.rest, oracle);
      ProcessStep(st, fd, oracle);
      DrainTakes(u.inBuffer, u.lines);
      ProcessBufferSound(st1, fd, oracle);
      EvolvesTrans(st, st1, ProcessBuffer(st1, fd, oracle).st, fd);
    }
  }

  // ------------------------------------------------------------------
  // Why the loop stops
  // ------------------------------------------------------------------

  /** What ended the processing of a buffer, if anything did. */
  ghost function StopCause(st: State, fd: int, oracle: Oracle): Option<Cause>
    requires fd in st.users
    decreases |st.users[fd].inBuffer|
  {
    hide ServeTaken, ExtractNext;
    var u := st.users[fd];
    if u.out.closing then Some(Requested)
    else
      match ExtractNext(u.inBuffer)
      case Incomplete => None
      case TooLong(_) => Some(LineTooLong)
      case Complete(line, rest) =>
        var st1 := ServeTaken(st, fd, line, rest, oracle);
        if |st1.users[fd].inBuffer| < |u.inBuffer| then StopCause(st1, fd, oracle) else None
  }

  /** The connection as a reader of its stream, after a buffer was processed. */
  ghost function Verdict(v: User, cause: Option<Cause>): Reader {
    match cause
    case None => Open(v.inBuffer, v.lines)
    case Some(c) => Closed(v.lines, c)
  }

  /** Lines taken so far, a cause for stopping exactly when disconnected, and a request only after a line. */
  ghost predicate Stopped(u: User, v: User, cause: Option<Cause>, connected: bool) {
    && u.lines <= v.lines
    && (cause.None? <==> connected)
    && (cause == Some(Requested) ==> u.lines < v.lines)
    && cause != Some(BufferOverflow)
  }

  lemma StopStep(st: State, fd: int, oracle: Oracle)
    requires fd in st.users && !st.users[fd].out.closing
    requires ExtractNext(st.users[fd].inBuffer).Complete?
    ensures var taken := ExtractNext(st.users[fd].inBuffer);
            var st1 := ServeTaken(st, fd, taken.line, taken.rest, oracle);
            |st1.users[fd].inBuffer| < |st.users[fd].inBuffer| ==>
              StopCause(st, fd, oracle) == StopCause(st1, fd, oracle)
  {
    hide ServeTaken, ExtractNext;
  }

  lemma EmptyLineAsksNothing(st: State, fd: int, rest: string, oracle: Oracle)
    requires fd in st.users
    ensures ServeTaken(st, fd, "", rest, oracle).users[fd].out == st.users[fd].out
  {
  }

  lemma DrainReads(buffer: string, lines: seq<string>, quits: Quits)
    ensures ExtractNext(buffer).Incomplete? ==> Drain(buffer, lines, quits) == Open(buffer, lines)
    ensures ExtractNext(buffer).TooLong? ==> Drain(buffer, lines, quits) == Closed(lines, LineTooLong)
    ensures ExtractNext(buffer).Complete? ==>
              var taken := ExtractNext(buffer);
              var more := if taken.line == "" then lines else lines + [taken.line];
              Drain(buffer, lines, quits) ==
                if taken.line != "" && quits(more) then Closed(more, Requested)
                else Drain(taken.rest, more, quits)
  {
    hide ExtractNext;
  }

  lemma ProcessEnds(st: State, fd: int, oracle: Oracle)
    requires fd in st.users
    ensures var u := st.users[fd];
            && (u.out.closing ==>
                  && StopCause(st, fd, oracle) == Some(Requested)
                  && ProcessBuffer(st, fd, oracle) == Served(st, false))
            && (!u.out.closing && ExtractNext(u.inBuffer).Incomplete? ==>
                  StopCause(st, fd, oracle) == None && ProcessBuffer(st, fd, oracle) == Served(st, true))
            && (!u.out.closing && ExtractNext(u.inBuffer).TooLong? ==>
                  && StopCause(st, fd, oracle) == Some(LineTooLong)
                  && !ProcessBuffer(st, fd, oracle).connected
                  && ProcessBuffer(st, fd, oracle).st.users[fd].lines == u.lines)
  {
    hide ServeTaken, ExtractNext, Request;
  }

  /** The loop is the framer, told at which line the connection asked to close. */
  ghost predicate ReadsAlike(st: State, fd: int, oracle: Oracle)
    requires fd in st.users
  {
    var u, r, cause := st.users[fd], ProcessBuffer(st, fd, oracle), StopCause(st, fd, oracle);
    var v := r.st.users[fd];
    && Stopped(u, v, cause, r.connected)
    && Drain(u.inBuffer, u.lines, QuitsAfter(v.lines, cause == Some(Requested))) == Verdict(v, cause)
  }

  lemma LastRead(st: State, fd: int, oracle: Oracle)
    requires fd in st.users && !st.users[fd].out.closing
    requires !ExtractNext(st.users[fd].inBuffer).Complete?
    ensures ReadsAlike(st, fd, oracle)
  {
    hide ServeTaken, ExtractNext, Drain, ProcessBuffer, StopCause;
    var u, r, cause := st.users[fd], ProcessBuffer(st, fd, oracle), StopCause(st, fd, oracle);
    DrainReads(u.inBuffer, u.lines, QuitsAfter(r.st.users[fd].lines, cause == Some(Requested)));
    ProcessEnds(st, fd, oracle);
  }

  /** One line more, at the same later stop. */
  lemma OneMoreRead(u: User, u1: User, v: User, line: string, rest: string, cause: Option<Cause>, connected: bool)
    requires ExtractNext(u.inBuffer) == Complete(line, rest)
    requires u1.inBuffer == rest && u1.lines == if line == "" then u.lines else u.lines + [line]
    requires Stopped(u1, v, cause, connected)
    requires Drain(rest, u1.lines, QuitsAfter(v.lines, cause == Some(Requested))) == Verdict(v, cause)
    ensures Stopped(u, v, cause, connected)
    ensures Drain(u.inBuffer, u.lines, QuitsAfter(v.lines, cause == Some(Requested))) == Verdict(v, cause)
  {
    hide ExtractNext, Drain;
    DrainReads(u.inBuffer, u.lines, QuitsAfter(v.lines, cause == Some(Requested)));
  }

  /** The line at which the connection asked to close is the last. */
  lemma LastLineRead(u: User, v: User, line: string, rest: string)
    requires ExtractNext(u.inBuffer) == Complete(line, rest) && line != "" && v.lines == u.lines + [line]
    ensures Stopped(u, v, Some(Requested), false)
    ensures Drain(u.inBuffer, u.lines, QuitsAfter(v.lines, true)) == Verdict(v, Some(Requested))
  {
    hide ExtractNext, Drain;
    DrainReads(u.inBuffer, u.lines, QuitsAfter(v.lines, true));
  }

  /** Same lines, same verdict, same residue. */
  lemma {:induction false} ProcessBufferReads(st: State, fd: int, oracle: Oracle)
    requires Sound(st) && fd in st.users && !Virtual(fd) && !st.users[fd].out.closing
    ensures ReadsAlike(st, fd, oracle)
    decreases |st.users[fd].inBuffer|
  {
    hide Inv, AllMarked, Sound, Evolves, ServeTaken, ExtractNext, Drain, ProcessBuffer, StopCause, Stopped, Verdict;
    var u := st.users[fd];
    if ExtractNext(u.inBuffer).Complete? {
      var taken := ExtractNext(u.inBuffer);
      var st1 := ServeTaken(st, fd, taken.line, taken.rest, oracle);
      ExtractShrinks(u.inBuffer);
      ServeTakenSound(st, fd, taken.line, taken.rest, oracle);
      ProcessStep(st, fd, oracle);
      StopStep(st, fd, oracle);
      var r := ProcessBuffer(st1, fd, oracle);
      if st1.users[fd].out.closing {
        EmptyLineAsksNothing(st, fd, taken.rest, oracle);
        ProcessEnds(st1, fd, oracle);
        LastLineRead(u, st1.users[fd], taken.line, taken.rest);
      } else {
        ProcessBufferReads(st1, fd, oracle);
        OneMoreRead(u, st1.users[fd], r.st.users[fd], taken.line, taken.rest, StopCause(st1, fd, oracle), r.connected);
      }
    } else {
      LastRead(st, fd, oracle);
    }
  }

  // ------------------------------------------------------------------
  // Agreement with the reference splitter
  // ------------------------------------------------------------------

  /** The lines served and the residue are the splitter's, on everything received. */
  ghost predicate Framed(u: User) {
    Split(u.received, NeverQuits()) == Open(u.inBuffer, u.lines)
  }

  ghost predicate AllFramed(st: State) {
    forall id :: id in st.users && !Virtual(id) ==> Framed(st.users[id])
  }

  /** Between reads a connection holds no LF and fewer than 512 bytes. */
  lemma FramedIsIdle(u: User)
    requires Framed(u)
    ensures Idle(u.inBuffer)
  {
    DrainIsJudge(u.received, [], NeverQuits());
    DrainIdle(u.received, [], NeverQuits());
  }

  lemma FramedGrows(u: User, chunk: string, buffer: string, lines: seq<string>)
    requires Framed(u)
    requires Drain(u.inBuffer + chunk, u.lines, NeverQuits()) == Open(buffer, lines)
    ensures Split(u.received + chunk, NeverQuits()) == Open(buffer, lines)
  {
    hide Drain, Segments, Tail, Judge;
    DrainIsJudge(u.received, [], NeverQuits());
    DrainConcat(u.received, chunk, [], NeverQuits());
    DrainIsJudge(u.received + chunk, [], NeverQuits());
  }

  /** The framing of one connection was advanced, or the connection is to close. */
  ghost predicate FramedServed(st: State, r: Served, fd: int)
    requires fd in st.users
  {
    fd in r.st.users && (r.connected ==> Framed(r.st.users[fd])) && (!r.connected ==> r.st.users[fd].out.closing)
  }

  lemma ReceiveBytes(st: State, fd: int, chunk: Chunk, oracle: Oracle)
    requires Sound(st) && fd in st.users && !Virtual(fd) && Framed(st.users[fd])
    ensures var r := ReceiveData(st, fd, Bytes(chunk), oracle);
            && Sound(r.st) && Evolves(st, r.st, fd) && FramedServed(st, r, fd)
            && |st.users[fd].inBuffer| + |chunk| <= MAX_INPUT_BUFFER
  {
    hide Inv, Sound, Evolves, ProcessBuffer, Split, Drain;
    var u := st.users[fd];
    FramedIsIdle(u);
    var st1 := WithInput(st, fd, u.inBuffer + chunk, u.received + chunk, u.lines);
    InputKeeps(st, fd, u.inBuffer + chunk, u.received + chunk, u.lines);
    ProcessBufferSound(st1, fd, oracle);
    var r := ProcessBuffer(st1, fd, oracle);
    EvolvesTrans(st, st1, r.st, fd);
    if r.connected {
      FramedGrows(u, chunk, r.st.users[fd].inBuffer, r.st.users[fd].lines);
    }
  }

  /** Why a recv of these bytes ended the connection, if it did. */
  ghost function ReceiveCause(st: State, fd: int, chunk: Chunk, oracle: Oracle): Option<Cause>
    requires fd in st.users
  {
    var u := st.users[fd];
    StopCause(WithInput(st, fd, u.inBuffer + chunk, u.received + chunk, u.lines), fd, oracle)
  }

  lemma SplitGrows(u: User, chunk: string, last: seq<string>, asked: bool)
    requires Framed(u) && (asked ==> |u.lines| < |last|)
    ensures Split(u.received + chunk, QuitsAfter(last, asked)) ==
            Drain(u.inBuffer + chunk, u.lines, QuitsAfter(last, asked))
  {
    hide Drain, Segments, Tail, Judge;
    DrainIsJudge(u.received, [], NeverQuits());
    SameUntilAsked(u.received, [], last, asked);
    DrainConcat(u.received, chunk, [], QuitsAfter(last, asked));
    DrainIsJudge(u.received + chunk, [], QuitsAfter(last, asked));
  }

  /**
   * What the server makes of a read is what the splitter makes of everything
   * received, told when the connection asked to close: the lines served, the
   * residue, and a line too long exactly when the splitter finds one there. The
   * lines served are always the first of those the bytes hold.
   */
  lemma ReceiveReads(st: State, fd: int, chunk: Chunk, oracle: Oracle)
    requires Sound(st) && fd in st.users && !Virtual(fd) && Framed(st.users[fd]) && !st.users[fd].out.closing
    ensures var u, r := st.users[fd], ReceiveData(st, fd, Bytes(chunk), oracle);
            var cause := ReceiveCause(st, fd, chunk, oracle);
            var v := r.st.users[fd];
            var quits := QuitsAfter(v.lines, cause == Some(Requested));
            && Stopped(u, v, cause, r.connected)
            && Split(u.received + chunk, quits) == Verdict(v, cause)
            && v.lines <= LinesRead(Split(u.received + chunk, NeverQuits()))
            && (cause == Some(LineTooLong) <==> Split(u.received + chunk, quits) == Closed(v.lines, LineTooLong))
  {
    hide Inv, Sound, ProcessBuffer, StopCause, Split, Drain;
    var u := st.users[fd];
    FramedIsIdle(u);
    var st1 := WithInput(st, fd, u.inBuffer + chunk, u.received + chunk, u.lines);
    InputKeeps(st, fd, u.inBuffer + chunk, u.received + chunk, u.lines);
    ProcessBufferReads(st1, fd, oracle);
    var v, cause := ProcessBuffer(st1, fd, oracle).st.users[fd], StopCause(st1, fd, oracle);
    SplitGrows(u, chunk, v.lines, cause == Some(Requested));
    SplitIsDrain(u.received + chunk, QuitsAfter(v.lines, cause == Some(Requested)));
    SplitIsDrain(u.received + chunk, NeverQuits());
    QuittingCutsShort(u.received + chunk, [], QuitsAfter(v.lines, cause == Some(Requested)));
  }

  lemma SplitIsDrain(stream: string, quits: Quits)
    ensures Split(stream, quits) == Drain(stream, [], quits)
  {
    DrainIsJudge(stream, [], quits);
  }

  /**
   * One recv: the connection stays framed or is to close, and the 8192-byte
   * overflow branch cannot be taken.
   */
  lemma ReceiveSound(st: State, fd: int, recv: RecvResult, oracle: Oracle)
    requires Sound(st) && fd in st.users && !Virtual(fd) && Framed(st.users[fd])
    ensures var r := ReceiveData(st, fd, recv, oracle);
            && Sound(r.st) && Evolves(st, r.st, fd) && FramedServed(st, r, fd)
            && (recv.Bytes? ==> |st.users[fd].inBuffer| + |recv.chunk| <= MAX_INPUT_BUFFER)
  {
    hide Inv, Sound, Evolves, ProcessBuffer, Split, Drain, WithRequest;
    EvolvesSelf(st, fd);
    match recv
    case Bytes(chunk) => ReceiveBytes(st, fd, chunk, oracle);
    case EndOfStream => RequestSound(st, fd, "Connection closed by peer");
    case RecvLater =>
    case RecvError => RequestSound(st, fd, "Receive error");
  }

  // ------------------------------------------------------------------
  // Flushing
  // ------------------------------------------------------------------

  lemma SentUserOk(st: State, fd: int, bytes: nat)
    requires UsersOk(st) && fd in st.users && bytes <= |st.users[fd].out.buffer|
    ensures UserOk(st.password, fd, st.users[fd].(out := SentSome(st.users[fd].out, bytes)))
  {
  }

  lemma SentLogs(st: State, fd: int, bytes: nat)
    requires Logged(st) && fd in st.users && bytes <= |st.users[fd].out.buffer|
    ensures Logged(WithOutput(st, fd, SentSome(st.users[fd].out, bytes)))
  {
  }

  lemma SentInv(st: State, fd: int, bytes: nat)
    requires Inv(st) && fd in st.users && bytes <= |st.users[fd].out.buffer|
    ensures Inv(WithOutput(st, fd, SentSome(st.users[fd].out, bytes)))
  {
    var v := st.users[fd].(out := SentSome(st.users[fd].out, bytes));
    assert SameIdentity(st.users[fd], v);
    hide UsersOk, Logged, ChansOk, Linked, Indexed, Polled, UserOk, SentSome;
    SentUserOk(st, fd, bytes);
    OneUserOk(st, fd, v);
    OneUserIndexes(st, fd, v);
    SentLogs(st, fd, bytes);
  }

  lemma SentSound(st: State, fd: int, bytes: nat)
    requires Sound(st) && fd in st.users && bytes <= |st.users[fd].out.buffer|
    ensures var after := WithOutput(st, fd, SentSome(st.users[fd].out, bytes));
            Sound(after) && Evolves(st, after, fd)
  {
    hide Inv;
    SentInv(st, fd, bytes);
  }

  /** Any partial write moves a prefix of the buffer to the wire; any failure asks for a disconnection. */
  lemma FlushSound(st: State, fd: int, send: SendResult)
    requires Sound(st) && fd in st.users
    ensures var r := Flush(st, fd, send);
            && Sound(r.st) && Evolves(st, r.st, fd) && SameInput(st.users[fd], r.st.users[fd])
            && (!r.connected ==> r.st.users[fd].out.closing)
  {
    hide Inv, Sound, Evolves, Request;
    EvolvesSelf(st, fd);
    var o := st.users[fd].out;
    if o.buffer != "" {
      match send
      case Wrote(bytes) =>
        if bytes > 0 {
          SentSound(st, fd, Min(bytes, Min(|o.buffer|, MAX_SEND_SIZE)));
        } else {
          RequestSound(st, fd, "Send returned zero bytes");
        }
      case WroteNothing => RequestSound(st, fd, "Send returned zero bytes");
      case SendLater =>
      case BrokenPipe => RequestSound(st, fd, "Broken pipe");
      case ResetByPeer => RequestSound(st, fd, "Connection reset by peer");
      case SendError => RequestSound(st, fd, "Send error");
    }
  }
}
