// What goes over the wire: the bytes a peer receives, computed from what send
// reported, are the accepted lines, and nothing is skipped (Server.cpp:1360-1429).
module WireLaws {
  import opened Results
  import opened IrcCasemap
  import opened Codec
  import opened Framing
  import opened Walks
  import opened ServerState
  import opened Primitives
  import opened Membership
  import opened Commands
  import opened CommandLaws
  import opened DispatchLaws
  import opened Connection
  import opened ConnectionLaws
  import opened DisconnectLaws
  import opened EventLoop
  import opened RunLaws

  // ------------------------------------------------------------------
  // One send
  // ------------------------------------------------------------------

  /** The block that is handed to send: the pending bytes, 16384 of them at most. */
  function Handed(pending: string): string {
    if |pending| <= 16384 then pending else pending[..16384]
  }

  /** What send put on the wire of the block it was handed. */
  function Transferred(block: string, send: SendResult): string {
    match send
    case Wrote(bytes) => if bytes <= |block| then block[..bytes] else block
    case _ => ""
  }

  /** A write moves what it transferred, and leaves the rest. */
  lemma WriteMoves(o: Output, bytes: nat)
    requires o.buffer != ""
    ensures var p := SentSome(o, Min(bytes, Min(|o.buffer|, MAX_SEND_SIZE)));
            var moved := Transferred(Handed(o.buffer), Wrote(bytes));
            o.buffer == moved + p.buffer && p.sent == o.sent + moved
  {
    var n := Min(bytes, Min(|o.buffer|, MAX_SEND_SIZE));
    assert Transferred(Handed(o.buffer), Wrote(bytes)) == o.buffer[..n];
    assert o.buffer == o.buffer[..n] + o.buffer[n..];
  }

  lemma NothingMoves(o: Output, send: SendResult)
    requires o.buffer == "" || !send.Wrote? || send.bytes == 0
    ensures Transferred(Handed(o.buffer), send) == ""
    ensures o.buffer == "" + o.buffer && o.sent + "" == o.sent
  {
  }

  /**
   * After a flush the pending bytes are those that were pending, without exactly
   * what send transferred; the connection goes on unless send failed.
   */
  lemma FlushExactly(st: State, fd: int, send: SendResult)
    requires fd in st.users
    ensures var o, r := st.users[fd].out, Flush(st, fd, send);
            && fd in r.st.users
            && var p, moved := r.st.users[fd].out, Transferred(Handed(o.buffer), send);
               && o.buffer == moved + p.buffer
               && p.sent == o.sent + moved && p.accepted == o.accepted
               && (r.connected <==> o.buffer == "" || send == SendLater || (send.Wrote? && send.bytes > 0))
               && (r.connected ==> p.closing == o.closing && p.reason == o.reason)
               && r.st == WithOutput(st, fd, p)
  {
    var o := st.users[fd].out;
    assert st.users[fd := st.users[fd].(out := o)] == st.users;
    hide Handed, Transferred, SentSome;
    if o.buffer != "" && send.Wrote? && send.bytes > 0 {
      WriteMoves(o, send.bytes);
      SentAside(o, Min(send.bytes, Min(|o.buffer|, MAX_SEND_SIZE)));
    } else {
      NothingMoves(o, send);
    }
  }

  lemma SentAside(o: Output, n: nat)
    requires n <= |o.buffer|
    ensures var p := SentSome(o, n);
            p.accepted == o.accepted && p.closing == o.closing && p.reason == o.reason
  {
  }

  // ------------------------------------------------------------------
  // Nothing else sends
  // ------------------------------------------------------------------

  /** Whoever is there in both had sent the same. */
  ghost predicate SameSent(a: State, b: State) {
    forall id :: id in a.users && id in b.users ==> b.users[id].out.sent == a.users[id].out.sent
  }

  ghost predicate SameClients(a: State, b: State) {
    b.users.Keys == a.users.Keys && SameSent(a, b)
  }

  lemma FollowsSent(a: State, b: State)
    requires Follows(a, b)
    ensures SameClients(a, b)
  {
  }

  lemma SameSentTrans(a: State, b: State, c: State)
    requires SameClients(a, b) && SameSent(b, c)
    ensures SameSent(a, c)
    ensures SameClients(b, c) ==> SameClients(a, c)
  {
  }

  lemma RequestSent(st: State, fd: int, reason: string)
    requires fd in st.users
    ensures SameClients(st, WithRequest(st, fd, reason))
  {
  }

  lemma InputSent(st: State, fd: int, buffer: string, received: string, lines: seq<string>)
    requires fd in st.users
    ensures SameClients(st, WithInput(st, fd, buffer, received, lines))
  {
  }

  lemma ServeLineSent(st: State, fd: int, line: string, answer: BotAnswer)
    requires Inv(st) && fd in st.users && !Virtual(fd)
    ensures SameClients(st, ServeLine(st, fd, line, answer))
  {
    hide Inv, Keeps, Dispatch, Parse, WithRequest, Follows, SameClients;
    match Parse(line)
    case Failure(_) => NobodySent(st);
    case Success(m) =>
      DispatchKeeps(st, fd, m, answer);
      var r := Dispatch(st, fd, m, answer);
      KeepsFollows(st, r.st, Excused(r, fd));
      FollowsSent(st, r.st);
      SentSame(st, r.st);
      if r.Threw? {
        RequestSent(r.st, fd, "");
        SentSame(r.st, WithRequest(r.st, fd, ""));
        SameSentTrans(st, r.st, WithRequest(r.st, fd, ""));
      }
  }

  lemma NobodySent(st: State)
    ensures SameClients(st, st)
  {
  }

  lemma SentSame(a: State, b: State)
    requires SameClients(a, b)
    ensures SameSent(a, b) && b.users.Keys == a.users.Keys
  {
  }

  lemma ServeTakenSent(st: State, fd: int, line: string, rest: string, oracle: Oracle)
    requires Sound(st) && fd in st.users && !Virtual(fd)
    ensures SameClients(st, ServeTaken(st, fd, line, rest, oracle))
  {
    hide Inv, AllMarked, Sound, Evolves, ServeLine, SameClients;
    var u := st.users[fd];
    var st1 := TakeLine(st, fd, line, rest);
    InputKeeps(st, fd, rest, u.received, if line == "" then u.lines else u.lines + [line]);
    InputSent(st, fd, rest, u.received, if line == "" then u.lines else u.lines + [line]);
    if line != "" {
      SoundInv(st1);
      ServeLineSent(st1, fd, line, oracle(|u.lines|));
      SentSame(st1, ServeLine(st1, fd, line, oracle(|u.lines|)));
      SameSentTrans(st, st1, ServeLine(st1, fd, line, oracle(|u.lines|)));
    }
  }

  lemma ProcessLastSent(st: State, fd: int, oracle: Oracle)
    requires fd in st.users && (st.users[fd].out.closing || !ExtractNext(st.users[fd].inBuffer).Complete?)
    ensures SameClients(st, ProcessBuffer(st, fd, oracle).st)
  {
    hide ExtractNext;
  }

  lemma {:induction false} ProcessSent(st: State, fd: int, oracle: Oracle)
    requires Sound(st) && fd in st.users && !Virtual(fd)
    ensures SameClients(st, ProcessBuffer(st, fd, oracle).st)
    decreases |st.users[fd].inBuffer|
  {
    hide Inv, Sound, Evolves, ServeTaken, ExtractNext, ProcessBuffer, SameClients;
    var u := st.users[fd];
    if u.out.closing || !ExtractNext(u.inBuffer).Complete? {
      ProcessLastSent(st, fd, oracle);
    } else {
      var taken := ExtractNext(u.inBuffer);
      var st1 := ServeTaken(st, fd, taken.line, taken.rest, oracle);
      ExtractShrinks(u.inBuffer);
      ServeTakenSound(st, fd, taken.line, taken.rest, oracle);
      ServeTakenSent(st, fd, taken.line, taken.rest, oracle);
      ProcessStep(st, fd, oracle);
      ProcessSent(st1, fd, oracle);
      SentSame(st1, ProcessBuffer(st1, fd, oracle).st);
      SameSentTrans(st, st1, ProcessBuffer(st1, fd, oracle).st);
    }
  }

  lemma ReceiveSent(st: State, fd: int, recv: RecvResult, oracle: Oracle)
    requires Sound(st) && fd in st.users && !Virtual(fd)
    ensures SameClients(st, ReceiveData(st, fd, recv, oracle).st)
  {
    hide Inv, Sound, Evolves, ProcessBuffer, SameClients, WithRequest;
    var u := st.users[fd];
    NobodySent(st);
    match recv
    case Bytes(chunk) =>
      if |u.inBuffer| + |chunk| > MAX_INPUT_BUFFER {
        RequestSent(st, fd, "Input buffer limit exceeded");
      } else {
        var st1 := WithInput(st, fd, u.inBuffer + chunk, u.received + chunk, u.lines);
        InputKeeps(st, fd, u.inBuffer + chunk, u.received + chunk, u.lines);
        InputSent(st, fd, u.inBuffer + chunk, u.received + chunk, u.lines);
        ProcessSent(st1, fd, oracle);
        SentSame(st1, ProcessBuffer(st1, fd, oracle).st);
        SameSentTrans(st, st1, ProcessBuffer(st1, fd, oracle).st);
      }
    case EndOfStream => RequestSent(st, fd, "Connection closed by peer");
    case RecvLater =>
    case RecvError => RequestSent(st, fd, "Receive error");
  }

  lemma DisconnectSent(st: State, fd: int, reason: string, shuttingDown: bool)
    requires Inv(st)
    ensures SameSent(st, Disconnect(st, fd, reason, shuttingDown).st)
  {
    if fd in st.users && !Virtual(fd) {
      hide Inv, Farewell, Disconnect, Keeps, Forget, Detach, Follows;
      var bye := Farewell(st, fd, reason);
      DisconnectIs(st, fd, reason, shuttingDown);
      FarewellKeeps(st, fd, reason);
      KeepsFollows(st, bye.st, BOT);
      FollowsSent(st, bye.st);
      if bye.Done? {
        ForgottenFrame(bye.st, fd);
      }
    }
  }

  // ------------------------------------------------------------------
  // The wire of a connection
  // ------------------------------------------------------------------

  /** The state in which a visit comes to its send, if it does. */
  function BeforeSend(st: State, fd: int, io: Io): Option<State> {
    if fd !in st.users || Virtual(fd) || io.revents.invalid || !io.revents.output then None
    else if !io.revents.input then Some(st)
    else
      var read := ReceiveData(st, fd, io.recv, io.oracle);
      if read.connected then Some(read.st) else None
  }

  /** What a visit puts on the wire of its client. */
  function VisitWire(st: State, fd: int, io: Io): string {
    var now := BeforeSend(st, fd, io);
    if now.Some? && fd in now.value.users
    then Transferred(Handed(now.value.users[fd].out.buffer), io.send) else ""
  }

  /** What an event puts on the wire of this descriptor: nothing but its own visits do. */
  function OnTheWire(st: State, e: Event, fd: int): string {
    if e.Visited? && e.fd == fd then VisitWire(st, fd, e.io) else ""
  }

  lemma AttendWire(st: State, fd: int, io: Io)
    requires Sound(st) && fd in st.users && !Virtual(fd) && !io.revents.invalid
    ensures var r := Attend(st, fd, io);
            && fd in r.st.users && r.st.users.Keys == st.users.Keys
            && r.st.users[fd].out.sent == st.users[fd].out.sent + VisitWire(st, fd, io)
            && forall id :: id in st.users && id != fd ==> r.st.users[id].out.sent == st.users[id].out.sent
  {
    hide Sound, ReceiveData, Flush, Handed, Transferred;
    NobodySent(st);
    var read := if io.revents.input then ReceiveData(st, fd, io.recv, io.oracle) else Served(st, true);
    if io.revents.input {
      ReceiveSent(st, fd, io.recv, io.oracle);
    }
    if read.connected && io.revents.output {
      FlushExactly(read.st, fd, io.send);
    } else {
      assert st.users[fd].out.sent + "" == st.users[fd].out.sent;
    }
  }

  lemma VisitSends(st: State, fd: int, io: Io, shuttingDown: bool, id: int)
    requires Healthy(st) && id in st.users && Visit(st, fd, io, shuttingDown).Done?
    requires id in Visit(st, fd, io, shuttingDown).st.users
    ensures var s := Visit(st, fd, io, shuttingDown).st;
            s.users[id].out.sent == st.users[id].out.sent + OnTheWire(st, Visited(fd, io, shuttingDown), id)
  {
    hide Healthy, Sound, Inv, Attend, Disconnect, SameClients, VisitWire, FramedServed, Evolves;
    assert st.users[id].out.sent + "" == st.users[id].out.sent;
    HealthySound(st);
    SoundInv(st);
    if fd !in st.users || Virtual(fd) {
      NoVisitWire(st, fd, io);
    } else if io.revents.invalid {
      NoVisitWire(st, fd, io);
      DisconnectSent(st, fd, "Invalid socket descriptor", shuttingDown);
    } else {
      AttendSound(st, fd, io);
      AttendWire(st, fd, io);
      var r := Attend(st, fd, io);
      SoundInv(r.st);
      DisconnectSent(r.st, fd, AttendReason(st, fd, io), shuttingDown);
    }
  }

  lemma HealthySound(st: State)
    requires Healthy(st)
    ensures Sound(st)
  {
  }

  lemma NoVisitWire(st: State, fd: int, io: Io)
    requires fd !in st.users || Virtual(fd) || io.revents.invalid
    ensures VisitWire(st, fd, io) == ""
  {
  }

  lemma StepSends(st: State, e: Event, id: int)
    requires Healthy(st) && id in st.users && Step(st, e).Done? && id in Step(st, e).st.users
    ensures Step(st, e).st.users[id].out.sent == st.users[id].out.sent + OnTheWire(st, e, id)
  {
    hide Healthy, Sound, Inv, Visit, Disconnect, VisitWire;
    assert st.users[id].out.sent + "" == st.users[id].out.sent;
    match e
    case Connected(fd, host, walk) =>
    case AcceptFailed =>
    case Visited(fd, io, shuttingDown) => VisitSends(st, fd, io, shuttingDown, id);
    case Swept(fd, shuttingDown) =>
      HealthySound(st);
      SoundInv(st);
      if fd in st.users {
        DisconnectSent(st, fd, st.users[fd].out.reason, shuttingDown);
      }
  }

  /** What the peer of a descriptor received between two moments of a run. */
  function Wire(states: seq<State>, events: seq<Event>, fd: int, i: nat, j: nat): string
    requires i <= j < |states| && |states| <= |events| + 1
  {
    if i == j then "" else Wire(states, events, fd, i, j - 1) + OnTheWire(states[j - 1], events[j - 1], fd)
  }

  lemma {:induction false} WireIsSent(st: State, events: seq<Event>, fd: int, i: nat, j: nat)
    requires Healthy(st) && Stays(Trace(st, events), fd, i, j)
    ensures var states := Trace(st, events);
            states[j].users[fd].out.sent == states[i].users[fd].out.sent + Wire(states, events, fd, i, j)
    decreases j
  {
    hide Healthy, Step, Trace, OnTheWire;
    var states := Trace(st, events);
    if i == j {
      assert states[i].users[fd].out.sent + "" == states[i].users[fd].out.sent;
    } else {
      WireIsSent(st, events, fd, i, j - 1);
      TraceHealthy(st, events, j - 1);
      TraceSteps(st, events, j - 1);
      assert fd in states[j - 1].users && fd in states[j].users;
      StepSends(states[j - 1], events[j - 1], fd);
    }
  }

  /**
   * In every run: what the peer of a connection has received since it was
   * accepted, and what is still pending for it, are the lines accepted for it,
   * in order, nothing missing and nothing twice.
   */
  lemma WireConserved(password: string, walk: Walk, events: seq<Event>, fd: int, i: nat, j: nat)
    requires password != "" && 0 < i && Stays(Trace(Boot(password, walk).st, events), fd, i, j)
    requires fd !in Trace(Boot(password, walk).st, events)[i - 1].users
    ensures var states := Trace(Boot(password, walk).st, events);
            var o := states[j].users[fd].out;
            Wire(states, events, fd, i, j) + o.buffer == Flatten(LinesOf(o.accepted))
  {
    hide Healthy, Step, Trace, Boot, Wire, Sound, Continues;
    var st, states := Boot(password, walk).st, Trace(Boot(password, walk).st, events);
    BootHealthy(password, walk);
    WireIsSent(st, events, fd, i, j);
    TraceHealthy(st, events, i - 1);
    TraceSteps(st, events, i - 1);
    assert fd in states[i].users;
    NewcomerSentNothing(states[i - 1], events[i - 1], fd);
    assert "" + Wire(states, events, fd, i, j) == Wire(states, events, fd, i, j);
    OutputConserved(password, walk, events, fd, j, j);
  }

  lemma NewcomerSentNothing(st: State, e: Event, fd: int)
    requires Healthy(st) && Step(st, e).Done? && fd !in st.users && fd in Step(st, e).st.users
    ensures Step(st, e).st.users[fd].out.sent == ""
  {
    hide Healthy, Sound, Inv, Attend, Disconnect, Remain, Evolves, FramedServed;
    HealthySound(st);
    match e
    case Connected(_, _, _) =>
    case AcceptFailed =>
    case Visited(visited, io, shuttingDown) =>
      if visited in st.users && !Virtual(visited) {
        DisconnectFewer(st, visited, "Invalid socket descriptor", shuttingDown);
        AttendSound(st, visited, io);
        DisconnectFewer(Attend(st, visited, io).st, visited, AttendReason(st, visited, io), shuttingDown);
      }
    case Swept(swept, shuttingDown) =>
      if swept in st.users {
        DisconnectFewer(st, swept, st.users[swept].out.reason, shuttingDown);
      }
  }

  lemma DisconnectFewer(st: State, fd: int, reason: string, shuttingDown: bool)
    requires Sound(st)
    ensures Disconnect(st, fd, reason, shuttingDown).st.users.Keys <= st.users.Keys
  {
    hide Sound, Disconnect;
    DisconnectSound(st, fd, reason, shuttingDown);
  }
}
