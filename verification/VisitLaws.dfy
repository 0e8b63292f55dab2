// What a visit comes to when nothing was read: flushing, and each way in which a
// connection ends, with the reason that its channels are told
// (Server.cpp:920-1004, 1226-1280, 1360-1429).
module VisitLaws {
  import opened Results
  import opened IrcCasemap
  import opened Codec
  import opened CodecLaws
  import opened Framing
  import opened Walks
  import opened ServerState
  import opened Primitives
  import opened Membership
  import opened Commands
  import opened CommandLaws
  import opened Connection
  import opened ConnectionLaws
  import opened DisconnectLaws
  import opened EventLoop
  import opened RunLaws
  import opened Forecast
  import opened WireLaws

  /** No bytes were read: none were reported, or recv brought none. */
  predicate NothingRead(io: Io) {
    io.revents.input ==> !io.recv.Bytes?
  }

  /** Why a send ends the connection, if it does. */
  function SendFails(send: SendResult): Option<string> {
    match send
    case Wrote(bytes) => if bytes == 0 then Some("Send returned zero bytes") else None
    case WroteNothing => Some("Send returned zero bytes")
    case SendLater => None
    case BrokenPipe => Some("Broken pipe")
    case ResetByPeer => Some("Connection reset by peer")
    case SendError => Some("Send error")
  }

  /** Why this visit ends a connection with these pending bytes, if it does. */
  function Ends(pending: string, io: Io): Option<string> {
    if io.revents.invalid then Some("Invalid socket descriptor")
    else if io.revents.input && io.recv == EndOfStream then Some("Connection closed by peer")
    else if io.revents.input && io.recv == RecvError then Some("Receive error")
    else if io.revents.output && pending != "" && SendFails(io.send).Some? then SendFails(io.send)
    else if io.revents.error then Some("Socket error")
    else if io.revents.hangup then Some("Connection closed by peer")
    else None
  }

  /** An exception of recv or send comes first; only a visit that read nothing wrong goes on to send. */
  function Sent(st: State, fd: int, io: Io): State
    requires fd in st.users
  {
    if io.revents.output && (io.revents.input ==> io.recv == RecvLater) then Flush(st, fd, io.send).st else st
  }

  lemma FlushFails(st: State, fd: int, send: SendResult)
    requires fd in st.users
    ensures var o, r := st.users[fd].out, Flush(st, fd, send);
            && (r.connected <==> o.buffer == "" || SendFails(send).None?)
            && (!r.connected ==> r.st == WithRequest(st, fd, SendFails(send).value))
  {
    hide Request;
  }

  /** What receiving and sending come to. */
  lemma AttendExactly(st: State, fd: int, io: Io)
    requires fd in st.users && !io.revents.invalid && NothingRead(io)
    ensures var pending, r := st.users[fd].out.buffer, Attend(st, fd, io);
            var failed := Ends(pending, io.(revents := io.revents.(error := false, hangup := false)));
            match failed
            case Some(why) => r == Served(WithRequest(st, fd, why), false)
            case None => r == Served(Sent(st, fd, io), true)
  {
    hide Flush, Request;
    FlushFails(st, fd, io.send);
  }

  lemma RequestedOnce(st: State, fd: int, why: string)
    requires fd in st.users && !st.users[fd].out.closing && why != ""
    ensures var closed := WithRequest(st, fd, why);
            && closed.users.Keys == st.users.Keys && closed.channels == st.channels
            && closed.users[fd].account == st.users[fd].account && closed.users[fd].joined == st.users[fd].joined
            && (forall reason :: FinalReason(closed.users[fd].out, reason) == why)
            && forall id :: id in st.users && id != fd ==> closed.users[id] == st.users[id]
  {
  }

  /** The line that the channels of the client are told. */
  function Farewells(u: User, why: string): IrcMessage {
    IrcMessage("QUIT", [why], u.account.nick + "!" + u.account.username + "@" + u.account.host, true)
  }

  /** The disconnection, seen from a state in which everyone else was the same. */
  lemma PartsFrom(st: State, before: State, fd: int, why: string, reason: string, shuttingDown: bool)
    requires fd in st.users && !Virtual(fd) && before.users.Keys == st.users.Keys
    requires before.users[fd].account == st.users[fd].account && before.users[fd].joined == st.users[fd].joined
    requires FinalReason(before.users[fd].out, reason) == why
    requires forall id :: id in st.users && id != fd ==> before.users[id] == st.users[id]
    ensures var r, m := Disconnect(before, fd, reason, shuttingDown), Farewells(st.users[fd], why);
            && (r.Done? <==> st.users[fd].joined == {} || Serialize(m).Success?)
            && (r.Done? ==> Parted(st, r.st, fd, if st.users[fd].joined == {} then "" else Serialize(m).value))
  {
    assert QuitMessage(before.users[fd], reason) == Farewells(st.users[fd], why);
    hide Serialize, Disconnect, QuitMessage, Farewells, FinalReason, Offer;
    DisconnectParts(before, fd, reason, shuttingDown);
  }

  lemma EndsHaveReasons(pending: string, io: Io)
    ensures Ends(pending, io).Some? ==> Ends(pending, io).value != ""
  {
  }

  lemma SentAside(st: State, fd: int, io: Io)
    requires fd in st.users
    ensures var s := Sent(st, fd, io);
            && s.users.Keys == st.users.Keys && s.channels == st.channels
            && s.users[fd].account == st.users[fd].account && s.users[fd].joined == st.users[fd].joined
            && (Ends(st.users[fd].out.buffer, io.(revents := io.revents.(error := false, hangup := false))).None? ==>
                  s.users[fd].out.closing == st.users[fd].out.closing
                    && s.users[fd].out.reason == st.users[fd].out.reason)
            && forall id :: id in st.users && id != fd ==> s.users[id] == st.users[id]
  {
    hide Flush, Handed, Transferred;
    FlushExactly(st, fd, io.send);
    FlushFails(st, fd, io.send);
  }

  /**
   * A visit in which nothing is read flushes, or ends the connection for the
   * first thing that went wrong. The client is gone then exactly when nobody has
   * to be told or the line prints, and whoever shares a channel with it has been
   * offered the line with that reason.
   */
  lemma VisitExactly(st: State, fd: int, io: Io, shuttingDown: bool)
    requires fd in st.users && !Virtual(fd) && !st.users[fd].out.closing && NothingRead(io)
    ensures var r, u := Visit(st, fd, io, shuttingDown), st.users[fd];
            match Ends(u.out.buffer, io)
            case None => r == Done(Sent(st, fd, io))
            case Some(why) =>
              && (r.Done? <==> u.joined == {} || Serialize(Farewells(u, why)).Success?)
              && (r.Done? ==>
                    Parted(st, r.st, fd, if u.joined == {} then "" else Serialize(Farewells(u, why)).value))
  {
    hide Attend, Disconnect, Serialize, Farewells, FinalReason, Parted, WithRequest, Sent, SendFails;
    var u := st.users[fd];
    var reason := AttendReason(st, fd, io);
    EndsHaveReasons(u.out.buffer, io);
    if io.revents.invalid {
      PlainReason(u.out, "Invalid socket descriptor");
      PartsFrom(st, st, fd, "Invalid socket descriptor", "Invalid socket descriptor", shuttingDown);
    } else {
      AttendExactly(st, fd, io);
      var failed := Ends(u.out.buffer, io.(revents := io.revents.(error := false, hangup := false)));
      if failed.Some? {
        EndsHaveReasons(u.out.buffer, io.(revents := io.revents.(error := false, hangup := false)));
        RequestedOnce(st, fd, failed.value);
        PartsFrom(st, WithRequest(st, fd, failed.value), fd, failed.value, reason, shuttingDown);
      } else if io.revents.error || io.revents.hangup {
        SentAside(st, fd, io);
        PlainReason(Sent(st, fd, io).users[fd].out, reason);
        PartsFrom(st, Sent(st, fd, io), fd, reason, reason, shuttingDown);
      }
    }
  }

  lemma PlainReason(o: Output, reason: string)
    requires !o.closing && reason != ""
    ensures FinalReason(o, reason) == reason
  {
  }

  // ------------------------------------------------------------------
  // One line
  // ------------------------------------------------------------------

  /** A line that cannot be read changes nothing, and its connection goes on. */
  lemma BadLineIsHarmless(st: State, fd: int, line: string, answer: BotAnswer)
    requires fd in st.users && (!LineSafe(line) || exists prefix :: Preamble(line, prefix))
    ensures ServeLine(st, fd, line, answer) == st
  {
    hide Parse, Dispatch, Preamble;
    ParsesExactly(line);
  }

  /** A line that is read is dispatched; an exception keeps what was done and closes the connection. */
  lemma GoodLineIsDispatched(st: State, fd: int, line: string, answer: BotAnswer)
    requires fd in st.users && LineSafe(line) && !exists prefix :: Preamble(line, prefix)
    ensures Parse(line).Success?
    ensures var r, s := Dispatch(st, fd, Parse(line).value, answer), ServeLine(st, fd, line, answer);
            && (r.Done? ==> s == r.st)
            && (r.Threw? ==>
                  && fd in s.users && s.users[fd].out.closing && s.channels == r.st.channels && s.nicks == r.st.nicks
                  && (!r.st.users[fd].out.closing ==> s.users[fd].out.reason == "Client disconnected")
                  && s.users.Keys == r.st.users.Keys
                  && forall id :: id in r.st.users && id != fd ==> s.users[id] == r.st.users[id])
  {
    hide Parse, Dispatch, Preamble;
    ParsesExactly(line);
  }

  /** A line that is too long ends its connection for that reason. */
  lemma LongLineEnds(st: State, fd: int, oracle: Oracle)
    requires fd in st.users && !st.users[fd].out.closing && ExtractNext(st.users[fd].inBuffer).TooLong?
    ensures var r := ProcessBuffer(st, fd, oracle);
            && !r.connected && fd in r.st.users && r.st.users[fd].out.closing
            && r.st.users[fd].out.reason == "IRC line exceeds maximum length"
            && r.st.users[fd].lines == st.users[fd].lines && r.st.channels == st.channels
  {
    hide ExtractNext;
  }

  // ------------------------------------------------------------------
  // Waking up
  // ------------------------------------------------------------------

  /** A wait that brought nothing. */
  predicate BringsNothing(w: Waking) {
    w == Interrupted || w == TimedOut
  }

  /** Waits that bring nothing change nothing, however many there are. */
  lemma {:induction false} IdleWaits(st: State, waits: seq<Waking>, more: seq<Waking>)
    requires forall w :: w in waits ==> BringsNothing(w)
    ensures Wakings(st, waits + more) == Wakings(st, more)
    decreases |waits|
  {
    if waits == [] {
      assert waits + more == more;
    } else {
      assert waits[0] in waits;
      assert (waits + more)[0] == waits[0] && (waits + more)[1..] == waits[1..] + more;
      IdleWaits(st, waits[1..], more);
    }
  }

  /**
   * The first wait that brings something decides: a failure of poll or of the
   * listening socket ends the loop at once; a round is run, and after it the loop
   * goes on unless the round threw or a signal was seen.
   */
  lemma WakingExactly(st: State, waits: seq<Waking>, w: Waking, more: seq<Waking>)
    requires (forall idle :: idle in waits ==> BringsNothing(idle)) && !BringsNothing(w)
    ensures var r := Wakings(st, waits + ([w] + more));
            if !w.Ready? then r == Threw(st)
            else
              var round := Round(st, w.round.arrival, w.round.ios, w.round.shuttingDown);
              r == if round.Threw? || w.round.shuttingDown then round else Wakings(round.st, more)
  {
    hide Round;
    IdleWaits(st, waits, [w] + more);
    assert ([w] + more)[0] == w && ([w] + more)[1..] == more;
  }

  // ------------------------------------------------------------------
  // Accepting
  // ------------------------------------------------------------------

  /**
   * Accepting pauses when accept fails, and resumes with the next disconnection, unless
   * the server is shutting down.
   */
  lemma AcceptingExactly(st: State, fd: int, reason: string, shuttingDown: bool)
    ensures Step(st, AcceptFailed) == Done(st.(accepting := false))
    ensures fd in st.users && !Virtual(fd) && Disconnect(st, fd, reason, shuttingDown).Done? ==>
              Disconnect(st, fd, reason, shuttingDown).st.accepting == (st.accepting || !shuttingDown)
  {
    if fd in st.users && !Virtual(fd) {
      hide Farewell, Disconnect, Detach, Forget;
      DisconnectIs(st, fd, reason, shuttingDown);
      FarewellRegistry(st, fd, reason);
      RemovedAccepting(Farewell(st, fd, reason).st, fd);
    }
  }

  lemma RemovedAccepting(st: State, fd: int)
    requires fd in st.users
    ensures Forget(Detach(st, fd), fd).accepting == st.accepting
  {
  }
}
