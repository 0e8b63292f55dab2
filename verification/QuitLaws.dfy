// The one command whose text reaches the fragile step of a disconnection: when
// a member's own QUIT line lets the server go on, and when it ends the loop.
module QuitLaws {
  import opened Results
  import opened IrcCasemap
  import opened Codec
  import opened CodecLaws
  import opened Framing
  import opened StreamLaws
  import opened ChannelModes
  import opened Walks
  import opened ServerState
  import opened Primitives
  import opened Membership
  import opened Commands
  import opened Connection
  import opened ConnectionLaws
  import opened DisconnectLaws
  import opened EventLoop
  import opened RunLaws
  import opened Shutdown
  import opened Forecast

  // ------------------------------------------------------------------
  // The line, from the wire to the disconnect request
  // ------------------------------------------------------------------

  /** The bytes of a QUIT with a reason. */
  function QuitBytes(why: string): string {
    "QUIT :" + why + CRLF
  }

  function QuitCommand(why: string): IrcMessage {
    IrcMessage("QUIT", [why], "", true)
  }

  /** A reason that fits in one line. */
  predicate Reason(why: string) {
    LineSafe(why) && 1 <= |why| <= MAX_MESSAGE_LENGTH - 8
  }

  lemma QuitPrints(why: string)
    requires Reason(why)
    ensures Serialize(QuitCommand(why)) == Success(QuitBytes(why))
  {
    hide LineSafe;
    assert ValidCommand("QUIT") by { QuitIsCommand(); }
    assert SerializeParams([why], true) == Success(" :" + why);
    assert PrefixPart("") + "QUIT" + (" :" + why) + CRLF == QuitBytes(why);
  }

  lemma QuitIsCommand()
    ensures ValidCommand("QUIT") && Upper("QUIT") == "QUIT"
  {
  }

  lemma QuitRead(why: string)
    requires Reason(why)
    ensures |QuitBytes(why)| <= MAX_MESSAGE_LENGTH
    ensures ExtractNext(QuitBytes(why)) == Complete("QUIT :" + why, "")
    ensures Parse("QUIT :" + why) == Success(QuitCommand(why))
  {
    assert |QuitBytes(why)| == |why| + 8;
    hide Serialize, Parse, ExtractNext, Reason, Upper;
    QuitPrints(why);
    ExtractsWire(QuitCommand(why), "");
    assert QuitBytes(why) + "" == QuitBytes(why);
    assert Body(QuitBytes(why)) == "QUIT :" + why;
    QuitIsCommand();
    BodyParses(QuitCommand(why), "QUIT :" + why);
    assert Printed(QuitCommand(why)) == QuitCommand(why);
  }

  /** A registered client's QUIT only asks for its disconnection. */
  lemma QuitDispatched(st: State, fd: int, why: string, answer: BotAnswer)
    requires fd in st.users && st.users[fd].account.registered && why != ""
    ensures Dispatch(st, fd, QuitCommand(why), answer) == Done(WithRequest(st, fd, why))
  {
    hide Request, Numeric;
    assert Execute(st, fd, QuitCommand(why), answer) == Quit(st, fd, [why]);
  }

  /** The next complete line of what has been received is a QUIT with this reason. */
  predicate NextIsQuit(buffer: string, why: string) {
    ExtractNext(buffer).Complete? && ExtractNext(buffer).line == "QUIT :" + why
  }

  /** The state when the line has been served. */
  function AfterQuit(st: State, fd: int, why: string, chunk: string): State
    requires fd in st.users && NextIsQuit(st.users[fd].inBuffer + chunk, why)
  {
    var u := st.users[fd];
    var rest := ExtractNext(u.inBuffer + chunk).rest;
    WithRequest(WithInput(st, fd, rest, u.received + chunk, u.lines + ["QUIT :" + why]), fd, why)
  }

  lemma QuitTaken(st: State, fd: int, why: string, chunk: string, oracle: Oracle)
    requires Reason(why) && fd in st.users && st.users[fd].account.registered && !st.users[fd].out.closing
    requires NextIsQuit(st.users[fd].inBuffer + chunk, why)
    ensures var u := st.users[fd];
            var st1 := WithInput(st, fd, u.inBuffer + chunk, u.received + chunk, u.lines);
            ServeTaken(st1, fd, "QUIT :" + why, ExtractNext(u.inBuffer + chunk).rest, oracle) ==
              AfterQuit(st, fd, why, chunk)
  {
    hide Parse, Dispatch, Request, LineSafe, ExtractNext;
    QuitRead(why);
    var u := st.users[fd];
    var rest := ExtractNext(u.inBuffer + chunk).rest;
    var st1 := WithInput(st, fd, u.inBuffer + chunk, u.received + chunk, u.lines);
    var taken := TakeLine(st1, fd, "QUIT :" + why, rest);
    assert taken == WithInput(st, fd, rest, u.received + chunk, u.lines + ["QUIT :" + why]);
    QuitDispatched(taken, fd, why, oracle(|u.lines|));
  }

  lemma QuitReceived(st: State, fd: int, why: string, chunk: Chunk, oracle: Oracle)
    requires Reason(why) && fd in st.users && st.users[fd].account.registered && !st.users[fd].out.closing
    requires NextIsQuit(st.users[fd].inBuffer + chunk, why)
    requires |st.users[fd].inBuffer| + |chunk| <= MAX_INPUT_BUFFER
    ensures ReceiveData(st, fd, Bytes(chunk), oracle) == Served(AfterQuit(st, fd, why, chunk), false)
  {
    var u := st.users[fd];
    var st1 := WithInput(st, fd, u.inBuffer + chunk, u.received + chunk, u.lines);
    var after := AfterQuit(st, fd, why, chunk);
    assert after.users[fd].out.closing && after.users[fd].inBuffer == ExtractNext(u.inBuffer + chunk).rest;
    hide Reason, ExtractNext, Parse, ServeTaken, AfterQuit, ProcessBuffer;
    ExtractShrinks(u.inBuffer + chunk);
    QuitTaken(st, fd, why, chunk, oracle);
    ProcessStep(st1, fd, oracle);
    ClosingIsRefused(after, fd, oracle);
  }

  // ------------------------------------------------------------------
  // The visit
  // ------------------------------------------------------------------

  /** With what poll and recv report, the next complete line of this client is its QUIT. */
  predicate BringsQuit(u: User, io: Io, why: string) {
    !io.revents.invalid && io.revents.input && io.recv.Bytes? && NextIsQuit(u.inBuffer + io.recv.chunk, why)
  }

  /** A registered member that is not to be disconnected yet. */
  predicate Member(st: State, fd: int) {
    && fd in st.users && !Virtual(fd)
    && st.users[fd].account.registered && st.users[fd].joined != {} && !st.users[fd].out.closing
  }

  /** The prefix is clean, and the QUIT line that tells the others has room. */
  predicate FarewellFits(a: Account, why: string) {
    CleanPrefix(PrefixOf(a)) && |PrefixOf(a)| + |why| + 10 <= MAX_MESSAGE_LENGTH
  }

  lemma FarewellOfQuit(st: State, fd: int, why: string, chunk: string, reason: string)
    requires Member(st, fd) && Reason(why) && NextIsQuit(st.users[fd].inBuffer + chunk, why)
    ensures var after := AfterQuit(st, fd, why, chunk);
            && fd in after.users && after.users[fd].joined == st.users[fd].joined
            && after.users[fd].account == st.users[fd].account
            && after.users[fd].out.closing && after.users[fd].out.reason == why
            && (Serialize(QuitMessage(after.users[fd], reason)).Success? <==> FarewellFits(st.users[fd].account, why))
  {
    var u := AfterQuit(st, fd, why, chunk).users[fd];
    assert u.account == st.users[fd].account && FinalReason(u.out, reason) == why;
    hide Serialize, LineSafe, ValidPrefix, PrefixOf, QuitMessage, FinalReason, AfterQuit, NextIsQuit;
    QuitLineFits(u, reason);
  }

  lemma QuitAttended(st: State, fd: int, why: string, io: Io)
    requires Healthy(st) && Member(st, fd) && Reason(why) && BringsQuit(st.users[fd], io, why)
    ensures Attend(st, fd, io) == Served(AfterQuit(st, fd, why, io.recv.chunk), false)
  {
    assert Framed(st.users[fd]);
    hide Inv, AllMarked, AllFramed, Framed, Reason, ReceiveData, Flush, AfterQuit, NextIsQuit, Evolves, FramedServed;
    ReceiveSound(st, fd, io.recv, io.oracle);
    QuitReceived(st, fd, why, io.recv.chunk, io.oracle);
  }

  /**
   * A visit in which a member's QUIT is the next line completes exactly when the
   * line that tells its channels fits: the client may use 504 bytes for its
   * reason, but its own prefix and 10 more bytes have to go with them.
   */
  lemma QuitVisit(st: State, fd: int, why: string, io: Io, shuttingDown: bool)
    requires Healthy(st) && Member(st, fd) && Reason(why) && BringsQuit(st.users[fd], io, why)
    ensures Visit(st, fd, io, shuttingDown).Done? <==> FarewellFits(st.users[fd].account, why)
  {
    hide Healthy, Reason, Attend, Disconnect, AfterQuit, FarewellFits, Serialize, QuitMessage, NextIsQuit;
    QuitAttended(st, fd, why, io);
    var after, reason := AfterQuit(st, fd, why, io.recv.chunk), AttendReason(st, fd, io);
    FarewellOfQuit(st, fd, why, io.recv.chunk, reason);
    DisconnectCompletes(after, fd, reason, shuttingDown);
  }

  lemma ThrownDisconnect(st: State, fd: int, reason: string, shuttingDown: bool)
    requires Disconnect(st, fd, reason, shuttingDown).Threw? && fd in st.users && st.users[fd].out.closing
    ensures Disconnect(st, fd, reason, shuttingDown).st == st
  {
    hide Serialize, FinalReason;
    assert st.users[fd := st.users[fd].(out := st.users[fd].out)] == st.users;
  }

  /** The exception leaves the client where it was, with the reason that caused it. */
  lemma QuitLeft(st: State, fd: int, why: string, io: Io, shuttingDown: bool)
    requires Healthy(st) && Member(st, fd) && Reason(why) && BringsQuit(st.users[fd], io, why)
    requires !FarewellFits(st.users[fd].account, why)
    ensures var r := Visit(st, fd, io, shuttingDown);
            && r.Threw? && Sound(r.st) && fd in r.st.users
            && r.st.users[fd].account == st.users[fd].account && r.st.users[fd].joined == st.users[fd].joined
            && r.st.users[fd].out.closing && r.st.users[fd].out.reason == why
  {
    hide Healthy, Sound, Reason, Attend, Disconnect, AfterQuit, FarewellFits, Serialize, QuitMessage, NextIsQuit,
      Continues;
    QuitVisit(st, fd, why, io, shuttingDown);
    VisitHealthy(st, fd, io, shuttingDown);
    QuitAttended(st, fd, why, io);
    var after, reason := AfterQuit(st, fd, why, io.recv.chunk), AttendReason(st, fd, io);
    FarewellOfQuit(st, fd, why, io.recv.chunk, reason);
    ThrownDisconnect(after, fd, reason, shuttingDown);
  }

  // ------------------------------------------------------------------
  // The run
  // ------------------------------------------------------------------

  lemma {:induction false} VisitAllAppend(st: State, a: seq<int>, b: seq<int>, ios: map<int, Io>, shuttingDown: bool)
    ensures var r := VisitAll(st, a, ios, shuttingDown);
            VisitAll(st, a + b, ios, shuttingDown) == if r.Threw? then r else VisitAll(r.st, b, ios, shuttingDown)
    decreases |a|
  {
    hide Visit, IoOf;
    if a == [] {
      assert a + b == b;
    } else {
      assert (a + b)[0] == a[0] && (a + b)[1..] == a[1..] + b;
      var r := Visit(st, a[0], IoOf(ios, a[0]), shuttingDown);
      if r.Done? {
        VisitAllAppend(r.st, a[1..], b, ios, shuttingDown);
      }
    }
  }

  lemma {:induction false} VisitAllHealthy(st: State, fds: seq<int>, ios: map<int, Io>, shuttingDown: bool)
    requires Healthy(st) && VisitAll(st, fds, ios, shuttingDown).Done?
    ensures Healthy(VisitAll(st, fds, ios, shuttingDown).st)
    decreases |fds|
  {
    hide Healthy, Visit, IoOf, Sound, Continues;
    if fds != [] {
      VisitHealthy(st, fds[0], IoOf(ios, fds[0]), shuttingDown);
      VisitAllHealthy(Visit(st, fds[0], IoOf(ios, fds[0]), shuttingDown).st, fds[1..], ios, shuttingDown);
    }
  }

  lemma VisitThrows(st: State, fds: seq<int>, i: nat, ios: map<int, Io>, shuttingDown: bool)
    requires i < |fds| && VisitAll(st, fds[..i], ios, shuttingDown).Done?
    requires Visit(VisitAll(st, fds[..i], ios, shuttingDown).st, fds[i], IoOf(ios, fds[i]), shuttingDown).Threw?
    ensures VisitAll(st, fds, ios, shuttingDown) ==
              Visit(VisitAll(st, fds[..i], ios, shuttingDown).st, fds[i], IoOf(ios, fds[i]), shuttingDown)
  {
    hide Visit, IoOf;
    assert fds == fds[..i] + fds[i..];
    VisitAllAppend(st, fds[..i], fds[i..], ios, shuttingDown);
  }

  /** When its turn comes, this member is still one and its next line is a QUIT that has no room. */
  ghost predicate FatalTurn(st: State, fd: int, io: Io, why: string) {
    Member(st, fd) && Reason(why) && BringsQuit(st.users[fd], io, why) && !FarewellFits(st.users[fd].account, why)
  }

  /** Once told to disconnect for a reason that does not fit, a member ends the drain too. */
  lemma DrainEndsAtMember(st: State, fd: int, shuttingDown: bool)
    requires Sound(st) && fd in st.users && !Virtual(fd) && st.users[fd].joined != {} && st.users[fd].out.closing
    requires !FarewellFits(st.users[fd].account, st.users[fd].out.reason)
    ensures CloseClients(st, shuttingDown).Threw?
  {
    hide Sound, CloseClients, CleanPrefix, LineSafe, PrefixOf, Ascending;
    CloseClientsExactly(st, shuttingDown);
    var fds := Ascending(Clients(st));
    AscendingEnumerates(Clients(st));
    assert fd in fds;
    var i :| 0 <= i < |fds| && fds[i] == fd;
    assert !Tells(st, fds, i, true);
  }

  /**
   * That one line, legal and within 512 bytes, ends the server: whatever arrives
   * besides and whoever is served before, the round is left by an exception, at
   * the latest when this client's turn has come, and so is run; and then the
   * drain of the destructor is left by one as well, at the same client.
   */
  lemma QuitEndsTheRun(st: State, arrival: Arrival, ios: map<int, Io>, shuttingDown: bool, i: nat, why: string,
                       later: seq<Waking>, closing: bool)
    requires Healthy(st) && i < |AfterArrival(st, arrival).order|
    requires var st0 := AfterArrival(st, arrival);
             var before := VisitAll(st0, st0.order[..i], ios, shuttingDown);
             before.Done? ==> FatalTurn(before.st, st0.order[i], IoOf(ios, st0.order[i]), why)
    ensures var r := Round(st, arrival, ios, shuttingDown);
            && r.Threw?
            && Wakings(st, [Ready(RoundIo(arrival, ios, shuttingDown))] + later) == r
            && (VisitAll(AfterArrival(st, arrival), AfterArrival(st, arrival).order[..i], ios, shuttingDown).Done? ==>
                  CloseClients(r.st, closing).Threw?)
  {
    hide Healthy, Sound, Visit, VisitAll, AfterArrival, FatalTurn, SweepAll, CloseClients, FarewellFits, IoOf;
    var st0 := AfterArrival(st, arrival);
    var before := VisitAll(st0, st0.order[..i], ios, shuttingDown);
    ArrivalHealthy(st, arrival);
    var round := RoundIo(arrival, ios, shuttingDown);
    assert ([Ready(round)] + later)[0] == Ready(round);
    if before.Done? {
      VisitAllHealthy(st0, st0.order[..i], ios, shuttingDown);
      FatalVisit(before.st, st0.order[i], IoOf(ios, st0.order[i]), why, shuttingDown, closing);
      VisitThrows(st0, st0.order, i, ios, shuttingDown);
    } else {
      assert st0.order == st0.order[..i] + st0.order[i..];
      VisitAllAppend(st0, st0.order[..i], st0.order[i..], ios, shuttingDown);
    }
  }

  lemma FatalVisit(st: State, fd: int, io: Io, why: string, shuttingDown: bool, closing: bool)
    requires Healthy(st) && FatalTurn(st, fd, io, why)
    ensures var r := Visit(st, fd, io, shuttingDown);
            r.Threw? && CloseClients(r.st, closing).Threw?
  {
    hide Healthy, Sound, Visit, CloseClients, FarewellFits, Reason, BringsQuit;
    QuitLeft(st, fd, why, io, shuttingDown);
    var r := Visit(st, fd, io, shuttingDown);
    DrainEndsAtMember(r.st, fd, closing);
  }
}
