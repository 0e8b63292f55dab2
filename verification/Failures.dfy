// The failures of the server, each at the end of a run: a legal QUIT ends the
// loop, a MODE stays applied and untold, a long nickname keeps everyone out of
// a channel, and a flagged client survives the sweep.
module Failures {
  import opened Results
  import opened IrcCasemap
  import opened Codec
  import opened CodecLaws
  import opened Framing
  import opened ChannelModes
  import opened ModeLaws
  import opened Walks
  import opened ServerState
  import opened Primitives
  import opened Membership
  import opened ChannelLog
  import opened Commands
  import opened CommandLaws
  import opened DispatchLaws
  import opened NamesLaws
  import opened ModeLines
  import opened ReplyLaws
  import opened Connection
  import opened ConnectionLaws
  import opened DisconnectLaws
  import opened EventLoop
  import opened RunLaws
  import opened Shutdown
  import opened Forecast
  import opened Flagging
  import QuitLaws
  import opened Scenes

  // ------------------------------------------------------------------
  // The cast
  // ------------------------------------------------------------------

  lemma CastNames()
    ensures Normalize("a") == "a" && Normalize("b") == "b" && ValidNick("a") && ValidNick("b")
    ensures Normalize(BOT_NICK) == "marvin" && Normalize(HOME_CHANNEL) == "#bot"
  {
  }

  lemma BotEntered(st: State, key: string)
    requires key in st.channels
    ensures var s := BotJoin(st, key, false).st;
            s.nicks == st.nicks && s.order == st.order && s.channels.Keys == st.channels.Keys
  {
    hide Say, JoinMessage, Equal;
  }

  lemma BootFrame(walk: Walk)
    ensures var st := Boot(PASSWORD, walk).st;
            && st.users.Keys == {BOT} && st.nicks == map["marvin" := BOT] && st.order == [] && ROOM !in st.channels
  {
    CastNames();
    BootHealthy(PASSWORD, walk);
    BootIs(PASSWORD, walk);
    hide Boot, BotJoin, Healthy, Normalize;
    var st0 := FindOrCreate(Alone(PASSWORD, walk), HOME_CHANNEL);
    BotEntered(WithTopic(st0, "#bot", BOT_TOPIC), "#bot");
  }

  lemma ShortMember(nick: string)
    requires ValidNick(nick) && |nick| <= 9
    ensures Short(Member(nick)) && Member(nick).registered && ReplyTarget(Member(nick)) == nick
    ensures CleanPrefix(PrefixOf(Member(nick))) && |PrefixOf(Member(nick))| == |nick| + 4
  {
    hide ValidNick;
    ShortNames(Member(nick));
  }

  const ONE_IN: Chan := Chan(ROOM, "", {5}, {5}, {}, NO_FLAGS, [])
  const TWO_IN: Chan := Chan(ROOM, "", {5, 6}, {5}, {}, NO_FLAGS, [])

  /** "a" on descriptor 5 is alone in "#a". */
  ghost predicate OneMember(st: State) {
    && Reached(st) && st.users.Keys == {BOT, 5} && st.order == [5] && st.nicks.Keys == {"marvin", "a"}
    && Person(st, 5, Member("a"), {ROOM}, 10 * MAX_MESSAGE_LENGTH)
    && ROOM in st.channels && st.channels[ROOM] == ONE_IN
  }

  /** "b" on descriptor 6 has registered. */
  ghost predicate OneOutside(st: State) {
    && Reached(st) && st.users.Keys == {BOT, 5, 6} && st.order == [5, 6]
    && st.nicks.Keys == {"marvin", "a", "b"} && st.nicks["a"] == 5 && st.nicks["b"] == 6
    && Person(st, 5, Member("a"), {ROOM}, 10 * MAX_MESSAGE_LENGTH)
    && Person(st, 6, Member("b"), {}, 5 * MAX_MESSAGE_LENGTH)
    && ROOM in st.channels && st.channels[ROOM] == ONE_IN
  }

  /** And has joined. */
  ghost predicate TwoMembers(st: State) {
    && Reached(st) && st.users.Keys == {BOT, 5, 6} && st.order == [5, 6]
    && st.nicks.Keys == {"marvin", "a", "b"} && st.nicks["a"] == 5 && st.nicks["b"] == 6
    && Person(st, 5, Member("a"), {ROOM}, 15 * MAX_MESSAGE_LENGTH)
    && Person(st, 6, Member("b"), {ROOM}, 10 * MAX_MESSAGE_LENGTH)
    && ROOM in st.channels && st.channels[ROOM] == TWO_IN
  }

  lemma NewcomerFrame(st: State, s: State, fd: int, a: Account, nicks: map<string, int>, pending: nat)
    requires Newcomer(st, s, fd, a, nicks, pending)
    ensures Reached(s) && Person(s, fd, a, {}, pending)
    ensures s.channels == st.channels && s.nicks == nicks && s.order == st.order + [fd]
    ensures s.users.Keys == st.users.Keys + {fd}
    ensures forall other :: other in st.users && other != fd ==> s.users[other] == st.users[other]
  {
    hide Reached, Person;
  }

  lemma JoinedFrame(st: State, s: State, id: int)
    requires Joined(st, s, id)
    ensures id in st.users && s.users.Keys == st.users.Keys && s.nicks == st.nicks
    ensures s.channels == st.channels[ROOM := Admit(Found(st, ROOM), id)]
  {
    hide Filled, Admit, Found;
  }

  /** Somebody who was there hears the newcomer. */
  lemma StillThere(st: State, s: State, id: int, other: int, a: Account, joined: set<string>, pending: nat)
    requires Joined(st, s, id) && other != id && Person(st, other, a, joined, pending)
    requires pending + 5 * MAX_MESSAGE_LENGTH <= MAX_OUTPUT_BUFFER
    requires s.users.Keys == st.users.Keys && s.users[other].inBuffer == st.users[other].inBuffer
    ensures Person(s, other, a, joined, pending + 5 * MAX_MESSAGE_LENGTH)
  {
    hide Admit, Found;
    assert Fuller(st.users[other].out, s.users[other].out, 5);
  }

  lemma FirstMember(walk: Walk) returns (st: State)
    ensures OneMember(st) && st.nicks["a"] == 5
  {
    hide Reached, Short, Boot, Normalize, ValidNick, Newcomer, Joined, Person, Admit, Found, Welcoming;
    CastNames();
    ShortMember("a");
    BootReached(walk);
    BootFrame(walk);
    var boot := Boot(PASSWORD, walk).st;
    var s := Registers(boot, 5, "a", walk);
    NewcomerFrame(boot, s, 5, Member("a"), boot.nicks["a" := 5], 5 * MAX_MESSAGE_LENGTH);
    FirstRoom(s);
    st := Joins(s, 5, Member("a"), 5 * MAX_MESSAGE_LENGTH);
    JoinedFrame(s, st, 5);
  }

  lemma FirstRoom(st: State)
    requires ROOM !in st.channels
    ensures Welcoming(st) && Admit(Found(st, ROOM), 5) == ONE_IN
  {
    RoomName();
    hide Normalize;
  }

  lemma SecondRoom(st: State)
    requires ROOM in st.channels && st.channels[ROOM] == ONE_IN && 5 in st.users && Short(st.users[5].account)
    ensures Welcoming(st) && Admit(Found(st, ROOM), 6) == TWO_IN
  {
    RoomName();
    hide Normalize, Short;
  }

  lemma SecondClient(walk: Walk) returns (st: State)
    ensures OneOutside(st)
  {
    hide Reached, Short, Normalize, ValidNick, Newcomer;
    CastNames();
    var s := FirstMember(walk);
    st := Registers(s, 6, "b", walk);
    NewcomerFrame(s, st, 6, Member("b"), s.nicks["b" := 6], 5 * MAX_MESSAGE_LENGTH);
  }

  lemma PersonIs(st: State, fd: int, a: Account, joined: set<string>, pending: nat)
    requires Person(st, fd, a, joined, pending)
    ensures fd in st.users && st.users[fd].account == a && Listening(st, fd)
  {
  }

  lemma SecondMember(walk: Walk) returns (st: State)
    ensures TwoMembers(st)
  {
    hide Reached, Short, Normalize, ValidNick, Joined, Person, Admit, Found, Welcoming;
    CastNames();
    ShortMember("a");
    ShortMember("b");
    var s := SecondClient(walk);
    PersonIs(s, 5, Member("a"), {ROOM}, 10 * MAX_MESSAGE_LENGTH);
    SecondRoom(s);
    st := Joins(s, 6, Member("b"), 5 * MAX_MESSAGE_LENGTH);
    JoinedFrame(s, st, 6);
    StillThere(s, st, 6, 5, Member("a"), {ROOM}, 10 * MAX_MESSAGE_LENGTH);
  }

  // ------------------------------------------------------------------
  // A QUIT that ends the server
  // ------------------------------------------------------------------

  /** A reason that one legal line can carry, and the farewell of "a" cannot. */
  predicate LongReason(why: string) {
    QuitLaws.Reason(why) && |why| >= 498
  }

  lemma LongQuitIsFatal(st: State, why: string)
    requires OneMember(st) && LongReason(why) && |QuitLaws.QuitBytes(why)| <= MAX_MESSAGE_LENGTH
    ensures QuitLaws.FatalTurn(st, 5, LineIo(QuitLaws.QuitBytes(why)), why)
  {
    hide Reached, QuitLaws.Reason, PrefixOf, CleanPrefix, ExtractNext, QuitLaws.QuitBytes;
    CastNames();
    ShortMember("a");
    QuitLaws.QuitRead(why);
    var wire := QuitLaws.QuitBytes(why);
    assert st.users[5].inBuffer + wire == wire;
    hide Member, ValidNick, Normalize;
    RegisteredMember();
  }

  lemma RegisteredMember()
    ensures Member("a").registered
  {
  }

  /** A client registers, joins a channel and sends one line: the loop of run is left, and so is the drain. */
  lemma LongQuitEndsTheRun(walk: Walk, why: string, shuttingDown: bool, later: seq<Waking>, closing: bool)
    returns (st: State)
    requires LongReason(why)
    ensures Reached(st) && |QuitLaws.QuitBytes(why)| <= MAX_MESSAGE_LENGTH
    ensures var ios := map[5 := LineIo(QuitLaws.QuitBytes(why))];
            var r := Round(st, NoArrival, ios, shuttingDown);
            && r.Threw? && CloseClients(r.st, closing).Threw?
            && Wakings(st, [Ready(RoundIo(NoArrival, ios, shuttingDown))] + later).Threw?
  {
    QuitLaws.QuitRead(why);
    hide Reached, Healthy, Sound, Inv, Round, Wakings, CloseClients, QuitLaws.QuitBytes, Visit, QuitLaws.FatalTurn,
      Person;
    st := FirstMember(walk);
    ReachedHealthy(st);
    LongQuitIsFatal(st, why);
    var ios := map[5 := LineIo(QuitLaws.QuitBytes(why))];
    assert st.order[..0] == [];
    QuitLaws.QuitEndsTheRun(st, NoArrival, ios, shuttingDown, 0, why, later, closing);
  }

  // ------------------------------------------------------------------
  // A nickname that closes a channel
  // ------------------------------------------------------------------

  /** A nickname that can be announced, and listed beside no other overhead. */
  predicate LongNick(nick: string) {
    ValidNick(nick) && 484 <= |nick| <= 497
  }

  lemma {:induction false} NormalizeLength(s: string)
    ensures |Normalize(s)| == |s|
  {
  }

  lemma LongNickSafe(nick: string)
    requires LongNick(nick)
    ensures LineSafe(nick) && |Normalize(nick)| == |nick|
  {
    NickIsMiddle(nick);
    NormalizeLength(nick);
  }

  lemma LongNickPrints(nick: string)
    requires LongNick(nick)
    ensures Serialize(IrcMessage("NICK", [nick], PrefixOf(Member("a")), true)).Success?
  {
    CastNames();
    ShortMember("a");
    LongNickSafe(nick);
    var m := IrcMessage("NICK", [nick], PrefixOf(Member("a")), true);
    assert ValidCommand("NICK");
    assert PrintableParams(m.params);
    hide PrefixOf, LineSafe, Serialize, ValidPrefix, ValidCommand, NeedsTrailingMarker, ValidNick, Member;
    PrintsExactly(m);
  }

  lemma LongNickFree(st: State, nick: string)
    requires LongNick(nick) && 5 in st.users && st.nicks.Keys == {"marvin", "a", "b"}
    ensures AssignNick(st, 5, nick).Some?
  {
    LongNickSafe(nick);
    hide Normalize, ValidNick;
    assert forall n :: n in st.nicks ==> |n| <= 6;
  }

  lemma LongNickRuns(st: State, nick: string, answer: BotAnswer)
    requires LongNick(nick) && 5 in st.users && st.users[5].account == Member("a") && AssignNick(st, 5, nick).Some?
    ensures var st1 := AssignNick(st, 5, nick).value;
            var r := SayRelated(st1, 5, IrcMessage("NICK", [nick], PrefixOf(Member("a")), true));
            Dispatch(st, 5, Command("NICK", [nick]), answer) ==
              if r.Threw? then r else TryRegister(r.st, 5)
  {
    LongNickSafe(nick);
    RegisteredMember();
    assert Member("a").nick != nick by {
      assert |Member("a").nick| == 1;
    }
    hide Numeric, AssignNick, SayRelated, TryRegister, ValidNick, PrefixOf, Member;
    assert Execute(st, 5, Command("NICK", [nick]), answer) == Nick(st, 5, [nick]);
  }

  /** The change is announced, and touches nobody else. */
  ghost predicate LongRenamed(st: State, s: State, nick: string) {
    && s.users.Keys == st.users.Keys && s.channels == st.channels && Filled(st, s, 1)
    && forall i :: i in st.users ==>
         && s.users[i].joined == st.users[i].joined
         && s.users[i].account == if i == 5 then Member("a").(nick := nick) else st.users[i].account
  }

  /** The new nickname before it is announced. */
  lemma LongNickAssigned(st: State, nick: string)
    requires 5 in st.users && st.users[5].account == Member("a") && AssignNick(st, 5, nick).Some?
    ensures var st1 := AssignNick(st, 5, nick).value;
            && st1.users.Keys == st.users.Keys && st1.channels == st.channels
            && forall i :: i in st.users ==>
                 && st1.users[i].joined == st.users[i].joined && st1.users[i].out == st.users[i].out
                 && st1.users[i].account == if i == 5 then Member("a").(nick := nick) else st.users[i].account
  {
    assert Member("a").nickGiven;
    AssignNickFrame(st, 5, nick);
    hide AssignNick, Member;
  }

  lemma LongNickSaid(st: State, to: set<int>, m: IrcMessage, nick: string)
    requires 5 in st.users && st.users[5].account == Member("a") && AssignNick(st, 5, nick).Some?
    ensures LongRenamed(st, Say(AssignNick(st, 5, nick).value, to, m).st, nick)
  {
    hide AssignNick, Say, Filled, Member;
    var st1 := AssignNick(st, 5, nick).value;
    LongNickAssigned(st, nick);
    SayRegistry(st1, to, m);
    SayFilled(st1, to, m);
    NotFilled(st, st1);
    FilledTrans(st, st1, Say(st1, to, m).st, 0, 1);
  }

  lemma AlreadyRegistered(st: State, id: int)
    requires id in st.users && st.users[id].account.registered
    ensures TryRegister(st, id) == Done(st)
  {
    hide Welcome;
  }

  lemma LongNickDispatched(st: State, nick: string, answer: BotAnswer)
    requires LongNick(nick) && 5 in st.users && st.users[5].account == Member("a")
             && st.nicks.Keys == {"marvin", "a", "b"}
    ensures var r := Dispatch(st, 5, Command("NICK", [nick]), answer);
            r.Done? && LongRenamed(st, r.st, nick)
  {
    RegisteredMember();
    LongNickFree(st, nick);
    LongNickRuns(st, nick, answer);
    LongNickPrints(nick);
    hide AssignNick, Say, Related, PrefixOf, Dispatch, Filled, TryRegister, Member, Serialize;
    var st1 := AssignNick(st, 5, nick).value;
    NickUsers(st, 5, nick);
    var to, m := {5} + Related(st1, 5), IrcMessage("NICK", [nick], PrefixOf(Member("a")), true);
    LongNickSaid(st, to, m, nick);
    SayPrints(st1, to, m);
    AlreadyRegistered(Say(st1, to, m).st, 5);
  }

  lemma SayPrints(st: State, to: set<int>, m: IrcMessage)
    ensures Say(st, to, m).Done? <==> Serialize(m).Success?
  {
    hide Serialize;
  }

  // ------------------------------------------------------------------
  // A line that throws
  // ------------------------------------------------------------------

  lemma OverflowIsClean()
    ensures LineSafe(OVERFLOW_REASON) && |OVERFLOW_REASON| <= 30
  {
  }

  lemma DefaultIsClean()
    ensures LineSafe("Client disconnected") && |"Client disconnected"| <= 30
  {
  }

  lemma ShortFarewell(u: User, reason: string)
    requires CleanPrefix(PrefixOf(u.account)) && |PrefixOf(u.account)| <= 100
    requires u.out.closing && u.out.reason in {OVERFLOW_REASON, "Client disconnected"}
    ensures Serialize(QuitMessage(u, reason)).Success?
  {
    OverflowIsClean();
    DefaultIsClean();
    hide LineSafe, PrefixOf, Serialize, QuitMessage, ValidPrefix;
    assert FinalReason(u.out, reason) == u.out.reason;
    QuitLineFits(u, reason);
  }

  lemma RequestAfter(o: Output, p: Output)
    requires Heard(o, p) && !o.closing
    ensures var q := Request(p, "");
            q.closing && q.reason == if p.closing then OVERFLOW_REASON else "Client disconnected"
  {
  }

  /** The line that the others are told then. */
  function ThrownFarewell(st: State, fd: int): IrcMessage
    requires fd in st.users
  {
    IrcMessage("QUIT", [st.users[fd].out.reason], PrefixOf(st.users[fd].account), true)
  }

  lemma ThrownVisit(st: State, fd: int, m: IrcMessage, closed: State)
    requires Sound(st) && Listening(st, fd) && Plain(m) && Serialize(m).Success?
    requires Answered(st, fd, m) == Served(closed, false)
    ensures exists reason :: Step(st, Sends(fd, m)) == Disconnect(closed, fd, reason, false)
  {
    hide Serialize, Attend, Plain, Sound, Answered, Disconnect;
    LineAttended(st, fd, m);
    var reason := AttendReason(st, fd, LineIo(Wire(m)));
    assert Step(st, Sends(fd, m)) == Disconnect(closed, fd, reason, false);
  }

  lemma ThrownCloses(st: State, fd: int, m: IrcMessage, r: Outcome)
    requires Sound(st) && Listening(st, fd) && Serialize(m).Success? && m.command != "QUIT"
    requires r.Threw? && r == Dispatch(Taken(st, fd, m), fd, m, SILENT(|st.users[fd].lines|))
    ensures var closed := WithRequest(r.st, fd, "");
            && Answered(st, fd, m) == Served(closed, false)
            && closed.users[fd].account == r.st.users[fd].account && closed.users[fd].joined == r.st.users[fd].joined
            && closed.users[fd].out.closing && closed.users[fd].out.reason in {OVERFLOW_REASON, "Client disconnected"}
  {
    hide Serialize, Dispatch, Sound, Inv, Taken, Heard, AllHeard, Request;
    TakenFrame(st, fd, m);
    DispatchHeard(Taken(st, fd, m), fd, m, SILENT(|st.users[fd].lines|));
    OneHeard(Taken(st, fd, m), r.st, fd);
    RequestAfter(st.users[fd].out, r.st.users[fd].out);
  }

  /** What becomes of everybody else. */
  ghost predicate LeftBehind(closed: State, s: State, fd: int)
    requires fd in closed.users
  {
    && s.users.Keys == closed.users.Keys - {fd}
    && (forall key ::
          && (key in s.channels <==> key in closed.channels && closed.channels[key].members != {fd})
          && (key in s.channels ==> s.channels[key] == Without(closed.channels[key], fd)))
    && (closed.users[fd].joined != {} ==>
          && Serialize(ThrownFarewell(closed, fd)).Success?
          && Parted(closed, s, fd, Serialize(ThrownFarewell(closed, fd)).value))
  }

  lemma ClosedLeaves(closed: State, fd: int, reason: string)
    requires fd in closed.users && !Virtual(fd)
    requires var u := closed.users[fd];
             && CleanPrefix(PrefixOf(u.account)) && |PrefixOf(u.account)| <= 100
             && u.out.closing && u.out.reason in {OVERFLOW_REASON, "Client disconnected"}
    ensures var r := Disconnect(closed, fd, reason, false);
            r.Done? && LeftBehind(closed, r.st, fd)
  {
    var u := closed.users[fd];
    assert QuitMessage(u, reason) == ThrownFarewell(closed, fd);
    hide Serialize, Disconnect, PrefixOf, CleanPrefix, QuitMessage, ThrownFarewell;
    ShortFarewell(u, reason);
    DisconnectParts(closed, fd, reason, false);
    DisconnectChannels(closed, fd, reason, false);
  }

  /**
   * A client with short names whose line throws is disconnected by the visit that
   * brings it: it leaves every channel, and those it shared one with are told.
   */
  lemma ThrownLine(st: State, fd: int, m: IrcMessage, r: Outcome) returns (s: State)
    requires Reached(st) && Listening(st, fd) && Plain(m) && Serialize(m).Success? && m.command != "QUIT"
    requires r.Threw? && r == Dispatch(Taken(st, fd, m), fd, m, SILENT(|st.users[fd].lines|)) && fd in r.st.users
    requires CleanPrefix(PrefixOf(r.st.users[fd].account)) && |PrefixOf(r.st.users[fd].account)| <= 100
    ensures Step(st, Sends(fd, m)) == Done(s) && Reached(s)
    ensures LeftBehind(WithRequest(r.st, fd, ""), s, fd)
  {
    hide Reached, Healthy, Sound, Inv, Plain, Serialize, Dispatch, Taken, Step, Disconnect, LeftBehind, PrefixOf,
      CleanPrefix, Answered, Request;
    ReachedHealthy(st);
    ThrownCloses(st, fd, m, r);
    var closed := WithRequest(r.st, fd, "");
    ThrownVisit(st, fd, m, closed);
    var reason :| Step(st, Sends(fd, m)) == Disconnect(closed, fd, reason, false);
    ClosedLeaves(closed, fd, reason);
    s := Step(st, Sends(fd, m)).st;
    StepReached(st, Sends(fd, m));
  }

  // ------------------------------------------------------------------
  // A channel nobody can join any more
  // ------------------------------------------------------------------

  lemma LongNamedKeepsOut(st: State, nick: string)
    requires LongNick(nick) && 5 in st.users && 6 in st.users && st.users[5].account.nick == nick
    requires st.users[6].account == Member("b") && ROOM in st.channels && st.channels[ROOM] == ONE_IN
    ensures !JoinFits(st, 6, ROOM)
  {
    RoomName();
    CastNames();
    ShortMember("b");
    hide Normalize, Member, AnnouncementFits, TopicFits, ReplyTarget;
    assert Displayed(st, ONE_IN, 5) == "@" + nick;
  }

  /** What a JOIN that throws has already done. */
  lemma ThrownJoin(st: State, id: int)
    requires Inv(st) && id in st.users && st.users[id].account.registered && Admits(st, id, ROOM, "")
    requires JoinOne(st, id, ROOM, "").Threw?
    ensures var s := JoinOne(st, id, ROOM, "").st;
            id in s.users && s.users[id].account == st.users[id].account
              && s.users[id].joined == st.users[id].joined + {ROOM}
  {
    hide Inv, Admits, JoinOne, JoinReplies, Enter, FindOrCreate, Replay, Quiet;
    RoomName();
    JoinRuns(st, id, ROOM, "");
    RoomEntered(st, id);
    var st1 := Enter(FindOrCreate(st, ROOM), id, ROOM);
    JoinRepliesQuiet(st1, id, ROOM);
    SaidOnly(st1, JoinReplies(st1, id, ROOM).st);
  }

  /** "a" has changed its nickname to a long one. */
  ghost predicate LongNamedInside(st: State, nick: string) {
    && Reached(st) && st.users.Keys == {BOT, 5, 6} && Inv(st)
    && st.users[5].account.nick == nick && Person(st, 6, Member("b"), {}, 6 * MAX_MESSAGE_LENGTH)
    && ROOM in st.channels && st.channels[ROOM] == ONE_IN
  }

  lemma LongNickPlain(nick: string)
    requires LongNick(nick)
    ensures Plain(Command("NICK", [nick]))
  {
    LongNickSafe(nick);
    hide Plain;
    NickPlain(nick);
  }

  lemma ChangesNick(st: State, nick: string) returns (s: State)
    requires OneOutside(st) && LongNick(nick)
    ensures Plain(Command("NICK", [nick])) && Serialize(Command("NICK", [nick])).Success?
    ensures Step(st, Sends(5, Command("NICK", [nick]))) == Done(s) && LongNamedInside(s, nick)
  {
    var m := Command("NICK", [nick]);
    hide Reached, Healthy, Sound, Inv, Plain, Serialize, Follows, Taken, Dispatch, Step, Member, Filled;
    LongNickPlain(nick);
    PlainRead(m);
    ReachedHealthy(st);
    TakenFrame(st, 5, m);
    var taken := Taken(st, 5, m);
    LongNickDispatched(taken, nick, SILENT(|st.users[5].lines|));
    var r := Dispatch(taken, 5, m, SILENT(|st.users[5].lines|));
    StillOpen(taken, r.st, 5, 15);
    StillOpen(taken, r.st, 6, 5);
    s := LineReaches(st, 5, m);
    ReachedHealthy(s);
    FollowsFrame(taken, s);
  }

  lemma StillOpen(a: State, b: State, id: int, lines: nat)
    requires Filled(a, b, 1) && id in a.users && !a.users[id].out.closing
    requires |a.users[id].out.buffer| <= lines * MAX_MESSAGE_LENGTH && lines <= 100
    ensures id in b.users && !b.users[id].out.closing && |b.users[id].out.buffer| <= (lines + 1) * MAX_MESSAGE_LENGTH
  {
    assert Fuller(a.users[id].out, b.users[id].out, 1);
  }

  /** For "b", joining "#a" now ends with its disconnection. */
  lemma CannotJoin(st: State, nick: string) returns (s: State)
    requires LongNick(nick) && LongNamedInside(st, nick)
    ensures Serialize(Command("JOIN", [ROOM])).Success?
    ensures Step(st, Sends(6, Command("JOIN", [ROOM]))) == Done(s) && Reached(s) && s.users.Keys == {BOT, 5}
  {
    var m := Command("JOIN", [ROOM]);
    hide Reached, Healthy, Sound, Inv, Plain, Serialize, Taken, Dispatch, JoinOne, Step, JoinFits, Admits, Member,
      Welcoming, LeftBehind, PrefixOf, CleanPrefix, Short;
    CastNames();
    ShortMember("b");
    JoinPlain();
    PlainRead(m);
    ReachedHealthy(st);
    TakenFrame(st, 6, m);
    var taken := Taken(st, 6, m);
    OpenToB(taken);
    LongNamedKeepsOut(taken, nick);
    JoinCompletes(taken, 6, ROOM, "");
    ThrownJoin(taken, 6);
    JoinDispatched(taken, 6, SILENT(|st.users[6].lines|));
    var r := JoinOne(taken, 6, ROOM, "");
    s := ThrownLine(st, 6, m, r);
    LeftKeys(WithRequest(r.st, 6, ""), s, 6);
  }

  lemma OpenToB(st: State)
    requires Inv(st) && 6 in st.users && ROOM in st.channels && st.channels[ROOM] == ONE_IN
    ensures Admits(st, 6, ROOM, "")
  {
    RoomName();
    hide Inv, ValidChannelName, Normalize;
  }

  lemma LeftKeys(closed: State, s: State, fd: int)
    requires fd in closed.users && LeftBehind(closed, s, fd)
    ensures s.users.Keys == closed.users.Keys - {fd}
  {
    hide Serialize, Parted;
  }

  /** A member's legal NICK, and the JOIN that is closed over it. */
  lemma LongNickKeepsOut(walk: Walk, nick: string) returns (st: State, s: State, t: State)
    requires LongNick(nick)
    ensures Reached(st) && 5 in st.users && 6 in st.users
    ensures Serialize(Command("NICK", [nick])).Success? && Serialize(Command("JOIN", [ROOM])).Success?
    ensures Step(st, Sends(5, Command("NICK", [nick]))) == Done(s)
    ensures 5 in s.users && s.users[5].account.nick == nick && ROOM in s.channels && 5 in s.channels[ROOM].members
    ensures Step(s, Sends(6, Command("JOIN", [ROOM]))) == Done(t) && Reached(t) && 6 !in t.users
  {
    hide Reached, Step, Serialize, Plain, Inv;
    st := SecondClient(walk);
    s := ChangesNick(st, nick);
    t := CannotJoin(s, nick);
  }

  // ------------------------------------------------------------------
  // A MODE that nobody is told of
  // ------------------------------------------------------------------

  /** A key that one legal line can set, and the announcement cannot hold. */
  predicate LongKey(key: string) {
    ValidMiddle(key) && 493 <= |key| <= 499
  }

  function KeyOp(key: string): ModeOp {
    ModeOp(Add, 'k', key, 0)
  }

  function KeyCommand(key: string): IrcMessage {
    Command("MODE", [ROOM, "+k", key])
  }

  lemma KeyParsed(key: string)
    requires key != ""
    ensures ParseModes("+k", [key], Add) == Parsed([KeyOp(key)])
  {
    assert "+k"[1..] == "k" && "k"[1..] == "" && [key][1..] == [];
    assert ParseModes("", [], Add) == Parsed([]);
    assert ParseModes("k", [key], Add) == Parsed([KeyOp(key)]);
  }

  lemma KeyValid(st: State, key: string)
    requires ROOM in st.channels && key != ""
    ensures ValidModes(st, ROOM, [ROOM, "+k", key]) == Some([KeyOp(key)])
  {
    KeyParsed(key);
    hide ParseModes, LookupIn, NicksIn;
    var members, lookup, nickOf := st.channels[ROOM].members, LookupIn(st), NicksIn(st);
    assert [ROOM, "+k", key][2..] == [key];
    assert [KeyOp(key)][1..] == [];
    assert Validate([], members, lookup, nickOf) == Success([]);
    assert Validate([KeyOp(key)], members, lookup, nickOf) == Success([KeyOp(key)]);
  }

  lemma KeyApplied(st: State, key: string)
    requires ROOM in st.channels && st.channels[ROOM] == TWO_IN && key != ""
    ensures var s := ApplyModes(st, ROOM, [KeyOp(key)]);
            && s == st.(channels := s.channels) && ROOM in s.channels
            && s.channels[ROOM] == TWO_IN.(flags := NO_FLAGS.(key := key, keyEnabled := true))
  {
    hide LookupIn;
    assert [KeyOp(key)][..0] == [];
    var m := Moded(NO_FLAGS, {5});
    assert Apply(m, {5, 6}, LookupIn(st), []) == m;
    assert Apply(m, {5, 6}, LookupIn(st), [KeyOp(key)]) == ApplyOp(m, {5, 6}, LookupIn(st), KeyOp(key));
  }

  lemma KeyParamsLength(key: string)
    requires ValidMiddle(key)
    ensures PrintableParams([ROOM, "+k", key])
    ensures ParamsLength([ROOM, "+k", key], false) == 7 + |key|
  {
    RoomName();
    assert ValidMiddle("+k");
    hide ValidMiddle, ValidChannelName;
    assert [ROOM, "+k", key][1..] == ["+k", key] && ["+k", key][1..] == [key];
    KeyAlone(key);
    assert ParamsLength(["+k", key], false) == 4 + |key|;
    MiddlesPrint([ROOM, "+k", key]);
  }

  lemma MiddlesPrint(params: seq<string>)
    requires Middles(params)
    ensures PrintableParams(params)
  {
  }

  lemma KeyAlone(key: string)
    requires ValidMiddle(key)
    ensures ParamsLength([key], false) == 1 + |key|
  {
  }

  lemma KeyUntold(st: State, key: string)
    requires Inv(st) && 5 in st.users && st.users[5].account == Member("a")
    requires ROOM in st.channels && st.channels[ROOM] == TWO_IN && LongKey(key)
    ensures ChangeModes(st, 5, ROOM, [ROOM, "+k", key]) == Threw(ApplyModes(st, ROOM, [KeyOp(key)]))
  {
    var params, ops := [ROOM, "+k", key], [KeyOp(key)];
    hide Inv, ValidModes, ChangeModes, ApplyModes, ParamsLength, PrintableParams, PrefixOf, ValidMiddle, Member,
      Normalize, ValidNick;
    CastNames();
    ShortMember("a");
    KeyValid(st, key);
    KeyParamsLength(key);
    AnnouncedExactly(st, 5, ROOM, params);
    KeyLetters(key);
  }

  lemma KeyLetters(key: string)
    ensures [ROOM, Letters([KeyOp(key)], '\0')] + Arguments([KeyOp(key)]) == [ROOM, "+k", key]
  {
    assert [KeyOp(key)][1..] == [];
    assert Letters([], '+') == "" && Arguments([]) == [];
    assert Letters([KeyOp(key)], '\0') == ['+'] + ['k'] + "";
    assert ['+'] + ['k'] + "" == "+k";
    assert Arguments([KeyOp(key)]) == [key] + [];
    assert [key] + [] == [key];
    assert [ROOM, "+k"] + [key] == [ROOM, "+k", key];
  }

  lemma KeyChanges(st: State, params: seq<string>)
    requires 5 in st.users && ROOM in st.channels && st.channels[ROOM] == TWO_IN
    requires |params| == 3 && params[0] == ROOM && params[1] == "+k"
    ensures Mode(st, 5, params) == ChangeModes(st, 5, ROOM, params)
  {
    RoomName();
    hide Numeric, NumericPlain, MissingParams, ChangeModes, Normalize;
    assert FindChan(st, ROOM) == Some(ROOM);
  }

  lemma ModeExecuted(st: State, id: int, params: seq<string>, answer: BotAnswer)
    requires id in st.users && st.users[id].account.registered && |params| >= 1
    ensures Execute(st, id, Command("MODE", params), answer) == Mode(st, id, params)
  {
    hide Numeric, MissingParams, Mode;
  }

  lemma KeyDispatched(st: State, key: string, answer: BotAnswer)
    requires 5 in st.users && st.users[5].account == Member("a")
    requires ROOM in st.channels && st.channels[ROOM] == TWO_IN && key != ""
    requires ChangeModes(st, 5, ROOM, [ROOM, "+k", key]).Threw?
    ensures Dispatch(st, 5, KeyCommand(key), answer) == ChangeModes(st, 5, ROOM, [ROOM, "+k", key])
  {
    hide Execute, Mode, ChangeModes, TryRegister, Member;
    RegisteredMember();
    KeyChanges(st, [ROOM, "+k", key]);
    ModeExecuted(st, 5, [ROOM, "+k", key], answer);
  }

  lemma KeyPlain(key: string)
    requires LongKey(key)
    ensures Plain(KeyCommand(key))
  {
    CommandNames();
    RoomName();
    assert ValidMiddle("+k");
    hide ValidMiddle, Plain, ValidCommand, Upper;
    assert [ROOM, "+k", key][1..] == ["+k", key] && ["+k", key][1..] == [key];
    OneTotal(key);
    assert Total(["+k", key]) == 4 + |key|;
    assert Total([ROOM, "+k", key]) == 7 + |key|;
    hide Total;
    ShortIsPlain("MODE", [ROOM, "+k", key]);
  }

  /** The QUIT of "a" after an exception. */
  function Goodbye(): IrcMessage {
    IrcMessage("QUIT", ["Client disconnected"], PrefixOf(Member("a")), true)
  }

  lemma GoodbyeHeard(closed: State, s: State, before: State)
    requires 5 in closed.users && 6 in closed.users && LeftBehind(closed, s, 5)
    requires closed.users[5].account == Member("a") && closed.users[5].joined == {ROOM}
             && closed.users[6].joined == {ROOM}
    requires closed.users[5].out.reason == "Client disconnected"
    requires 6 in before.users && closed.users[6] == before.users[6]
    requires !before.users[6].out.closing && |before.users[6].out.buffer| <= 100 * MAX_MESSAGE_LENGTH
    ensures Serialize(Goodbye()).Success?
    ensures 6 in s.users
    ensures s.users[6].out.accepted == before.users[6].out.accepted + [Delivery(Serialize(Goodbye()).value, None)]
  {
    assert ThrownFarewell(closed, 5) == Goodbye();
    hide Serialize, Goodbye, ThrownFarewell, Offer;
    assert Share(closed, 5, 6) by {
      assert ROOM in closed.users[5].joined * closed.users[6].joined;
    }
    SerializedFits(Goodbye());
    LengthCheckIsIdle(6, before.users[6].out, Serialize(Goodbye()).value, None);
  }

  lemma RoomLeft(closed: State, s: State, ch: Chan)
    requires 5 in closed.users && LeftBehind(closed, s, 5)
    requires ROOM in closed.channels && closed.channels[ROOM] == ch && ch.members == {5, 6}
    ensures ROOM in s.channels && s.channels[ROOM].flags == ch.flags && s.channels[ROOM].members == {6}
  {
    hide Serialize, Parted, ThrownFarewell;
    assert 6 in ch.members;
  }

  lemma SetsKey(st: State, key: string) returns (s: State)
    requires TwoMembers(st) && LongKey(key)
    ensures Serialize(KeyCommand(key)).Success? && Serialize(Goodbye()).Success?
    ensures Step(st, Sends(5, KeyCommand(key))) == Done(s) && Reached(s)
    ensures ROOM in s.channels && s.channels[ROOM].members == {6}
    ensures s.channels[ROOM].flags == NO_FLAGS.(key := key, keyEnabled := true)
    ensures 6 in s.users
    ensures s.users[6].out.accepted == st.users[6].out.accepted + [Delivery(Serialize(Goodbye()).value, None)]
  {
    var m := KeyCommand(key);
    hide Reached, Healthy, Sound, Inv, Plain, Serialize, Taken, Dispatch, Step, Member, LeftBehind, PrefixOf,
      CleanPrefix, ChangeModes, ApplyModes, ValidMiddle, KeyCommand, ValidNick, Normalize, Goodbye;
    CastNames();
    ShortMember("a");
    KeyPlain(key);
    PlainRead(m);
    ReachedHealthy(st);
    TakenFrame(st, 5, m);
    var taken := Taken(st, 5, m);
    KeyUntold(taken, key);
    KeyApplied(taken, key);
    KeyDispatched(taken, key, SILENT(|st.users[5].lines|));
    var r := ChangeModes(taken, 5, ROOM, [ROOM, "+k", key]);
    IsMode(key);
    s := ThrownLine(st, 5, m, r);
    var closed := WithRequest(r.st, 5, "");
    RoomLeft(closed, s, r.st.channels[ROOM]);
    GoodbyeHeard(closed, s, st);
  }

  lemma IsMode(key: string)
    ensures KeyCommand(key).command == "MODE"
  {
  }

  /**
   * An operator's legal MODE line: the key is set and stays, the operator is
   * closed over the announcement, and the other member hears of nothing but that.
   */
  lemma KeyStaysUntold(walk: Walk, key: string) returns (st: State, s: State)
    requires LongKey(key)
    ensures Reached(st) && ROOM in st.channels && st.channels[ROOM] == TWO_IN && 6 in st.users
    ensures Serialize(KeyCommand(key)).Success? && Serialize(Goodbye()).Success?
    ensures Step(st, Sends(5, KeyCommand(key))) == Done(s) && Reached(s)
    ensures ROOM in s.channels && s.channels[ROOM].flags == NO_FLAGS.(key := key, keyEnabled := true)
    ensures 6 in s.users
    ensures s.users[6].out.accepted == st.users[6].out.accepted + [Delivery(Serialize(Goodbye()).value, None)]
  {
    hide Reached, Step, Serialize, Plain;
    st := SecondMember(walk);
    s := SetsKey(st, key);
  }
}
