// A flagged client that survives the round: two members of one channel, the
// output of both nearly full, and one line between them.
module LateFlag {
  import opened Results
  import opened IrcCasemap
  import opened Codec
  import opened CodecLaws
  import opened Walks
  import opened ServerState
  import opened Primitives
  import opened Membership
  import opened Commands
  import opened CommandLaws
  import opened DispatchLaws
  import opened ModeLines
  import opened Connection
  import opened ConnectionLaws
  import opened EventLoop
  import opened RunLaws
  import opened Forecast
  import opened Flagging
  import opened Scenes
  import opened Failures

  // ------------------------------------------------------------------
  // One line between two clients
  // ------------------------------------------------------------------

  /** "PRIVMSG b x", say. */
  function Note(nick: string): IrcMessage {
    Command("PRIVMSG", [nick, "x"])
  }

  /** As its reader sees it. */
  function Delivered(sender: Account, nick: string): IrcMessage {
    IrcMessage("PRIVMSG", [nick, "x"], PrefixOf(sender), true)
  }

  const NOTE_LENGTH: nat := 21

  lemma NotePlain(nick: string)
    requires ValidNick(nick) && |nick| == 1
    ensures Plain(Note(nick)) && Serialize(Note(nick)).Success? && Note(nick).command == "PRIVMSG"
  {
    NickIsMiddle(nick);
    CommandNames();
    assert Middles([nick, "x"]);
    assert [nick, "x"][1..] == ["x"];
    OneTotal("x");
    assert Total([nick, "x"]) == 4;
    hide Plain, Total, Middles, ValidCommand, Upper, ValidNick, Serialize;
    ShortIsPlain("PRIVMSG", [nick, "x"]);
    PlainRead(Note(nick));
  }

  lemma DeliveredPrints(sender: string, nick: string)
    requires ValidNick(sender) && |sender| == 1 && ValidNick(nick) && |nick| == 1
    ensures var r := Serialize(Delivered(Member(sender), nick));
            r.Success? && |r.value| == NOTE_LENGTH
  {
    NickIsMiddle(nick);
    CommandNames();
    ShortMember(sender);
    var m := Delivered(Member(sender), nick);
    assert LineSafe("x");
    hide LineSafe, PrefixOf, ValidPrefix, ValidCommand, Member, ValidNick, NeedsTrailingMarker;
    assert m.params[1..] == ["x"];
    assert ParamsLength(["x"], true) == 3;
    assert ParamsLength(m.params, true) == 5;
    ParamsPrintExactly(m.params, true);
    hide SerializeParams, ParamsLength;
    PrintsExactly(m);
  }

  lemma NoteDispatched(st: State, from: int, to: int, nick: string, answer: BotAnswer)
    requires from in st.users && st.users[from].account.registered && to != BOT
    requires FindNick(st, nick) == Some(to) && nick != "" && nick[0] != '#'
    requires Serialize(Delivered(st.users[from].account, nick)).Success?
    ensures Dispatch(st, from, Note(nick), answer) ==
              Done(Broadcast(st, {to}, Serialize(Delivered(st.users[from].account, nick)).value, None))
  {
    hide Numeric, FindNick, Serialize, TryRegister, Broadcast, PrefixOf, BotText;
    var m := Delivered(st.users[from].account, nick);
    var s := Broadcast(st, {to}, Serialize(m).value, None);
    assert Say(st, {to}, m) == Done(s);
    assert MessageToUser(st, from, nick, "x", false, answer) == Done(s);
    hide MessageToUser;
    assert Execute(st, from, Note(nick), answer) == Message(st, from, nick, "x", false, answer);
    BroadcastAccount(st, {to}, Serialize(m).value, from);
    AlreadyRegistered(s, from);
  }

  lemma BroadcastAccount(st: State, to: set<int>, line: string, id: int)
    requires id in st.users
    ensures var s := Broadcast(st, to, line, None);
            id in s.users && s.users[id].account == st.users[id].account
  {
  }

  /** Only the receiver's output, and what was read from the sender, have changed. */
  ghost predicate Poured(a: State, b: State, from: int, to: int) {
    && from in a.users && to in a.users && from != to
    && b == a.(users := b.users) && b.users.Keys == a.users.Keys
    && (forall i :: i in a.users && i != from && i != to ==> b.users[i] == a.users[i])
    && b.users[from].account == a.users[from].account && b.users[from].joined == a.users[from].joined
    && b.users[from].out == a.users[from].out && b.users[from].inBuffer == a.users[from].inBuffer
    && b.users[to] == a.users[to].(out := b.users[to].out)
  }

  /** Two clients with one-letter names, who can talk to each other. */
  ghost predicate Peers(st: State, from: int, to: int, sender: string, nick: string) {
    && Reached(st) && Listening(st, from) && Listening(st, to) && from != to
    && ValidNick(sender) && |sender| == 1 && ValidNick(nick) && |nick| == 1
    && st.users[from].account == Member(sender) && st.users[to].account == Member(nick)
    && FindNick(st, nick) == Some(to)
  }

  lemma NoteOffered(st: State, from: int, to: int, m: IrcMessage, line: string)
    requires Listening(st, from) && Listening(st, to) && from != to && Serialize(m).Success?
    requires Taken(st, from, m) == st.(users := Taken(st, from, m).users)
    requires Taken(st, from, m).users == st.users[from := Taken(st, from, m).users[from]]
    requires var u, v := st.users[from], Taken(st, from, m).users[from];
             v.account == u.account && v.joined == u.joined && v.out == u.out && v.inBuffer == ""
    ensures var s := Broadcast(Taken(st, from, m), {to}, line, None);
            Poured(st, s, from, to) && s.users[to].out == Offer(to, st.users[to].out, line, None)
  {
    hide Taken, Serialize, Offer;
  }

  lemma SendsNote(st: State, from: int, to: int, sender: string, nick: string) returns (s: State)
    requires Peers(st, from, to, sender, nick)
    ensures Serialize(Note(nick)).Success? && Serialize(Delivered(Member(sender), nick)).Success?
    ensures |Serialize(Delivered(Member(sender), nick)).value| == NOTE_LENGTH
    ensures Step(st, Sends(from, Note(nick))) == Done(s) && Reached(s) && Poured(st, s, from, to)
    ensures s.users[to].out == Offer(to, st.users[to].out, Serialize(Delivered(Member(sender), nick)).value, None)
  {
    var m := Note(nick);
    hide Reached, Healthy, Sound, Inv, Plain, Serialize, Taken, Dispatch, Step, Member, PrefixOf, Note, Offer,
      Broadcast, Delivered, FindNick, Follows, Poured;
    NotePlain(nick);
    DeliveredPrints(sender, nick);
    NoteStart(nick);
    hide ValidNick;
    RegisteredAs(sender);
    ReachedHealthy(st);
    TakenFrame(st, from, m);
    var taken := Taken(st, from, m);
    SameNicks(st, taken, nick);
    NoteDispatched(taken, from, to, nick, SILENT(|st.users[from].lines|));
    var line := Serialize(Delivered(Member(sender), nick)).value;
    NoteOffered(st, from, to, m, line);
    PouredOpen(st, Broadcast(taken, {to}, line, None), from, to);
    s := LineReaches(st, from, m);
  }

  lemma NoteStart(nick: string)
    requires ValidNick(nick)
    ensures nick != "" && nick[0] != '#'
  {
  }

  lemma RegisteredAs(nick: string)
    ensures Member(nick).registered
  {
  }

  lemma SameNicks(a: State, b: State, nick: string)
    requires b == a.(users := b.users)
    ensures FindNick(b, nick) == FindNick(a, nick)
  {
  }

  lemma PouredOpen(a: State, b: State, from: int, to: int)
    requires Poured(a, b, from, to) && !a.users[from].out.closing
    ensures from in b.users && !b.users[from].out.closing
  {
  }

  // ------------------------------------------------------------------
  // Filling an output buffer
  // ------------------------------------------------------------------

  lemma PouredTrans(a: State, b: State, c: State, from: int, to: int)
    requires Poured(a, b, from, to) && Poured(b, c, from, to)
    ensures Poured(a, c, from, to)
  {
  }

  lemma PouredPeers(a: State, b: State, from: int, to: int, sender: string, nick: string)
    requires Peers(a, from, to, sender, nick) && Poured(a, b, from, to) && Reached(b) && !b.users[to].out.closing
    ensures Peers(b, from, to, sender, nick)
  {
    hide Reached, ValidNick, Normalize;
  }

  lemma PouredNothing(st: State, from: int, to: int)
    requires from in st.users && to in st.users && from != to
    ensures Poured(st, st, from, to)
  {
  }

  /** So many lines, as long as there is room. */
  lemma {:induction false} Fills(st: State, from: int, to: int, sender: string, nick: string, n: nat) returns (s: State)
    requires Peers(st, from, to, sender, nick)
    requires |st.users[to].out.buffer| + n * NOTE_LENGTH <= MAX_OUTPUT_BUFFER
    ensures Peers(s, from, to, sender, nick) && Poured(st, s, from, to)
    ensures |s.users[to].out.buffer| == |st.users[to].out.buffer| + n * NOTE_LENGTH
    decreases n
  {
    hide Reached, Healthy, Sound, Serialize, Step, Member, Delivered, FindNick, Poured, Offer, ValidNick;
    PouredNothing(st, from, to);
    if n == 0 {
      s := st;
    } else {
      var t := SendsNote(st, from, to, sender, nick);
      LengthCheckIsIdle(to, st.users[to].out, Serialize(Delivered(Member(sender), nick)).value, None);
      PouredThere(st, t, from, to);
      PouredPeers(st, t, from, to, sender, nick);
      s := Fills(t, from, to, sender, nick, n - 1);
      PouredTrans(st, t, s, from, to);
    }
  }

  lemma PouredThere(a: State, b: State, from: int, to: int)
    requires Poured(a, b, from, to)
    ensures from in b.users && to in b.users
  {
  }

  // ------------------------------------------------------------------
  // The round
  // ------------------------------------------------------------------

  /** Both members of "#a" have room for less than one line more. */
  ghost predicate Brimful(st: State) {
    && Reached(st) && st.users.Keys == {BOT, 5, 6} && st.order == [5, 6]
    && Peers(st, 5, 6, "a", "b")
    && st.users[5].joined == {ROOM} && st.users[6].joined == {ROOM}
    && MAX_OUTPUT_BUFFER - NOTE_LENGTH < |st.users[5].out.buffer| <= MAX_OUTPUT_BUFFER
    && MAX_OUTPUT_BUFFER - NOTE_LENGTH < |st.users[6].out.buffer| <= MAX_OUTPUT_BUFFER
  }

  lemma MembersArePeers(st: State)
    requires TwoMembers(st)
    ensures Peers(st, 5, 6, "a", "b") && Peers(st, 6, 5, "b", "a")
  {
    CastNames();
    hide Reached, Normalize, ValidNick;
    ShortNicks();
  }

  lemma ShortNicks()
    ensures |"a"| == 1 && |"b"| == 1
  {
  }

  lemma PeersBack(st: State, from: int, to: int, sender: string, nick: string)
    requires Peers(st, from, to, sender, nick) && FindNick(st, sender) == Some(from)
    ensures Peers(st, to, from, nick, sender)
  {
    hide Reached, FindNick, ValidNick;
  }

  lemma Fillable(o: nat)
    requires o <= 15 * MAX_MESSAGE_LENGTH
    ensures var n := (MAX_OUTPUT_BUFFER - o) / NOTE_LENGTH;
            0 <= n && MAX_OUTPUT_BUFFER - NOTE_LENGTH < o + n * NOTE_LENGTH <= MAX_OUTPUT_BUFFER
  {
  }

  lemma FillsBoth(walk: Walk) returns (st: State)
    ensures Brimful(st)
  {
    hide Reached, Member, FindNick, ValidNick, Normalize;
    var s := SecondMember(walk);
    MembersArePeers(s);
    Fillable(|s.users[5].out.buffer|);
    var t := Fills(s, 6, 5, "b", "a", (MAX_OUTPUT_BUFFER - |s.users[5].out.buffer|) / NOTE_LENGTH);
    SameNicks(s, t, "b");
    PeersBack(t, 6, 5, "b", "a");
    Fillable(|t.users[6].out.buffer|);
    st := Fills(t, 5, 6, "a", "b", (MAX_OUTPUT_BUFFER - |t.users[6].out.buffer|) / NOTE_LENGTH);
  }

  /** One line more: "b" is flagged by it. */
  ghost predicate Spilled(st: State) {
    && Reached(st) && st.users.Keys == {BOT, 5, 6} && st.order == [5, 6]
    && !st.users[5].out.closing && st.users[6].out.closing && st.users[6].out.reason == OVERFLOW_REASON
    && st.users[5].joined == {ROOM} && st.users[6].joined == {ROOM} && st.users[6].account == Member("b")
    && MAX_OUTPUT_BUFFER - NOTE_LENGTH < |st.users[5].out.buffer| <= MAX_OUTPUT_BUFFER
  }

  lemma Spills(st: State) returns (s: State)
    requires Brimful(st)
    ensures Serialize(Note("b")).Success?
    ensures Step(st, Sends(5, Note("b"))) == Done(s) && Spilled(s)
  {
    hide Reached, Serialize, Step, Member, FindNick, ValidNick, Delivered, Offer;
    s := SendsNote(st, 5, 6, "a", "b");
    LengthCheckIsIdle(6, st.users[6].out, Serialize(Delivered(Member("a"), "b")).value, None);
  }

  lemma SpilledFarewell()
    ensures CleanPrefix(PrefixOf(Member("b"))) && LineSafe(OVERFLOW_REASON)
    ensures |PrefixOf(Member("b"))| + |OVERFLOW_REASON| + 10 == 43
  {
    CastNames();
    ShortMember("b");
    OverflowIsClean();
    assert |OVERFLOW_REASON| == 28;
  }

  /** The second loop passes "a", disconnects "b", and floods "a" with its farewell. */
  lemma SpilledSweep(st: State)
    requires Spilled(st)
    ensures var r := SweepAll(st, [5, 6], false);
            r.Done? && 5 in r.st.users && r.st.users[5].out.closing && 6 !in r.st.users
  {
    var fds := [5, 6];
    hide Reached, Healthy, Sound, Inv, SweepAll, PrefixOf, CleanPrefix, LineSafe, Member;
    ReachedHealthy(st);
    SpilledFarewell();
    assert Queue(st, fds);
    assert Load(st, fds, 0, 5, false) == 0;
    assert !Goes(st, fds, 0, false);
    assert Goes(st, fds, 1, false) && Why(st, fds, 1, false) == OVERFLOW_REASON;
    assert Load(st, fds, 1, 5, false) == 0;
    assert Share(st, 6, 5) by {
      assert ROOM in st.users[6].joined * st.users[5].joined;
    }
    assert Load(st, fds, 2, 5, false) == 43;
    assert Tells(st, fds, 1, false);
    SweepForeseen(st, fds, false);
    hide Goes, Tells, Load;
    assert fds[0] == 5 && fds[1] == 6;
  }

  lemma QuietVisit(st: State, fd: int, shuttingDown: bool)
    ensures Visit(st, fd, QUIET_IO, shuttingDown) == Done(st)
  {
  }

  lemma TwoVisits(st: State, s: State, io: Io)
    requires Visit(st, 5, io, false) == Done(s)
    ensures VisitAll(st, [5, 6], map[5 := io], false) == Done(s)
  {
    hide Visit;
    QuietVisit(s, 6, false);
    assert [5, 6][1..] == [6] && [6][1..] == [];
    assert IoOf(map[5 := io], 5) == io && IoOf(map[5 := io], 6) == QUIET_IO;
    assert VisitAll(s, [], map[5 := io], false) == Done(s);
    assert VisitAll(s, [6], map[5 := io], false) == Done(s);
  }

  /**
   * Two clients register, join "#a" and talk until the output of both is nearly
   * full. In the round that brings one line more, a client that is flagged when
   * its place in the second loop has passed is still there when the round ends.
   */
  lemma FlaggedRemains(walk: Walk) returns (st: State, s: State)
    ensures Reached(st) && Serialize(Note("b")).Success?
    ensures Round(st, NoArrival, map[5 := LineIo(Wire(Note("b")))], false) == Done(s)
    ensures 5 in s.users && s.users[5].out.closing && 6 in st.users && 6 !in s.users
  {
    hide Reached, Serialize, Visit, VisitAll, SweepAll, Peers, LineIo, Wire;
    st := FillsBoth(walk);
    var t := Spills(st);
    TwoVisits(st, t, LineIo(Wire(Note("b"))));
    SpilledSweep(t);
    s := SweepAll(t, [5, 6], false).st;
  }
}
