// What holds in every state of every run, and along it.
module RunLaws {
  import opened Results
  import opened IrcCasemap
  import opened Codec
  import opened Framing
  import opened Walks
  import opened ServerState
  import opened Primitives
  import opened Membership
  import opened Commands
  import opened CommandLaws
  import opened DispatchLaws
  import opened Connection
  import opened ConnectionLaws
  import opened DisconnectLaws
  import opened EventLoop

  /** The registry invariant, no member without its replay, no connection off the splitter. */
  ghost predicate Healthy(st: State) {
    Sound(st) && AllFramed(st)
  }

  // ------------------------------------------------------------------
  // The first state
  // ------------------------------------------------------------------

  lemma BotNickValid()
    ensures ValidNick(BOT_NICK) && Normalize(BOT_NICK) != ""
  {
  }

  /** The bot alone, with its nickname. */
  function Alone(password: string, walk: Walk): State {
    State(password,
          map[BOT := BotUser().(account := BotUser().account.(nick := BOT_NICK, nickGiven := true))],
          map[Normalize(BOT_NICK) := BOT], map[], [], true, walk)
  }

  lemma BotNamed(password: string, walk: Walk)
    ensures AssignNick(BareServer(password, walk), BOT, BOT_NICK) == Some(Alone(password, walk))
  {
    BotNickValid();
    var st := BareServer(password, walk);
    var named := BotUser().account.(nick := BOT_NICK, nickGiven := true);
    assert st.users[BOT := BotUser().(account := named)] == Alone(password, walk).users;
    assert st.nicks[Normalize(BOT_NICK) := BOT] == Alone(password, walk).nicks;
    hide Normalize, BotUser;
  }

  lemma AloneInv(password: string, walk: Walk)
    requires password != ""
    ensures Inv(Alone(password, walk))
  {
  }

  lemma AloneEnterable(password: string, walk: Walk)
    requires password != ""
    ensures var key := Normalize(HOME_CHANNEL);
            var st := FindOrCreate(Alone(password, walk), HOME_CHANNEL);
            && key in st.channels
            && Enterable(WithTopic(st, key, BOT_TOPIC), key)
  {
    var key := Normalize(HOME_CHANNEL);
    var base := Alone(password, walk);
    var st := WithTopic(FindOrCreate(base, HOME_CHANNEL), key, BOT_TOPIC);
    AloneInv(password, walk);
    HomeChannelName();
    hide Inv, ValidChannelName;
    assert st.(channels := st.channels - {key}) == base by {
      assert st.channels - {key} == map[];
    }
  }

  lemma BootIs(password: string, walk: Walk)
    ensures var key := Normalize(HOME_CHANNEL);
            Boot(password, walk) ==
            BotJoin(WithTopic(FindOrCreate(Alone(password, walk), HOME_CHANNEL), key, BOT_TOPIC), key, false)
  {
    BotNamed(password, walk);
    hide AssignNick, BareServer, Alone, BotJoin, Normalize, WithTopic;
  }

  lemma TopicSet(st: State, key: string)
    requires key in st.channels
    ensures WithTopic(st, key, BOT_TOPIC) == st.(channels := WithTopic(st, key, BOT_TOPIC).channels)
    ensures key in WithTopic(st, key, BOT_TOPIC).channels
  {
  }

  lemma AloneUsers(password: string, walk: Walk)
    ensures var st := FindOrCreate(Alone(password, walk), HOME_CHANNEL);
            && st.users.Keys == {BOT} && st.users[BOT].account.registered && st.password == password
            && Normalize(HOME_CHANNEL) in st.channels
  {
  }

  lemma BotGreets()
    ensures Serialize(IrcMessage("JOIN", [HOME_CHANNEL], "marvin!bot@bot.local", true)).Success?
  {
    assert LineSafe("marvin!bot@bot.local") && LineSafe("JOIN") && LineSafe(HOME_CHANNEL);
    assert ValidCommand("JOIN") && ValidPrefix("marvin!bot@bot.local");
    var line := PrefixPart("marvin!bot@bot.local") + "JOIN" + (" :" + HOME_CHANNEL) + CRLF;
    assert SerializeParams([HOME_CHANNEL], true) == Success(" :" + HOME_CHANNEL);
    assert |line| <= MAX_MESSAGE_LENGTH;
  }

  lemma AloneJoins(password: string, walk: Walk)
    ensures var key := Normalize(HOME_CHANNEL);
            var st := WithTopic(FindOrCreate(Alone(password, walk), HOME_CHANNEL), key, BOT_TOPIC);
            && BOT in st.users && key in st.channels && BOT !in st.channels[key].members
            && JoinMessage(Enter(st, BOT, key), BOT, key) ==
                 IrcMessage("JOIN", [HOME_CHANNEL], "marvin!bot@bot.local", true)
  {
    hide Normalize;
    var key := Normalize(HOME_CHANNEL);
    var st := WithTopic(FindOrCreate(Alone(password, walk), HOME_CHANNEL), key, BOT_TOPIC);
    assert st.channels[key] == NewChan(HOME_CHANNEL).(topic := BOT_TOPIC);
    assert Enter(st, BOT, key).channels[key].name == HOME_CHANNEL;
    assert Enter(st, BOT, key).users[BOT].account == st.users[BOT].account;
    assert PrefixOf(st.users[BOT].account) == "marvin!bot@bot.local";
  }

  lemma BotJoinCompletes(st: State, key: string)
    requires key in st.channels && BOT in st.users && BOT !in st.channels[key].members
    requires Serialize(JoinMessage(Enter(st, BOT, key), BOT, key)).Success?
    ensures BotJoin(st, key, false).Done?
  {
  }

  /** Bot::start cannot fail. */
  lemma BootCompletes(password: string, walk: Walk)
    ensures Boot(password, walk).Done?
  {
    hide BotJoin, Enter, JoinMessage, Serialize, Alone, FindOrCreate, WithTopic, Normalize, Boot;
    var key := Normalize(HOME_CHANNEL);
    AloneUsers(password, walk);
    AloneJoins(password, walk);
    BotGreets();
    BotJoinCompletes(WithTopic(FindOrCreate(Alone(password, walk), HOME_CHANNEL), key, BOT_TOPIC), key);
    BootIs(password, walk);
  }

  /** The whole of Bot::start leaves a healthy server. */
  lemma BootHealthy(password: string, walk: Walk)
    requires password != ""
    ensures Healthy(Boot(password, walk).st)
    ensures Boot(password, walk).st.users.Keys == {BOT} && Boot(password, walk).st.password == password
  {
    hide Inv, BotJoin, WithTopic, FindOrCreate, Enterable, Normalize, Boot, Alone, UserFollows;
    var key := Normalize(HOME_CHANNEL);
    AloneEnterable(password, walk);
    AloneUsers(password, walk);
    var st := WithTopic(FindOrCreate(Alone(password, walk), HOME_CHANNEL), key, BOT_TOPIC);
    TopicSet(FindOrCreate(Alone(password, walk), HOME_CHANNEL), key);
    BotJoinKeeps(st, key, false);
    BootIs(password, walk);
    assert Follows(st, Boot(password, walk).st);
  }

  // ------------------------------------------------------------------
  // Steps
  // ------------------------------------------------------------------

  lemma FramedElsewhere(a: State, b: State, fd: int)
    requires AllFramed(a)
    requires b.users.Keys <= a.users.Keys
    requires forall id :: id in b.users && id != fd ==> SameInput(a.users[id], b.users[id])
    requires fd in b.users && !Virtual(fd) ==> Framed(b.users[fd])
    ensures AllFramed(b)
  {
  }

  /** How one attended connection ends up; the others were not read from. */
  lemma AttendSound(st: State, fd: int, io: Io)
    requires Healthy(st) && fd in st.users && !Virtual(fd)
    ensures var r := Attend(st, fd, io);
            && Sound(r.st) && Evolves(st, r.st, fd)
            && FramedServed(st, r, fd)
  {
    hide Inv, AllMarked, Evolves, ReceiveData, Flush, Split;
    assert Framed(st.users[fd]);
    hide Sound, AllFramed, FramedServed;
    var read := if io.revents.input then ReceiveData(st, fd, io.recv, io.oracle) else Served(st, true);
    EvolvesSelf(st, fd);
    if io.revents.input {
      ReceiveSound(st, fd, io.recv, io.oracle);
    }
    assert Sound(read.st) && Evolves(st, read.st, fd) && FramedServed(st, read, fd) by {
      UntouchedFramed(st, fd);
    }
    if read.connected && io.revents.output {
      FlushSound(read.st, fd, io.send);
      var r := Flush(read.st, fd, io.send);
      EvolvesTrans(st, read.st, r.st, fd);
      FlushedFramed(st, read, r, fd);
    }
  }

  lemma UntouchedFramed(st: State, fd: int)
    requires fd in st.users
    ensures Framed(st.users[fd]) ==> FramedServed(st, Served(st, true), fd)
  {
  }

  lemma FlushedFramed(st: State, read: Served, r: Served, fd: int)
    requires fd in st.users && FramedServed(st, read, fd) && read.connected
    requires fd in r.st.users && SameInput(read.st.users[fd], r.st.users[fd])
    requires !r.connected ==> r.st.users[fd].out.closing
    ensures FramedServed(st, r, fd)
  {
  }

  /** What a step leaves of the state before it: connections further on, or gone, or new. */
  ghost predicate Continues(a: State, b: State) {
    && b.password == a.password && (BOT in a.users ==> BOT in b.users)
    && forall id :: id in a.users && id in b.users ==> Grows(a.users[id], b.users[id])
  }

  lemma GrowsTrans(u: User, v: User, w: User)
    requires Grows(u, v) && Grows(v, w)
    ensures Grows(u, w)
  {
  }

  lemma RemainHealthy(st: State, mid: State, after: State, fd: int)
    requires AllFramed(st) && Evolves(st, mid, fd) && Remain(mid, after) && Sound(after)
    requires !Virtual(fd) && after.users.Keys == mid.users.Keys - {fd}
    ensures Healthy(after) && Continues(st, after)
  {
    hide Sound, AllFramed;
    forall id | id in after.users
      ensures SameInput(st.users[id], after.users[id]) && Grows(st.users[id], after.users[id])
    {
      assert Grows(st.users[id], mid.users[id]) && Grows(mid.users[id], after.users[id]);
    }
    hide Grows;
    FramedElsewhere(st, after, fd);
  }

  lemma EvolvedHealthy(st: State, after: State, fd: int)
    requires AllFramed(st) && Evolves(st, after, fd) && Sound(after)
    requires fd in after.users ==> Framed(after.users[fd])
    ensures Healthy(after) && Continues(st, after)
  {
  }

  lemma DisconnectedHealthy(st: State, mid: State, fd: int, reason: string, shuttingDown: bool)
    requires AllFramed(st) && Evolves(st, mid, fd) && Sound(mid) && !Virtual(fd)
    ensures var r := Disconnect(mid, fd, reason, shuttingDown);
            Sound(r.st) && (r.Done? ==> Healthy(r.st) && Continues(st, r.st) && fd !in r.st.users)
  {
    hide Sound, AllFramed, Evolves, Remain, Disconnect, Healthy, Continues;
    DisconnectSound(mid, fd, reason, shuttingDown);
    var r := Disconnect(mid, fd, reason, shuttingDown);
    if r.Done? {
      RemainHealthy(st, mid, r.st, fd);
    }
  }

  lemma VisitHealthy(st: State, fd: int, io: Io, shuttingDown: bool)
    requires Healthy(st)
    ensures var r := Visit(st, fd, io, shuttingDown);
            Sound(r.st) && (r.Done? ==> Healthy(r.st) && Continues(st, r.st))
  {
    hide Sound, AllFramed, Evolves, Disconnect, Continues, Attend, FramedServed;
    EvolvesSelf(st, fd);
    EvolvesSelf(st, BOT);
    if fd in st.users && !Virtual(fd) {
      DisconnectedHealthy(st, st, fd, "Invalid socket descriptor", shuttingDown);
      AttendSound(st, fd, io);
      var r := Attend(st, fd, io);
      DisconnectedHealthy(st, r.st, fd, AttendReason(st, fd, io), shuttingDown);
      if r.connected {
        ConnectedFramed(st, r, fd);
        EvolvedHealthy(st, r.st, fd);
      }
    } else {
      ContinuesSelf(st);
    }
  }

  lemma ConnectedFramed(st: State, r: Served, fd: int)
    requires fd in st.users && FramedServed(st, r, fd) && r.connected
    ensures fd in r.st.users && Framed(r.st.users[fd])
  {
  }

  lemma ContinuesSelf(st: State)
    ensures Continues(st, st)
  {
  }

  lemma SweepHealthy(st: State, fd: int, shuttingDown: bool)
    requires Healthy(st)
    ensures var r := Sweep(st, fd, shuttingDown);
            Sound(r.st) && (r.Done? ==> Healthy(r.st) && Continues(st, r.st))
  {
    hide Sound, AllFramed, Evolves, Disconnect, Continues;
    EvolvesSelf(st, fd);
    ContinuesSelf(st);
    if fd in st.users && st.users[fd].out.closing {
      if Virtual(fd) {
        VirtualDisconnect(st, fd, st.users[fd].out.reason, shuttingDown);
      } else {
        DisconnectedHealthy(st, st, fd, st.users[fd].out.reason, shuttingDown);
      }
    }
  }

  lemma VirtualDisconnect(st: State, fd: int, reason: string, shuttingDown: bool)
    requires Virtual(fd)
    ensures Disconnect(st, fd, reason, shuttingDown) == Done(st)
  {
  }

  lemma AcceptHealthy(st: State, fd: int, host: string, walk: Walk)
    requires Healthy(st) && !Virtual(fd) && fd !in st.users
    ensures Healthy(Accept(st, fd, host, walk)) && Continues(st, Accept(st, fd, host, walk))
  {
    hide Inv;
    AcceptKeeps(st, fd, host, walk);
    NewUserFramed(host);
    hide Framed;
  }

  lemma NewUserFramed(host: string)
    ensures Framed(NewUser(host))
  {
  }

  lemma PauseHealthy(st: State)
    requires Healthy(st)
    ensures Healthy(st.(accepting := false)) && Continues(st, st.(accepting := false))
  {
    hide Inv, Framed;
    AcceptingAside(st, false);
  }

  /** Every event keeps the server healthy; an exception still leaves the registry sound. */
  lemma StepHealthy(st: State, e: Event)
    requires Healthy(st)
    ensures var r := Step(st, e);
            Sound(r.st) && (r.Done? ==> Healthy(r.st) && Continues(st, r.st))
  {
    hide Sound, AllFramed, Continues, Visit, Sweep, Accept;
    ContinuesSelf(st);
    match e
    case Connected(fd, host, walk) =>
      if !Virtual(fd) && fd !in st.users {
        AcceptHealthy(st, fd, host, walk);
      }
    case AcceptFailed => PauseHealthy(st);
    case Visited(fd, io, shuttingDown) => VisitHealthy(st, fd, io, shuttingDown);
    case Swept(fd, shuttingDown) => SweepHealthy(st, fd, shuttingDown);
  }

  lemma ArrivalHealthy(st: State, arrival: Arrival)
    requires Healthy(st)
    ensures Healthy(AfterArrival(st, arrival))
  {
    hide Healthy, Continues, Sound;
    match arrival
    case NoArrival =>
    case Arrived(fd, host, walk) => StepHealthy(st, Connected(fd, host, walk));
    case AcceptError => StepHealthy(st, AcceptFailed);
  }

  // ------------------------------------------------------------------
  // Runs
  // ------------------------------------------------------------------

  /** Every state of every run from a healthy state is healthy. */
  lemma {:induction false} TraceHealthy(st: State, events: seq<Event>, i: nat)
    requires Healthy(st) && i < |Trace(st, events)|
    ensures Healthy(Trace(st, events)[i]) && Trace(st, events)[i].password == st.password
    ensures BOT in st.users ==> BOT in Trace(st, events)[i].users
    decreases |events|
  {
    hide Healthy, Step, Grows, Sound;
    if i > 0 {
      StepHealthy(st, events[0]);
      TraceHealthy(Step(st, events[0]).st, events[1..], i - 1);
    }
  }

  /** Consecutive states of a run. */
  lemma {:induction false} TraceSteps(st: State, events: seq<Event>, i: nat)
    requires i + 1 < |Trace(st, events)|
    ensures Step(Trace(st, events)[i], events[i]) == Done(Trace(st, events)[i + 1])
    decreases |events|
  {
    hide Step;
    if i > 0 {
      TraceSteps(Step(st, events[0]).st, events[1..], i - 1);
    }
  }

  /** The invariant in every reachable state: from the bot's start, through any events. */
  lemma RunsAreHealthy(password: string, walk: Walk, events: seq<Event>, i: nat)
    requires password != "" && i < |Trace(Boot(password, walk).st, events)|
    ensures var st := Trace(Boot(password, walk).st, events)[i];
            Healthy(st) && st.password == password && BOT in st.users
  {
    hide Healthy, Trace, Boot;
    BootHealthy(password, walk);
    TraceHealthy(Boot(password, walk).st, events, i);
  }

  /** The same connection, at two moments of a run. */
  ghost predicate Stays(states: seq<State>, fd: int, i: nat, j: nat) {
    i <= j < |states| && forall k :: i <= k <= j ==> fd in states[k].users
  }

  lemma GrowsSelf(u: User)
    ensures Grows(u, u)
  {
  }

  /** Along a run a connection only moves forward. */
  lemma {:induction false} ConnectionsGrow(st: State, events: seq<Event>, fd: int, i: nat, j: nat)
    requires Healthy(st) && Stays(Trace(st, events), fd, i, j)
    ensures var states := Trace(st, events);
            Grows(states[i].users[fd], states[j].users[fd])
    decreases j - i
  {
    hide Healthy, Step, Trace, Grows, Sound;
    var states := Trace(st, events);
    if i == j {
      GrowsSelf(states[i].users[fd]);
    } else {
      assert fd in states[i].users && fd in states[i + 1].users;
      TraceHealthy(st, events, i);
      TraceSteps(st, events, i);
      StepHealthy(states[i], events[i]);
      assert Continues(states[i], states[i + 1]);
      ConnectionsGrow(st, events, fd, i + 1, j);
      GrowsTrans(states[i].users[fd], states[i + 1].users[fd], states[j].users[fd]);
    }
  }

  /**
   * Registration never reverts and happens after the right PASS, a nickname and
   * USER; the welcome is sent exactly once; afterwards user name and password
   * flag are frozen, and the nickname can only be replaced by a valid one.
   */
  lemma RegistrationIsFinal(password: string, walk: Walk, events: seq<Event>, fd: int, i: nat, j: nat)
    requires password != "" && !Virtual(fd)
    requires Stays(Trace(Boot(password, walk).st, events), fd, i, j)
    ensures var states := Trace(Boot(password, walk).st, events);
            var a, b := states[i].users[fd].account, states[j].users[fd].account;
            && b.welcomes == (if b.registered then 1 else 0)
            && (b.registered ==>
                  b.passOk && b.offered == password && b.userGiven && b.username != ""
                  && b.nickGiven && ValidNick(b.nick))
            && (a.registered ==>
                  b.registered && b.username == a.username && b.realname == a.realname
                  && b.passOk == a.passOk && b.welcomes == a.welcomes)
  {
    hide Healthy, Step, Trace, Boot, OutputFollows, ValidNick;
    BootHealthy(password, walk);
    ConnectionsGrow(Boot(password, walk).st, events, fd, i, j);
    RunsAreHealthy(password, walk, events, j);
    var states := Trace(Boot(password, walk).st, events);
    AccountSound(states[j], fd);
  }

  lemma AccountSound(st: State, fd: int)
    requires Healthy(st) && fd in st.users
    ensures AccountOk(st.password, fd, st.users[fd].account)
  {
  }

  /**
   * Output conservation along a run: what was sent and what is pending are the
   * accepted lines, in order; the buffer stays within its limit; both grow at
   * the end only; nothing is accepted after the first disconnect request, and
   * the reason of that request stays.
   */
  lemma OutputConserved(password: string, walk: Walk, events: seq<Event>, fd: int, i: nat, j: nat)
    requires password != ""
    requires Stays(Trace(Boot(password, walk).st, events), fd, i, j)
    ensures var states := Trace(Boot(password, walk).st, events);
            var a, b := states[i].users[fd].out, states[j].users[fd].out;
            && b.sent + b.buffer == Flatten(LinesOf(b.accepted))
            && |b.buffer| <= MAX_OUTPUT_BUFFER
            && a.sent <= b.sent && a.accepted <= b.accepted
            && (a.closing ==> b.closing && b.reason == a.reason && b.accepted == a.accepted)
  {
    hide Healthy, Step, Trace, Boot, AccountFollows;
    BootHealthy(password, walk);
    ConnectionsGrow(Boot(password, walk).st, events, fd, i, j);
    RunsAreHealthy(password, walk, events, j);
    OutputSound(Trace(Boot(password, walk).st, events)[j], fd);
  }

  lemma OutputSound(st: State, fd: int)
    requires Healthy(st) && fd in st.users
    ensures OutputOk(st.users[fd].out)
  {
  }

  /**
   * Framing in every reachable state: the lines a connection has had served and
   * its pending bytes are those of the splitter on everything received, however
   * the bytes were cut; the pending bytes are few and hold no LF.
   */
  lemma ConnectionsFramed(password: string, walk: Walk, events: seq<Event>, fd: int, i: nat)
    requires password != "" && !Virtual(fd)
    requires i < |Trace(Boot(password, walk).st, events)| && fd in Trace(Boot(password, walk).st, events)[i].users
    ensures var u := Trace(Boot(password, walk).st, events)[i].users[fd];
            Split(u.received, NeverQuits()) == Open(u.inBuffer, u.lines) && Idle(u.inBuffer)
  {
    hide Step, Trace, Boot, Split, Sound;
    RunsAreHealthy(password, walk, events, i);
    var u := Trace(Boot(password, walk).st, events)[i].users[fd];
    assert Framed(u);
    FramedIsIdle(u);
  }

  /**
   * The four registries agree in every reachable state. For every channel: its
   * key is its folded name, it has members, its operators are members, nobody
   * is both a member and invited, members are registered, everyone mentioned is
   * a live client or the bot, and a client is a member exactly when it has
   * joined.
   */
  lemma RegistriesAgree(password: string, walk: Walk, events: seq<Event>, i: nat, key: string)
    requires password != "" && i < |Trace(Boot(password, walk).st, events)|
    requires key in Trace(Boot(password, walk).st, events)[i].channels
    ensures var st := Trace(Boot(password, walk).st, events)[i];
            var ch := st.channels[key];
            && key == Normalize(ch.name) && ch.members != {}
            && ch.operators <= ch.members && ch.invited * ch.members == {}
            && ch.members + ch.invited <= st.users.Keys
            && (forall id :: id in st.users ==> (id in ch.members <==> key in st.users[id].joined))
            && (forall id :: id in ch.members ==> st.users[id].account.registered)
  {
    hide Step, Trace, Boot, AllFramed, AllMarked;
    RunsAreHealthy(password, walk, events, i);
    ChannelSound(Trace(Boot(password, walk).st, events)[i], key);
  }

  lemma ChannelSound(st: State, key: string)
    requires Healthy(st) && key in st.channels
    ensures ChanOk(st.channels[key], key, st.users)
    ensures forall id :: id in st.users ==> (id in st.channels[key].members <==> key in st.users[id].joined)
  {
  }

  /** And every client has exactly one entry in poll, which holds no other descriptor. */
  lemma PollListsClients(password: string, walk: Walk, events: seq<Event>, i: nat)
    requires password != "" && i < |Trace(Boot(password, walk).st, events)|
    ensures var st := Trace(Boot(password, walk).st, events)[i];
            && (forall fd :: fd in st.order <==> fd in st.users && fd != BOT)
            && (forall a, b :: 0 <= a < b < |st.order| ==> st.order[a] != st.order[b])
  {
    hide Step, Trace, Boot, AllFramed, AllMarked;
    RunsAreHealthy(password, walk, events, i);
  }

  // ------------------------------------------------------------------
  // Rounds are runs
  // ------------------------------------------------------------------

  /** Running through a list of events, as Trace does, for its last state. */
  function RunThrough(st: State, events: seq<Event>): Outcome
    decreases |events|
  {
    if events == [] then Done(st)
    else
      var st1 :- Step(st, events[0]);
      RunThrough(st1, events[1..])
  }

  lemma {:induction false} RunThroughAppend(st: State, a: seq<Event>, b: seq<Event>)
    ensures var r := RunThrough(st, a);
            RunThrough(st, a + b) == if r.Threw? then r else RunThrough(r.st, b)
    decreases |a|
  {
    hide Step;
    if a == [] {
      assert a + b == b;
    } else {
      assert (a + b)[0] == a[0] && (a + b)[1..] == a[1..] + b;
      var r := Step(st, a[0]);
      if r.Done? {
        RunThroughAppend(r.st, a[1..], b);
      }
    }
  }

  lemma {:induction false} RunThroughTrace(st: State, events: seq<Event>)
    requires RunThrough(st, events).Done?
    ensures |Trace(st, events)| == |events| + 1
    ensures Trace(st, events)[|events|] == RunThrough(st, events).st
    decreases |events|
  {
    hide Step;
    if events != [] {
      RunThroughTrace(Step(st, events[0]).st, events[1..]);
    }
  }

  function ArrivalEvents(arrival: Arrival): seq<Event> {
    match arrival
    case NoArrival => []
    case Arrived(fd, host, walk) => [Connected(fd, host, walk)]
    case AcceptError => [AcceptFailed]
  }

  function VisitEvents(fds: seq<int>, ios: map<int, Io>, shuttingDown: bool): seq<Event> {
    if fds == [] then []
    else [Visited(fds[0], IoOf(ios, fds[0]), shuttingDown)] + VisitEvents(fds[1..], ios, shuttingDown)
  }

  function SweepEvents(fds: seq<int>, shuttingDown: bool): seq<Event> {
    if fds == [] then [] else [Swept(fds[0], shuttingDown)] + SweepEvents(fds[1..], shuttingDown)
  }

  /** The events that one round goes through. */
  function RoundEvents(st: State, arrival: Arrival, ios: map<int, Io>, shuttingDown: bool): seq<Event> {
    var st0 := AfterArrival(st, arrival);
    var visits := VisitEvents(st0.order, ios, shuttingDown);
    var st1 := VisitAll(st0, st0.order, ios, shuttingDown);
    ArrivalEvents(arrival) + visits + (if st1.Done? then SweepEvents(st1.st.order, shuttingDown) else [])
  }

  lemma {:induction false} VisitsRun(st: State, fds: seq<int>, ios: map<int, Io>, shuttingDown: bool)
    ensures VisitAll(st, fds, ios, shuttingDown) == RunThrough(st, VisitEvents(fds, ios, shuttingDown))
    decreases |fds|
  {
    hide Visit, IoOf;
    if fds != [] {
      var e := Visited(fds[0], IoOf(ios, fds[0]), shuttingDown);
      assert Step(st, e) == Visit(st, fds[0], IoOf(ios, fds[0]), shuttingDown);
      var r := Step(st, e);
      assert VisitEvents(fds, ios, shuttingDown)[1..] == VisitEvents(fds[1..], ios, shuttingDown);
      if r.Done? {
        VisitsRun(r.st, fds[1..], ios, shuttingDown);
      }
    }
  }

  lemma {:induction false} SweepsRun(st: State, fds: seq<int>, shuttingDown: bool)
    ensures SweepAll(st, fds, shuttingDown) == RunThrough(st, SweepEvents(fds, shuttingDown))
    decreases |fds|
  {
    hide Sweep;
    if fds != [] {
      var e := Swept(fds[0], shuttingDown);
      assert Step(st, e) == Sweep(st, fds[0], shuttingDown);
      var r := Step(st, e);
      assert SweepEvents(fds, shuttingDown)[1..] == SweepEvents(fds[1..], shuttingDown);
      if r.Done? {
        SweepsRun(r.st, fds[1..], shuttingDown);
      }
    }
  }

  lemma ArrivalRuns(st: State, arrival: Arrival)
    ensures RunThrough(st, ArrivalEvents(arrival)) == Done(AfterArrival(st, arrival))
  {
    match arrival
    case NoArrival =>
    case Arrived(fd, host, walk) =>
      assert [Connected(fd, host, walk)][1..] == [];
      assert RunThrough(AfterArrival(st, arrival), []) == Done(AfterArrival(st, arrival));
    case AcceptError =>
      assert [AcceptFailed][1..] == [];
      assert RunThrough(AfterArrival(st, arrival), []) == Done(AfterArrival(st, arrival));
  }

  /**
   * A round of the loop is a stretch of a run, so whatever holds along every
   * run holds between the rounds of the server.
   */
  lemma RoundIsRun(st: State, arrival: Arrival, ios: map<int, Io>, shuttingDown: bool)
    ensures var r, events := Round(st, arrival, ios, shuttingDown), RoundEvents(st, arrival, ios, shuttingDown);
            && r == RunThrough(st, events)
            && (r.Done? ==> |Trace(st, events)| == |events| + 1 && Trace(st, events)[|events|] == r.st)
  {
    hide RunThrough, VisitAll, SweepAll, AfterArrival, ArrivalEvents, VisitEvents, SweepEvents, Step, Trace;
    var st0 := AfterArrival(st, arrival);
    var visits := VisitEvents(st0.order, ios, shuttingDown);
    var r := VisitAll(st0, st0.order, ios, shuttingDown);
    var sweeps := if r.Done? then SweepEvents(r.st.order, shuttingDown) else [];
    ArrivalRuns(st, arrival);
    VisitsRun(st0, st0.order, ios, shuttingDown);
    assert ArrivalEvents(arrival) + visits + sweeps == ArrivalEvents(arrival) + (visits + sweeps);
    RunThroughAppend(st, ArrivalEvents(arrival), visits + sweeps);
    RunThroughAppend(st0, visits, sweeps);
    if r.Done? {
      SweepsRun(r.st, r.st.order, shuttingDown);
    }
    if Round(st, arrival, ios, shuttingDown).Done? {
      RunThroughTrace(st, RoundEvents(st, arrival, ios, shuttingDown));
    }
  }
}
