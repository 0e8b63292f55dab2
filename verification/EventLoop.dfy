// One round of the poll loop, seen as steps of a state machine: accepting a
// connection, attending to one descriptor, sweeping one flagged client
// (Server::run, Server.cpp:1189-1310), and starting with the bot (Bot.cpp:53-142).
module EventLoop {
  import opened Results
  import opened IrcCasemap
  import opened Walks
  import opened ServerState
  import opened Primitives
  import opened Membership
  import opened Commands
  import opened Connection

  const BOT_TOPIC: string := "Ask me with !help or /msg marvin help"

  // ------------------------------------------------------------------
  // Starting
  // ------------------------------------------------------------------

  /** The bot's client before it has its nickname. */
  function BotUser(): User {
    NewUser("bot.local").(
      account := NewUser("bot.local").account.(
        username := "bot", realname := "ft_irc helper bot", passOk := true, userGiven := true, registered := true))
  }

  /** The server once its listening socket is in poll. */
  function BareServer(password: string, walk: Walk): State {
    State(password, map[BOT := BotUser()], map[], map[], [], true, walk)
  }

  /** Bot::start. */
  function Boot(password: string, walk: Walk): Outcome {
    match AssignNick(BareServer(password, walk), BOT, BOT_NICK)
    case None => Threw(BareServer(password, walk))
    case Some(st1) =>
      var key := Normalize(HOME_CHANNEL);
      BotJoin(WithTopic(FindOrCreate(st1, HOME_CHANNEL), key, BOT_TOPIC), key, false)
  }

  // ------------------------------------------------------------------
  // Attending to descriptors
  // ------------------------------------------------------------------

  /** What poll reported for one descriptor. */
  datatype Revents = Revents(invalid: bool, input: bool, output: bool, error: bool, hangup: bool)

  /** What poll, recv, send and the bot answer for one descriptor in one round. */
  datatype Io = Io(revents: Revents, recv: RecvResult, send: SendResult, oracle: Oracle)

  /** Receive first, then flush if the connection may continue. */
  function Attend(st: State, fd: int, io: Io): (r: Served)
    requires fd in st.users
    ensures r.st.users.Keys == st.users.Keys
  {
    hide ReceiveData, Flush;
    var read := if io.revents.input then ReceiveData(st, fd, io.recv, io.oracle) else Served(st, true);
    if read.connected && io.revents.output then Flush(read.st, fd, io.send) else read
  }

  /** The fallback reason that run passes to disconnectClient. */
  function AttendReason(st: State, fd: int, io: Io): string
    requires fd in st.users
  {
    if io.revents.error then "Socket error"
    else if io.revents.hangup then "Connection closed by peer"
    else if io.revents.input && !ReceiveData(st, fd, io.recv, io.oracle).connected then
      "Receive failure or connection closed by peer"
    else "Send failure"
  }

  /** The body of the first loop of a round. */
  function Visit(st: State, fd: int, io: Io, shuttingDown: bool): Outcome {
    if fd !in st.users || Virtual(fd) then Done(st)
    else if io.revents.invalid then Disconnect(st, fd, "Invalid socket descriptor", shuttingDown)
    else
      var r := Attend(st, fd, io);
      if !r.connected || io.revents.error || io.revents.hangup then
        Disconnect(r.st, fd, AttendReason(st, fd, io), shuttingDown)
      else Done(r.st)
  }

  /** The body of the second loop. */
  function Sweep(st: State, fd: int, shuttingDown: bool): Outcome {
    if fd in st.users && st.users[fd].out.closing then
      Disconnect(st, fd, st.users[fd].out.reason, shuttingDown)
    else Done(st)
  }

  // ------------------------------------------------------------------
  // Runs
  // ------------------------------------------------------------------

  datatype Event =
    | Connected(fd: int, host: string, walk: Walk)
    | AcceptFailed
    | Visited(fd: int, io: Io, shuttingDown: bool)
    | Swept(fd: int, shuttingDown: bool)

  function Step(st: State, e: Event): Outcome {
    match e
    case Connected(fd, host, walk) =>
      if Virtual(fd) || fd in st.users then Done(st) else Done(Accept(st, fd, host, walk))
    case AcceptFailed => Done(st.(accepting := false))
    case Visited(fd, io, shuttingDown) => Visit(st, fd, io, shuttingDown)
    case Swept(fd, shuttingDown) => Sweep(st, fd, shuttingDown)
  }

  /** The states of a run, one per completed event; an exception ends it. */
  function Trace(st: State, events: seq<Event>): (states: seq<State>)
    ensures 1 <= |states| <= |events| + 1 && states[0] == st
    decreases |events|
  {
    hide Step;
    if events == [] then [st]
    else
      match Step(st, events[0])
      case Done(next) => [st] + Trace(next, events[1..])
      case Threw(_) => [st]
  }

  // ------------------------------------------------------------------
  // Rounds
  // ------------------------------------------------------------------

  /** Nothing was reported: the entry of a connection accepted in this round. */
  const QUIET_IO := Io(Revents(false, false, false, false, false), RecvLater, SendLater, n => BotAnswer("", false))

  function IoOf(ios: map<int, Io>, fd: int): Io {
    if fd in ios then ios[fd] else QUIET_IO
  }

  /** The first loop of a round, over the descriptors that were in poll when it began. */
  function VisitAll(st: State, fds: seq<int>, ios: map<int, Io>, shuttingDown: bool): Outcome
    decreases |fds|
  {
    if fds == [] then Done(st)
    else
      var st1 :- Visit(st, fds[0], IoOf(ios, fds[0]), shuttingDown);
      VisitAll(st1, fds[1..], ios, shuttingDown)
  }

  /** The second loop. */
  function SweepAll(st: State, fds: seq<int>, shuttingDown: bool): Outcome
    decreases |fds|
  {
    if fds == [] then Done(st)
    else
      var st1 :- Sweep(st, fds[0], shuttingDown);
      SweepAll(st1, fds[1..], shuttingDown)
  }

  /** What accept brought, when the listening socket was readable. */
  datatype Arrival = NoArrival | Arrived(fd: nat, host: string, walk: Walk) | AcceptError

  function AfterArrival(st: State, arrival: Arrival): State {
    match arrival
    case NoArrival => st
    case Arrived(fd, host, walk) => if fd in st.users then st else Accept(st, fd, host, walk)
    case AcceptError => st.(accepting := false)
  }

  /**
   * One round: a connection is accepted, every descriptor is attended to, then
   * every flagged client is disconnected.
   */
  function Round(st: State, arrival: Arrival, ios: map<int, Io>, shuttingDown: bool): Outcome {
    var st0 := AfterArrival(st, arrival);
    var st1 :- VisitAll(st0, st0.order, ios, shuttingDown);
    SweepAll(st1, st1.order, shuttingDown)
  }

  datatype RoundIo = RoundIo(arrival: Arrival, ios: map<int, Io>, shuttingDown: bool)

  /** What one call of poll comes to: EINTR, a timeout, an error of poll or of the listening socket, or events. */
  datatype Waking = Interrupted | TimedOut | PollFailed | ListenerFailed | Ready(round: RoundIo)

  /** The loop of run: it goes on until an exception, or a signal seen after a round or a wait. */
  function Wakings(st: State, wakings: seq<Waking>): Outcome
    decreases |wakings|
  {
    if wakings == [] then Done(st)
    else
      match wakings[0]
      case PollFailed => Threw(st)
      case ListenerFailed => Threw(st)
      case Ready(round) =>
        var st1 :- Round(st, round.arrival, round.ios, round.shuttingDown);
        if round.shuttingDown then Done(st1) else Wakings(st1, wakings[1..])
      case _ => Wakings(st, wakings[1..])
  }
}
