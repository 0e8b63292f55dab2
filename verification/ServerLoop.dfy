// The event loop of src/Server.cpp, in place: processing an input buffer,
// receiving, one round of run with its two index loops, and closeAllFds.
module ServerLoop {
  import opened Results
  import opened IrcCasemap
  import opened Codec
  import opened Framing
  import opened Walks
  import opened ServerState
  import opened Primitives
  import opened Membership
  import opened Commands
  import opened CommandLaws
  import opened Connection
  import opened ConnectionLaws
  import opened DisconnectLaws
  import opened EventLoop
  import opened RunLaws
  import opened Shutdown
  import opened ClientObject
  import opened ChannelObject
  import opened ServerObject
  import opened ServerConnections
  import opened BotObject
  import opened Dispatcher

  // ------------------------------------------------------------------
  // Reading
  // ------------------------------------------------------------------

  /** Client::extractNextLine on a client of the server. */
  method TakeNextLine(server: Server, id: int) returns (status: LineReadStatus, completeLine: string)
    requires server.Valid() && id in server.st.users
    modifies server`st, server.Find(id)
    ensures server.Valid() && server.Objects == old(server.Objects)
    ensures var st, u := old(server.st), old(server.st).users[id];
            match ExtractNext(u.inBuffer)
            case Incomplete => status == LINE_INCOMPLETE && server.st == st
            case TooLong(rest) =>
              status == LINE_TOO_LONG && server.st == WithInput(st, id, rest, u.received, u.lines)
            case Complete(line, rest) =>
              status == LINE_COMPLETE && completeLine == line && server.st == TakeLine(st, id, line, rest)
  {
    hide Server.ClientsOk, Server.ChannelsOk, PollMatches, Polled, ExtractNext;
    var client := server.Find(id);
    ghost var u := server.st.users[id];
    status, completeLine := client.ExtractNextLine();
    assert u.lines + [] == u.lines;
    assert server.st.users[id := u] == server.st.users;
    server.st := WithUser(server.st, id, client.View());
    server.RecordChanged(id);
  }

  /** Parse and dispatch: false when the exception handler closed the connection. */
  method ServeOneLine(server: Server, id: int, line: string, answer: BotAnswer)
    requires server.Valid() && Inv(server.st) && id in server.st.users && !Virtual(id)
    modifies server, server.Objects
    ensures server.Valid() && fresh(server.Objects - old(server.Objects))
    ensures server.st == ServeLine(old(server.st), id, line, answer)
  {
    hide Server.ClientsOk, Server.ChannelsOk, Server.Valid, Inv, Parse, Dispatch, Request;
    var parsed := ParseLine(line);
    if parsed.Failure? {
      return;
    }
    var ok := DispatchCommand(server, id, parsed.value, answer);
    if !ok {
      server.FlagClient(id, "");
    }
  }

  lemma ServeTakenIs(st: State, id: int, line: string, rest: string, oracle: Oracle)
    requires id in st.users
    ensures ServeTaken(st, id, line, rest, oracle) ==
              if line == "" then TakeLine(st, id, line, rest)
              else ServeLine(TakeLine(st, id, line, rest), id, line, oracle(|st.users[id].lines|))
  {
  }

  lemma ProcessStops(st: State, id: int, oracle: Oracle)
    requires id in st.users && !st.users[id].out.closing
    ensures var u := st.users[id];
            match ExtractNext(u.inBuffer)
            case Incomplete => ProcessBuffer(st, id, oracle) == Served(st, true)
            case TooLong(rest) =>
              ProcessBuffer(st, id, oracle) ==
              Served(WithRequest(WithInput(st, id, rest, u.received, u.lines), id, "IRC line exceeds maximum length"),
                     false)
            case Complete(_, _) => true
  {
    hide ExtractNext, Request;
  }

  lemma TakeLineSound(st: State, id: int, line: string, rest: string)
    requires Sound(st) && id in st.users
    ensures Sound(TakeLine(st, id, line, rest))
  {
    hide Sound;
    var u := st.users[id];
    InputKeeps(st, id, rest, u.received, if line == "" then u.lines else u.lines + [line]);
  }

  /** Server::processClientBuffer; every round takes bytes off the buffer, so the loop ends. */
  method ProcessClientBuffer(server: Server, id: int, oracle: Oracle) returns (connected: bool)
    requires server.Valid() && Sound(server.st) && id in server.st.users && !Virtual(id)
    modifies server, server.Objects
    ensures server.Valid() && fresh(server.Objects - old(server.Objects))
    ensures Served(server.st, connected) == ProcessBuffer(old(server.st), id, oracle)
  {
    hide Server.ClientsOk, Server.ChannelsOk, Server.Valid, Inv, AllMarked, ProcessBuffer, ServeTaken, ServeLine,
      ExtractNext, TakeLine, Evolves, Request;
    ghost var whole := ProcessBuffer(server.st, id, oracle);
    while true
      invariant server.Valid() && fresh(server.Objects - old(server.Objects))
      invariant Sound(server.st) && id in server.st.users
      invariant whole == ProcessBuffer(server.st, id, oracle)
      decreases |server.st.users[id].inBuffer|
    {
      if server.Find(id).disconnectRequested {
        ClosingIsRefused(server.st, id, oracle);
        return false;
      }
      ghost var st, u := server.st, server.st.users[id];
      var number := |server.Find(id).lines|;
      ProcessStops(st, id, oracle);
      var status, completeLine := TakeNextLine(server, id);
      if status == LINE_INCOMPLETE {
        return true;
      }
      if status == LINE_TOO_LONG {
        server.FlagClient(id, "IRC line exceeds maximum length");
        return false;
      }
      ghost var rest := ExtractNext(u.inBuffer).rest;
      ExtractShrinks(u.inBuffer);
      ServeTakenSound(st, id, completeLine, rest, oracle);
      ServeTakenIs(st, id, completeLine, rest, oracle);
      TakeLineSound(st, id, completeLine, rest);
      ProcessStep(st, id, oracle);
      if completeLine == "" {
        continue;
      }
      ServeOneLine(server, id, completeLine, oracle(number));
      if server.Find(id).disconnectRequested {
        ClosingIsRefused(server.st, id, oracle);
        return false;
      }
    }
  }

  /** The bytes recv returned join the input buffer. */
  method AppendInput(server: Server, id: int, chunk: Chunk)
    requires server.Valid() && id in server.st.users
    modifies server`st, server.Find(id)
    ensures server.Valid() && server.Objects == old(server.Objects)
    ensures var st, u := old(server.st), old(server.st).users[id];
            server.st == WithInput(st, id, u.inBuffer + chunk, u.received + chunk, u.lines)
  {
    hide Server.ClientsOk, Server.ChannelsOk, PollMatches, Polled;
    var client := server.Find(id);
    client.AppendToInputBuffer(chunk);
    server.st := WithUser(server.st, id, client.View());
    server.RecordChanged(id);
  }

  /** Server::receiveClientData, given what recv returned. */
  method ReceiveClientData(server: Server, id: int, recv: RecvResult, oracle: Oracle) returns (connected: bool)
    requires server.Valid() && Sound(server.st) && id in server.st.users && !Virtual(id)
    modifies server, server.Objects
    ensures server.Valid() && fresh(server.Objects - old(server.Objects))
    ensures Served(server.st, connected) == ReceiveData(old(server.st), id, recv, oracle)
  {
    hide Server.ClientsOk, Server.ChannelsOk, Server.Valid, Sound, ProcessBuffer, Request, Evolves;
    match recv
    case Bytes(chunk) =>
      if |server.Find(id).inputBuffer| + |chunk| > MAX_INPUT_BUFFER {
        server.FlagClient(id, "Input buffer limit exceeded");
        return false;
      }
      ghost var u := server.st.users[id];
      InputKeeps(server.st, id, u.inBuffer + chunk, u.received + chunk, u.lines);
      AppendInput(server, id, chunk);
      connected := ProcessClientBuffer(server, id, oracle);
    case EndOfStream =>
      server.FlagClient(id, "Connection closed by peer");
      return false;
    case RecvLater =>
      return true;
    case RecvError =>
      server.FlagClient(id, "Receive error");
      return false;
  }

  // ------------------------------------------------------------------
  // One round of Server::run
  // ------------------------------------------------------------------

  /** The first half of the body of the first loop: receive, then flush. */
  method AttendClient(server: Server, fd: int, io: Io) returns (connected: bool, readFailed: bool)
    requires server.Valid() && Sound(server.st) && fd in server.st.users && !Virtual(fd)
    modifies server, server.Objects
    ensures server.Valid() && fresh(server.Objects - old(server.Objects))
    ensures Served(server.st, connected) == Attend(old(server.st), fd, io)
    ensures readFailed <==> io.revents.input && !ReceiveData(old(server.st), fd, io.recv, io.oracle).connected
  {
    hide Server.ClientsOk, Server.ChannelsOk, Server.Valid, Sound, ReceiveData, Flush;
    connected, readFailed := true, false;
    if io.revents.input {
      connected := ReceiveClientData(server, fd, io.recv, io.oracle);
      readFailed := !connected;
    }
    if connected && io.revents.output {
      connected := server.FlushClientOutput(fd, io.send);
    }
  }

  /** The body of the first loop; `removed` tells whether the index must stay. */
  method VisitDescriptor(server: Server, fd: int, io: Io, shuttingDown: bool) returns (ok: bool, removed: bool)
    requires server.Valid() && Healthy(server.st) && fd in server.st.users && !Virtual(fd)
    modifies server, server.Objects
    ensures server.Valid() && fresh(server.Objects - old(server.Objects))
    ensures Report(ok, server.st) == Visit(old(server.st), fd, io, shuttingDown)
    ensures ok ==> server.st.order == if removed then Drop(old(server.st).order, fd) else old(server.st).order
  {
    hide Server.ClientsOk, Server.ChannelsOk, Server.Valid, Inv, AllMarked, AllFramed, Attend, Disconnect, Drop,
      ReceiveData, Evolves, FramedServed;
    if io.revents.invalid {
      DisconnectOrder(server.st, fd, "Invalid socket descriptor", shuttingDown);
      ok := DisconnectClient(server, fd, "Invalid socket descriptor", shuttingDown);
      return ok, true;
    }
    ghost var was := server.st;
    AttendSound(was, fd, io);
    AttendOrder(was, fd, io);
    var connected, readFailed := AttendClient(server, fd, io);
    var disconnectReason := "Connection closed";
    if readFailed {
      disconnectReason := "Receive failure or connection closed by peer";
    } else if !connected {
      disconnectReason := "Send failure";
    }
    if io.revents.error {
      disconnectReason := "Socket error";
    } else if io.revents.hangup {
      disconnectReason := "Connection closed by peer";
    }
    if !connected || io.revents.error || io.revents.hangup {
      assert disconnectReason == AttendReason(was, fd, io);
      DisconnectOrder(server.st, fd, disconnectReason, shuttingDown);
      ok := DisconnectClient(server, fd, disconnectReason, shuttingDown);
      return ok, true;
    }
    return true, false;
  }

  lemma AttendOrder(st: State, fd: int, io: Io)
    requires fd in st.users && Evolves(st, Attend(st, fd, io).st, fd)
    ensures Attend(st, fd, io).st.order == st.order
  {
    hide Attend;
  }

  /** A completed disconnection takes exactly its own descriptor out of poll. */
  lemma DisconnectOrder(st: State, fd: int, reason: string, shuttingDown: bool)
    requires Inv(st) && fd in st.users && !Virtual(fd)
    ensures var r := Disconnect(st, fd, reason, shuttingDown);
            r.Done? ==> r.st.order == Drop(st.order, fd)
  {
    hide Inv, Farewell, Disconnect, Detach, Drop;
    DisconnectIs(st, fd, reason, shuttingDown);
    FarewellRegistry(st, fd, reason);
    DetachUsersSame(Farewell(st, fd, reason).st, fd);
  }

  lemma OrderReal(st: State, i: nat)
    requires Inv(st) && i < |st.order|
    ensures st.order[i] in st.users && !Virtual(st.order[i])
  {
    assert st.order[i] in st.order;
    assert UserOk(st.password, st.order[i], st.users[st.order[i]]);
  }

  /** The descriptors from an index on, as the loops see them. */
  ghost function From(st: State, descriptorIndex: nat): seq<int>
    requires 1 <= descriptorIndex <= |st.order| + 1
  {
    st.order[descriptorIndex - 1..]
  }

  /** One round of the first loop: the index moves on, or the next descriptor moves under it. */
  method VisitNext(server: Server, descriptorIndex: nat, ios: map<int, Io>, shuttingDown: bool)
    returns (ok: bool, next: nat)
    requires server.Valid() && Healthy(server.st) && 1 <= descriptorIndex <= |server.st.order|
    modifies server, server.Objects
    ensures server.Valid() && fresh(server.Objects - old(server.Objects))
    ensures var fd := From(old(server.st), descriptorIndex)[0];
            Report(ok, server.st) == Visit(old(server.st), fd, IoOf(ios, fd), shuttingDown)
    ensures ok ==>
              && Healthy(server.st) && 1 <= next <= |server.st.order| + 1
              && From(server.st, next) == From(old(server.st), descriptorIndex)[1..]
  {
    hide Server.ClientsOk, Server.ChannelsOk, Server.Valid, Healthy, Visit, Drop, Continues, Sound, Distinct;
    ghost var st := server.st;
    var fd := server.DescriptorAt(descriptorIndex);
    HealthyOrder(st, descriptorIndex - 1);
    StepHealthy(st, Visited(fd, IoOf(ios, fd), shuttingDown));
    var removed;
    ok, removed := VisitDescriptor(server, fd, IoOf(ios, fd), shuttingDown);
    if !ok {
      return ok, descriptorIndex;
    }
    if removed {
      DropHere(st.order, descriptorIndex - 1);
      return true, descriptorIndex;
    }
    return true, descriptorIndex + 1;
  }

  /**
   * The first index loop of run. Removing a descriptor moves the next one into
   * its place; the loop still visits every descriptor that was in poll when it
   * began exactly once, in order, and ends.
   */
  method VisitEveryDescriptor(server: Server, ios: map<int, Io>, shuttingDown: bool)
    returns (ok: bool, ghost visited: seq<int>)
    requires server.Valid() && Healthy(server.st)
    modifies server, server.Objects
    ensures server.Valid() && fresh(server.Objects - old(server.Objects))
    ensures Report(ok, server.st) == VisitAll(old(server.st), old(server.st).order, ios, shuttingDown)
    ensures if ok then visited == old(server.st).order && Healthy(server.st) else visited <= old(server.st).order
  {
    hide Server.ClientsOk, Server.ChannelsOk, Server.Valid, Healthy, Visit;
    ghost var fds := server.st.order;
    ghost var whole := VisitAll(server.st, fds, ios, shuttingDown);
    visited := [];
    var descriptorIndex := 1;
    assert From(server.st, 1) == fds;
    while descriptorIndex < server.PollCount()
      invariant server.Valid() && Healthy(server.st) && fresh(server.Objects - old(server.Objects))
      invariant 1 <= descriptorIndex <= |server.st.order| + 1
      invariant fds == visited + From(server.st, descriptorIndex)
      invariant whole == VisitAll(server.st, From(server.st, descriptorIndex), ios, shuttingDown)
      decreases |From(server.st, descriptorIndex)|
    {
      ghost var left := From(server.st, descriptorIndex);
      assert visited + left == visited + [left[0]] + left[1..];
      visited := visited + [left[0]];
      ok, descriptorIndex := VisitNext(server, descriptorIndex, ios, shuttingDown);
      if !ok {
        return;
      }
    }
    return true, visited;
  }

  lemma HealthyOrder(st: State, i: nat)
    requires Healthy(st) && i < |st.order|
    ensures st.order[i] in st.users && !Virtual(st.order[i]) && Distinct(st.order)
  {
    hide UserOk, Split;
    OrderReal(st, i);
  }

  lemma DropHere(order: seq<int>, i: nat)
    requires i < |order| && Distinct(order)
    ensures |Drop(order, order[i])| == |order| - 1 && Drop(order, order[i])[i..] == order[i + 1..]
  {
    DropAt(order, i);
  }

  /** One round of the second loop. */
  method SweepNext(server: Server, descriptorIndex: nat, shuttingDown: bool) returns (ok: bool, next: nat)
    requires server.Valid() && Healthy(server.st) && 1 <= descriptorIndex <= |server.st.order|
    modifies server, server.Objects
    ensures server.Valid() && fresh(server.Objects - old(server.Objects))
    ensures Report(ok, server.st) == Sweep(old(server.st), From(old(server.st), descriptorIndex)[0], shuttingDown)
    ensures ok ==>
              && Healthy(server.st) && 1 <= next <= |server.st.order| + 1
              && From(server.st, next) == From(old(server.st), descriptorIndex)[1..]
  {
    hide Server.ClientsOk, Server.ChannelsOk, Server.Valid, Healthy, Drop, Continues, Sound, Distinct, Disconnect;
    ghost var st := server.st;
    var fd := server.DescriptorAt(descriptorIndex);
    HealthyOrder(st, descriptorIndex - 1);
    StepHealthy(st, Swept(fd, shuttingDown));
    if server.Find(fd).disconnectRequested {
      HealthyInv(st);
      DisconnectOrder(st, fd, st.users[fd].out.reason, shuttingDown);
      ok := DisconnectClient(server, fd, server.Find(fd).disconnectReason, shuttingDown);
      if ok {
        DropHere(st.order, descriptorIndex - 1);
      }
      return ok, descriptorIndex;
    }
    return true, descriptorIndex + 1;
  }

  /** The second index loop of run, over the clients flagged by now. */
  method SweepEveryDescriptor(server: Server, shuttingDown: bool) returns (ok: bool)
    requires server.Valid() && Healthy(server.st)
    modifies server, server.Objects
    ensures server.Valid() && fresh(server.Objects - old(server.Objects))
    ensures Report(ok, server.st) == SweepAll(old(server.st), old(server.st).order, shuttingDown)
    ensures ok ==> Healthy(server.st)
  {
    hide Server.ClientsOk, Server.ChannelsOk, Server.Valid, Healthy, Sweep;
    ghost var whole := SweepAll(server.st, server.st.order, shuttingDown);
    var descriptorIndex := 1;
    assert From(server.st, 1) == server.st.order;
    while descriptorIndex < server.PollCount()
      invariant server.Valid() && Healthy(server.st) && fresh(server.Objects - old(server.Objects))
      invariant 1 <= descriptorIndex <= |server.st.order| + 1
      invariant whole == SweepAll(server.st, From(server.st, descriptorIndex), shuttingDown)
      decreases |From(server.st, descriptorIndex)|
    {
      ok, descriptorIndex := SweepNext(server, descriptorIndex, shuttingDown);
      if !ok {
        return;
      }
    }
    return true;
  }

  lemma HealthyInv(st: State)
    requires Healthy(st)
    ensures Inv(st)
  {
  }

  /** What run does with the listening socket before its loops. */
  method AdmitArrival(server: Server, arrival: Arrival)
    requires server.Valid()
    modifies server`st, server`clients, server`pollFds, server`walk, server`Objects
    ensures server.Valid() && fresh(server.Objects - old(server.Objects))
    ensures server.st == AfterArrival(old(server.st), arrival)
  {
    hide Server.ClientsOk, Server.ChannelsOk, Server.Valid;
    match arrival
    case NoArrival =>
    case Arrived(fd, host, walk) => AcceptClient(server, fd, host, walk);
    case AcceptError => SetAccepting(server, false);
  }

  /** One round of Server::run. */
  method RunRound(server: Server, arrival: Arrival, ios: map<int, Io>, shuttingDown: bool) returns (ok: bool)
    requires server.Valid() && Healthy(server.st)
    modifies server, server.Objects
    ensures server.Valid() && fresh(server.Objects - old(server.Objects))
    ensures Report(ok, server.st) == Round(old(server.st), arrival, ios, shuttingDown)
    ensures ok ==> Healthy(server.st)
  {
    hide Server.ClientsOk, Server.ChannelsOk, Server.Valid, Healthy, VisitAll, SweepAll, AfterArrival;
    ArrivalHealthy(server.st, arrival);
    AdmitArrival(server, arrival);
    ghost var visited;
    ok, visited := VisitEveryDescriptor(server, ios, shuttingDown);
    if !ok {
      return;
    }
    ok := SweepEveryDescriptor(server, shuttingDown);
  }

  /**
   * Server::run for what poll returns until a signal asks to stop: a wait that
   * was interrupted or timed out is repeated, a failure of poll or of the
   * listening socket leaves the loop by an exception, and so does a round's.
   */
  method Run(server: Server, wakings: seq<Waking>) returns (ok: bool)
    requires server.Valid() && Healthy(server.st)
    modifies server, server.Objects
    ensures server.Valid() && fresh(server.Objects - old(server.Objects))
    ensures Report(ok, server.st) == Wakings(old(server.st), wakings)
    ensures ok ==> Healthy(server.st)
  {
    hide Server.ClientsOk, Server.ChannelsOk, Server.Valid, Healthy, Round;
    ghost var whole := Wakings(server.st, wakings);
    var i := 0;
    assert wakings[0..] == wakings;
    while i < |wakings|
      invariant server.Valid() && Healthy(server.st) && fresh(server.Objects - old(server.Objects))
      invariant i <= |wakings| && whole == Wakings(server.st, wakings[i..])
    {
      ghost var left := wakings[i..];
      assert left[0] == wakings[i] && left[1..] == wakings[i + 1..];
      match wakings[i] {
        case PollFailed => return false;
        case ListenerFailed => return false;
        case Ready(round) =>
          ok := RunRound(server, round.arrival, round.ios, round.shuttingDown);
          if !ok || round.shuttingDown {
            return;
          }
        case _ =>
      }
      i := i + 1;
    }
    return true;
  }

  // ------------------------------------------------------------------
  // Starting and stopping
  // ------------------------------------------------------------------

  /** The bot's virtual client, complete but for its nickname. */
  method CreateBotUser(server: Server)
    requires server.Valid() && server.st == Unmanned(server.password, server.walk)
    modifies server`st, server`bot, server`Objects
    ensures server.Valid() && fresh(server.Objects - old(server.Objects)) && old(server.Objects) <= server.Objects
    ensures server.st == BareServer(server.password, server.walk)
  {
    hide Server.ClientsOk, Server.ChannelsOk, Server.Valid;
    var user := new Client(BOT, "bot.local");
    user.username := "bot";
    user.realname := "ft_irc helper bot";
    user.passwordAccepted := true;
    user.usernameReceived := true;
    user.registered := true;
    assert user.View() == BotUser();
    hide BotUser, NewUser, Client.View;
    server.InstallBot(user);
  }

  /** Bot::start on the server that its constructor has just set up. */
  method StartBot(server: Server) returns (ok: bool)
    requires server.Valid() && server.password != "" && server.st == Unmanned(server.password, server.walk)
    modifies server, server.Objects
    ensures server.Valid() && fresh(server.Objects - old(server.Objects))
    ensures Report(ok, server.st) == Boot(server.password, old(server.walk))
  {
    hide Server.ClientsOk, Server.ChannelsOk, Server.Valid, AssignNick, BotJoin, Enterable, Inv, Normalize,
      ValidChannelName, FindOrCreate, Alone, Unmanned, BareServer, WithTopic, Boot;
    var password, walk := server.password, server.walk;
    CreateBotUser(server);
    BareUsers(password, walk);
    BotNamed(password, walk);
    var named := server.AssignNickname(BOT, BOT_NICK);
    AloneUsers(password, walk);
    AloneEnterable(password, walk);
    HomeChannelName();
    var found := server.FindOrCreateChannel(HOME_CHANNEL);
    var key := found.value;
    SetChannelTopic(server, key, BOT_TOPIC);
    BootIs(password, walk);
    TopicSet(FindOrCreate(Alone(password, walk), HOME_CHANNEL), key);
    ok := JoinChannel(server, key, false);
  }

  const MIN_PORT: int := 1
  const MAX_PORT: int := 65535

  datatype StartError = InvalidPort | EmptyPassword | NoListener

  /**
   * The constructor of Server, given the listening socket if one could be made:
   * the port and the password are checked before it, and a server that starts
   * has its bot in its home channel and nobody else.
   */
  method StartServer(port: int, password: string, listener: Option<int>, walk: Walk)
    returns (r: Result<Server, StartError>)
    ensures r.Success? <==> MIN_PORT <= port <= MAX_PORT && password != "" && listener.Some?
    ensures r.Failure? ==>
              r.error == if !(MIN_PORT <= port <= MAX_PORT) then InvalidPort
                         else if password == "" then EmptyPassword else NoListener
    ensures r.Success? ==>
              && fresh(r.value) && r.value.Valid() && fresh(r.value.Objects)
              && Boot(password, walk) == Done(r.value.st)
              && Healthy(r.value.st) && r.value.st.users.Keys == {BOT}
  {
    hide Server.ClientsOk, Server.ChannelsOk, Server.Valid, Boot, Healthy;
    if port < MIN_PORT || port > MAX_PORT {
      return Failure(InvalidPort);
    }
    if password == "" {
      return Failure(EmptyPassword);
    }
    if listener.None? {
      return Failure(NoListener);
    }
    var server := new Server(password, listener.value, walk);
    BootCompletes(password, walk);
    BootHealthy(password, walk);
    var ok := StartBot(server);
    return Success(server);
  }

  lemma BareUsers(password: string, walk: Walk)
    ensures BOT in BareServer(password, walk).users
  {
  }

  /** The server before the bot: nobody at all. */
  function Unmanned(password: string, walk: Walk): State {
    State(password, map[], map[], map[], [], true, walk)
  }

  method SetChannelTopic(server: Server, key: string, topic: string)
    requires server.Valid() && key in server.st.channels
    modifies server`st, server.FindKey(key)
    ensures server.Valid() && server.Objects == old(server.Objects)
    ensures server.st == WithTopic(old(server.st), key, topic)
  {
    hide Server.ClientsOk, Server.ChannelsOk, PollMatches, Polled;
    var channel := server.FindKey(key);
    channel.SetTopic(topic);
    server.st := WithChan(server.st, key, channel.View());
    server.ChannelChanged(key);
  }

  lemma LeaveAllSnoc(st: State, id: int, keys: seq<string>, key: string)
    requires id in st.users
    ensures var now := LeaveAll(st, id, keys);
            LeaveAll(st, id, keys + [key]) == if key in now.channels then Leave(now, id, key) else now
    decreases |keys|
  {
    hide Leave;
    if keys == [] {
      assert [key][1..] == [];
    } else {
      assert (keys + [key])[1..] == keys[1..] + [key];
      LeaveAllSnoc(if keys[0] in st.channels then Leave(st, id, keys[0]) else st, id, keys[1..], key);
    }
  }

  /** The loop of Bot::stop: out of every channel of a copy of the joined set, in any order. */
  method LeaveEveryChannel(server: Server) returns (ghost keys: seq<string>)
    requires server.Valid() && BOT in server.st.users
    modifies server`st, server`channels, server.Objects
    ensures server.Valid() && server.Objects == old(server.Objects)
    ensures server.st == LeaveAll(old(server.st), BOT, keys)
    ensures forall k :: k in keys <==> k in old(server.st).users[BOT].joined
  {
    hide Server.ClientsOk, Server.ChannelsOk, Server.Valid, LeaveAll, Leave;
    ghost var st := server.st;
    var waiting := server.Find(BOT).joinedChannels;
    keys := [];
    LeaveNone(st);
    while waiting != {}
      invariant server.Valid() && server.Objects == old(server.Objects)
      invariant server.st == LeaveAll(st, BOT, keys)
      invariant (set k | k in keys) + waiting == st.users[BOT].joined
      decreases waiting
    {
      ghost var any := Pick(waiting);
      var key :| key in waiting;
      LeaveAllSnoc(st, BOT, keys, key);
      if server.HasChannel(key) {
        server.RemoveClientFromChannel(BOT, key);
      }
      keys := keys + [key];
      waiting := waiting - {key};
    }
    assert forall k :: k in keys <==> k in (set k | k in keys);
  }

  lemma LeaveNone(st: State)
    requires BOT in st.users
    ensures LeaveAll(st, BOT, []) == st
  {
  }

  /** Bot::stop. */
  method StopTheBot(server: Server) returns (ghost keys: seq<string>)
    requires server.Valid() && Inv(server.st)
    modifies server, server.Objects
    ensures server.Valid() && server.Objects <= old(server.Objects)
    ensures BOT in old(server.st).users ==>
              forall k :: k in keys <==> k in old(server.st).users[BOT].joined
    ensures server.st == StopBot(old(server.st), keys)
  {
    hide Server.ClientsOk, Server.ChannelsOk, Server.Valid, LeaveAll, RemoveNickEntry, Inv;
    keys := [];
    if !server.HasBot() {
      return;
    }
    ghost var st := server.st;
    keys := LeaveEveryChannel(server);
    BotLeft(st, keys);
    server.RemoveNicknameIndexEntry(BOT);
    server.RemoveBot();
  }

  lemma BotLeft(st: State, keys: seq<string>)
    requires BOT in st.users
    ensures var left := LeaveAll(st, BOT, keys);
            BOT in left.users && RemoveNickEntry(left, BOT).users == left.users
  {
  }

  /** The first loop of closeAllFds. */
  method DrainClients(server: Server, shuttingDown: bool) returns (ok: bool)
    requires server.Valid() && Sound(server.st)
    modifies server, server.Objects
    ensures server.Valid() && server.Objects <= old(server.Objects)
    ensures Report(ok, server.st) == CloseClients(old(server.st), shuttingDown)
  {
    hide Server.ClientsOk, Server.ChannelsOk, Server.Valid, Sound, CloseClients, Disconnect, Remain, First;
    ghost var whole := CloseClients(server.st, shuttingDown);
    while server.Connected() != {}
      invariant server.Valid() && Sound(server.st) && server.Objects <= old(server.Objects)
      invariant whole == CloseClients(server.st, shuttingDown)
      decreases |Clients(server.st)|
    {
      ghost var st := server.st;
      var fd := First(server.Connected());
      assert fd == FirstClient(st);
      SoundInv(st);
      ClientsAreReal(st, fd);
      DisconnectSound(st, fd, SHUTDOWN_REASON, shuttingDown);
      CloseStep(st, shuttingDown);
      ok := DisconnectClient(server, fd, SHUTDOWN_REASON, shuttingDown);
      if !ok {
        return;
      }
      FewerClients(st, server.st, fd);
    }
    CloseStep(server.st, shuttingDown);
    return true;
  }

  lemma CloseStep(st: State, shuttingDown: bool)
    ensures Clients(st) == {} ==> CloseClients(st, shuttingDown) == Done(st)
    ensures Clients(st) != {} ==>
              var r := Disconnect(st, FirstClient(st), SHUTDOWN_REASON, shuttingDown);
              CloseClients(st, shuttingDown) ==
                if r.Threw? then r
                else if |Clients(r.st)| < |Clients(st)| then CloseClients(r.st, shuttingDown) else Done(r.st)
  {
  }

  /**
   * Server::closeAllFds: it ends, and when no exception interrupts it nothing
   * is left; the channel and nickname maps were empty before being cleared.
   */
  method CloseAllFds(server: Server, shuttingDown: bool) returns (ok: bool, ghost drained: State)
    requires server.Valid() && Sound(server.st) && BOT in server.st.users
    modifies server, server.Objects
    ensures ok <==> CloseClients(old(server.st), shuttingDown).Done?
    ensures ok ==>
              && drained.users == map[] && drained.channels == map[] && drained.nicks == map[]
              && server.clients == map[] && server.clientsByNickname == map[] && server.channels == map[]
              && server.bot == null && server.pollFds == []
  {
    hide Server.ClientsOk, Server.ChannelsOk, Sound, CloseClients, StopBot, PollMatches, Polled;
    ghost var st := server.st;
    CloseClientsDrains(st, shuttingDown);
    drained := st;
    ok := DrainClients(server, shuttingDown);
    if !ok {
      return;
    }
    SoundInv(server.st);
    ghost var keys := StopTheBot(server);
    ShutdownEmptiesEverything(st, shuttingDown, keys);
    drained := server.st;
    server.NothingLeft();
    server.clientsByNickname := map[];
    server.channels := map[];
    server.pollFds := [];
    return true, drained;
  }
}
