// src/Server.cpp: the registries, updated in place. Every method is proved
// against the function of the state that specifies it; the ghost field `st`
// holds that state.
module ServerObject {
  import opened Results
  import opened IrcCasemap
  import opened Codec
  import opened Framing
  import opened Walks
  import opened ServerState
  import opened Primitives
  import opened Membership
  import opened ChannelLog
  import opened Commands
  import opened Connection
  import opened ClientObject
  import opened ChannelObject

  /** One entry of the vector given to poll. */
  datatype PollFd = PollFd(fd: int, pollIn: bool, pollOut: bool)

  /** The entry of a client: POLLIN always, POLLOUT exactly while output is pending. */
  function Armed(st: State, fd: int): PollFd {
    PollFd(fd, true, fd in st.users && st.users[fd].out.buffer != "")
  }

  ghost predicate PollMatches(pollFds: seq<PollFd>, st: State) {
    && |pollFds| == |st.order| + 1
    && pollFds[0].pollIn == st.accepting
    && forall i :: 1 <= i < |pollFds| ==> pollFds[i] == Armed(st, st.order[i - 1])
  }

  /** A client's descriptor is in poll, behind the listening socket. */
  ghost predicate Listed(pollFds: seq<PollFd>, fd: int) {
    exists i :: 1 <= i < |pollFds| && pollFds[i].fd == fd
  }

  /** One entry of a descriptor replaced. */
  ghost predicate Rearmed(before: seq<PollFd>, after: seq<PollFd>, entry: PollFd) {
    exists i :: 1 <= i < |before| && before[i].fd == entry.fd && after == before[i := entry]
  }

  /** A method's outcome as the functions report it: completed, or thrown. */
  function Report(ok: bool, st: State): Outcome {
    if ok then Done(st) else Threw(st)
  }

  /** Server::isValidNickname. */
  method IsValidNickname(nickname: string) returns (valid: bool)
    ensures valid == ValidNick(nickname)
  {
    if nickname == "" {
      return false;
    }
    if !Letter(nickname[0]) && !NickSpecial(nickname[0]) {
      return false;
    }
    for i := 1 to |nickname|
      invariant forall j :: 1 <= j < i ==>
                  Letter(nickname[j]) || '0' <= nickname[j] <= '9' || NickSpecial(nickname[j]) || nickname[j] == '-'
    {
      var c := nickname[i];
      if !Letter(c) && !('0' <= c <= '9') && !NickSpecial(c) && c != '-' {
        return false;
      }
    }
    return true;
  }

  /** Server::isValidChannelName. */
  method IsValidChannelName(channelName: string) returns (valid: bool)
    ensures valid == ValidChannelName(channelName)
  {
    if |channelName| < 2 || |channelName| > MAX_CHANNEL_NAME_LENGTH {
      return false;
    }
    if channelName[0] != '#' {
      return false;
    }
    for i := 1 to |channelName|
      invariant forall j :: 1 <= j < i ==>
                  channelName[j] as int > 32 && channelName[j] as int != 127
                  && channelName[j] != ',' && channelName[j] != ':'
    {
      var c := channelName[i];
      if c as int <= 32 || c as int == 127 || c == ',' || c == ':' {
        return false;
      }
    }
    return true;
  }

  class Server {
    const password: string
    var pollFds: seq<PollFd>
    var clients: map<int, Client>
    var clientsByNickname: map<string, int>
    var channels: map<string, Channel>
    var bot: Client?
    /** Where the objects of the clients lie in memory, as far as walks over them can tell. */
    var walk: Walk
    ghost var st: State
    ghost var Objects: set<object>

    ghost predicate ClientsOk()
      reads this`clients, this`bot, this`st, this`Objects, Objects
    {
      && clients.Keys == st.users.Keys - {BOT}
      && (forall fd :: fd in clients ==>
            clients[fd] in Objects && clients[fd].socketFd == fd && clients[fd].View() == st.users[fd])
      && (bot != null <==> BOT in st.users)
      && (bot != null ==> bot in Objects && bot.socketFd == BOT && bot.View() == st.users[BOT])
    }

    ghost predicate ChannelsOk()
      reads this`channels, this`st, this`Objects, Objects
    {
      && channels.Keys == st.channels.Keys
      && forall key :: key in channels ==>
           && channels[key] in Objects && channels[key].Valid()
           && Normalize(channels[key].name) == key && channels[key].View() == st.channels[key]
    }

    ghost predicate Valid()
      reads this, Objects
    {
      && this !in Objects
      && password == st.password && clientsByNickname == st.nicks && walk == st.walk
      && ClientsOk() && ChannelsOk()
      && PollMatches(pollFds, st) && Polled(st)
    }

    /** The client that a descriptor stands for. */
    function Find(id: int): (c: Client)
      requires Valid() && id in st.users
      reads this, Objects
      ensures c in Objects && c.socketFd == id && c.View() == st.users[id]
    {
      if id == BOT then bot else clients[id]
    }

    /** The channel under a normalized name. */
    function FindKey(key: string): (c: Channel)
      requires Valid() && key in st.channels
      reads this, Objects
      ensures c in Objects && c.Valid() && c.View() == st.channels[key]
    {
      channels[key]
    }

    /** The descriptors of the client map. */
    function Connected(): (fds: set<int>)
      requires Valid()
      reads this, Objects
      ensures fds == st.users.Keys - {BOT}
    {
      clients.Keys
    }

    /** pollFds.size(). */
    function PollCount(): (n: nat)
      requires Valid()
      reads this, Objects
      ensures n == |st.order| + 1
    {
      |pollFds|
    }

    /** pollFds[i].fd, behind the listening socket. */
    function DescriptorAt(i: nat): (fd: int)
      requires Valid() && 1 <= i <= |st.order|
      reads this, Objects
      ensures fd == st.order[i - 1]
    {
      pollFds[i].fd
    }

    /** The members of a channel in the order in which a walk meets them. */
    function WalkMembers(key: string): (ids: seq<int>)
      requires Valid() && key in st.channels
      reads this, Objects
      ensures ids == st.walk(st.channels[key].members)
    {
      walk(FindKey(key).members)
    }

    predicate HasBot()
      requires Valid()
      reads this, Objects
      ensures HasBot() <==> BOT in st.users
    {
      bot != null
    }

    // ----------------------------------------------------------------
    // Output
    // ----------------------------------------------------------------

    /** The logic errors of the original are unreachable: the client is known and polled. */
    method UpdateClientPollEvents(socketFd: int)
      requires socketFd in clients
      requires Listed(pollFds, socketFd)
      modifies this`pollFds
      ensures Rearmed(old(pollFds), pollFds, PollFd(socketFd, true, clients[socketFd].outputBuffer != ""))
    {
      var client := clients[socketFd];
      var i := 1;
      while pollFds[i].fd != socketFd
        invariant 1 <= i < |pollFds|
        invariant pollFds == old(pollFds)
        invariant exists j :: i <= j < |pollFds| && pollFds[j].fd == socketFd
        decreases |pollFds| - i
      {
        i := i + 1;
      }
      pollFds := pollFds[i := PollFd(socketFd, true, client.outputBuffer != "")];
    }

    /** One client object was updated together with its record. */
    twostate lemma ClientChanged(id: int)
      requires old(Valid()) && id in old(st.users)
      requires clients == old(clients) && clientsByNickname == old(clientsByNickname) && channels == old(channels)
      requires bot == old(bot) && Objects == old(Objects)
      requires unchanged(Objects - {old(Find(id))})
      requires st == WithUser(old(st), id, old(Find(id)).View())
      ensures this !in Objects && password == st.password && clientsByNickname == st.nicks
      ensures ClientsOk() && ChannelsOk() && Polled(st)
    {
    }

    lemma PollSame(was: State, now: State)
      requires PollMatches(pollFds, was)
      requires now.order == was.order && now.accepting == was.accepting
      requires forall id :: Armed(now, id) == Armed(was, id)
      ensures PollMatches(pollFds, now)
    {
    }

    /** Re-arming the one entry of a client restores agreement with its buffer. */
    lemma RearmedMatches(before: seq<PollFd>, after: seq<PollFd>, was: State, now: State, fd: int)
      requires PollMatches(before, was) && Polled(was) && fd in was.users
      requires fd in now.users && now == WithUser(was, fd, now.users[fd])
      requires Rearmed(before, after, Armed(now, fd))
      ensures PollMatches(after, now)
    {
    }

    lemma ClientListed(id: int)
      requires PollMatches(pollFds, st) && Polled(st) && id in st.users && id != BOT
      ensures Listed(pollFds, id)
    {
      var j :| 0 <= j < |st.order| && st.order[j] == id;
      assert pollFds[j + 1] == Armed(st, st.order[j]);
    }

    /** One client object was updated together with its record, and is polled for the same things. */
    twostate lemma RecordChanged(id: int)
      requires walk == old(walk)
      requires old(Valid()) && id in old(st.users)
      requires clients == old(clients) && clientsByNickname == old(clientsByNickname) && channels == old(channels)
      requires bot == old(bot) && Objects == old(Objects) && pollFds == old(pollFds)
      requires unchanged(Objects - {old(Find(id))})
      requires st == WithUser(old(st), id, old(Find(id)).View())
      requires old(Find(id)).outputBuffer == old(Find(id).outputBuffer)
      ensures Valid()
    {
      ClientChanged(id);
      hide Server.ClientsOk, Server.ChannelsOk, Polled;
      assert old(Find(id).View()) == old(st).users[id];
      PollSame(old(st), st);
    }

    /** The client's disconnect flag is set; nothing it is polled for changes. */
    method FlagClient(id: int, reason: string)
      requires Valid() && id in st.users
      modifies this`st, Find(id)
      ensures Valid() && st == WithRequest(old(st), id, reason)
    {
      hide Server.ClientsOk, Server.ChannelsOk, Polled, PollMatches;
      var client := Find(id);
      client.RequestDisconnect(reason);
      st := WithUser(st, id, client.View());
      RecordChanged(id);
    }

    /** The accepting branch of Server::queueMessage. */
    method Enqueue(id: int, message: string, ghost log: Option<string>)
      requires Valid() && id in st.users && id != BOT
      modifies this`pollFds, this`st, Find(id)
      ensures Valid()
      ensures var o := old(st).users[id].out;
              st == WithOutput(old(st), id,
                               o.(buffer := o.buffer + message, accepted := o.accepted + [Delivery(message, log)]))
    {
      hide Server.ClientsOk, Server.ChannelsOk, Polled;
      var client := Find(id);
      ghost var was, before := st, pollFds;
      ClientListed(id);
      client.AppendToOutputBuffer(message, log);
      st := WithUser(st, id, client.View());
      ClientChanged(id);
      assert client == clients[id];
      hide PollMatches, Listed, Rearmed;
      UpdateClientPollEvents(client.socketFd);
      RearmedMatches(before, pollFds, was, st, id);
    }

    /** Server::queueMessage. */
    method QueueMessage(id: int, message: string, ghost log: Option<string>)
      requires Valid() && id in st.users
      modifies this`pollFds, this`st, Find(id)
      ensures Valid()
      ensures st == WithOutput(old(st), id, Offer(id, old(st).users[id].out, message, log))
    {
      hide Server.ClientsOk, Server.ChannelsOk, Polled, PollMatches;
      var client := Find(id);
      if message == "" || client.disconnectRequested || client.IsVirtual() {
        assert st == WithOutput(st, id, st.users[id].out);
        return;
      }
      if |message| > MAX_MESSAGE_LENGTH {
        FlagClient(id, "IRC message length limit exceeded");
        return;
      }
      if |client.outputBuffer| + |message| > MAX_OUTPUT_BUFFER {
        FlagClient(id, "Output buffer limit exceeded");
        return;
      }
      Enqueue(id, message, log);
    }

    /** The recipients may be served one at a time, in any order. */
    lemma BroadcastStep(was: State, served: set<int>, id: int, line: string, log: Option<string>)
      requires id in was.users && id !in served
      ensures var now := Broadcast(was, served, line, log);
              && id in now.users
              && WithOutput(now, id, Offer(id, now.users[id].out, line, log)) ==
                 Broadcast(was, served + {id}, line, log)
    {
    }

    lemma BroadcastNobody(was: State, line: string, log: Option<string>)
      ensures Broadcast(was, {}, line, log) == was
    {
    }

    /** Server::queueMessageToChannel, or the loop over a channel's other members. */
    method QueueMessageToMembers(recipients: set<int>, message: string, ghost log: Option<string>)
      requires Valid() && recipients <= st.users.Keys
      modifies this`pollFds, this`st, Objects
      ensures Valid() && Objects == old(Objects)
      ensures st == Broadcast(old(st), recipients, message, log)
    {
      hide Server.ClientsOk, Server.ChannelsOk, Polled, PollMatches, Broadcast, Offer;
      var waiting := recipients;
      ghost var served: set<int> := {};
      BroadcastNobody(st, message, log);
      while waiting != {}
        invariant Valid() && Objects == old(Objects) && served + waiting == recipients && served * waiting == {}
        invariant recipients <= old(st).users.Keys
        invariant st == Broadcast(old(st), served, message, log)
        decreases waiting
      {
        ghost var any := Pick(waiting);
        var id :| id in waiting;
        BroadcastStep(old(st), served, id, message, log);
        QueueMessage(id, message, log);
        waiting, served := waiting - {id}, served + {id};
      }
      assert served == recipients;
    }

    /** Whether two clients share a channel, by walking the first one's channels. */
    static method ShareChannel(mine: set<string>, theirs: set<string>) returns (shares: bool)
      ensures shares <==> mine * theirs != {}
    {
      var left := mine;
      while left != {}
        invariant left <= mine && (mine - left) * theirs == {}
        decreases left
      {
        ghost var any := Pick(left);
        var key :| key in left;
        if key in theirs {
          assert key in mine * theirs;
          return true;
        }
        left := left - {key};
      }
      return false;
    }

    lemma BroadcastJoined(was: State, to: set<int>, line: string, log: Option<string>)
      ensures var now := Broadcast(was, to, line, log);
              now.users.Keys == was.users.Keys
              && forall id :: id in was.users ==> now.users[id].joined == was.users[id].joined
    {
    }

    /** Server::queueMessageToRelatedClients: the source first, then whoever shares a channel, once each. */
    method QueueMessageToRelatedClients(id: int, message: string)
      requires Valid() && id in st.users
      modifies this`pollFds, this`st, Objects
      ensures Valid() && Objects == old(Objects)
      ensures st == Broadcast(old(st), {id} + Related(old(st), id), message, None)
    {
      hide Server.ClientsOk, Server.ChannelsOk, Polled, PollMatches, Broadcast, Offer;
      ghost var was := st;
      BroadcastNobody(was, message, None);
      BroadcastStep(was, {}, id, message, None);
      QueueMessage(id, message, None);
      var waiting := Connected();
      ghost var served := {id};
      assert {} + {id} == served;
      while waiting != {}
        invariant Valid() && Objects == old(Objects) && waiting <= was.users.Keys - {BOT}
        invariant served == {id} + (Related(was, id) - waiting)
        invariant st == Broadcast(was, served, message, None)
        decreases waiting
      {
        ghost var any := Pick(waiting);
        var other :| other in waiting;
        BroadcastJoined(was, served, message, None);
        if other != id {
          var shares := ShareChannel(Find(id).joinedChannels, Find(other).joinedChannels);
          if shares {
            assert other in Related(was, id);
            BroadcastStep(was, served, other, message, None);
            QueueMessage(other, message, None);
            served := served + {other};
          }
        }
        waiting := waiting - {other};
      }
      assert served == {id} + Related(was, id);
    }

    // ----------------------------------------------------------------
    // Sending messages
    // ----------------------------------------------------------------

    /** Serialize a message and queue it for some clients; false is the exception. */
    method Send(recipients: set<int>, m: IrcMessage) returns (ok: bool)
      requires Valid() && recipients <= st.users.Keys
      modifies this`pollFds, this`st, Objects
      ensures Valid() && Objects == old(Objects)
      ensures Report(ok, st) == Say(old(st), recipients, m)
    {
      hide Server.Valid, Server.ClientsOk, Server.ChannelsOk, Broadcast, Serialize;
      var r := SerializeMessage(m);
      if r.Failure? {
        return false;
      }
      QueueMessageToMembers(recipients, r.value, None);
      return true;
    }

    /** The notification of NICK and QUIT. */
    method SendRelated(id: int, m: IrcMessage) returns (ok: bool)
      requires Valid() && id in st.users
      modifies this`pollFds, this`st, Objects
      ensures Valid() && Objects == old(Objects)
      ensures Report(ok, st) == SayRelated(old(st), id, m)
    {
      hide Server.Valid, Server.ClientsOk, Server.ChannelsOk, Broadcast, Serialize, Related;
      var r := SerializeMessage(m);
      if r.Failure? {
        return false;
      }
      QueueMessageToRelatedClients(id, r.value);
      return true;
    }

    /** Server::getReplyTarget. */
    function TargetOf(id: int): (target: string)
      requires Valid() && id in st.users
      reads this, Objects
      ensures target == ReplyTarget(st.users[id].account)
    {
      if Find(id).nickname == "" then "*" else Find(id).nickname
    }

    /** Server::queueNumericReply with a trailing text. */
    method QueueNumericReply(id: int, code: string, params: seq<string>, trailing: string) returns (ok: bool)
      requires Valid() && id in st.users
      modifies this`pollFds, this`st, Objects
      ensures Valid() && Objects == old(Objects)
      ensures Report(ok, st) == Numeric(old(st), id, code, params, trailing)
    {
      hide Server.Valid, Server.ClientsOk, Server.ChannelsOk, Say, ReplyTarget;
      ok := Send({id}, IrcMessage(code, [TargetOf(id)] + params + [trailing], SERVER_NAME, true));
    }

    /** The overload without a trailing text. */
    method QueueNumericPlain(id: int, code: string, params: seq<string>) returns (ok: bool)
      requires Valid() && id in st.users
      modifies this`pollFds, this`st, Objects
      ensures Valid() && Objects == old(Objects)
      ensures Report(ok, st) == NumericPlain(old(st), id, code, params)
    {
      hide Server.Valid, Server.ClientsOk, Server.ChannelsOk, Say, ReplyTarget;
      ok := Send({id}, IrcMessage(code, [TargetOf(id)] + params, SERVER_NAME, false));
    }

    /** Server::getClientPrefix. */
    function ClientPrefix(id: int): (prefix: string)
      requires Valid() && id in st.users
      reads this, Objects
      ensures prefix == PrefixOf(st.users[id].account)
    {
      Find(id).nickname + "!" + Find(id).username + "@" + Find(id).host
    }

    // ----------------------------------------------------------------
    // Nicknames
    // ----------------------------------------------------------------

    /** Only the nickname index changed, in the map and in the state. */
    twostate lemma IndexChanged()
      requires walk == old(walk)
      requires old(Valid())
      requires clients == old(clients) && channels == old(channels) && bot == old(bot)
      requires Objects == old(Objects) && pollFds == old(pollFds) && unchanged(Objects)
      requires st == old(st).(nicks := clientsByNickname)
      ensures Valid()
    {
      hide Polled;
      PollSame(old(st), st);
      PolledKept(old(st), st);
    }

    /** Server::removeNicknameIndexEntry. */
    method RemoveNicknameIndexEntry(id: int)
      requires Valid() && id in st.users
      modifies this`clientsByNickname, this`st
      ensures Valid() && st == RemoveNickEntry(old(st), id)
    {
      hide Polled, PollMatches, Server.ClientsOk, Server.ChannelsOk;
      var client := Find(id);
      if !client.nicknameReceived {
        return;
      }
      var key := NormalizeCopy(client.nickname);
      if key in clientsByNickname && clientsByNickname[key] == id {
        clientsByNickname := clientsByNickname - {key};
        st := st.(nicks := clientsByNickname);
        IndexChanged();
      }
    }

    /** The client takes the nickname and the index entry for it, both free. */
    method TakeNickname(id: int, nickname: string, key: string)
      requires Valid() && id in st.users
      modifies this`clientsByNickname, this`st, Find(id)
      ensures Valid()
      ensures var renamed := WithUser(old(st), id, Renamed(old(st).users[id], nickname));
              st == renamed.(nicks := renamed.nicks[key := id])
    {
      hide Polled, PollMatches, Server.ClientsOk, Server.ChannelsOk;
      var client := Find(id);
      client.nickname := nickname;
      client.nicknameReceived := true;
      st := WithUser(st, id, client.View());
      RecordChanged(id);
      label Named:
      clientsByNickname := clientsByNickname[key := id];
      st := st.(nicks := clientsByNickname);
      IndexChanged@Named();
    }

    /** Server::assignNickname: ownership is checked before anything changes. */
    method AssignNickname(id: int, nickname: string) returns (ok: bool)
      requires Valid() && id in st.users
      modifies this`clientsByNickname, this`st, Find(id)
      ensures Valid()
      ensures match AssignNick(old(st), id, nickname)
              case None => !ok && st == old(st)
              case Some(after) => ok && st == after
    {
      hide Polled, PollMatches, Server.ClientsOk, Server.ChannelsOk;
      var key := NormalizeCopy(nickname);
      if key == "" {
        return false;
      }
      if key in clientsByNickname && clientsByNickname[key] != id {
        return false;
      }
      var client := Find(id);
      if client.nicknameReceived {
        var previous := NormalizeCopy(client.nickname);
        if previous != key {
          RemoveNicknameIndexEntry(id);
        }
      }
      TakeNickname(id, nickname, key);
      return true;
    }

    /** Server::findClientByNickname. */
    method FindClientByNickname(nickname: string) returns (found: Option<int>)
      requires Valid()
      ensures found == FindNick(st, nickname)
    {
      var normalizedNickname := NormalizeCopy(nickname);
      if normalizedNickname == "" || normalizedNickname !in clientsByNickname {
        return None;
      }
      return Some(clientsByNickname[normalizedNickname]);
    }

    // ----------------------------------------------------------------
    // Channels
    // ----------------------------------------------------------------

    /** No client object was touched, and no record of one. */
    twostate lemma ClientsUntouched()
      requires old(Valid())
      requires clients == old(clients) && bot == old(bot) && pollFds == old(pollFds)
      requires old(Objects) <= Objects
      requires forall fd :: fd in clients ==> unchanged(clients[fd])
      requires bot != null ==> unchanged(bot)
      requires st == old(st).(channels := st.channels)
      ensures ClientsOk() && PollMatches(pollFds, st) && Polled(st)
    {
      hide Polled, Server.ChannelsOk;
      PolledKept(old(st), st);
    }

    /** Only the object of one channel was touched. */
    twostate lemma OneChannelTouched(key: string)
      requires old(Valid()) && key in old(st.channels)
      requires clients == old(clients) && bot == old(bot) && Objects == old(Objects) && pollFds == old(pollFds)
      requires unchanged(Objects - {old(FindKey(key))})
      requires st == old(st).(channels := st.channels)
      ensures ClientsOk() && PollMatches(pollFds, st) && Polled(st)
    {
      ClientsUntouched();
    }

    twostate lemma OneChannelReplaced(key: string)
      requires old(Valid()) && key in old(st.channels)
      requires channels == old(channels) && Objects == old(Objects)
      requires unchanged(Objects - {old(FindKey(key))})
      requires old(FindKey(key)).Valid() && st == WithChan(old(st), key, old(FindKey(key)).View())
      ensures ChannelsOk()
    {
      hide Server.ClientsOk, PollMatches, Polled;
    }

    /** One channel object was updated together with its record. */
    twostate lemma ChannelChanged(key: string)
      requires walk == old(walk)
      requires old(Valid()) && key in old(st.channels)
      requires clients == old(clients) && clientsByNickname == old(clientsByNickname) && channels == old(channels)
      requires bot == old(bot) && Objects == old(Objects) && pollFds == old(pollFds)
      requires unchanged(Objects - {old(FindKey(key))})
      requires old(FindKey(key)).Valid() && st == WithChan(old(st), key, old(FindKey(key)).View())
      ensures Valid()
    {
      OneChannelTouched(key);
      OneChannelReplaced(key);
      hide Server.ClientsOk, Server.ChannelsOk, PollMatches, Polled;
    }

    twostate lemma ChannelsExtended(key: string)
      requires old(Valid()) && key in channels && key !in old(st.channels)
      requires channels == old(channels)[key := channels[key]]
      requires Objects == old(Objects) + {channels[key]}
      requires unchanged(old(Objects)) && channels[key] !in old(Objects)
      requires channels[key].Valid() && Normalize(channels[key].name) == key
      requires st == WithChan(old(st), key, channels[key].View())
      ensures ChannelsOk()
    {
      hide Server.ClientsOk, PollMatches, Polled;
      forall k | k in channels && k != key
        ensures channels[k] in old(Objects) && unchanged(channels[k])
      {
        assert k in old(channels);
      }
    }

    /** One channel object was added under its own key. */
    twostate lemma ChannelAdded(key: string)
      requires walk == old(walk)
      requires old(Valid()) && key in channels && key !in old(st.channels)
      requires clients == old(clients) && clientsByNickname == old(clientsByNickname)
      requires channels == old(channels)[key := channels[key]]
      requires bot == old(bot) && Objects == old(Objects) + {channels[key]} && pollFds == old(pollFds)
      requires unchanged(old(Objects)) && channels[key] !in old(Objects)
      requires channels[key].Valid() && Normalize(channels[key].name) == key
      requires st == WithChan(old(st), key, channels[key].View())
      ensures Valid()
    {
      ChannelAddedClients(key);
      ChannelsExtended(key);
      hide Server.ClientsOk, Server.ChannelsOk, PollMatches, Polled;
    }

    twostate lemma ChannelAddedClients(key: string)
      requires old(Valid()) && key in channels
      requires clients == old(clients) && bot == old(bot) && pollFds == old(pollFds)
      requires Objects == old(Objects) + {channels[key]} && unchanged(old(Objects))
      requires st == old(st).(channels := st.channels)
      ensures ClientsOk() && PollMatches(pollFds, st) && Polled(st)
    {
      ClientsUntouched();
    }

    /** One channel was erased. */
    twostate lemma ChannelErased(key: string)
      requires walk == old(walk)
      requires old(Valid())
      requires clients == old(clients) && clientsByNickname == old(clientsByNickname)
      requires channels == old(channels) - {key}
      requires bot == old(bot) && Objects == old(Objects) && pollFds == old(pollFds)
      requires unchanged(Objects)
      requires st == old(st).(channels := old(st).channels - {key})
      ensures Valid()
    {
      ClientsUntouched();
      hide Server.ClientsOk, PollMatches, Polled;
    }

    /** Server::findChannel. */
    method FindChannel(channelName: string) returns (key: Option<string>)
      requires Valid()
      ensures key == FindChan(st, channelName)
    {
      var normalizedName := NormalizeCopy(channelName);
      if normalizedName == "" || normalizedName !in channels {
        return None;
      }
      return Some(normalizedName);
    }

    /** The second half of findOrCreateChannel. */
    method CreateChannel(channelName: string, normalizedName: string)
      requires Valid() && normalizedName == Normalize(channelName) && normalizedName !in st.channels
      modifies this`channels, this`Objects, this`st
      ensures Valid() && fresh(Objects - old(Objects)) && old(Objects) <= Objects
      ensures st == WithChan(old(st), normalizedName, NewChan(channelName))
    {
      hide Polled, PollMatches, Server.ClientsOk, Server.ChannelsOk, Normalize;
      var channel := new Channel(channelName);
      channels := channels[normalizedName := channel];
      Objects := Objects + {channel};
      st := WithChan(st, normalizedName, channel.View());
      ChannelAdded(normalizedName);
    }

    /** Server::findOrCreateChannel. */
    method FindOrCreateChannel(channelName: string) returns (key: Option<string>)
      requires Valid()
      modifies this`channels, this`Objects, this`st
      ensures Valid() && fresh(Objects - old(Objects)) && old(Objects) <= Objects
      ensures key == if ValidChannelName(channelName) then Some(Normalize(channelName)) else None
      ensures st == if ValidChannelName(channelName) then FindOrCreate(old(st), channelName) else old(st)
    {
      hide Polled, PollMatches, ValidChannelName, Server.ClientsOk, Server.ChannelsOk, Normalize;
      var valid := IsValidChannelName(channelName);
      if !valid {
        return None;
      }
      var normalizedName := NormalizeCopy(channelName);
      if !HasChannel(normalizedName) {
        CreateChannel(channelName, normalizedName);
      }
      return Some(normalizedName);
    }

    /** Server::addClientToChannel: both sides of the membership, the invitation, the first operator. */
    method AddClientToChannel(id: int, key: string)
      requires Valid() && id in st.users && key in st.channels
      modifies this`st, Find(id), FindKey(key)
      ensures Valid() && st == Enter(old(st), id, key)
    {
      hide Polled, PollMatches, Server.ClientsOk, Server.ChannelsOk;
      var channel := FindKey(key);
      if id in channel.members {
        return;
      }
      var channelWasEmpty := channel.members == {};
      channel.AddMember(id);
      channel.RemoveInvitation(id);
      if channelWasEmpty {
        channel.AddOperator(id);
      }
      st := WithChan(st, key, channel.View());
      ChannelChanged(key);
      label Admitted:
      var client := Find(id);
      client.JoinChannel(channel.name);
      st := WithUser(st, id, client.View());
      RecordChanged@Admitted(id);
    }

    predicate HasChannel(key: string)
      requires Valid()
      reads this, Objects
      ensures HasChannel(key) <==> key in st.channels
    {
      key in channels
    }

    /** The keys of the channel map. */
    function ChannelNames(): (names: set<string>)
      requires Valid()
      reads this, Objects
      ensures names == st.channels.Keys
    {
      channels.Keys
    }

    /** channels.erase(key). */
    method EraseChannel(key: string)
      requires Valid()
      modifies this`channels, this`st
      ensures Valid() && Objects == old(Objects)
      ensures st == old(st).(channels := old(st).channels - {key})
    {
      hide Polled, PollMatches, Server.ClientsOk, Server.ChannelsOk;
      channels := channels - {key};
      st := st.(channels := st.channels - {key});
      ChannelErased(key);
    }

    /** Server::removeChannelIfEmpty. */
    method RemoveChannelIfEmpty(key: string)
      requires Valid() && key in st.channels
      modifies this`channels, this`st
      ensures Valid()
      ensures st == if old(st).channels[key].members == {} then old(st).(channels := old(st).channels - {key})
                    else old(st)
    {
      hide Polled, PollMatches, Server.ClientsOk, Server.ChannelsOk;
      if FindKey(key).members != {} {
        return;
      }
      EraseChannel(key);
    }

    /** The channel's side of a departure, and then the client's. */
    method Part(id: int, key: string)
      requires Valid() && id in st.users && key in st.channels
      modifies this`st, Find(id), FindKey(key)
      ensures Valid()
      ensures var ch := old(st).channels[key];
              st == WithChan(WithUser(old(st), id, LeftFrom(old(st).users[id], {Normalize(ch.name)})), key,
                             Without(ch, id))
    {
      hide Polled, PollMatches, Server.ClientsOk, Server.ChannelsOk;
      var channel := FindKey(key);
      channel.RemoveMember(id);
      st := WithChan(st, key, channel.View());
      ChannelChanged(key);
      label Removed:
      var client := Find(id);
      client.LeaveChannel(channel.name);
      st := WithUser(st, id, client.View());
      RecordChanged@Removed(id);
    }

    /** Server::removeClientFromChannel. */
    method RemoveClientFromChannel(id: int, key: string)
      requires Valid() && id in st.users && key in st.channels
      modifies this`st, this`channels, Find(id), FindKey(key)
      ensures Valid() && st == Leave(old(st), id, key)
    {
      hide Polled, PollMatches, Server.ClientsOk, Server.ChannelsOk, Without, LeftFrom, Normalize;
      if id !in FindKey(key).members {
        return;
      }
      Part(id, key);
      ErasedAnyway(old(st).channels, key, st.channels[key]);
      RemoveChannelIfEmpty(key);
    }

    lemma ErasedAnyway(chans: map<string, Chan>, key: string, ch: Chan)
      ensures chans[key := ch] - {key} == chans - {key}
    {
    }

    // ----------------------------------------------------------------
    // Flushing
    // ----------------------------------------------------------------

    /** A sent prefix leaves the buffer, and POLLOUT follows. */
    method RemoveSent(fd: int, bytes: nat)
      requires Valid() && fd in st.users && fd != BOT
      modifies this`pollFds, this`st, Find(fd)
      ensures Valid()
      ensures var o := old(st).users[fd].out;
              st == WithOutput(old(st), fd, SentSome(o, Min(bytes, |o.buffer|)))
    {
      hide Server.ClientsOk, Server.ChannelsOk, Polled;
      var client := Find(fd);
      ghost var was, before := st, pollFds;
      ClientListed(fd);
      client.RemoveSentOutput(bytes);
      st := WithUser(st, fd, client.View());
      ClientChanged(fd);
      assert client == clients[fd];
      hide PollMatches, Listed, Rearmed;
      UpdateClientPollEvents(fd);
      RearmedMatches(before, pollFds, was, st, fd);
    }

    /** With an unchanged buffer the poll entry is already right. */
    method RefreshPollEvents(fd: int)
      requires Valid() && fd in st.users && fd != BOT
      modifies this`pollFds
      ensures Valid() && st == old(st)
    {
      hide Server.ChannelsOk, Polled;
      ghost var before := pollFds;
      ClientListed(fd);
      assert clients[fd] == Find(fd);
      hide PollMatches, Listed, Rearmed, Server.ClientsOk;
      UpdateClientPollEvents(fd);
      assert WithUser(st, fd, st.users[fd]) == st by {
        assert st.users[fd := st.users[fd]] == st.users;
      }
      RearmedMatches(before, pollFds, st, st, fd);
    }

    /** Server::flushClientOutput, given what send would return for the bytes it is offered. */
    method FlushClientOutput(fd: int, send: SendResult) returns (connected: bool)
      requires Valid() && fd in st.users && fd != BOT
      modifies this`pollFds, this`st, Find(fd)
      ensures Valid()
      ensures Served(st, connected) == Flush(old(st), fd, send)
      ensures var pending := old(st).users[fd].out.buffer;
              send.Wrote? && 0 < send.bytes <= |pending| && send.bytes <= MAX_SEND_SIZE ==>
                connected && fd in st.users && st.users[fd].out.buffer == pending[send.bytes..]
    {
      hide Server.ClientsOk, Server.ChannelsOk, Polled, PollMatches, Request;
      var pending := |Find(fd).outputBuffer|;
      if pending == 0 {
        RefreshPollEvents(fd);
        return true;
      }
      var bytesToSend := if pending > MAX_SEND_SIZE then MAX_SEND_SIZE else pending;
      match send
      case Wrote(bytes) =>
        if bytes > 0 {
          RemoveSent(fd, Min(bytes, bytesToSend));
          return true;
        }
        FlagClient(fd, "Send returned zero bytes");
        return false;
      case WroteNothing =>
        FlagClient(fd, "Send returned zero bytes");
        return false;
      case SendLater =>
        return true;
      case BrokenPipe =>
        FlagClient(fd, "Broken pipe");
        return false;
      case ResetByPeer =>
        FlagClient(fd, "Connection reset by peer");
        return false;
      case SendError =>
        FlagClient(fd, "Send error");
        return false;
    }

    // ----------------------------------------------------------------
    // Clients and their descriptors
    // ----------------------------------------------------------------

    lemma PollGrows(before: seq<PollFd>, was: State, fd: int, host: string, walk: Walk)
      requires PollMatches(before, was) && Polled(was) && fd !in was.users && fd != BOT
      ensures PollMatches(before + [PollFd(fd, true, false)], Accept(was, fd, host, walk))
              && Polled(Accept(was, fd, host, walk))
    {
    }

    /** A new client object entered the client map. */
    twostate lemma ClientAdded(fd: int)
      requires old(Valid()) && fd in clients && fd !in old(st.users) && fd != BOT
      requires clients == old(clients)[fd := clients[fd]] && clientsByNickname == old(clientsByNickname)
      requires channels == old(channels) && bot == old(bot)
      requires Objects == old(Objects) + {clients[fd]} && clients[fd] !in old(Objects) && unchanged(old(Objects))
      requires clients[fd].socketFd == fd
      requires st == old(st).(users := old(st).users[fd := clients[fd].View()], order := old(st).order + [fd],
                              walk := st.walk)
      ensures this !in Objects && password == st.password && clientsByNickname == st.nicks
      ensures ClientsOk() && ChannelsOk()
    {
      hide PollMatches, Polled;
    }

    /** The end of Server::acceptClient: into the client map and into poll. */
    method Register(client: Client, newWalk: Walk)
      requires Valid() && client !in Objects && client.socketFd !in st.users && client.socketFd != BOT
      requires client.View() == NewUser(client.host)
      modifies this`st, this`clients, this`pollFds, this`walk, this`Objects
      ensures Valid() && Objects == old(Objects) + {client}
      ensures st == Accept(old(st), client.socketFd, client.host, newWalk)
    {
      hide Server.ClientsOk, Server.ChannelsOk, PollMatches, Polled;
      ghost var was, before := st, pollFds;
      clients := clients[client.socketFd := client];
      pollFds := pollFds + [PollFd(client.socketFd, true, false)];
      walk := newWalk;
      Objects := Objects + {client};
      st := Accept(st, client.socketFd, client.host, newWalk);
      ClientAdded(client.socketFd);
      PollGrows(before, was, client.socketFd, client.host, newWalk);
    }

    /** Whether the listening socket is polled for input. */
    method ListenFor(accepting: bool)
      requires Valid()
      modifies this`st, this`pollFds
      ensures Valid() && Objects == old(Objects)
      ensures st == old(st).(accepting := accepting)
    {
      hide Polled;
      ghost var was := st;
      pollFds := pollFds[0 := pollFds[0].(pollIn := accepting)];
      st := st.(accepting := accepting);
      PolledKept(was, st);
      assert PollMatches(pollFds, st);
      hide PollMatches;
    }

    /** A client object left the client map, with its descriptor. */
    twostate lemma ClientErased(fd: int)
      requires old(Valid()) && fd in old(clients) && fd != BOT
      requires clients == old(clients) - {fd} && clientsByNickname == old(clientsByNickname)
      requires channels == old(channels) && bot == old(bot)
      requires Objects == old(Objects - {clients[fd]}) && unchanged(Objects)
      requires st == old(st).(users := old(st).users - {fd}, order := st.order)
      ensures this !in Objects && password == st.password && clientsByNickname == st.nicks
      ensures ClientsOk() && ChannelsOk()
    {
      hide PollMatches, Polled;
    }

    lemma PolledShrinks(was: State, fd: int)
      requires Polled(was)
      ensures Polled(was.(users := was.users - {fd}, order := Drop(was.order, fd)))
    {
      DropRemoves(was.order, fd);
    }

    lemma DistinctOrder(st: State)
      requires Polled(st)
      ensures Distinct(st.order)
    {
    }

    lemma EntryShrinks(before: seq<PollFd>, was: State, now: State, i: nat, k: nat)
      requires PollMatches(before, was) && Distinct(was.order)
      requires 1 <= i < |before| && 1 <= k < |before| - 1
      requires now.order == was.order[..i - 1] + was.order[i..] && now.users == was.users - {was.order[i - 1]}
      ensures (before[..i] + before[i + 1..])[k] == Armed(now, now.order[k - 1])
    {
    }

    lemma PollShrinks(before: seq<PollFd>, was: State, i: nat)
      requires PollMatches(before, was) && Polled(was)
      requires 1 <= i < |before| && before[i].fd in was.users
      ensures var now := was.(users := was.users - {before[i].fd}, order := Drop(was.order, before[i].fd));
              PollMatches(before[..i] + before[i + 1..], now) && Polled(now)
    {
      var fd := before[i].fd;
      assert fd == was.order[i - 1];
      hide Polled, Distinct, Drop;
      PolledShrinks(was, fd);
      DistinctOrder(was);
      DropAt(was.order, i - 1);
      var now := was.(users := was.users - {fd}, order := Drop(was.order, fd));
      var after := before[..i] + before[i + 1..];
      hide Armed;
      forall k | 1 <= k < |after|
        ensures after[k] == Armed(now, now.order[k - 1])
      {
        EntryShrinks(before, was, now, i, k);
      }
    }

    /** Where a client's descriptor is in poll. */
    method FindDescriptor(fd: int) returns (i: nat)
      requires Valid() && fd in st.users && fd != BOT
      ensures 1 <= i < |pollFds| && pollFds[i].fd == fd
    {
      ClientListed(fd);
      hide PollMatches, Polled, Server.ClientsOk, Server.ChannelsOk;
      i := 1;
      while pollFds[i].fd != fd
        invariant 1 <= i < |pollFds|
        invariant exists j :: i <= j < |pollFds| && pollFds[j].fd == fd
        decreases |pollFds| - i
      {
        i := i + 1;
      }
    }

    /** The end of Server::disconnectClient: out of the client map and out of poll. */
    method Unregister(fd: int)
      requires Valid() && fd in st.users && fd != BOT
      modifies this`st, this`clients, this`pollFds, this`Objects
      ensures Valid() && Objects <= old(Objects)
      ensures st == old(st).(users := old(st).users - {fd}, order := Drop(old(st).order, fd))
    {
      hide Server.ClientsOk, Server.ChannelsOk, PollMatches, Polled;
      ghost var was, before := st, pollFds;
      var i := FindDescriptor(fd);
      assert fd in Connected() && Connected() == clients.Keys;
      Objects := Objects - {clients[fd]};
      clients := clients - {fd};
      pollFds := pollFds[..i] + pollFds[i + 1..];
      st := st.(users := st.users - {fd}, order := Drop(st.order, fd));
      ClientErased(fd);
      PollShrinks(before, was, i);
    }

    // ----------------------------------------------------------------
    // Starting and stopping
    // ----------------------------------------------------------------

    /** The server once its listening socket is in poll. */
    constructor (password: string, listenSocket: int, walk: Walk)
      ensures this.password == password && this.walk == walk && Valid() && fresh(Objects)
      ensures st == State(password, map[], map[], map[], [], true, walk)
    {
      this.password := password;
      this.walk := walk;
      pollFds := [PollFd(listenSocket, true, false)];
      clients, clientsByNickname, channels := map[], map[], map[];
      bot := null;
      st := State(password, map[], map[], map[], [], true, walk);
      Objects := {};
    }

    twostate lemma BotInstalled()
      requires walk == old(walk)
      requires old(Valid()) && BOT !in old(st.users) && bot != null
      requires clients == old(clients) && clientsByNickname == old(clientsByNickname) && channels == old(channels)
      requires pollFds == old(pollFds) && Objects == old(Objects) + {bot} && bot !in old(Objects)
      requires unchanged(old(Objects)) && bot.socketFd == BOT && bot.outputBuffer == ""
      requires st == WithUser(old(st), BOT, bot.View())
      ensures Valid()
    {
      BotPolled(old(st));
    }

    lemma BotPolled(was: State)
      requires Polled(was) && BOT !in was.users
      ensures BOT !in was.order
    {
    }

    /** The virtual client of the bot. */
    method InstallBot(user: Client)
      requires Valid() && BOT !in st.users && user !in Objects && user.socketFd == BOT && user.outputBuffer == ""
      modifies this`st, this`bot, this`Objects
      ensures Valid() && Objects == old(Objects) + {user}
      ensures st == WithUser(old(st), BOT, user.View())
    {
      hide Server.ClientsOk, Server.ChannelsOk, PollMatches, Polled;
      bot := user;
      Objects := Objects + {user};
      st := WithUser(st, BOT, user.View());
      BotInstalled();
    }

    twostate lemma BotRemoved()
      requires walk == old(walk)
      requires old(Valid()) && bot == null && BOT in old(st.users)
      requires clients == old(clients) && clientsByNickname == old(clientsByNickname) && channels == old(channels)
      requires pollFds == old(pollFds) && Objects == old(Objects - {bot}) && unchanged(Objects)
      requires st == old(st).(users := old(st).users - {BOT})
      ensures Valid()
    {
    }

    /** The bot's client is destroyed. */
    method RemoveBot()
      requires Valid() && BOT in st.users
      modifies this`st, this`bot, this`Objects
      ensures Valid() && Objects <= old(Objects)
      ensures st == old(st).(users := old(st).users - {BOT})
    {
      hide Server.ClientsOk, Server.ChannelsOk, PollMatches, Polled;
      assert HasBot();
      Objects := Objects - {bot};
      bot := null;
      st := st.(users := st.users - {BOT});
      BotRemoved();
    }

    /** A state without users and channels is a server without objects. */
    lemma NothingLeft()
      requires Valid() && st.users == map[] && st.channels == map[] && st.nicks == map[]
      ensures clients == map[] && channels == map[] && clientsByNickname == map[] && bot == null
    {
    }
  }
}
