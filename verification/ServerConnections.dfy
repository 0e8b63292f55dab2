// Accepting, detaching and disconnecting, in place (Server.cpp:130-235,
// 614-648, 1043-1121).
module ServerConnections {
  import opened Results
  import opened IrcCasemap
  import opened Codec
  import opened Walks
  import opened ServerState
  import opened Primitives
  import opened Membership
  import opened Commands
  import opened CommandLaws
  import opened Connection
  import opened ConnectionLaws
  import opened DisconnectLaws
  import opened ClientObject
  import opened ChannelObject
  import opened ServerObject

  // ------------------------------------------------------------------
  // Detaching
  // ------------------------------------------------------------------

  /** The state when detachClientFromChannels has walked over some of the channels. */
  ghost function Detaching(st: State, id: int, done: set<string>): State
    requires id in st.users
  {
    WithUser(st, id, LeftFrom(st.users[id], MemberOf(st, id) * done))
    .(channels := map key | key in st.channels ::
        if key in done then Without(st.channels[key], id) else st.channels[key])
  }

  /** What one round does to a channel and to the client. */
  ghost function DetachedOnce(st: State, id: int, key: string): State
    requires id in st.users && key in st.channels
  {
    var ch := st.channels[key];
    if id in ch.members then
      WithChan(WithUser(st, id, LeftFrom(st.users[id], {Normalize(ch.name)})), key, Without(ch, id))
    else WithChan(st, key, ch.(invited := ch.invited - {id}))
  }

  lemma DetachingNothing(st: State, id: int)
    requires id in st.users
    ensures Detaching(st, id, {}) == st
  {
    var after := Detaching(st, id, {});
    assert MemberOf(st, id) * {} == {};
    assert st.users[id].joined - {} == st.users[id].joined && st.users[id].marks - {} == st.users[id].marks;
    assert after.users == st.users && after.channels == st.channels;
  }

  lemma LeftTwice(u: User, keys: set<string>, key: string)
    ensures LeftFrom(LeftFrom(u, keys), {key}) == LeftFrom(u, keys + {key})
  {
  }

  lemma DetachingStep(st: State, id: int, done: set<string>, key: string)
    requires id in st.users && key in st.channels && key !in done
    requires Normalize(st.channels[key].name) == key && st.channels[key].operators <= st.channels[key].members
    ensures var now := Detaching(st, id, done);
            && id in now.users && key in now.channels && now.channels[key] == st.channels[key]
            && DetachedOnce(now, id, key) == Detaching(st, id, done + {key})
  {
    var now, next := Detaching(st, id, done), Detaching(st, id, done + {key});
    var once := DetachedOnce(now, id, key);
    var ch := st.channels[key];
    hide Normalize;
    if id in ch.members {
      LeftTwice(st.users[id], MemberOf(st, id) * done, key);
      assert MemberOf(st, id) * (done + {key}) == MemberOf(st, id) * done + {key};
    } else {
      assert MemberOf(st, id) * (done + {key}) == MemberOf(st, id) * done;
      assert Without(ch, id) == ch.(invited := ch.invited - {id}) by {
        assert ch.members - {id} == ch.members && ch.operators - {id} == ch.operators;
      }
    }
    assert once.channels == next.channels;
  }

  /** One round of the loop of detachClientFromChannels. */
  method DetachOne(server: Server, id: int, key: string) returns (emptied: bool)
    requires server.Valid() && id in server.st.users && key in server.st.channels
    modifies server`st, server.Find(id), server.FindKey(key)
    ensures server.Valid() && server.Objects == old(server.Objects)
    ensures server.st == DetachedOnce(old(server.st), id, key)
    ensures var ch := old(server.st).channels[key];
            emptied <==> id in ch.members && Without(ch, id).members == {}
  {
    hide Server.ClientsOk, Server.ChannelsOk, PollMatches, Polled;
    var channel := server.FindKey(key);
    if id in channel.members {
      server.Part(id, key);
      return server.FindKey(key).members == {};
    }
    channel.RemoveInvitation(id);
    server.st := WithChan(server.st, key, channel.View());
    server.ChannelChanged(key);
    return false;
  }

  /** The channels that the first loop leaves empty. */
  ghost function Emptied(st: State, id: int, done: set<string>): set<string> {
    set key | key in done && key in st.channels
              && id in st.channels[key].members && Without(st.channels[key], id).members == {}
  }

  lemma DetachedInTheEnd(st: State, id: int)
    requires id in st.users
    ensures var walked := Detaching(st, id, st.channels.Keys);
            walked.(channels := walked.channels - Emptied(st, id, st.channels.Keys)) == Detach(st, id)
  {
    var walked := Detaching(st, id, st.channels.Keys);
    assert MemberOf(st, id) * st.channels.Keys == MemberOf(st, id);
    assert walked.channels - Emptied(st, id, st.channels.Keys) == Detach(st, id).channels;
  }

  /** The first loop: every channel, in whatever order the map gives them. */
  method DetachFromAll(server: Server, id: int) returns (emptyNames: set<string>)
    requires server.Valid() && Inv(server.st) && id in server.st.users
    modifies server`st, server.Objects
    ensures server.Valid() && server.Objects == old(server.Objects)
    ensures server.st == Detaching(old(server.st), id, old(server.st).channels.Keys)
    ensures emptyNames == Emptied(old(server.st), id, old(server.st).channels.Keys)
  {
    hide Server.ClientsOk, Server.ChannelsOk, Server.Valid, Detaching, DetachedOnce, Without, Inv;
    ghost var was := server.st;
    var waiting := server.ChannelNames();
    ghost var done: set<string> := {};
    emptyNames := {};
    DetachingNothing(was, id);
    while waiting != {}
      invariant server.Valid() && server.Objects == old(server.Objects)
      invariant done + waiting == was.channels.Keys && done * waiting == {}
      invariant server.st == Detaching(was, id, done)
      invariant emptyNames == Emptied(was, id, done)
      decreases waiting
    {
      ghost var any := Pick(waiting);
      var key :| key in waiting;
      ChannelShape(was, key);
      DetachingStep(was, id, done, key);
      var emptied := DetachOne(server, id, key);
      if emptied {
        emptyNames := emptyNames + {key};
      }
      waiting, done := waiting - {key}, done + {key};
    }
    assert done == was.channels.Keys;
  }

  lemma ChannelShape(st: State, key: string)
    requires Inv(st) && key in st.channels
    ensures Normalize(st.channels[key].name) == key && st.channels[key].operators <= st.channels[key].members
  {
  }

  lemma ErasedSoFar(st: State, erased: set<string>, key: string)
    ensures st.(channels := st.channels - erased).(channels := st.channels - erased - {key}) ==
            st.(channels := st.channels - (erased + {key}))
  {
  }

  /** Server::detachClientFromChannels: the emptied channels are erased in a second loop. */
  method DetachClientFromChannels(server: Server, id: int)
    requires server.Valid() && Inv(server.st) && id in server.st.users
    modifies server`st, server`channels, server.Objects
    ensures server.Valid() && server.Objects == old(server.Objects)
    ensures server.st == Detach(old(server.st), id)
  {
    hide Server.ClientsOk, Server.ChannelsOk, Server.Valid, Detaching, Emptied, Detach, Inv;
    ghost var was := server.st;
    var emptyNames := DetachFromAll(server, id);
    DetachedInTheEnd(was, id);
    ghost var walked := server.st;
    var waiting := emptyNames;
    ghost var erased: set<string> := {};
    assert walked.channels - {} == walked.channels;
    while waiting != {}
      invariant server.Valid() && server.Objects == old(server.Objects)
      invariant erased + waiting == emptyNames && erased * waiting == {}
      invariant server.st == walked.(channels := walked.channels - erased)
      decreases waiting
    {
      ghost var any := Pick(waiting);
      var key :| key in waiting;
      ErasedSoFar(walked, erased, key);
      server.EraseChannel(key);
      waiting, erased := waiting - {key}, erased + {key};
    }
    assert erased == emptyNames;
  }

  // ------------------------------------------------------------------
  // Accepting
  // ------------------------------------------------------------------

  /**
   * Server::acceptClient on the descriptor that accept returned. A descriptor
   * already in the client map makes the insertion fail, and nothing changes.
   */
  method AcceptClient(server: Server, fd: int, host: string, walk: Walk)
    requires server.Valid() && !Virtual(fd)
    modifies server`st, server`clients, server`pollFds, server`walk, server`Objects
    ensures server.Valid() && fresh(server.Objects - old(server.Objects))
    ensures server.st == if fd in old(server.st).users then old(server.st) else Accept(old(server.st), fd, host, walk)
  {
    hide Server.ClientsOk, Server.ChannelsOk, PollMatches, Polled;
    if fd in server.Connected() {
      return;
    }
    var client := new Client(fd, host);
    server.Register(client, walk);
  }

  /** Server::pauseAcceptingConnections and Server::resumeAcceptingConnections. */
  method SetAccepting(server: Server, accepting: bool)
    requires server.Valid()
    modifies server`st, server`pollFds
    ensures server.Valid() && server.Objects == old(server.Objects)
    ensures server.st == old(server.st).(accepting := accepting)
  {
    server.ListenFor(accepting);
  }

  // ------------------------------------------------------------------
  // Disconnecting
  // ------------------------------------------------------------------

  /** The farewell of disconnectClient: the reason is fixed, and whoever shares a channel is told. */
  method BidFarewell(server: Server, fd: int, reason: string) returns (ok: bool)
    requires server.Valid() && fd in server.st.users
    modifies server`st, server`pollFds, server.Objects
    ensures server.Valid() && server.Objects == old(server.Objects)
    ensures Report(ok, server.st) == Farewell(old(server.st), fd, reason)
  {
    hide Server.ClientsOk, Server.ChannelsOk, Server.Valid, Request, SayRelated, PrefixOf;
    var client := server.Find(fd);
    var disconnectReason := if reason == "" then "Client disconnected" else reason;
    if client.disconnectRequested && client.disconnectReason != "" {
      disconnectReason := client.disconnectReason;
    }
    var prefix := server.ClientPrefix(fd);
    var talked := client.joinedChannels != {};
    server.FlagClient(fd, disconnectReason);
    if !talked {
      return true;
    }
    ok := server.SendRelated(fd, IrcMessage("QUIT", [disconnectReason], prefix, true));
  }

  /** Server::disconnectClient; calling it for a descriptor that is gone has no effect. */
  method DisconnectClient(server: Server, fd: int, reason: string, shuttingDown: bool) returns (ok: bool)
    requires server.Valid() && Inv(server.st)
    modifies server, server.Objects
    ensures server.Valid() && server.Objects <= old(server.Objects)
    ensures Report(ok, server.st) == Disconnect(old(server.st), fd, reason, shuttingDown)
  {
    hide Server.ClientsOk, Server.ChannelsOk, Server.Valid, Farewell, Detach, Forget, Disconnect, Inv, Removed,
      Follows, Keeps;
    ghost var was := server.st;
    UnknownDescriptor(was, fd, reason, shuttingDown);
    if fd !in server.Connected() {
      return true;
    }
    RealClient(was, fd);
    DisconnectIs(was, fd, reason, shuttingDown);
    FarewellKeeps(was, fd, reason);
    ok := BidFarewell(server, fd, reason);
    if !ok {
      return;
    }
    DetachUsersSame(server.st, fd);
    RemovedIs(server.st, fd, shuttingDown);
    DetachClientFromChannels(server, fd);
    server.RemoveNicknameIndexEntry(fd);
    server.Unregister(fd);
    if !shuttingDown {
      SetAccepting(server, true);
    }
  }

  lemma UnknownDescriptor(st: State, fd: int, reason: string, shuttingDown: bool)
    ensures fd !in st.users - {BOT} ==> Disconnect(st, fd, reason, shuttingDown) == Done(st)
  {
  }

  lemma RealClient(st: State, fd: int)
    requires Inv(st) && fd in st.users && fd != BOT
    ensures !Virtual(fd)
  {
  }

  /** Removing a client, one index after the other. */
  lemma RemovedIs(st: State, fd: int, shuttingDown: bool)
    requires fd in st.users && fd in Detach(st, fd).users
    ensures var freed := RemoveNickEntry(Detach(st, fd), fd);
            && fd in freed.users
            && var gone := freed.(users := freed.users - {fd}, order := Drop(freed.order, fd));
               Removed(st, fd, shuttingDown) == if shuttingDown then gone else gone.(accepting := true)
  {
  }
}
