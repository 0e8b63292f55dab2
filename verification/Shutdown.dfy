// Server::closeAllFds and Bot::stop (Server.cpp:1688-1709, Bot.cpp:71-91):
// draining the clients one by one empties every index.
module Shutdown {
  import opened Results
  import opened IrcCasemap
  import opened Codec
  import opened Walks
  import opened ServerState
  import opened Primitives
  import opened Membership
  import opened Commands
  import opened CommandLaws
  import opened DispatchLaws
  import opened Connection
  import opened ConnectionLaws
  import opened DisconnectLaws

  const SHUTDOWN_REASON: string := "Server shutting down"

  /** The connected clients, which is what the client map holds. */
  function Clients(st: State): set<int> {
    st.users.Keys - {BOT}
  }

  /** clients.begin(). */
  function FirstClient(st: State): (fd: int)
    requires Clients(st) != {}
    ensures fd in Clients(st)
  {
    First(Clients(st))
  }

  /** The first loop of closeAllFds: disconnect the first client until there is none. */
  function CloseClients(st: State, shuttingDown: bool): (r: Outcome)
    decreases |Clients(st)|
  {
    if Clients(st) == {} then Done(st)
    else
      var fd := FirstClient(st);
      var st1 :- Disconnect(st, fd, SHUTDOWN_REASON, shuttingDown);
      if |Clients(st1)| < |Clients(st)| then CloseClients(st1, shuttingDown) else Done(st1)
  }

  /** The loop of Bot::stop over a copy of the bot's channels. */
  function LeaveAll(st: State, id: int, keys: seq<string>): (r: State)
    requires id in st.users
    ensures r.users.Keys == st.users.Keys
    decreases |keys|
  {
    if keys == [] then st
    else if keys[0] in st.channels then LeaveAll(Leave(st, id, keys[0]), id, keys[1..])
    else LeaveAll(st, id, keys[1..])
  }

  /** Bot::stop, the bot's channels taken in the order of `keys`. */
  function StopBot(st: State, keys: seq<string>): State {
    if BOT !in st.users then st
    else
      var left := LeaveAll(st, BOT, keys);
      var freed := RemoveNickEntry(left, BOT);
      freed.(users := freed.users - {BOT})
  }

  // ------------------------------------------------------------------
  // Draining
  // ------------------------------------------------------------------

  lemma FewerClients(a: State, b: State, fd: int)
    requires fd in Clients(a) && b.users.Keys == a.users.Keys - {fd}
    ensures Clients(b) < Clients(a) && |Clients(b)| < |Clients(a)|
  {
  }

  lemma ClientsAreReal(st: State, fd: int)
    requires Inv(st) && fd in Clients(st)
    ensures !Virtual(fd)
  {
  }

  /** The loop is stopped by an exception or ends with no client left; either way the registry is sound. */
  lemma {:induction false} CloseClientsDrains(st: State, shuttingDown: bool)
    requires Sound(st)
    ensures var r := CloseClients(st, shuttingDown);
            Sound(r.st) && (r.Done? ==> Clients(r.st) == {} && (BOT in st.users ==> BOT in r.st.users))
    decreases |Clients(st)|
  {
    if Clients(st) != {} {
      var fd := FirstClient(st);
      ClientsAreReal(st, fd);
      hide Sound, Disconnect, FirstClient, Remain, Inv;
      assert fd != BOT;
      hide Clients;
      DisconnectSound(st, fd, SHUTDOWN_REASON, shuttingDown);
      var r := Disconnect(st, fd, SHUTDOWN_REASON, shuttingDown);
      if r.Done? {
        FewerClients(st, r.st, fd);
        CloseClientsDrains(r.st, shuttingDown);
      }
    }
  }

  lemma LeftNot(st: State, id: int, key: string)
    requires Inv(st) && id in st.users && key in st.channels
    ensures var after := Leave(st, id, key);
            && after.users[id].joined == st.users[id].joined - {key}
            && after.users.Keys == st.users.Keys
  {
    assert ChanOk(st.channels[key], key, st.users);
    assert key in st.users[id].joined <==> id in st.channels[key].members;
  }

  /** One round of the loop: out of the channel, if there is one. */
  function LeftOne(st: State, id: int, key: string): (after: State)
    requires id in st.users
    ensures after.users.Keys == st.users.Keys
  {
    if key in st.channels then Leave(st, id, key) else st
  }

  lemma LeftOneKeeps(st: State, id: int, key: string)
    requires Inv(st) && id in st.users
    ensures var after := LeftOne(st, id, key);
            Inv(after) && after.users[id].joined == st.users[id].joined - {key}
  {
    if key in st.channels {
      hide Inv, Leave, Follows;
      LeaveKeeps(st, id, key);
      LeftNot(st, id, key);
    } else {
      NotJoined(st, id, key);
    }
  }

  /** After leaving every channel it was in, the bot is in none. */
  lemma {:induction false} LeaveAllLeaves(st: State, id: int, keys: seq<string>)
    requires Inv(st) && id in st.users
    ensures var after := LeaveAll(st, id, keys);
            && Inv(after) && after.users[id].joined == st.users[id].joined - set k | k in keys
    decreases |keys|
  {
    hide Inv, Leave;
    if keys != [] {
      var st1 := LeftOne(st, id, keys[0]);
      LeftOneKeeps(st, id, keys[0]);
      assert LeaveAll(st, id, keys) == LeaveAll(st1, id, keys[1..]);
      hide LeftOne, LeaveAll;
      LeaveAllLeaves(st1, id, keys[1..]);
      assert forall k :: k in keys <==> k == keys[0] || k in keys[1..];
    }
  }

  lemma NotJoined(st: State, id: int, key: string)
    requires Inv(st) && id in st.users && key !in st.channels
    ensures key !in st.users[id].joined
  {
  }

  lemma ChannelsGone(st: State)
    requires Inv(st) && st.users.Keys == {BOT} && st.users[BOT].joined == {}
    ensures st.channels == map[]
  {
  }

  lemma NicksGone(st: State)
    requires Inv(st) && st.users.Keys == {BOT}
    ensures RemoveNickEntry(st, BOT).nicks == map[]
  {
  }

  /**
   * Once the clients have been drained and the bot has stopped, the channel map
   * and the nickname map are already empty: the explicit clears find nothing.
   */
  lemma ShutdownEmptiesEverything(st: State, shuttingDown: bool, keys: seq<string>)
    requires Sound(st) && BOT in st.users && CloseClients(st, shuttingDown).Done?
    ensures var drained := CloseClients(st, shuttingDown).st;
            && drained.users.Keys == {BOT}
            && ((forall k :: k in keys <==> k in drained.users[BOT].joined) ==>
                  var last := StopBot(drained, keys);
                  last.users == map[] && last.channels == map[] && last.nicks == map[])
  {
    hide Inv, AllMarked, CloseClients, LeaveAll, RemoveNickEntry;
    CloseClientsDrains(st, shuttingDown);
    var drained := CloseClients(st, shuttingDown).st;
    assert drained.users.Keys == {BOT};
    if forall k :: k in keys <==> k in drained.users[BOT].joined {
      LeaveAllLeaves(drained, BOT, keys);
      var left := LeaveAll(drained, BOT, keys);
      assert left.users[BOT].joined == {};
      ChannelsGone(left);
      NicksGone(left);
      RemovingNickKeeps(left);
    }
  }

  lemma RemovingNickKeeps(st: State)
    requires BOT in st.users
    ensures var after := RemoveNickEntry(st, BOT);
            after.users == st.users && after.channels == st.channels
  {
  }
}
