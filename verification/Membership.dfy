// Joining, leaving and disconnecting: the changes that edit a channel and a
// client together (Server.cpp:532-648, 1010-1121).
module Membership {
  import opened Results
  import opened IrcCasemap
  import opened Codec
  import opened ChannelModes
  import opened Walks
  import opened ServerState
  import opened Primitives

  /** The accounts and everything keyed by them are as before. */
  ghost predicate SameAccounts(a: State, b: State) {
    && b.nicks == a.nicks && b.order == a.order && b.users.Keys == a.users.Keys
    && forall i :: i in a.users ==> b.users[i].account == a.users[i].account
  }

  /** The nickname index and the poll list depend on nothing but the accounts. */
  lemma AccountsKeepIndex(a: State, b: State)
    requires Indexed(a) && Polled(a)
    requires SameAccounts(a, b)
    ensures Indexed(b) && Polled(b)
  {
    forall id, n | id in a.users
      ensures Owns(b.users, id, n) <==> Owns(a.users, id, n)
    {
    }
  }

  // ------------------------------------------------------------------
  // Joining
  // ------------------------------------------------------------------

  /** Server::findOrCreateChannel on a valid name. */
  function FindOrCreate(st: State, name: string): State {
    var key := Normalize(name);
    if key in st.channels then st else WithChan(st, key, NewChan(name))
  }

  /** A channel with one more member; the first member becomes an operator. */
  function Admit(ch: Chan, id: int): Chan {
    ch.(members := ch.members + {id},
        invited := ch.invited - {id},
        operators := if ch.members == {} then ch.operators + {id} else ch.operators)
  }

  function JoinedTo(u: User, key: string): User {
    u.(joined := u.joined + {key})
  }

  /** Server::addClientToChannel. */
  function Enter(st: State, id: int, key: string): (after: State)
    requires id in st.users && key in st.channels
    ensures after.users.Keys == st.users.Keys && after.channels.Keys == st.channels.Keys
  {
    var ch := st.channels[key];
    if id in ch.members then st
    else
      WithChan(WithUser(st, id, JoinedTo(st.users[id], Normalize(ch.name))), key, Admit(ch, id))
  }

  /** As findOrCreateChannel leaves a new channel, but for its topic. */
  predicate Blank(ch: Chan, key: string) {
    && ch == NewChan(ch.name).(topic := ch.topic)
    && ValidChannelName(ch.name)
    && Normalize(ch.name) == key
  }

  /** The channel is a sound one, or has just been created by findOrCreateChannel. */
  ghost predicate Enterable(st: State, key: string) {
    && key in st.channels
    && (Inv(st) || (Inv(st.(channels := st.channels - {key})) && Blank(st.channels[key], key)))
  }

  lemma FindOrCreateEnterable(st: State, name: string)
    requires Inv(st) && ValidChannelName(name)
    ensures Enterable(FindOrCreate(st, name), Normalize(name))
  {
    var key := Normalize(name);
    var after := FindOrCreate(st, name);
    if key !in st.channels {
      assert after.channels - {key} == st.channels;
    }
  }

  /** Joining seen from a sound base state: `ch` is its channel, or a fresh one. */
  function EnterFrom(base: State, id: int, key: string, ch: Chan): State
    requires id in base.users
  {
    WithChan(WithUser(base, id, JoinedTo(base.users[id], key)), key, Admit(ch, id))
  }

  ghost predicate Admissible(base: State, id: int, key: string, ch: Chan) {
    && id in base.users && id !in ch.members && base.users[id].account.registered
    && (if key in base.channels then ch == base.channels[key] else Blank(ch, key))
  }

  lemma EnterChans(base: State, id: int, key: string, ch: Chan)
    requires ChansOk(base) && Admissible(base, id, key, ch)
    ensures ChansOk(EnterFrom(base, id, key, ch))
  {
  }

  lemma EnterLinks(base: State, id: int, key: string, ch: Chan)
    requires Linked(base) && Admissible(base, id, key, ch)
    ensures Linked(EnterFrom(base, id, key, ch))
  {
  }

  lemma EnterLogs(base: State, id: int, key: string, ch: Chan)
    requires Logged(base) && Admissible(base, id, key, ch)
    ensures Logged(EnterFrom(base, id, key, ch))
  {
  }

  lemma EnterUsers(base: State, id: int, key: string, ch: Chan)
    requires UsersOk(base) && id in base.users
    ensures UsersOk(EnterFrom(base, id, key, ch)) && Follows(base, EnterFrom(base, id, key, ch))
  {
  }

  /** Users do not look at channels. */
  lemma RechannelledUsers(a: State, b: State, c: State)
    requires c == b.(channels := c.channels)
    ensures UsersOk(b) ==> UsersOk(c)
    ensures Follows(a, b) ==> Follows(a, c)
  {
  }

  lemma EnterFromKeeps(base: State, id: int, key: string, ch: Chan)
    requires Inv(base) && Admissible(base, id, key, ch)
    ensures Inv(EnterFrom(base, id, key, ch)) && Follows(base, EnterFrom(base, id, key, ch))
  {
    var v := JoinedTo(base.users[id], key);
    var after := EnterFrom(base, id, key, ch);
    assert SameAccounts(base, after);
    hide UsersOk, Logged, ChansOk, Linked, Indexed, Polled, Follows;
    EnterUsers(base, id, key, ch);
    EnterChans(base, id, key, ch);
    EnterLinks(base, id, key, ch);
    EnterLogs(base, id, key, ch);
    AccountsKeepIndex(base, after);
  }

  lemma EnterKeeps(st: State, id: int, key: string)
    requires Enterable(st, key) && id in st.users && st.users[id].account.registered
    ensures Inv(Enter(st, id, key)) && Follows(st, Enter(st, id, key))
    ensures key in Enter(st, id, key).channels && id in Enter(st, id, key).channels[key].members
  {
    var ch := st.channels[key];
    if Inv(st) {
      assert Normalize(ch.name) == key by {
        assert ChanOk(ch, key, st.users);
      }
      hide Inv, Follows, Normalize, Enterable;
      if id in ch.members {
        NothingFollows(st);
      } else {
        EnterFromKeeps(st, id, key, ch);
      }
    } else {
      hide Inv, Follows, Normalize, ValidChannelName;
      var base := st.(channels := st.channels - {key});
      EnterFromKeeps(base, id, key, ch);
      EnterFromSame(st, id, key);
    }
  }

  lemma EnterFromSame(st: State, id: int, key: string)
    requires id in st.users && key in st.channels && Normalize(st.channels[key].name) == key
    requires id !in st.channels[key].members
    ensures Enter(st, id, key) == EnterFrom(st.(channels := st.channels - {key}), id, key, st.channels[key])
  {
  }

  // ------------------------------------------------------------------
  // Leaving one channel
  // ------------------------------------------------------------------

  /** Channel::removeMember. */
  function Without(ch: Chan, id: int): Chan {
    ch.(members := ch.members - {id}, operators := ch.operators - {id}, invited := ch.invited - {id})
  }

  function LeftFrom(u: User, keys: set<string>): User {
    u.(joined := u.joined - keys, marks := u.marks - keys)
  }

  /** Server::removeClientFromChannel: an emptied channel disappears. */
  function Leave(st: State, id: int, key: string): (after: State)
    requires id in st.users && key in st.channels
    ensures after.users.Keys == st.users.Keys
  {
    var ch := st.channels[key];
    if id !in ch.members then st
    else
      var gone := WithUser(st, id, LeftFrom(st.users[id], {Normalize(ch.name)}));
      if Without(ch, id).members == {} then gone.(channels := st.channels - {key})
      else WithChan(gone, key, Without(ch, id))
  }

  /** Channels may disappear and marks may be dropped; nothing else that logs depend on changes. */
  ghost predicate OnlyFewer(a: State, b: State) {
    && b.users.Keys == a.users.Keys
    && (forall k :: k in b.channels ==> k in a.channels && b.channels[k].history == a.channels[k].history)
    && (forall i :: i in b.users ==> b.users[i].out == a.users[i].out)
    && (forall i, k :: i in b.users && k in b.users[i].marks ==>
          k in a.users[i].marks && b.users[i].marks[k] == a.users[i].marks[k])
  }

  lemma LeaveFrame(st: State, id: int, key: string)
    requires id in st.users && key in st.channels
    ensures SameAccounts(st, Leave(st, id, key))
    ensures OnlyFewer(st, Leave(st, id, key))
  {
    var ch := st.channels[key];
    if id in ch.members {
      var gone := WithUser(st, id, LeftFrom(st.users[id], {Normalize(ch.name)}));
      assert SameAccounts(st, gone) && OnlyFewer(st, gone);
    }
  }

  lemma LeaveChans(st: State, id: int, key: string)
    requires ChansOk(st) && id in st.users && key in st.channels
    ensures ChansOk(Leave(st, id, key))
  {
    var after := Leave(st, id, key);
    LeaveFrame(st, id, key);
    forall k | k in after.channels
      ensures ChanOk(after.channels[k], k, after.users)
    {
      LeaveOneChan(st, id, key, k);
      assert forall i :: i in st.users ==> after.users[i].account == st.users[i].account;
      hide ChanOk, Leave;
      ChanKept(after.channels[k], k, st.users, after.users);
    }
  }

  lemma LeaveOneChan(st: State, id: int, key: string, k: string)
    requires ChansOk(st) && id in st.users && key in st.channels
    requires k in Leave(st, id, key).channels
    ensures ChanOk(Leave(st, id, key).channels[k], k, st.users)
  {
  }

  lemma LeaveLinks(st: State, id: int, key: string)
    requires ChansOk(st) && Linked(st) && id in st.users && key in st.channels
    ensures Linked(Leave(st, id, key))
  {
    assert Normalize(st.channels[key].name) == key by {
      assert ChanOk(st.channels[key], key, st.users);
    }
    var after := Leave(st, id, key);
    forall i, k | i in after.users
      ensures k in after.users[i].joined <==> k in after.channels && i in after.channels[k].members
    {
      assert k in st.users[i].joined <==> k in st.channels && i in st.channels[k].members;
      if k == key && i != id && k in st.users[i].joined {
        assert i in Without(st.channels[k], id).members;
      }
    }
  }

  lemma LeftUserOk(st: State, id: int, keys: set<string>)
    requires UsersOk(st) && id in st.users
    ensures UserOk(st.password, id, LeftFrom(st.users[id], keys))
    ensures UserFollows(st.users[id], LeftFrom(st.users[id], keys))
  {
  }

  lemma LeftUsers(st: State, id: int, keys: set<string>, after: State)
    requires UsersOk(st) && id in st.users
    requires after == WithUser(st, id, LeftFrom(st.users[id], keys)).(channels := after.channels)
    ensures UsersOk(after) && Follows(st, after)
  {
    hide UsersOk, UserOk, Follows, UserFollows;
    var v := LeftFrom(st.users[id], keys);
    LeftUserOk(st, id, keys);
    OneUserOk(st, id, v);
    OneUserFollows(st, id, v);
    RechannelledUsers(st, WithUser(st, id, v), after);
  }

  lemma NothingFollows(st: State)
    ensures Follows(st, st)
  {
  }

  lemma LeaveUsers(st: State, id: int, key: string)
    requires UsersOk(st) && id in st.users && key in st.channels
    ensures UsersOk(Leave(st, id, key)) && Follows(st, Leave(st, id, key))
  {
    hide UsersOk, Follows;
    if id in st.channels[key].members {
      LeftUsers(st, id, {Normalize(st.channels[key].name)}, Leave(st, id, key));
    } else {
      NothingFollows(st);
    }
  }

  /** Nobody outside a channel has a mark in it. */
  lemma MarksNeedMembership(st: State, id: int, key: string)
    requires UsersOk(st) && Linked(st) && id in st.users && key in st.users[id].marks
    ensures key in st.users[id].joined && key in st.channels && id in st.channels[key].members
  {
  }

  /** Fewer memberships: the remaining logs are as right as they were. */
  lemma LogsShrunk(a: State, b: State)
    requires Logged(a) && UsersOk(b) && Linked(b)
    requires OnlyFewer(a, b)
    ensures Logged(b)
  {
  }

  lemma LeaveKeeps(st: State, id: int, key: string)
    requires Inv(st) && id in st.users && key in st.channels
    ensures Inv(Leave(st, id, key)) && Follows(st, Leave(st, id, key))
  {
    hide UsersOk, Logged, ChansOk, Linked, Indexed, Polled, Follows, Leave;
    LeaveFrame(st, id, key);
    LeaveUsers(st, id, key);
    LeaveChans(st, id, key);
    LeaveLinks(st, id, key);
    LogsShrunk(st, Leave(st, id, key));
    AccountsKeepIndex(st, Leave(st, id, key));
  }

  // ------------------------------------------------------------------
  // Disconnecting
  // ------------------------------------------------------------------

  function MemberOf(st: State, id: int): set<string> {
    set key | key in st.channels && id in st.channels[key].members
  }

  /** Server::detachClientFromChannels: memberships and invitations, then emptied channels. */
  function Detach(st: State, id: int): State
    requires id in st.users
  {
    WithUser(st, id, LeftFrom(st.users[id], MemberOf(st, id)))
    .(channels := map key |
        key in st.channels && !(id in st.channels[key].members && Without(st.channels[key], id).members == {})
        :: Without(st.channels[key], id))
  }

  lemma DetachChans(st: State, id: int)
    requires ChansOk(st) && id in st.users
    ensures ChansOk(Detach(st, id))
    ensures forall key :: key in Detach(st, id).channels ==>
              id !in Detach(st, id).channels[key].members && id !in Detach(st, id).channels[key].invited
  {
  }

  lemma DetachLinks(st: State, id: int)
    requires Linked(st) && id in st.users
    ensures Linked(Detach(st, id))
    ensures Detach(st, id).users[id].joined == {}
  {
    var after := Detach(st, id);
    forall i, key | i in after.users
      ensures key in after.users[i].joined <==> key in after.channels && i in after.channels[key].members
    {
      assert key in st.users[i].joined <==> key in st.channels && i in st.channels[key].members;
      if i != id && key in st.users[i].joined {
        assert i in Without(st.channels[key], id).members;
      }
    }
  }

  lemma DetachUsers(st: State, id: int)
    requires UsersOk(st) && id in st.users
    ensures UsersOk(Detach(st, id)) && Follows(st, Detach(st, id))
  {
  }

  lemma DetachFrame(st: State, id: int)
    requires id in st.users
    ensures SameAccounts(st, Detach(st, id))
    ensures OnlyFewer(st, Detach(st, id))
  {
  }

  lemma DetachKeeps(st: State, id: int)
    requires Inv(st) && id in st.users
    ensures Inv(Detach(st, id)) && Follows(st, Detach(st, id))
    ensures Detach(st, id).users[id].joined == {}
    ensures forall key :: key in Detach(st, id).channels ==>
              id !in Detach(st, id).channels[key].members && id !in Detach(st, id).channels[key].invited
  {
    hide UsersOk, Logged, ChansOk, Linked, Indexed, Polled, Follows, Detach;
    DetachFrame(st, id);
    DetachUsers(st, id);
    DetachChans(st, id);
    DetachLinks(st, id);
    LogsShrunk(st, Detach(st, id));
    AccountsKeepIndex(st, Detach(st, id));
  }

  /** The descriptors without one of them. */
  function Drop(order: seq<int>, fd: int): seq<int> {
    if order == [] then []
    else if order[0] == fd then order[1..]
    else [order[0]] + Drop(order[1..], fd)
  }

  predicate Distinct(order: seq<int>) {
    forall i, j :: 0 <= i < j < |order| ==> order[i] != order[j]
  }

  lemma DistinctCons(x: int, rest: seq<int>)
    ensures Distinct([x] + rest) <==> x !in rest && Distinct(rest)
  {
    var all := [x] + rest;
    if Distinct(all) {
      forall i | 0 <= i < |rest|
        ensures rest[i] != x
      {
        assert all[0] == x && all[i + 1] == rest[i];
      }
      forall i, j | 0 <= i < j < |rest|
        ensures rest[i] != rest[j]
      {
        assert all[i + 1] == rest[i] && all[j + 1] == rest[j];
      }
    }
  }

  lemma {:induction false} DropRemoves(order: seq<int>, fd: int)
    requires Distinct(order)
    ensures Distinct(Drop(order, fd))
    ensures forall x :: x in Drop(order, fd) <==> x in order && x != fd
  {
    hide Distinct;
    if order == [] {
      assert Distinct([]) by { assert order == []; }
    } else {
      assert order == [order[0]] + order[1..];
      DistinctCons(order[0], order[1..]);
      if order[0] != fd {
        DropRemoves(order[1..], fd);
        DistinctCons(order[0], Drop(order[1..], fd));
      }
    }
  }

  /** Dropping the descriptor at an index is closing the gap there. */
  lemma {:induction false} DropAt(order: seq<int>, i: nat)
    requires i < |order| && Distinct(order)
    ensures Drop(order, order[i]) == order[..i] + order[i + 1..]
  {
    if i > 0 {
      assert order[0] != order[i];
      assert order[1..][i - 1] == order[i];
      assert Distinct(order[1..]);
      DropAt(order[1..], i - 1);
      assert order[1..][..i - 1] == order[1..i] && order[1..][i..] == order[i + 1..];
      assert [order[0]] + order[1..i] == order[..i];
    }
  }

  /** Out of the nickname index, the client map and poll. */
  function Forget(st: State, id: int): State
    requires id in st.users
  {
    var st1 := RemoveNickEntry(st, id);
    st1.(users := st1.users - {id}, order := Drop(st1.order, id))
  }

  lemma ForgetIndexes(st: State, id: int)
    requires Indexed(st) && id in st.users
    ensures Indexed(Forget(st, id))
  {
    var after := Forget(st, id);
    var key := Normalize(st.users[id].account.nick);
    forall n | n in after.nicks
      ensures Owns(after.users, after.nicks[n], n)
    {
      assert Owns(st.users, st.nicks[n], n);
    }
    forall other, n | Owns(after.users, other, n)
      ensures n in after.nicks && after.nicks[n] == other
    {
      assert Owns(st.users, other, n);
    }
  }

  lemma ForgetChans(st: State, id: int)
    requires ChansOk(st) && id in st.users
    requires forall key :: key in st.channels ==>
               id !in st.channels[key].members && id !in st.channels[key].invited
    ensures ChansOk(Forget(st, id))
  {
  }

  lemma ForgetPolled(st: State, id: int)
    requires Polled(st) && id in st.users
    ensures Polled(Forget(st, id))
  {
    DropRemoves(st.order, id);
  }

  lemma ForgetUsers(st: State, id: int)
    requires UsersOk(st) && Linked(st) && id in st.users
    ensures UsersOk(Forget(st, id)) && Linked(Forget(st, id))
  {
  }

  lemma ForgetKeeps(st: State, id: int)
    requires Inv(st) && id in st.users
    requires forall key :: key in st.channels ==>
               id !in st.channels[key].members && id !in st.channels[key].invited
    ensures Inv(Forget(st, id))
  {
    hide UsersOk, Logged, ChansOk, Linked, Indexed, Polled;
    ForgetIndexes(st, id);
    ForgetChans(st, id);
    ForgetPolled(st, id);
    ForgetUsers(st, id);
    LogsKept(st, Forget(st, id));
  }

  // ------------------------------------------------------------------
  // Accepting
  // ------------------------------------------------------------------

  /** Server::acceptClient once accept has returned a descriptor; the new object has its place in the walks. */
  function Accept(st: State, fd: int, host: string, walk: Walk): State {
    st.(users := st.users[fd := NewUser(host)], order := st.order + [fd], walk := walk)
  }

  lemma NewUserOk(password: string, fd: int, host: string)
    requires !Virtual(fd)
    ensures UserOk(password, fd, NewUser(host))
  {
  }

  lemma AcceptChans(st: State, fd: int, host: string, walk: Walk)
    requires ChansOk(st) && Linked(st) && fd !in st.users
    ensures ChansOk(Accept(st, fd, host, walk)) && Linked(Accept(st, fd, host, walk))
  {
  }

  lemma AcceptIndexes(st: State, fd: int, host: string, walk: Walk)
    requires Indexed(st) && Polled(st) && Logged(st) && !Virtual(fd) && fd !in st.users
    ensures Indexed(Accept(st, fd, host, walk)) && Polled(Accept(st, fd, host, walk))
            && Logged(Accept(st, fd, host, walk))
  {
    var after := Accept(st, fd, host, walk);
    forall id, n | Owns(after.users, id, n)
      ensures Owns(st.users, id, n)
    {
    }
    forall n | n in after.nicks
      ensures Owns(after.users, after.nicks[n], n)
    {
      assert Owns(st.users, st.nicks[n], n);
    }
  }

  lemma AcceptKeeps(st: State, fd: int, host: string, walk: Walk)
    requires Inv(st) && !Virtual(fd) && fd !in st.users
    ensures Inv(Accept(st, fd, host, walk))
  {
    hide Logged, ChansOk, Linked, Indexed, Polled, UserOk;
    NewUserOk(st.password, fd, host);
    AcceptChans(st, fd, host, walk);
    AcceptIndexes(st, fd, host, walk);
  }
}
