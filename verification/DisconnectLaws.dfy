// Disconnecting a client: when it completes, what it removes and what it leaves
// alone (Server::disconnectClient, Server.cpp:1043-1121).
module DisconnectLaws {
  import opened Results
  import opened IrcCasemap
  import opened Codec
  import opened ServerState
  import opened Primitives
  import opened Membership
  import opened Commands
  import opened CommandLaws
  import opened DispatchLaws
  import opened Connection
  import opened ConnectionLaws

  /** The clients that stay are the same connections, further on; nothing was read from them. */
  ghost predicate Remain(a: State, b: State) {
    && b.password == a.password
    && b.users.Keys <= a.users.Keys
    && forall id :: id in b.users ==>
         Grows(a.users[id], b.users[id]) && SameInput(a.users[id], b.users[id])
  }

  lemma FarewellKeeps(st: State, fd: int, reason: string)
    requires Inv(st) && fd in st.users
    ensures Keeps(st, Farewell(st, fd, reason).st, BOT) && Inv(Farewell(st, fd, reason).st)
  {
    hide Inv, Say, Request, PrefixOf, Related, Follows, MarksKept, FinalReason;
    var u := st.users[fd];
    var why := FinalReason(u.out, reason);
    var st1 := WithRequest(st, fd, why);
    RequestSteady(st, fd, why);
    SayAfter(st, st1, {fd} + Related(st1, fd), QuitMessage(u, reason), BOT);
  }

  lemma DetachedForgotten(st: State, fd: int)
    requires Inv(st) && fd in st.users
    ensures Inv(Forget(Detach(st, fd), fd))
  {
    hide Inv, Detach, Forget, Follows;
    DetachKeeps(st, fd);
    DetachUsersSame(st, fd);
    ForgetKeeps(Detach(st, fd), fd);
  }

  lemma DetachUsersSame(st: State, fd: int)
    requires fd in st.users
    ensures var after := Detach(st, fd);
            && after.users.Keys == st.users.Keys && after.nicks == st.nicks
            && after.order == st.order && after.password == st.password
            && forall id :: id in st.users && id != fd ==> after.users[id] == st.users[id]
  {
  }

  /** Who is left, and with what. */
  lemma ForgottenFrame(st: State, fd: int)
    requires fd in st.users
    ensures var after := Forget(Detach(st, fd), fd);
            && after.users.Keys == st.users.Keys - {fd}
            && after.password == st.password
            && forall id :: id in after.users ==> after.users[id] == st.users[id]
  {
  }

  lemma AcceptingAside(st: State, accepting: bool)
    requires Inv(st)
    ensures Inv(st.(accepting := accepting))
  {
    var after := st.(accepting := accepting);
    assert UsersOk(after) && ChansOk(after) && Linked(after);
    assert Indexed(after) && Polled(after);
    assert Logged(after) by {
      hide Logged;
      LogsKept(st, after);
    }
  }

  /** The state after a farewell, with the client gone. */
  function Removed(st: State, fd: int, shuttingDown: bool): State
    requires fd in st.users
  {
    var after := Forget(Detach(st, fd), fd);
    if shuttingDown then after else after.(accepting := true)
  }

  lemma RemovedKeeps(st: State, fd: int, shuttingDown: bool)
    requires Sound(st) && fd in st.users
    ensures var after := Removed(st, fd, shuttingDown);
            && Sound(after) && Remain(st, after) && after.users.Keys == st.users.Keys - {fd}
  {
    hide Inv, Detach, Forget;
    DetachedForgotten(st, fd);
    ForgottenFrame(st, fd);
    DetachUsersSame(st, fd);
    AcceptingAside(Forget(Detach(st, fd), fd), true);
  }

  lemma DisconnectIs(st: State, fd: int, reason: string, shuttingDown: bool)
    requires fd in st.users && !Virtual(fd)
    ensures var bye := Farewell(st, fd, reason);
            Disconnect(st, fd, reason, shuttingDown) ==
              if bye.Done? then Done(Removed(bye.st, fd, shuttingDown)) else bye
  {
  }

  /** Completed or not, what remains is sound; completed, exactly that client is gone. */
  lemma DisconnectSound(st: State, fd: int, reason: string, shuttingDown: bool)
    requires Sound(st)
    ensures var r := Disconnect(st, fd, reason, shuttingDown);
            && Sound(r.st) && Remain(st, r.st)
            && (r.Done? && !Virtual(fd) ==> r.st.users.Keys == st.users.Keys - {fd})
  {
    if fd in st.users && !Virtual(fd) {
      hide Sound, Keeps, Farewell, Removed, Disconnect, Grows, Follows, Inv, AllMarked;
      var bye := Farewell(st, fd, reason);
      DisconnectIs(st, fd, reason, shuttingDown);
      FarewellSound(st, fd, reason);
      if bye.Done? {
        RemovedKeeps(bye.st, fd, shuttingDown);
        RemainTrans(st, bye.st, Removed(bye.st, fd, shuttingDown));
      }
    } else {
      RemainSelf(st);
    }
  }

  lemma FarewellSound(st: State, fd: int, reason: string)
    requires Sound(st) && fd in st.users
    ensures var r := Farewell(st, fd, reason);
            Sound(r.st) && Remain(st, r.st) && r.st.users.Keys == st.users.Keys
  {
    hide Inv, Farewell, Keeps, Grows;
    FarewellKeeps(st, fd, reason);
    KeepsSound(st, Farewell(st, fd, reason).st, fd);
  }

  lemma RemainSelf(st: State)
    ensures Remain(st, st)
  {
  }

  lemma RemainTrans(a: State, b: State, c: State)
    requires Remain(a, b) && Remain(b, c)
    ensures Remain(a, c)
  {
  }

  // ------------------------------------------------------------------
  // The nickname it frees
  // ------------------------------------------------------------------

  lemma SayRegistry(st: State, to: set<int>, m: IrcMessage)
    ensures SameRegistry(st, Say(st, to, m).st)
    ensures forall id :: id in st.users ==>
              && Say(st, to, m).st.users[id].account == st.users[id].account
              && Say(st, to, m).st.users[id].joined == st.users[id].joined
  {
    hide Serialize, Offer;
  }

  lemma FarewellRegistry(st: State, fd: int, reason: string)
    requires fd in st.users
    ensures SameRegistry(st, Farewell(st, fd, reason).st)
    ensures forall id :: id in st.users ==>
              && Farewell(st, fd, reason).st.users[id].account == st.users[id].account
              && Farewell(st, fd, reason).st.users[id].joined == st.users[id].joined
  {
    hide Say, Request, QuitMessage, Related, FinalReason;
    var u := st.users[fd];
    var st1 := WithRequest(st, fd, FinalReason(u.out, reason));
    SayRegistry(st1, {fd} + Related(st1, fd), QuitMessage(u, reason));
  }

  lemma ForgetNicks(st: State, fd: int)
    requires Indexed(st) && fd in st.users
    ensures forall n :: n in Forget(st, fd).nicks <==> n in st.nicks && st.nicks[n] != fd
    ensures forall n :: n in Forget(st, fd).nicks ==> Forget(st, fd).nicks[n] == st.nicks[n]
  {
  }

  /** A disconnection frees precisely the entry of its own client. */
  lemma DisconnectFreesOwnNick(st: State, fd: int, reason: string, shuttingDown: bool)
    requires Inv(st) && fd in st.users && !Virtual(fd)
    requires Disconnect(st, fd, reason, shuttingDown).Done?
    ensures var after := Disconnect(st, fd, reason, shuttingDown).st;
            forall n :: (n in after.nicks <==> n in st.nicks && st.nicks[n] != fd)
                        && (n in after.nicks ==> after.nicks[n] == st.nicks[n])
  {
    hide Inv, Farewell, Detach, Forget, Disconnect, Follows, Keeps;
    var bye := Farewell(st, fd, reason);
    DisconnectIs(st, fd, reason, shuttingDown);
    FarewellKeeps(st, fd, reason);
    FarewellRegistry(st, fd, reason);
    DetachKeeps(bye.st, fd);
    DetachUsersSame(bye.st, fd);
    InvIndexed(Detach(bye.st, fd));
    ForgetNicks(Detach(bye.st, fd), fd);
  }

  /** The client leaves every channel; one in which it was alone disappears, and nothing else about them changes. */
  lemma DisconnectChannels(st: State, fd: int, reason: string, shuttingDown: bool)
    requires fd in st.users && !Virtual(fd) && Disconnect(st, fd, reason, shuttingDown).Done?
    ensures var after := Disconnect(st, fd, reason, shuttingDown).st;
            forall key ::
              && (key in after.channels <==> key in st.channels && st.channels[key].members != {fd})
              && (key in after.channels ==> after.channels[key] == Without(st.channels[key], fd))
  {
    hide Farewell, Disconnect;
    var bye := Farewell(st, fd, reason);
    DisconnectIs(st, fd, reason, shuttingDown);
    FarewellRegistry(st, fd, reason);
    DetachedChannels(bye.st, fd);
    hide Detach;
    ForgetChannels(Detach(bye.st, fd), fd);
  }

  lemma DetachedChannels(st: State, fd: int)
    requires fd in st.users
    ensures var after := Detach(st, fd);
            && fd in after.users
            && forall key ::
                 && (key in after.channels <==> key in st.channels && st.channels[key].members != {fd})
                 && (key in after.channels ==> after.channels[key] == Without(st.channels[key], fd))
  {
    forall key | key in st.channels
      ensures st.channels[key].members == {fd} <==>
                fd in st.channels[key].members && Without(st.channels[key], fd).members == {}
    {
      var members := st.channels[key].members;
      if fd in members && members - {fd} == {} {
        assert members == {fd};
      }
    }
  }

  lemma ForgetChannels(st: State, fd: int)
    requires fd in st.users
    ensures Forget(st, fd).channels == st.channels
  {
  }

  lemma InvIndexed(st: State)
    requires Inv(st)
    ensures Indexed(st)
  {
  }

  /**
   * disconnectClient completes exactly when the descriptor is not a client's,
   * the client is in no channel, or its QUIT line can be serialized. Otherwise
   * the exception leaves it in place, flagged.
   */
  lemma DisconnectCompletes(st: State, fd: int, reason: string, shuttingDown: bool)
    ensures var r := Disconnect(st, fd, reason, shuttingDown);
            && (r.Done? <==>
                  || fd !in st.users || Virtual(fd) || st.users[fd].joined == {}
                  || Serialize(QuitMessage(st.users[fd], reason)).Success?)
            && (r.Threw? ==> fd in r.st.users && r.st.users[fd].out.closing)
  {
  }

  /** What the QUIT line needs: a clean prefix and reason that leave room for 10 more bytes. */
  lemma QuitLineFits(u: User, reason: string)
    ensures var prefix, why := PrefixOf(u.account), FinalReason(u.out, reason);
            Serialize(QuitMessage(u, reason)).Success? <==>
              ValidPrefix(prefix) && LineSafe(why) && |prefix| + |why| + 10 <= MAX_MESSAGE_LENGTH
  {
  }
}
