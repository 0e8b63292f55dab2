// Disconnecting many clients one after another, as the second loop of a round
// and the drain at shutdown do: what becomes of each of them can be computed
// before the first is touched (Server.cpp:1282-1304, 1689-1693).
module Forecast {
  import opened Results
  import opened IrcCasemap
  import opened Codec
  import opened CodecLaws
  import opened Walks
  import opened ServerState
  import opened Primitives
  import opened Membership
  import opened Commands
  import opened CommandLaws
  import opened DispatchLaws
  import opened Connection
  import opened ConnectionLaws
  import opened DisconnectLaws
  import opened RegistryLaws
  import opened EventLoop
  import opened RunLaws
  import opened Shutdown

  // ------------------------------------------------------------------
  // The forecast
  // ------------------------------------------------------------------

  /** The clients of the list, each of them once. */
  predicate Queue(st: State, fds: seq<int>) {
    Distinct(fds) && forall i :: 0 <= i < |fds| ==> fds[i] in st.users && !Virtual(fds[i])
  }

  predicate Share(st: State, a: int, b: int)
    requires a in st.users && b in st.users
  {
    a != b && st.users[a].joined * st.users[b].joined != {}
  }

  /** The bytes of the QUIT line that tells the others. */
  function QuitLength(u: User, why: string): nat {
    |PrefixOf(u.account)| + |why| + 10
  }

  /**
   * What the first `n` of them will have sent to this client when everyone's
   * turn has come, all of them (`drain`) or only those flagged by then.
   */
  function Load(st: State, fds: seq<int>, n: nat, id: int, drain: bool): nat
    requires Queue(st, fds) && n <= |fds| && id in st.users
    decreases n, 0
  {
    if n == 0 then 0
    else
      Load(st, fds, n - 1, id, drain) +
      if Share(st, fds[n - 1], id) && Goes(st, fds, n - 1, drain)
      then QuitLength(st.users[fds[n - 1]], Why(st, fds, n - 1, drain)) else 0
  }

  /** They will have been too much for its output buffer. */
  predicate Flooded(st: State, fds: seq<int>, n: nat, id: int, drain: bool)
    requires Queue(st, fds) && n <= |fds| && id in st.users
    decreases n, 1
  {
    !st.users[id].out.closing && |st.users[id].out.buffer| + Load(st, fds, n, id, drain) > MAX_OUTPUT_BUFFER
  }

  /** The i-th is disconnected when its turn comes. */
  predicate Goes(st: State, fds: seq<int>, i: nat, drain: bool)
    requires Queue(st, fds) && i < |fds|
    decreases i, 2
  {
    drain || st.users[fds[i]].out.closing || Flooded(st, fds, i, fds[i], drain)
  }

  /** The reason it will have then. */
  function Why(st: State, fds: seq<int>, i: nat, drain: bool): string
    requires Queue(st, fds) && i < |fds|
    decreases i, 2
  {
    if st.users[fds[i]].out.closing then st.users[fds[i]].out.reason
    else if Flooded(st, fds, i, fds[i], drain) then OVERFLOW_REASON
    else SHUTDOWN_REASON
  }

  /** Nobody has to be told, or the QUIT line prints. */
  predicate Tells(st: State, fds: seq<int>, i: nat, drain: bool)
    requires Queue(st, fds) && i < |fds|
  {
    var u := st.users[fds[i]];
    || u.joined == {}
    || (&& CleanPrefix(PrefixOf(u.account)) && LineSafe(Why(st, fds, i, drain))
        && QuitLength(u, Why(st, fds, i, drain)) <= MAX_MESSAGE_LENGTH)
  }

  // ------------------------------------------------------------------
  // The loops
  // ------------------------------------------------------------------

  /** One turn of the drain, or of the sweep. */
  function Turn(st: State, fd: int, drain: bool, shuttingDown: bool): Outcome {
    if drain then Disconnect(st, fd, SHUTDOWN_REASON, shuttingDown) else Sweep(st, fd, shuttingDown)
  }

  function Turns(st: State, fds: seq<int>, drain: bool, shuttingDown: bool): Outcome
    decreases |fds|
  {
    if fds == [] then Done(st)
    else
      var st1 :- Turn(st, fds[0], drain, shuttingDown);
      Turns(st1, fds[1..], drain, shuttingDown)
  }

  lemma {:induction false} TurnsSnoc(st: State, fds: seq<int>, fd: int, drain: bool, shuttingDown: bool)
    ensures var r := Turns(st, fds, drain, shuttingDown);
            Turns(st, fds + [fd], drain, shuttingDown) == if r.Threw? then r else Turn(r.st, fd, drain, shuttingDown)
    decreases |fds|
  {
    hide Turn;
    if fds == [] {
      assert [] + [fd] == [fd];
      assert [fd][1..] == [];
    } else {
      assert (fds + [fd])[0] == fds[0] && (fds + [fd])[1..] == fds[1..] + [fd];
      var r := Turn(st, fds[0], drain, shuttingDown);
      if r.Done? {
        TurnsSnoc(r.st, fds[1..], fd, drain, shuttingDown);
      }
    }
  }

  /** How the state after `n` turns was foreseen. */
  ghost predicate Foreseen(st: State, fds: seq<int>, n: nat, drain: bool, now: State)
    requires Queue(st, fds) && n <= |fds|
  {
    && (forall id :: id in now.users ==> id in st.users)
    && (forall i :: 0 <= i < |fds| ==> (fds[i] in now.users <==> (i < n ==> !Goes(st, fds, i, drain))))
    && (forall id :: id in st.users && !Virtual(id) && id !in fds ==> id in now.users)
    && (forall id :: id in now.users && !Virtual(id) ==> Expected(st, fds, n, drain, id, now.users[id]))
  }

  ghost predicate Expected(st: State, fds: seq<int>, n: nat, drain: bool, id: int, v: User)
    requires Queue(st, fds) && n <= |fds| && id in st.users
  {
    var u := st.users[id];
    && v.account == u.account && v.joined == u.joined
    && if u.out.closing then v.out == u.out
       else if Flooded(st, fds, n, id, drain) then v.out.closing && v.out.reason == OVERFLOW_REASON
       else !v.out.closing && |v.out.buffer| == |u.out.buffer| + Load(st, fds, n, id, drain)
  }

  // ------------------------------------------------------------------
  // One disconnection
  // ------------------------------------------------------------------

  /** A QUIT line reaches a client whole, or floods it. */
  lemma QuitOffered(id: int, o: Output, line: string)
    requires !Virtual(id) && 0 < |line| <= MAX_MESSAGE_LENGTH
    ensures var after := Offer(id, o, line, None);
            if o.closing then after == o
            else if |o.buffer| + |line| > MAX_OUTPUT_BUFFER then after.closing && after.reason == OVERFLOW_REASON
            else !after.closing && |after.buffer| == |o.buffer| + |line|
  {
  }

  lemma QuitLineLength(u: User, reason: string)
    requires Serialize(QuitMessage(u, reason)).Success?
    ensures |Serialize(QuitMessage(u, reason)).value| == QuitLength(u, FinalReason(u.out, reason))
  {
    assert PrefixOf(u.account) != "" by {
      assert '!' in PrefixOf(u.account);
    }
    hide LineSafe, ValidPrefix, PrefixOf, FinalReason;
  }

  /** What one disconnection does to everyone else. */
  ghost predicate Parted(a: State, b: State, fd: int, line: string)
    requires fd in a.users
  {
    && b.users.Keys == a.users.Keys - {fd}
    && forall id :: id in b.users && !Virtual(id) ==>
         b.users[id] == if Share(a, fd, id) then a.users[id].(out := Offer(id, a.users[id].out, line, None))
                        else a.users[id]
  }

  lemma FarewellTells(st: State, fd: int, reason: string)
    requires fd in st.users && st.users[fd].joined != {} && Serialize(QuitMessage(st.users[fd], reason)).Success?
    ensures var line, r := Serialize(QuitMessage(st.users[fd], reason)).value, Farewell(st, fd, reason);
            && r.Done? && r.st.users.Keys == st.users.Keys
            && forall id :: id in st.users && id != fd && !Virtual(id) ==>
                 r.st.users[id] == if Share(st, fd, id)
                                   then st.users[id].(out := Offer(id, st.users[id].out, line, None))
                                   else st.users[id]
  {
    hide Serialize, Offer, QuitMessage, Request, FinalReason;
  }

  lemma DisconnectParts(st: State, fd: int, reason: string, shuttingDown: bool)
    requires fd in st.users && !Virtual(fd)
    ensures var u, r := st.users[fd], Disconnect(st, fd, reason, shuttingDown);
            && (r.Done? <==> u.joined == {} || Serialize(QuitMessage(u, reason)).Success?)
            && (r.Done? ==>
                  if u.joined == {} then Parted(st, r.st, fd, "")
                  else Parted(st, r.st, fd, Serialize(QuitMessage(u, reason)).value))
  {
    hide Serialize, Offer, QuitMessage, Farewell, Disconnect;
    DisconnectCompletes(st, fd, reason, shuttingDown);
    DisconnectIs(st, fd, reason, shuttingDown);
    var bye := Farewell(st, fd, reason);
    if Disconnect(st, fd, reason, shuttingDown).Done? {
      ForgottenFrame(bye.st, fd);
      hide Forget, Detach;
      if st.users[fd].joined == {} {
        LonelyFarewell(st, fd, reason);
      } else {
        FarewellTells(st, fd, reason);
      }
    }
  }

  lemma LonelyFarewell(st: State, fd: int, reason: string)
    requires fd in st.users && st.users[fd].joined == {}
    ensures Farewell(st, fd, reason) == Done(WithRequest(st, fd, FinalReason(st.users[fd].out, reason)))
  {
    hide Request, FinalReason;
  }

  // ------------------------------------------------------------------
  // One turn
  // ------------------------------------------------------------------

  lemma StoredReasons(st: State, id: int)
    requires Sound(st) && id in st.users && st.users[id].out.closing
    ensures st.users[id].out.reason != ""
  {
  }

  /** At its turn a client is flagged as foreseen, and its reason is the one foreseen. */
  lemma AtItsTurn(st: State, fds: seq<int>, n: nat, drain: bool, now: State)
    requires Sound(st) && Queue(st, fds) && n < |fds| && Foreseen(st, fds, n, drain, now)
    ensures fds[n] in now.users
    ensures var u, v := st.users[fds[n]], now.users[fds[n]];
            && v.account == u.account && v.joined == u.joined
            && (drain || v.out.closing <==> Goes(st, fds, n, drain))
            && FinalReason(v.out, if drain then SHUTDOWN_REASON else v.out.reason) ==
                 (if Goes(st, fds, n, drain) then Why(st, fds, n, drain)
                  else FinalReason(v.out, v.out.reason))
  {
    hide Inv, AllMarked, Flooded, Load;
    if st.users[fds[n]].out.closing {
      StoredReasons(st, fds[n]);
    }
    assert Expected(st, fds, n, drain, fds[n], now.users[fds[n]]);
  }

  /** The farewell of the n-th is what the load of the others counts. */
  lemma LoadGrows(st: State, fds: seq<int>, n: nat, drain: bool, id: int, v: User, line: string)
    requires Queue(st, fds) && n < |fds| && id in st.users && !Virtual(id)
    requires Expected(st, fds, n, drain, id, v)
    requires Share(st, fds[n], id) && Goes(st, fds, n, drain)
    requires 0 < |line| <= MAX_MESSAGE_LENGTH && |line| == QuitLength(st.users[fds[n]], Why(st, fds, n, drain))
    ensures Expected(st, fds, n + 1, drain, id, v.(out := Offer(id, v.out, line, None)))
  {
    hide Offer, Goes, Why, QuitLength, Share;
    QuitOffered(id, v.out, line);
    assert Load(st, fds, n + 1, id, drain) == Load(st, fds, n, id, drain) + |line|;
  }

  lemma LoadStays(st: State, fds: seq<int>, n: nat, drain: bool, id: int, v: User)
    requires Queue(st, fds) && n < |fds| && id in st.users
    requires Expected(st, fds, n, drain, id, v)
    requires !Share(st, fds[n], id) || !Goes(st, fds, n, drain)
    ensures Expected(st, fds, n + 1, drain, id, v)
  {
    hide Goes, Why, QuitLength, Share;
    assert Load(st, fds, n + 1, id, drain) == Load(st, fds, n, id, drain);
  }

  lemma NobodyGoes(st: State, fds: seq<int>, n: nat, drain: bool, now: State)
    requires Queue(st, fds) && n < |fds| && Foreseen(st, fds, n, drain, now) && !Goes(st, fds, n, drain)
    ensures Foreseen(st, fds, n + 1, drain, now)
  {
    hide Expected, Goes;
    forall id | id in now.users && !Virtual(id)
      ensures Expected(st, fds, n + 1, drain, id, now.users[id])
    {
      LoadStays(st, fds, n, drain, id, now.users[id]);
    }
  }

  lemma SameShares(st: State, now: State, fd: int, id: int)
    requires fd in st.users && id in st.users && fd in now.users && id in now.users
    requires now.users[fd].joined == st.users[fd].joined && now.users[id].joined == st.users[id].joined
    ensures Share(now, fd, id) <==> Share(st, fd, id)
  {
  }

  lemma OneGoes(st: State, fds: seq<int>, n: nat, drain: bool, now: State, after: State, line: string)
    requires Queue(st, fds) && n < |fds| && Foreseen(st, fds, n, drain, now) && Goes(st, fds, n, drain)
    requires fds[n] in now.users && Parted(now, after, fds[n], line)
    requires now.users[fds[n]].joined == st.users[fds[n]].joined
    requires st.users[fds[n]].joined == {} ||
             (0 < |line| <= MAX_MESSAGE_LENGTH && |line| == QuitLength(st.users[fds[n]], Why(st, fds, n, drain)))
    ensures Foreseen(st, fds, n + 1, drain, after)
  {
    hide Goes, Why, QuitLength, Offer;
    var fd := fds[n];
    forall id | id in after.users && !Virtual(id)
      ensures Expected(st, fds, n + 1, drain, id, after.users[id])
    {
      assert Expected(st, fds, n, drain, id, now.users[id]);
      SameShares(st, now, fd, id);
      hide Expected;
      if Share(st, fd, id) {
        LoadGrows(st, fds, n, drain, id, now.users[id], line);
      } else {
        LoadStays(st, fds, n, drain, id, now.users[id]);
      }
    }
    hide Expected, Share;
  }

  /** Each turn takes the forecast one further, or ends the loop where it says. */
  lemma TurnForeseen(st: State, fds: seq<int>, n: nat, drain: bool, shuttingDown: bool, now: State)
    requires Sound(st) && Sound(now) && Queue(st, fds) && n < |fds| && Foreseen(st, fds, n, drain, now)
    ensures var r := Turn(now, fds[n], drain, shuttingDown);
            && (r.Done? <==> (Goes(st, fds, n, drain) ==> Tells(st, fds, n, drain)))
            && (r.Done? ==> Sound(r.st) && Foreseen(st, fds, n + 1, drain, r.st))
  {
    var fd := fds[n];
    assert !Virtual(fd);
    AtItsTurn(st, fds, n, drain, now);
    hide Sound, Foreseen, Goes, Why, Serialize, Disconnect, FinalReason, Parted, QuitMessage, Remain, PrefixOf,
      ValidPrefix, LineSafe;
    if Goes(st, fds, n, drain) {
      var v := now.users[fd];
      var reason := if drain then SHUTDOWN_REASON else v.out.reason;
      DisconnectParts(now, fd, reason, shuttingDown);
      DisconnectSound(now, fd, reason, shuttingDown);
      QuitLineFits(v, reason);
      PrefixNotEmpty(v.account);
      var r := Disconnect(now, fd, reason, shuttingDown);
      if r.Done? {
        if v.joined == {} {
          OneGoes(st, fds, n, drain, now, r.st, "");
        } else {
          QuitLineLength(v, reason);
          OneGoes(st, fds, n, drain, now, r.st, Serialize(QuitMessage(v, reason)).value);
        }
      }
    } else {
      NobodyGoes(st, fds, n, drain, now);
    }
  }

  lemma PrefixNotEmpty(a: Account)
    ensures PrefixOf(a) != ""
  {
    assert '!' in PrefixOf(a);
  }

  lemma NothingForeseen(st: State, fds: seq<int>, drain: bool)
    requires Sound(st) && Queue(st, fds)
    ensures Foreseen(st, fds, 0, drain, st)
  {
    forall id | id in st.users && !Virtual(id)
      ensures Expected(st, fds, 0, drain, id, st.users[id])
    {
      assert UserOk(st.password, id, st.users[id]);
    }
    hide Expected, Sound;
  }

  /** The loops end, and leave the clients, as was foreseen. */
  lemma {:induction false} TurnsForeseen(st: State, fds: seq<int>, n: nat, drain: bool, shuttingDown: bool)
    requires Sound(st) && Queue(st, fds) && n <= |fds|
    ensures var r := Turns(st, fds[..n], drain, shuttingDown);
            && (r.Done? <==> forall i :: 0 <= i < n && Goes(st, fds, i, drain) ==> Tells(st, fds, i, drain))
            && (r.Done? ==> Sound(r.st) && Foreseen(st, fds, n, drain, r.st))
  {
    hide Sound, Foreseen, Goes, Tells, Turn;
    if n == 0 {
      NothingForeseen(st, fds, drain);
    } else {
      TurnsForeseen(st, fds, n - 1, drain, shuttingDown);
      var r := Turns(st, fds[..n - 1], drain, shuttingDown);
      assert fds[..n] == fds[..n - 1] + [fds[n - 1]];
      TurnsSnoc(st, fds[..n - 1], fds[n - 1], drain, shuttingDown);
      hide Turns, Queue;
      if r.Done? {
        TurnForeseen(st, fds, n - 1, drain, shuttingDown, r.st);
      }
    }
  }

  // ------------------------------------------------------------------
  // The sweep
  // ------------------------------------------------------------------

  lemma {:induction false} SweepIsTurns(st: State, fds: seq<int>, shuttingDown: bool)
    ensures SweepAll(st, fds, shuttingDown) == Turns(st, fds, false, shuttingDown)
    decreases |fds|
  {
    hide Sweep;
    if fds != [] {
      var r := Sweep(st, fds[0], shuttingDown);
      if r.Done? {
        SweepIsTurns(r.st, fds[1..], shuttingDown);
      }
    }
  }

  /**
   * The second loop, foreseen: it completes exactly when each client that will
   * be flagged at its turn has a QUIT line that prints; then it leaves exactly
   * the others, and flagged among them are exactly those that the farewells of
   * the whole loop flood, though those before their turn did not.
   */
  lemma SweepForeseen(st: State, fds: seq<int>, shuttingDown: bool)
    requires Sound(st) && Queue(st, fds)
    ensures var r := SweepAll(st, fds, shuttingDown);
            && (r.Done? <==> forall i :: 0 <= i < |fds| && Goes(st, fds, i, false) ==> Tells(st, fds, i, false))
            && (r.Done? ==> forall i :: 0 <= i < |fds| ==>
                  && (fds[i] in r.st.users <==> !Goes(st, fds, i, false))
                  && (fds[i] in r.st.users ==>
                        (r.st.users[fds[i]].out.closing <==> Flooded(st, fds, |fds|, fds[i], false))))
  {
    hide Sound, Goes, Tells, Flooded, SweepAll, Turns;
    SweepIsTurns(st, fds, shuttingDown);
    assert fds[..|fds|] == fds;
    TurnsForeseen(st, fds, |fds|, false, shuttingDown);
    var r := SweepAll(st, fds, shuttingDown);
    if r.Done? {
      forall i | 0 <= i < |fds| && fds[i] in r.st.users
        ensures r.st.users[fds[i]].out.closing <==> Flooded(st, fds, |fds|, fds[i], false)
      {
        assert Expected(st, fds, |fds|, false, fds[i], r.st.users[fds[i]]);
        NotFlagged(st, fds, i);
      }
    }
  }

  lemma NotFlagged(st: State, fds: seq<int>, i: nat)
    requires Queue(st, fds) && i < |fds| && !Goes(st, fds, i, false)
    ensures !st.users[fds[i]].out.closing
  {
    hide Flooded;
  }

  /** A client is gone after the loop exactly when it was flagged at its turn. */
  lemma SweptExactly(st: State, fds: seq<int>, i: nat, shuttingDown: bool)
    requires Sound(st) && Queue(st, fds) && i < |fds| && SweepAll(st, fds, shuttingDown).Done?
    ensures var before := SweepAll(st, fds[..i], shuttingDown);
            && before.Done? && fds[i] in before.st.users
            && (fds[i] in SweepAll(st, fds, shuttingDown).st.users <==> !before.st.users[fds[i]].out.closing)
  {
    hide Sound, Tells, SweepAll, Turns, Foreseen, Goes;
    SweepForeseen(st, fds, shuttingDown);
    SweepIsTurns(st, fds[..i], shuttingDown);
    TurnsForeseen(st, fds, i, false, shuttingDown);
    AtItsTurn(st, fds, i, false, SweepAll(st, fds[..i], shuttingDown).st);
  }

  /** The QUIT lines that those flagged before the loop owe to this client. */
  function Owed(st: State, fds: seq<int>, n: nat, id: int): nat
    requires Queue(st, fds) && n <= |fds| && id in st.users
  {
    if n == 0 then 0
    else
      Owed(st, fds, n - 1, id) +
      if Share(st, fds[n - 1], id) && st.users[fds[n - 1]].out.closing
      then QuitLength(st.users[fds[n - 1]], st.users[fds[n - 1]].out.reason) else 0
  }

  /** Everyone not flagged has room for what the flagged ones owe it. */
  predicate Roomy(st: State, fds: seq<int>)
    requires Queue(st, fds)
  {
    forall i :: 0 <= i < |fds| && !st.users[fds[i]].out.closing ==>
      |st.users[fds[i]].out.buffer| + Owed(st, fds, |fds|, fds[i]) <= MAX_OUTPUT_BUFFER
  }

  lemma {:induction false} LoadOnlyAdds(st: State, fds: seq<int>, n: nat, id: int, drain: bool)
    requires Queue(st, fds) && n <= |fds| && id in st.users
    ensures Load(st, fds, n, id, drain) <= Load(st, fds, |fds|, id, drain)
    decreases |fds| - n
  {
    hide Goes, Why, Share, QuitLength;
    if n < |fds| {
      LoadOnlyAdds(st, fds, n + 1, id, drain);
      assert Load(st, fds, n, id, drain) <= Load(st, fds, n + 1, id, drain);
    }
  }

  lemma {:induction false} OwedOnlyAdds(st: State, fds: seq<int>, n: nat, id: int)
    requires Queue(st, fds) && n <= |fds| && id in st.users
    ensures Owed(st, fds, n, id) <= Owed(st, fds, |fds|, id)
    decreases |fds| - n
  {
    hide Share, QuitLength;
    if n < |fds| {
      OwedOnlyAdds(st, fds, n + 1, id);
    }
  }

  /** As long as only the flagged ones go, what is sent is what they owe. */
  lemma {:induction false} LoadIsOwed(st: State, fds: seq<int>, n: nat, id: int)
    requires Queue(st, fds) && n <= |fds| && id in st.users
    requires forall i :: 0 <= i < n ==> !Flooded(st, fds, i, fds[i], false)
    ensures Load(st, fds, n, id, false) == Owed(st, fds, n, id)
  {
    hide Flooded, Share, QuitLength;
    if n > 0 {
      LoadIsOwed(st, fds, n - 1, id);
    }
  }

  /** With room for what is owed nobody is flooded at its turn. */
  lemma {:induction false} RoomyKeepsDry(st: State, fds: seq<int>, n: nat)
    requires Queue(st, fds) && n <= |fds| && Roomy(st, fds)
    ensures forall i :: 0 <= i < n ==> !Flooded(st, fds, i, fds[i], false)
  {
    if n > 0 {
      RoomyKeepsDry(st, fds, n - 1);
      LoadIsOwed(st, fds, n - 1, fds[n - 1]);
      OwedOnlyAdds(st, fds, n - 1, fds[n - 1]);
      hide Load, Owed;
    }
  }

  lemma DryIsRoomy(st: State, fds: seq<int>)
    requires Queue(st, fds)
    requires forall i :: 0 <= i < |fds| ==> !Flooded(st, fds, |fds|, fds[i], false)
    ensures Roomy(st, fds)
  {
    hide Load, Owed;
    forall i | 0 <= i < |fds|
      ensures !Flooded(st, fds, i, fds[i], false)
    {
      LoadOnlyAdds(st, fds, i, fds[i], false);
    }
    forall i | 0 <= i < |fds| && !st.users[fds[i]].out.closing
      ensures |st.users[fds[i]].out.buffer| + Owed(st, fds, |fds|, fds[i]) <= MAX_OUTPUT_BUFFER
    {
      LoadIsOwed(st, fds, |fds|, fds[i]);
    }
  }

  /**
   * The loop removes the clients flagged before it, and leaves the others
   * unflagged, exactly when these have room for the QUIT lines of the flagged
   * clients that share a channel with them.
   */
  lemma SweepIsClean(st: State, fds: seq<int>, shuttingDown: bool)
    requires Sound(st) && Queue(st, fds) && SweepAll(st, fds, shuttingDown).Done?
    ensures var now := SweepAll(st, fds, shuttingDown).st;
            Roomy(st, fds) <==>
              forall i :: 0 <= i < |fds| ==>
                (fds[i] in now.users <==> !st.users[fds[i]].out.closing)
                && (fds[i] in now.users ==> !now.users[fds[i]].out.closing)
  {
    hide Sound, Tells, SweepAll, Roomy, Load;
    SweepForeseen(st, fds, shuttingDown);
    var now := SweepAll(st, fds, shuttingDown).st;
    if Roomy(st, fds) {
      RoomyKeepsDry(st, fds, |fds|);
      forall i | 0 <= i < |fds|
        ensures !Flooded(st, fds, |fds|, fds[i], false)
      {
        RoomyAtTheEnd(st, fds, i);
      }
    } else if forall i :: 0 <= i < |fds| ==>
                (fds[i] in now.users <==> !st.users[fds[i]].out.closing)
                && (fds[i] in now.users ==> !now.users[fds[i]].out.closing) {
      DryIsRoomy(st, fds);
    }
  }

  lemma RoomyAtTheEnd(st: State, fds: seq<int>, i: nat)
    requires Queue(st, fds) && Roomy(st, fds) && i < |fds|
    requires forall j :: 0 <= j < |fds| ==> !Flooded(st, fds, j, fds[j], false)
    ensures !Flooded(st, fds, |fds|, fds[i], false)
  {
    hide Load, Owed;
    LoadIsOwed(st, fds, |fds|, fds[i]);
  }

  // ------------------------------------------------------------------
  // The drain
  // ------------------------------------------------------------------

  lemma TurnsStep(st: State, fds: seq<int>, fd: int, shuttingDown: bool)
    requires fds != [] && fds[0] == fd
    ensures var r := Disconnect(st, fd, SHUTDOWN_REASON, shuttingDown);
            Turns(st, fds, true, shuttingDown) == if r.Threw? then r else Turns(r.st, fds[1..], true, shuttingDown)
  {
    hide Disconnect;
  }

  lemma DrainStep(st: State, shuttingDown: bool)
    requires Clients(st) != {}
    ensures var r := Disconnect(st, FirstClient(st), SHUTDOWN_REASON, shuttingDown);
            CloseClients(st, shuttingDown) ==
              if r.Threw? then r
              else if |Clients(r.st)| < |Clients(st)| then CloseClients(r.st, shuttingDown) else Done(r.st)
  {
    hide Disconnect, Clients, First;
  }

  lemma NoClients(st: State, shuttingDown: bool)
    requires Clients(st) == {}
    ensures CloseClients(st, shuttingDown) == Turns(st, Ascending(Clients(st)), true, shuttingDown)
  {
  }

  /** One client fewer, and the rest of the queue. */
  lemma DrainShrinks(st: State, shuttingDown: bool)
    requires Sound(st) && Clients(st) != {}
    ensures Ascending(Clients(st)) != [] && Ascending(Clients(st))[0] == FirstClient(st)
    ensures var r := Disconnect(st, FirstClient(st), SHUTDOWN_REASON, shuttingDown);
            r.Done? ==>
              && Sound(r.st) && |Clients(r.st)| < |Clients(st)|
              && Ascending(Clients(st))[1..] == Ascending(Clients(r.st))
  {
    hide Inv, AllMarked, Sound, Disconnect, Remain, First;
    SoundInv(st);
    var fd := FirstClient(st);
    ClientsAreReal(st, fd);
    DisconnectSound(st, fd, SHUTDOWN_REASON, shuttingDown);
    var r := Disconnect(st, fd, SHUTDOWN_REASON, shuttingDown);
    assert Ascending(Clients(st)) == [fd] + Ascending(Clients(st) - {fd});
    if r.Done? {
      FewerClients(st, r.st, fd);
      assert Clients(r.st) == Clients(st) - {fd};
    }
  }

  lemma {:induction false} DrainIsTurns(st: State, shuttingDown: bool)
    requires Sound(st)
    ensures CloseClients(st, shuttingDown) == Turns(st, Ascending(Clients(st)), true, shuttingDown)
    decreases |Clients(st)|
  {
    hide Sound, Disconnect, CloseClients, Turns, Clients, Ascending, FirstClient;
    if Clients(st) == {} {
      NoClients(st, shuttingDown);
    } else {
      var fd := FirstClient(st);
      DrainShrinks(st, shuttingDown);
      DrainStep(st, shuttingDown);
      TurnsStep(st, Ascending(Clients(st)), fd, shuttingDown);
      var r := Disconnect(st, fd, SHUTDOWN_REASON, shuttingDown);
      if r.Done? {
        DrainIsTurns(r.st, shuttingDown);
      }
    }
  }

  lemma ClientsQueue(st: State)
    requires Sound(st)
    ensures Queue(st, Ascending(Clients(st)))
  {
    var fds := Ascending(Clients(st));
    AscendingEnumerates(Clients(st));
    forall i | 0 <= i < |fds|
      ensures fds[i] in st.users && !Virtual(fds[i])
    {
      assert fds[i] in fds;
      ClientsAreReal(st, fds[i]);
    }
  }

  /**
   * Shutting down completes exactly when, at the turn that each client has in
   * the order of descriptors, its QUIT line prints with the reason foreseen: its
   * own, the overflow that the lines before it cause, or the shutdown.
   */
  lemma CloseClientsExactly(st: State, shuttingDown: bool)
    requires Sound(st)
    ensures Queue(st, Ascending(Clients(st)))
    ensures var fds := Ascending(Clients(st));
            CloseClients(st, shuttingDown).Done? <==> forall i :: 0 <= i < |fds| ==> Tells(st, fds, i, true)
  {
    var fds := Ascending(Clients(st));
    hide Sound, Tells, Turns, Foreseen, CloseClients, Ascending, Clients, Goes, Queue;
    ClientsQueue(st);
    DrainIsTurns(st, shuttingDown);
    assert fds[..|fds|] == fds;
    TurnsForeseen(st, fds, |fds|, true, shuttingDown);
    EveryoneGoes(st, fds);
  }

  lemma EveryoneGoes(st: State, fds: seq<int>)
    requires Queue(st, fds)
    ensures forall i :: 0 <= i < |fds| ==> Goes(st, fds, i, true)
  {
    hide Flooded;
  }
}
