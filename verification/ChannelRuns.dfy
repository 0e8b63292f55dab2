// What a channel keeps along a run in which none of its operators says anything:
// authorisation, from one line to any number of events.
module ChannelRuns {
  import opened Results
  import opened IrcCasemap
  import opened Codec
  import opened Framing
  import opened Walks
  import opened ServerState
  import opened Primitives
  import opened Membership
  import opened Commands
  import opened CommandLaws
  import opened DispatchLaws
  import opened Authorisation
  import opened Connection
  import opened ConnectionLaws
  import opened DisconnectLaws
  import opened EventLoop
  import opened RunLaws

  // ------------------------------------------------------------------
  // One client at a time
  // ------------------------------------------------------------------

  /** Settings stay, and so do all but this client; the topic does where only operators may change it. */
  ghost predicate Guarded(a: Chan, b: Chan, id: int) {
    && b.name == a.name && b.flags == a.flags
    && b.operators <= a.operators && a.operators - b.operators <= {id}
    && b.members - {id} == a.members - {id}
    && b.invited <= a.invited && a.invited - b.invited <= {id}
    && (b.topic == a.topic || !a.flags.topicRestricted)
    && a.history <= b.history
  }

  /** Somebody else is in the channel, so it will not vanish under this client. */
  ghost predicate Held(st: State, id: int, key: string) {
    key in st.channels && st.channels[key].members - {id} != {}
  }

  /** And this client is no operator of it. */
  ghost predicate Foreign(st: State, id: int, key: string) {
    Held(st, id, key) && id !in st.channels[key].operators
  }

  ghost predicate Guards(a: State, b: State, id: int, key: string) {
    key in a.channels && key in b.channels && Guarded(a.channels[key], b.channels[key], id)
  }

  lemma GuardsTrans(a: State, b: State, c: State, id: int, key: string)
    requires Guards(a, b, id, key) && Guards(b, c, id, key)
    ensures Guards(a, c, id, key)
  {
  }

  lemma GuardsSame(a: State, b: State, id: int, key: string)
    requires Held(a, id, key) && b.channels == a.channels
    ensures Guards(a, b, id, key)
  {
  }

  lemma ForeignSame(a: State, b: State, id: int, key: string)
    requires Foreign(a, id, key) && b.channels == a.channels
    ensures Guards(a, b, id, key) && Foreign(b, id, key)
  {
  }

  lemma SparedGuards(a: State, b: State, id: int, key: string)
    requires Foreign(a, id, key) && Spared(a, b, id, key)
    ensures Guards(a, b, id, key) && Foreign(b, id, key)
  {
    assert a.channels[key].members != {id} by {
      assert {id} - {id} == {};
    }
  }

  lemma ServeTakenGuards(st: State, fd: int, line: string, rest: string, oracle: Oracle, key: string)
    requires Sound(st) && fd in st.users && !Virtual(fd) && Foreign(st, fd, key)
    ensures var r := ServeTaken(st, fd, line, rest, oracle);
            Guards(st, r, fd, key) && Foreign(r, fd, key)
  {
    hide Inv, AllMarked, Sound, Evolves, ServeLine, Guards, Spared;
    var u := st.users[fd];
    var st1 := TakeLine(st, fd, line, rest);
    InputKeeps(st, fd, rest, u.received, if line == "" then u.lines else u.lines + [line]);
    hide Foreign;
    ForeignSame(st, st1, fd, key);
    if line != "" {
      SoundInv(st1);
      ForeignIn(st1, fd, key);
      LinesAreHarmless(st1, fd, line, oracle(|u.lines|), key);
      SparedGuards(st1, ServeLine(st1, fd, line, oracle(|u.lines|)), fd, key);
      GuardsTrans(st, st1, ServeLine(st1, fd, line, oracle(|u.lines|)), fd, key);
    }
  }

  lemma ForeignIn(st: State, id: int, key: string)
    requires Foreign(st, id, key)
    ensures key in st.channels && id !in st.channels[key].operators
  {
  }

  lemma ProcessLastChannels(st: State, fd: int, oracle: Oracle)
    requires fd in st.users && (st.users[fd].out.closing || !ExtractNext(st.users[fd].inBuffer).Complete?)
    ensures ProcessBuffer(st, fd, oracle).st.channels == st.channels
  {
    hide ExtractNext, Request;
  }

  /** However many lines the buffer holds. */
  lemma {:induction false} ProcessGuards(st: State, fd: int, oracle: Oracle, key: string)
    requires Sound(st) && fd in st.users && !Virtual(fd) && Foreign(st, fd, key)
    ensures var r := ProcessBuffer(st, fd, oracle);
            Guards(st, r.st, fd, key) && Foreign(r.st, fd, key)
    decreases |st.users[fd].inBuffer|
  {
    hide Inv, Sound, Evolves, ServeTaken, ExtractNext, ProcessBuffer, Guards, Foreign;
    var u := st.users[fd];
    if u.out.closing || !ExtractNext(u.inBuffer).Complete? {
      ProcessLastChannels(st, fd, oracle);
      ForeignSame(st, ProcessBuffer(st, fd, oracle).st, fd, key);
    } else {
      var taken := ExtractNext(u.inBuffer);
      var st1 := ServeTaken(st, fd, taken.line, taken.rest, oracle);
      ExtractShrinks(u.inBuffer);
      ServeTakenSound(st, fd, taken.line, taken.rest, oracle);
      ServeTakenGuards(st, fd, taken.line, taken.rest, oracle, key);
      ProcessStep(st, fd, oracle);
      ProcessGuards(st1, fd, oracle, key);
      GuardsTrans(st, st1, ProcessBuffer(st1, fd, oracle).st, fd, key);
    }
  }

  lemma ReceiveGuards(st: State, fd: int, recv: RecvResult, oracle: Oracle, key: string)
    requires Sound(st) && fd in st.users && !Virtual(fd) && Foreign(st, fd, key)
    ensures var r := ReceiveData(st, fd, recv, oracle);
            Guards(st, r.st, fd, key) && Foreign(r.st, fd, key)
  {
    hide Inv, Sound, Evolves, ProcessBuffer, Guards, Foreign, Request;
    var r := ReceiveData(st, fd, recv, oracle);
    var u := st.users[fd];
    if recv.Bytes? && |u.inBuffer| + |recv.chunk| <= MAX_INPUT_BUFFER {
      var st1 := WithInput(st, fd, u.inBuffer + recv.chunk, u.received + recv.chunk, u.lines);
      InputKeeps(st, fd, u.inBuffer + recv.chunk, u.received + recv.chunk, u.lines);
      ForeignSame(st, st1, fd, key);
      ProcessGuards(st1, fd, oracle, key);
      GuardsTrans(st, st1, r.st, fd, key);
    } else {
      ForeignSame(st, r.st, fd, key);
    }
  }

  lemma FlushChannels(st: State, fd: int, send: SendResult)
    requires fd in st.users
    ensures Flush(st, fd, send).st.channels == st.channels
  {
    hide Request;
  }

  lemma AttendGuards(st: State, fd: int, io: Io, key: string)
    requires Sound(st) && fd in st.users && !Virtual(fd) && Foreign(st, fd, key)
    ensures var r := Attend(st, fd, io);
            Guards(st, r.st, fd, key) && Foreign(r.st, fd, key)
  {
    hide Sound, ReceiveData, Flush, Guards, Foreign;
    ReceiveGuards(st, fd, io.recv, io.oracle, key);
    ForeignSame(st, st, fd, key);
    var read := if io.revents.input then ReceiveData(st, fd, io.recv, io.oracle) else Served(st, true);
    FlushChannels(read.st, fd, io.send);
    ForeignSame(read.st, Flush(read.st, fd, io.send).st, fd, key);
    GuardsTrans(st, read.st, Flush(read.st, fd, io.send).st, fd, key);
  }

  /** A disconnection takes its client out, operator or not, and nothing else. */
  lemma DisconnectGuards(st: State, fd: int, reason: string, shuttingDown: bool, key: string)
    requires Held(st, fd, key)
    ensures Guards(st, Disconnect(st, fd, reason, shuttingDown).st, fd, key)
  {
    hide Disconnect, Farewell, Guards, Held;
    var r := Disconnect(st, fd, reason, shuttingDown);
    if fd in st.users && !Virtual(fd) {
      DisconnectIs(st, fd, reason, shuttingDown);
      FarewellRegistry(st, fd, reason);
      if r.Done? {
        DisconnectChannels(st, fd, reason, shuttingDown);
        HeldMembers(st, fd, key);
        WithoutGuards(st, r.st, fd, key);
      } else {
        GuardsSame(st, r.st, fd, key);
      }
    } else {
      NotDisconnected(st, fd, reason, shuttingDown);
      GuardsSame(st, st, fd, key);
    }
  }

  lemma NotDisconnected(st: State, fd: int, reason: string, shuttingDown: bool)
    requires fd !in st.users || Virtual(fd)
    ensures Disconnect(st, fd, reason, shuttingDown) == Done(st)
  {
  }

  lemma HeldMembers(st: State, fd: int, key: string)
    requires Held(st, fd, key)
    ensures key in st.channels && st.channels[key].members != {fd}
  {
    assert {fd} - {fd} == {};
  }

  lemma WithoutGuards(a: State, b: State, fd: int, key: string)
    requires key in a.channels && key in b.channels && b.channels[key] == Without(a.channels[key], fd)
    ensures Guards(a, b, fd, key)
  {
  }

  // ------------------------------------------------------------------
  // One event
  // ------------------------------------------------------------------

  lemma VisitGuards(st: State, fd: int, io: Io, shuttingDown: bool, key: string)
    requires Sound(st) && Foreign(st, fd, key)
    ensures Guards(st, Visit(st, fd, io, shuttingDown).st, fd, key)
  {
    hide Sound, Attend, Disconnect, Guards;
    ForeignSame(st, st, fd, key);
    hide Foreign, Held;
    ForeignIsHeld(st, fd, key);
    if fd in st.users && !Virtual(fd) {
      DisconnectGuards(st, fd, "Invalid socket descriptor", shuttingDown, key);
      AttendGuards(st, fd, io, key);
      var r := Attend(st, fd, io);
      var reason := AttendReason(st, fd, io);
      ForeignIsHeld(r.st, fd, key);
      DisconnectGuards(r.st, fd, reason, shuttingDown, key);
      GuardsTrans(st, r.st, Disconnect(r.st, fd, reason, shuttingDown).st, fd, key);
    }
  }

  lemma ForeignIsHeld(st: State, fd: int, key: string)
    requires Foreign(st, fd, key)
    ensures Held(st, fd, key)
  {
  }

  lemma SweepGuards(st: State, fd: int, shuttingDown: bool, key: string)
    requires Held(st, fd, key)
    ensures Guards(st, Sweep(st, fd, shuttingDown).st, fd, key)
  {
    hide Disconnect, Guards, Held;
    GuardsSame(st, st, fd, key);
    if fd in st.users {
      DisconnectGuards(st, fd, st.users[fd].out.reason, shuttingDown, key);
    }
  }

  /** No operator of the channel speaks, and nobody who is alone in it is served. */
  ghost predicate Undisturbed(st: State, e: Event, key: string) {
    match e
    case Visited(fd, _, _) => Foreign(st, fd, key)
    case Swept(fd, _) => Held(st, fd, key)
    case _ => key in st.channels
  }

  /** What stays whoever leaves: the operators are some of those there were. */
  ghost predicate Kept(a: Chan, b: Chan) {
    && b.name == a.name && b.flags == a.flags && b.operators <= a.operators && b.invited <= a.invited
    && (b.topic == a.topic || !a.flags.topicRestricted)
    && a.history <= b.history
  }

  lemma KeptTrans(a: Chan, b: Chan, c: Chan)
    requires Kept(a, b) && Kept(b, c)
    ensures Kept(a, c)
  {
  }

  lemma GuardsKeep(a: State, b: State, id: int, key: string)
    requires Guards(a, b, id, key)
    ensures key in a.channels && key in b.channels && Kept(a.channels[key], b.channels[key])
  {
  }

  lemma StepKeeps(st: State, e: Event, key: string)
    requires Healthy(st) && Undisturbed(st, e, key)
    ensures var s := Step(st, e).st;
            key in st.channels && key in s.channels && Kept(st.channels[key], s.channels[key])
  {
    hide Sound, AllFramed, Visit, Sweep, Guards, Foreign, Held;
    match e
    case Visited(fd, io, shuttingDown) =>
      VisitGuards(st, fd, io, shuttingDown, key);
      GuardsKeep(st, Step(st, e).st, fd, key);
    case Swept(fd, shuttingDown) =>
      SweepGuards(st, fd, shuttingDown, key);
      GuardsKeep(st, Step(st, e).st, fd, key);
    case _ =>
  }

  // ------------------------------------------------------------------
  // Any stretch of a run
  // ------------------------------------------------------------------

  /**
   * Through any number of events in which no operator of a channel is served, and
   * nobody who is alone in it, the channel stays, with its settings, under +t its
   * topic, its history, and no operator that it did not have.
   */
  lemma {:induction false} ChannelsOutlastStrangers(st: State, events: seq<Event>, key: string, i: nat, j: nat)
    requires Healthy(st) && i <= j < |Trace(st, events)| && key in Trace(st, events)[i].channels
    requires forall k :: i <= k < j ==> Undisturbed(Trace(st, events)[k], events[k], key)
    ensures key in Trace(st, events)[j].channels
    ensures Kept(Trace(st, events)[i].channels[key], Trace(st, events)[j].channels[key])
    decreases j - i
  {
    hide Healthy, Step, Trace, Kept, Undisturbed;
    var states := Trace(st, events);
    if i == j {
      KeptSelf(states[i].channels[key]);
    } else {
      TraceHealthy(st, events, i);
      TraceSteps(st, events, i);
      assert Undisturbed(states[i], events[i], key);
      StepKeeps(states[i], events[i], key);
      ChannelsOutlastStrangers(st, events, key, i + 1, j);
      KeptTrans(states[i].channels[key], states[i + 1].channels[key], states[j].channels[key]);
    }
  }

  lemma KeptSelf(ch: Chan)
    ensures Kept(ch, ch)
  {
  }
}
