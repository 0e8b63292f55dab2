// Channel messages: storing them, delivering them to the other members, and
// replaying them to a client that has just joined (CommandDispatcher.cpp:1583-1611,
// Server.cpp:823-832).
module ChannelLog {
  import opened Results
  import opened Codec
  import opened ServerState
  import opened Primitives
  import opened Membership

  // ------------------------------------------------------------------
  // Storing and delivering one message
  // ------------------------------------------------------------------

  function Stored(ch: Chan, author: int, line: string): Chan {
    ch.(history := ch.history + [Entry(author, line)])
  }

  /** addHistoryMessage, then one offer to every member but the author. */
  function Post(st: State, author: int, key: string, line: string): State
    requires key in st.channels
  {
    var ch := st.channels[key];
    Broadcast(WithChan(st, key, Stored(ch, author, line)), ch.members - {author}, line, Some(key))
  }

  lemma StoredOk(ch: Chan, key: string, users: map<int, User>, author: int, line: string)
    requires ChanOk(ch, key, users) && 0 < |line| <= MAX_MESSAGE_LENGTH
    ensures ChanOk(Stored(ch, author, line), key, users)
  {
  }

  lemma PostChans(st: State, author: int, key: string, line: string)
    requires ChansOk(st) && Linked(st) && Indexed(st) && Polled(st)
    requires key in st.channels && 0 < |line| <= MAX_MESSAGE_LENGTH
    ensures var after := Post(st, author, key, line);
            ChansOk(after) && Linked(after) && Indexed(after) && Polled(after)
  {
    var stored := WithChan(st, key, Stored(st.channels[key], author, line));
    assert ChansOk(stored) by {
      StoredOk(st.channels[key], key, st.users, author, line);
    }
    assert Linked(stored) && Indexed(stored) && Polled(stored);
    hide ChansOk, Linked, Indexed, Polled;
    IndexesKept(stored, Post(st, author, key, line));
  }

  lemma OthersSnoc(entries: seq<Entry>, e: Entry, id: int)
    ensures OthersLines(entries + [e], id) == OthersLines(entries, id) + (if e.author != id then [e.line] else [])
  {
  }

  /** The log of a recipient, or of the author, after the history grew by one entry. */
  lemma LogGrows(id: int, key: string, m: Mark, a: Output, b: Output, history: seq<Entry>, e: Entry)
    requires LogOk(id, key, m, a, history)
    requires if e.author == id then b == a
             else Offered(id, a, b, e.line, Some(key)) && e.line != "" && !Virtual(id)
    ensures LogOk(id, key, m, b, history + [e])
  {
    var h := history + [e];
    assert h[..m.history] == history[..m.history];
    assert h[m.history..] == history[m.history..] + [e];
    OthersSnoc(history[m.history..], e, id);
    if e.author != id && !b.closing {
      LogAppend(a.accepted, Delivery(e.line, Some(key)), m.accepted, key);
      assert EntryLines(history[..m.history]) + OthersLines(history[m.history..], id) + [e.line] ==
             EntryLines(history[..m.history]) + (OthersLines(history[m.history..], id) + [e.line]);
    } else {
      assert OthersLines(history[m.history..], id) + [] == OthersLines(history[m.history..], id);
    }
  }

  lemma PostOneLog(st: State, author: int, key: string, line: string, i: int, k: string)
    requires UsersOk(st) && Linked(st) && Logged(st)
    requires key in st.channels && line != ""
    requires i in st.users && k in st.users[i].marks
    ensures var after := Post(st, author, key, line);
            && k in after.channels
            && LogOk(i, k, st.users[i].marks[k], after.users[i].out, after.channels[k].history)
  {
    var u := st.users[i];
    assert UserOk(st.password, i, u);
    assert LogOk(i, k, u.marks[k], u.out, st.channels[k].history);
    MarksNeedMembership(st, i, k);
    OfferKeeps(i, u.out, line, Some(key));
    var out := Post(st, author, key, line).users[i].out;
    hide UserOk, LogOk, Logged, UsersOk, Linked, OutputOk;
    if k == key {
      LogGrows(i, k, u.marks[k], u.out, out, st.channels[k].history, Entry(author, line));
    } else {
      if i in st.channels[key].members - {author} {
        LogKept(i, k, u.marks[k], u.out, out, st.channels[k].history, line, Some(key));
      }
    }
  }

  lemma PostLogs(st: State, author: int, key: string, line: string)
    requires UsersOk(st) && Linked(st) && Logged(st)
    requires key in st.channels && line != ""
    ensures Logged(Post(st, author, key, line))
  {
    var after := Post(st, author, key, line);
    forall i, k | i in after.users && k in after.users[i].marks
      ensures k in after.channels
      ensures LogOk(i, k, after.users[i].marks[k], after.users[i].out, after.channels[k].history)
    {
      PostOneLog(st, author, key, line, i, k);
    }
  }

  /** A posted message keeps every member's log complete, the author's included. */
  lemma PostKeeps(st: State, author: int, key: string, line: string)
    requires Inv(st) && key in st.channels && 0 < |line| <= MAX_MESSAGE_LENGTH
    ensures Inv(Post(st, author, key, line)) && Follows(st, Post(st, author, key, line))
    ensures Post(st, author, key, line).channels == st.channels[key := Stored(st.channels[key], author, line)]
    ensures Post(st, author, key, line).nicks == st.nicks
  {
    var stored := WithChan(st, key, Stored(st.channels[key], author, line));
    hide UsersOk, Logged, ChansOk, Linked, Indexed, Polled, Follows;
    PostChans(st, author, key, line);
    PostLogs(st, author, key, line);
    ChannelsAside(st, stored.channels);
    BroadcastUsersOk(stored, st.channels[key].members - {author}, line, Some(key));
    FollowsTrans(st, stored, Post(st, author, key, line));
  }

  // ------------------------------------------------------------------
  // Replaying the history
  // ------------------------------------------------------------------

  function Replayed(id: int, u: User, key: string, history: seq<Entry>): User {
    u.(marks := u.marks[key := Mark(|u.out.accepted|, |history|)],
       out := OfferAll(id, u.out, EntryLines(history), Some(key)))
  }

  /** Server::sendChannelHistory. */
  function Replay(st: State, id: int, key: string): State
    requires id in st.users && key in st.channels
  {
    WithUser(st, id, Replayed(id, st.users[id], key, st.channels[key].history))
  }

  lemma {:induction false} OfferAllKeeps(id: int, o: Output, lines: seq<string>, log: Option<string>)
    requires OutputOk(o)
    ensures OutputOk(OfferAll(id, o, lines, log))
    ensures OutputFollows(o, OfferAll(id, o, lines, log))
  {
    if lines != [] {
      var init := lines[..|lines| - 1];
      OfferAllKeeps(id, o, init, log);
      OfferKeeps(id, OfferAll(id, o, init, log), lines[|lines| - 1], log);
    }
  }

  lemma OfferShows(before: seq<Delivery>, after: seq<Delivery>, from: nat, key: string, shown: seq<string>,
                   line: string)
    requires from <= |before| && LogOf(before[from..], key) == shown
    requires after == before + [Delivery(line, Some(key))]
    ensures LogOf(after[from..], key) == shown + [line]
  {
    LogAppend(before, Delivery(line, Some(key)), from, key);
  }

  /** When the buffer had room for all of it, the replay is exactly the history. */
  lemma {:induction false} OfferAllShows(id: int, o: Output, lines: seq<string>, key: string)
    requires OutputOk(o) && !Virtual(id)
    requires forall i :: 0 <= i < |lines| ==> lines[i] != ""
    ensures var after := OfferAll(id, o, lines, Some(key));
            && |o.accepted| <= |after.accepted|
            && (!after.closing ==> LogOf(after.accepted[|o.accepted|..], key) == lines)
  {
    OfferAllKeeps(id, o, lines, Some(key));
    if lines == [] {
      assert LogOf(o.accepted[|o.accepted|..], key) == [];
    } else {
      var init, last := lines[..|lines| - 1], lines[|lines| - 1];
      var before := OfferAll(id, o, init, Some(key));
      OfferAllShows(id, o, init, key);
      OfferAllKeeps(id, o, init, Some(key));
      OfferKeeps(id, before, last, Some(key));
      var after := OfferAll(id, o, lines, Some(key));
      if !after.closing {
        hide OutputOk, OutputFollows, Offer, LogOf;
        OfferShows(before.accepted, after.accepted, |o.accepted|, key, init, last);
        assert lines == init + [last];
      }
    }
  }

  lemma {:induction false} OfferAllElsewhere(
      id: int, k: string, m: Mark, o: Output, lines: seq<string>, log: Option<string>, history: seq<Entry>)
    requires OutputOk(o) && LogOk(id, k, m, o, history) && log != Some(k)
    ensures LogOk(id, k, m, OfferAll(id, o, lines, log), history)
  {
    if lines != [] {
      var init, last := lines[..|lines| - 1], lines[|lines| - 1];
      OfferAllElsewhere(id, k, m, o, init, log, history);
      OfferAllKeeps(id, o, init, log);
      OfferKeeps(id, OfferAll(id, o, init, log), last, log);
      hide LogOk, OutputOk, Offer;
      LogKept(id, k, m, OfferAll(id, o, init, log), OfferAll(id, o, lines, log), history, last, log);
    }
  }

  lemma ReplayedUserOk(st: State, id: int, key: string)
    requires UsersOk(st) && id in st.users && key in st.channels
    requires !Virtual(id) && key in st.users[id].joined
    ensures var v := Replayed(id, st.users[id], key, st.channels[key].history);
            UserOk(st.password, id, v) && UserFollows(st.users[id], v)
  {
    assert UserOk(st.password, id, st.users[id]);
    OfferAllKeeps(id, st.users[id].out, EntryLines(st.channels[key].history), Some(key));
  }

  lemma ReplayOwnLog(st: State, id: int, key: string)
    requires UsersOk(st) && ChansOk(st) && id in st.users && key in st.channels && !Virtual(id)
    ensures var u, h := st.users[id], st.channels[key].history;
            LogOk(id, key, Mark(|u.out.accepted|, |h|), OfferAll(id, u.out, EntryLines(h), Some(key)), h)
  {
    var u, h := st.users[id], st.channels[key].history;
    assert UserOk(st.password, id, u);
    assert ChanOk(st.channels[key], key, st.users);
    forall i | 0 <= i < |EntryLines(h)|
      ensures EntryLines(h)[i] != ""
    {
      assert h[i] in h;
    }
    OfferAllShows(id, u.out, EntryLines(h), key);
    assert h[..|h|] == h && h[|h|..] == [];
    assert EntryLines(h) + [] == EntryLines(h);
  }

  /** The log of another channel, or of another client, is not touched by a replay. */
  lemma ReplayOtherLog(st: State, id: int, key: string, i: int, k: string)
    requires id in st.users && key in st.channels && !(i == id && k == key)
    requires i in st.users && OutputOk(st.users[i].out)
    requires k in st.users[i].marks && k in st.channels
    requires LogOk(i, k, st.users[i].marks[k], st.users[i].out, st.channels[k].history)
    ensures var v := Replay(st, id, key).users[i];
            k in v.marks && LogOk(i, k, v.marks[k], v.out, st.channels[k].history)
  {
    hide LogOk, OutputOk, EntryLines, OfferAll;
    if i == id {
      OfferAllElsewhere(id, k, st.users[i].marks[k], st.users[i].out, EntryLines(st.channels[key].history), Some(key),
                        st.channels[k].history);
    }
  }

  lemma ReplayedLog(st: State, id: int, key: string)
    requires UsersOk(st) && ChansOk(st) && id in st.users && key in st.channels && !Virtual(id)
    ensures var v := Replay(st, id, key).users[id];
            key in v.marks && LogOk(id, key, v.marks[key], v.out, st.channels[key].history)
  {
    hide UsersOk, ChansOk, LogOk, EntryLines, OfferAll;
    ReplayOwnLog(st, id, key);
  }

  /** What Logged and UsersOk say of one log. */
  lemma OneLog(st: State, i: int, k: string)
    requires UsersOk(st) && Logged(st) && i in st.users && k in st.users[i].marks
    ensures k in st.channels && LogOk(i, k, st.users[i].marks[k], st.users[i].out, st.channels[k].history)
    ensures OutputOk(st.users[i].out)
  {
    assert UserOk(st.password, i, st.users[i]);
  }

  lemma ReplayMarks(st: State, id: int, key: string, i: int, k: string)
    requires id in st.users && key in st.channels && !(i == id && k == key)
    requires i in st.users && k in Replay(st, id, key).users[i].marks
    ensures k in st.users[i].marks
  {
    hide OfferAll, EntryLines;
  }

  lemma ReplayOneLog(st: State, id: int, key: string, i: int, k: string)
    requires UsersOk(st) && ChansOk(st) && Logged(st)
    requires id in st.users && key in st.channels && !Virtual(id)
    requires i in st.users && k in Replay(st, id, key).users[i].marks
    ensures var v := Replay(st, id, key).users[i];
            k in st.channels && LogOk(i, k, v.marks[k], v.out, st.channels[k].history)
  {
    hide UsersOk, ChansOk, Logged, LogOk, OutputOk, Replayed;
    if i == id && k == key {
      ReplayedLog(st, id, key);
    } else {
      ReplayMarks(st, id, key, i, k);
      OneLog(st, i, k);
      ReplayOtherLog(st, id, key, i, k);
    }
  }

  /** Every log of one client, whichever it is. */
  ghost predicate LogsOf(st: State, i: int)
    requires i in st.users
  {
    forall k :: k in st.users[i].marks ==>
      k in st.channels && LogOk(i, k, st.users[i].marks[k], st.users[i].out, st.channels[k].history)
  }

  lemma ReplayLogsOf(st: State, id: int, key: string, i: int)
    requires UsersOk(st) && ChansOk(st) && Logged(st)
    requires id in st.users && key in st.channels && !Virtual(id) && i in st.users
    ensures LogsOf(Replay(st, id, key), i)
  {
    hide UsersOk, ChansOk, Logged, LogOk, Replayed;
    forall k | k in Replay(st, id, key).users[i].marks
      ensures var v := Replay(st, id, key).users[i];
              k in st.channels && LogOk(i, k, v.marks[k], v.out, st.channels[k].history)
    {
      ReplayOneLog(st, id, key, i, k);
    }
  }

  lemma LogsTogether(st: State)
    requires forall i :: i in st.users ==> LogsOf(st, i)
    ensures Logged(st)
  {
    hide LogOk;
    forall i, k | i in st.users && k in st.users[i].marks
      ensures k in st.channels && LogOk(i, k, st.users[i].marks[k], st.users[i].out, st.channels[k].history)
    {
      assert LogsOf(st, i);
    }
  }

  lemma ReplayLogs(st: State, id: int, key: string)
    requires UsersOk(st) && ChansOk(st) && Logged(st)
    requires id in st.users && key in st.channels && !Virtual(id)
    ensures Logged(Replay(st, id, key))
  {
    hide UsersOk, ChansOk, Logged, LogsOf, Replayed;
    forall i | i in st.users
      ensures LogsOf(Replay(st, id, key), i)
    {
      ReplayLogsOf(st, id, key, i);
    }
    LogsTogether(Replay(st, id, key));
  }

  lemma ReplayKeeps(st: State, id: int, key: string)
    requires Inv(st) && id in st.users && key in st.channels
    requires !Virtual(id) && id in st.channels[key].members
    ensures Inv(Replay(st, id, key)) && Follows(st, Replay(st, id, key))
  {
    assert key in st.users[id].joined;
    var v := Replayed(id, st.users[id], key, st.channels[key].history);
    assert SameIdentity(st.users[id], v);
    hide UsersOk, Logged, ChansOk, Linked, Indexed, Polled, Follows, UserOk, UserFollows, Replayed;
    ReplayedUserOk(st, id, key);
    OneUserOk(st, id, v);
    OneUserFollows(st, id, v);
    OneUserIndexes(st, id, v);
    ReplayLogs(st, id, key);
  }
}
