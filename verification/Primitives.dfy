// The primitive changes of the server state, each with the proof that it keeps
// the invariant.
module Primitives {
  import opened Results
  import opened IrcCasemap
  import opened Codec
  import opened ChannelModes
  import opened ServerState

  // ------------------------------------------------------------------
  // Output
  // ------------------------------------------------------------------

  const OVERFLOW_REASON: string := "Output buffer limit exceeded"

  /** Client::requestDisconnect: the first reason wins. */
  function Request(o: Output, reason: string): Output {
    if o.closing then o
    else o.(closing := true, reason := if reason == "" then "Client disconnected" else reason)
  }

  /** Server::queueMessage for one client. */
  function Offer(id: int, o: Output, line: string, log: Option<string>): Output {
    if line == "" || o.closing || Virtual(id) then o
    else if |line| > MAX_MESSAGE_LENGTH then Request(o, "IRC message length limit exceeded")
    else if |o.buffer| + |line| > MAX_OUTPUT_BUFFER then Request(o, OVERFLOW_REASON)
    else o.(buffer := o.buffer + line, accepted := o.accepted + [Delivery(line, log)])
  }

  function OfferAll(id: int, o: Output, lines: seq<string>, log: Option<string>): Output {
    if lines == [] then o
    else Offer(id, OfferAll(id, o, lines[..|lines| - 1], log), lines[|lines| - 1], log)
  }

  /** Offer one line to each of a set of clients. */
  function Broadcast(st: State, to: set<int>, line: string, log: Option<string>): State {
    st.(users := map id | id in st.users ::
          if id in to then st.users[id].(out := Offer(id, st.users[id].out, line, log)) else st.users[id])
  }

  lemma LinesOfSnoc(ds: seq<Delivery>, d: Delivery)
    ensures LinesOf(ds + [d]) == LinesOf(ds) + [d.line]
  {
  }

  lemma AcceptConserves(sent: string, buffer: string, accepted: seq<Delivery>, line: string, log: Option<string>)
    requires Conserved(sent, buffer, accepted)
    ensures Conserved(sent, buffer + line, accepted + [Delivery(line, log)])
  {
    LinesOfSnoc(accepted, Delivery(line, log));
    FlattenSnoc(LinesOf(accepted), line);
    assert sent + (buffer + line) == sent + buffer + line;
  }

  lemma RequestKeeps(o: Output, reason: string)
    requires OutputOk(o)
    ensures OutputOk(Request(o, reason)) && OutputFollows(o, Request(o, reason))
  {
  }

  /** What one offer may add to the accepted lines. */
  ghost predicate Offered(id: int, a: Output, b: Output, line: string, log: Option<string>) {
    && (a.closing ==> b.closing)
    && (b.accepted == a.accepted || b.accepted == a.accepted + [Delivery(line, log)])
    && (!b.closing && line != "" && !Virtual(id) ==> b.accepted == a.accepted + [Delivery(line, log)])
  }

  lemma OfferKeeps(id: int, o: Output, line: string, log: Option<string>)
    requires OutputOk(o)
    ensures OutputOk(Offer(id, o, line, log))
    ensures OutputFollows(o, Offer(id, o, line, log))
    ensures Offered(id, o, Offer(id, o, line, log), line, log)
  {
    RequestKeeps(o, "IRC message length limit exceeded");
    RequestKeeps(o, OVERFLOW_REASON);
    AcceptConserves(o.sent, o.buffer, o.accepted, line, log);
  }

  lemma LogAppend(ds: seq<Delivery>, d: Delivery, from: nat, key: string)
    requires from <= |ds|
    ensures LogOf((ds + [d])[from..], key) ==
            LogOf(ds[from..], key) + (if d.log == Some(key) then [d.line] else [])
  {
    assert (ds + [d])[from..] == ds[from..] + [d];
    assert (ds[from..] + [d])[..|ds[from..]|] == ds[from..];
  }

  /** An offer outside the channel's log, or none at all, keeps what was shown of it. */
  lemma LogKept(id: int, key: string, m: Mark, a: Output, b: Output, history: seq<Entry>, line: string,
                log: Option<string>)
    requires LogOk(id, key, m, a, history)
    requires log != Some(key)
    requires Offered(id, a, b, line, log)
    ensures LogOk(id, key, m, b, history)
  {
    LogAppend(a.accepted, Delivery(line, log), m.accepted, key);
    assert LogOf(a.accepted[m.accepted..], key) + [] == LogOf(a.accepted[m.accepted..], key);
  }

  // ------------------------------------------------------------------
  // Frames: what a change to one part leaves alone
  // ------------------------------------------------------------------

  /** The indexes depend on accounts only through nickname and registration. */
  ghost predicate SameIdentity(u: User, v: User) {
    && v.joined == u.joined
    && v.account.nick == u.account.nick && v.account.nickGiven == u.account.nickGiven
    && (u.account.registered ==> v.account.registered)
  }

  lemma ChanKept(ch: Chan, key: string, a: map<int, User>, b: map<int, User>)
    requires ChanOk(ch, key, a)
    requires b.Keys == a.Keys
    requires forall id :: id in a && a[id].account.registered ==> b[id].account.registered
    ensures ChanOk(ch, key, b)
  {
  }

  lemma ChansKept(a: State, b: State)
    requires ChansOk(a)
    requires b.channels == a.channels && b.users.Keys == a.users.Keys
    requires forall id :: id in a.users && a.users[id].account.registered ==> b.users[id].account.registered
    ensures ChansOk(b)
  {
  }

  lemma IndexKept(a: State, b: State)
    requires Indexed(a)
    requires b.nicks == a.nicks && b.users.Keys == a.users.Keys
    requires forall id :: id in a.users ==> SameIdentity(a.users[id], b.users[id])
    ensures Indexed(b)
  {
    forall id, n | id in a.users
      ensures Owns(b.users, id, n) <==> Owns(a.users, id, n)
    {
      assert SameIdentity(a.users[id], b.users[id]);
    }
  }

  lemma LinksKept(a: State, b: State)
    requires Linked(a)
    requires b.channels == a.channels && b.users.Keys == a.users.Keys
    requires forall id :: id in a.users ==> b.users[id].joined == a.users[id].joined
    ensures Linked(b)
  {
  }

  /** Changes to clients that leave the indexes alone keep the indexes right. */
  lemma IndexesKept(a: State, b: State)
    requires ChansOk(a) && Linked(a) && Indexed(a) && Polled(a)
    requires b == a.(users := b.users) && b.users.Keys == a.users.Keys
    requires forall id :: id in a.users ==> SameIdentity(a.users[id], b.users[id])
    ensures ChansOk(b) && Linked(b) && Indexed(b) && Polled(b)
  {
    hide ChansOk, Linked, Indexed;
    forall id | id in a.users
      ensures b.users[id].joined == a.users[id].joined
      ensures a.users[id].account.registered ==> b.users[id].account.registered
    {
      assert SameIdentity(a.users[id], b.users[id]);
    }
    ChansKept(a, b);
    LinksKept(a, b);
    IndexKept(a, b);
  }

  /** Nothing that the logs depend on changed. */
  lemma LogsKept(a: State, b: State)
    requires Logged(a)
    requires b.channels.Keys >= a.channels.Keys
    requires forall key :: key in a.channels ==> b.channels[key].history == a.channels[key].history
    requires b.users.Keys <= a.users.Keys
    requires forall id :: id in b.users ==>
               b.users[id].out == a.users[id].out && b.users[id].marks == a.users[id].marks
    ensures Logged(b)
  {
  }

  // ------------------------------------------------------------------
  // Broadcasts
  // ------------------------------------------------------------------

  lemma BroadcastUsersOk(st: State, to: set<int>, line: string, log: Option<string>)
    requires UsersOk(st)
    ensures UsersOk(Broadcast(st, to, line, log))
    ensures Follows(st, Broadcast(st, to, line, log))
  {
    var after := Broadcast(st, to, line, log);
    forall id | id in st.users
      ensures UserOk(st.password, id, after.users[id])
      ensures UserFollows(st.users[id], after.users[id])
    {
      assert UserOk(st.password, id, st.users[id]);
      OfferKeeps(id, st.users[id].out, line, log);
    }
  }

  lemma BroadcastLogs(st: State, to: set<int>, line: string)
    requires UsersOk(st) && Logged(st)
    ensures Logged(Broadcast(st, to, line, None))
  {
    var after := Broadcast(st, to, line, None);
    forall id, key | id in after.users && key in after.users[id].marks
      ensures key in after.channels
      ensures LogOk(id, key, after.users[id].marks[key], after.users[id].out, after.channels[key].history)
    {
      var u := st.users[id];
      assert UserOk(st.password, id, u);
      assert LogOk(id, key, u.marks[key], u.out, st.channels[key].history);
      OfferKeeps(id, u.out, line, None);
      LogKept(id, key, u.marks[key], u.out, Offer(id, u.out, line, None), st.channels[key].history, line, None);
    }
  }

  lemma BroadcastKeeps(st: State, to: set<int>, line: string)
    requires Inv(st)
    ensures Inv(Broadcast(st, to, line, None))
    ensures OutputOnly(st, Broadcast(st, to, line, None)) && Follows(st, Broadcast(st, to, line, None))
  {
    hide UsersOk, Logged, ChansOk, Linked, Indexed, Polled, Follows;
    BroadcastUsersOk(st, to, line, None);
    BroadcastLogs(st, to, line);
    IndexesKept(st, Broadcast(st, to, line, None));
  }

  // ------------------------------------------------------------------
  // Changes to one client alone
  // ------------------------------------------------------------------

  function WithUser(st: State, id: int, v: User): State {
    st.(users := st.users[id := v])
  }

  function WithAccount(st: State, id: int, a: Account): State
    requires id in st.users
  {
    WithUser(st, id, st.users[id].(account := a))
  }

  function WithOutput(st: State, id: int, o: Output): State
    requires id in st.users
  {
    WithUser(st, id, st.users[id].(out := o))
  }

  lemma OneUserOk(st: State, id: int, v: User)
    requires UsersOk(st) && id in st.users && UserOk(st.password, id, v)
    ensures UsersOk(WithUser(st, id, v))
  {
  }

  lemma OneUserFollows(st: State, id: int, v: User)
    requires id in st.users && UserFollows(st.users[id], v)
    ensures Follows(st, WithUser(st, id, v))
  {
  }

  /** Replacing one client, as far as everything but its history is concerned. */
  lemma OneUserIndexes(st: State, id: int, v: User)
    requires ChansOk(st) && Linked(st) && Indexed(st) && Polled(st)
    requires id in st.users && SameIdentity(st.users[id], v)
    ensures var after := WithUser(st, id, v);
            ChansOk(after) && Linked(after) && Indexed(after) && Polled(after)
  {
    hide ChansOk, Linked, Indexed, Polled;
    IndexesKept(st, WithUser(st, id, v));
  }

  lemma OneUserLogs(st: State, id: int, v: User)
    requires Logged(st) && id in st.users
    requires v.out == st.users[id].out && v.marks == st.users[id].marks
    ensures Logged(WithUser(st, id, v))
  {
  }

  lemma AccountUserOk(st: State, id: int, a: Account)
    requires UsersOk(st) && id in st.users && AccountOk(st.password, id, a)
    requires AccountFollows(st.users[id].account, a)
    ensures UserOk(st.password, id, st.users[id].(account := a))
    ensures UserFollows(st.users[id], st.users[id].(account := a))
  {
  }

  /** A change to an account that keeps the nickname. */
  lemma AccountKeeps(st: State, id: int, a: Account)
    requires Inv(st) && id in st.users
    requires AccountOk(st.password, id, a)
    requires a.nick == st.users[id].account.nick && a.nickGiven == st.users[id].account.nickGiven
    requires AccountFollows(st.users[id].account, a)
    ensures Inv(WithAccount(st, id, a)) && Follows(st, WithAccount(st, id, a))
  {
    var v := st.users[id].(account := a);
    assert SameIdentity(st.users[id], v);
    hide UsersOk, Logged, ChansOk, Linked, Indexed, Polled, Follows, AccountOk, UserOk;
    AccountUserOk(st, id, a);
    OneUserOk(st, id, v);
    OneUserFollows(st, id, v);
    OneUserIndexes(st, id, v);
    OneUserLogs(st, id, v);
  }

  lemma RequestUserOk(st: State, id: int, reason: string)
    requires UsersOk(st) && id in st.users
    ensures var v := st.users[id].(out := Request(st.users[id].out, reason));
            UserOk(st.password, id, v) && UserFollows(st.users[id], v)
  {
  }

  /** Asking for a disconnection. */
  lemma RequestKeepsInv(st: State, id: int, reason: string)
    requires Inv(st) && id in st.users
    ensures var after := WithOutput(st, id, Request(st.users[id].out, reason));
            Inv(after) && Follows(st, after)
  {
    var u := st.users[id];
    var v := u.(out := Request(u.out, reason));
    assert SameIdentity(u, v);
    hide UsersOk, Logged, ChansOk, Linked, Indexed, Polled, Follows, UserOk, Request;
    RequestUserOk(st, id, reason);
    OneUserOk(st, id, v);
    OneUserFollows(st, id, v);
    OneUserIndexes(st, id, v);
    RequestLogs(st, id, reason);
  }

  lemma RequestLogs(st: State, id: int, reason: string)
    requires Logged(st) && id in st.users
    ensures Logged(WithOutput(st, id, Request(st.users[id].out, reason)))
  {
  }

  // ------------------------------------------------------------------
  // Channel settings
  // ------------------------------------------------------------------

  function WithChan(st: State, key: string, ch: Chan): State {
    st.(channels := st.channels[key := ch])
  }

  /** What a change of settings may touch. */
  ghost predicate SettingsOnly(a: Chan, b: Chan) {
    b == a.(topic := b.topic, operators := b.operators, invited := b.invited, flags := b.flags)
  }

  lemma OneChanOk(st: State, key: string, ch: Chan)
    requires ChansOk(st) && key in st.channels && SettingsOnly(st.channels[key], ch)
    requires ch.operators <= ch.members
    requires ch.invited * ch.members == {} && ch.invited <= st.users.Keys
    requires FlagsOk(ch.flags)
    ensures ChansOk(WithChan(st, key, ch))
  {
  }

  lemma OneChanLinks(st: State, key: string, ch: Chan)
    requires Linked(st) && key in st.channels && SettingsOnly(st.channels[key], ch)
    ensures Linked(WithChan(st, key, ch))
  {
  }

  lemma ChannelsAside(st: State, channels: map<string, Chan>)
    ensures UsersOk(st) ==> UsersOk(st.(channels := channels))
    ensures Indexed(st) ==> Indexed(st.(channels := channels))
    ensures Polled(st) ==> Polled(st.(channels := channels))
    ensures Follows(st, st.(channels := channels))
  {
  }

  /** Replace a channel where its membership and history are not concerned. */
  lemma ChanUpdateKeeps(st: State, key: string, ch: Chan)
    requires Inv(st) && key in st.channels && SettingsOnly(st.channels[key], ch)
    requires ch.operators <= ch.members
    requires ch.invited * ch.members == {} && ch.invited <= st.users.Keys
    requires FlagsOk(ch.flags)
    ensures Inv(WithChan(st, key, ch)) && Follows(st, WithChan(st, key, ch))
  {
    hide UsersOk, Logged, ChansOk, Linked, Indexed, Polled, Follows;
    OneChanOk(st, key, ch);
    OneChanLinks(st, key, ch);
    ChannelsAside(st, st.channels[key := ch]);
    LogsKept(st, WithChan(st, key, ch));
  }

  // ------------------------------------------------------------------
  // Nicknames
  // ------------------------------------------------------------------

  /** Server::removeNicknameIndexEntry. */
  function RemoveNickEntry(st: State, id: int): State
    requires id in st.users
  {
    var a := st.users[id].account;
    var key := Normalize(a.nick);
    if a.nickGiven && key in st.nicks && st.nicks[key] == id then st.(nicks := st.nicks - {key}) else st
  }

  /** Server::assignNickname: None when the nickname belongs to someone else. */
  function AssignNick(st: State, id: int, nick: string): Option<State>
    requires id in st.users
  {
    var key := Normalize(nick);
    if key == "" then None
    else if key in st.nicks && st.nicks[key] != id then None
    else
      var a := st.users[id].account;
      var cleared := if a.nickGiven && Normalize(a.nick) != key then RemoveNickEntry(st, id) else st;
      var renamed := WithAccount(cleared, id, a.(nick := nick, nickGiven := true));
      Some(renamed.(nicks := renamed.nicks[key := id]))
  }

  lemma AssignNickIndexes(st: State, id: int, nick: string)
    requires Indexed(st) && id in st.users && ValidNick(nick)
    requires AssignNick(st, id, nick).Some?
    ensures Indexed(AssignNick(st, id, nick).value)
  {
    var after := AssignNick(st, id, nick).value;
    var key := Normalize(nick);
    assert Owns(after.users, id, key);
    forall other, n | Owns(after.users, other, n)
      ensures n in after.nicks && after.nicks[n] == other
    {
      if other != id {
        assert Owns(st.users, other, n);
      }
    }
    forall n | n in after.nicks
      ensures Owns(after.users, after.nicks[n], n)
    {
      if n != key {
        assert Owns(st.users, st.nicks[n], n);
      }
    }
  }

  /** A nickname is refused exactly when another client owns an equal one. */
  lemma AssignNickRefuses(st: State, id: int, nick: string)
    requires Inv(st) && id in st.users && ValidNick(nick)
    ensures AssignNick(st, id, nick).None? <==>
              exists other :: other in st.users && other != id && st.users[other].account.nickGiven
                              && Equal(st.users[other].account.nick, nick)
  {
    var key := Normalize(nick);
    assert |key| == |nick|;
    if key in st.nicks && st.nicks[key] != id {
      assert Owns(st.users, st.nicks[key], key);
    }
    forall other | other in st.users && other != id && st.users[other].account.nickGiven
                   && Equal(st.users[other].account.nick, nick)
      ensures AssignNick(st, id, nick).None?
    {
      assert Owns(st.users, other, key);
    }
  }

  /** The record that assignNickname leaves. */
  function Renamed(u: User, nick: string): User {
    u.(account := u.account.(nick := nick, nickGiven := true))
  }

  lemma RenamedUserOk(st: State, id: int, nick: string)
    requires UsersOk(st) && id in st.users && ValidNick(nick)
    ensures UserOk(st.password, id, Renamed(st.users[id], nick))
    ensures UserFollows(st.users[id], Renamed(st.users[id], nick))
  {
  }

  lemma AssignNickKeeps(st: State, id: int, nick: string)
    requires Inv(st) && id in st.users && ValidNick(nick)
    requires AssignNick(st, id, nick).Some?
    ensures Inv(AssignNick(st, id, nick).value) && Follows(st, AssignNick(st, id, nick).value)
  {
    var v := Renamed(st.users[id], nick);
    var changed := WithUser(st, id, v);
    var after := AssignNick(st, id, nick).value;
    assert after == changed.(nicks := after.nicks);
    hide UsersOk, Logged, ChansOk, Linked, Indexed, Polled, Follows, UserOk, AssignNick;
    AssignNickIndexes(st, id, nick);
    RenamedUserOk(st, id, nick);
    OneUserOk(st, id, v);
    OneUserFollows(st, id, v);
    ChansKept(st, changed);
    LinksKept(st, changed);
    OneUserLogs(st, id, v);
    PolledKept(st, changed);
    NicksAside(st, changed, after.nicks);
  }

  lemma PolledKept(a: State, b: State)
    requires Polled(a) && b.order == a.order && b.users.Keys == a.users.Keys
    ensures Polled(b)
  {
  }

  lemma NicksAside(before: State, st: State, nicks: map<string, int>)
    ensures UsersOk(st) ==> UsersOk(st.(nicks := nicks))
    ensures ChansOk(st) ==> ChansOk(st.(nicks := nicks))
    ensures Linked(st) ==> Linked(st.(nicks := nicks))
    ensures Polled(st) ==> Polled(st.(nicks := nicks))
    ensures Logged(st) ==> Logged(st.(nicks := nicks))
    ensures Follows(before, st) ==> Follows(before, st.(nicks := nicks))
  {
  }
}
