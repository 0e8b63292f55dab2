// The state of the server as a value, the invariant that ties its four indexes
// together, and what no command undoes. A client is named by its socket
// descriptor; the built-in bot has descriptor -1.
module ServerState {
  import opened Results
  import opened IrcCasemap
  import opened Codec
  import opened ChannelModes
  import opened Walks

  const BOT: int := -1
  const MAX_OUTPUT_BUFFER: nat := 65536
  const MAX_CHANNEL_NAME_LENGTH: nat := 50

  // ------------------------------------------------------------------
  // Data
  // ------------------------------------------------------------------

  /**
   * Who a client is. `offered` is the last password it sent and `welcomes` how
   * often it was welcomed; the program stores neither, they are there for the
   * properties to speak of.
   */
  datatype Account = Account(
    host: string,
    nick: string,
    username: string,
    realname: string,
    passOk: bool,
    nickGiven: bool,
    userGiven: bool,
    registered: bool,
    offered: string,
    welcomes: nat)

  /** A line accepted into an output buffer; `log` names the channel whose history it belongs to. */
  datatype Delivery = Delivery(line: string, log: Option<string>)

  /**
   * The output side of a connection, with its disconnect request. `accepted`
   * and `sent` record everything queued and everything written so far.
   */
  datatype Output = Output(
    buffer: string,
    closing: bool,
    reason: string,
    accepted: seq<Delivery>,
    sent: string)

  /** How much had been accepted, and how long the channel history was, when a replay began. */
  datatype Mark = Mark(accepted: nat, history: nat)

  /**
   * One client. `received` are all the bytes read from its socket, `lines` the
   * complete lines taken from them so far, `marks` the replays it was given.
   */
  datatype User = User(
    account: Account,
    joined: set<string>,
    marks: map<string, Mark>,
    inBuffer: string,
    received: string,
    lines: seq<string>,
    out: Output)

  function NewUser(host: string): User {
    User(
      Account(host, "", "", "", false, false, false, false, "", 0),
      {}, map[], "", "", [],
      Output("", false, "", [], ""))
  }

  /** A stored channel message and the member who sent it. */
  datatype Entry = Entry(author: int, line: string)

  datatype Chan = Chan(
    name: string,
    topic: string,
    members: set<int>,
    operators: set<int>,
    invited: set<int>,
    flags: Flags,
    history: seq<Entry>)

  function NewChan(name: string): Chan {
    Chan(name, "", {}, {}, {}, NO_FLAGS, [])
  }

  /**
   * `order` lists the client descriptors in pollFds after the listening socket;
   * `walk` is the order in which the sets of clients are walked.
   */
  datatype State = State(
    password: string,
    users: map<int, User>,
    nicks: map<string, int>,
    channels: map<string, Chan>,
    order: seq<int>,
    accepting: bool,
    walk: Walk)

  /** An operation completes, or throws and leaves the state it had reached. */
  datatype Outcome = Done(st: State) | Threw(st: State) {
    predicate IsFailure() {
      Threw?
    }

    function PropagateFailure(): Outcome
      requires Threw?
    {
      this
    }

    function Extract(): State
      requires Done?
    {
      st
    }
  }

  // ------------------------------------------------------------------
  // Names
  // ------------------------------------------------------------------

  predicate Letter(c: char) {
    'A' <= c <= 'Z' || 'a' <= c <= 'z'
  }

  predicate NickSpecial(c: char) {
    c in "[]\\`_^{|}"
  }

  predicate ValidNick(nick: string) {
    && nick != ""
    && (Letter(nick[0]) || NickSpecial(nick[0]))
    && forall i :: 1 <= i < |nick| ==>
         Letter(nick[i]) || '0' <= nick[i] <= '9' || NickSpecial(nick[i]) || nick[i] == '-'
  }

  predicate ValidChannelName(name: string) {
    && 2 <= |name| <= MAX_CHANNEL_NAME_LENGTH
    && name[0] == '#'
    && forall i :: 1 <= i < |name| ==>
         name[i] as int > 32 && name[i] as int != 127 && name[i] != ',' && name[i] != ':'
  }

  function FindIn(nicks: map<string, int>, nick: string): Option<int> {
    var key := Normalize(nick);
    if key != "" && key in nicks then Some(nicks[key]) else None
  }

  /** Server::findClientByNickname. */
  function FindNick(st: State, nick: string): Option<int> {
    FindIn(st.nicks, nick)
  }

  predicate Virtual(id: int) {
    id < 0
  }

  // ------------------------------------------------------------------
  // What a connection has seen
  // ------------------------------------------------------------------

  function LinesOf(ds: seq<Delivery>): seq<string> {
    seq(|ds|, i requires 0 <= i < |ds| => ds[i].line)
  }

  /** The accepted lines that belong to one channel's history. */
  function LogOf(ds: seq<Delivery>, key: string): seq<string> {
    if ds == [] then []
    else
      var last := ds[|ds| - 1];
      LogOf(ds[..|ds| - 1], key) + (if last.log == Some(key) then [last.line] else [])
  }

  function EntryLines(entries: seq<Entry>): seq<string> {
    seq(|entries|, i requires 0 <= i < |entries| => entries[i].line)
  }

  /** The lines of a history that someone else wrote. */
  function OthersLines(entries: seq<Entry>, id: int): seq<string> {
    if entries == [] then []
    else
      var last := entries[|entries| - 1];
      OthersLines(entries[..|entries| - 1], id) + (if last.author != id then [last.line] else [])
  }

  // ------------------------------------------------------------------
  // The invariant
  // ------------------------------------------------------------------

  ghost predicate AccountOk(password: string, id: int, a: Account) {
    && (if a.nickGiven then ValidNick(a.nick) else a.nick == "")
    && (a.userGiven <==> a.username != "")
    && (a.registered ==> a.passOk && a.nickGiven && a.userGiven)
    && (!Virtual(id) ==>
          && (a.passOk ==> a.offered == password)
          && a.welcomes == (if a.registered then 1 else 0))
  }

  /** Nothing accepted is lost, repeated or reordered on its way to the socket. */
  ghost predicate Conserved(sent: string, buffer: string, accepted: seq<Delivery>) {
    sent + buffer == Flatten(LinesOf(accepted))
  }

  ghost predicate OutputOk(o: Output) {
    && (o.closing ==> o.reason != "")
    && |o.buffer| <= MAX_OUTPUT_BUFFER
    && Conserved(o.sent, o.buffer, o.accepted)
  }

  ghost predicate UserOk(password: string, id: int, u: User) {
    && AccountOk(password, id, u.account)
    && OutputOk(u.out)
    && u.marks.Keys <= u.joined
    && (Virtual(id) ==> id == BOT && u.account.registered && u.marks == map[])
  }

  ghost predicate UsersOk(st: State) {
    st.password != "" && forall id :: id in st.users ==> UserOk(st.password, id, st.users[id])
  }

  /** What a channel keeps, given who is registered and who exists at all. */
  ghost predicate ChanOk(ch: Chan, key: string, users: map<int, User>) {
    && Normalize(ch.name) == key
    && ValidChannelName(ch.name)
    && ch.members != {}
    && ch.operators <= ch.members
    && ch.invited * ch.members == {}
    && ch.members <= users.Keys
    && ch.invited <= users.Keys
    && (forall id :: id in ch.members ==> users[id].account.registered)
    && FlagsOk(ch.flags)
    && HistoryOk(ch.history)
  }

  ghost predicate HistoryOk(history: seq<Entry>) {
    forall e :: e in history ==> 0 < |e.line| <= MAX_MESSAGE_LENGTH
  }

  ghost predicate ChansOk(st: State) {
    forall key :: key in st.channels ==> ChanOk(st.channels[key], key, st.users)
  }

  /** Membership is recorded the same way on both sides. */
  ghost predicate Linked(st: State) {
    forall id, key :: id in st.users ==>
      (key in st.users[id].joined <==> key in st.channels && id in st.channels[key].members)
  }

  ghost predicate Owns(users: map<int, User>, id: int, n: string) {
    id in users && users[id].account.nickGiven && Normalize(users[id].account.nick) == n
  }

  /** The nickname map is the inverse of the clients' normalized nicknames. */
  ghost predicate Indexed(st: State) {
    && (forall n :: n in st.nicks ==> Owns(st.users, st.nicks[n], n))
    && (forall id, n :: Owns(st.users, id, n) ==> n in st.nicks && st.nicks[n] == id)
  }

  /** Every client has exactly one descriptor in poll. */
  ghost predicate Polled(st: State) {
    && (forall i, j :: 0 <= i < j < |st.order| ==> st.order[i] != st.order[j])
    && (forall fd :: fd in st.order <==> fd in st.users && fd != BOT)
  }

  /** What a member was shown of a channel is its history, minus its own lines since joining. */
  ghost predicate LogOk(id: int, key: string, m: Mark, out: Output, history: seq<Entry>) {
    && m.accepted <= |out.accepted|
    && m.history <= |history|
    && (!out.closing ==>
          LogOf(out.accepted[m.accepted..], key) ==
          EntryLines(history[..m.history]) + OthersLines(history[m.history..], id))
  }

  ghost predicate Logged(st: State) {
    forall id, key :: id in st.users && key in st.users[id].marks ==>
      && key in st.channels
      && LogOk(id, key, st.users[id].marks[key], st.users[id].out, st.channels[key].history)
  }

  ghost predicate Inv(st: State) {
    && UsersOk(st)
    && ChansOk(st)
    && Linked(st)
    && Indexed(st)
    && Polled(st)
    && Logged(st)
  }

  // ------------------------------------------------------------------
  // What no command undoes
  // ------------------------------------------------------------------

  ghost predicate AccountFollows(a: Account, b: Account) {
    && b.host == a.host
    && (a.nickGiven ==> b.nickGiven)
    && (a.registered ==> b == a.(nick := b.nick, nickGiven := b.nickGiven))
  }

  ghost predicate OutputFollows(a: Output, b: Output) {
    && b.sent == a.sent
    && a.accepted <= b.accepted
    && (a.closing ==> b == a)
  }

  ghost predicate UserFollows(u: User, v: User) {
    && AccountFollows(u.account, v.account)
    && OutputFollows(u.out, v.out)
    && v.inBuffer == u.inBuffer && v.received == u.received && v.lines == u.lines
  }

  /** The same clients, none of them set back. */
  ghost predicate Follows(a: State, b: State) {
    && b.users.Keys == a.users.Keys
    && b.order == a.order && b.password == a.password && b.accepting == a.accepting
    && forall id :: id in a.users ==> UserFollows(a.users[id], b.users[id])
  }

  lemma FollowsTrans(a: State, b: State, c: State)
    requires Follows(a, b) && Follows(b, c)
    ensures Follows(a, c)
  {
  }

  /** Only the output sides of clients changed. */
  ghost predicate OutputOnly(a: State, b: State) {
    && b == a.(users := b.users)
    && b.users.Keys == a.users.Keys
    && forall id :: id in a.users ==>
         b.users[id] == a.users[id].(out := b.users[id].out)
  }
}
