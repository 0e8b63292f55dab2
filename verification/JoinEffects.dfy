// What a JOIN sends, line by line: the announcement, the topic, the names, the
// end marker and the channel's history (CommandDispatcher.cpp:498-542,
// Server.cpp:704-832).
module JoinEffects {
  import opened Results
  import opened IrcCasemap
  import opened Codec
  import opened Walks
  import opened ServerState
  import opened Primitives
  import opened Membership
  import opened ChannelLog
  import Names
  import opened Commands
  import opened CommandLaws
  import opened Authorisation
  import opened NamesLaws
  import opened ModeLines
  import opened ReplyLaws
  import opened ChannelEffects
  import opened RegistrationLaws

  // ------------------------------------------------------------------
  // Lines for one client
  // ------------------------------------------------------------------

  lemma {:induction false} SayAllAppend(st: State, id: int, a: seq<IrcMessage>, b: seq<IrcMessage>)
    ensures var r := SayAll(st, id, a);
            SayAll(st, id, a + b) == if r.Threw? then r else SayAll(r.st, id, b)
    decreases |a|
  {
    hide Say;
    if a == [] {
      assert a + b == b;
    } else {
      assert (a + b)[0] == a[0] && (a + b)[1..] == a[1..] + b;
      var r := Say(st, {id}, a[0]);
      if r.Done? {
        SayAllAppend(r.st, id, a[1..], b);
      }
    }
  }

  function Addressee(a: Account): string {
    if a.nick == "" then "*" else a.nick
  }

  /** RPL_NOTOPIC or RPL_TOPIC. */
  function TopicReply(a: Account, ch: Chan): IrcMessage {
    if ch.topic == "" then IrcMessage("331", [Addressee(a), ch.name, "No topic is set"], "irc.42.local", true)
    else IrcMessage("332", [Addressee(a), ch.name, ch.topic], "irc.42.local", true)
  }

  /** One RPL_NAMREPLY for each payload. */
  function NamesReplies(a: Account, name: string, payloads: seq<string>): (ms: seq<IrcMessage>)
    ensures |ms| == |payloads|
  {
    if payloads == [] then []
    else [IrcMessage("353", [Addressee(a), "=", name, payloads[0]], "irc.42.local", true)] +
         NamesReplies(a, name, payloads[1..])
  }

  /** RPL_ENDOFNAMES. */
  function EndReply(a: Account, name: string): IrcMessage {
    IrcMessage("366", [Addressee(a), name, "End of /NAMES list"], "irc.42.local", true)
  }

  lemma AccountStays(st: State, id: int, ms: seq<IrcMessage>)
    requires id in st.users
    ensures var s := SayAll(st, id, ms).st;
            id in s.users && s.users[id].account == st.users[id].account && s.channels == st.channels
  {
    hide SayAll;
    SayAllOnlyOutput(st, id, ms);
  }

  lemma {:induction false} PayloadsSaid(st: State, id: int, name: string, payloads: seq<string>)
    requires id in st.users
    ensures SendPayloads(st, id, name, payloads) == SayAll(st, id, NamesReplies(st.users[id].account, name, payloads))
    decreases |payloads|
  {
    hide Say;
    if payloads != [] {
      var a := st.users[id].account;
      var m := IrcMessage("353", [Addressee(a), "=", name, payloads[0]], "irc.42.local", true);
      assert [Addressee(a)] + ["=", name] + [payloads[0]] == m.params;
      SayKeepsAccount(st, id, m);
      var r := Say(st, {id}, m);
      assert Numeric(st, id, "353", ["=", name], payloads[0]) == r;
      hide Numeric;
      if r.Done? {
        PayloadsSaid(r.st, id, name, payloads[1..]);
      }
    }
  }

  lemma TopicSaid(st: State, id: int, key: string)
    requires id in st.users && key in st.channels && st.channels[key].name != ""
    ensures SendTopic(st, id, key) == Say(st, {id}, TopicReply(st.users[id].account, st.channels[key]))
  {
    var a, ch := st.users[id].account, st.channels[key];
    assert [Addressee(a)] + [ch.name] + [ch.topic] == [Addressee(a), ch.name, ch.topic];
    assert [Addressee(a)] + [ch.name] + ["No topic is set"] == [Addressee(a), ch.name, "No topic is set"];
    hide Say;
  }

  lemma EndSaid(st: State, id: int, name: string)
    requires id in st.users && name != ""
    ensures Numeric(st, id, "366", One(name), "End of /NAMES list") ==
            Say(st, {id}, EndReply(st.users[id].account, name))
  {
    var a := st.users[id].account;
    assert [Addressee(a)] + [name] + ["End of /NAMES list"] == EndReply(a, name).params;
    hide Say;
  }

  // ------------------------------------------------------------------
  // NAMES
  // ------------------------------------------------------------------

  /** The payloads of a NAMES reply: 25 bytes go with the addressee, the channel and the names. */
  ghost function Payloads(st: State, id: int, key: string): seq<string>
    requires id in st.users && key in st.channels
    requires 25 + |Addressee(st.users[id].account)| + |st.channels[key].name| <= MAX_MESSAGE_LENGTH
  {
    var ch := st.channels[key];
    var room := MAX_MESSAGE_LENGTH - 25 - |Addressee(st.users[id].account)| - |ch.name|;
    Names.Pack("", DisplayedNames(st, ch, st.walk(ch.members)), room)
  }

  lemma NamesRun(st: State, id: int, key: string, empty: string)
    requires id in st.users && key in st.channels && |empty| <= MAX_MESSAGE_LENGTH
    requires Serialize(NumericMessage(st.users[id].account, "353", ["=", st.channels[key].name], "")) == Success(empty)
    ensures var ch := st.channels[key];
            var names := DisplayedNames(st, ch, st.walk(ch.members));
            var r := SendPayloads(st, id, ch.name, Names.Pack("", names, MAX_MESSAGE_LENGTH - |empty|));
            SendNames(st, id, key) ==
              if r.Threw? then r else Numeric(r.st, id, "366", One(ch.name), "End of /NAMES list")
  {
    hide Serialize, SendPayloads, Numeric, DisplayedNames;
  }

  /** The empty reply has the length that the payloads leave room for. */
  lemma NamesOverhead(st: State, id: int, key: string) returns (empty: string)
    requires Inv(st) && id in st.users && key in st.channels
    requires 25 + |Addressee(st.users[id].account)| + |st.channels[key].name| <= MAX_MESSAGE_LENGTH
    ensures Serialize(NumericMessage(st.users[id].account, "353", ["=", st.channels[key].name], "")) == Success(empty)
    ensures |empty| == 25 + |Addressee(st.users[id].account)| + |st.channels[key].name|
  {
    var a, ch := st.users[id].account, st.channels[key];
    assert ReplyTarget(a) == Addressee(a);
    hide Inv, ValidMiddle, Serialize, NumericMessage, ReplyTarget, Addressee;
    QueryHead(st, id, key);
    EmptyNamesPrints(a, ch.name);
    empty := Serialize(NumericMessage(a, "353", ["=", ch.name], "")).value;
  }

  /** A NAMES reply that has room for its overhead is its 353 lines and the end marker. */
  lemma NamesSaid(st: State, id: int, key: string)
    requires Inv(st) && id in st.users && key in st.channels
    requires 25 + |Addressee(st.users[id].account)| + |st.channels[key].name| <= MAX_MESSAGE_LENGTH
    ensures var a, name := st.users[id].account, st.channels[key].name;
            SendNames(st, id, key) ==
              SayAll(st, id, NamesReplies(a, name, Payloads(st, id, key)) + [EndReply(a, name)])
  {
    var name := st.channels[key].name;
    NamedChannel(st, key);
    hide Inv, SendPayloads, Numeric, DisplayedNames, Serialize, NumericMessage, NamesReplies, EndReply, SendNames,
      SayAll, Payloads, One, Names.Pack;
    var empty := NamesOverhead(st, id, key);
    NamesRun(st, id, key, empty);
    PayloadsAre(st, id, key, empty);
    PayloadsThenEnd(st, id, name, Payloads(st, id, key));
  }

  lemma PayloadsAre(st: State, id: int, key: string, empty: string)
    requires id in st.users && key in st.channels && |empty| <= MAX_MESSAGE_LENGTH
    requires |empty| == 25 + |Addressee(st.users[id].account)| + |st.channels[key].name|
    ensures var ch := st.channels[key];
            Payloads(st, id, key) ==
            Names.Pack("", DisplayedNames(st, ch, st.walk(ch.members)), MAX_MESSAGE_LENGTH - |empty|)
  {
    hide Names.Pack, DisplayedNames, Addressee;
  }

  lemma PayloadsThenEnd(st: State, id: int, name: string, payloads: seq<string>)
    requires id in st.users && name != ""
    ensures var a, r := st.users[id].account, SendPayloads(st, id, name, payloads);
            SayAll(st, id, NamesReplies(a, name, payloads) + [EndReply(a, name)]) ==
              if r.Threw? then r else Numeric(r.st, id, "366", One(name), "End of /NAMES list")
  {
    hide SendPayloads, Numeric, Say, NamesReplies, EndReply, SayAll, One;
    var a := st.users[id].account;
    PayloadsSaid(st, id, name, payloads);
    var ms := NamesReplies(a, name, payloads);
    AccountStays(st, id, ms);
    SayAllAppend(st, id, ms, [EndReply(a, name)]);
    var r := SayAll(st, id, ms);
    EndSaid(r.st, id, name);
    SayOne(r.st, id, EndReply(a, name));
  }

  // ------------------------------------------------------------------
  // JOIN
  // ------------------------------------------------------------------

  /** Announced to every member, the newcomer included. */
  function JoinLine(a: Account, name: string): IrcMessage {
    IrcMessage("JOIN", [name], a.nick + "!" + a.username + "@" + a.host, true)
  }

  /** Everything but that which the newcomer is sent before the history. */
  ghost function Briefing(st: State, id: int, key: string): seq<IrcMessage>
    requires id in st.users && key in st.channels
    requires 25 + |Addressee(st.users[id].account)| + |st.channels[key].name| <= MAX_MESSAGE_LENGTH
  {
    var a, ch := st.users[id].account, st.channels[key];
    [TopicReply(a, ch)] + NamesReplies(a, ch.name, Payloads(st, id, key)) + [EndReply(a, ch.name)]
  }

  lemma BriefingStays(a: State, b: State, id: int, key: string)
    requires OnlyOutput(a, b) && id in a.users && key in a.channels
    requires 25 + |Addressee(a.users[id].account)| + |a.channels[key].name| <= MAX_MESSAGE_LENGTH
    ensures id in b.users && key in b.channels && b.users[id].account == a.users[id].account && b.channels == a.channels
    ensures Briefing(b, id, key) == Briefing(a, id, key)
  {
    DisplayedStays(a, b, a.channels[key], a.walk(a.channels[key].members));
  }

  lemma {:induction false} DisplayedStays(a: State, b: State, ch: Chan, ids: seq<int>)
    requires OnlyOutput(a, b)
    ensures DisplayedNames(b, ch, ids) == DisplayedNames(a, ch, ids)
    decreases |ids|
  {
    if ids != [] {
      DisplayedStays(a, b, ch, ids[1..]);
    }
  }

  /** The replies of a JOIN that completes, in the state it has entered. */
  lemma JoinRepliesExactly(st: State, id: int, key: string)
    requires Inv(st) && id in st.users && key in st.channels && JoinReplies(st, id, key).Done?
    ensures 25 + |Addressee(st.users[id].account)| + |st.channels[key].name| <= MAX_MESSAGE_LENGTH
    ensures var m := JoinLine(st.users[id].account, st.channels[key].name);
            && Say(st, st.channels[key].members, m).Done?
            && JoinReplies(st, id, key) == SayAll(Say(st, st.channels[key].members, m).st, id, Briefing(st, id, key))
  {
    var a, ch := st.users[id].account, st.channels[key];
    NamedChannel(st, key);
    JoinRepliesComplete(st, id, key);
    assert 25 + |Addressee(a)| + |ch.name| <= MAX_MESSAGE_LENGTH;
    var m := JoinLine(a, ch.name);
    assert JoinMessage(st, id, key) == m;
    hide Inv, Say, SendTopic, SendNames, JoinMessage, JoinLine, Briefing, RepliesFit, Quiet, OnlyOutput, NamesReplies,
      Payloads, TopicReply, EndReply, PrefixOf;
    var told := Say(st, ch.members, m);
    SayOnlyOutput(st, ch.members, m);
    SayQuiet(st, ch.members, m);
    QuietInv(st, told.st);
    BriefingStays(st, told.st, id, key);
    TopicSaid(told.st, id, key);
    var topic := SendTopic(told.st, id, key);
    SayOnlyOutput(told.st, {id}, TopicReply(a, ch));
    SendTopicQuiet(told.st, id, key);
    QuietInv(told.st, topic.st);
    BriefingStays(told.st, topic.st, id, key);
    NamesSaid(topic.st, id, key);
    BriefingSaid(told.st, topic.st, id, key);
  }

  lemma BriefingSaid(a: State, b: State, id: int, key: string)
    requires id in a.users && key in a.channels && id in b.users && key in b.channels
    requires a.users[id].account == b.users[id].account && a.channels == b.channels
    requires 25 + |Addressee(a.users[id].account)| + |a.channels[key].name| <= MAX_MESSAGE_LENGTH
    requires Briefing(a, id, key) == Briefing(b, id, key)
    requires Say(a, {id}, TopicReply(a.users[id].account, a.channels[key])) == Done(b)
    ensures var u, name := b.users[id].account, b.channels[key].name;
            SayAll(a, id, Briefing(a, id, key)) ==
              SayAll(b, id, NamesReplies(u, name, Payloads(b, id, key)) + [EndReply(u, name)])
  {
    hide Say, NamesReplies, Payloads, TopicReply, EndReply;
    var u, ch := b.users[id].account, b.channels[key];
    var rest := NamesReplies(u, ch.name, Payloads(b, id, key)) + [EndReply(u, ch.name)];
    assert Briefing(b, id, key) == [TopicReply(u, ch)] + rest;
    assert ([TopicReply(u, ch)] + rest)[1..] == rest;
  }

  /**
   * A JOIN that lets its client in and completes: every member, the newcomer
   * included, is told of it; then the newcomer is sent the topic, the names, the
   * end marker and the lines of the history.
   */
  lemma JoinExactly(st: State, id: int, name: string, providedKey: string)
    requires Inv(st) && id in st.users && st.users[id].account.registered && Admits(st, id, name, providedKey)
    requires JoinOne(st, id, name, providedKey).Done?
    ensures var st0, key := FindOrCreate(st, name), Normalize(name);
            && key in st0.channels && id in st0.users
            && var entered := Enter(st0, id, key);
               && 25 + |Addressee(entered.users[id].account)| + |entered.channels[key].name| <= MAX_MESSAGE_LENGTH
               && var m := JoinLine(entered.users[id].account, entered.channels[key].name);
                  var told := Say(entered, entered.channels[key].members, m);
                  var briefed := SayAll(told.st, id, Briefing(entered, id, key));
                  && told.Done? && briefed.Done? && id in briefed.st.users && key in briefed.st.channels
                  && JoinOne(st, id, name, providedKey) == Done(Replay(briefed.st, id, key))
  {
    var st0, key := FindOrCreate(st, name), Normalize(name);
    hide Inv, JoinOne, JoinReplies, Enter, Normalize, FindOrCreate, Replay, Say, SayAll, Briefing, JoinLine, Admits;
    JoinEnters(st, id, name, providedKey);
    JoinRepliesExactly(Enter(st0, id, key), id, key);
  }

  lemma JoinEnters(st: State, id: int, name: string, providedKey: string)
    requires Inv(st) && id in st.users && st.users[id].account.registered && Admits(st, id, name, providedKey)
    ensures var st0, key := FindOrCreate(st, name), Normalize(name);
            && key in st0.channels && st0.users == st.users && Inv(Enter(st0, id, key))
            && var r := JoinReplies(Enter(st0, id, key), id, key);
               JoinOne(st, id, name, providedKey) == if r.Threw? then r else Done(Replay(r.st, id, key))
  {
    var st0, key := FindOrCreate(st, name), Normalize(name);
    assert key in st0.channels && st0.users == st.users;
    hide Inv, Enterable, JoinOne, JoinReplies, Enter, Normalize, FindOrCreate, Replay, Admits, Follows;
    AdmittedChannel(st, id, name, providedKey);
    FindOrCreateEnterable(st, name);
    EnterKeeps(st0, id, key);
    JoinRuns(st, id, name, providedKey);
  }

  lemma AdmittedChannel(st: State, id: int, name: string, providedKey: string)
    requires Admits(st, id, name, providedKey)
    ensures ValidChannelName(name)
  {
  }
}
