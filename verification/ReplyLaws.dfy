// When the replies of a JOIN come to an end: the topic, the names of any number
// of members and the end marker (Server.cpp:704-813, CommandDispatcher.cpp:498-542).
module ReplyLaws {
  import opened Results
  import opened IrcCasemap
  import opened Codec
  import opened CodecLaws
  import opened Walks
  import opened ServerState
  import opened Primitives
  import opened Membership
  import opened ChannelLog
  import opened Commands
  import opened CommandLaws
  import opened NamesLaws
  import opened ModeBroadcast
  import opened ModeLines

  // ------------------------------------------------------------------
  // One numeric reply
  // ------------------------------------------------------------------

  lemma ReplyCodes()
    ensures ValidPrefix(SERVER_NAME) && ValidMiddle("=")
    ensures ValidCommand("331") && ValidCommand("332") && ValidCommand("353") && ValidCommand("366")
  {
  }

  lemma TwoParamsLength(target: string, name: string, text: string)
    ensures ParamsLength([target, name, text], true) == 4 + |target| + |name| + |text|
  {
    assert [target, name, text][1..] == [name, text] && [name, text][1..] == [text];
    assert ParamsLength([text], true) == 2 + |text|;
    assert ParamsLength([name, text], true) == 3 + |name| + |text|;
  }

  lemma ThreeParamsPrint(target: string, name: string, text: string)
    requires ValidMiddle(target) && ValidMiddle(name)
    ensures PrintableParams([target, name, text]) <==> LineSafe(text)
  {
    hide LineSafe, NeedsTrailingMarker;
    assert [target, name, text][2] == text;
  }

  /** A reply about one channel prints exactly when its text is one line and there is room for 23 more bytes. */
  lemma ChannelReplyPrints(a: Account, code: string, name: string, text: string)
    requires |code| == 3 && ValidCommand(code) && ValidMiddle(ReplyTarget(a)) && ValidMiddle(name)
    ensures Serialize(NumericMessage(a, code, One(name), text)).Success? <==>
              LineSafe(text) && 23 + |ReplyTarget(a)| + |name| + |text| <= MAX_MESSAGE_LENGTH
  {
    var m := NumericMessage(a, code, One(name), text);
    assert m.params == [ReplyTarget(a), name, text];
    ReplyCodes();
    hide LineSafe, NeedsTrailingMarker, ValidCommand, ReplyTarget, Serialize;
    TwoParamsLength(ReplyTarget(a), name, text);
    ThreeParamsPrint(ReplyTarget(a), name, text);
    hide PrintableParams, ParamsLength;
    PrintsExactly(m);
  }

  /** The 353 reply before any name is in it. */
  lemma EmptyNamesPrints(a: Account, name: string)
    requires ValidMiddle(ReplyTarget(a)) && ValidMiddle(name)
    ensures var r := Serialize(NumericMessage(a, "353", ["=", name], ""));
            && (r.Success? <==> 25 + |ReplyTarget(a)| + |name| <= MAX_MESSAGE_LENGTH)
            && (r.Success? ==> |r.value| == 25 + |ReplyTarget(a)| + |name|)
  {
    var m := NumericMessage(a, "353", ["=", name], "");
    assert m.params == [ReplyTarget(a), "=", name, ""];
    ReplyCodes();
    EmptySafe();
    hide LineSafe, NeedsTrailingMarker, ValidCommand, ReplyTarget;
    assert m.params[1..] == ["=", name, ""];
    TwoParamsLength("=", name, "");
    assert ParamsLength(m.params, true) == 6 + |ReplyTarget(a)| + |name|;
    ParamsPrintExactly(m.params, true);
    hide SerializeParams, ParamsLength;
    PrintsExactly(m);
  }

  // ------------------------------------------------------------------
  // NAMES
  // ------------------------------------------------------------------

  /** Room for the end marker, and for each member beside the overhead of its line. */
  ghost predicate NamesFit(st: State, id: int, key: string)
    requires id in st.users && key in st.channels
  {
    var ch, target := st.channels[key], ReplyTarget(st.users[id].account);
    && 41 + |target| + |ch.name| <= MAX_MESSAGE_LENGTH
    && forall member :: member in ch.members && member in st.users ==>
         25 + |target| + |ch.name| + |Displayed(st, ch, member)| <= MAX_MESSAGE_LENGTH
  }

  lemma EveryNameFits(st: State, key: string, ids: seq<int>, budget: int)
    requires Inv(st) && key in st.channels && Enumerates(ids, st.channels[key].members)
    ensures (forall n :: n in DisplayedNames(st, st.channels[key], ids) ==> |n| <= budget) <==>
            (forall member :: member in st.channels[key].members && member in st.users ==>
               |Displayed(st, st.channels[key], member)| <= budget)
  {
    EveryMemberDisplayed(st, key, ids);
    hide Inv, DisplayedNames;
    var ch, names := st.channels[key], DisplayedNames(st, st.channels[key], ids);
    assert forall i :: 0 <= i < |ids| ==> ids[i] in ids && names[i] == Displayed(st, ch, ids[i]);
    if forall n :: n in names ==> |n| <= budget {
      forall member | member in ch.members && member in st.users
        ensures |Displayed(st, ch, member)| <= budget
      {
        assert member in ids;
        var i :| 0 <= i < |ids| && ids[i] == member;
        assert names[i] in names;
      }
    }
  }

  lemma NamesUnfolded(st: State, id: int, key: string, empty: string)
    requires id in st.users && key in st.channels && |empty| <= MAX_MESSAGE_LENGTH
    requires Serialize(NumericMessage(st.users[id].account, "353", ["=", st.channels[key].name], "")) == Success(empty)
    ensures var ch := st.channels[key];
            var names := DisplayedNames(st, ch, st.walk(ch.members));
            var r := SendPayloads(st, id, ch.name, Names.Pack("", names, MAX_MESSAGE_LENGTH - |empty|));
            SendNames(st, id, key).Done? <==>
              r.Done? && Numeric(r.st, id, "366", One(ch.name), "End of /NAMES list").Done?
  {
    hide Serialize, SendPayloads, Numeric, DisplayedNames;
  }

  lemma EndMarkerPrints(st: State, id: int, name: string)
    requires id in st.users && ValidMiddle(ReplyTarget(st.users[id].account)) && ValidMiddle(name)
    ensures Numeric(st, id, "366", One(name), "End of /NAMES list").Done? <==>
              41 + |ReplyTarget(st.users[id].account)| + |name| <= MAX_MESSAGE_LENGTH
  {
    var a := st.users[id].account;
    assert LineSafe("End of /NAMES list");
    ReplyCodes();
    hide ReplyTarget, LineSafe, ValidMiddle, ValidCommand, Serialize, NumericMessage, Numeric;
    ChannelReplyPrints(a, "366", name, "End of /NAMES list");
    NumericCompletes(st, id, "366", One(name), "End of /NAMES list");
  }

  lemma QuietAccount(a: State, b: State, id: int)
    requires Quiet(a, b) && id in a.users
    ensures id in b.users && b.users[id].account == a.users[id].account
  {
  }

  /**
   * The whole NAMES reply is sent exactly when its end marker has room and each
   * displayed member has room in a line of its own, in whatever order they are
   * walked and however many there are.
   */
  lemma SendNamesCompletes(st: State, id: int, key: string)
    requires Inv(st) && id in st.users && key in st.channels
    ensures SendNames(st, id, key).Done? <==> NamesFit(st, id, key)
  {
    var ch, a := st.channels[key], st.users[id].account;
    var m := NumericMessage(a, "353", ["=", ch.name], "");
    hide Inv, ValidMiddle, Serialize, NumericMessage, SendNames, SendPayloads, Numeric, DisplayedNames, Displayed,
      ReplyTarget, Enumerates, Quiet;
    QueryHead(st, id, key);
    EmptyNamesPrints(a, ch.name);
    if Serialize(m).Success? {
      var empty := Serialize(m).value;
      var ids := st.walk(ch.members);
      WalkEnumerates(st.walk, ch.members);
      NamesUnfolded(st, id, key, empty);
      NamesReply(st, id, key, ids, empty);
      var budget := MAX_MESSAGE_LENGTH - |empty|;
      EveryNameFits(st, key, ids, budget);
      var payloads := Names.Pack("", DisplayedNames(st, ch, ids), budget);
      var r := SendPayloads(st, id, ch.name, payloads);
      SendPayloadsQuiet(st, id, ch.name, payloads);
      QuietAccount(st, r.st, id);
      EndMarkerPrints(r.st, id, ch.name);
    } else {
      NamesNeedHead(st, id, key);
    }
  }

  lemma NamesNeedHead(st: State, id: int, key: string)
    requires id in st.users && key in st.channels
    requires Serialize(NumericMessage(st.users[id].account, "353", ["=", st.channels[key].name], "")).Failure?
    ensures SendNames(st, id, key).Threw?
  {
    hide Serialize, SendPayloads, Numeric, DisplayedNames;
  }

  // ------------------------------------------------------------------
  // JOIN
  // ------------------------------------------------------------------

  /** Room for the announcement of a JOIN. */
  predicate AnnouncementFits(a: Account, name: string) {
    CleanPrefix(PrefixOf(a)) && 10 + |PrefixOf(a)| + |name| <= MAX_MESSAGE_LENGTH
  }

  /** Room for the topic, or for saying that there is none. */
  predicate TopicFits(a: Account, name: string, topic: string) {
    && LineSafe(topic)
    && 23 + |ReplyTarget(a)| + |name| + (if topic == "" then 15 else |topic|) <= MAX_MESSAGE_LENGTH
  }

  lemma JoinLinePrints(a: Account, name: string)
    requires ValidMiddle(name)
    ensures Serialize(IrcMessage("JOIN", [name], PrefixOf(a), true)).Success? <==> AnnouncementFits(a, name)
  {
    assert PrefixOf(a) != "" by { PrefixHasMark(a); }
    var m := IrcMessage("JOIN", [name], PrefixOf(a), true);
    assert ValidCommand("JOIN");
    hide PrefixOf, LineSafe, Serialize, ValidPrefix, ValidCommand, NeedsTrailingMarker;
    PrintsExactly(m);
  }

  lemma TopicReplyPrints(st: State, id: int, key: string)
    requires id in st.users && key in st.channels
    requires ValidMiddle(ReplyTarget(st.users[id].account)) && ValidMiddle(st.channels[key].name)
    ensures SendTopic(st, id, key).Done? <==>
              TopicFits(st.users[id].account, st.channels[key].name, st.channels[key].topic)
  {
    var a, ch := st.users[id].account, st.channels[key];
    assert LineSafe("No topic is set") && LineSafe("");
    ReplyCodes();
    hide LineSafe, ReplyTarget, NeedsTrailingMarker, ValidCommand, Serialize, NumericMessage, Numeric;
    ChannelReplyPrints(a, "331", ch.name, "No topic is set");
    ChannelReplyPrints(a, "332", ch.name, ch.topic);
    NumericCompletes(st, id, "331", One(ch.name), "No topic is set");
    NumericCompletes(st, id, "332", One(ch.name), ch.topic);
  }

  /** Room for everything that a JOIN sends, seen from the state it has entered. */
  ghost predicate RepliesFit(st: State, id: int, key: string)
    requires id in st.users && key in st.channels
  {
    var a, ch := st.users[id].account, st.channels[key];
    AnnouncementFits(a, ch.name) && TopicFits(a, ch.name, ch.topic) && NamesFit(st, id, key)
  }

  lemma QuietNames(a: State, b: State, id: int, key: string)
    requires Quiet(a, b) && id in a.users && key in a.channels
    ensures id in b.users && b.users[id].account == a.users[id].account && b.channels == a.channels && Inv(b)
    ensures NamesFit(a, id, key) <==> NamesFit(b, id, key)
  {
    hide Inv, Follows;
    assert forall member :: member in a.users ==>
             Displayed(b, a.channels[key], member) == Displayed(a, a.channels[key], member);
  }

  lemma JoinRepliesComplete(st: State, id: int, key: string)
    requires Inv(st) && id in st.users && key in st.channels
    ensures JoinReplies(st, id, key).Done? <==> RepliesFit(st, id, key)
  {
    var a, ch := st.users[id].account, st.channels[key];
    hide Inv, Quiet, Serialize, SendTopic, SendNames, TopicFits, AnnouncementFits, NamesFit, ValidMiddle, ReplyTarget,
      PrefixOf, Broadcast;
    QueryHead(st, id, key);
    JoinLinePrints(a, ch.name);
    var m := JoinMessage(st, id, key);
    var r1 := Say(st, ch.members, m);
    SayQuiet(st, ch.members, m);
    QuietNames(st, r1.st, id, key);
    TopicReplyPrints(r1.st, id, key);
    var r2 := SendTopic(r1.st, id, key);
    SendTopicQuiet(r1.st, id, key);
    QuietNames(r1.st, r2.st, id, key);
    SendNamesCompletes(r2.st, id, key);
  }

  /** The channel that a JOIN finds, or will create. */
  function Found(st: State, name: string): Chan {
    if Normalize(name) in st.channels then st.channels[Normalize(name)] else NewChan(name)
  }

  /**
   * The same, seen before the JOIN: the announcement and the topic have room,
   * and so have the end marker, the newcomer and every member in a line of its own.
   */
  ghost predicate JoinFits(st: State, id: int, name: string)
    requires id in st.users
  {
    var a, ch := st.users[id].account, Found(st, name);
    var overhead := 25 + |ReplyTarget(a)| + |ch.name|;
    && AnnouncementFits(a, ch.name) && TopicFits(a, ch.name, ch.topic)
    && overhead + 16 <= MAX_MESSAGE_LENGTH
    && overhead + |a.nick| + (if ch.members == {} then 1 else 0) <= MAX_MESSAGE_LENGTH
    && forall member :: member in ch.members && member in st.users ==>
         overhead + |Displayed(st, ch, member)| <= MAX_MESSAGE_LENGTH
  }

  /** The entered channel, and the accounts, which are as they were. */
  lemma EnteredChannel(st: State, id: int, name: string)
    requires Inv(st) && id in st.users && ValidChannelName(name) && id !in Found(st, name).members
    ensures var key, st0 := Normalize(name), FindOrCreate(st, name);
            && key in st0.channels && st0.users == st.users
            && Found(st, name).operators <= Found(st, name).members
            && var st1 := Enter(st0, id, key);
               && st1.users.Keys == st.users.Keys
               && st1.channels[key] == Admit(Found(st, name), id)
               && forall i :: i in st.users ==> st1.users[i].account == st.users[i].account
  {
    var key := Normalize(name);
    if key in st.channels {
      assert ChanOk(st.channels[key], key, st.users);
    }
    hide Inv, Normalize, ValidChannelName;
  }

  lemma EnteredNames(st: State, st1: State, id: int, key: string, ch: Chan)
    requires id in st.users && id !in ch.members && ch.operators <= ch.members
    requires st1.users.Keys == st.users.Keys && key in st1.channels && st1.channels[key] == Admit(ch, id)
    requires forall i :: i in st.users ==> st1.users[i].account == st.users[i].account
    ensures var a := st.users[id].account;
            var overhead := 25 + |ReplyTarget(a)| + |ch.name|;
            NamesFit(st1, id, key) <==>
              && overhead + 16 <= MAX_MESSAGE_LENGTH
              && overhead + |a.nick| + (if ch.members == {} then 1 else 0) <= MAX_MESSAGE_LENGTH
              && forall member :: member in ch.members && member in st.users ==>
                   overhead + |Displayed(st, ch, member)| <= MAX_MESSAGE_LENGTH
  {
    DisplayedAfter(st, st1, ch, id);
    AdmitMembers(ch, id);
    hide Displayed, Admit, ReplyTarget;
  }

  lemma EnteredFits(st: State, id: int, name: string)
    requires Inv(st) && id in st.users && ValidChannelName(name)
    requires id !in Found(st, name).members
    ensures var key := Normalize(name);
            && key in FindOrCreate(st, name).channels && id in FindOrCreate(st, name).users
            && (RepliesFit(Enter(FindOrCreate(st, name), id, key), id, key) <==> JoinFits(st, id, name))
  {
    var key, ch := Normalize(name), Found(st, name);
    hide Inv, Normalize, ValidChannelName, Found, FindOrCreate, Enter, PrefixOf, ReplyTarget, AnnouncementFits,
      TopicFits, NamesFit, Displayed, Admit;
    EnteredChannel(st, id, name);
    var st1 := Enter(FindOrCreate(st, name), id, key);
    AdmitMembers(ch, id);
    EnteredNames(st, st1, id, key, ch);
  }

  lemma AdmitMembers(ch: Chan, id: int)
    ensures Admit(ch, id).members == ch.members + {id} && Admit(ch, id).name == ch.name
            && Admit(ch, id).topic == ch.topic
  {
  }

  lemma DisplayedAfter(a: State, b: State, ch: Chan, id: int)
    requires b.users.Keys == a.users.Keys && id in a.users && id !in ch.members && ch.operators <= ch.members
    requires forall i :: i in a.users ==> b.users[i].account == a.users[i].account
    ensures forall i :: i in ch.members && i in a.users ==> Displayed(b, Admit(ch, id), i) == Displayed(a, ch, i)
    ensures |Displayed(b, Admit(ch, id), id)| == |a.users[id].account.nick| + (if ch.members == {} then 1 else 0)
  {
  }

  /**
   * For a client that is let in: its JOIN completes exactly when everything it
   * sends has room. One member whose name is too long ends it for everybody.
   */
  lemma JoinCompletes(st: State, id: int, name: string, providedKey: string)
    requires Inv(st) && id in st.users && st.users[id].account.registered && Admits(st, id, name, providedKey)
    ensures JoinOne(st, id, name, providedKey).Done? <==> JoinFits(st, id, name)
  {
    var key := Normalize(name);
    var st0 := FindOrCreate(st, name);
    assert st0.channels[key] == Found(st, name);
    assert st0.users == st.users;
    hide Inv, Enterable, JoinFits, JoinOne, JoinReplies, Enter, Denial, ValidChannelName, Normalize, RepliesFit,
      FindOrCreate;
    FindOrCreateEnterable(st, name);
    EnterKeeps(st0, id, key);
    EnteredFits(st, id, name);
    JoinRuns(st, id, name, providedKey);
    JoinRepliesComplete(Enter(st0, id, key), id, key);
  }
}
