// Who can have a client disconnected: a command flags its own client only by
// QUIT, and anybody at all only by flooding its output buffer (Server.cpp:1445-1477).
module Flagging {
  import opened Results
  import opened IrcCasemap
  import opened Codec
  import opened CommaList
  import opened ChannelModes
  import opened ServerState
  import opened Primitives
  import opened Membership
  import opened ChannelLog
  import opened Commands
  import opened CommandLaws
  import opened DispatchLaws

  // ------------------------------------------------------------------
  // Listening
  // ------------------------------------------------------------------

  /** The disconnect request is as it was, or a first one was made for a full buffer. */
  predicate Heard(o: Output, p: Output) {
    || (p.closing == o.closing && p.reason == o.reason)
    || (!o.closing && p.closing && p.reason == OVERFLOW_REASON)
  }

  ghost predicate AllHeard(a: State, b: State) {
    && b.users.Keys == a.users.Keys
    && forall id :: id in a.users ==> Heard(a.users[id].out, b.users[id].out)
  }

  lemma HeardTrans(a: State, b: State, c: State)
    requires AllHeard(a, b) && AllHeard(b, c)
    ensures AllHeard(a, c)
  {
  }

  lemma HeardNothing(a: State, b: State)
    requires b.users.Keys == a.users.Keys
    requires forall id :: id in a.users ==> b.users[id].out == a.users[id].out
    ensures AllHeard(a, b)
  {
  }

  /** A line of at most 512 bytes never meets the length check of queueMessage. */
  lemma LengthCheckIsIdle(id: int, o: Output, line: string, log: Option<string>)
    requires |line| <= MAX_MESSAGE_LENGTH
    ensures Heard(o, Offer(id, o, line, log))
    ensures Offer(id, o, line, log) ==
              if line == "" || o.closing || Virtual(id) then o
              else if |o.buffer| + |line| > MAX_OUTPUT_BUFFER then o.(closing := true, reason := OVERFLOW_REASON)
              else o.(buffer := o.buffer + line, accepted := o.accepted + [Delivery(line, log)])
  {
  }

  lemma BroadcastHeard(st: State, to: set<int>, line: string, log: Option<string>)
    requires |line| <= MAX_MESSAGE_LENGTH
    ensures AllHeard(st, Broadcast(st, to, line, log))
  {
    hide Offer, Heard;
    forall id | id in st.users
      ensures Heard(st.users[id].out, Broadcast(st, to, line, log).users[id].out)
    {
      LengthCheckIsIdle(id, st.users[id].out, line, log);
      assert Heard(st.users[id].out, st.users[id].out) by { SelfHeard(st.users[id].out); }
    }
  }

  lemma SelfHeard(o: Output)
    ensures Heard(o, o)
  {
  }

  lemma SayHeard(st: State, to: set<int>, m: IrcMessage)
    ensures AllHeard(st, Say(st, to, m).st)
  {
    hide Serialize, Broadcast, AllHeard;
    HeardNothing(st, st);
    if Serialize(m).Success? {
      SerializedFits(m);
      BroadcastHeard(st, to, Serialize(m).value, None);
    }
  }

  /** Every reply, whatever it says. */
  lemma RepliesHeard(st: State, id: int)
    requires id in st.users
    ensures AllHeard(st, st)
    ensures forall code, params, trailing :: AllHeard(st, Numeric(st, id, code, params, trailing).st)
    ensures forall code, params :: AllHeard(st, NumericPlain(st, id, code, params).st)
    ensures forall command :: AllHeard(st, MissingParams(st, id, command).st)
  {
    hide Say, AllHeard;
    HeardNothing(st, st);
    forall code, params, trailing
      ensures AllHeard(st, Numeric(st, id, code, params, trailing).st)
    {
      SayHeard(st, {id}, NumericMessage(st.users[id].account, code, params, trailing));
    }
    forall code, params
      ensures AllHeard(st, NumericPlain(st, id, code, params).st)
    {
      SayHeard(st, {id}, IrcMessage(code, [ReplyTarget(st.users[id].account)] + params, SERVER_NAME, false));
    }
  }

  lemma NumericAfterHeard(a: State, st: State, id: int, code: string, params: seq<string>, trailing: string)
    requires id in st.users && AllHeard(a, st)
    ensures AllHeard(a, Numeric(st, id, code, params, trailing).st)
  {
    hide Numeric, AllHeard;
    RepliesHeard(st, id);
    HeardTrans(a, st, Numeric(st, id, code, params, trailing).st);
  }

  lemma SayAfterHeard(a: State, st: State, to: set<int>, m: IrcMessage)
    requires AllHeard(a, st)
    ensures AllHeard(a, Say(st, to, m).st)
  {
    hide Say, AllHeard;
    SayHeard(st, to, m);
    HeardTrans(a, st, Say(st, to, m).st);
  }

  lemma BotTextAfterHeard(a: State, st: State, to: set<int>, target: string, command: string, text: string)
    requires AllHeard(a, st)
    ensures AllHeard(a, BotText(st, to, target, command, text).st)
  {
    hide Say, AllHeard, Clip, PrefixOf;
    if BOT in st.users {
      var prefix := PrefixOf(st.users[BOT].account);
      SayAfterHeard(a, st, to, IrcMessage(command, [target, Clip(prefix, command, target, text)], prefix, true));
    }
  }

  // ------------------------------------------------------------------
  // Registration
  // ------------------------------------------------------------------

  lemma AccountHeard(st: State, id: int, a: Account)
    requires id in st.users
    ensures AllHeard(st, WithAccount(st, id, a))
  {
  }

  lemma PassHeard(st: State, id: int, params: seq<string>)
    requires id in st.users && |params| >= 1
    ensures AllHeard(st, Pass(st, id, params).st)
  {
    hide Numeric, AllHeard;
    RepliesHeard(st, id);
    var a := st.users[id].account.(passOk := params[0] == st.password, offered := params[0]);
    AccountHeard(st, id, a);
    NumericAfterHeard(st, WithAccount(st, id, a), id, "464", [], "Password incorrect");
  }

  lemma NickHeard(st: State, id: int, params: seq<string>)
    requires id in st.users && |params| >= 1
    ensures AllHeard(st, Nick(st, id, params).st)
  {
    hide Numeric, Say, AssignNick, ValidNick, PrefixOf, Related, One, AllHeard;
    RepliesHeard(st, id);
    if AssignNick(st, id, params[0]).Some? {
      var st1 := AssignNick(st, id, params[0]).value;
      AssignNickFrame(st, id, params[0]);
      HeardNothing(st, st1);
      SayAfterHeard(st, st1, {id} + Related(st1, id),
                    IrcMessage("NICK", [params[0]], PrefixOf(st.users[id].account), true));
    }
  }

  lemma UserHeard(st: State, id: int, params: seq<string>)
    requires id in st.users && |params| >= 4
    ensures AllHeard(st, UserCommand(st, id, params).st)
  {
    hide Numeric, AllHeard;
    RepliesHeard(st, id);
    AccountHeard(st, id, st.users[id].account.(username := params[0], realname := params[3], userGiven := true));
  }

  lemma WelcomeHeard(a: State, st: State, id: int)
    requires id in st.users && AllHeard(a, st)
    ensures AllHeard(a, Welcome(st, id).st)
  {
    hide Numeric, NumericPlain, PrefixOf, AllHeard;
    var r1 := Numeric(st, id, "001", [], "Welcome to the IRC Network " + PrefixOf(st.users[id].account));
    NumericAfterHeard(a, st, id, "001", [], "Welcome to the IRC Network " + PrefixOf(st.users[id].account));
    var r2 := Numeric(r1.st, id, "002", [], "Your host is " + SERVER_NAME);
    NumericAfterHeard(a, r1.st, id, "002", [], "Your host is " + SERVER_NAME);
    var r3 := Numeric(r2.st, id, "003", [], "This server was created today");
    NumericAfterHeard(a, r2.st, id, "003", [], "This server was created today");
    RepliesHeard(r3.st, id);
    var r4 := NumericPlain(r3.st, id, "004", [SERVER_NAME, "1.0", "o", "itkol"]);
    HeardTrans(a, r3.st, r4.st);
    NumericAfterHeard(a, r4.st, id, "005",
                      ["CHANTYPES=#", "PREFIX=(o)@", "CHANMODES=,k,l,it", "CASEMAPPING=rfc1459"],
                      "are supported by this server");
  }

  lemma RegisterHeard(a: State, st: State, id: int)
    requires id in st.users && AllHeard(a, st)
    ensures AllHeard(a, TryRegister(st, id).st)
  {
    hide Welcome, AllHeard;
    var b := st.users[id].account;
    var c := b.(registered := true, welcomes := b.welcomes + 1);
    AccountHeard(st, id, c);
    HeardTrans(a, st, WithAccount(st, id, c));
    WelcomeHeard(a, WithAccount(st, id, c), id);
  }

  // ------------------------------------------------------------------
  // Channels
  // ------------------------------------------------------------------

  lemma MembershipHeard(st: State, id: int, key: string)
    requires id in st.users && key in st.channels
    ensures AllHeard(st, Enter(st, id, key)) && AllHeard(st, Leave(st, id, key))
  {
    hide Normalize;
  }

  lemma ChanHeard(st: State, key: string, ch: Chan)
    ensures AllHeard(st, WithChan(st, key, ch))
  {
  }

  lemma CreateHeard(st: State, name: string)
    ensures AllHeard(st, FindOrCreate(st, name)) && Normalize(name) in FindOrCreate(st, name).channels
  {
  }

  lemma BotJoinHeard(a: State, st: State, key: string, greet: bool)
    requires key in st.channels && AllHeard(a, st)
    ensures AllHeard(a, BotJoin(st, key, greet).st)
  {
    hide AllHeard, Enter, Say, BotText, JoinMessage, Equal;
    if BOT in st.users && BOT !in st.channels[key].members {
      var st1 := Enter(st, BOT, key);
      MembershipHeard(st, BOT, key);
      HeardTrans(a, st, st1);
      var st2 := Say(st1, st1.channels[key].members, JoinMessage(st1, BOT, key)).st;
      SayAfterHeard(a, st1, st1.channels[key].members, JoinMessage(st1, BOT, key));
      var ch := st2.channels[key];
      var st3 := if Equal(ch.name, HOME_CHANNEL) && BOT !in ch.operators then WithOperator(st2, key, BOT) else st2;
      ChanHeard(st2, key, ch.(operators := ch.operators + {BOT}));
      HeardTrans(a, st2, WithOperator(st2, key, BOT));
      BotTextAfterHeard(a, st3, st3.channels[key].members, ch.name, "PRIVMSG", BOT_GREETING);
    }
  }

  lemma BotKickedHeard(a: State, st: State, name: string)
    requires AllHeard(a, st)
    ensures AllHeard(a, BotKicked(st, name).st)
  {
    hide AllHeard, BotJoin, FindOrCreate, Normalize, Equal;
    CreateHeard(st, HOME_CHANNEL);
    HeardTrans(a, st, FindOrCreate(st, HOME_CHANNEL));
    BotJoinHeard(a, FindOrCreate(st, HOME_CHANNEL), Normalize(HOME_CHANNEL), false);
  }

  lemma {:induction false} OfferAllHeard(id: int, o: Output, lines: seq<string>, log: Option<string>)
    requires forall line :: line in lines ==> |line| <= MAX_MESSAGE_LENGTH
    ensures Heard(o, OfferAll(id, o, lines, log))
  {
    hide Offer;
    if lines != [] {
      OfferAllHeard(id, o, lines[..|lines| - 1], log);
      LengthCheckIsIdle(id, OfferAll(id, o, lines[..|lines| - 1], log), lines[|lines| - 1], log);
    }
  }

  lemma StoredLinesFit(history: seq<Entry>)
    requires HistoryOk(history)
    ensures forall line :: line in EntryLines(history) ==> |line| <= MAX_MESSAGE_LENGTH
  {
    forall line | line in EntryLines(history)
      ensures |line| <= MAX_MESSAGE_LENGTH
    {
      var i :| 0 <= i < |history| && history[i].line == line;
      assert history[i] in history;
    }
  }

  lemma SelfHeardAll()
    ensures forall o: Output :: Heard(o, o)
  {
  }

  /** Stored lines were printed once, so a replay cannot meet the length check either. */
  lemma ReplayHeard(st: State, id: int, key: string)
    requires Inv(st) && id in st.users && key in st.channels
    ensures AllHeard(st, Replay(st, id, key))
  {
    var history := st.channels[key].history;
    assert ChanOk(st.channels[key], key, st.users);
    hide Inv, OfferAll, ChanOk, Heard;
    StoredLinesFit(history);
    hide HistoryOk;
    SelfHeardAll();
    OfferAllHeard(id, st.users[id].out, EntryLines(history), Some(key));
  }

  lemma SendTopicHeard(a: State, st: State, id: int, key: string)
    requires id in st.users && key in st.channels && AllHeard(a, st)
    ensures AllHeard(a, SendTopic(st, id, key).st)
  {
    hide Numeric, AllHeard;
    NumericAfterHeard(a, st, id, "331", One(st.channels[key].name), "No topic is set");
    NumericAfterHeard(a, st, id, "332", One(st.channels[key].name), st.channels[key].topic);
  }

  lemma {:induction false} PayloadsHeard(a: State, st: State, id: int, name: string, payloads: seq<string>)
    requires id in st.users && AllHeard(a, st)
    ensures AllHeard(a, SendPayloads(st, id, name, payloads).st)
    decreases |payloads|
  {
    hide Numeric, AllHeard;
    if payloads != [] {
      var r := Numeric(st, id, "353", ["=", name], payloads[0]);
      NumericAfterHeard(a, st, id, "353", ["=", name], payloads[0]);
      if r.Done? {
        PayloadsHeard(a, r.st, id, name, payloads[1..]);
      }
    }
  }

  lemma SendNamesHeard(a: State, st: State, id: int, key: string)
    requires id in st.users && key in st.channels && AllHeard(a, st)
    ensures AllHeard(a, SendNames(st, id, key).st)
  {
    hide Numeric, SendPayloads, Serialize, DisplayedNames, NumericMessage, AllHeard;
    var ch := st.channels[key];
    match Serialize(NumericMessage(st.users[id].account, "353", ["=", ch.name], ""))
    case Failure(_) =>
    case Success(empty) =>
      if |empty| <= MAX_MESSAGE_LENGTH {
        var payloads := Names.Pack("", DisplayedNames(st, ch, st.walk(ch.members)), MAX_MESSAGE_LENGTH - |empty|);
        PayloadsHeard(a, st, id, ch.name, payloads);
        NumericAfterHeard(a, SendPayloads(st, id, ch.name, payloads).st, id, "366", One(ch.name), "End of /NAMES list");
      }
  }

  lemma JoinRepliesHeard(a: State, st: State, id: int, key: string)
    requires id in st.users && key in st.channels && AllHeard(a, st)
    ensures AllHeard(a, JoinReplies(st, id, key).st)
  {
    hide Say, SendTopic, SendNames, JoinMessage, AllHeard;
    var r1 := Say(st, st.channels[key].members, JoinMessage(st, id, key));
    SayAfterHeard(a, st, st.channels[key].members, JoinMessage(st, id, key));
    SendTopicHeard(a, r1.st, id, key);
    SendNamesHeard(a, SendTopic(r1.st, id, key).st, id, key);
  }

  lemma JoinOneHeard(st: State, id: int, name: string, providedKey: string)
    requires Inv(st) && id in st.users && st.users[id].account.registered
    ensures AllHeard(st, JoinOne(st, id, name, providedKey).st)
  {
    hide Inv, Enterable, Quiet, AllHeard, Numeric, JoinOne, JoinReplies, Replay, Enter, Denial, ValidChannelName,
      Normalize, Admits, FindOrCreate, One, Follows;
    if Admits(st, id, name, providedKey) {
      var key, st0 := Normalize(name), FindOrCreate(st, name);
      AdmittedName(st, id, name, providedKey);
      FindOrCreateEnterable(st, name);
      EnterKeeps(st0, id, key);
      CreateHeard(st, name);
      MembershipHeard(st0, id, key);
      HeardTrans(st, st0, Enter(st0, id, key));
      JoinRuns(st, id, name, providedKey);
      JoinRepliesHeard(st, Enter(st0, id, key), id, key);
      JoinRepliesQuiet(Enter(st0, id, key), id, key);
      var r := JoinReplies(Enter(st0, id, key), id, key);
      if r.Done? {
        QuietInv(Enter(st0, id, key), r.st);
        ReplayHeard(r.st, id, key);
        HeardTrans(st, r.st, Replay(r.st, id, key));
      }
    } else {
      RepliesHeard(st, id);
      JoinRefused(st, id, name, providedKey);
    }
  }

  lemma AdmittedName(st: State, id: int, name: string, providedKey: string)
    requires Admits(st, id, name, providedKey)
    ensures ValidChannelName(name)
    ensures FindOrCreate(st, name).users == st.users && Normalize(name) in FindOrCreate(st, name).channels
  {
    hide ValidChannelName, Normalize, Denial;
  }

  lemma {:induction false} JoinAllHeard(st: State, id: int, names: seq<string>, keys: seq<string>)
    requires Inv(st) && id in st.users && !Virtual(id) && st.users[id].account.registered
    ensures AllHeard(st, JoinAll(st, id, names, keys).st)
    decreases |names|
  {
    hide Inv, Keeps, JoinOne, Follows, AllHeard;
    if names == [] {
      HeardNothing(st, st);
    } else {
      var provided, more := if keys == [] then "" else keys[0], if keys == [] then [] else keys[1..];
      var r := JoinOne(st, id, names[0], provided);
      JoinOneHeard(st, id, names[0], provided);
      JoinOneKeeps(st, id, names[0], provided);
      if r.Done? {
        KeepsFollows(st, r.st, BOT);
        StaysRegistered(st, r.st, id);
        JoinAllHeard(r.st, id, names[1..], more);
        HeardTrans(st, r.st, JoinAll(r.st, id, names[1..], more).st);
      }
    }
  }

  lemma DepartureHeard(st: State, id: int, key: string, m: IrcMessage)
    requires id in st.users && key in st.channels
    ensures var r := Say(st, st.channels[key].members, m);
            AllHeard(st, r.st) && AllHeard(st, Leave(r.st, id, key))
  {
    hide AllHeard, Say, Leave;
    var r := Say(st, st.channels[key].members, m);
    SayHeard(st, st.channels[key].members, m);
    MembershipHeard(r.st, id, key);
    HeardTrans(st, r.st, Leave(r.st, id, key));
  }

  lemma PartOneHeard(st: State, id: int, name: string, reason: Option<string>)
    requires id in st.users
    ensures AllHeard(st, PartOne(st, id, name, reason).st)
  {
    hide AllHeard, Numeric, Say, Leave, PrefixOf, FindChan, One, SameRegistry;
    RepliesHeard(st, id);
    FoundChan(st, name);
    if FindChan(st, name).Some? {
      var key := FindChan(st, name).value;
      var params := [st.channels[key].name] + (if reason.Some? then [reason.value] else []);
      DepartureHeard(st, id, key, IrcMessage("PART", params, PrefixOf(st.users[id].account), reason.Some?));
    }
  }

  lemma {:induction false} PartAllHeard(st: State, id: int, names: seq<string>, reason: Option<string>)
    requires id in st.users
    ensures AllHeard(st, PartAll(st, id, names, reason).st)
    decreases |names|
  {
    hide PartOne, AllHeard;
    if names == [] {
      HeardNothing(st, st);
    } else {
      var r := PartOne(st, id, names[0], reason);
      PartOneHeard(st, id, names[0], reason);
      PartAllHeard(r.st, id, names[1..], reason);
      HeardTrans(st, r.st, PartAll(r.st, id, names[1..], reason).st);
    }
  }

  lemma JoinPartHeard(st: State, id: int, params: seq<string>)
    requires Inv(st) && id in st.users && !Virtual(id) && |params| >= 1
    ensures st.users[id].account.registered ==> AllHeard(st, Join(st, id, params).st)
    ensures AllHeard(st, Part(st, id, params).st)
  {
    hide Inv, AllHeard, JoinAll, PartAll, SplitCommas, MissingParams;
    RepliesHeard(st, id);
    if st.users[id].account.registered {
      JoinAllHeard(st, id, SplitCommas(params[0]), if |params| > 1 then SplitCommas(params[1]) else []);
    }
    PartAllHeard(st, id, SplitCommas(params[0]), if |params| > 1 then Some(params[1]) else None);
  }

  lemma InviteTargetHeard(st: State, id: int, target: int, key: string)
    requires id in st.users && key in st.channels
    ensures AllHeard(st, InviteTarget(st, id, target, key).st)
  {
    hide AllHeard, NumericPlain, Say, PrefixOf, BotJoin, NickOfUser;
    var name, nick := st.channels[key].name, NickOfUser(st, target);
    var st1 := WithInvited(st, key, target);
    RepliesHeard(st, id);
    ChanHeard(st, key, st1.channels[key]);
    var st2 := NumericPlain(st1, id, "341", [nick, name]).st;
    RepliesHeard(st1, id);
    HeardTrans(st, st1, st2);
    var m := IrcMessage("INVITE", [nick, name], PrefixOf(st2.users[id].account), true);
    SayAfterHeard(st, st2, {target}, m);
    BotJoinHeard(st, Say(st2, {target}, m).st, key, true);
  }

  lemma InviteHeard(st: State, id: int, params: seq<string>)
    requires id in st.users && |params| >= 2
    ensures AllHeard(st, Invite(st, id, params).st)
  {
    hide AllHeard, Numeric, MissingParams, InviteTarget, FindNick, FindChan, NickOfUser, One;
    RepliesHeard(st, id);
    FoundChan(st, params[1]);
    if MayInvite(st, id, params) {
      InviteTargetHeard(st, id, FindNick(st, params[0]).value, FindChan(st, params[1]).value);
    }
  }

  lemma KickTargetHeard(st: State, id: int, target: int, key: string, reason: string)
    requires id in st.users && target in st.users && key in st.channels
    ensures AllHeard(st, KickTarget(st, id, target, key, reason).st)
  {
    hide AllHeard, Say, PrefixOf, BotKicked, Leave, NickOfUser;
    var ch := st.channels[key];
    var m := IrcMessage("KICK", [ch.name, NickOfUser(st, target), reason], PrefixOf(st.users[id].account), true);
    var st1 := Say(st, ch.members, m).st;
    SayHeard(st, ch.members, m);
    MembershipHeard(st1, target, key);
    HeardTrans(st, st1, Leave(st1, target, key));
    BotKickedHeard(st, Leave(st1, target, key), ch.name);
  }

  lemma RefusedKickHeard(st: State, id: int, params: seq<string>)
    requires id in st.users && |params| >= 2 && !MayKick(st, id, params)
    ensures AllHeard(st, Kick(st, id, params).st)
  {
    hide AllHeard, Numeric, MissingParams, KickTarget, FindNick, FindChan, NickOfUser, One, SameRegistry;
    RepliesHeard(st, id);
    FoundChan(st, params[0]);
  }

  lemma KickHeard(st: State, id: int, params: seq<string>)
    requires id in st.users && |params| >= 2
    ensures AllHeard(st, Kick(st, id, params).st)
  {
    hide AllHeard, Kick, KickTarget, FindNick, FindChan;
    FoundChan(st, params[0]);
    if MayKick(st, id, params) {
      KickRuns(st, id, params);
      KickTargetHeard(st, id, FindNick(st, params[1]).value, FindChan(st, params[0]).value, KickReason(st, id, params));
    } else {
      RefusedKickHeard(st, id, params);
    }
  }

  lemma TopicHeard(st: State, id: int, params: seq<string>, hasTrailing: bool)
    requires id in st.users && |params| >= 1
    ensures AllHeard(st, Topic(st, id, params, hasTrailing).st)
  {
    hide AllHeard, Numeric, MissingParams, Say, SendTopic, PrefixOf, FindChan, One;
    RepliesHeard(st, id);
    FoundChan(st, params[0]);
    if FindChan(st, params[0]).Some? {
      var key := FindChan(st, params[0]).value;
      var ch, topic := st.channels[key], if |params| >= 2 then params[1] else "";
      SendTopicHeard(st, st, id, key);
      ChanHeard(st, key, ch.(topic := topic));
      SayAfterHeard(st, WithTopic(st, key, topic), ch.members,
                    IrcMessage("TOPIC", [ch.name, topic], PrefixOf(st.users[id].account), true));
    }
  }

  lemma ChangeModesHeard(st: State, id: int, key: string, params: seq<string>)
    requires id in st.users && key in st.channels && |params| >= 2
    ensures AllHeard(st, ChangeModes(st, id, key, params).st)
  {
    hide AllHeard, ChangeModes, ValidModes, Say, ModeMessage, Apply;
    match ValidModes(st, key, params)
    case None => RejectedModesHeard(st, id, key, params);
    case Some(valid) =>
      var st1 := ApplyModes(st, key, valid);
      ChangeModesIs(st, id, key, params);
      ChanHeard(st, key, st1.channels[key]);
      SayAfterHeard(st, st1, st.channels[key].members, ModeMessage(st1, id, st.channels[key].name, valid));
  }

  lemma RejectedModesHeard(st: State, id: int, key: string, params: seq<string>)
    requires id in st.users && key in st.channels && |params| >= 2 && ValidModes(st, key, params).None?
    ensures AllHeard(st, ChangeModes(st, id, key, params).st)
  {
    hide AllHeard, ParseModes, Validate, LookupIn, NicksIn, ApplyModes, Say, Numeric, MissingParams, One, SameRegistry;
    RepliesHeard(st, id);
  }

  lemma ModeHeard(st: State, id: int, params: seq<string>)
    requires id in st.users && |params| >= 1
    ensures AllHeard(st, Mode(st, id, params).st)
  {
    hide AllHeard, Numeric, NumericPlain, MissingParams, ChangeModes, QueryFlags, QueryArguments, FindChan, One;
    RepliesHeard(st, id);
    FoundChan(st, params[0]);
    if FindChan(st, params[0]).Some? && |params| >= 2 {
      ChangeModesHeard(st, id, FindChan(st, params[0]).value, params);
    }
  }

  // ------------------------------------------------------------------
  // Messages
  // ------------------------------------------------------------------

  lemma PostHeard(st: State, id: int, key: string, line: string)
    requires key in st.channels && |line| <= MAX_MESSAGE_LENGTH
    ensures AllHeard(st, Post(st, id, key, line))
  {
    hide AllHeard, Broadcast, Stored;
    var st1 := WithChan(st, key, Stored(st.channels[key], id, line));
    ChanHeard(st, key, Stored(st.channels[key], id, line));
    BroadcastHeard(st1, st.channels[key].members - {id}, line, Some(key));
    HeardTrans(st, st1, Post(st, id, key, line));
  }

  lemma ToChannelHeard(st: State, id: int, name: string, text: string, notice: bool, answer: BotAnswer)
    requires id in st.users
    ensures AllHeard(st, MessageToChannel(st, id, name, text, notice, answer).st)
  {
    hide AllHeard, Numeric, Say, BotText, PrefixOf, FindChan, Serialize, Post, One;
    RepliesHeard(st, id);
    FoundChan(st, name);
    if FindChan(st, name).Some? {
      var key := FindChan(st, name).value;
      var ch, prefix := st.channels[key], PrefixOf(st.users[id].account);
      SayHeard(st, ch.members - {id}, IrcMessage("NOTICE", [name, text], prefix, true));
      var m := IrcMessage("PRIVMSG", [name, text], prefix, true);
      if Serialize(m).Success? {
        SerializedFits(m);
        PostHeard(st, id, key, Serialize(m).value);
        BotTextAfterHeard(st, Post(st, id, key, Serialize(m).value), ch.members, ch.name, "PRIVMSG", answer.text);
      }
    }
  }

  lemma ToUserHeard(st: State, id: int, nick: string, text: string, notice: bool, answer: BotAnswer)
    requires id in st.users
    ensures AllHeard(st, MessageToUser(st, id, nick, text, notice, answer).st)
  {
    hide AllHeard, Numeric, Say, BotText, PrefixOf, FindNick, One;
    RepliesHeard(st, id);
    if FindNick(st, nick).Some? {
      var target := FindNick(st, nick).value;
      var m := IrcMessage(if notice then "NOTICE" else "PRIVMSG", [nick, text], PrefixOf(st.users[id].account), true);
      var r := Say(st, {target}, m);
      SayHeard(st, {target}, m);
      BotTextAfterHeard(st, r.st, {id}, r.st.users[id].account.nick,
                        if answer.notice then "NOTICE" else "PRIVMSG", answer.text);
    }
  }

  lemma MessageHeard(st: State, id: int, target: string, text: string, notice: bool, answer: BotAnswer)
    requires id in st.users
    ensures AllHeard(st, Message(st, id, target, text, notice, answer).st)
  {
    hide AllHeard, MessageToUser, MessageToChannel;
    ToUserHeard(st, id, target, text, notice, answer);
    ToChannelHeard(st, id, target, text, notice, answer);
  }

  lemma TalkHeard(st: State, id: int, params: seq<string>)
    requires id in st.users && |params| >= 1
    ensures AllHeard(st, Ping(st, id, params).st) && AllHeard(st, Cap(st, id, params).st)
  {
    hide AllHeard, Say, MissingParams, Upper, ReplyTarget;
    RepliesHeard(st, id);
    var sub, target := Upper(params[0]), ReplyTarget(st.users[id].account);
    SayHeard(st, {id}, IrcMessage("PONG", [params[0]], "", true));
    SayHeard(st, {id}, IrcMessage("CAP", [target, sub, ""], SERVER_NAME, true));
    if |params| >= 2 {
      SayHeard(st, {id}, IrcMessage("CAP", [target, "NAK", params[1]], SERVER_NAME, true));
    }
  }

  // ------------------------------------------------------------------
  // Any line
  // ------------------------------------------------------------------

  /** QUIT flags its own client, and nobody else hears of it yet. */
  lemma QuitFlagsItself(st: State, id: int, params: seq<string>)
    requires id in st.users
    ensures forall other :: other in st.users && other != id ==> Quit(st, id, params).st.users[other] == st.users[other]
    ensures Quit(st, id, params).st.users.Keys == st.users.Keys
  {
  }

  lemma HandleHeard(st: State, id: int, m: IrcMessage, answer: BotAnswer)
    requires Inv(st) && id in st.users && !Virtual(id) && Admitted(st.users[id].account, m) && m.command != "QUIT"
    ensures AllHeard(st, Handle(st, id, m, answer).st)
  {
    hide Inv, AllHeard, Pass, Nick, UserCommand, Ping, Cap, Join, Part, Message, Topic, Invite, Kick, Mode;
    HeardNothing(st, st);
    match m.command
    case "PASS" => PassHeard(st, id, m.params);
    case "NICK" => NickHeard(st, id, m.params);
    case "USER" => UserHeard(st, id, m.params);
    case "PING" => TalkHeard(st, id, m.params);
    case "CAP" => TalkHeard(st, id, m.params);
    case "JOIN" => JoinPartHeard(st, id, m.params);
    case "PART" => JoinPartHeard(st, id, m.params);
    case "PRIVMSG" => MessageHeard(st, id, m.params[0], m.params[1], false, answer);
    case "NOTICE" =>
      if |m.params| >= 2 {
        MessageHeard(st, id, m.params[0], m.params[1], true, answer);
      }
    case "TOPIC" => TopicHeard(st, id, m.params, m.hasTrailing);
    case "INVITE" => InviteHeard(st, id, m.params);
    case "KICK" => KickHeard(st, id, m.params);
    case "MODE" => ModeHeard(st, id, m.params);
    case _ =>
  }

  lemma RefusedHeard(st: State, id: int, m: IrcMessage, answer: BotAnswer)
    requires id in st.users && !Admitted(st.users[id].account, m)
    ensures AllHeard(st, Execute(st, id, m, answer).st)
  {
    hide AllHeard, Numeric, Handle, MissingParams, One, DefinitionOf, SameRegistry;
    RepliesHeard(st, id);
  }

  /** Anything but a QUIT flags clients, its own included, for a full output buffer only. */
  lemma DispatchHeard(st: State, id: int, m: IrcMessage, answer: BotAnswer)
    requires Inv(st) && id in st.users && !Virtual(id) && m.command != "QUIT"
    ensures AllHeard(st, Dispatch(st, id, m, answer).st)
  {
    hide Inv, AllHeard, Execute, TryRegister, Handle, DefinitionOf, Admitted;
    if Admitted(st.users[id].account, m) {
      AdmittedRuns(st, id, m, answer);
      HandleHeard(st, id, m, answer);
    } else {
      RefusedHeard(st, id, m, answer);
    }
    RegisterHeard(st, Execute(st, id, m, answer).st, id);
  }

  /**
   * Whatever one client sends, and whether or not it completes: another client is
   * flagged by it only for a full output buffer; the branch for lines over 512
   * bytes is never taken.
   */
  lemma OthersAreOnlyFlooded(st: State, id: int, m: IrcMessage, answer: BotAnswer, other: int)
    requires Inv(st) && id in st.users && !Virtual(id) && other in st.users && other != id
    ensures Heard(st.users[other].out, Dispatch(st, id, m, answer).st.users[other].out)
  {
    hide Inv, Heard;
    if m.command == "QUIT" {
      QuitHeard(st, id, m, answer, other);
    } else {
      hide Dispatch;
      DispatchHeard(st, id, m, answer);
    }
  }

  lemma QuitHeard(st: State, id: int, m: IrcMessage, answer: BotAnswer, other: int)
    requires id in st.users && other in st.users && other != id && m.command == "QUIT"
    ensures Heard(st.users[other].out, Dispatch(st, id, m, answer).st.users[other].out)
  {
    hide TryRegister, Quit, Heard, AllHeard;
    var r := Quit(st, id, m.params);
    QuitFlagsItself(st, id, m.params);
    assert Execute(st, id, m, answer) == r;
    HeardNothing(r.st, r.st);
    RegisterHeard(r.st, r.st, id);
    assert AllHeard(r.st, TryRegister(r.st, id).st);
    OneHeard(r.st, TryRegister(r.st, id).st, other);
    SelfHeard(st.users[other].out);
  }

  lemma OneHeard(a: State, b: State, id: int)
    requires AllHeard(a, b) && id in a.users
    ensures id in b.users && Heard(a.users[id].out, b.users[id].out)
  {
  }
}
