// Every command, completed or abandoned by an exception, keeps the invariant,
// sets no client back, and leaves no member without its channel replay.
module CommandLaws {
  import opened Results
  import opened IrcCasemap
  import opened Codec
  import opened CommaList
  import opened ChannelModes
  import ModeLaws
  import UserLimit
  import opened ServerState
  import opened Primitives
  import opened Membership
  import opened ChannelLog
  import opened Commands

  // ------------------------------------------------------------------
  // What is kept
  // ------------------------------------------------------------------

  /** A connected member has been shown every channel it is in. */
  ghost predicate Marked(u: User) {
    u.out.closing || u.joined <= u.marks.Keys
  }

  /** Nobody but `loose`, and the bot, loses a replay. */
  ghost predicate MarksKept(a: State, b: State, loose: int) {
    forall id :: id in a.users && id in b.users && id != loose && !Virtual(id) && Marked(a.users[id]) ==>
      Marked(b.users[id])
  }

  ghost predicate Keeps(a: State, b: State, loose: int) {
    Inv(b) && Follows(a, b) && MarksKept(a, b, loose)
  }

  /** Only output happened: the same registry, accounts, memberships and marks. */
  ghost predicate Quiet(a: State, b: State) {
    && Inv(b) && Follows(a, b) && SameRegistry(a, b)
    && forall id :: id in a.users ==>
         && b.users[id].account == a.users[id].account
         && b.users[id].joined == a.users[id].joined
         && b.users[id].marks == a.users[id].marks
  }

  lemma KeepsTrans(a: State, b: State, c: State, loose: int)
    requires Keeps(a, b, loose) && Keeps(b, c, loose)
    ensures Keeps(a, c, loose)
  {
    hide Inv, Marked, UserFollows;
    FollowsTrans(a, b, c);
    hide Follows;
  }

  lemma KeepsMore(a: State, b: State, loose: int)
    requires Keeps(a, b, BOT)
    ensures Keeps(a, b, loose)
  {
  }

  lemma KeepsSelf(st: State)
    requires Inv(st)
    ensures Keeps(st, st, BOT) && Quiet(st, st)
  {
  }

  lemma QuietTrans(a: State, b: State, c: State)
    requires Quiet(a, b) && Quiet(b, c)
    ensures Quiet(a, c)
  {
  }

  lemma QuietKeeps(a: State, b: State)
    requires Quiet(a, b)
    ensures Keeps(a, b, BOT)
  {
  }

  /** A change that touches neither memberships nor marks of anyone. */
  lemma SteadyKeeps(a: State, b: State)
    requires Inv(b) && Follows(a, b)
    requires forall id :: id in a.users ==>
               b.users[id].joined == a.users[id].joined && b.users[id].marks == a.users[id].marks
    ensures Keeps(a, b, BOT)
  {
  }

  // ------------------------------------------------------------------
  // Output
  // ------------------------------------------------------------------

  lemma SayQuiet(st: State, to: set<int>, m: IrcMessage)
    requires Inv(st)
    ensures Quiet(st, Say(st, to, m).st)
  {
    hide Inv, Serialize, Follows;
    match Serialize(m)
    case Failure(_) => KeepsSelf(st);
    case Success(line) => BroadcastKeeps(st, to, line);
  }

  /** Every numeric reply to a client is quiet, whatever it says. */
  lemma NumericsQuiet(st: State, id: int)
    requires Inv(st) && id in st.users
    ensures forall code, params, trailing :: Quiet(st, Numeric(st, id, code, params, trailing).st)
    ensures forall code, params :: Quiet(st, NumericPlain(st, id, code, params).st)
  {
    hide Inv, Quiet, Say;
    forall code, params, trailing
      ensures Quiet(st, Numeric(st, id, code, params, trailing).st)
    {
      SayQuiet(st, {id}, NumericMessage(st.users[id].account, code, params, trailing));
    }
    forall code, params
      ensures Quiet(st, NumericPlain(st, id, code, params).st)
    {
      SayQuiet(st, {id}, IrcMessage(code, [ReplyTarget(st.users[id].account)] + params, SERVER_NAME, false));
    }
  }

  /** Every refusal sent to a client keeps everything. */
  lemma RefusalsKeep(st: State, id: int)
    requires Inv(st) && id in st.users
    ensures forall code, params, trailing :: Keeps(st, Numeric(st, id, code, params, trailing).st, BOT)
    ensures forall code, params :: Keeps(st, NumericPlain(st, id, code, params).st, BOT)
    ensures forall command :: Keeps(st, MissingParams(st, id, command).st, BOT)
    ensures Keeps(st, st, BOT)
  {
    hide Inv, Quiet, Keeps, Numeric, NumericPlain;
    NumericsQuiet(st, id);
    KeepsSelf(st);
    forall code, params, trailing
      ensures Keeps(st, Numeric(st, id, code, params, trailing).st, BOT)
    {
      QuietKeeps(st, Numeric(st, id, code, params, trailing).st);
    }
    forall code, params
      ensures Keeps(st, NumericPlain(st, id, code, params).st, BOT)
    {
      QuietKeeps(st, NumericPlain(st, id, code, params).st);
    }
  }

  lemma SayKeeps(st: State, to: set<int>, m: IrcMessage)
    requires Inv(st)
    ensures Keeps(st, Say(st, to, m).st, BOT)
  {
    hide Inv, Quiet, Keeps, Say;
    SayQuiet(st, to, m);
    QuietKeeps(st, Say(st, to, m).st);
  }

  lemma SayAfter(a: State, st: State, to: set<int>, m: IrcMessage, loose: int)
    requires Inv(st) && Keeps(a, st, loose)
    ensures Keeps(a, Say(st, to, m).st, loose) && Inv(Say(st, to, m).st)
  {
    hide Inv, Say;
    SayKeeps(st, to, m);
    assert Inv(Say(st, to, m).st);
    hide Keeps;
    KeepsMore(st, Say(st, to, m).st, loose);
    KeepsTrans(a, st, Say(st, to, m).st, loose);
  }

  // ------------------------------------------------------------------
  // Registration
  // ------------------------------------------------------------------

  lemma AccountSteady(st: State, id: int, a: Account)
    requires Inv(st) && id in st.users
    requires AccountOk(st.password, id, a)
    requires a.nick == st.users[id].account.nick && a.nickGiven == st.users[id].account.nickGiven
    requires AccountFollows(st.users[id].account, a)
    ensures Keeps(st, WithAccount(st, id, a), BOT) && Inv(WithAccount(st, id, a))
  {
    hide Inv, AccountOk, AccountFollows, Keeps;
    AccountKeeps(st, id, a);
    SteadyKeeps(st, WithAccount(st, id, a));
  }

  lemma RealAccountOk(st: State, id: int)
    requires Inv(st) && id in st.users
    ensures AccountOk(st.password, id, st.users[id].account)
  {
  }

  lemma NumericIs(st: State, id: int, code: string, params: seq<string>, trailing: string)
    requires id in st.users
    ensures Numeric(st, id, code, params, trailing) ==
            Say(st, {id}, NumericMessage(st.users[id].account, code, params, trailing))
  {
  }

  lemma NumericAfter(a: State, st: State, id: int, code: string, params: seq<string>, trailing: string, loose: int)
    requires Inv(st) && Keeps(a, st, loose) && id in st.users
    ensures Keeps(a, Numeric(st, id, code, params, trailing).st, loose)
    ensures Inv(Numeric(st, id, code, params, trailing).st)
  {
    hide Inv, Keeps, Numeric, Say, NumericMessage;
    NumericIs(st, id, code, params, trailing);
    SayAfter(a, st, {id}, NumericMessage(st.users[id].account, code, params, trailing), loose);
  }

  lemma NumericPlainAfter(a: State, st: State, id: int, code: string, params: seq<string>, loose: int)
    requires Inv(st) && Keeps(a, st, loose) && id in st.users
    ensures Keeps(a, NumericPlain(st, id, code, params).st, loose)
    ensures Inv(NumericPlain(st, id, code, params).st)
  {
    hide Inv, Keeps, Say;
    SayAfter(a, st, {id},
             IrcMessage(code, [ReplyTarget(st.users[id].account)] + params, SERVER_NAME, false), loose);
  }

  lemma PassAccountOk(password: string, id: int, a: Account, offered: string)
    requires AccountOk(password, id, a) && !a.registered && !Virtual(id)
    ensures var b := a.(passOk := offered == password, offered := offered);
            AccountOk(password, id, b) && AccountFollows(a, b)
  {
  }

  lemma PassKeeps(st: State, id: int, params: seq<string>)
    requires Inv(st) && id in st.users && !Virtual(id) && |params| >= 1
    ensures Keeps(st, Pass(st, id, params).st, BOT)
  {
    hide Inv, Keeps, Numeric, AccountOk, AccountFollows;
    RefusalsKeep(st, id);
    var a := st.users[id].account;
    if !a.registered {
      RealAccountOk(st, id);
      PassAccountOk(st.password, id, a, params[0]);
      var st1 := WithAccount(st, id, a.(passOk := params[0] == st.password, offered := params[0]));
      AccountSteady(st, id, st1.users[id].account);
      NumericAfter(st, st1, id, "464", [], "Password incorrect", BOT);
    }
  }

  lemma UserAccountOk(password: string, id: int, a: Account, username: string, realname: string)
    requires AccountOk(password, id, a) && !a.registered && username != ""
    ensures var b := a.(username := username, realname := realname, userGiven := true);
            AccountOk(password, id, b) && AccountFollows(a, b)
  {
  }

  lemma UserCommandKeeps(st: State, id: int, params: seq<string>)
    requires Inv(st) && id in st.users && |params| >= 4
    ensures Keeps(st, UserCommand(st, id, params).st, BOT)
  {
    hide Inv, Keeps, Numeric, MissingParams, AccountOk, AccountFollows;
    RefusalsKeep(st, id);
    var a := st.users[id].account;
    if !a.registered && params[0] != "" && params[3] != "" {
      RealAccountOk(st, id);
      UserAccountOk(st.password, id, a, params[0], params[3]);
      AccountSteady(st, id, a.(username := params[0], realname := params[3], userGiven := true));
    }
  }

  lemma AssignNickFrame(st: State, id: int, nick: string)
    requires id in st.users && AssignNick(st, id, nick).Some?
    ensures var after := AssignNick(st, id, nick).value;
            after.users == WithUser(st, id, Renamed(st.users[id], nick)).users && after.channels == st.channels
  {
    hide Normalize;
  }

  lemma AssignNickSteady(st: State, id: int, nick: string)
    requires Inv(st) && id in st.users && ValidNick(nick)
    requires AssignNick(st, id, nick).Some?
    ensures Keeps(st, AssignNick(st, id, nick).value, BOT) && Inv(AssignNick(st, id, nick).value)
  {
    hide Inv, Keeps, AssignNick, ValidNick, Follows;
    AssignNickFrame(st, id, nick);
    AssignNickKeeps(st, id, nick);
    SteadyKeeps(st, AssignNick(st, id, nick).value);
  }

  lemma NickKeeps(st: State, id: int, params: seq<string>)
    requires Inv(st) && id in st.users && |params| >= 1
    ensures Keeps(st, Nick(st, id, params).st, BOT)
  {
    hide Inv, Keeps, Numeric, Say, AssignNick, ValidNick, PrefixOf, Related;
    RefusalsKeep(st, id);
    var nick := params[0];
    if ValidNick(nick) && AssignNick(st, id, nick).Some? {
      var st1 := AssignNick(st, id, nick).value;
      AssignNickSteady(st, id, nick);
      NickUsers(st, id, nick);
      SayAfter(st, st1, {id} + Related(st1, id),
               IrcMessage("NICK", [nick], PrefixOf(st.users[id].account), true), BOT);
    }
  }

  lemma NickUsers(st: State, id: int, nick: string)
    requires id in st.users && AssignNick(st, id, nick).Some?
    ensures AssignNick(st, id, nick).value.users.Keys == st.users.Keys
  {
  }

  lemma RegisteredAccountOk(password: string, id: int, a: Account)
    requires AccountOk(password, id, a) && !a.registered && a.passOk && a.nickGiven && a.userGiven
    ensures var b := a.(registered := true, welcomes := a.welcomes + 1);
            AccountOk(password, id, b) && AccountFollows(a, b)
  {
  }

  lemma WelcomeAfter(a: State, st: State, id: int)
    requires Inv(st) && Keeps(a, st, BOT) && id in st.users
    ensures Keeps(a, Welcome(st, id).st, BOT)
  {
    hide Inv, Keeps, Numeric, NumericPlain, PrefixOf;
    var r1 := Numeric(st, id, "001", [], "Welcome to the IRC Network " + PrefixOf(st.users[id].account));
    NumericAfter(a, st, id, "001", [], "Welcome to the IRC Network " + PrefixOf(st.users[id].account), BOT);
    var r2 := Numeric(r1.st, id, "002", [], "Your host is " + SERVER_NAME);
    NumericAfter(a, r1.st, id, "002", [], "Your host is " + SERVER_NAME, BOT);
    var r3 := Numeric(r2.st, id, "003", [], "This server was created today");
    NumericAfter(a, r2.st, id, "003", [], "This server was created today", BOT);
    var r4 := NumericPlain(r3.st, id, "004", [SERVER_NAME, "1.0", "o", "itkol"]);
    NumericPlainAfter(a, r3.st, id, "004", [SERVER_NAME, "1.0", "o", "itkol"], BOT);
    NumericAfter(a, r4.st, id, "005",
                 ["CHANTYPES=#", "PREFIX=(o)@", "CHANMODES=,k,l,it", "CASEMAPPING=rfc1459"],
                 "are supported by this server", BOT);
  }

  lemma TryRegisterAfter(a: State, st: State, id: int)
    requires Inv(st) && Keeps(a, st, BOT) && id in st.users
    ensures Keeps(a, TryRegister(st, id).st, BOT)
  {
    hide Inv, Keeps, Welcome, AccountOk, AccountFollows;
    var before := st.users[id].account;
    if !before.registered && before.passOk && before.nickGiven && before.userGiven {
      var after := before.(registered := true, welcomes := before.welcomes + 1);
      RealAccountOk(st, id);
      RegisteredAccountOk(st.password, id, before);
      AccountSteady(st, id, after);
      KeepsTrans(a, st, WithAccount(st, id, after), BOT);
      WelcomeAfter(a, WithAccount(st, id, after), id);
    }
  }

  // ------------------------------------------------------------------
  // Topics and names
  // ------------------------------------------------------------------

  lemma NumericQuiet(st: State, id: int, code: string, params: seq<string>, trailing: string)
    requires Inv(st) && id in st.users
    ensures Quiet(st, Numeric(st, id, code, params, trailing).st)
  {
    hide Inv, Quiet, Numeric, NumericPlain;
    NumericsQuiet(st, id);
  }

  lemma SendTopicQuiet(st: State, id: int, key: string)
    requires Inv(st) && id in st.users && key in st.channels
    ensures Quiet(st, SendTopic(st, id, key).st)
  {
    hide Inv, Quiet, Numeric;
    var ch := st.channels[key];
    NumericQuiet(st, id, "331", One(ch.name), "No topic is set");
    NumericQuiet(st, id, "332", One(ch.name), ch.topic);
  }

  lemma QuietInv(a: State, b: State)
    requires Quiet(a, b)
    ensures Inv(b) && SameRegistry(a, b)
  {
  }

  lemma {:induction false} SendPayloadsQuiet(st: State, id: int, name: string, payloads: seq<string>)
    requires Inv(st) && id in st.users
    ensures Quiet(st, SendPayloads(st, id, name, payloads).st)
    decreases |payloads|
  {
    hide Inv, Quiet, Numeric;
    if payloads == [] {
      KeepsSelf(st);
    } else {
      var r := Numeric(st, id, "353", ["=", name], payloads[0]);
      NumericQuiet(st, id, "353", ["=", name], payloads[0]);
      if r.Done? {
        QuietInv(st, r.st);
        SendPayloadsQuiet(r.st, id, name, payloads[1..]);
        QuietTrans(st, r.st, SendPayloads(r.st, id, name, payloads[1..]).st);
      }
    }
  }

  lemma SendNamesQuiet(st: State, id: int, key: string)
    requires Inv(st) && id in st.users && key in st.channels
    ensures Quiet(st, SendNames(st, id, key).st)
  {
    hide Inv, Quiet, Numeric, SendPayloads, Serialize, DisplayedNames, NumericMessage;
    KeepsSelf(st);
    var ch := st.channels[key];
    match Serialize(NumericMessage(st.users[id].account, "353", ["=", ch.name], ""))
    case Failure(_) =>
    case Success(empty) =>
      if |empty| <= MAX_MESSAGE_LENGTH {
        var payloads := Names.Pack("", DisplayedNames(st, ch, st.walk(ch.members)), MAX_MESSAGE_LENGTH - |empty|);
        var r := SendPayloads(st, id, ch.name, payloads);
        SendPayloadsQuiet(st, id, ch.name, payloads);
        if r.Done? {
          QuietInv(st, r.st);
          NumericQuiet(r.st, id, "366", One(ch.name), "End of /NAMES list");
          QuietTrans(st, r.st, Numeric(r.st, id, "366", One(ch.name), "End of /NAMES list").st);
        }
      }
  }

  lemma JoinRepliesQuiet(st: State, id: int, key: string)
    requires Inv(st) && id in st.users && key in st.channels
    ensures Quiet(st, JoinReplies(st, id, key).st)
  {
    hide Inv, Quiet, Say, SendTopic, SendNames, JoinMessage;
    var r1 := Say(st, st.channels[key].members, JoinMessage(st, id, key));
    SayQuiet(st, st.channels[key].members, JoinMessage(st, id, key));
    if r1.Done? {
      QuietInv(st, r1.st);
      var r2 := SendTopic(r1.st, id, key);
      SendTopicQuiet(r1.st, id, key);
      QuietTrans(st, r1.st, r2.st);
      if r2.Done? {
        QuietInv(st, r2.st);
        SendNamesQuiet(r2.st, id, key);
        QuietTrans(st, r2.st, SendNames(r2.st, id, key).st);
      }
    }
  }

  // ------------------------------------------------------------------
  // The bot
  // ------------------------------------------------------------------

  lemma BotTextQuiet(st: State, to: set<int>, target: string, command: string, text: string)
    requires Inv(st)
    ensures Quiet(st, BotText(st, to, target, command, text).st)
  {
    hide Inv, Quiet, Say, Clip, PrefixOf;
    KeepsSelf(st);
    if BOT in st.users && text != "" {
      var prefix := PrefixOf(st.users[BOT].account);
      SayQuiet(st, to, IrcMessage(command, [target, Clip(prefix, command, target, text)], prefix, true));
    }
  }

  lemma BotTextAfter(a: State, st: State, to: set<int>, target: string, command: string, text: string, loose: int)
    requires Inv(st) && Keeps(a, st, loose)
    ensures Keeps(a, BotText(st, to, target, command, text).st, loose)
  {
    hide Inv, Quiet, Keeps, BotText;
    BotTextQuiet(st, to, target, command, text);
    QuietKeeps(st, BotText(st, to, target, command, text).st);
    KeepsMore(st, BotText(st, to, target, command, text).st, loose);
    KeepsTrans(a, st, BotText(st, to, target, command, text).st, loose);
  }

  lemma EnterMarks(st: State, id: int, key: string)
    requires id in st.users && key in st.channels
    ensures MarksKept(st, Enter(st, id, key), id)
  {
  }

  lemma EnterLoose(st: State, id: int, key: string)
    requires Enterable(st, key) && id in st.users && st.users[id].account.registered
    ensures Keeps(st, Enter(st, id, key), id) && Inv(Enter(st, id, key))
    ensures key in Enter(st, id, key).channels && id in Enter(st, id, key).channels[key].members
  {
    hide Inv, Enterable, Follows, Enter, MarksKept;
    EnterKeeps(st, id, key);
    EnterMarks(st, id, key);
  }

  lemma WithOperatorKeeps(st: State, key: string, id: int)
    requires Inv(st) && key in st.channels && id in st.channels[key].members
    ensures Inv(WithOperator(st, key, id)) && Keeps(st, WithOperator(st, key, id), BOT)
  {
    var ch := st.channels[key].(operators := st.channels[key].operators + {id});
    assert ChanOk(st.channels[key], key, st.users);
    hide Inv, Keeps;
    ChanUpdateKeeps(st, key, ch);
    SteadyKeeps(st, WithChan(st, key, ch));
  }

  /** The bot's own entry, where the channel may have just been created for it. */
  lemma BotJoinKeeps(st: State, key: string, greet: bool)
    requires Enterable(st, key)
    requires Inv(st) || BOT in st.users
    requires BOT in st.users ==> st.users[BOT].account.registered
    ensures Keeps(st, BotJoin(st, key, greet).st, BOT)
  {
    if BOT !in st.users || BOT in st.channels[key].members {
      assert Inv(st);
      hide Inv;
      KeepsSelf(st);
    } else {
      hide Inv, Quiet, Keeps, Say, BotText, Enter, Enterable, JoinMessage, WithOperator, Equal, ChanOk;
      var st1 := Enter(st, BOT, key);
      EnterLoose(st, BOT, key);
      var r := Say(st1, st1.channels[key].members, JoinMessage(st1, BOT, key));
      SayAfter(st, st1, st1.channels[key].members, JoinMessage(st1, BOT, key), BOT);
      if r.Done? {
        var ch := r.st.channels[key];
        var promote := Equal(ch.name, HOME_CHANNEL) && BOT !in ch.operators;
        var st3 := if promote then WithOperator(r.st, key, BOT) else r.st;
        if promote {
          WithOperatorKeeps(r.st, key, BOT);
          KeepsTrans(st, r.st, st3, BOT);
        }
        WithOperatorHas(r.st, key, BOT);
        BotTextAfter(st, st3, st3.channels[key].members, ch.name, "PRIVMSG", BOT_GREETING, BOT);
      }
    }
  }

  lemma WithOperatorHas(st: State, key: string, id: int)
    requires key in st.channels
    ensures key in WithOperator(st, key, id).channels
  {
  }

  lemma HomeChannelName()
    ensures ValidChannelName(HOME_CHANNEL)
  {
  }

  /** A state and the same state with other channels start from the same clients. */
  lemma KeepsFrom(a: State, b: State, c: State, loose: int)
    requires b == a.(channels := b.channels)
    requires Keeps(b, c, loose)
    ensures Keeps(a, c, loose)
  {
  }

  lemma BotRegistered(st: State)
    requires Inv(st)
    ensures BOT in st.users ==> st.users[BOT].account.registered
  {
  }

  lemma BotKickedKeeps(st: State, name: string)
    requires Inv(st)
    ensures Keeps(st, BotKicked(st, name).st, BOT)
  {
    hide Inv, Keeps, BotJoin, Equal, Enterable, ValidChannelName, Normalize;
    KeepsSelf(st);
    if BOT in st.users && Equal(name, HOME_CHANNEL) {
      HomeChannelName();
      FindOrCreateEnterable(st, HOME_CHANNEL);
      BotRegistered(st);
      BotJoinKeeps(FindOrCreate(st, HOME_CHANNEL), Normalize(HOME_CHANNEL), false);
      KeepsFrom(st, FindOrCreate(st, HOME_CHANNEL),
                BotJoin(FindOrCreate(st, HOME_CHANNEL), Normalize(HOME_CHANNEL), false).st, BOT);
    }
  }

  // ------------------------------------------------------------------
  // JOIN and PART
  // ------------------------------------------------------------------

  /** The replay gives the newcomer its mark in the channel it has just entered. */
  lemma JoinMarks(st: State, id: int, key: string, st1: State)
    requires id in st.users && key in st.channels && Normalize(st.channels[key].name) == key
    requires Quiet(Enter(st, id, key), st1)
    requires id !in st.channels[key].members
    requires Follows(st, Replay(st1, id, key))
    ensures MarksKept(st, Replay(st1, id, key), BOT)
  {
  }

  lemma EnterAndReply(st: State, id: int, key: string)
    requires Enterable(st, key) && id in st.users && st.users[id].account.registered && !Virtual(id)
    requires id !in st.channels[key].members && Normalize(st.channels[key].name) == key
    ensures var r := JoinReplies(Enter(st, id, key), id, key);
            && Keeps(st, r.st, id)
            && (r.Done? ==> Keeps(st, Replay(r.st, id, key), BOT))
  {
    var st1 := Enter(st, id, key);
    var r := JoinReplies(st1, id, key);
    EnterLoose(st, id, key);
    hide Inv, Enterable, Quiet, Keeps, JoinReplies, Replay, Enter, MarksKept, Normalize, Follows;
    JoinRepliesQuiet(st1, id, key);
    QuietKeeps(st1, r.st);
    KeepsMore(st1, r.st, id);
    KeepsTrans(st, st1, r.st, id);
    if r.Done? {
      QuietInv(st1, r.st);
      ReplayKeeps(r.st, id, key);
      KeepsFollows(st, r.st, id);
      FollowsTrans(st, r.st, Replay(r.st, id, key));
      JoinMarks(st, id, key, r.st);
      KeepsFromParts(st, Replay(r.st, id, key), BOT);
    }
  }

  lemma KeepsFollows(a: State, b: State, loose: int)
    requires Keeps(a, b, loose)
    ensures Follows(a, b) && Inv(b)
  {
  }

  lemma KeepsFromParts(a: State, b: State, loose: int)
    requires Inv(b) && Follows(a, b) && MarksKept(a, b, loose)
    ensures Keeps(a, b, loose)
  {
  }

  /** A freshly created channel refuses nobody and has no members. */
  lemma FreshChannel(st: State, name: string, id: int, providedKey: string)
    requires Inv(st) && ValidChannelName(name)
    ensures var st0 := FindOrCreate(st, name);
            var ch := st0.channels[Normalize(name)];
            && (id in ch.members || Denial(ch, id, providedKey).Some? ==> st0 == st)
            && Normalize(ch.name) == Normalize(name)
  {
  }

  /** The client is let into the channel, found or created. */
  predicate Admits(st: State, id: int, name: string, providedKey: string) {
    && ValidChannelName(name)
    && var ch := FindOrCreate(st, name).channels[Normalize(name)];
       id !in ch.members && Denial(ch, id, providedKey).None?
  }

  lemma JoinRefused(st: State, id: int, name: string, providedKey: string)
    requires Inv(st) && id in st.users && !Admits(st, id, name, providedKey)
    ensures var r, ch := JoinOne(st, id, name, providedKey), FindOrCreate(st, name).channels[Normalize(name)];
            if !ValidChannelName(name) then r == Numeric(st, id, "403", One(name), "No such channel")
            else if id in ch.members then r == Done(st)
            else
              && Denial(ch, id, providedKey).Some?
              && var refusal := Denial(ch, id, providedKey).value;
                 r == Numeric(st, id, refusal.code, One(ch.name), refusal.text)
  {
    if ValidChannelName(name) {
      FreshChannel(st, name, id, providedKey);
    }
    hide Inv, Numeric, One, Denial, JoinReplies, Replay, Enter, ValidChannelName, Normalize, FindOrCreate;
  }

  lemma JoinRefusedKeeps(st: State, id: int, name: string, providedKey: string)
    requires Inv(st) && id in st.users && !Admits(st, id, name, providedKey)
    ensures var r := JoinOne(st, id, name, providedKey);
            Keeps(st, r.st, BOT) && Keeps(st, r.st, id) && r.st.channels == st.channels
  {
    hide Inv, Keeps, Numeric, JoinOne, Admits;
    JoinRefused(st, id, name, providedKey);
    RefusalsKeepAny(st, id);
    NumericSparesChannels(st, id);
    KeepsMore(st, st, id);
  }

  lemma NumericSparesChannels(st: State, id: int)
    requires id in st.users
    ensures forall code, params, trailing :: Numeric(st, id, code, params, trailing).st.channels == st.channels
  {
    hide Numeric;
  }

  lemma JoinRuns(st: State, id: int, name: string, providedKey: string)
    requires id in st.users && Admits(st, id, name, providedKey)
    ensures var st0, key := FindOrCreate(st, name), Normalize(name);
            var r := JoinReplies(Enter(st0, id, key), id, key);
            JoinOne(st, id, name, providedKey) == if r.Threw? then r else Done(Replay(r.st, id, key))
  {
    hide JoinReplies, Replay, Enter, Denial, ValidChannelName, Normalize;
  }

  /** One JOIN: an exception on the way may only cost the client that caused it its replay. */
  lemma JoinOneKeeps(st: State, id: int, name: string, providedKey: string)
    requires Inv(st) && id in st.users && !Virtual(id) && st.users[id].account.registered
    ensures var r := JoinOne(st, id, name, providedKey);
            Keeps(st, r.st, if r.Threw? then id else BOT)
  {
    hide Inv, Enterable, Keeps, JoinOne, JoinReplies, Replay, Enter, Denial, ValidChannelName, Normalize;
    if Admits(st, id, name, providedKey) {
      var key := Normalize(name);
      var st0 := FindOrCreate(st, name);
      FindOrCreateEnterable(st, name);
      FreshChannel(st, name, id, providedKey);
      JoinRuns(st, id, name, providedKey);
      EnterAndReply(st0, id, key);
      var r := JoinReplies(Enter(st0, id, key), id, key);
      KeepsFrom(st, st0, r.st, id);
      if r.Done? {
        KeepsFrom(st, st0, Replay(r.st, id, key), BOT);
      }
    } else {
      JoinRefusedKeeps(st, id, name, providedKey);
    }
  }

  /** A refusal, or the exception it raised, keeps everything whoever is excused. */
  lemma RefusalsKeepAny(st: State, id: int)
    requires Inv(st) && id in st.users
    ensures forall code, params, trailing :: Keeps(st, Numeric(st, id, code, params, trailing).st, BOT)
    ensures forall code, params, trailing :: Keeps(st, Numeric(st, id, code, params, trailing).st, id)
    ensures forall command :: Keeps(st, MissingParams(st, id, command).st, BOT)
    ensures forall command :: Keeps(st, MissingParams(st, id, command).st, id)
    ensures Keeps(st, st, BOT)
  {
    hide Inv, Keeps, Numeric, MissingParams;
    RefusalsKeep(st, id);
    forall code, params, trailing
      ensures Keeps(st, Numeric(st, id, code, params, trailing).st, id)
    {
      KeepsMore(st, Numeric(st, id, code, params, trailing).st, id);
    }
    forall command
      ensures Keeps(st, MissingParams(st, id, command).st, id)
    {
      KeepsMore(st, MissingParams(st, id, command).st, id);
    }
  }

  lemma StaysRegistered(a: State, b: State, id: int)
    requires Follows(a, b) && id in a.users && a.users[id].account.registered
    ensures id in b.users && b.users[id].account.registered
  {
  }

  lemma {:induction false} JoinAllKeeps(st: State, id: int, names: seq<string>, keys: seq<string>)
    requires Inv(st) && id in st.users && !Virtual(id) && st.users[id].account.registered
    ensures var r := JoinAll(st, id, names, keys);
            Keeps(st, r.st, if r.Threw? then id else BOT)
    decreases |names|
  {
    hide Inv, Keeps, JoinOne, Follows;
    if names == [] {
      KeepsSelf(st);
    } else {
      var r := JoinOne(st, id, names[0], if keys == [] then "" else keys[0]);
      JoinOneKeeps(st, id, names[0], if keys == [] then "" else keys[0]);
      if r.Done? {
        var more := if keys == [] then [] else keys[1..];
        KeepsFollows(st, r.st, BOT);
        StaysRegistered(st, r.st, id);
        JoinAllKeeps(r.st, id, names[1..], more);
        var last := JoinAll(r.st, id, names[1..], more);
        if last.Threw? {
          KeepsMore(st, r.st, id);
          KeepsTrans(st, r.st, last.st, id);
        } else {
          KeepsTrans(st, r.st, last.st, BOT);
        }
      }
    }
  }

  lemma JoinKeeps(st: State, id: int, params: seq<string>)
    requires Inv(st) && id in st.users && !Virtual(id) && st.users[id].account.registered && |params| >= 1
    ensures var r := Join(st, id, params);
            Keeps(st, r.st, if r.Threw? then id else BOT)
  {
    hide Inv, Keeps, JoinAll, SplitCommas, MissingParams;
    RefusalsKeepAny(st, id);
    if params[0] != "" {
      JoinAllKeeps(st, id, SplitCommas(params[0]), if |params| > 1 then SplitCommas(params[1]) else []);
    }
  }

  lemma LeaveMarks(st: State, id: int, key: string)
    requires id in st.users && key in st.channels
    ensures MarksKept(st, Leave(st, id, key), BOT)
  {
  }

  lemma LeaveSteady(st: State, id: int, key: string)
    requires Inv(st) && id in st.users && key in st.channels
    ensures Keeps(st, Leave(st, id, key), BOT) && Inv(Leave(st, id, key))
  {
    hide Inv, Follows, MarksKept, Leave;
    LeaveKeeps(st, id, key);
    LeaveMarks(st, id, key);
  }

  lemma PartOneKeeps(st: State, id: int, name: string, reason: Option<string>)
    requires Inv(st) && id in st.users
    ensures Keeps(st, PartOne(st, id, name, reason).st, BOT)
  {
    hide Inv, Keeps, Numeric, Say, Leave, PrefixOf, Quiet;
    RefusalsKeep(st, id);
    match FindChan(st, name)
    case None =>
    case Some(key) =>
      var ch := st.channels[key];
      if id in ch.members {
        var params := [ch.name] + (if reason.Some? then [reason.value] else []);
        var m := IrcMessage("PART", params, PrefixOf(st.users[id].account), reason.Some?);
        var r := Say(st, ch.members, m);
        SayQuiet(st, ch.members, m);
        QuietKeeps(st, r.st);
        if r.Done? {
          QuietInv(st, r.st);
          LeaveSteady(r.st, id, key);
          KeepsTrans(st, r.st, Leave(r.st, id, key), BOT);
        }
      }
  }

  lemma {:induction false} PartAllKeeps(st: State, id: int, names: seq<string>, reason: Option<string>)
    requires Inv(st) && id in st.users
    ensures Keeps(st, PartAll(st, id, names, reason).st, BOT)
    decreases |names|
  {
    hide Inv, Keeps, PartOne, Follows;
    if names == [] {
      KeepsSelf(st);
    } else {
      var r := PartOne(st, id, names[0], reason);
      PartOneKeeps(st, id, names[0], reason);
      if r.Done? {
        KeepsFollows(st, r.st, BOT);
        PartAllKeeps(r.st, id, names[1..], reason);
        KeepsTrans(st, r.st, PartAll(r.st, id, names[1..], reason).st, BOT);
      }
    }
  }

  lemma PartKeeps(st: State, id: int, params: seq<string>)
    requires Inv(st) && id in st.users && |params| >= 1
    ensures Keeps(st, Part(st, id, params).st, BOT)
  {
    hide Inv, Keeps, PartAll, SplitCommas, MissingParams;
    RefusalsKeepAny(st, id);
    if params[0] != "" {
      PartAllKeeps(st, id, SplitCommas(params[0]), if |params| > 1 then Some(params[1]) else None);
    }
  }
}
