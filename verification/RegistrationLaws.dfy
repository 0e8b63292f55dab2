// How a client gets in: PASS, NICK and USER in any order and any spelling, the
// welcome, and the gate in front of every other command
// (CommandDispatcher.cpp:80-343, Server.cpp:1123-1179).
module RegistrationLaws {
  import opened Results
  import opened IrcCasemap
  import opened Codec
  import opened CodecLaws
  import opened CommaList
  import opened ChannelModes
  import opened Walks
  import opened ServerState
  import opened Primitives
  import opened Membership
  import opened Commands
  import opened CommandLaws
  import opened DispatchLaws
  import opened RegistryLaws
  import opened ChannelEffects
  import opened EventLoop
  import opened RunLaws

  // ------------------------------------------------------------------
  // One step each
  // ------------------------------------------------------------------

  /** The right password is remembered as right, any other as wrong, with a reply. */
  lemma PassExactly(st: State, id: int, params: seq<string>)
    requires id in st.users && |params| >= 1
    ensures var r, a := Pass(st, id, params), st.users[id].account;
            if a.registered then r == Numeric(st, id, "462", [], "You may not reregister")
            else
              var st1 := WithAccount(st, id, a.(passOk := params[0] == st.password, offered := params[0]));
              r == if params[0] == st.password then Done(st1)
                   else Numeric(st1, id, "464", [], "Password incorrect")
  {
    hide Numeric;
  }

  /** The first parameter is the user name and the fourth the real name; neither may be missing. */
  lemma UserExactly(st: State, id: int, params: seq<string>)
    requires id in st.users && |params| >= 4
    ensures var r, a := UserCommand(st, id, params), st.users[id].account;
            if a.registered then r == Numeric(st, id, "462", [], "You may not reregister")
            else if params[0] == "" || params[3] == "" then r == MissingParams(st, id, "USER")
            else r == Done(WithAccount(st, id, a.(username := params[0], realname := params[3], userGiven := true)))
  {
    hide Numeric, MissingParams;
  }

  /** What a refused NICK is answered. */
  lemma NickRefusedWith(st: State, id: int, params: seq<string>)
    requires Inv(st) && id in st.users && |params| >= 1
    ensures var r, nick := Nick(st, id, params), params[0];
            && (nick == "" ==> r == Numeric(st, id, "431", [], "No nickname given"))
            && (nick != "" && !ValidNick(nick) ==> r == Numeric(st, id, "432", [nick], "Erroneous nickname"))
            && (ValidNick(nick) && Taken(st, id, nick) ==>
                  r == Numeric(st, id, "433", [nick], "Nickname is already in use"))
  {
    hide Inv, Numeric, AssignNick, SayRelated, ValidNick;
    if ValidNick(params[0]) {
      AssignNickRefuses(st, id, params[0]);
      NotEmpty(params[0]);
    }
  }

  lemma NotEmpty(nick: string)
    requires ValidNick(nick)
    ensures nick != ""
  {
  }

  /** The change, as seen by others: from the earlier name. */
  function NickLine(a: Account, nick: string): IrcMessage {
    IrcMessage("NICK", [nick], a.nick + "!" + a.username + "@" + a.host, true)
  }

  /**
   * A NICK that is carried out is told by a registered client to whoever shares a
   * channel with it, under its earlier name; before registration, or when nothing
   * but the spelling could differ and does not, nobody is told.
   */
  lemma NickAnnounced(st: State, id: int, params: seq<string>)
    requires Inv(st) && id in st.users && |params| >= 1 && ValidNick(params[0]) && !Taken(st, id, params[0])
    ensures AssignNick(st, id, params[0]).Some?
    ensures var a, st1 := st.users[id].account, AssignNick(st, id, params[0]).value;
            && id in st1.users
            && Nick(st, id, params) ==
                 if a.registered && a.nick != params[0]
                 then SayRelated(st1, id, NickLine(a, params[0]))
                 else Done(st1)
  {
    hide Inv, Numeric, AssignNick, SayRelated, ValidNick, Taken;
    NotEmpty(params[0]);
    AssignNickRefuses(st, id, params[0]);
    TakenIs(st, id, params[0]);
    NickUsers(st, id, params[0]);
  }

  // ------------------------------------------------------------------
  // The welcome
  // ------------------------------------------------------------------

  /** Lines for one client, one after another. */
  function SayAll(st: State, id: int, ms: seq<IrcMessage>): (r: Outcome)
    decreases |ms|
  {
    if ms == [] then Done(st)
    else
      var st1 :- Say(st, {id}, ms[0]);
      SayAll(st1, id, ms[1..])
  }

  /** The five lines of the welcome, in order. */
  function WelcomeLines(a: Account): seq<IrcMessage> {
    var nick := if a.nick == "" then "*" else a.nick;
    [ IrcMessage("001", [nick, "Welcome to the IRC Network " + a.nick + "!" + a.username + "@" + a.host],
                 "irc.42.local", true),
      IrcMessage("002", [nick, "Your host is irc.42.local"], "irc.42.local", true),
      IrcMessage("003", [nick, "This server was created today"], "irc.42.local", true),
      IrcMessage("004", [nick, "irc.42.local", "1.0", "o", "itkol"], "irc.42.local", false),
      IrcMessage("005", [nick, "CHANTYPES=#", "PREFIX=(o)@", "CHANMODES=,k,l,it", "CASEMAPPING=rfc1459",
                         "are supported by this server"], "irc.42.local", true) ]
  }

  lemma SayKeepsAccount(st: State, id: int, m: IrcMessage)
    requires id in st.users
    ensures var s := Say(st, {id}, m).st; id in s.users && s.users[id].account == st.users[id].account
  {
    hide Serialize, Offer;
  }

  lemma WelcomeTexts(a: Account)
    ensures var ms := WelcomeLines(a);
            && |ms| == 5
            && ms[0] == NumericMessage(a, "001", [], "Welcome to the IRC Network " + PrefixOf(a))
            && ms[1] == NumericMessage(a, "002", [], "Your host is " + SERVER_NAME)
            && ms[2] == NumericMessage(a, "003", [], "This server was created today")
  {
    assert "Welcome to the IRC Network " + PrefixOf(a) ==
           "Welcome to the IRC Network " + a.nick + "!" + a.username + "@" + a.host;
    assert "Your host is " + SERVER_NAME == "Your host is irc.42.local";
    hide PrefixOf;
    assert [ReplyTarget(a)] + [] == [ReplyTarget(a)];
  }

  lemma WelcomeFeatures(a: Account)
    ensures var ms := WelcomeLines(a);
            && |ms| == 5
            && ms[3] == IrcMessage("004", [ReplyTarget(a)] + [SERVER_NAME, "1.0", "o", "itkol"], SERVER_NAME, false)
            && ms[4] == NumericMessage(a, "005",
                                       ["CHANTYPES=#", "PREFIX=(o)@", "CHANMODES=,k,l,it", "CASEMAPPING=rfc1459"],
                                       "are supported by this server")
  {
  }

  lemma NumericSays(st: State, id: int, a: Account, code: string, params: seq<string>, text: string)
    requires id in st.users && st.users[id].account == a
    ensures var r := Numeric(st, id, code, params, text);
            r == Say(st, {id}, NumericMessage(a, code, params, text)) && id in r.st.users && r.st.users[id].account == a
  {
    SayKeepsAccount(st, id, NumericMessage(a, code, params, text));
    hide Say, NumericMessage;
  }

  /** Welcoming is sending these lines until one of them cannot be printed. */
  lemma WelcomeExactly(st: State, id: int)
    requires id in st.users
    ensures Welcome(st, id) == SayAll(st, id, WelcomeLines(st.users[id].account))
  {
    var a := st.users[id].account;
    var ms := WelcomeLines(a);
    WelcomeTexts(a);
    WelcomeFeatures(a);
    hide Say, PrefixOf, NumericMessage, WelcomeLines, Numeric, ReplyTarget;
    NumericSays(st, id, a, "001", [], "Welcome to the IRC Network " + PrefixOf(a));
    var r1 := Say(st, {id}, ms[0]);
    NumericSays(r1.st, id, a, "002", [], "Your host is " + SERVER_NAME);
    var r2 := Say(r1.st, {id}, ms[1]);
    NumericSays(r2.st, id, a, "003", [], "This server was created today");
    var r3 := Say(r2.st, {id}, ms[2]);
    SayKeepsAccount(r3.st, id, ms[3]);
    var r4 := Say(r3.st, {id}, ms[3]);
    NumericSays(r4.st, id, a, "005", ["CHANTYPES=#", "PREFIX=(o)@", "CHANMODES=,k,l,it", "CASEMAPPING=rfc1459"],
                "are supported by this server");
    hide Welcome;
    SayFive(st, id, ms);
    WelcomeChain(st, id, a, ms, r1, r2, r3, r4);
  }

  lemma SayFive(st: State, id: int, ms: seq<IrcMessage>)
    requires id in st.users && |ms| == 5
    ensures var r1 := Say(st, {id}, ms[0]);
            var r2 := Say(r1.st, {id}, ms[1]);
            var r3 := Say(r2.st, {id}, ms[2]);
            var r4 := Say(r3.st, {id}, ms[3]);
            SayAll(st, id, ms) ==
              if r1.Threw? then r1 else if r2.Threw? then r2 else if r3.Threw? then r3 else if r4.Threw? then r4
              else Say(r4.st, {id}, ms[4])
  {
    hide Say;
    var r1 := Say(st, {id}, ms[0]);
    var r2 := Say(r1.st, {id}, ms[1]);
    var r3 := Say(r2.st, {id}, ms[2]);
    var r4 := Say(r3.st, {id}, ms[3]);
    var r5 := Say(r4.st, {id}, ms[4]);
    assert ms[4..] == [ms[4]] && ms[3..] == [ms[3]] + ms[4..];
    assert ms[2..] == [ms[2]] + ms[3..] && ms[1..] == [ms[1]] + ms[2..];
    SayOne(r4.st, id, ms[4]);
    assert SayAll(r3.st, id, ms[3..]) == if r4.Threw? then r4 else r5;
    assert SayAll(r2.st, id, ms[2..]) == if r3.Threw? then r3 else SayAll(r3.st, id, ms[3..]);
    assert SayAll(r1.st, id, ms[1..]) == if r2.Threw? then r2 else SayAll(r2.st, id, ms[2..]);
  }

  lemma SayOne(st: State, id: int, m: IrcMessage)
    ensures SayAll(st, id, [m]) == Say(st, {id}, m)
  {
    hide Say;
    assert [m][1..] == [];
    var r := Say(st, {id}, m);
    assert SayAll(r.st, id, []) == Done(r.st);
  }

  lemma WelcomeChain(st: State, id: int, a: Account, ms: seq<IrcMessage>, r1: Outcome, r2: Outcome, r3: Outcome,
                     r4: Outcome)
    requires id in st.users && st.users[id].account == a && ms == WelcomeLines(a) && |ms| == 5
    requires r1 == Say(st, {id}, ms[0]) && r2 == Say(r1.st, {id}, ms[1]) && r3 == Say(r2.st, {id}, ms[2])
    requires r4 == Say(r3.st, {id}, ms[3])
    requires id in r1.st.users && id in r2.st.users && id in r3.st.users && id in r4.st.users
    requires r3.st.users[id].account == a
    requires Numeric(st, id, "001", [], "Welcome to the IRC Network " + PrefixOf(a)) == r1
    requires Numeric(r1.st, id, "002", [], "Your host is " + SERVER_NAME) == r2
    requires Numeric(r2.st, id, "003", [], "This server was created today") == r3
    requires ms[3] == IrcMessage("004", [ReplyTarget(a)] + [SERVER_NAME, "1.0", "o", "itkol"], SERVER_NAME, false)
    ensures Welcome(st, id) ==
              if r1.Threw? then r1 else if r2.Threw? then r2 else if r3.Threw? then r3 else if r4.Threw? then r4
              else Numeric(r4.st, id, "005", ["CHANTYPES=#", "PREFIX=(o)@", "CHANMODES=,k,l,it", "CASEMAPPING=rfc1459"],
                           "are supported by this server")
  {
    hide Say, PrefixOf, Numeric, ReplyTarget, WelcomeLines;
  }

  // ------------------------------------------------------------------
  // Three steps in any order
  // ------------------------------------------------------------------

  predicate Complete(a: Account) {
    a.passOk && a.nickGiven && a.userGiven
  }

  /** The account once it is registered, which is welcomed. */
  function Registered(a: Account): Account {
    a.(registered := true, welcomes := a.welcomes + 1)
  }

  lemma RegisterRuns(st: State, id: int)
    requires id in st.users
    ensures var a := st.users[id].account;
            TryRegister(st, id) ==
              if a.registered || !Complete(a) then Done(st) else Welcome(WithAccount(st, id, Registered(a)), id)
  {
    hide Welcome;
  }

  lemma AccountSet(st: State, id: int, a: Account)
    requires id in st.users
    ensures id in WithAccount(st, id, a).users && WithAccount(st, id, a).users[id].account == a
  {
  }

  lemma WelcomeSet(st: State, id: int, a: Account)
    requires id in st.users
    ensures id in WithAccount(st, id, a).users
    ensures Welcome(WithAccount(st, id, a), id) == SayAll(WithAccount(st, id, a), id, WelcomeLines(a))
  {
    hide Welcome, SayAll, WelcomeLines, WithAccount;
    AccountSet(st, id, a);
    WelcomeExactly(WithAccount(st, id, a), id);
  }

  /** Whoever has everything is registered and welcomed, and nobody else. */
  lemma RegisterExactly(st: State, id: int)
    requires id in st.users
    ensures var a, r := st.users[id].account, TryRegister(st, id);
            if a.registered || !Complete(a) then r == Done(st)
            else r == SayAll(WithAccount(st, id, Registered(a)), id, WelcomeLines(Registered(a)))
  {
    hide Welcome, SayAll, WelcomeLines, WithAccount, TryRegister, Complete, Registered;
    RegisterRuns(st, id);
    WelcomeSet(st, id, Registered(st.users[id].account));
  }

  /** Only the output differs. */
  ghost predicate OnlyOutput(a: State, b: State) {
    && b == a.(users := b.users) && b.users.Keys == a.users.Keys
    && forall i :: i in a.users ==> b.users[i] == a.users[i].(out := b.users[i].out)
  }

  lemma SayOnlyOutput(st: State, to: set<int>, m: IrcMessage)
    ensures OnlyOutput(st, Say(st, to, m).st)
  {
    hide Serialize, Offer;
  }

  lemma {:induction false} SayAllOnlyOutput(st: State, id: int, ms: seq<IrcMessage>)
    ensures OnlyOutput(st, SayAll(st, id, ms).st)
    decreases |ms|
  {
    hide Say, OnlyOutput;
    if ms == [] {
      NoOutput(st);
    } else {
      var r := Say(st, {id}, ms[0]);
      SayOnlyOutput(st, {id}, ms[0]);
      if r.Done? {
        SayAllOnlyOutput(r.st, id, ms[1..]);
        OnlyOutputTrans(st, r.st, SayAll(r.st, id, ms[1..]).st);
      }
    }
  }

  lemma NoOutput(st: State)
    ensures OnlyOutput(st, st)
  {
  }

  lemma OnlyOutputTrans(a: State, b: State, c: State)
    requires OnlyOutput(a, b) && OnlyOutput(b, c)
    ensures OnlyOutput(a, c)
  {
  }

  datatype Stage = ByPass | ByNick | ByUser

  /** The three commands of one client. */
  datatype Credentials = Credentials(password: string, nick: string, username: string, mode: string, unused: string,
                                     realname: string)

  function StageMessage(c: Credentials, stage: Stage): IrcMessage {
    match stage
    case ByPass => IrcMessage("PASS", [c.password], "", false)
    case ByNick => IrcMessage("NICK", [c.nick], "", false)
    case ByUser => IrcMessage("USER", [c.username, c.mode, c.unused, c.realname], "", false)
  }

  /** The password is right, the nickname valid and nobody else's, and the names are given. */
  ghost predicate Acceptable(st: State, id: int, c: Credentials) {
    && c.password == st.password && ValidNick(c.nick) && !Taken(st, id, c.nick)
    && c.username != "" && c.realname != ""
  }

  /** What of it the client has given so far, and whether it is registered. */
  ghost predicate Progress(st: State, id: int, c: Credentials, given: set<Stage>) {
    && id in st.users
    && var a := st.users[id].account;
       && (a.passOk <==> ByPass in given) && (a.nickGiven <==> ByNick in given) && (a.userGiven <==> ByUser in given)
       && (ByNick in given ==> a.nick == c.nick)
       && (ByUser in given ==> a.username == c.username && a.realname == c.realname)
       && (a.registered <==> ByPass in given && ByNick in given && ByUser in given)
  }

  /** The three commands never change anybody else. */
  ghost predicate OthersSame(a: State, b: State, id: int) {
    && b.users.Keys == a.users.Keys && b.password == a.password
    && forall i :: i in a.users && i != id ==> b.users[i].account == a.users[i].account
  }

  lemma StageDispatched(st: State, id: int, c: Credentials, stage: Stage, answer: BotAnswer)
    requires Inv(st) && id in st.users && !st.users[id].account.registered && Acceptable(st, id, c)
    ensures var a := st.users[id].account;
            match stage
            case ByPass =>
              Dispatch(st, id, StageMessage(c, stage), answer) ==
              TryRegister(WithAccount(st, id, a.(passOk := true, offered := c.password)), id)
            case ByNick =>
              && AssignNick(st, id, c.nick).Some?
              && Dispatch(st, id, StageMessage(c, stage), answer) == TryRegister(AssignNick(st, id, c.nick).value, id)
            case ByUser =>
              Dispatch(st, id, StageMessage(c, stage), answer) ==
              TryRegister(WithAccount(st, id, a.(username := c.username, realname := c.realname, userGiven := true)),
                          id)
  {
    hide Inv, Numeric, MissingParams, TryRegister, AssignNick, ValidNick, Taken, SayRelated;
    var m := StageMessage(c, stage);
    match stage
    case ByPass => assert Execute(st, id, m, answer) == Pass(st, id, [c.password]);
    case ByNick =>
      NotEmpty(c.nick);
      AssignNickRefuses(st, id, c.nick);
      TakenIs(st, id, c.nick);
      assert Execute(st, id, m, answer) == Nick(st, id, [c.nick]);
    case ByUser =>
      assert Execute(st, id, m, answer) == UserCommand(st, id, [c.username, c.mode, c.unused, c.realname]);
  }

  lemma TakenIs(st: State, id: int, nick: string)
    ensures Taken(st, id, nick) <==>
              exists other :: other in st.users && other != id && st.users[other].account.nickGiven
                              && Equal(st.users[other].account.nick, nick)
  {
  }

  lemma SetThenSaid(st: State, id: int, a: Account, s: State)
    requires id in st.users && OnlyOutput(WithAccount(st, id, a), s)
    ensures id in s.users && OthersSame(st, s, id) && s.users[id].account == a
  {
  }

  lemma RegisteredAfter(st: State, id: int)
    requires id in st.users
    ensures var s, a := TryRegister(st, id).st, st.users[id].account;
            && id in s.users && OthersSame(st, s, id)
            && s.users[id].account == if a.registered || !Complete(a) then a else Registered(a)
  {
    hide SayAll, TryRegister, WelcomeLines, WithAccount, Complete, Registered, OnlyOutput;
    var b := Registered(st.users[id].account);
    RegisterExactly(st, id);
    var told := SayAll(WithAccount(st, id, b), id, WelcomeLines(b)).st;
    SayAllOnlyOutput(WithAccount(st, id, b), id, WelcomeLines(b));
    SetThenSaid(st, id, b, told);
  }

  lemma PassStage(st: State, id: int, c: Credentials, given: set<Stage>)
    requires Progress(st, id, c, given) && ByPass !in given
    ensures var a := st.users[id].account.(passOk := true, offered := c.password);
            var s := TryRegister(WithAccount(st, id, a), id).st;
            Progress(s, id, c, given + {ByPass}) && OthersSame(st, s, id)
  {
    hide TryRegister;
    RegisteredAfter(WithAccount(st, id, st.users[id].account.(passOk := true, offered := c.password)), id);
  }

  lemma NickStage(st: State, id: int, c: Credentials, given: set<Stage>)
    requires Progress(st, id, c, given) && ByNick !in given && AssignNick(st, id, c.nick).Some?
    ensures var st1 := AssignNick(st, id, c.nick).value;
            && id in st1.users
            && Progress(TryRegister(st1, id).st, id, c, given + {ByNick}) && OthersSame(st, TryRegister(st1, id).st, id)
  {
    hide TryRegister, AssignNick;
    AssignNickFrame(st, id, c.nick);
    NickPassword(st, id, c.nick);
    RegisteredAfter(AssignNick(st, id, c.nick).value, id);
  }

  lemma UserStage(st: State, id: int, c: Credentials, given: set<Stage>)
    requires Progress(st, id, c, given) && ByUser !in given
    ensures var a := st.users[id].account.(username := c.username, realname := c.realname, userGiven := true);
            var s := TryRegister(WithAccount(st, id, a), id).st;
            Progress(s, id, c, given + {ByUser}) && OthersSame(st, s, id)
  {
    hide TryRegister;
    var a := st.users[id].account.(username := c.username, realname := c.realname, userGiven := true);
    RegisteredAfter(WithAccount(st, id, a), id);
  }

  lemma OneStage(st: State, id: int, c: Credentials, stage: Stage, given: set<Stage>, answer: BotAnswer)
    requires Inv(st) && Progress(st, id, c, given) && Acceptable(st, id, c) && stage !in given
    ensures var s := Dispatch(st, id, StageMessage(c, stage), answer).st;
            Progress(s, id, c, given + {stage}) && OthersSame(st, s, id)
  {
    StillOut(st, id, c, stage, given);
    ProgressThere(st, id, c, given);
    hide Inv, Dispatch, StageMessage, TryRegister, AssignNick, Acceptable, Progress, OthersSame;
    StageDispatched(st, id, c, stage, answer);
    match stage
    case ByPass => PassStage(st, id, c, given);
    case ByNick => NickStage(st, id, c, given);
    case ByUser => UserStage(st, id, c, given);
  }

  lemma StillOut(st: State, id: int, c: Credentials, stage: Stage, given: set<Stage>)
    requires Progress(st, id, c, given) && stage !in given
    ensures !st.users[id].account.registered
  {
  }

  lemma NickPassword(st: State, id: int, nick: string)
    requires id in st.users && AssignNick(st, id, nick).Some?
    ensures AssignNick(st, id, nick).value.password == st.password
  {
    hide Normalize;
  }

  lemma StillAcceptable(a: State, b: State, id: int, c: Credentials)
    requires OthersSame(a, b, id) && Acceptable(a, id, c)
    ensures Acceptable(b, id, c)
  {
    hide ValidNick, Equal;
  }

  /** Some of the three, in this order. */
  function DispatchAll(st: State, id: int, c: Credentials, stages: seq<Stage>, answer: BotAnswer): (r: Outcome)
    requires id in st.users
    ensures r.st.users.Keys == st.users.Keys
    decreases |stages|
  {
    if stages == [] then Done(st)
    else
      var st1 :- Dispatch(st, id, StageMessage(c, stages[0]), answer);
      DispatchAll(st1, id, c, stages[1..], answer)
  }

  predicate Once(stages: seq<Stage>) {
    forall i, j :: 0 <= i < j < |stages| ==> stages[i] != stages[j]
  }

  /**
   * PASS, NICK and USER register a client, in whatever order they come: after any
   * of them, each given once, it is registered exactly if it has given all three.
   */
  lemma {:induction false} RegistersInAnyOrder(st: State, id: int, c: Credentials, stages: seq<Stage>,
                                               given: set<Stage>, answer: BotAnswer)
    requires Inv(st) && !Virtual(id) && Progress(st, id, c, given) && Acceptable(st, id, c)
    requires Once(stages) && forall s :: s in stages ==> s !in given
    requires DispatchAll(st, id, c, stages, answer).Done?
    ensures Progress(DispatchAll(st, id, c, stages, answer).st, id, c, given + set s | s in stages)
    decreases |stages|
  {
    hide Inv, Dispatch, Progress, Acceptable, OthersSame, StageMessage, Keeps, Follows;
    if stages == [] {
      assert given + (set s | s in stages) == given;
    } else {
      var m := StageMessage(c, stages[0]);
      ProgressThere(st, id, c, given);
      var r := Dispatch(st, id, m, answer);
      OneStage(st, id, c, stages[0], given, answer);
      DispatchKeeps(st, id, m, answer);
      KeepsFollows(st, r.st, BOT);
      StillAcceptable(st, r.st, id, c);
      assert stages == [stages[0]] + stages[1..];
      RegistersInAnyOrder(r.st, id, c, stages[1..], given + {stages[0]}, answer);
      assert given + (set s | s in stages) == given + {stages[0]} + set s | s in stages[1..];
    }
  }

  lemma ProgressThere(st: State, id: int, c: Credentials, given: set<Stage>)
    requires Progress(st, id, c, given)
    ensures id in st.users
  {
  }

  // ------------------------------------------------------------------
  // The gate
  // ------------------------------------------------------------------

  /** The commands there are: how many parameters each needs, and whether its sender must have registered. */
  lemma CommandTable(command: string)
    ensures DefinitionOf(command).Some? <==>
              command in {"PASS", "NICK", "USER", "PING", "PONG", "QUIT", "CAP", "JOIN", "PART", "PRIVMSG", "NOTICE",
                          "TOPIC", "INVITE", "KICK", "MODE"}
    ensures DefinitionOf(command).Some? ==>
              && (DefinitionOf(command).value.requiresRegistration <==>
                    command in {"JOIN", "PART", "PRIVMSG", "NOTICE", "TOPIC", "INVITE", "KICK", "MODE"})
              && DefinitionOf(command).value.minParams ==
                   (if command == "USER" then 4
                    else if command in {"PRIVMSG", "INVITE", "KICK"} then 2
                    else if command in {"PING", "PONG", "QUIT", "NOTICE"} then 0 else 1)
  {
  }

  /** Whatever the case of its letters, a command is found. */
  lemma SpellingFound(word: string, spelling: string, rest: string)
    requires DefinitionOf(word).Some? && RaisedWord(spelling, word)
    requires rest == "" || rest[0] == ' '
    requires LineSafe(rest)
    ensures Parse(spelling + rest).Success? && Parse(spelling + rest).value.command == word
  {
    WordIsPlain(word);
    assert forall k :: 0 <= k < |spelling| ==> Raised(spelling[k], word[k]);
    EverySpelling(word, spelling, rest);
  }

  lemma WordIsPlain(word: string)
    requires DefinitionOf(word).Some?
    ensures word != "" && forall k :: 0 <= k < |word| ==> 'A' <= word[k] <= 'Z'
  {
  }

  /** A stranger to the server can do nothing but register, and an unknown command does nothing. */
  lemma GateExactly(st: State, id: int, m: IrcMessage, answer: BotAnswer)
    requires id in st.users
    ensures var r, d := Execute(st, id, m, answer), DefinitionOf(m.command);
            && (d.None? ==> r == Numeric(st, id, "421", One(m.command), "Unknown command"))
            && (d.Some? && d.value.requiresRegistration && !st.users[id].account.registered ==>
                  r == Numeric(st, id, "451", [], "You have not registered"))
            && (m.command == "NICK" && m.params == [] ==> r == Numeric(st, id, "431", [], "No nickname given"))
            && (m.command in {"PING", "PONG"} && m.params == [] ==>
                r == Numeric(st, id, "409", [], "No origin specified"))
            && (m.command == "PRIVMSG" && st.users[id].account.registered && m.params == [] ==>
                  r == Numeric(st, id, "411", [], "No recipient given (PRIVMSG)"))
            && (m.command == "PRIVMSG" && st.users[id].account.registered
                && (|m.params| == 1 || (|m.params| > 1 && m.params[1] == "")) ==>
                  r == Numeric(st, id, "412", [], "No text to send"))
  {
    assert "No recipient given (" + "PRIVMSG" + ")" == "No recipient given (PRIVMSG)";
    hide Numeric, Handle, MissingParams;
  }

  /** What each command does with its parameters. */
  lemma ServiceHandlers(st: State, id: int, m: IrcMessage, answer: BotAnswer)
    requires id in st.users && Admitted(st.users[id].account, m)
    ensures var r, ps := Handle(st, id, m, answer), m.params;
            && (m.command == "PASS" ==> r == Pass(st, id, ps)) && (m.command == "NICK" ==> r == Nick(st, id, ps))
            && (m.command == "USER" ==> r == UserCommand(st, id, ps)) && (m.command == "PING" ==> r == Ping(st, id, ps))
            && (m.command == "PONG" ==> r == Done(st)) && (m.command == "QUIT" ==> r == Quit(st, id, ps))
            && (m.command == "CAP" ==> r == Cap(st, id, ps))
  {
    hide Pass, Nick, UserCommand, Ping, Quit, Cap, Join, Part, Invite, Kick, Mode, Topic, Message;
  }

  lemma ChannelHandlers(st: State, id: int, m: IrcMessage, answer: BotAnswer)
    requires id in st.users && Admitted(st.users[id].account, m)
    ensures var r, ps := Handle(st, id, m, answer), m.params;
            && (m.command == "JOIN" ==> r == Join(st, id, ps)) && (m.command == "PART" ==> r == Part(st, id, ps))
            && (m.command == "INVITE" ==> r == Invite(st, id, ps))
  {
    hide Pass, Nick, UserCommand, Ping, Quit, Cap, Join, Part, Invite, Kick, Mode, Topic, Message;
  }

  lemma OperatorHandlers(st: State, id: int, m: IrcMessage, answer: BotAnswer)
    requires id in st.users && Admitted(st.users[id].account, m)
    ensures var r, ps := Handle(st, id, m, answer), m.params;
            && (m.command == "KICK" ==> r == Kick(st, id, ps)) && (m.command == "MODE" ==> r == Mode(st, id, ps))
            && (m.command == "TOPIC" ==> r == Topic(st, id, ps, m.hasTrailing))
  {
    hide Pass, Nick, UserCommand, Ping, Quit, Cap, Join, Part, Invite, Kick, Mode, Topic, Message;
  }

  lemma MessageHandlers(st: State, id: int, m: IrcMessage, answer: BotAnswer)
    requires id in st.users && Admitted(st.users[id].account, m)
    ensures var r, ps := Handle(st, id, m, answer), m.params;
            && (m.command == "PRIVMSG" ==> r == Message(st, id, ps[0], ps[1], false, answer))
            && (m.command == "NOTICE" ==>
                  r == if |ps| < 2 || ps[1] == "" then Done(st) else Message(st, id, ps[0], ps[1], true, answer))
  {
    hide Pass, Nick, UserCommand, Ping, Quit, Cap, Join, Part, Invite, Kick, Mode, Topic, Message;
  }

  /** QUIT keeps its reason, or has one; the first request of a client stands. */
  lemma QuitExactly(st: State, id: int, params: seq<string>)
    requires id in st.users
    ensures var o, r := st.users[id].out, Quit(st, id, params);
            var reason := if params == [] || params[0] == "" then "Client Quit" else params[0];
            r == Done(WithOutput(st, id, if o.closing then o else o.(closing := true, reason := reason)))
  {
  }

  /** JOIN and PART take lists, JOIN with keys by position and PART with one reason. */
  lemma ListsExactly(st: State, id: int, params: seq<string>)
    requires id in st.users && |params| >= 1
    ensures params[0] == "" ==> Join(st, id, params) == MissingParams(st, id, "JOIN")
    ensures params[0] == "" ==> Part(st, id, params) == MissingParams(st, id, "PART")
    ensures params[0] != "" ==>
              && Join(st, id, params) ==
                   JoinAll(st, id, SplitCommas(params[0]), if |params| == 1 then [] else SplitCommas(params[1]))
              && Part(st, id, params) ==
                   PartAll(st, id, SplitCommas(params[0]), if |params| == 1 then None else Some(params[1]))
  {
    hide JoinAll, PartAll, MissingParams, SplitCommas;
  }

  // ------------------------------------------------------------------
  // The start
  // ------------------------------------------------------------------

  /** The bot's entry into a channel that was made for it. */
  lemma BotTakesOver(st: State, key: string)
    requires BOT in st.users && key in st.channels && Normalize(st.channels[key].name) == key
    requires st.channels[key].members == {} && st.channels[key].operators == {} && st.channels[key].invited == {}
    requires Serialize(JoinMessage(Enter(st, BOT, key), BOT, key)).Success?
    ensures var r := BotJoin(st, key, false);
            && r.Done? && r.st == st.(users := r.st.users, channels := r.st.channels)
            && r.st.channels == st.channels[key := st.channels[key].(members := {BOT}, operators := {BOT})]
            && BOT in r.st.users && r.st.users[BOT].account == st.users[BOT].account
            && r.st.users[BOT].joined == st.users[BOT].joined + {key}
  {
    var ch, st1 := st.channels[key], Enter(st, BOT, key);
    assert st1.channels[key] == ch.(members := {BOT}, operators := {BOT});
    var m := JoinMessage(st1, BOT, key);
    SayOnlyOutput(st1, {BOT}, m);
    SayAnnounces(st1, {BOT}, m);
    hide Say, JoinMessage, Serialize, Equal, Normalize;
  }

  lemma HomeKey()
    ensures Normalize(HOME_CHANNEL) == "#bot" && Normalize("marvin") == "marvin" && Normalize(BOT_NICK) == "marvin"
  {
  }

  /** The server starts with "marvin" alone in "#bot", its operator, under the topic that introduces it. */
  lemma BootExactly(password: string, walk: Walk)
    ensures var st := Boot(password, walk).st;
            && st.users.Keys == {BOT} && st.users[BOT].account.nick == "marvin" && FindNick(st, "marvin") == Some(BOT)
            && st.channels.Keys == {"#bot"}
            && st.channels["#bot"] ==
                 Chan("#bot", "Ask me with !help or /msg marvin help", {BOT}, {BOT}, {}, NO_FLAGS, [])
            && st.users[BOT].joined == {"#bot"} && st.order == [] && st.accepting
  {
    HomeKey();
    BootIs(password, walk);
    AloneJoins(password, walk);
    BotGreets();
    hide Boot, BotJoin, Enter, Serialize, JoinMessage, Normalize;
    var st := WithTopic(FindOrCreate(Alone(password, walk), HOME_CHANNEL), "#bot", BOT_TOPIC);
    assert st.channels == map["#bot" := NewChan("#bot").(topic := BOT_TOPIC)];
    BotTakesOver(st, "#bot");
  }
}
