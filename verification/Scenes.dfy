// Runs from the start of the server to the states in which the failures described
// elsewhere happen: each is reached with a handful of legal lines.
module Scenes {
  import opened Results
  import opened IrcCasemap
  import opened Codec
  import opened CodecLaws
  import opened CommaList
  import opened Framing
  import opened StreamLaws
  import opened ChannelModes
  import opened Walks
  import opened ServerState
  import opened Primitives
  import opened Membership
  import opened ChannelLog
  import opened Commands
  import opened CommandLaws
  import opened DispatchLaws
  import opened NamesLaws
  import opened ModeLines
  import opened ReplyLaws
  import opened Connection
  import opened ConnectionLaws
  import opened DisconnectLaws
  import opened EventLoop
  import opened RunLaws

  // ------------------------------------------------------------------
  // Reached states
  // ------------------------------------------------------------------

  const PASSWORD: string := "p"

  /** Some run from the bot's start ends in this state. */
  ghost predicate Reached(st: State) {
    exists walk: Walk, events: seq<Event> :: RunThrough(Boot(PASSWORD, walk).st, events) == Done(st)
  }

  lemma BootReached(walk: Walk)
    ensures Reached(Boot(PASSWORD, walk).st)
  {
    assert RunThrough(Boot(PASSWORD, walk).st, []) == Done(Boot(PASSWORD, walk).st);
  }

  lemma StepReached(st: State, e: Event)
    requires Reached(st) && Step(st, e).Done?
    ensures Reached(Step(st, e).st)
  {
    hide Step, Boot, RunThrough;
    var walk: Walk, events :| RunThrough(Boot(PASSWORD, walk).st, events) == Done(st);
    RunThroughAppend(Boot(PASSWORD, walk).st, events, [e]);
    OneEvent(st, e);
  }

  lemma OneEvent(st: State, e: Event)
    ensures RunThrough(st, [e]) == Step(st, e)
  {
    hide Step;
    assert [e][1..] == [];
  }

  /** It is a state of a trace, and healthy. */
  lemma ReachedHealthy(st: State)
    requires Reached(st)
    ensures Healthy(st) && Sound(st) && Inv(st) && st.password == PASSWORD && BOT in st.users
  {
    var walk: Walk, events :| RunThrough(Boot(PASSWORD, walk).st, events) == Done(st);
    hide Boot, RunThrough, Trace, AllFramed, AllMarked, Inv;
    RunThroughTrace(Boot(PASSWORD, walk).st, events);
    RunsAreHealthy(PASSWORD, walk, events, |events|);
  }

  // ------------------------------------------------------------------
  // One line of a client
  // ------------------------------------------------------------------

  const SILENT: Oracle := n => BotAnswer("", false)

  /** A line has arrived, and nothing else is to report. */
  function LineIo(wire: Chunk): Io {
    Io(Revents(false, true, false, false, false), Bytes(wire), SendLater, SILENT)
  }

  /** A message that its reader takes for what it is. */
  predicate Plain(m: IrcMessage) {
    Serialize(m).Success? && Reparsable(m) && Printed(m) == m
  }

  function Wire(m: IrcMessage): (wire: Chunk)
    requires Serialize(m).Success?
    ensures 2 <= |wire| <= MAX_MESSAGE_LENGTH
  {
    SerializedShape(m);
    Serialize(m).value
  }

  /** A client with nothing pending on its input, and not to be disconnected. */
  predicate Listening(st: State, fd: int) {
    fd in st.users && !Virtual(fd) && !st.users[fd].out.closing && st.users[fd].inBuffer == ""
  }

  /** The message has been taken off the input buffer. */
  function Taken(st: State, fd: int, m: IrcMessage): State
    requires fd in st.users && Serialize(m).Success?
  {
    var u := st.users[fd];
    WithInput(st, fd, "", u.received + Wire(m), u.lines + [Body(Wire(m))])
  }

  lemma TakenFrame(st: State, fd: int, m: IrcMessage)
    requires Sound(st) && fd in st.users && Serialize(m).Success?
    ensures Sound(Taken(st, fd, m)) && Inv(Taken(st, fd, m))
    ensures Taken(st, fd, m) == st.(users := Taken(st, fd, m).users)
    ensures Taken(st, fd, m).users == st.users[fd := Taken(st, fd, m).users[fd]]
    ensures var u, v := st.users[fd], Taken(st, fd, m).users[fd];
            v.account == u.account && v.joined == u.joined && v.out == u.out && v.inBuffer == ""
  {
    var u := st.users[fd];
    hide Inv, AllMarked, Body, Serialize;
    InputKeeps(st, fd, "", u.received + Wire(m), u.lines + [Body(Wire(m))]);
  }

  /** What the line leads to, before a disconnection that it may ask for. */
  function Answered(st: State, fd: int, m: IrcMessage): Served
    requires fd in st.users && Serialize(m).Success?
  {
    var r := Dispatch(Taken(st, fd, m), fd, m, SILENT(|st.users[fd].lines|));
    if r.Threw? then Served(WithRequest(r.st, fd, ""), false)
    else Served(r.st, !r.st.users[fd].out.closing)
  }

  lemma PlainRead(m: IrcMessage)
    requires Plain(m)
    ensures Serialize(m).Success?
    ensures ExtractNext("" + Wire(m)) == Complete(Body(Wire(m)), "") && Body(Wire(m)) != ""
    ensures Parse(Body(Wire(m))) == Success(m)
  {
    hide Serialize, Parse, ExtractNext, Body, Reparsable, Printed;
    ExtractsWire(m, "");
    assert Wire(m) + "" == Wire(m) && "" + Wire(m) == Wire(m);
    SerializedShape(m);
    BodyParses(m, Body(Wire(m)));
  }

  lemma LineTaken(st: State, fd: int, m: IrcMessage)
    requires Listening(st, fd) && Plain(m) && Serialize(m).Success?
    ensures var u := st.users[fd];
            var st1 := WithInput(st, fd, "" + Wire(m), u.received + Wire(m), u.lines);
            ServeTaken(st1, fd, Body(Wire(m)), "", SILENT) == Answered(st, fd, m).st
  {
    hide Serialize, Parse, Dispatch, Request, ExtractNext, Body, Plain;
    PlainRead(m);
    var u := st.users[fd];
    var st1 := WithInput(st, fd, "" + Wire(m), u.received + Wire(m), u.lines);
    assert TakeLine(st1, fd, Body(Wire(m)), "") == Taken(st, fd, m);
  }

  lemma NothingLeft(st: State, fd: int, oracle: Oracle)
    requires fd in st.users && st.users[fd].inBuffer == ""
    ensures ProcessBuffer(st, fd, oracle) == Served(st, !st.users[fd].out.closing)
  {
    assert FirstLF("") == 0;
  }

  /** Attending to a client that sent one line is dispatching that line. */
  lemma LineAttended(st: State, fd: int, m: IrcMessage)
    requires Sound(st) && Listening(st, fd) && Plain(m)
    ensures Attend(st, fd, LineIo(Wire(m))) == Answered(st, fd, m)
  {
    var u := st.users[fd];
    var st1 := WithInput(st, fd, "" + Wire(m), u.received + Wire(m), u.lines);
    hide Serialize, Inv, AllMarked, Sound, Evolves, Dispatch, Request, ExtractNext, Body, Plain, ServeTaken,
      ProcessBuffer, Answered;
    PlainRead(m);
    LineTaken(st, fd, m);
    InputKeeps(st, fd, "" + Wire(m), u.received + Wire(m), u.lines);
    ServeTakenSound(st1, fd, Body(Wire(m)), "", SILENT);
    ProcessStep(st1, fd, SILENT);
    NothingLeft(Answered(st, fd, m).st, fd, SILENT);
    AnsweredCloses(st, fd, m);
  }

  lemma AnsweredCloses(st: State, fd: int, m: IrcMessage)
    requires fd in st.users && Serialize(m).Success?
    ensures fd in Answered(st, fd, m).st.users
    ensures Answered(st, fd, m).connected <==> !Answered(st, fd, m).st.users[fd].out.closing
  {
    hide Dispatch, Serialize;
  }

  function Sends(fd: int, m: IrcMessage): Event
    requires Serialize(m).Success?
  {
    Visited(fd, LineIo(Wire(m)), false)
  }

  lemma LineFollows(st: State, fd: int, m: IrcMessage)
    requires Sound(st) && Listening(st, fd) && Serialize(m).Success?
    ensures Follows(Taken(st, fd, m), Dispatch(Taken(st, fd, m), fd, m, SILENT(|st.users[fd].lines|)).st)
  {
    hide Serialize, Dispatch, Sound, Inv, Keeps, Follows, Taken;
    TakenFrame(st, fd, m);
    DispatchKeeps(Taken(st, fd, m), fd, m, SILENT(|st.users[fd].lines|));
    var r := Dispatch(Taken(st, fd, m), fd, m, SILENT(|st.users[fd].lines|));
    KeepsFollows(Taken(st, fd, m), r.st, Excused(r, fd));
  }

  lemma LineSteps(st: State, fd: int, m: IrcMessage)
    requires Sound(st) && Listening(st, fd) && Plain(m) && Serialize(m).Success?
    requires Answered(st, fd, m).connected
    ensures Step(st, Sends(fd, m)) == Done(Answered(st, fd, m).st)
  {
    hide Serialize, Attend, Plain, Sound, Answered;
    LineAttended(st, fd, m);
  }

  /** A line that completes and leaves its client connected is one step of a run. */
  lemma LineReaches(st: State, fd: int, m: IrcMessage) returns (s: State)
    requires Reached(st) && Listening(st, fd) && Plain(m)
    requires var r := Dispatch(Taken(st, fd, m), fd, m, SILENT(|st.users[fd].lines|));
             r.Done? && !r.st.users[fd].out.closing
    ensures Dispatch(Taken(st, fd, m), fd, m, SILENT(|st.users[fd].lines|)) == Done(s)
    ensures Step(st, Sends(fd, m)) == Done(s) && Reached(s) && Follows(Taken(st, fd, m), s)
  {
    s := Dispatch(Taken(st, fd, m), fd, m, SILENT(|st.users[fd].lines|)).st;
    hide Serialize, Dispatch, Plain, Reached, Healthy, Sound, Inv, Follows, Taken, Step;
    PlainRead(m);
    ReachedHealthy(st);
    LineFollows(st, fd, m);
    LineSteps(st, fd, m);
    StepReached(st, Sends(fd, m));
  }

  // ------------------------------------------------------------------
  // Short lines
  // ------------------------------------------------------------------

  /** The bytes of middles, each behind a space. */
  function Total(params: seq<string>): nat {
    if params == [] then 0 else 1 + |params[0]| + Total(params[1..])
  }

  lemma {:induction false} ParamsWithin(params: seq<string>, hasTrailing: bool)
    ensures ParamsLength(params, hasTrailing) <= Total(params) + 1
    ensures Middles(params) && !hasTrailing ==> ParamsLength(params, hasTrailing) == Total(params)
  {
    hide LineSafe, NeedsTrailingMarker;
    if |params| > 1 {
      ParamsWithin(params[1..], hasTrailing);
    } else if |params| == 1 {
      assert params[1..] == [];
    }
  }

  /** A command of middles alone. */
  function Command(command: string, params: seq<string>): IrcMessage {
    IrcMessage(command, params, "", false)
  }

  predicate Middles(params: seq<string>) {
    forall i :: 0 <= i < |params| ==> ValidMiddle(params[i])
  }

  lemma ShortIsPlain(command: string, params: seq<string>)
    requires ValidCommand(command) && Upper(command) == command && command[0] != ':'
    requires Middles(params) && |command| + Total(params) + 2 <= MAX_MESSAGE_LENGTH
    ensures Plain(Command(command, params))
  {
    hide NeedsTrailingMarker, LineSafe, Serialize, Total;
    ParamsWithin(params, false);
    PrintsExactly(Command(command, params));
  }

  lemma CommandNames()
    ensures forall c :: c in {"PASS", "NICK", "USER", "JOIN", "MODE", "PRIVMSG"} ==>
              ValidCommand(c) && Upper(c) == c && c[0] != ':' && |c| <= 7
  {
  }

  // ------------------------------------------------------------------
  // Room
  // ------------------------------------------------------------------

  /** At most `n` lines more, and not flagged if there was room for them. */
  predicate Fuller(o: Output, p: Output, n: nat) {
    !o.closing && |o.buffer| + n * MAX_MESSAGE_LENGTH <= MAX_OUTPUT_BUFFER ==>
      !p.closing && |p.buffer| <= |o.buffer| + n * MAX_MESSAGE_LENGTH
  }

  ghost predicate Filled(a: State, b: State, n: nat) {
    && b.users.Keys == a.users.Keys
    && forall id :: id in a.users ==> Fuller(a.users[id].out, b.users[id].out, n)
  }

  lemma FilledTrans(a: State, b: State, c: State, m: nat, n: nat)
    requires Filled(a, b, m) && Filled(b, c, n)
    ensures Filled(a, c, m + n)
  {
  }

  lemma NotFilled(a: State, b: State)
    requires b.users.Keys == a.users.Keys && forall id :: id in a.users ==> b.users[id].out == a.users[id].out
    ensures Filled(a, b, 0)
  {
  }

  lemma FilledMore(a: State, b: State, m: nat, n: nat)
    requires Filled(a, b, m) && m <= n
    ensures Filled(a, b, n)
  {
  }

  lemma OfferFuller(id: int, o: Output, line: string, log: Option<string>)
    requires |line| <= MAX_MESSAGE_LENGTH
    ensures Fuller(o, Offer(id, o, line, log), 1) && Fuller(o, o, 1)
  {
  }

  lemma SayFilled(st: State, to: set<int>, m: IrcMessage)
    ensures Filled(st, Say(st, to, m).st, 1)
  {
    hide Serialize, Offer, Fuller;
    forall id | id in st.users
      ensures Fuller(st.users[id].out, Say(st, to, m).st.users[id].out, 1)
    {
      var o := st.users[id].out;
      OfferFuller(id, o, "", None);
      if Serialize(m).Success? {
        SerializedFits(m);
        OfferFuller(id, o, Serialize(m).value, None);
      }
    }
  }

  /** Only this client was told something. */
  ghost predicate Told(a: State, b: State, id: int, n: nat) {
    && id in a.users && id in b.users
    && b == a.(users := a.users[id := a.users[id].(out := b.users[id].out)])
    && Fuller(a.users[id].out, b.users[id].out, n)
  }

  lemma ToldTrans(a: State, b: State, c: State, id: int, m: nat, n: nat)
    requires Told(a, b, id, m) && Told(b, c, id, n)
    ensures Told(a, c, id, m + n)
  {
  }

  lemma ToldFills(a: State, b: State, id: int, n: nat)
    requires Told(a, b, id, n)
    ensures Filled(a, b, n)
  {
  }

  lemma SayTold(st: State, id: int, m: IrcMessage)
    requires id in st.users
    ensures Told(st, Say(st, {id}, m).st, id, 1)
  {
    hide Serialize, Offer;
    SayFilled(st, {id}, m);
    hide Fuller;
    var after := Say(st, {id}, m).st;
    assert after.users == st.users[id := st.users[id].(out := after.users[id].out)];
  }

  lemma NumericTold(st: State, id: int, code: string, params: seq<string>, trailing: string)
    requires id in st.users
    ensures Told(st, Numeric(st, id, code, params, trailing).st, id, 1)
  {
    hide Told, Say;
    SayTold(st, id, NumericMessage(st.users[id].account, code, params, trailing));
  }

  lemma NumericPlainTold(st: State, id: int, code: string, params: seq<string>)
    requires id in st.users
    ensures Told(st, NumericPlain(st, id, code, params).st, id, 1)
  {
    hide Told, Say;
    SayTold(st, id, IrcMessage(code, [ReplyTarget(st.users[id].account)] + params, SERVER_NAME, false));
  }

  // ------------------------------------------------------------------
  // Registration
  // ------------------------------------------------------------------

  lemma NumericPrints(a: Account, code: string, params: seq<string>, text: string)
    requires ValidCommand(code) && |code| == 3 && ValidMiddle(ReplyTarget(a)) && Middles(params) && LineSafe(text)
    requires |ReplyTarget(a)| + Total(params) + |text| <= 480
    ensures Serialize(NumericMessage(a, code, params, text)).Success?
  {
    var m := NumericMessage(a, code, params, text);
    ReplyCodes();
    hide NeedsTrailingMarker, LineSafe, Serialize, ReplyTarget, ValidCommand;
    assert forall i :: 0 <= i < |m.params| - 1 ==> m.params[i] == if i == 0 then ReplyTarget(a) else params[i - 1];
    assert m.params[|m.params| - 1] == text;
    assert m.params[1..] == params + [text];
    TotalSnoc(params, text);
    ParamsWithin(m.params, true);
    hide Total;
    PrintsExactly(m);
  }

  lemma {:induction false} TotalSnoc(params: seq<string>, last: string)
    ensures Total(params + [last]) == Total(params) + 1 + |last|
  {
    if params == [] {
      assert [] + [last] == [last];
      assert [last][1..] == [];
    } else {
      assert (params + [last])[1..] == params[1..] + [last];
      TotalSnoc(params[1..], last);
    }
  }

  lemma NumericPlainPrints(a: Account, code: string, params: seq<string>)
    requires ValidCommand(code) && |code| == 3 && ValidMiddle(ReplyTarget(a)) && Middles(params)
    requires |ReplyTarget(a)| + Total(params) <= 480
    ensures Serialize(IrcMessage(code, [ReplyTarget(a)] + params, SERVER_NAME, false)).Success?
  {
    var m := IrcMessage(code, [ReplyTarget(a)] + params, SERVER_NAME, false);
    ReplyCodes();
    hide NeedsTrailingMarker, LineSafe, Serialize, ReplyTarget, ValidCommand;
    assert forall i :: 0 <= i < |m.params| ==> m.params[i] == if i == 0 then ReplyTarget(a) else params[i - 1];
    assert m.params[1..] == params;
    ParamsWithin(m.params, false);
    PrintsExactly(m);
  }

  /** Somebody with short names. */
  predicate Short(a: Account) {
    ValidNick(a.nick) && |a.nick| <= 9 && a.username == "u" && a.host == "h"
  }

  lemma ShortNames(a: Account)
    requires Short(a)
    ensures ReplyTarget(a) == a.nick && ValidMiddle(a.nick)
    ensures CleanPrefix(PrefixOf(a)) && |PrefixOf(a)| == |a.nick| + 4
  {
    NickIsMiddle(a.nick);
  }

  lemma GreetingText(a: Account)
    requires Short(a)
    ensures LineSafe("Welcome to the IRC Network " + PrefixOf(a)) && |"Welcome to the IRC Network " + PrefixOf(a)| <= 60
  {
    ShortNames(a);
    hide PrefixOf;
    assert LineSafe("Welcome to the IRC Network ");
  }

  lemma HostText()
    ensures LineSafe("Your host is " + SERVER_NAME) && |"Your host is " + SERVER_NAME| <= 60
  {
  }

  lemma CreatedText()
    ensures LineSafe("This server was created today")
  {
  }

  lemma SupportedText()
    ensures LineSafe("are supported by this server")
  {
  }

  lemma WelcomeCodes()
    ensures forall c :: c in {"001", "002", "003", "004", "005"} ==> ValidCommand(c)
  {
  }

  const FEATURES: seq<string> := ["CHANTYPES=#", "PREFIX=(o)@", "CHANMODES=,k,l,it", "CASEMAPPING=rfc1459"]
  const VERSION: seq<string> := [SERVER_NAME, "1.0", "o", "itkol"]

  lemma FirstFeatures()
    ensures ValidMiddle(FEATURES[0]) && ValidMiddle(FEATURES[1])
  {
  }

  lemma ThirdFeature()
    ensures ValidMiddle(FEATURES[2])
  {
  }

  lemma FourthFeature()
    ensures ValidMiddle(FEATURES[3])
  {
  }

  lemma FeatureParams()
    ensures Middles(FEATURES) && Total(FEATURES) <= 70
  {
    FirstFeatures();
    ThirdFeature();
    FourthFeature();
    hide NeedsTrailingMarker, LineSafe;
    FourTotal(FEATURES);
  }

  lemma VersionParams()
    ensures Middles(VERSION) && Total(VERSION) <= 40
  {
    FourTotal(VERSION);
  }

  lemma NoParams()
    ensures Middles([]) && Total([]) == 0
  {
  }

  lemma FourTotal(params: seq<string>)
    requires |params| == 4
    ensures Total(params) == 4 + |params[0]| + |params[1]| + |params[2]| + |params[3]|
  {
    assert params[1..] == [params[1], params[2], params[3]];
    assert params[1..][1..] == [params[2], params[3]];
    assert [params[2], params[3]][1..] == [params[3]] && [params[3]][1..] == [];
    assert Total([params[3]]) == 1 + |params[3]|;
    assert Total([params[2], params[3]]) == 2 + |params[2]| + |params[3]|;
  }

  lemma NumericSaid(st: State, id: int, code: string, params: seq<string>, text: string)
    requires id in st.users && Short(st.users[id].account)
    requires ValidCommand(code) && |code| == 3 && Middles(params) && LineSafe(text) && Total(params) + |text| <= 400
    ensures Numeric(st, id, code, params, text).Done?
    ensures Told(st, Numeric(st, id, code, params, text).st, id, 1)
  {
    hide Numeric, NumericMessage, Serialize, ValidMiddle, LineSafe, Told, ReplyTarget;
    ShortNames(st.users[id].account);
    NumericPrints(st.users[id].account, code, params, text);
    NumericCompletes(st, id, code, params, text);
    NumericTold(st, id, code, params, text);
  }

  lemma VersionSaid(st: State, id: int)
    requires id in st.users && Short(st.users[id].account)
    ensures NumericPlain(st, id, "004", VERSION).Done?
    ensures Told(st, NumericPlain(st, id, "004", VERSION).st, id, 1)
  {
    WelcomeCodes();
    hide Serialize, ValidMiddle, LineSafe, Told, ReplyTarget, ValidCommand, Total;
    ShortNames(st.users[id].account);
    VersionParams();
    NumericPlainPrints(st.users[id].account, "004", VERSION);
    NumericPlainTold(st, id, "004", VERSION);
  }

  lemma ToldAccount(a: State, b: State, id: int, n: nat)
    requires Told(a, b, id, n)
    ensures id in a.users && id in b.users && b.users[id].account == a.users[id].account
  {
  }

  lemma Welcomed(st: State, id: int)
    requires id in st.users && Short(st.users[id].account)
    ensures Welcome(st, id).Done? && Told(st, Welcome(st, id).st, id, 5)
  {
    var a := st.users[id].account;
    hide Numeric, NumericPlain, Told, PrefixOf, LineSafe, ValidCommand, Middles, Total, Short;
    GreetingText(a);
    HostText();
    CreatedText();
    SupportedText();
    WelcomeCodes();
    FeatureParams();
    NoParams();
    var r1 := Numeric(st, id, "001", [], "Welcome to the IRC Network " + PrefixOf(a));
    NumericSaid(st, id, "001", [], "Welcome to the IRC Network " + PrefixOf(a));
    ToldAccount(st, r1.st, id, 1);
    var r2 := Numeric(r1.st, id, "002", [], "Your host is " + SERVER_NAME);
    NumericSaid(r1.st, id, "002", [], "Your host is " + SERVER_NAME);
    ToldAccount(r1.st, r2.st, id, 1);
    ToldTrans(st, r1.st, r2.st, id, 1, 1);
    var r3 := Numeric(r2.st, id, "003", [], "This server was created today");
    NumericSaid(r2.st, id, "003", [], "This server was created today");
    ToldAccount(r2.st, r3.st, id, 1);
    ToldTrans(st, r2.st, r3.st, id, 2, 1);
    var r4 := NumericPlain(r3.st, id, "004", VERSION);
    VersionSaid(r3.st, id);
    ToldAccount(r3.st, r4.st, id, 1);
    ToldTrans(st, r3.st, r4.st, id, 3, 1);
    var r5 := Numeric(r4.st, id, "005", FEATURES, "are supported by this server");
    NumericSaid(r4.st, id, "005", FEATURES, "are supported by this server");
    ToldTrans(st, r4.st, r5.st, id, 4, 1);
  }

  /** The account of a client at its stages. */
  function Stage1(): Account {
    NewUser("h").account.(passOk := true, offered := PASSWORD)
  }

  function Stage2(nick: string): Account {
    Stage1().(nick := nick, nickGiven := true)
  }

  function Stage3(nick: string): Account {
    Stage2(nick).(username := "u", realname := "r", userGiven := true)
  }

  function Member(nick: string): Account {
    Stage3(nick).(registered := true, welcomes := 1)
  }

  lemma PassDispatched(st: State, fd: int, answer: BotAnswer)
    requires fd in st.users && st.users[fd].account == NewUser("h").account && st.password == PASSWORD
    ensures Dispatch(st, fd, Command("PASS", [PASSWORD]), answer) == Done(WithAccount(st, fd, Stage1()))
  {
    hide Numeric, Welcome;
    assert Execute(st, fd, Command("PASS", [PASSWORD]), answer) == Pass(st, fd, [PASSWORD]);
  }

  lemma NickDispatched(st: State, fd: int, nick: string, answer: BotAnswer)
    requires fd in st.users && st.users[fd].account == Stage1() && ValidNick(nick)
    requires Normalize(nick) != "" && Normalize(nick) !in st.nicks
    ensures Dispatch(st, fd, Command("NICK", [nick]), answer) ==
              Done(WithAccount(st, fd, Stage2(nick)).(nicks := st.nicks[Normalize(nick) := fd]))
  {
    hide Numeric, Welcome, ValidNick, Normalize;
    assert Execute(st, fd, Command("NICK", [nick]), answer) == Nick(st, fd, [nick]);
  }

  lemma UserDispatched(st: State, fd: int, nick: string, answer: BotAnswer)
    requires fd in st.users && st.users[fd].account == Stage2(nick)
    ensures Dispatch(st, fd, Command("USER", ["u", "0", "*", "r"]), answer) ==
              Welcome(WithAccount(st, fd, Member(nick)), fd)
  {
    hide Numeric, Welcome;
    assert Execute(st, fd, Command("USER", ["u", "0", "*", "r"]), answer) == UserCommand(st, fd, ["u", "0", "*", "r"]);
    var st1 := WithAccount(st, fd, Stage3(nick));
    assert UserCommand(st, fd, ["u", "0", "*", "r"]) == Done(st1);
    assert WithAccount(st1, fd, Member(nick)) == WithAccount(st, fd, Member(nick));
  }

  /** This connected client, with at most so much on its output. */
  predicate Person(st: State, fd: int, a: Account, joined: set<string>, pending: nat) {
    && Listening(st, fd)
    && st.users[fd].account == a && st.users[fd].joined == joined
    && |st.users[fd].out.buffer| <= pending
  }

  /** A run has gone on with this one client, which is in no channel yet. */
  ghost predicate Newcomer(st: State, s: State, fd: int, a: Account, nicks: map<string, int>, pending: nat) {
    && Reached(s) && Person(s, fd, a, {}, pending)
    && s.channels == st.channels && s.nicks == nicks && s.order == st.order + [fd] && s.password == PASSWORD
    && s.users.Keys == st.users.Keys + {fd}
    && forall other :: other in st.users && other != fd ==> s.users[other] == st.users[other]
  }

  lemma Arrives(st: State, fd: nat, walk: Walk)
    requires Reached(st) && fd !in st.users
    ensures Newcomer(st, Accept(st, fd, "h", walk), fd, NewUser("h").account, st.nicks, 0)
  {
    hide Reached, Healthy, Sound, Inv;
    ReachedHealthy(st);
    StepReached(st, Connected(fd, "h", walk));
  }

  lemma GivesPassword(st: State, s: State, fd: int) returns (t: State)
    requires Newcomer(st, s, fd, NewUser("h").account, st.nicks, 0)
    ensures Newcomer(st, t, fd, Stage1(), st.nicks, 0)
  {
    hide Reached, Healthy, Sound, Inv, Plain, Serialize, Follows, Taken, Dispatch;
    var m := Command("PASS", [PASSWORD]);
    PasswordPlain();
    PlainRead(m);
    ReachedHealthy(s);
    TakenFrame(s, fd, m);
    PassDispatched(Taken(s, fd, m), fd, SILENT(|s.users[fd].lines|));
    t := LineReaches(s, fd, m);
  }

  lemma PasswordPlain()
    ensures Plain(Command("PASS", [PASSWORD]))
  {
    CommandNames();
    assert Middles([PASSWORD]);
    assert Total([PASSWORD]) <= 2;
    hide Plain, Total, Middles, ValidCommand, Upper;
    ShortIsPlain("PASS", [PASSWORD]);
  }

  lemma NickPlain(nick: string)
    requires ValidNick(nick) && |nick| <= 504
    ensures Plain(Command("NICK", [nick]))
  {
    NickIsMiddle(nick);
    CommandNames();
    assert Middles([nick]);
    assert Total([nick]) == 1 + |nick|;
    hide Plain, Total, Middles, ValidCommand, Upper, ValidNick;
    ShortIsPlain("NICK", [nick]);
  }

  lemma GivesNick(st: State, s: State, fd: int, nick: string) returns (t: State)
    requires Newcomer(st, s, fd, Stage1(), st.nicks, 0) && ValidNick(nick) && |nick| <= 9
    requires Normalize(nick) != "" && Normalize(nick) !in st.nicks
    ensures Newcomer(st, t, fd, Stage2(nick), st.nicks[Normalize(nick) := fd], 0)
  {
    hide Reached, Healthy, Sound, Inv, Plain, Serialize, Follows, Taken, Dispatch, ValidNick, Normalize;
    var m := Command("NICK", [nick]);
    NickPlain(nick);
    PlainRead(m);
    ReachedHealthy(s);
    TakenFrame(s, fd, m);
    NickDispatched(Taken(s, fd, m), fd, nick, SILENT(|s.users[fd].lines|));
    t := LineReaches(s, fd, m);
  }

  lemma UserMiddles()
    ensures Middles(["u", "0", "*", "r"])
  {
  }

  lemma UserPlain()
    ensures Plain(Command("USER", ["u", "0", "*", "r"]))
  {
    hide Plain, Total, Middles, ValidCommand, Upper;
    CommandNames();
    UserMiddles();
    FourTotal(["u", "0", "*", "r"]);
    ShortIsPlain("USER", ["u", "0", "*", "r"]);
  }

  lemma GivesUser(st: State, s: State, fd: int, nick: string) returns (t: State)
    requires Newcomer(st, s, fd, Stage2(nick), st.nicks[Normalize(nick) := fd], 0) && ValidNick(nick) && |nick| <= 9
    ensures Newcomer(st, t, fd, Member(nick), st.nicks[Normalize(nick) := fd], 5 * MAX_MESSAGE_LENGTH)
  {
    hide Reached, Healthy, Sound, Inv, Plain, Serialize, Follows, Taken, Dispatch, ValidNick, Normalize, Welcome;
    var m := Command("USER", ["u", "0", "*", "r"]);
    UserPlain();
    PlainRead(m);
    ReachedHealthy(s);
    TakenFrame(s, fd, m);
    var taken := Taken(s, fd, m);
    UserDispatched(taken, fd, nick, SILENT(|s.users[fd].lines|));
    Welcomed(WithAccount(taken, fd, Member(nick)), fd);
    t := LineReaches(s, fd, m);
  }

  /** Four events bring a new client with this nickname. */
  lemma Registers(st: State, fd: nat, nick: string, walk: Walk) returns (s: State)
    requires Reached(st) && fd !in st.users && ValidNick(nick) && |nick| <= 9
    requires Normalize(nick) != "" && Normalize(nick) !in st.nicks
    ensures Newcomer(st, s, fd, Member(nick), st.nicks[Normalize(nick) := fd], 5 * MAX_MESSAGE_LENGTH)
  {
    hide Newcomer, Normalize, ValidNick;
    Arrives(st, fd, walk);
    s := Accept(st, fd, "h", walk);
    s := GivesPassword(st, s, fd);
    s := GivesNick(st, s, fd, nick);
    s := GivesUser(st, s, fd, nick);
  }

  // ------------------------------------------------------------------
  // Joining "#a"
  // ------------------------------------------------------------------

  const ROOM: string := "#a"

  lemma {:induction false} PayloadsFilled(st: State, id: int, name: string, payloads: seq<string>)
    requires id in st.users
    ensures Filled(st, SendPayloads(st, id, name, payloads).st, |payloads|)
    decreases |payloads|
  {
    hide Filled, Numeric, Told;
    if payloads == [] {
      NotFilled(st, st);
    } else {
      var r := Numeric(st, id, "353", ["=", name], payloads[0]);
      NumericTold(st, id, "353", ["=", name], payloads[0]);
      ToldFills(st, r.st, id, 1);
      if r.Done? {
        PayloadsFilled(r.st, id, name, payloads[1..]);
        FilledTrans(st, r.st, SendPayloads(r.st, id, name, payloads[1..]).st, 1, |payloads| - 1);
      } else {
        FilledMore(st, r.st, 1, |payloads|);
      }
    }
  }

  lemma {:induction false} FewPayloads(current: string, names: seq<string>, budget: nat)
    ensures |Names.Pack(current, names, budget)| <= |names| + (if current == "" then 0 else 1)
    decreases |names|
  {
    if names != [] {
      FewPayloads(names[0], names[1..], budget);
      FewPayloads(Names.Add(current, names[0]), names[1..], budget);
    }
  }

  lemma {:induction false} FewNames(st: State, ch: Chan, ids: seq<int>)
    ensures |DisplayedNames(st, ch, ids)| <= |ids|
    decreases |ids|
  {
    if ids != [] {
      FewNames(st, ch, ids[1..]);
    }
  }

  lemma SendNamesFilled(st: State, id: int, key: string)
    requires id in st.users && key in st.channels
    ensures Filled(st, SendNames(st, id, key).st, |st.channels[key].members| + 1)
  {
    hide Filled, Numeric, SendPayloads, Serialize, DisplayedNames, NumericMessage, Told, Enumerates;
    var ch := st.channels[key];
    NotFilled(st, st);
    FilledMore(st, st, 0, |ch.members| + 1);
    match Serialize(NumericMessage(st.users[id].account, "353", ["=", ch.name], ""))
    case Failure(_) =>
    case Success(empty) =>
      if |empty| <= MAX_MESSAGE_LENGTH {
        var ids, budget := st.walk(ch.members), MAX_MESSAGE_LENGTH - |empty|;
        WalkEnumerates(st.walk, ch.members);
        EnumerationSize(ids, ch.members);
        FewNames(st, ch, ids);
        var payloads := Names.Pack("", DisplayedNames(st, ch, ids), budget);
        FewPayloads("", DisplayedNames(st, ch, ids), budget);
        var r := SendPayloads(st, id, ch.name, payloads);
        PayloadsFilled(st, id, ch.name, payloads);
        NumericTold(r.st, id, "366", One(ch.name), "End of /NAMES list");
        var last := Numeric(r.st, id, "366", One(ch.name), "End of /NAMES list").st;
        ToldFills(r.st, last, id, 1);
        FilledTrans(st, r.st, last, |payloads|, 1);
        FilledMore(st, last, |payloads| + 1, |ch.members| + 1);
        FilledMore(st, r.st, |payloads|, |ch.members| + 1);
      }
  }

  lemma SendTopicTold(st: State, id: int, key: string)
    requires id in st.users && key in st.channels
    ensures Told(st, SendTopic(st, id, key).st, id, 1)
  {
    hide Numeric, Told;
    NumericTold(st, id, "331", One(st.channels[key].name), "No topic is set");
    NumericTold(st, id, "332", One(st.channels[key].name), st.channels[key].topic);
  }

  lemma JoinRepliesFilled(st: State, id: int, key: string)
    requires id in st.users && key in st.channels && JoinReplies(st, id, key).Done?
    ensures Filled(st, JoinReplies(st, id, key).st, |st.channels[key].members| + 3)
  {
    hide Filled, Say, SendTopic, SendNames, JoinMessage, Told;
    var members := st.channels[key].members;
    var r1 := Say(st, members, JoinMessage(st, id, key));
    SayFilled(st, members, JoinMessage(st, id, key));
    var r2 := SendTopic(r1.st, id, key);
    SendTopicTold(r1.st, id, key);
    ToldFills(r1.st, r2.st, id, 1);
    FilledTrans(st, r1.st, r2.st, 1, 1);
    var r3 := SendNames(r2.st, id, key);
    SendNamesFilled(r2.st, id, key);
    FilledTrans(st, r2.st, r3.st, 2, |members| + 1);
  }

  lemma RoomName()
    ensures ValidChannelName(ROOM) && ValidMiddle(ROOM) && Normalize(ROOM) == ROOM && SplitCommas(ROOM) == [ROOM]
  {
    assert ROOM[1..] == "a" && "a"[1..] == "";
    assert SplitCommas("") == [""];
    assert SplitCommas("a") == ["a"];
  }

  /** "#a" does not exist yet, or is an open channel of at most one member with a short name. */
  predicate Welcoming(st: State) {
    ROOM in st.channels ==>
      var ch := st.channels[ROOM];
      && ch == Chan(ROOM, "", ch.members, ch.operators, {}, NO_FLAGS, []) && |ch.members| <= 1
      && forall i :: i in ch.members && i in st.users ==> Short(st.users[i].account)
  }

  lemma RoomAdmits(st: State, id: int)
    requires Inv(st) && id in st.users && Welcoming(st) && ROOM !in st.users[id].joined
    ensures Admits(st, id, ROOM, "") && Found(st, ROOM).history == [] && |Found(st, ROOM).members| <= 1
  {
    RoomName();
    assert ROOM in st.users[id].joined <==> ROOM in st.channels && id in st.channels[ROOM].members;
    hide Inv, ValidChannelName, Normalize;
  }

  lemma RoomFits(st: State, id: int)
    requires id in st.users && Short(st.users[id].account) && Welcoming(st)
    ensures JoinFits(st, id, ROOM)
  {
    RoomName();
    ShortNames(st.users[id].account);
    assert LineSafe("");
    hide Normalize, PrefixOf, ValidNick, ReplyTarget;
    var ch := Found(st, ROOM);
    assert ch.name == ROOM && ch.topic == "";
  }

  /** What entering "#a" leaves. */
  lemma RoomEntered(st: State, id: int)
    requires Inv(st) && id in st.users && st.users[id].account.registered && Admits(st, id, ROOM, "")
    ensures var st0 := FindOrCreate(st, ROOM);
            && ROOM in st0.channels && st0.users == st.users
            && var st1 := Enter(st0, id, ROOM);
               && st1.channels == st.channels[ROOM := Admit(Found(st, ROOM), id)] && Inv(st1)
               && st1 == st.(channels := st1.channels, users := st1.users)
               && st1.users == st.users[id := st.users[id].(joined := st.users[id].joined + {ROOM})]
  {
    RoomName();
    hide Inv, Normalize, ValidChannelName, Denial, Follows, Enterable;
    FindOrCreateEnterable(st, ROOM);
    EnterKeeps(FindOrCreate(st, ROOM), id, ROOM);
    assert FindOrCreate(st, ROOM).channels[ROOM] == Found(st, ROOM);
    NameOf(st, id);
  }

  lemma NameOf(st: State, id: int)
    requires Inv(st)
    ensures Normalize(Found(st, ROOM).name) == ROOM
  {
    RoomName();
    if ROOM in st.channels {
      assert ChanOk(st.channels[ROOM], ROOM, st.users);
    }
  }

  lemma NothingReplayed(st: State, id: int, key: string)
    requires id in st.users && key in st.channels && st.channels[key].history == []
    ensures var after := Replay(st, id, key);
            && after == st.(users := st.users[id := st.users[id].(marks := after.users[id].marks)])
            && Filled(st, after, 0)
  {
    assert EntryLines([]) == [];
  }

  /** Its name and its channels are as after entering; everyone has had five lines at most. */
  ghost predicate Joined(st: State, s: State, id: int) {
    && id in st.users && s.users.Keys == st.users.Keys
    && s.channels == st.channels[ROOM := Admit(Found(st, ROOM), id)] && s.nicks == st.nicks
    && Filled(st, s, 5)
    && forall i :: i in st.users ==>
         && s.users[i].account == st.users[i].account
         && s.users[i].joined == st.users[i].joined + (if i == id then {ROOM} else {})
  }

  /** The replies and the replay of an empty history, in a channel of one or two. */
  lemma RoomAnswered(st1: State, id: int)
    requires Inv(st1) && id in st1.users && ROOM in st1.channels && |st1.channels[ROOM].members| <= 2
    requires st1.channels[ROOM].history == [] && JoinReplies(st1, id, ROOM).Done?
    ensures var s := Replay(JoinReplies(st1, id, ROOM).st, id, ROOM);
            && Filled(st1, s, 5) && s.channels == st1.channels && s.nicks == st1.nicks
            && forall i :: i in st1.users ==>
                 s.users[i].account == st1.users[i].account && s.users[i].joined == st1.users[i].joined
  {
    hide Inv, JoinReplies, Replay, Quiet, Filled;
    var r := JoinReplies(st1, id, ROOM);
    var n := |st1.channels[ROOM].members| + 3;
    JoinRepliesQuiet(st1, id, ROOM);
    JoinRepliesFilled(st1, id, ROOM);
    SaidOnly(st1, r.st);
    NothingReplayed(r.st, id, ROOM);
    FilledTrans(st1, r.st, Replay(r.st, id, ROOM), n, 0);
    FilledMore(st1, Replay(r.st, id, ROOM), n, 5);
  }

  /** A JOIN of "#a" is entering it, the replies and the replay. */
  lemma RoomRuns(st: State, id: int)
    requires Inv(st) && id in st.users && st.users[id].account.registered
    requires Welcoming(st) && ROOM !in st.users[id].joined && Short(st.users[id].account)
    ensures Admits(st, id, ROOM, "") && |Found(st, ROOM).members| <= 1 && Found(st, ROOM).history == []
    ensures var st0 := FindOrCreate(st, ROOM);
            && ROOM in st0.channels && id in st0.users
            && var r := JoinReplies(Enter(st0, id, ROOM), id, ROOM);
               r.Done? && JoinOne(st, id, ROOM, "") == Done(Replay(r.st, id, ROOM))
  {
    hide Inv, Welcoming, Short, Admits, JoinFits, JoinOne, JoinReplies, Enter, FindOrCreate, Replay, Found;
    RoomName();
    RoomAdmits(st, id);
    RoomFits(st, id);
    RoomEntered(st, id);
    JoinCompletes(st, id, ROOM, "");
    JoinRuns(st, id, ROOM, "");
  }

  lemma RoomJoined(st: State, id: int)
    requires Inv(st) && id in st.users && !Virtual(id) && st.users[id].account.registered
    requires Welcoming(st) && ROOM !in st.users[id].joined && Short(st.users[id].account)
    ensures JoinOne(st, id, ROOM, "").Done? && Joined(st, JoinOne(st, id, ROOM, "").st, id)
  {
    hide Inv, Welcoming, Short, Admits, JoinOne, JoinReplies, Enter, FindOrCreate, Replay, Filled, Found, Admit;
    RoomRuns(st, id);
    RoomEntered(st, id);
    var st1 := Enter(FindOrCreate(st, ROOM), id, ROOM);
    AdmitHistory(Found(st, ROOM), id);
    RoomAnswered(st1, id);
    var s := Replay(JoinReplies(st1, id, ROOM).st, id, ROOM);
    NotFilled(st, st1);
    FilledTrans(st, st1, s, 0, 5);
  }

  lemma AdmitHistory(ch: Chan, id: int)
    ensures Admit(ch, id).history == ch.history && |Admit(ch, id).members| <= |ch.members| + 1
  {
  }

  lemma SaidOnly(a: State, b: State)
    requires Quiet(a, b)
    ensures b == a.(users := b.users) && b.users.Keys == a.users.Keys
    ensures forall i :: i in a.users ==>
              b.users[i].account == a.users[i].account && b.users[i].joined == a.users[i].joined
  {
  }

  lemma JoinDispatched(st: State, id: int, answer: BotAnswer)
    requires id in st.users && st.users[id].account.registered
    requires JoinOne(st, id, ROOM, "").st.users[id].account.registered
    ensures Dispatch(st, id, Command("JOIN", [ROOM]), answer) == JoinOne(st, id, ROOM, "")
  {
    hide Numeric, Welcome, JoinOne;
    RoomName();
    var r := JoinOne(st, id, ROOM, "");
    assert [ROOM][1..] == [];
    assert JoinAll(st, id, [ROOM], []) == if r.Threw? then r else Done(r.st) by {
      if r.Done? {
        assert JoinAll(r.st, id, [], []) == Done(r.st);
      }
    }
    assert Execute(st, id, Command("JOIN", [ROOM]), answer) == Join(st, id, [ROOM]);
  }

  lemma JoinPlain()
    ensures Plain(Command("JOIN", [ROOM]))
  {
    hide Plain, Total, ValidCommand, Upper;
    CommandNames();
    RoomName();
    assert Middles([ROOM]);
    assert Total([ROOM]) == 3 by { assert [ROOM][1..] == []; OneTotal(ROOM); }
    ShortIsPlain("JOIN", [ROOM]);
  }

  lemma OneTotal(param: string)
    ensures Total([param]) == 1 + |param|
  {
    assert [param][1..] == [];
  }

  /** A run in which this client goes on to join "#a". */
  lemma Joins(st: State, fd: int, a: Account, pending: nat) returns (s: State)
    requires Reached(st) && Person(st, fd, a, {}, pending) && a.registered && Short(a) && Welcoming(st)
    requires pending + 5 * MAX_MESSAGE_LENGTH <= MAX_OUTPUT_BUFFER
    ensures Reached(s) && Person(s, fd, a, {ROOM}, pending + 5 * MAX_MESSAGE_LENGTH)
    ensures Joined(st, s, fd) && s.order == st.order
    ensures forall i :: i in st.users && i != fd ==> s.users[i].inBuffer == st.users[i].inBuffer
  {
    var m := Command("JOIN", [ROOM]);
    hide Reached, Healthy, Sound, Inv, Plain, Serialize, Taken, Dispatch, JoinOne, Short, Step, Follows, Joined,
      Welcoming;
    JoinPlain();
    PlainRead(m);
    ReachedHealthy(st);
    TakenFrame(st, fd, m);
    var taken := Taken(st, fd, m);
    StillWelcoming(st, taken, fd);
    RoomJoined(taken, fd);
    JoinedPerson(taken, JoinOne(taken, fd, ROOM, "").st, fd, pending);
    JoinDispatched(taken, fd, SILENT(|st.users[fd].lines|));
    s := LineReaches(st, fd, m);
    FollowsFrame(taken, s);
    JoinedBefore(st, taken, s, fd);
  }

  lemma FollowsFrame(a: State, b: State)
    requires Follows(a, b)
    ensures b.order == a.order && b.users.Keys == a.users.Keys
    ensures forall i :: i in a.users ==> b.users[i].inBuffer == a.users[i].inBuffer
  {
  }

  lemma StillWelcoming(st: State, taken: State, fd: int)
    requires Welcoming(st) && fd in st.users && fd in taken.users && taken == st.(users := taken.users)
    requires taken.users == st.users[fd := taken.users[fd]] && taken.users[fd].account == st.users[fd].account
    ensures Welcoming(taken)
  {
    hide Short;
  }

  lemma JoinedPerson(st: State, s: State, fd: int, pending: nat)
    requires Joined(st, s, fd) && !st.users[fd].out.closing && |st.users[fd].out.buffer| <= pending
    requires pending + 5 * MAX_MESSAGE_LENGTH <= MAX_OUTPUT_BUFFER
    ensures fd in s.users && s.users[fd].account == st.users[fd].account
    ensures s.users[fd].joined == st.users[fd].joined + {ROOM}
    ensures !s.users[fd].out.closing && |s.users[fd].out.buffer| <= pending + 5 * MAX_MESSAGE_LENGTH
  {
    assert Fuller(st.users[fd].out, s.users[fd].out, 5);
  }

  lemma JoinedBefore(st: State, taken: State, s: State, fd: int)
    requires Joined(taken, s, fd) && fd in st.users && taken == st.(users := taken.users)
    requires taken.users == st.users[fd := taken.users[fd]]
    requires var u, v := st.users[fd], taken.users[fd]; v.account == u.account && v.joined == u.joined && v.out == u.out
    ensures Joined(st, s, fd)
  {
    hide Fuller, Admit;
  }
}
