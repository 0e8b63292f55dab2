// What each command does to the server, as a function of the state
// (CommandDispatcher.cpp, Server.cpp and Bot.cpp). An Outcome that threw is the
// exception the command dispatch of Server::processClientBuffer catches.
module Commands {
  import opened Results
  import opened IrcCasemap
  import opened Codec
  import opened CommaList
  import opened ChannelModes
  import Names
  import opened Walks
  import opened ServerState
  import opened Primitives
  import opened Membership
  import opened ChannelLog

  const SERVER_NAME: string := "irc.42.local"
  const BOT_NICK: string := "marvin"
  const HOME_CHANNEL: string := "#bot"
  const BOT_GREETING: string := "Hello! Type !help to see my commands."

  /** What the bot's text commands answered, if anything; `notice` for CTCP. */
  datatype BotAnswer = BotAnswer(text: string, notice: bool)

  // ------------------------------------------------------------------
  // Replies
  // ------------------------------------------------------------------

  function PrefixOf(a: Account): string {
    a.nick + "!" + a.username + "@" + a.host
  }

  /** A prefix that the printer accepts. */
  predicate CleanPrefix(prefix: string) {
    prefix != "" && ValidPrefix(prefix)
  }

  /** The same clients, channels, nicknames and descriptors; only client records differ. */
  ghost predicate SameRegistry(a: State, b: State) {
    b == a.(users := b.users) && b.users.Keys == a.users.Keys
  }

  /** Serialize a message and offer it to a set of clients. */
  function Say(st: State, to: set<int>, m: IrcMessage): (r: Outcome)
    ensures SameRegistry(st, r.st)
  {
    match Serialize(m)
    case Failure(_) => Threw(st)
    case Success(line) => Done(Broadcast(st, to, line, None))
  }

  function ReplyTarget(a: Account): string {
    if a.nick == "" then "*" else a.nick
  }

  function NumericMessage(a: Account, code: string, params: seq<string>, trailing: string): IrcMessage {
    IrcMessage(code, [ReplyTarget(a)] + params + [trailing], SERVER_NAME, true)
  }

  /** Server::queueNumericReply with a trailing text. */
  function Numeric(st: State, id: int, code: string, params: seq<string>, trailing: string): (r: Outcome)
    requires id in st.users
    ensures SameRegistry(st, r.st)
  {
    Say(st, {id}, NumericMessage(st.users[id].account, code, params, trailing))
  }

  /** The overload without a trailing text. */
  function NumericPlain(st: State, id: int, code: string, params: seq<string>): (r: Outcome)
    requires id in st.users
    ensures SameRegistry(st, r.st)
  {
    Say(st, {id}, IrcMessage(code, [ReplyTarget(st.users[id].account)] + params, SERVER_NAME, false))
  }

  /** The overload with one parameter leaves an empty parameter out. */
  function One(param: string): seq<string> {
    if param == "" then [] else [param]
  }

  function MissingParams(st: State, id: int, command: string): (r: Outcome)
    requires id in st.users
    ensures r.st.users.Keys == st.users.Keys
  {
    Numeric(st, id, "461", One(command), "Not enough parameters")
  }

  // ------------------------------------------------------------------
  // Registration: PASS, NICK, USER
  // ------------------------------------------------------------------

  function Pass(st: State, id: int, params: seq<string>): (r: Outcome)
    requires id in st.users && |params| >= 1
    ensures r.st.users.Keys == st.users.Keys
  {
    var a := st.users[id].account;
    if a.registered then Numeric(st, id, "462", [], "You may not reregister")
    else
      var ok := params[0] == st.password;
      var st1 := WithAccount(st, id, a.(passOk := ok, offered := params[0]));
      if ok then Done(st1) else Numeric(st1, id, "464", [], "Password incorrect")
  }

  /** The other clients that share a channel with this one. */
  function Related(st: State, id: int): set<int>
    requires id in st.users
  {
    set other | other in st.users && other != BOT && other != id
                && st.users[other].joined * st.users[id].joined != {}
  }

  /** Server::queueMessageToRelatedClients. */
  function SayRelated(st: State, id: int, m: IrcMessage): (r: Outcome)
    requires id in st.users
    ensures r.st.users.Keys == st.users.Keys
  {
    Say(st, {id} + Related(st, id), m)
  }

  function Nick(st: State, id: int, params: seq<string>): (r: Outcome)
    requires id in st.users && |params| >= 1
    ensures r.st.users.Keys == st.users.Keys
  {
    var nick := params[0];
    if nick == "" then Numeric(st, id, "431", [], "No nickname given")
    else if !ValidNick(nick) then Numeric(st, id, "432", One(nick), "Erroneous nickname")
    else
      var before := st.users[id].account;
      match AssignNick(st, id, nick)
      case None => Numeric(st, id, "433", One(nick), "Nickname is already in use")
      case Some(st1) =>
        if !before.registered || before.nick == nick then Done(st1)
        else SayRelated(st1, id, IrcMessage("NICK", [nick], PrefixOf(before), true))
  }

  function UserCommand(st: State, id: int, params: seq<string>): (r: Outcome)
    requires id in st.users && |params| >= 4
    ensures r.st.users.Keys == st.users.Keys
  {
    var a := st.users[id].account;
    if a.registered then Numeric(st, id, "462", [], "You may not reregister")
    else if params[0] == "" || params[3] == "" then MissingParams(st, id, "USER")
    else Done(WithAccount(st, id, a.(username := params[0], realname := params[3], userGiven := true)))
  }

  /** Server::sendWelcomeMessages. */
  function Welcome(st: State, id: int): (r: Outcome)
    requires id in st.users
    ensures SameRegistry(st, r.st)
  {
    var st1 :- Numeric(st, id, "001", [], "Welcome to the IRC Network " + PrefixOf(st.users[id].account));
    var st2 :- Numeric(st1, id, "002", [], "Your host is " + SERVER_NAME);
    var st3 :- Numeric(st2, id, "003", [], "This server was created today");
    var st4 :- NumericPlain(st3, id, "004", [SERVER_NAME, "1.0", "o", "itkol"]);
    Numeric(st4, id, "005", ["CHANTYPES=#", "PREFIX=(o)@", "CHANMODES=,k,l,it", "CASEMAPPING=rfc1459"],
            "are supported by this server")
  }

  /** Server::tryRegisterClient. */
  function TryRegister(st: State, id: int): (r: Outcome)
    requires id in st.users
    ensures r.st.users.Keys == st.users.Keys
  {
    var a := st.users[id].account;
    if a.registered || !(a.passOk && a.nickGiven && a.userGiven) then Done(st)
    else Welcome(WithAccount(st, id, a.(registered := true, welcomes := a.welcomes + 1)), id)
  }

  // ------------------------------------------------------------------
  // The bot
  // ------------------------------------------------------------------

  /** Bot::clipTrailing. */
  function Clip(prefix: string, command: string, target: string, text: string): string {
    var overhead := |prefix| + |command| + |target| + 7;
    if overhead >= MAX_MESSAGE_LENGTH then ""
    else if |text| <= MAX_MESSAGE_LENGTH - overhead then text
    else text[..MAX_MESSAGE_LENGTH - overhead]
  }

  /** Bot::sendText. */
  function BotText(st: State, to: set<int>, target: string, command: string, text: string): (r: Outcome)
    ensures r.st.users.Keys == st.users.Keys
  {
    if BOT !in st.users || text == "" then Done(st)
    else
      var prefix := PrefixOf(st.users[BOT].account);
      var clipped := Clip(prefix, command, target, text);
      if clipped == "" then Done(st)
      else Say(st, to, IrcMessage(command, [target, clipped], prefix, true))
  }

  function JoinMessage(st: State, id: int, key: string): IrcMessage
    requires id in st.users && key in st.channels
  {
    IrcMessage("JOIN", [st.channels[key].name], PrefixOf(st.users[id].account), true)
  }

  function WithOperator(st: State, key: string, id: int): State
    requires key in st.channels
  {
    var ch := st.channels[key];
    WithChan(st, key, ch.(operators := ch.operators + {id}))
  }

  /** Bot::joinChannel. */
  function BotJoin(st: State, key: string, greet: bool): (r: Outcome)
    requires key in st.channels
    ensures r.st.users.Keys == st.users.Keys
  {
    if BOT !in st.users || BOT in st.channels[key].members then Done(st)
    else
      var st1 := Enter(st, BOT, key);
      var st2 :- Say(st1, st1.channels[key].members, JoinMessage(st1, BOT, key));
      var ch := st2.channels[key];
      var st3 := if Equal(ch.name, HOME_CHANNEL) && BOT !in ch.operators then WithOperator(st2, key, BOT) else st2;
      if greet then BotText(st3, st3.channels[key].members, ch.name, "PRIVMSG", BOT_GREETING) else Done(st3)
  }

  /** Bot::handleKick: back into the home channel, recreated when it vanished. */
  function BotKicked(st: State, name: string): (r: Outcome)
    ensures r.st.users.Keys == st.users.Keys
  {
    if BOT !in st.users || !Equal(name, HOME_CHANNEL) then Done(st)
    else BotJoin(FindOrCreate(st, HOME_CHANNEL), Normalize(HOME_CHANNEL), false)
  }

  // ------------------------------------------------------------------
  // JOIN
  // ------------------------------------------------------------------

  function FindChan(st: State, name: string): Option<string> {
    var key := Normalize(name);
    if key != "" && key in st.channels then Some(key) else None
  }

  datatype Refusal = Refusal(code: string, text: string)

  /** Server::validateChannelJoinAccess: limit, then invitation, then key. */
  function Denial(ch: Chan, id: int, key: string): Option<Refusal> {
    if ch.flags.limitEnabled && |ch.members| >= ch.flags.limit then
      Some(Refusal("471", "Cannot join channel (+l)"))
    else if ch.flags.inviteOnly && id !in ch.invited then
      Some(Refusal("473", "Cannot join channel (+i)"))
    else if ch.flags.keyEnabled && ch.flags.key != key then
      Some(Refusal("475", "Cannot join channel (+k)"))
    else None
  }

  function SendTopic(st: State, id: int, key: string): (r: Outcome)
    requires id in st.users && key in st.channels
    ensures SameRegistry(st, r.st)
  {
    var ch := st.channels[key];
    if ch.topic == "" then Numeric(st, id, "331", One(ch.name), "No topic is set")
    else Numeric(st, id, "332", One(ch.name), ch.topic)
  }

  /** A member as NAMES displays it: '@' in front of an operator. */
  function Displayed(st: State, ch: Chan, id: int): string
    requires id in st.users
  {
    (if id in ch.operators then "@" else "") + st.users[id].account.nick
  }

  /** The displayed names of the members that have a nickname. */
  function DisplayedNames(st: State, ch: Chan, ids: seq<int>): seq<string> {
    if ids == [] then []
    else
      (if ids[0] in st.users && st.users[ids[0]].account.nick != "" then [Displayed(st, ch, ids[0])] else [])
      + DisplayedNames(st, ch, ids[1..])
  }

  function SendPayloads(st: State, id: int, name: string, payloads: seq<string>): (r: Outcome)
    requires id in st.users
    ensures SameRegistry(st, r.st)
    decreases |payloads|
  {
    if payloads == [] then Done(st)
    else
      var st1 :- Numeric(st, id, "353", ["=", name], payloads[0]);
      SendPayloads(st1, id, name, payloads[1..])
  }

  /** Server::sendChannelNames. */
  function SendNames(st: State, id: int, key: string): (r: Outcome)
    requires id in st.users && key in st.channels
    ensures SameRegistry(st, r.st)
  {
    var ch := st.channels[key];
    match Serialize(NumericMessage(st.users[id].account, "353", ["=", ch.name], ""))
    case Failure(_) => Threw(st)
    case Success(empty) =>
      if |empty| > MAX_MESSAGE_LENGTH then Threw(st)
      else
        var names := DisplayedNames(st, ch, st.walk(ch.members));
        var st1 :- SendPayloads(st, id, ch.name, Names.Pack("", names, MAX_MESSAGE_LENGTH - |empty|));
        Numeric(st1, id, "366", One(ch.name), "End of /NAMES list")
  }

  /** What joinClientToSingleChannel sends once the client is a member. */
  function JoinReplies(st: State, id: int, key: string): (r: Outcome)
    requires id in st.users && key in st.channels
    ensures SameRegistry(st, r.st)
  {
    var st1 :- Say(st, st.channels[key].members, JoinMessage(st, id, key));
    var st2 :- SendTopic(st1, id, key);
    SendNames(st2, id, key)
  }

  /** CommandDispatcher::joinClientToSingleChannel. */
  function JoinOne(st: State, id: int, name: string, providedKey: string): (r: Outcome)
    requires id in st.users
    ensures r.st.users.Keys == st.users.Keys
  {
    if !ValidChannelName(name) then Numeric(st, id, "403", One(name), "No such channel")
    else
      var key := Normalize(name);
      var st0 := FindOrCreate(st, name);
      var ch := st0.channels[key];
      if id in ch.members then Done(st0)
      else
        match Denial(ch, id, providedKey)
        case Some(refusal) => Numeric(st0, id, refusal.code, One(ch.name), refusal.text)
        case None =>
          var st1 :- JoinReplies(Enter(st0, id, key), id, key);
          Done(Replay(st1, id, key))
  }

  /** The loop of handleJoin; a failure for one channel does not stop the others. */
  function JoinAll(st: State, id: int, names: seq<string>, keys: seq<string>): (r: Outcome)
    requires id in st.users
    ensures r.st.users.Keys == st.users.Keys
    decreases |names|
  {
    if names == [] then Done(st)
    else
      var st1 :- JoinOne(st, id, names[0], if keys == [] then "" else keys[0]);
      JoinAll(st1, id, names[1..], if keys == [] then [] else keys[1..])
  }

  function Join(st: State, id: int, params: seq<string>): (r: Outcome)
    requires id in st.users && |params| >= 1
    ensures r.st.users.Keys == st.users.Keys
  {
    if params[0] == "" then MissingParams(st, id, "JOIN")
    else JoinAll(st, id, SplitCommas(params[0]), if |params| > 1 then SplitCommas(params[1]) else [])
  }

  // ------------------------------------------------------------------
  // PART, INVITE, KICK
  // ------------------------------------------------------------------

  /** CommandDispatcher::partClientFromSingleChannel; `reason` is absent when none was given. */
  function PartOne(st: State, id: int, name: string, reason: Option<string>): (r: Outcome)
    requires id in st.users
    ensures r.st.users.Keys == st.users.Keys
  {
    match FindChan(st, name)
    case None => Numeric(st, id, "403", One(name), "No such channel")
    case Some(key) =>
      var ch := st.channels[key];
      if id !in ch.members then Numeric(st, id, "442", One(ch.name), "You're not on that channel")
      else
        var params := [ch.name] + (if reason.Some? then [reason.value] else []);
        var st1 :- Say(st, ch.members, IrcMessage("PART", params, PrefixOf(st.users[id].account), reason.Some?));
        Done(Leave(st1, id, key))
  }

  function PartAll(st: State, id: int, names: seq<string>, reason: Option<string>): (r: Outcome)
    requires id in st.users
    ensures r.st.users.Keys == st.users.Keys
    decreases |names|
  {
    if names == [] then Done(st)
    else
      var st1 :- PartOne(st, id, names[0], reason);
      PartAll(st1, id, names[1..], reason)
  }

  function Part(st: State, id: int, params: seq<string>): (r: Outcome)
    requires id in st.users && |params| >= 1
    ensures r.st.users.Keys == st.users.Keys
  {
    if params[0] == "" then MissingParams(st, id, "PART")
    else PartAll(st, id, SplitCommas(params[0]), if |params| > 1 then Some(params[1]) else None)
  }

  function WithInvited(st: State, key: string, id: int): State
    requires key in st.channels
  {
    var ch := st.channels[key];
    if id in ch.members then st else WithChan(st, key, ch.(invited := ch.invited + {id}))
  }

  function NickOfUser(st: State, id: int): string {
    if id in st.users then st.users[id].account.nick else ""
  }

  /** What handleInvite does once every check has passed. */
  function InviteTarget(st: State, id: int, target: int, key: string): (r: Outcome)
    requires id in st.users && key in st.channels
    ensures r.st.users.Keys == st.users.Keys
  {
    var ch := st.channels[key];
    var nick := NickOfUser(st, target);
    var st1 := WithInvited(st, key, target);
    var st2 :- NumericPlain(st1, id, "341", [nick, ch.name]);
    var st3 :- Say(st2, {target}, IrcMessage("INVITE", [nick, ch.name], PrefixOf(st2.users[id].account), true));
    if target == BOT then BotJoin(st3, key, true) else Done(st3)
  }

  function Invite(st: State, id: int, params: seq<string>): (r: Outcome)
    requires id in st.users && |params| >= 2
    ensures r.st.users.Keys == st.users.Keys
  {
    var nick, name := params[0], params[1];
    if nick == "" || name == "" then MissingParams(st, id, "INVITE")
    else
      match FindChan(st, name)
      case None => Numeric(st, id, "403", One(name), "No such channel")
      case Some(key) =>
        var ch := st.channels[key];
        match FindNick(st, nick)
        case None => Numeric(st, id, "401", One(nick), "No such nick")
        case Some(target) =>
          if id !in ch.members then Numeric(st, id, "442", One(ch.name), "You're not on that channel")
          else if target in ch.members then
            Numeric(st, id, "443", [NickOfUser(st, target), ch.name], "is already on channel")
          else if id !in ch.operators then
            Numeric(st, id, "482", One(ch.name), "You're not channel operator")
          else InviteTarget(st, id, target, key)
  }

  /** What handleKick does once every check has passed. */
  function KickTarget(st: State, id: int, target: int, key: string, reason: string): (r: Outcome)
    requires id in st.users && target in st.users && key in st.channels
    ensures r.st.users.Keys == st.users.Keys
  {
    var ch := st.channels[key];
    var params := [ch.name, NickOfUser(st, target), reason];
    var st1 :- Say(st, ch.members, IrcMessage("KICK", params, PrefixOf(st.users[id].account), true));
    var st2 := Leave(st1, target, key);
    if target == BOT then BotKicked(st2, ch.name) else Done(st2)
  }

  function Kick(st: State, id: int, params: seq<string>): (r: Outcome)
    requires id in st.users && |params| >= 2
    ensures r.st.users.Keys == st.users.Keys
  {
    var name, nick := params[0], params[1];
    if name == "" || nick == "" then MissingParams(st, id, "KICK")
    else
      match FindChan(st, name)
      case None => Numeric(st, id, "403", One(name), "No such channel")
      case Some(key) =>
        var ch := st.channels[key];
        match FindNick(st, nick)
        case None => Numeric(st, id, "401", One(nick), "No such nick")
        case Some(target) =>
          if id !in ch.members then Numeric(st, id, "442", One(ch.name), "You're not on that channel")
          else if id !in ch.operators then
            Numeric(st, id, "482", One(ch.name), "You're not channel operator")
          else if target !in ch.members || target !in st.users then
            Numeric(st, id, "441", [NickOfUser(st, target), ch.name], "They aren't on that channel")
          else
            var reason := if |params| >= 3 && params[2] != "" then params[2] else st.users[id].account.nick;
            KickTarget(st, id, target, key, reason)
  }

  // ------------------------------------------------------------------
  // TOPIC and MODE
  // ------------------------------------------------------------------

  function WithTopic(st: State, key: string, topic: string): State
    requires key in st.channels
  {
    WithChan(st, key, st.channels[key].(topic := topic))
  }

  function Topic(st: State, id: int, params: seq<string>, hasTrailing: bool): (r: Outcome)
    requires id in st.users && |params| >= 1
    ensures r.st.users.Keys == st.users.Keys
  {
    var name := params[0];
    if name == "" then MissingParams(st, id, "TOPIC")
    else
      match FindChan(st, name)
      case None => Numeric(st, id, "403", One(name), "No such channel")
      case Some(key) =>
        var ch := st.channels[key];
        if id !in ch.members then Numeric(st, id, "442", One(ch.name), "You're not on that channel")
        else if !hasTrailing && |params| < 2 then SendTopic(st, id, key)
        else if ch.flags.topicRestricted && id !in ch.operators then
          Numeric(st, id, "482", One(ch.name), "You're not channel operator")
        else
          var topic := if |params| >= 2 then params[1] else "";
          Say(WithTopic(st, key, topic), ch.members,
              IrcMessage("TOPIC", [ch.name, topic], PrefixOf(st.users[id].account), true))
  }

  function LookupOf(nicks: map<string, int>): Lookup {
    nick => FindIn(nicks, nick)
  }

  function LookupIn(st: State): Lookup {
    LookupOf(st.nicks)
  }

  function NicksIn(st: State): NickOf {
    id => NickOfUser(st, id)
  }

  function ModedOf(ch: Chan): Moded {
    Moded(ch.flags, ch.operators)
  }

  function WithModed(ch: Chan, m: Moded): Chan {
    ch.(flags := m.flags, operators := m.operators)
  }

  /** CommandDispatcher::applyChannelModeOperations. */
  function ApplyModes(st: State, key: string, ops: seq<ModeOp>): State
    requires key in st.channels
  {
    var ch := st.channels[key];
    WithChan(st, key, WithModed(ch, Apply(ModedOf(ch), ch.members, LookupIn(st), ops)))
  }

  function ModeMessage(st: State, id: int, name: string, ops: seq<ModeOp>): IrcMessage
    requires id in st.users
  {
    IrcMessage("MODE", [name, Letters(ops, '\0')] + Arguments(ops), PrefixOf(st.users[id].account), false)
  }

  /** An operator's mode string: parse and validate everything, then apply everything. */
  function ChangeModes(st: State, id: int, key: string, params: seq<string>): (r: Outcome)
    requires id in st.users && key in st.channels && |params| >= 2
    ensures r.st.users.Keys == st.users.Keys
  {
    var ch := st.channels[key];
    match ParseModes(params[1], params[2..], Add)
    case Rejected(unknown) =>
      if unknown != '\0' then Numeric(st, id, "472", One([unknown]), "is unknown mode char to me")
      else MissingParams(st, id, "MODE")
    case Parsed(ops) =>
      match Validate(ops, ch.members, LookupIn(st), NicksIn(st))
      case Failure(NoSuchNick(nick)) => Numeric(st, id, "401", One(nick), "No such nick")
      case Failure(NotInChannel(nick)) => Numeric(st, id, "441", [nick, ch.name], "They aren't on that channel")
      case Failure(NeedMoreParams) => MissingParams(st, id, "MODE")
      case Success(valid) =>
        var st1 := ApplyModes(st, key, valid);
        if valid == [] then Done(st1)
        else Say(st1, ch.members, ModeMessage(st1, id, ch.name, valid))
  }

  function Mode(st: State, id: int, params: seq<string>): (r: Outcome)
    requires id in st.users && |params| >= 1
    ensures r.st.users.Keys == st.users.Keys
  {
    var name := params[0];
    if name == "" then MissingParams(st, id, "MODE")
    else if name[0] != '#' then Done(st)
    else
      match FindChan(st, name)
      case None => Numeric(st, id, "403", One(name), "No such channel")
      case Some(key) =>
        var ch := st.channels[key];
        if |params| < 2 || params[1] == "" then
          NumericPlain(st, id, "324", [ch.name, QueryFlags(ch.flags)] + QueryArguments(ch.flags))
        else if id !in ch.members then Numeric(st, id, "442", One(ch.name), "You're not on that channel")
        else if id !in ch.operators then Numeric(st, id, "482", One(ch.name), "You're not channel operator")
        else ChangeModes(st, id, key, params)
  }

  // ------------------------------------------------------------------
  // PRIVMSG and NOTICE
  // ------------------------------------------------------------------

  /** CommandDispatcher::sendMessageToUser. */
  function MessageToUser(st: State, id: int, nick: string, text: string, notice: bool, answer: BotAnswer): (r: Outcome)
    requires id in st.users
    ensures r.st.users.Keys == st.users.Keys
  {
    match FindNick(st, nick)
    case None => if notice then Done(st) else Numeric(st, id, "401", One(nick), "No such nick")
    case Some(target) =>
      var command := if notice then "NOTICE" else "PRIVMSG";
      var st1 :- Say(st, {target}, IrcMessage(command, [nick, text], PrefixOf(st.users[id].account), true));
      if !notice && target == BOT && id != BOT then
        BotText(st1, {id}, st1.users[id].account.nick, if answer.notice then "NOTICE" else "PRIVMSG", answer.text)
      else Done(st1)
  }

  /** CommandDispatcher::sendMessageToChannel: PRIVMSG is stored and logged, NOTICE is not. */
  function MessageToChannel(st: State, id: int, name: string, text: string, notice: bool,
                            answer: BotAnswer): (r: Outcome)
    requires id in st.users
    ensures r.st.users.Keys == st.users.Keys
  {
    match FindChan(st, name)
    case None => if notice then Done(st) else Numeric(st, id, "403", One(name), "No such channel")
    case Some(key) =>
      var ch := st.channels[key];
      if id !in ch.members then
        if notice then Done(st) else Numeric(st, id, "404", One(name), "Cannot send to channel")
      else
        var prefix := PrefixOf(st.users[id].account);
        if notice then Say(st, ch.members - {id}, IrcMessage("NOTICE", [name, text], prefix, true))
        else
          match Serialize(IrcMessage("PRIVMSG", [name, text], prefix, true))
          case Failure(_) => Threw(st)
          case Success(line) =>
            var st1 := Post(st, id, key, line);
            if id != BOT && BOT in ch.members then BotText(st1, ch.members, ch.name, "PRIVMSG", answer.text)
            else Done(st1)
  }

  function ChannelTarget(target: string): bool {
    target != "" && target[0] == '#'
  }

  function Message(st: State, id: int, target: string, text: string, notice: bool, answer: BotAnswer): (r: Outcome)
    requires id in st.users
    ensures r.st.users.Keys == st.users.Keys
  {
    if ChannelTarget(target) then MessageToChannel(st, id, target, text, notice, answer)
    else MessageToUser(st, id, target, text, notice, answer)
  }

  // ------------------------------------------------------------------
  // PING, CAP, QUIT
  // ------------------------------------------------------------------

  function Ping(st: State, id: int, params: seq<string>): (r: Outcome)
    requires id in st.users && |params| >= 1
    ensures r.st.users.Keys == st.users.Keys
  {
    Say(st, {id}, IrcMessage("PONG", [params[0]], "", true))
  }

  function CapReply(st: State, id: int, sub: string, list: string): (r: Outcome)
    requires id in st.users
    ensures r.st.users.Keys == st.users.Keys
  {
    Say(st, {id}, IrcMessage("CAP", [ReplyTarget(st.users[id].account), sub, list], SERVER_NAME, true))
  }

  function Cap(st: State, id: int, params: seq<string>): (r: Outcome)
    requires id in st.users && |params| >= 1
    ensures r.st.users.Keys == st.users.Keys
  {
    var sub := Upper(params[0]);
    if sub == "LS" then CapReply(st, id, sub, "")
    else if sub != "REQ" then Done(st)
    else if |params| < 2 || params[1] == "" then MissingParams(st, id, "CAP")
    else CapReply(st, id, "NAK", params[1])
  }

  function Quit(st: State, id: int, params: seq<string>): (r: Outcome)
    requires id in st.users
    ensures r.st.users.Keys == st.users.Keys
  {
    var reason := if params != [] && params[0] != "" then params[0] else "Client Quit";
    Done(WithOutput(st, id, Request(st.users[id].out, reason)))
  }

  // ------------------------------------------------------------------
  // Dispatch
  // ------------------------------------------------------------------

  datatype Definition = Definition(minParams: nat, requiresRegistration: bool)

  /** The table that registerCommands builds. */
  function DefinitionOf(command: string): Option<Definition> {
    match command
    case "PASS" => Some(Definition(1, false))
    case "NICK" => Some(Definition(1, false))
    case "USER" => Some(Definition(4, false))
    case "PING" => Some(Definition(0, false))
    case "PONG" => Some(Definition(0, false))
    case "QUIT" => Some(Definition(0, false))
    case "CAP" => Some(Definition(1, false))
    case "JOIN" => Some(Definition(1, true))
    case "PART" => Some(Definition(1, true))
    case "PRIVMSG" => Some(Definition(2, true))
    case "NOTICE" => Some(Definition(0, true))
    case "TOPIC" => Some(Definition(1, true))
    case "INVITE" => Some(Definition(2, true))
    case "KICK" => Some(Definition(2, true))
    case "MODE" => Some(Definition(1, true))
    case _ => None
  }

  /** The handler of a supported command whose parameters have been counted. */
  function Handle(st: State, id: int, m: IrcMessage, answer: BotAnswer): (r: Outcome)
    requires id in st.users
    requires DefinitionOf(m.command).Some? && |m.params| >= DefinitionOf(m.command).value.minParams
    requires m.command == "PING" ==> m.params != []
    ensures r.st.users.Keys == st.users.Keys
  {
    match m.command
    case "PASS" => Pass(st, id, m.params)
    case "NICK" => Nick(st, id, m.params)
    case "USER" => UserCommand(st, id, m.params)
    case "PING" => Ping(st, id, m.params)
    case "PONG" => Done(st)
    case "QUIT" => Quit(st, id, m.params)
    case "CAP" => Cap(st, id, m.params)
    case "JOIN" => Join(st, id, m.params)
    case "PART" => Part(st, id, m.params)
    case "PRIVMSG" => Message(st, id, m.params[0], m.params[1], false, answer)
    case "NOTICE" =>
      if |m.params| < 2 || m.params[1] == "" then Done(st)
      else Message(st, id, m.params[0], m.params[1], true, answer)
    case "TOPIC" => Topic(st, id, m.params, m.hasTrailing)
    case "INVITE" => Invite(st, id, m.params)
    case "KICK" => Kick(st, id, m.params)
    case "MODE" => Mode(st, id, m.params)
    case _ => Done(st)
  }

  /** CommandDispatcher::execute. */
  function Execute(st: State, id: int, m: IrcMessage, answer: BotAnswer): (r: Outcome)
    requires id in st.users
    ensures r.st.users.Keys == st.users.Keys
  {
    match DefinitionOf(m.command)
    case None => Numeric(st, id, "421", One(m.command), "Unknown command")
    case Some(definition) =>
      if definition.requiresRegistration && !st.users[id].account.registered then
        Numeric(st, id, "451", [], "You have not registered")
      else if m.command == "NICK" && m.params == [] then
        Numeric(st, id, "431", [], "No nickname given")
      else if (m.command == "PING" || m.command == "PONG") && m.params == [] then
        Numeric(st, id, "409", [], "No origin specified")
      else if m.command == "PRIVMSG" && m.params == [] then
        Numeric(st, id, "411", [], "No recipient given (" + m.command + ")")
      else if m.command == "PRIVMSG" && (|m.params| == 1 || m.params[1] == "") then
        Numeric(st, id, "412", [], "No text to send")
      else if |m.params| < definition.minParams then
        MissingParams(st, id, m.command)
      else
        Handle(st, id, m, answer)
  }

  /** Server::dispatchCommand. */
  function Dispatch(st: State, id: int, m: IrcMessage, answer: BotAnswer): (r: Outcome)
    requires id in st.users
    ensures r.st.users.Keys == st.users.Keys
  {
    var st1 :- Execute(st, id, m, answer);
    TryRegister(st1, id)
  }
}
