// What a message leads to: who gets the line, what the channel remembers, what
// the bot may add, and what PING and CAP answer (CommandDispatcher.cpp:349-452,
// 1509-1640, Bot.cpp:175-214).
module MessageEffects {
  import opened Results
  import opened IrcCasemap
  import opened Codec
  import opened CodecLaws
  import opened ServerState
  import opened Primitives
  import opened Membership
  import opened ChannelLog
  import opened Commands
  import opened CommandLaws
  import opened DispatchLaws
  import opened Authorisation
  import opened ModeBroadcast
  import opened ModeLines
  import opened ChannelEffects

  // ------------------------------------------------------------------
  // To a channel
  // ------------------------------------------------------------------

  /** The line, under the name that its sender used. */
  function MessageLine(st: State, id: int, command: string, target: string, text: string): IrcMessage
    requires id in st.users
  {
    var a := st.users[id].account;
    IrcMessage(command, [target, text], a.nick + "!" + a.username + "@" + a.host, true)
  }

  /** The line is the channel's last, and each member but its author has been offered it as such. */
  ghost predicate Recorded(a: State, b: State, id: int, key: string, line: string) {
    && key in a.channels
    && var ch := a.channels[key];
       && b.channels == a.channels[key := ch.(history := ch.history + [Entry(id, line)])]
       && b.users.Keys == a.users.Keys
       && forall i :: i in a.users ==>
            b.users[i] == if i in ch.members && i != id
                          then a.users[i].(out := Offer(i, a.users[i].out, line, Some(key)))
                          else a.users[i]
  }

  lemma PostRecords(st: State, id: int, key: string, line: string)
    requires key in st.channels
    ensures Recorded(st, Post(st, id, key, line), id, key, line)
    ensures var s := Post(st, id, key, line); s == st.(users := s.users, channels := s.channels)
  {
    hide Offer;
  }

  /**
   * A member's PRIVMSG to a channel that prints becomes its last line and is
   * offered to every other member; the bot may answer to all of them. If it does
   * not print nothing happens.
   */
  lemma ChannelMessageExactly(st: State, id: int, name: string, text: string, answer: BotAnswer)
    requires Inv(st) && id in st.users && !Virtual(id) && In(st, id, Normalize(name))
    ensures var r, key := MessageToChannel(st, id, name, text, false, answer), Normalize(name);
            match Serialize(MessageLine(st, id, "PRIVMSG", name, text))
            case Failure(_) => r == Threw(st)
            case Success(line) =>
              var posted, ch := Post(st, id, key, line), st.channels[key];
              && Recorded(st, posted, id, key, line)
              && r == if BOT in ch.members then BotText(posted, ch.members, ch.name, "PRIVMSG", answer.text)
                      else Done(posted)
  {
    KeyNotEmpty(st, Normalize(name));
    hide Inv, Serialize, Normalize, Post, BotText, Recorded;
    match Serialize(MessageLine(st, id, "PRIVMSG", name, text))
    case Failure(_) =>
    case Success(line) => PostRecords(st, id, Normalize(name), line);
  }

  /** A NOTICE is offered to every other member, and neither stored nor answered. */
  lemma ChannelNoticeExactly(st: State, id: int, name: string, text: string, answer: BotAnswer)
    requires Inv(st) && id in st.users && In(st, id, Normalize(name))
    ensures var r, key := MessageToChannel(st, id, name, text, true, answer), Normalize(name);
            match Serialize(MessageLine(st, id, "NOTICE", name, text))
            case Failure(_) => r == Threw(st)
            case Success(line) => r.Done? && OnlyAnnounced(st, r.st, st.channels[key].members - {id}, line)
  {
    KeyNotEmpty(st, Normalize(name));
    hide Inv, Serialize, Normalize, Say, OnlyAnnounced;
    SayAnnounces(st, st.channels[Normalize(name)].members - {id}, MessageLine(st, id, "NOTICE", name, text));
  }

  /** Who is not in the channel cannot send to it; NOTICE says nothing about it. */
  lemma ChannelMessageRefused(st: State, id: int, name: string, text: string, notice: bool, answer: BotAnswer)
    requires Inv(st) && id in st.users && name != "" && !In(st, id, Normalize(name))
    ensures MessageToChannel(st, id, name, text, notice, answer) ==
              if notice then Done(st)
              else if Normalize(name) in st.channels then Numeric(st, id, "404", [name], "Cannot send to channel")
              else Numeric(st, id, "403", [name], "No such channel")
  {
    assert |Normalize(name)| == |name|;
    hide Inv, Serialize, Normalize, Post, BotText, Numeric, Say;
  }

  // ------------------------------------------------------------------
  // To a client
  // ------------------------------------------------------------------

  /**
   * A message to a nickname is offered to its owner alone, as it was addressed;
   * an unknown nickname is 401, but not to a NOTICE. The bot answers a PRIVMSG to
   * its sender.
   */
  lemma UserMessageExactly(st: State, id: int, nick: string, text: string, notice: bool, answer: BotAnswer)
    requires id in st.users && !Virtual(id) && nick != ""
    ensures var r := MessageToUser(st, id, nick, text, notice, answer);
            var m := MessageLine(st, id, if notice then "NOTICE" else "PRIVMSG", nick, text);
            match FindNick(st, nick)
            case None => r == if notice then Done(st) else Numeric(st, id, "401", [nick], "No such nick")
            case Some(target) =>
              match Serialize(m)
              case Failure(_) => r == Threw(st)
              case Success(line) =>
                var told := Say(st, {target}, m).st;
                && OnlyAnnounced(st, told, {target}, line)
                && r == if notice || target != BOT then Done(told)
                        else BotText(told, {id}, st.users[id].account.nick,
                                     if answer.notice then "NOTICE" else "PRIVMSG", answer.text)
  {
    hide Serialize, FindNick, BotText, Numeric, OnlyAnnounced;
    var m := MessageLine(st, id, if notice then "NOTICE" else "PRIVMSG", nick, text);
    match FindNick(st, nick)
    case None =>
    case Some(target) =>
      SayAnnounces(st, {target}, m);
      AnnouncedAccount(st, Say(st, {target}, m).st, id, m, target);
      hide Say;
  }

  lemma AnnouncedAccount(a: State, b: State, id: int, m: IrcMessage, target: int)
    requires id in a.users && b == Say(a, {target}, m).st
    ensures id in b.users && b.users[id].account == a.users[id].account
  {
    hide Serialize, Offer;
  }

  /** Names that open with '#' are channels, all others clients. */
  lemma MessageGoesBy(st: State, id: int, target: string, text: string, notice: bool, answer: BotAnswer)
    requires id in st.users
    ensures Message(st, id, target, text, notice, answer) ==
              if target != "" && target[0] == '#' then MessageToChannel(st, id, target, text, notice, answer)
              else MessageToUser(st, id, target, text, notice, answer)
  {
    hide MessageToChannel, MessageToUser;
  }

  // ------------------------------------------------------------------
  // What the bot says
  // ------------------------------------------------------------------

  /** The line that carries a text of the bot. */
  function BotLine(st: State, target: string, command: string, text: string): IrcMessage
    requires BOT in st.users
  {
    MessageLine(st, BOT, command, target, text)
  }

  /**
   * The bot says the longest beginning of its text for which there is room in 512
   * bytes, and nothing if there is room for none of it.
   */
  lemma ClipIsLongest(prefix: string, command: string, target: string, text: string)
    ensures var clipped, overhead := Clip(prefix, command, target, text), |prefix| + |command| + |target| + 7;
            && clipped <= text
            && (clipped != "" ==> overhead + |clipped| <= MAX_MESSAGE_LENGTH)
            && (|clipped| < |text| ==> overhead + |clipped| + 1 > MAX_MESSAGE_LENGTH)
  {
  }

  /** Seven bytes go with them: three spaces, two colons and the line's end. */
  lemma BotLinePrints(st: State, target: string, command: string, text: string)
    requires BOT in st.users && CleanPrefix(PrefixOf(st.users[BOT].account))
    requires ValidCommand(command) && ValidMiddle(target) && LineSafe(text)
    ensures Serialize(BotLine(st, target, command, text)).Success? <==>
              |PrefixOf(st.users[BOT].account)| + |command| + |target| + 7 + |text| <= MAX_MESSAGE_LENGTH
  {
    var m := BotLine(st, target, command, text);
    hide LineSafe, ValidPrefix, NeedsTrailingMarker, ValidCommand;
    assert m.prefix == PrefixOf(st.users[BOT].account);
    hide PrefixOf;
    assert m.params[1..] == [text];
    assert ParamsLength([text], true) == 2 + |text|;
    assert ParamsLength(m.params, true) == 3 + |target| + |text|;
    ParamsPrintExactly(m.params, true);
    hide SerializeParams, ParamsLength;
    PrintsExactly(m);
  }

  lemma BotTextExactly(st: State, to: set<int>, target: string, command: string, text: string)
    requires BOT in st.users
    ensures var r := BotText(st, to, target, command, text);
            var said := Clip(PrefixOf(st.users[BOT].account), command, target, text);
            if said == "" then r == Done(st)
            else
              match Serialize(BotLine(st, target, command, said))
              case Failure(_) => r == Threw(st)
              case Success(line) => r.Done? && OnlyAnnounced(st, r.st, to, line)
  {
    var said := Clip(PrefixOf(st.users[BOT].account), command, target, text);
    ClipIsLongest(PrefixOf(st.users[BOT].account), command, target, text);
    hide Serialize, OnlyAnnounced, Clip;
    SayAnnounces(st, to, BotLine(st, target, command, said));
    hide Say;
  }

  // ------------------------------------------------------------------
  // PING and CAP
  // ------------------------------------------------------------------

  /** PING comes back to its sender as PONG with the same token, as a whole. */
  lemma PingExactly(st: State, id: int, params: seq<string>)
    requires id in st.users && |params| >= 1
    ensures var r := Ping(st, id, params);
            match Serialize(IrcMessage("PONG", [params[0]], "", true))
            case Failure(_) => r == Threw(st)
            case Success(line) => r.Done? && OnlyAnnounced(st, r.st, {id}, line)
  {
    hide Serialize, Say, OnlyAnnounced;
    SayAnnounces(st, {id}, IrcMessage("PONG", [params[0]], "", true));
  }

  /** CAP LS lists nothing, CAP REQ is refused as it was asked, and other subcommands are not answered. */
  lemma CapExactly(st: State, id: int, params: seq<string>)
    requires id in st.users && |params| >= 1
    ensures var r, nick := Cap(st, id, params), st.users[id].account.nick;
            var target := if nick == "" then "*" else nick;
            && (RaisedWord(params[0], "LS") ==>
                  r == Say(st, {id}, IrcMessage("CAP", [target, "LS", ""], "irc.42.local", true)))
            && (RaisedWord(params[0], "REQ") && |params| >= 2 && params[1] != "" ==>
                  r == Say(st, {id}, IrcMessage("CAP", [target, "NAK", params[1]], "irc.42.local", true)))
            && (RaisedWord(params[0], "REQ") && (|params| < 2 || params[1] == "") ==> r == MissingParams(st, id, "CAP"))
            && (!RaisedWord(params[0], "LS") && !RaisedWord(params[0], "REQ") ==> r == Done(st))
  {
    UpperRaises(params[0]);
    hide Say, Upper, RaisedWord, MissingParams;
  }
}
