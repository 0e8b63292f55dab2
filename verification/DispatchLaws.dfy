// The remaining commands, and every dispatched line: whatever a client sends,
// whether or not an exception cuts the command short, the invariant is kept.
module DispatchLaws {
  import opened Results
  import opened IrcCasemap
  import opened Codec
  import opened ChannelModes
  import opened ModeLaws
  import opened UserLimit
  import opened ServerState
  import opened Primitives
  import opened Membership
  import opened ChannelLog
  import opened Commands
  import opened CommandLaws

  // ------------------------------------------------------------------
  // INVITE
  // ------------------------------------------------------------------

  lemma WithInvitedKeeps(st: State, key: string, target: int)
    requires Inv(st) && key in st.channels && target in st.users
    ensures Keeps(st, WithInvited(st, key, target), BOT) && Inv(WithInvited(st, key, target))
  {
    var ch := st.channels[key];
    assert ChanOk(ch, key, st.users);
    hide Inv, Keeps, ValidChannelName, HistoryOk;
    KeepsSelf(st);
    if target !in ch.members {
      var invited := ch.(invited := ch.invited + {target});
      ChanUpdateKeeps(st, key, invited);
      SteadyKeeps(st, WithChan(st, key, invited));
    }
  }

  lemma WithInvitedFrame(st: State, key: string, target: int)
    requires key in st.channels
    ensures var after := WithInvited(st, key, target);
            after.users == st.users && after.channels.Keys == st.channels.Keys
  {
  }

  lemma InviteTargetKeeps(st: State, id: int, target: int, key: string)
    requires Inv(st) && id in st.users && target in st.users && key in st.channels
    ensures Keeps(st, InviteTarget(st, id, target, key).st, BOT)
  {
    hide Inv, Keeps, NumericPlain, Say, PrefixOf, BotJoin, WithInvited, NickOfUser;
    var name, nick := st.channels[key].name, NickOfUser(st, target);
    var st1 := WithInvited(st, key, target);
    WithInvitedKeeps(st, key, target);
    WithInvitedFrame(st, key, target);
    var r2 := NumericPlain(st1, id, "341", [nick, name]);
    NumericPlainAfter(st, st1, id, "341", [nick, name], BOT);
    if r2.Done? {
      var m := IrcMessage("INVITE", [nick, name], PrefixOf(r2.st.users[id].account), true);
      var r3 := Say(r2.st, {target}, m);
      SayAfter(st, r2.st, {target}, m, BOT);
      if r3.Done? && target == BOT {
        BotJoinAfter(st, r3.st, key, true);
      }
    }
  }

  lemma BotJoinAfter(a: State, st: State, key: string, greet: bool)
    requires Inv(st) && Keeps(a, st, BOT) && key in st.channels
    ensures Keeps(a, BotJoin(st, key, greet).st, BOT)
  {
    hide Inv, Keeps, BotJoin;
    BotRegistered(st);
    BotJoinKeeps(st, key, greet);
    KeepsTrans(a, st, BotJoin(st, key, greet).st, BOT);
  }

  lemma FoundNickExists(st: State, nick: string)
    requires Inv(st) && FindNick(st, nick).Some?
    ensures FindNick(st, nick).value in st.users
  {
  }

  /** Every check of INVITE has passed. */
  predicate MayInvite(st: State, id: int, params: seq<string>)
    requires |params| >= 2
  {
    && params[0] != "" && params[1] != ""
    && FindChan(st, params[1]).Some? && FindNick(st, params[0]).Some?
    && var ch := st.channels[FindChan(st, params[1]).value];
       id in ch.members && FindNick(st, params[0]).value !in ch.members && id in ch.operators
  }

  lemma InviteRefused(st: State, id: int, params: seq<string>)
    requires Inv(st) && id in st.users && |params| >= 2 && !MayInvite(st, id, params)
    ensures Keeps(st, Invite(st, id, params).st, BOT)
    ensures Invite(st, id, params).st.channels == st.channels
  {
    hide Inv, Keeps, Numeric, MissingParams, InviteTarget, FindNick, FindChan, NickOfUser, One, SameRegistry;
    RefusalsKeep(st, id);
    RefusalsSpareChannels(st, id);
    FoundChan(st, params[1]);
  }

  /** No refusal touches a channel. */
  lemma RefusalsSpareChannels(st: State, id: int)
    requires id in st.users
    ensures forall code, params, trailing :: Numeric(st, id, code, params, trailing).st.channels == st.channels
    ensures forall code, params :: NumericPlain(st, id, code, params).st.channels == st.channels
    ensures forall command :: MissingParams(st, id, command).st.channels == st.channels
  {
    hide Numeric, NumericPlain;
  }

  lemma InviteRuns(st: State, id: int, params: seq<string>)
    requires id in st.users && |params| >= 2 && MayInvite(st, id, params)
    ensures Invite(st, id, params) ==
              InviteTarget(st, id, FindNick(st, params[0]).value, FindChan(st, params[1]).value)
  {
    hide Numeric, MissingParams, InviteTarget, FindNick, FindChan, NickOfUser;
  }

  lemma InviteKeeps(st: State, id: int, params: seq<string>)
    requires Inv(st) && id in st.users && |params| >= 2
    ensures Keeps(st, Invite(st, id, params).st, BOT)
  {
    FoundChan(st, params[1]);
    hide Inv, Keeps, Invite, InviteTarget, FindNick, FindChan;
    if MayInvite(st, id, params) {
      FoundNickExists(st, params[0]);
      InviteRuns(st, id, params);
      InviteTargetKeeps(st, id, FindNick(st, params[0]).value, FindChan(st, params[1]).value);
    } else {
      InviteRefused(st, id, params);
    }
  }

  // ------------------------------------------------------------------
  // KICK and TOPIC
  // ------------------------------------------------------------------

  lemma KickTargetKeeps(st: State, id: int, target: int, key: string, reason: string)
    requires Inv(st) && id in st.users && target in st.users && key in st.channels
    ensures Keeps(st, KickTarget(st, id, target, key, reason).st, BOT)
  {
    hide Inv, Keeps, Quiet, Say, PrefixOf, BotKicked, Leave, NickOfUser;
    var ch := st.channels[key];
    var m := IrcMessage("KICK", [ch.name, NickOfUser(st, target), reason], PrefixOf(st.users[id].account), true);
    var r := Say(st, ch.members, m);
    SayKeeps(st, ch.members, m);
    if r.Done? {
      SayQuiet(st, ch.members, m);
      QuietInv(st, r.st);
      var left := Leave(r.st, target, key);
      LeaveSteady(r.st, target, key);
      KeepsTrans(st, r.st, left, BOT);
      BotKickedKeeps(left, ch.name);
      KeepsTrans(st, left, BotKicked(left, ch.name).st, BOT);
    }
  }

  /** Every check of KICK has passed. */
  predicate MayKick(st: State, id: int, params: seq<string>)
    requires |params| >= 2
  {
    && params[0] != "" && params[1] != ""
    && FindChan(st, params[0]).Some? && FindNick(st, params[1]).Some?
    && var ch := st.channels[FindChan(st, params[0]).value];
       id in ch.members && id in ch.operators
       && FindNick(st, params[1]).value in ch.members && FindNick(st, params[1]).value in st.users
  }

  function KickReason(st: State, id: int, params: seq<string>): string
    requires id in st.users
  {
    if |params| >= 3 && params[2] != "" then params[2] else st.users[id].account.nick
  }

  lemma KickRefused(st: State, id: int, params: seq<string>)
    requires Inv(st) && id in st.users && |params| >= 2 && !MayKick(st, id, params)
    ensures Keeps(st, Kick(st, id, params).st, BOT)
    ensures Kick(st, id, params).st.channels == st.channels
  {
    hide Inv, Keeps, Numeric, MissingParams, KickTarget, FindNick, FindChan, NickOfUser, One, SameRegistry;
    RefusalsKeep(st, id);
    RefusalsSpareChannels(st, id);
    FoundChan(st, params[0]);
  }

  lemma KickRuns(st: State, id: int, params: seq<string>)
    requires id in st.users && |params| >= 2 && MayKick(st, id, params)
    ensures Kick(st, id, params) ==
              KickTarget(st, id, FindNick(st, params[1]).value, FindChan(st, params[0]).value,
                         KickReason(st, id, params))
  {
    hide Numeric, MissingParams, KickTarget, FindNick, FindChan, NickOfUser;
  }

  lemma KickKeeps(st: State, id: int, params: seq<string>)
    requires Inv(st) && id in st.users && |params| >= 2
    ensures Keeps(st, Kick(st, id, params).st, BOT)
  {
    FoundChan(st, params[0]);
    hide Inv, Keeps, Kick, KickTarget, FindNick, FindChan;
    if MayKick(st, id, params) {
      KickRuns(st, id, params);
      KickTargetKeeps(st, id, FindNick(st, params[1]).value, FindChan(st, params[0]).value, KickReason(st, id, params));
    } else {
      KickRefused(st, id, params);
    }
  }

  lemma WithTopicKeeps(st: State, key: string, topic: string)
    requires Inv(st) && key in st.channels
    ensures Keeps(st, WithTopic(st, key, topic), BOT) && Inv(WithTopic(st, key, topic))
  {
    var ch := st.channels[key];
    assert ChanOk(ch, key, st.users);
    hide Inv, Keeps, ValidChannelName, HistoryOk;
    ChanUpdateKeeps(st, key, ch.(topic := topic));
    SteadyKeeps(st, WithTopic(st, key, topic));
  }

  lemma TopicKeeps(st: State, id: int, params: seq<string>, hasTrailing: bool)
    requires Inv(st) && id in st.users && |params| >= 1
    ensures Keeps(st, Topic(st, id, params, hasTrailing).st, BOT)
  {
    hide Inv, Keeps, Quiet, Numeric, MissingParams, Say, SendTopic, PrefixOf, WithTopic;
    RefusalsKeep(st, id);
    var chan := FindChan(st, params[0]);
    if chan.Some? {
      var key := chan.value;
      var ch := st.channels[key];
      SendTopicQuiet(st, id, key);
      QuietKeeps(st, SendTopic(st, id, key).st);
      var topic := if |params| >= 2 then params[1] else "";
      WithTopicKeeps(st, key, topic);
      SayAfter(st, WithTopic(st, key, topic), ch.members,
               IrcMessage("TOPIC", [ch.name, topic], PrefixOf(st.users[id].account), true), BOT);
    }
  }

  // ------------------------------------------------------------------
  // MODE
  // ------------------------------------------------------------------

  /** The nickname index answers every member's own spelling with that member. */
  lemma MembersIndexed(st: State, key: string)
    requires Inv(st) && key in st.channels
    ensures IndexInverse(st.channels[key].members, LookupIn(st), NicksIn(st))
  {
    var ch := st.channels[key];
    forall id | id in ch.members
      ensures NicksIn(st)(id) != "" && LookupIn(st)(NicksIn(st)(id)) == Some(id)
    {
      assert ChanOk(ch, key, st.users);
      MemberIndexed(st, id);
    }
  }

  lemma MemberIndexed(st: State, id: int)
    requires Inv(st) && id in st.users && st.users[id].account.registered
    ensures st.users[id].account.nick != "" && FindNick(st, st.users[id].account.nick) == Some(id)
  {
    var nick := st.users[id].account.nick;
    assert UserOk(st.password, id, st.users[id]);
    assert Owns(st.users, id, Normalize(nick));
    assert |Normalize(nick)| == |nick|;
  }

  /** The operations an accepted mode string stands for, or none. */
  function ValidModes(st: State, key: string, params: seq<string>): Option<seq<ModeOp>>
    requires key in st.channels && |params| >= 2
  {
    match ParseModes(params[1], params[2..], Add)
    case Rejected(_) => None
    case Parsed(ops) =>
      match Validate(ops, st.channels[key].members, LookupIn(st), NicksIn(st))
      case Failure(_) => None
      case Success(valid) => Some(valid)
  }

  lemma ValidModesReady(st: State, key: string, params: seq<string>)
    requires Inv(st) && key in st.channels && |params| >= 2 && ValidModes(st, key, params).Some?
    ensures AllReady(ValidModes(st, key, params).value, st.channels[key].members, LookupIn(st))
  {
    MembersIndexed(st, key);
    ParseConsumesPrefix(params[1], params[2..], Add);
    hide Inv, ParseModes, Validate, IndexInverse, LookupIn, NicksIn, AllReady;
    var ops := ParseModes(params[1], params[2..], Add).ops;
    ValidatedIsReady(ops, st.channels[key].members, LookupIn(st), NicksIn(st));
  }

  lemma ValidatedNumber(op: ModeOp, members: set<int>, lookup: Lookup, nickOf: NickOf)
    requires op.number == 0 && ValidateOp(op, members, lookup, nickOf).Success?
    ensures ValidateOp(op, members, lookup, nickOf).value.number <= SIZE_MAX
  {
  }

  lemma ValidModesNumbers(st: State, key: string, params: seq<string>)
    requires key in st.channels && |params| >= 2 && ValidModes(st, key, params).Some?
    ensures forall op :: op in ValidModes(st, key, params).value ==> op.number <= SIZE_MAX
  {
    ParseConsumesPrefix(params[1], params[2..], Add);
    var ops := ParseModes(params[1], params[2..], Add).ops;
    hide ParseModes, ValidateOp, LookupIn, NicksIn, Supported, TakesArgument;
    var members, lookup, nickOf := st.channels[key].members, LookupIn(st), NicksIn(st);
    var valid := Validate(ops, members, lookup, nickOf).value;
    forall i | 0 <= i < |valid|
      ensures valid[i].number <= SIZE_MAX
    {
      assert ops[i] in ops && AsParsed(ops[i]);
      assert ValidateOp(ops[i], members, lookup, nickOf) == Success(valid[i]);
      ValidatedNumber(ops[i], members, lookup, nickOf);
    }
  }

  lemma ApplyModesKeeps(st: State, key: string, ops: seq<ModeOp>)
    requires Inv(st) && key in st.channels
    requires forall op :: op in ops ==> op.number <= SIZE_MAX
    ensures Keeps(st, ApplyModes(st, key, ops), BOT) && Inv(ApplyModes(st, key, ops))
  {
    var ch := st.channels[key];
    assert ChanOk(ch, key, st.users);
    hide Inv, Keeps, ValidChannelName, HistoryOk, FlagsOk, Apply, LookupIn;
    var after := Apply(ModedOf(ch), ch.members, LookupIn(st), ops);
    ApplyKeepsOk(ModedOf(ch), ch.members, LookupIn(st), ops);
    ChanUpdateKeeps(st, key, WithModed(ch, after));
    SteadyKeeps(st, ApplyModes(st, key, ops));
  }

  lemma ApplyModesFrame(st: State, key: string, ops: seq<ModeOp>)
    requires key in st.channels
    ensures var after := ApplyModes(st, key, ops);
            && after == st.(channels := after.channels)
            && after.channels.Keys == st.channels.Keys
            && (forall k :: k in st.channels && k != key ==> after.channels[k] == st.channels[k])
            && after.channels[key] == WithModed(st.channels[key], ModedOf(after.channels[key]))
            && ModedOf(after.channels[key]) ==
                 Apply(ModedOf(st.channels[key]), st.channels[key].members, LookupIn(st), ops)
  {
  }

  /** A MODE command seen through the operations it stands for. */
  lemma ChangeModesIs(st: State, id: int, key: string, params: seq<string>)
    requires id in st.users && key in st.channels && |params| >= 2
    ensures var r := ChangeModes(st, id, key, params);
            match ValidModes(st, key, params)
            case None => SameRegistry(st, r.st)
            case Some(valid) =>
              r == if valid == [] then Done(ApplyModes(st, key, valid))
                   else Say(ApplyModes(st, key, valid), st.channels[key].members,
                            ModeMessage(ApplyModes(st, key, valid), id, st.channels[key].name, valid))
  {
  }

  lemma RejectedModesKeep(st: State, id: int, key: string, params: seq<string>)
    requires Inv(st) && id in st.users && key in st.channels && |params| >= 2
    requires ValidModes(st, key, params).None?
    ensures Keeps(st, ChangeModes(st, id, key, params).st, BOT)
  {
    hide Inv, Keeps, ParseModes, Validate, LookupIn, NicksIn, ApplyModes, Say, Numeric, MissingParams, SameRegistry,
      One;
    RefusalsKeep(st, id);
  }

  lemma ChangeModesKeeps(st: State, id: int, key: string, params: seq<string>)
    requires Inv(st) && id in st.users && key in st.channels && |params| >= 2
    ensures Keeps(st, ChangeModes(st, id, key, params).st, BOT)
  {
    hide Inv, Keeps, ChangeModes, ValidModes, ApplyModes, Say, ModeMessage;
    match ValidModes(st, key, params)
    case None => RejectedModesKeep(st, id, key, params);
    case Some(valid) =>
      ValidModesNumbers(st, key, params);
      ApplyModesKeeps(st, key, valid);
      ApplyModesFrame(st, key, valid);
      ChangeModesIs(st, id, key, params);
      SayAfter(st, ApplyModes(st, key, valid), st.channels[key].members,
               ModeMessage(ApplyModes(st, key, valid), id, st.channels[key].name, valid), BOT);
  }

  lemma ModeKeeps(st: State, id: int, params: seq<string>)
    requires Inv(st) && id in st.users && |params| >= 1
    ensures Keeps(st, Mode(st, id, params).st, BOT)
  {
    hide Inv, Keeps, Numeric, NumericPlain, MissingParams, ChangeModes, QueryFlags, QueryArguments, SameRegistry, One;
    RefusalsKeep(st, id);
    var chan := FindChan(st, params[0]);
    if chan.Some? && |params| >= 2 {
      ChangeModesKeeps(st, id, chan.value, params);
    }
  }

  lemma ValidModesWin(st: State, id: int, key: string, params: seq<string>)
    requires Inv(st) && id in st.users && key in st.channels && |params| >= 2
    ensures var r := ChangeModes(st, id, key, params);
            && r.st.channels.Keys == st.channels.Keys
            && (forall k :: k in st.channels && k != key ==> r.st.channels[k] == st.channels[k])
            && var before, after := st.channels[key], r.st.channels[key];
               match ValidModes(st, key, params)
               case None => after == before
               case Some(valid) =>
                 && after == before.(flags := after.flags, operators := after.operators)
                 && after.flags == LastWriter(before.flags, valid)
                 && (forall who :: who in after.operators <==>
                       OperatorAfter(before.operators, valid, LookupIn(st), who))
  {
    hide Inv, ChangeModes, ValidModes, ApplyModes, Say, ModeMessage, LookupIn, Apply, LastWriter, OperatorAfter;
    ChangeModesIs(st, id, key, params);
    match ValidModes(st, key, params)
    case None =>
    case Some(valid) =>
      ValidModesReady(st, key, params);
      ApplyModesFrame(st, key, valid);
      LastWriterWins(ModedOf(st.channels[key]), st.channels[key].members, LookupIn(st), valid);
  }

  /**
   * The mode string parses, and each of its operations is acceptable: an o names
   * a member, an added k has a key, an added l a limit.
   */
  predicate Obeyed(st: State, key: string, params: seq<string>)
    requires key in st.channels && |params| >= 2
  {
    var parsed := ParseModes(params[1], params[2..], Add);
    parsed.Parsed? && AllAcceptable(parsed.ops, st.channels[key].members, LookupIn(st))
  }

  /** What it will do, with nicknames in the members' own spelling. */
  function ObeyedOps(st: State, key: string, params: seq<string>): seq<ModeOp>
    requires key in st.channels && |params| >= 2 && Obeyed(st, key, params)
  {
    SettledAll(ParseModes(params[1], params[2..], Add).ops, st.channels[key].members, LookupIn(st), NicksIn(st))
  }

  lemma ObeyedIsValid(st: State, key: string, params: seq<string>)
    requires key in st.channels && |params| >= 2
    ensures ValidModes(st, key, params) == if Obeyed(st, key, params) then Some(ObeyedOps(st, key, params)) else None
  {
    hide ParseModes, Validate, LookupIn, NicksIn, AllAcceptable, SettledAll, Complaint;
    var parsed := ParseModes(params[1], params[2..], Add);
    if parsed.Parsed? {
      ValidateExactly(parsed.ops, st.channels[key].members, LookupIn(st), NicksIn(st));
    }
  }

  /**
   * MODE is all-or-nothing and the last writer wins. A command is obeyed exactly
   * when all of its operations are acceptable: then each setting and each
   * operator bit is what the last operation naming it says. Otherwise nothing
   * changes. Topic, members, invitations and history are never touched, and
   * neither is any other channel.
   */
  lemma ModeAllOrNothing(st: State, id: int, key: string, params: seq<string>)
    requires Inv(st) && id in st.users && key in st.channels && |params| >= 2
    ensures var r := ChangeModes(st, id, key, params);
            && r.st.channels.Keys == st.channels.Keys
            && (forall k :: k in st.channels && k != key ==> r.st.channels[k] == st.channels[k])
            && var before, after := st.channels[key], r.st.channels[key];
               if Obeyed(st, key, params) then
                 var ops := ObeyedOps(st, key, params);
                 && after == before.(flags := after.flags, operators := after.operators)
                 && after.flags == LastWriter(before.flags, ops)
                 && (forall who :: who in after.operators <==>
                       OperatorAfter(before.operators, ops, LookupIn(st), who))
               else after == before
  {
    hide Inv, ChangeModes, ValidModes, LookupIn, LastWriter, OperatorAfter, Obeyed, ObeyedOps;
    ObeyedIsValid(st, key, params);
    ValidModesWin(st, id, key, params);
  }

  /** An operator's command that is not obeyed is answered with what is wrong first. */
  lemma ModeRefused(st: State, id: int, key: string, params: seq<string>)
    requires id in st.users && key in st.channels && |params| >= 2 && !Obeyed(st, key, params)
    ensures var r, parsed := ChangeModes(st, id, key, params), ParseModes(params[1], params[2..], Add);
            var ch := st.channels[key];
            match parsed
            case Rejected(unknown) =>
              r == if unknown == '\0' then MissingParams(st, id, "MODE")
                   else Numeric(st, id, "472", [[unknown]], "is unknown mode char to me")
            case Parsed(ops) =>
              exists i: nat :: FirstBad(ops, i, ch.members, LookupIn(st)) &&
                match Complaint(ops[i], LookupIn(st), NicksIn(st))
                case NoSuchNick(nick) => r == Numeric(st, id, "401", One(nick), "No such nick")
                case NotInChannel(nick) => r == Numeric(st, id, "441", [nick, ch.name], "They aren't on that channel")
                case NeedMoreParams => r == MissingParams(st, id, "MODE")
  {
    hide ParseModes, Validate, LookupIn, NicksIn, Complaint, FirstBad, SettledAll, Numeric, MissingParams, Say;
    var parsed := ParseModes(params[1], params[2..], Add);
    if parsed.Parsed? {
      ValidateExactly(parsed.ops, st.channels[key].members, LookupIn(st), NicksIn(st));
    }
  }

  // ------------------------------------------------------------------
  // PRIVMSG and NOTICE
  // ------------------------------------------------------------------

  lemma SayThenBot(st: State, to: set<int>, m: IrcMessage, answered: set<int>, target: string, command: string,
                   text: string)
    requires Inv(st)
    ensures Keeps(st, Say(st, to, m).st, BOT)
    ensures Keeps(st, BotText(Say(st, to, m).st, answered, target, command, text).st, BOT)
  {
    hide Inv, Keeps, Say, BotText;
    KeepsSelf(st);
    SayAfter(st, st, to, m, BOT);
    BotTextAfter(st, Say(st, to, m).st, answered, target, command, text, BOT);
  }

  lemma MessageToUserKeeps(st: State, id: int, nick: string, text: string, notice: bool, answer: BotAnswer)
    requires Inv(st) && id in st.users
    ensures Keeps(st, MessageToUser(st, id, nick, text, notice, answer).st, BOT)
  {
    hide Inv, Keeps, Numeric, Say, BotText, PrefixOf, FindNick;
    RefusalsKeep(st, id);
    match FindNick(st, nick)
    case None =>
    case Some(target) =>
      var m := IrcMessage(if notice then "NOTICE" else "PRIVMSG", [nick, text], PrefixOf(st.users[id].account), true);
      var r := Say(st, {target}, m);
      SayThenBot(st, {target}, m, {id}, r.st.users[id].account.nick,
                 if answer.notice then "NOTICE" else "PRIVMSG", answer.text);
  }

  lemma PostFrame(st: State, author: int, key: string, line: string)
    requires key in st.channels
    ensures var after := Post(st, author, key, line);
            && after.users.Keys == st.users.Keys
            && forall i :: i in st.users ==>
                 after.users[i].joined == st.users[i].joined && after.users[i].marks == st.users[i].marks
  {
    hide Offer;
  }

  lemma PostSteady(st: State, author: int, key: string, line: string)
    requires Inv(st) && key in st.channels && 0 < |line| <= MAX_MESSAGE_LENGTH
    ensures Keeps(st, Post(st, author, key, line), BOT) && Inv(Post(st, author, key, line))
  {
    hide Inv, Keeps, Post, Follows;
    PostFrame(st, author, key, line);
    PostKeeps(st, author, key, line);
    SteadyKeeps(st, Post(st, author, key, line));
  }

  lemma SerializedFits(m: IrcMessage)
    requires Serialize(m).Success?
    ensures 0 < |Serialize(m).value| <= MAX_MESSAGE_LENGTH
  {
  }

  lemma PostThenBot(st: State, id: int, key: string, line: string, answered: set<int>, target: string, text: string)
    requires Inv(st) && key in st.channels && 0 < |line| <= MAX_MESSAGE_LENGTH
    ensures Keeps(st, Post(st, id, key, line), BOT)
    ensures Keeps(st, BotText(Post(st, id, key, line), answered, target, "PRIVMSG", text).st, BOT)
  {
    hide Inv, Keeps, Post, BotText;
    PostSteady(st, id, key, line);
    BotTextAfter(st, Post(st, id, key, line), answered, target, "PRIVMSG", text, BOT);
  }

  lemma MessageToChannelKeeps(st: State, id: int, name: string, text: string, notice: bool, answer: BotAnswer)
    requires Inv(st) && id in st.users
    ensures Keeps(st, MessageToChannel(st, id, name, text, notice, answer).st, BOT)
  {
    hide Inv, Keeps, Numeric, Say, BotText, PrefixOf, FindChan, Serialize, Post;
    RefusalsKeep(st, id);
    FoundChan(st, name);
    match FindChan(st, name)
    case None =>
    case Some(key) =>
      var ch, prefix := st.channels[key], PrefixOf(st.users[id].account);
      SayKeeps(st, ch.members - {id}, IrcMessage("NOTICE", [name, text], prefix, true));
      var m := IrcMessage("PRIVMSG", [name, text], prefix, true);
      if Serialize(m).Success? {
        SerializedFits(m);
        PostThenBot(st, id, key, Serialize(m).value, ch.members, ch.name, answer.text);
      }
  }

  lemma FoundChan(st: State, name: string)
    ensures FindChan(st, name).Some? ==> FindChan(st, name).value in st.channels
  {
  }

  lemma MessageKeeps(st: State, id: int, target: string, text: string, notice: bool, answer: BotAnswer)
    requires Inv(st) && id in st.users
    ensures Keeps(st, Message(st, id, target, text, notice, answer).st, BOT)
  {
    hide Inv, Keeps, MessageToUser, MessageToChannel;
    MessageToUserKeeps(st, id, target, text, notice, answer);
    MessageToChannelKeeps(st, id, target, text, notice, answer);
  }

  // ------------------------------------------------------------------
  // PING, CAP, QUIT
  // ------------------------------------------------------------------

  lemma PingKeeps(st: State, id: int, params: seq<string>)
    requires Inv(st) && id in st.users && |params| >= 1
    ensures Keeps(st, Ping(st, id, params).st, BOT)
  {
    hide Inv, Keeps, Say;
    SayKeeps(st, {id}, IrcMessage("PONG", [params[0]], "", true));
  }

  lemma CapKeeps(st: State, id: int, params: seq<string>)
    requires Inv(st) && id in st.users && |params| >= 1
    ensures Keeps(st, Cap(st, id, params).st, BOT)
  {
    hide Inv, Keeps, Say, MissingParams, Upper, ReplyTarget;
    RefusalsKeep(st, id);
    var sub, target := Upper(params[0]), ReplyTarget(st.users[id].account);
    SayKeeps(st, {id}, IrcMessage("CAP", [target, sub, ""], SERVER_NAME, true));
    if |params| >= 2 {
      SayKeeps(st, {id}, IrcMessage("CAP", [target, "NAK", params[1]], SERVER_NAME, true));
    }
  }

  lemma RequestSteady(st: State, id: int, reason: string)
    requires Inv(st) && id in st.users
    ensures var after := WithOutput(st, id, Request(st.users[id].out, reason));
            Keeps(st, after, BOT) && Inv(after)
  {
    hide Inv, Keeps, Request;
    RequestKeepsInv(st, id, reason);
    SteadyKeeps(st, WithOutput(st, id, Request(st.users[id].out, reason)));
  }

  lemma QuitKeeps(st: State, id: int, params: seq<string>)
    requires Inv(st) && id in st.users
    ensures Keeps(st, Quit(st, id, params).st, BOT)
  {
    hide Inv, Keeps, Request;
    RequestSteady(st, id, if params != [] && params[0] != "" then params[0] else "Client Quit");
  }

  // ------------------------------------------------------------------
  // Dispatch
  // ------------------------------------------------------------------

  /** Who may lose a replay: the client whose own command threw. */
  function Excused(r: Outcome, id: int): int {
    if r.Threw? then id else BOT
  }

  lemma KeepsExcused(st: State, r: Outcome, id: int)
    requires Keeps(st, r.st, BOT)
    ensures Keeps(st, r.st, Excused(r, id))
  {
  }

  /** The commands that can only be reached by a registered client. */
  lemma HandleKeeps(st: State, id: int, m: IrcMessage, answer: BotAnswer)
    requires Inv(st) && id in st.users && !Virtual(id)
    requires DefinitionOf(m.command).Some? && |m.params| >= DefinitionOf(m.command).value.minParams
    requires m.command == "PING" ==> m.params != []
    requires DefinitionOf(m.command).value.requiresRegistration ==> st.users[id].account.registered
    ensures var r := Handle(st, id, m, answer);
            Keeps(st, r.st, Excused(r, id))
  {
    hide Inv, Keeps, Excused, Pass, Nick, UserCommand, Ping, Quit, Cap, Join, Part, Message, Topic, Invite, Kick, Mode;
    var r := Handle(st, id, m, answer);
    if m.command == "JOIN" {
      JoinExcused(st, id, m.params);
    } else {
      HandleOthersKeep(st, id, m, answer);
      KeepsExcused(st, r, id);
    }
  }

  lemma JoinExcused(st: State, id: int, params: seq<string>)
    requires Inv(st) && id in st.users && !Virtual(id) && st.users[id].account.registered && |params| >= 1
    ensures var r := Join(st, id, params);
            Keeps(st, r.st, Excused(r, id))
  {
    hide Inv, Keeps, Join;
    JoinKeeps(st, id, params);
  }

  lemma HandleOthersKeep(st: State, id: int, m: IrcMessage, answer: BotAnswer)
    requires Inv(st) && id in st.users && !Virtual(id)
    requires DefinitionOf(m.command).Some? && |m.params| >= DefinitionOf(m.command).value.minParams
    requires m.command == "PING" ==> m.params != []
    requires m.command != "JOIN"
    ensures Keeps(st, Handle(st, id, m, answer).st, BOT)
  {
    hide Inv, Keeps, Pass, Nick, UserCommand, Ping, Quit, Cap, Join, Part, Message, Topic, Invite, Kick, Mode;
    KeepsSelf(st);
    match m.command
    case "PASS" => PassKeeps(st, id, m.params);
    case "NICK" => NickKeeps(st, id, m.params);
    case "USER" => UserCommandKeeps(st, id, m.params);
    case "PING" => PingKeeps(st, id, m.params);
    case "QUIT" => QuitKeeps(st, id, m.params);
    case "CAP" => CapKeeps(st, id, m.params);
    case "PART" => PartKeeps(st, id, m.params);
    case "PRIVMSG" => MessageKeeps(st, id, m.params[0], m.params[1], false, answer);
    case "NOTICE" =>
      if |m.params| >= 2 {
        MessageKeeps(st, id, m.params[0], m.params[1], true, answer);
      }
    case "TOPIC" => TopicKeeps(st, id, m.params, m.hasTrailing);
    case "INVITE" => InviteKeeps(st, id, m.params);
    case "KICK" => KickKeeps(st, id, m.params);
    case "MODE" => ModeKeeps(st, id, m.params);
    case _ =>
  }

  /** The gate of CommandDispatcher::execute. */
  predicate Admitted(a: Account, m: IrcMessage) {
    && DefinitionOf(m.command).Some?
    && (DefinitionOf(m.command).value.requiresRegistration ==> a.registered)
    && !((m.command == "PING" || m.command == "PONG") && m.params == [])
    && !(m.command == "PRIVMSG" && |m.params| >= 2 && m.params[1] == "")
    && |m.params| >= DefinitionOf(m.command).value.minParams
  }

  lemma Refused(st: State, id: int, m: IrcMessage, answer: BotAnswer)
    requires Inv(st) && id in st.users && !Admitted(st.users[id].account, m)
    ensures Keeps(st, Execute(st, id, m, answer).st, BOT)
  {
    hide Inv, Keeps, Numeric, Handle, MissingParams, One, DefinitionOf, SameRegistry;
    RefusalsKeep(st, id);
  }

  lemma AdmittedRuns(st: State, id: int, m: IrcMessage, answer: BotAnswer)
    requires id in st.users && Admitted(st.users[id].account, m)
    ensures Execute(st, id, m, answer) == Handle(st, id, m, answer)
  {
    hide Handle, Numeric, MissingParams;
  }

  lemma ExecuteKeeps(st: State, id: int, m: IrcMessage, answer: BotAnswer)
    requires Inv(st) && id in st.users && !Virtual(id)
    ensures var r := Execute(st, id, m, answer);
            Keeps(st, r.st, Excused(r, id))
  {
    hide Inv, Keeps, Handle, DefinitionOf, Execute, Excused;
    if Admitted(st.users[id].account, m) {
      AdmittedRuns(st, id, m, answer);
      HandleKeeps(st, id, m, answer);
    } else {
      Refused(st, id, m, answer);
      KeepsExcused(st, Execute(st, id, m, answer), id);
    }
  }

  /** Any line of any client keeps the invariant, completed or not. */
  lemma DispatchKeeps(st: State, id: int, m: IrcMessage, answer: BotAnswer)
    requires Inv(st) && id in st.users && !Virtual(id)
    ensures var r := Dispatch(st, id, m, answer);
            Keeps(st, r.st, Excused(r, id))
  {
    hide Inv, Keeps, Execute, TryRegister;
    var r := Execute(st, id, m, answer);
    ExecuteKeeps(st, id, m, answer);
    if r.Done? {
      KeepsFollows(st, r.st, BOT);
      TryRegisterAfter(st, r.st, id);
      KeepsExcused(st, TryRegister(r.st, id), id);
    }
  }
}
