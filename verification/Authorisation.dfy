// Who may do what to a channel: no line of a client that is not its operator
// changes the channel for anybody else, and JOIN lets in exactly those whom
// limit, invitation and key do not keep out (CommandDispatcher.cpp:402-960).
module Authorisation {
  import opened Results
  import opened IrcCasemap
  import opened Codec
  import opened CommaList
  import opened ChannelModes
  import opened ServerState
  import opened Primitives
  import opened Membership
  import opened ChannelLog
  import opened Commands
  import opened CommandLaws
  import opened DispatchLaws
  import opened Connection
  import opened ConnectionLaws

  // ------------------------------------------------------------------
  // What everybody else can rely on
  // ------------------------------------------------------------------

  /** Only this client's own membership and invitation differ. */
  ghost predicate MovedOnly(a: Chan, b: Chan, id: int) {
    && b == a.(members := b.members, invited := b.invited)
    && b.members - {id} == a.members - {id}
    && b.invited <= a.invited && a.invited - b.invited <= {id}
  }

  /**
   * Settings, operators, the other members and the other invitations are as
   * they were; the topic too, unless a member changed it where everyone may;
   * the history at most grew by what this client, as a member, said itself.
   */
  ghost predicate Respected(a: Chan, b: Chan, id: int) {
    && b.name == a.name && b.flags == a.flags && b.operators == a.operators
    && b.members - {id} == a.members - {id}
    && b.invited <= a.invited && a.invited - b.invited <= {id}
    && (b.topic == a.topic || (id in a.members && !a.flags.topicRestricted))
    && a.history <= b.history
    && forall e :: e in b.history[|a.history|..] ==> e.author == id && id in a.members
  }

  /** A channel is respected, or was left by its last member. */
  ghost predicate Spared(a: State, b: State, id: int, key: string)
    requires key in a.channels
  {
    if key in b.channels then Respected(a.channels[key], b.channels[key], id)
    else a.channels[key].members == {id}
  }

  /** The same for a command that only moves its client. */
  ghost predicate Moved(a: State, b: State, id: int, key: string)
    requires key in a.channels
  {
    if key in b.channels then MovedOnly(a.channels[key], b.channels[key], id)
    else a.channels[key].members == {id}
  }

  /** Every other channel is as it was. */
  ghost predicate Elsewhere(a: State, b: State, key: string) {
    forall k :: k != key ==>
      && (k in b.channels <==> k in a.channels)
      && (k in a.channels ==> b.channels[k] == a.channels[k])
  }

  lemma MovedSpares(a: State, b: State, id: int, key: string)
    requires key in a.channels && Moved(a, b, id, key)
    ensures Spared(a, b, id, key)
  {
  }

  lemma SameSpares(a: State, b: State, id: int, key: string)
    requires key in a.channels && key in b.channels && b.channels[key] == a.channels[key]
    ensures Spared(a, b, id, key) && Moved(a, b, id, key)
  {
  }

  // ------------------------------------------------------------------
  // Commands that touch no channel
  // ------------------------------------------------------------------

  lemma PassSparesChannels(st: State, id: int, params: seq<string>)
    requires id in st.users && |params| >= 1
    ensures Pass(st, id, params).st.channels == st.channels
  {
    hide Numeric;
  }

  lemma UserSparesChannels(st: State, id: int, params: seq<string>)
    requires id in st.users && |params| >= 4
    ensures UserCommand(st, id, params).st.channels == st.channels
  {
    hide Numeric;
  }

  lemma CapSparesChannels(st: State, id: int, params: seq<string>)
    requires id in st.users && |params| >= 1
    ensures Cap(st, id, params).st.channels == st.channels
  {
    hide Numeric, Say, Upper, ReplyTarget;
  }

  lemma NickSparesChannels(st: State, id: int, params: seq<string>)
    requires id in st.users && |params| >= 1
    ensures Nick(st, id, params).st.channels == st.channels
  {
    hide Numeric, Say, AssignNick, ValidNick, PrefixOf, Related, One;
    if AssignNick(st, id, params[0]).Some? {
      AssignNickFrame(st, id, params[0]);
    }
  }

  lemma WelcomeSparesChannels(st: State, id: int)
    requires id in st.users
    ensures Welcome(st, id).st.channels == st.channels
  {
    hide Numeric, NumericPlain, PrefixOf;
  }

  lemma RegisterSparesChannels(st: State, id: int)
    requires id in st.users
    ensures TryRegister(st, id).st.channels == st.channels
  {
    hide Welcome;
    var a := st.users[id].account;
    WelcomeSparesChannels(WithAccount(st, id, a.(registered := true, welcomes := a.welcomes + 1)), id);
  }

  lemma BotTextSparesChannels(st: State, to: set<int>, target: string, command: string, text: string)
    ensures BotText(st, to, target, command, text).st.channels == st.channels
  {
    hide Say, Clip, PrefixOf;
  }

  // ------------------------------------------------------------------
  // Messages and topics
  // ------------------------------------------------------------------

  lemma PostSpares(st: State, id: int, posted: string, line: string, key: string)
    requires key in st.channels && posted in st.channels && id in st.channels[posted].members
    ensures Spared(st, Post(st, id, posted, line), id, key)
    ensures Post(st, id, posted, line).channels.Keys == st.channels.Keys
  {
  }

  lemma ToChannelSpares(st: State, id: int, name: string, text: string, notice: bool, answer: BotAnswer, key: string)
    requires id in st.users && key in st.channels
    ensures Spared(st, MessageToChannel(st, id, name, text, notice, answer).st, id, key)
  {
    hide Numeric, Say, BotText, PrefixOf, Serialize, Post, Spared, FindChan, One;
    SameSpares(st, st, id, key);
    FoundChan(st, name);
    RefusalsSpareChannels(st, id);
    var r := MessageToChannel(st, id, name, text, notice, answer);
    if FindChan(st, name).Some? && id in st.channels[FindChan(st, name).value].members && !notice {
      var posted := FindChan(st, name).value;
      var ch := st.channels[posted];
      var m := IrcMessage("PRIVMSG", [name, text], PrefixOf(st.users[id].account), true);
      if Serialize(m).Success? {
        var st1 := Post(st, id, posted, Serialize(m).value);
        PostSpares(st, id, posted, Serialize(m).value, key);
        BotTextSparesChannels(st1, ch.members, ch.name, "PRIVMSG", answer.text);
        SparedSame(st, st1, r.st, id, key);
      }
    } else {
      SparedSame(st, st, r.st, id, key);
    }
  }

  lemma SparedSame(a: State, b: State, c: State, id: int, key: string)
    requires key in a.channels && Spared(a, b, id, key) && c.channels == b.channels
    ensures Spared(a, c, id, key)
  {
  }

  lemma ToUserSparesChannels(st: State, id: int, nick: string, text: string, notice: bool, answer: BotAnswer)
    requires id in st.users
    ensures MessageToUser(st, id, nick, text, notice, answer).st.channels == st.channels
  {
    hide Numeric, Say, BotText, PrefixOf, FindNick, One;
    match FindNick(st, nick)
    case None =>
    case Some(target) =>
      var command := if notice then "NOTICE" else "PRIVMSG";
      var r := Say(st, {target}, IrcMessage(command, [nick, text], PrefixOf(st.users[id].account), true));
      BotTextSparesChannels(r.st, {id}, r.st.users[id].account.nick,
                            if answer.notice then "NOTICE" else "PRIVMSG", answer.text);
  }

  lemma MessageSpares(st: State, id: int, target: string, text: string, notice: bool, answer: BotAnswer, key: string)
    requires id in st.users && key in st.channels
    ensures Spared(st, Message(st, id, target, text, notice, answer).st, id, key)
  {
    hide MessageToUser, MessageToChannel, Spared;
    ToUserSparesChannels(st, id, target, text, notice, answer);
    ToChannelSpares(st, id, target, text, notice, answer, key);
    SameSpares(st, st, id, key);
    SparedSame(st, st, MessageToUser(st, id, target, text, notice, answer).st, id, key);
  }

  lemma TopicSpares(st: State, id: int, params: seq<string>, hasTrailing: bool, key: string)
    requires id in st.users && |params| >= 1
    requires key in st.channels && id !in st.channels[key].operators
    ensures Spared(st, Topic(st, id, params, hasTrailing).st, id, key)
  {
    hide Numeric, MissingParams, Say, SendTopic, PrefixOf, One;
    RefusalsSpareChannels(st, id);
    FoundChan(st, params[0]);
    hide FindChan;
  }

  // ------------------------------------------------------------------
  // INVITE and KICK: an operator's commands, in the operator's channel
  // ------------------------------------------------------------------

  lemma EnterElsewhere(st: State, id: int, key: string)
    requires id in st.users && key in st.channels
    ensures Elsewhere(st, Enter(st, id, key), key)
  {
  }

  lemma LeaveElsewhere(st: State, id: int, key: string)
    requires id in st.users && key in st.channels
    ensures Elsewhere(st, Leave(st, id, key), key)
  {
  }

  lemma CreateElsewhere(st: State, name: string)
    ensures Elsewhere(st, FindOrCreate(st, name), Normalize(name))
    ensures Normalize(name) in FindOrCreate(st, name).channels
    ensures FindOrCreate(st, name).users == st.users
  {
  }

  lemma ElsewhereTrans(a: State, b: State, c: State, key: string)
    requires Elsewhere(a, b, key) && Elsewhere(b, c, key)
    ensures Elsewhere(a, c, key)
  {
  }

  lemma ElsewhereSame(a: State, b: State, key: string)
    requires b.channels == a.channels
    ensures Elsewhere(a, b, key)
  {
  }

  lemma BotJoinElsewhere(st: State, key: string, greet: bool)
    requires key in st.channels
    ensures Elsewhere(st, BotJoin(st, key, greet).st, key)
  {
    hide Elsewhere, Enter, Say, BotText, JoinMessage, Equal;
    ElsewhereSame(st, st, key);
    if BOT in st.users && BOT !in st.channels[key].members {
      var st1 := Enter(st, BOT, key);
      EnterElsewhere(st, BOT, key);
      var st2 := Say(st1, st1.channels[key].members, JoinMessage(st1, BOT, key)).st;
      ElsewhereSame(st1, st2, key);
      ElsewhereTrans(st, st1, st2, key);
      var st3 := WithOperator(st2, key, BOT);
      assert Elsewhere(st2, st3, key) by { ChanElsewhere(st2, key, st3.channels[key]); }
      ElsewhereTrans(st, st2, st3, key);
      var ch := st2.channels[key];
      var st4 := if Equal(ch.name, HOME_CHANNEL) && BOT !in ch.operators then st3 else st2;
      var st5 := BotText(st4, st4.channels[key].members, ch.name, "PRIVMSG", BOT_GREETING).st;
      BotTextSparesChannels(st4, st4.channels[key].members, ch.name, "PRIVMSG", BOT_GREETING);
      ElsewhereSame(st4, st5, key);
      ElsewhereTrans(st, st4, st5, key);
    }
  }

  lemma ChanElsewhere(st: State, key: string, ch: Chan)
    ensures Elsewhere(st, WithChan(st, key, ch), key)
  {
  }

  lemma BotKickedElsewhere(st: State, name: string)
    ensures Elsewhere(st, BotKicked(st, name).st, Normalize(name))
  {
    hide Elsewhere, BotJoin, FindOrCreate, Normalize;
    ElsewhereSame(st, st, Normalize(name));
    if BOT in st.users && Equal(name, HOME_CHANNEL) {
      var key := Normalize(HOME_CHANNEL);
      CreateElsewhere(st, HOME_CHANNEL);
      BotJoinElsewhere(FindOrCreate(st, HOME_CHANNEL), key, false);
      ElsewhereTrans(st, FindOrCreate(st, HOME_CHANNEL), BotJoin(FindOrCreate(st, HOME_CHANNEL), key, false).st, key);
    }
  }

  lemma InviteTargetElsewhere(st: State, id: int, target: int, key: string)
    requires id in st.users && key in st.channels
    ensures Elsewhere(st, InviteTarget(st, id, target, key).st, key)
  {
    hide Elsewhere, NumericPlain, Say, PrefixOf, BotJoin, NickOfUser;
    var name, nick := st.channels[key].name, NickOfUser(st, target);
    var st1 := WithInvited(st, key, target);
    ElsewhereSame(st, st, key);
    ChanElsewhere(st, key, st1.channels[key]);
    var st2 := NumericPlain(st1, id, "341", [nick, name]).st;
    ElsewhereSame(st1, st2, key);
    ElsewhereTrans(st, st1, st2, key);
    var st3 := Say(st2, {target}, IrcMessage("INVITE", [nick, name], PrefixOf(st2.users[id].account), true)).st;
    ElsewhereSame(st2, st3, key);
    ElsewhereTrans(st, st2, st3, key);
    BotJoinElsewhere(st3, key, true);
    ElsewhereTrans(st, st3, BotJoin(st3, key, true).st, key);
  }

  lemma KickTargetElsewhere(st: State, id: int, target: int, key: string, reason: string)
    requires id in st.users && target in st.users && key in st.channels
    requires Normalize(st.channels[key].name) == key
    ensures Elsewhere(st, KickTarget(st, id, target, key, reason).st, key)
  {
    hide Elsewhere, Say, PrefixOf, BotKicked, Leave, NickOfUser, Normalize;
    var ch := st.channels[key];
    var m := IrcMessage("KICK", [ch.name, NickOfUser(st, target), reason], PrefixOf(st.users[id].account), true);
    var st1 := Say(st, ch.members, m).st;
    ElsewhereSame(st, st1, key);
    var st2 := Leave(st1, target, key);
    LeaveElsewhere(st1, target, key);
    ElsewhereTrans(st, st1, st2, key);
    BotKickedElsewhere(st2, ch.name);
    ElsewhereTrans(st, st2, BotKicked(st2, ch.name).st, key);
  }

  lemma ElsewhereSpares(a: State, b: State, id: int, changed: string, key: string)
    requires Elsewhere(a, b, changed) && key in a.channels && key != changed
    ensures Spared(a, b, id, key)
  {
  }

  lemma ChannelName(st: State, key: string)
    requires Inv(st) && key in st.channels
    ensures Normalize(st.channels[key].name) == key && st.channels[key].members != {}
    ensures st.channels[key].operators <= st.channels[key].members
  {
    assert ChanOk(st.channels[key], key, st.users);
  }

  lemma InviteSpares(st: State, id: int, params: seq<string>, key: string)
    requires Inv(st) && id in st.users && |params| >= 2
    requires key in st.channels && id !in st.channels[key].operators
    ensures Spared(st, Invite(st, id, params).st, id, key)
  {
    hide Inv, Invite, InviteTarget, FindNick, FindChan, Elsewhere, Spared;
    FoundChan(st, params[1]);
    SameSpares(st, st, id, key);
    if MayInvite(st, id, params) {
      InviteRuns(st, id, params);
      var target, changed := FindNick(st, params[0]).value, FindChan(st, params[1]).value;
      InviteTargetElsewhere(st, id, target, changed);
      ElsewhereSpares(st, InviteTarget(st, id, target, changed).st, id, changed, key);
    } else {
      InviteRefused(st, id, params);
      SparedSame(st, st, Invite(st, id, params).st, id, key);
    }
  }

  lemma KickSpares(st: State, id: int, params: seq<string>, key: string)
    requires Inv(st) && id in st.users && |params| >= 2
    requires key in st.channels && id !in st.channels[key].operators
    ensures Spared(st, Kick(st, id, params).st, id, key)
  {
    hide Inv, Kick, KickTarget, FindNick, FindChan, Elsewhere, Spared, Normalize;
    FoundChan(st, params[0]);
    SameSpares(st, st, id, key);
    if MayKick(st, id, params) {
      KickRuns(st, id, params);
      var target, changed := FindNick(st, params[1]).value, FindChan(st, params[0]).value;
      ChannelName(st, changed);
      KickTargetElsewhere(st, id, target, changed, KickReason(st, id, params));
      ElsewhereSpares(st, KickTarget(st, id, target, changed, KickReason(st, id, params)).st, id, changed, key);
    } else {
      KickRefused(st, id, params);
      SparedSame(st, st, Kick(st, id, params).st, id, key);
    }
  }

  lemma ModeSpares(st: State, id: int, params: seq<string>, key: string)
    requires Inv(st) && id in st.users && |params| >= 1
    requires key in st.channels && id !in st.channels[key].operators
    ensures Spared(st, Mode(st, id, params).st, id, key)
  {
    hide Inv, Numeric, NumericPlain, MissingParams, ChangeModes, QueryFlags, QueryArguments, SameRegistry, One,
      FindChan, ValidModes, Spared, LookupIn, ModeLaws.LastWriter, ModeLaws.OperatorAfter;
    RefusalsSpareChannels(st, id);
    FoundChan(st, params[0]);
    var r := Mode(st, id, params);
    var chan := FindChan(st, params[0]);
    if |params| >= 2 && chan.Some? && id in st.channels[chan.value].operators {
      ModeAllOrNothing(st, id, chan.value, params);
    }
    SameSpares(st, r.st, id, key);
  }

  // ------------------------------------------------------------------
  // JOIN and PART: a client's own way in and out
  // ------------------------------------------------------------------

  lemma MovedTrans(a: State, b: State, c: State, id: int, key: string)
    requires key in a.channels && a.channels[key].members != {} && Moved(a, b, id, key)
    requires if key in b.channels then Moved(b, c, id, key) else key !in c.channels
    ensures Moved(a, c, id, key)
  {
    if key !in c.channels && key in b.channels {
      var before, between := a.channels[key].members, b.channels[key].members;
      assert before - {id} == between - {id} == {};
      assert before == {id};
    }
  }

  lemma EnterOwn(st: State, id: int, key: string)
    requires id in st.users && key in st.channels && st.channels[key].members != {}
    ensures Moved(st, Enter(st, id, key), id, key)
  {
    hide Normalize;
  }

  lemma EnterMoves(st: State, id: int, name: string, key: string)
    requires Inv(st) && id in st.users && key in st.channels
    requires Normalize(name) in FindOrCreate(st, name).channels
    ensures var entered := Enter(FindOrCreate(st, name), id, Normalize(name));
            key in entered.channels && Moved(st, entered, id, key)
  {
    if key == Normalize(name) {
      hide Inv, Normalize, Moved, Enter;
      ChannelName(st, key);
      EnterOwn(st, id, key);
    } else {
      hide Inv, Normalize, Moved, Enter, FindOrCreate;
      CreateElsewhere(st, name);
      EnterElsewhere(FindOrCreate(st, name), id, Normalize(name));
      SameSpares(st, Enter(FindOrCreate(st, name), id, Normalize(name)), id, key);
    }
  }

  lemma JoinOneMoves(st: State, id: int, name: string, providedKey: string, key: string)
    requires Inv(st) && id in st.users && key in st.channels
    ensures var r := JoinOne(st, id, name, providedKey);
            key in r.st.channels && Moved(st, r.st, id, key)
  {
    hide Inv, Moved, JoinOne, JoinReplies, Enter, Admits, Normalize, FindOrCreate;
    if Admits(st, id, name, providedKey) {
      JoinChannels(st, id, name, providedKey);
      CreateElsewhere(st, name);
      EnterMoves(st, id, name, key);
      var entered := Enter(FindOrCreate(st, name), id, Normalize(name));
      MovedSame(st, entered, JoinOne(st, id, name, providedKey).st, id, key);
    } else {
      JoinRefusedKeeps(st, id, name, providedKey);
      SameSpares(st, JoinOne(st, id, name, providedKey).st, id, key);
    }
  }

  lemma MovedSame(a: State, b: State, c: State, id: int, key: string)
    requires key in a.channels && Moved(a, b, id, key) && c.channels == b.channels
    ensures Moved(a, c, id, key)
  {
  }

  /** A JOIN that is let in leaves the channels as entering left them, even when a reply throws. */
  lemma JoinChannels(st: State, id: int, name: string, providedKey: string)
    requires id in st.users && Admits(st, id, name, providedKey)
    ensures Normalize(name) in FindOrCreate(st, name).channels
    ensures JoinOne(st, id, name, providedKey).st.channels ==
              Enter(FindOrCreate(st, name), id, Normalize(name)).channels
  {
    hide JoinReplies, Enter, Admits, Normalize;
    JoinRuns(st, id, name, providedKey);
  }

  lemma {:induction false} JoinAllMoves(st: State, id: int, names: seq<string>, keys: seq<string>, key: string)
    requires Inv(st) && id in st.users && !Virtual(id) && st.users[id].account.registered && key in st.channels
    ensures var r := JoinAll(st, id, names, keys);
            key in r.st.channels && Moved(st, r.st, id, key)
    decreases |names|
  {
    hide Inv, Moved, JoinOne, Keeps, Follows;
    if names == [] {
      SameSpares(st, st, id, key);
    } else {
      var provided, more := if keys == [] then "" else keys[0], if keys == [] then [] else keys[1..];
      var r := JoinOne(st, id, names[0], provided);
      JoinOneMoves(st, id, names[0], provided, key);
      JoinOneKeeps(st, id, names[0], provided);
      if r.Done? {
        KeepsFollows(st, r.st, BOT);
        StaysRegistered(st, r.st, id);
        JoinAllMoves(r.st, id, names[1..], more, key);
        ChannelName(st, key);
        MovedTrans(st, r.st, JoinAll(r.st, id, names[1..], more).st, id, key);
      }
    }
  }

  lemma LeaveOwn(st: State, id: int, key: string)
    requires id in st.users && key in st.channels && id !in st.channels[key].operators
    ensures Moved(st, Leave(st, id, key), id, key)
  {
    hide Normalize;
    var ch := st.channels[key];
    if id in ch.members && Without(ch, id).members == {} {
      assert ch.members == {id};
    }
  }

  lemma LeaveMoves(st: State, id: int, left: string, key: string)
    requires Inv(st) && id in st.users && left in st.channels && key in st.channels
    requires id !in st.channels[key].operators
    ensures Moved(st, Leave(st, id, left), id, key)
  {
    if left == key {
      ChannelName(st, key);
      LeaveOwn(st, id, key);
    } else {
      hide Inv, Leave, Moved;
      LeaveElsewhere(st, id, left);
      SameSpares(st, Leave(st, id, left), id, key);
    }
  }

  /** A PART that does not leave the channels alone leaves one that its client was in. */
  lemma PartChannels(st: State, id: int, name: string, reason: Option<string>)
    requires id in st.users
    ensures var r := PartOne(st, id, name, reason);
            || r.st.channels == st.channels
            || (FindChan(st, name).Some? && FindChan(st, name).value in st.channels
                && r.st.channels == Leave(st, id, FindChan(st, name).value).channels)
  {
    hide Numeric, Say, PrefixOf, One, FindChan;
    FoundChan(st, name);
    RefusalsSpareChannels(st, id);
  }

  lemma PartOneMoves(st: State, id: int, name: string, reason: Option<string>, key: string)
    requires Inv(st) && id in st.users && key in st.channels && id !in st.channels[key].operators
    ensures Moved(st, PartOne(st, id, name, reason).st, id, key)
  {
    hide Inv, PartOne, Leave, Moved, FindChan;
    var r := PartOne(st, id, name, reason);
    PartChannels(st, id, name, reason);
    SameSpares(st, st, id, key);
    if r.st.channels == st.channels {
      MovedSame(st, st, r.st, id, key);
    } else {
      var left := FindChan(st, name).value;
      LeaveMoves(st, id, left, key);
      MovedSame(st, Leave(st, id, left), r.st, id, key);
    }
  }

  /** PART creates nothing. */
  lemma PartOneRemoves(st: State, id: int, name: string, reason: Option<string>)
    requires id in st.users
    ensures PartOne(st, id, name, reason).st.channels.Keys <= st.channels.Keys
  {
    hide PartOne;
    PartChannels(st, id, name, reason);
  }

  lemma {:induction false} PartAllRemoves(st: State, id: int, names: seq<string>, reason: Option<string>)
    requires id in st.users
    ensures PartAll(st, id, names, reason).st.channels.Keys <= st.channels.Keys
    decreases |names|
  {
    hide PartOne;
    if names != [] {
      PartOneRemoves(st, id, names[0], reason);
      PartAllRemoves(PartOne(st, id, names[0], reason).st, id, names[1..], reason);
    }
  }

  lemma {:induction false} PartAllMoves(st: State, id: int, names: seq<string>, reason: Option<string>, key: string)
    requires Inv(st) && id in st.users && key in st.channels && id !in st.channels[key].operators
    ensures Moved(st, PartAll(st, id, names, reason).st, id, key)
    decreases |names|
  {
    hide Inv, PartOne, Keeps, Follows;
    if names == [] {
      SameSpares(st, st, id, key);
    } else {
      var r := PartOne(st, id, names[0], reason);
      PartOneMoves(st, id, names[0], reason, key);
      PartOneKeeps(st, id, names[0], reason);
      if r.Done? {
        KeepsFollows(st, r.st, BOT);
        PartAllRemoves(r.st, id, names[1..], reason);
        if key in r.st.channels {
          PartAllMoves(r.st, id, names[1..], reason, key);
        }
        ChannelName(st, key);
        MovedTrans(st, r.st, PartAll(r.st, id, names[1..], reason).st, id, key);
      }
    }
  }

  lemma JoinSpares(st: State, id: int, params: seq<string>, key: string)
    requires Inv(st) && id in st.users && !Virtual(id) && st.users[id].account.registered
    requires |params| >= 1 && key in st.channels
    ensures Spared(st, Join(st, id, params).st, id, key)
  {
    hide Inv, JoinAll, SplitCommas, MissingParams, Moved, Spared;
    RefusalsSpareChannels(st, id);
    var r := Join(st, id, params);
    if params[0] == "" {
      SameSpares(st, r.st, id, key);
    } else {
      JoinAllMoves(st, id, SplitCommas(params[0]), if |params| > 1 then SplitCommas(params[1]) else [], key);
      MovedSpares(st, r.st, id, key);
    }
  }

  lemma PartSpares(st: State, id: int, params: seq<string>, key: string)
    requires Inv(st) && id in st.users && |params| >= 1
    requires key in st.channels && id !in st.channels[key].operators
    ensures Spared(st, Part(st, id, params).st, id, key)
  {
    hide Inv, PartAll, SplitCommas, MissingParams, Moved, Spared;
    RefusalsSpareChannels(st, id);
    var r := Part(st, id, params);
    if params[0] == "" {
      SameSpares(st, r.st, id, key);
    } else {
      PartAllMoves(st, id, SplitCommas(params[0]), if |params| > 1 then Some(params[1]) else None, key);
      MovedSpares(st, r.st, id, key);
    }
  }

  // ------------------------------------------------------------------
  // Any line
  // ------------------------------------------------------------------

  lemma HandleSpares(st: State, id: int, m: IrcMessage, answer: BotAnswer, key: string)
    requires Inv(st) && id in st.users && !Virtual(id) && Admitted(st.users[id].account, m)
    requires key in st.channels && id !in st.channels[key].operators
    ensures Spared(st, Handle(st, id, m, answer).st, id, key)
  {
    hide Inv, Spared, Pass, Nick, UserCommand, Ping, Quit, Cap, Join, Part, Message, Topic, Invite, Kick, Mode;
    SameSpares(st, st, id, key);
    var r := Handle(st, id, m, answer);
    match m.command
    case "JOIN" => JoinSpares(st, id, m.params, key);
    case "PART" => PartSpares(st, id, m.params, key);
    case "PRIVMSG" => MessageSpares(st, id, m.params[0], m.params[1], false, answer, key);
    case "NOTICE" =>
      if |m.params| >= 2 {
        MessageSpares(st, id, m.params[0], m.params[1], true, answer, key);
      }
    case "TOPIC" => TopicSpares(st, id, m.params, m.hasTrailing, key);
    case "INVITE" => InviteSpares(st, id, m.params, key);
    case "KICK" => KickSpares(st, id, m.params, key);
    case "MODE" => ModeSpares(st, id, m.params, key);
    case _ =>
      HandleSparesChannels(st, id, m, answer);
      SparedSame(st, st, r.st, id, key);
  }

  lemma HandleSparesChannels(st: State, id: int, m: IrcMessage, answer: BotAnswer)
    requires id in st.users && Admitted(st.users[id].account, m)
    requires m.command in {"PASS", "NICK", "USER", "PING", "PONG", "QUIT", "CAP"}
    ensures Handle(st, id, m, answer).st.channels == st.channels
  {
    hide Pass, Nick, UserCommand, Cap, Say, Request;
    match m.command
    case "PASS" => PassSparesChannels(st, id, m.params);
    case "NICK" => NickSparesChannels(st, id, m.params);
    case "USER" => UserSparesChannels(st, id, m.params);
    case "CAP" => CapSparesChannels(st, id, m.params);
    case _ =>
  }

  /** Refused for its parameters, if it was not refused before they were looked at. */
  lemma MiscountedSparesChannels(st: State, id: int, m: IrcMessage, answer: BotAnswer)
    requires id in st.users && !Admitted(st.users[id].account, m)
    requires DefinitionOf(m.command).Some?
    requires DefinitionOf(m.command).value.requiresRegistration ==> st.users[id].account.registered
    ensures Execute(st, id, m, answer).st.channels == st.channels
  {
    hide Numeric, Handle, MissingParams, One, DefinitionOf, SameRegistry;
    RefusalsSpareChannels(st, id);
  }

  lemma RefusedSparesChannels(st: State, id: int, m: IrcMessage, answer: BotAnswer)
    requires id in st.users && !Admitted(st.users[id].account, m)
    ensures Execute(st, id, m, answer).st.channels == st.channels
  {
    hide Numeric, Handle, MissingParams, One, DefinitionOf, SameRegistry, Admitted;
    RefusalsSpareChannels(st, id);
    var definition := DefinitionOf(m.command);
    if definition.Some? && (definition.value.requiresRegistration ==> st.users[id].account.registered) {
      MiscountedSparesChannels(st, id, m, answer);
    }
  }

  /**
   * Whatever a client sends, and whether or not the command completes: a channel
   * of which it is no operator keeps its settings, its operators, its other
   * members and their invitations, and under +t its topic; it disappears only
   * when the client was alone in it.
   */
  lemma NonOperatorsAreHarmless(st: State, id: int, m: IrcMessage, answer: BotAnswer, key: string)
    requires Inv(st) && id in st.users && !Virtual(id)
    requires key in st.channels && id !in st.channels[key].operators
    ensures Spared(st, Dispatch(st, id, m, answer).st, id, key)
  {
    hide Inv, Execute, TryRegister, Handle, Spared, DefinitionOf, Admitted;
    var r := Execute(st, id, m, answer);
    if Admitted(st.users[id].account, m) {
      AdmittedRuns(st, id, m, answer);
      HandleSpares(st, id, m, answer, key);
    } else {
      RefusedSparesChannels(st, id, m, answer);
      SameSpares(st, r.st, id, key);
    }
    RegisterSparesChannels(r.st, id);
    SparedSame(st, r.st, Dispatch(st, id, m, answer).st, id, key);
  }

  /** The same for the bytes of a line, parsed or not, its exception caught or not. */
  lemma LinesAreHarmless(st: State, id: int, line: string, answer: BotAnswer, key: string)
    requires Inv(st) && id in st.users && !Virtual(id)
    requires key in st.channels && id !in st.channels[key].operators
    ensures Spared(st, ServeLine(st, id, line, answer), id, key)
  {
    hide Inv, Dispatch, Parse, Spared;
    SameSpares(st, st, id, key);
    match Parse(line)
    case Failure(_) =>
    case Success(m) =>
      NonOperatorsAreHarmless(st, id, m, answer, key);
      SparedSame(st, Dispatch(st, id, m, answer).st, ServeLine(st, id, line, answer), id, key);
  }

  // ------------------------------------------------------------------
  // Entry
  // ------------------------------------------------------------------

  predicate In(st: State, id: int, key: string) {
    key in st.channels && id in st.channels[key].members
  }

  /** There is room, an invitation if one is needed, and the key if there is one. */
  predicate LetsIn(ch: Chan, id: int, providedKey: string) {
    && (ch.flags.limitEnabled ==> |ch.members| < ch.flags.limit)
    && (ch.flags.inviteOnly ==> id in ch.invited)
    && (ch.flags.keyEnabled ==> providedKey == ch.flags.key)
  }

  /** What the name stands for now is a new channel, or one that lets the client in. */
  predicate OpenTo(st: State, id: int, name: string, providedKey: string) {
    && ValidChannelName(name)
    && (Normalize(name) in st.channels ==> LetsIn(st.channels[Normalize(name)], id, providedKey))
  }

  lemma DenialIsClosed(ch: Chan, id: int, providedKey: string)
    ensures Denial(ch, id, providedKey).None? <==> LetsIn(ch, id, providedKey)
  {
  }

  /** Some name of the list stands for this channel and opens it, with the key at its position. */
  predicate OpenedBy(st: State, id: int, names: seq<string>, keys: seq<string>, key: string) {
    exists i :: 0 <= i < |names| && Normalize(names[i]) == key
                && OpenTo(st, id, names[i], if i < |keys| then keys[i] else "")
  }

  lemma AdmitsIsOpen(st: State, id: int, name: string, providedKey: string)
    requires Inv(st)
    ensures Admits(st, id, name, providedKey) <==> OpenTo(st, id, name, providedKey) && !In(st, id, Normalize(name))
  {
    var key := Normalize(name);
    if key in st.channels {
      DenialIsClosed(st.channels[key], id, providedKey);
    } else {
      DenialIsClosed(NewChan(name), id, providedKey);
    }
    hide Inv, ValidChannelName, Normalize, Denial;
  }

  /** The reply to a client that is kept out: 471, 473 or 475, in this order. */
  function KeptOut(ch: Chan, id: int): IrcReply {
    if ch.flags.limitEnabled && |ch.members| >= ch.flags.limit then IrcReply("471", "Cannot join channel (+l)")
    else if ch.flags.inviteOnly && id !in ch.invited then IrcReply("473", "Cannot join channel (+i)")
    else IrcReply("475", "Cannot join channel (+k)")
  }

  datatype IrcReply = IrcReply(code: string, text: string)

  /** One who is in already is not answered; an invalid name is unknown; a closed channel says what is missing first. */
  lemma JoinOneRefused(st: State, id: int, name: string, providedKey: string)
    requires Inv(st) && id in st.users
    requires !OpenTo(st, id, name, providedKey) || In(st, id, Normalize(name))
    ensures var r := JoinOne(st, id, name, providedKey);
            if !ValidChannelName(name) then r == Numeric(st, id, "403", One(name), "No such channel")
            else if In(st, id, Normalize(name)) then r == Done(st)
            else
              && Normalize(name) in st.channels
              && var ch := st.channels[Normalize(name)];
                 r == Numeric(st, id, KeptOut(ch, id).code, [ch.name], KeptOut(ch, id).text)
  {
    AdmitsIsOpen(st, id, name, providedKey);
    JoinRefused(st, id, name, providedKey);
    if ValidChannelName(name) && !In(st, id, Normalize(name)) {
      ChannelName(st, Normalize(name));
      NamedChannel(st, Normalize(name));
    }
    hide Inv, ValidChannelName, Normalize, JoinOne, Admits, Numeric;
  }

  lemma NamedChannel(st: State, key: string)
    requires Inv(st) && key in st.channels
    ensures st.channels[key].name != "" && One(st.channels[key].name) == [st.channels[key].name]
  {
    assert ChanOk(st.channels[key], key, st.users);
  }

  /** One JOIN makes its client a member exactly of a channel that is open to it, throw or not. */
  lemma JoinOneEnters(st: State, id: int, name: string, providedKey: string, key: string)
    requires Inv(st) && id in st.users
    ensures In(JoinOne(st, id, name, providedKey).st, id, key) <==>
              In(st, id, key) || (key == Normalize(name) && OpenTo(st, id, name, providedKey))
  {
    hide Inv, JoinOne, Admits, OpenTo, Normalize, FindOrCreate, Enter;
    AdmitsIsOpen(st, id, name, providedKey);
    if Admits(st, id, name, providedKey) {
      JoinChannels(st, id, name, providedKey);
      EnterChannel(st, id, name, key);
    } else {
      JoinRefusedKeeps(st, id, name, providedKey);
    }
  }

  lemma EnterChannel(st: State, id: int, name: string, key: string)
    requires id in st.users && Normalize(name) in FindOrCreate(st, name).channels
    ensures var entered := Enter(FindOrCreate(st, name), id, Normalize(name));
            In(entered, id, key) <==> In(st, id, key) || key == Normalize(name)
  {
    hide Normalize;
  }

  /** The channels the client is not in afterwards are as they were. */
  lemma JoinOneElsewhere(st: State, id: int, name: string, providedKey: string, key: string)
    requires Inv(st) && id in st.users && !In(JoinOne(st, id, name, providedKey).st, id, key)
    ensures var after := JoinOne(st, id, name, providedKey).st;
            && (key in after.channels <==> key in st.channels)
            && (key in st.channels ==> after.channels[key] == st.channels[key])
  {
    hide Inv, JoinOne, Admits, Normalize, FindOrCreate, Enter;
    if Admits(st, id, name, providedKey) {
      JoinChannels(st, id, name, providedKey);
      EnterChannel(st, id, name, key);
      hide In;
      CreateElsewhere(st, name);
      EnterElsewhere(FindOrCreate(st, name), id, Normalize(name));
    } else {
      JoinRefusedKeeps(st, id, name, providedKey);
    }
  }

  lemma OpenedByFirst(st: State, id: int, names: seq<string>, keys: seq<string>, key: string)
    requires names != []
    ensures var provided, more := if keys == [] then "" else keys[0], if keys == [] then [] else keys[1..];
            OpenedBy(st, id, names, keys, key) <==>
              || (key == Normalize(names[0]) && OpenTo(st, id, names[0], provided))
              || OpenedBy(st, id, names[1..], more, key)
  {
    hide OpenTo, Normalize;
    var more := if keys == [] then [] else keys[1..];
    if OpenedBy(st, id, names[1..], more, key) {
      var i :| 0 <= i < |names[1..]| && Normalize(names[1..][i]) == key
               && OpenTo(st, id, names[1..][i], if i < |more| then more[i] else "");
      assert names[1..][i] == names[i + 1] && (i < |more| <==> i + 1 < |keys|);
      assert i < |more| ==> more[i] == keys[i + 1];
    }
    if OpenedBy(st, id, names, keys, key) {
      var i :| 0 <= i < |names| && Normalize(names[i]) == key
               && OpenTo(st, id, names[i], if i < |keys| then keys[i] else "");
      if i > 0 {
        assert names[1..][i - 1] == names[i] && (i - 1 < |more| <==> i < |keys|);
        assert i < |keys| ==> more[i - 1] == keys[i];
      }
    }
  }

  lemma OpenedBySame(a: State, b: State, id: int, names: seq<string>, keys: seq<string>, key: string)
    requires key in b.channels <==> key in a.channels
    requires key in a.channels ==> b.channels[key] == a.channels[key]
    ensures OpenedBy(b, id, names, keys, key) <==> OpenedBy(a, id, names, keys, key)
  {
    hide Normalize, LetsIn, ValidChannelName;
  }

  /**
   * A JOIN that completes makes its client a member of exactly the channels it
   * was in and those that a name of its list opens: the channel is new, or has
   * room, an invitation if it needs one, and the key at the name's position. An
   * exception on the way lets nobody in that was to stay out.
   */
  lemma {:induction false} JoinLetsInExactly(st: State, id: int, names: seq<string>, keys: seq<string>, key: string)
    requires Inv(st) && id in st.users && !Virtual(id) && st.users[id].account.registered
    ensures var r := JoinAll(st, id, names, keys);
            && (In(r.st, id, key) ==> In(st, id, key) || OpenedBy(st, id, names, keys, key))
            && (r.Done? && (In(st, id, key) || OpenedBy(st, id, names, keys, key)) ==> In(r.st, id, key))
    decreases |names|
  {
    hide Inv, JoinOne, Keeps, Follows, In, OpenTo, OpenedBy, Normalize;
    if names == [] {
      NothingOpens(st, id, keys, key);
    } else {
      var provided, more := if keys == [] then "" else keys[0], if keys == [] then [] else keys[1..];
      var r := JoinOne(st, id, names[0], provided);
      JoinOneEnters(st, id, names[0], provided, key);
      JoinOneKeeps(st, id, names[0], provided);
      OpenedByFirst(st, id, names, keys, key);
      if r.Done? {
        KeepsFollows(st, r.st, BOT);
        StaysRegistered(st, r.st, id);
        JoinLetsInExactly(r.st, id, names[1..], more, key);
        if !In(r.st, id, key) {
          JoinOneElsewhere(st, id, names[0], provided, key);
          OpenedBySame(st, r.st, id, names[1..], more, key);
        }
      }
    }
  }

  lemma NothingOpens(st: State, id: int, keys: seq<string>, key: string)
    ensures !OpenedBy(st, id, [], keys, key)
  {
  }
}
