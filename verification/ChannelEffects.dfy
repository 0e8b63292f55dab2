// What the commands that change a channel do to it, and whom they tell: KICK,
// INVITE, TOPIC and PART (CommandDispatcher.cpp:609-1065).
module ChannelEffects {
  import opened Results
  import opened IrcCasemap
  import opened Codec
  import opened CommaList
  import opened ChannelModes
  import opened ServerState
  import opened Primitives
  import opened Membership
  import opened Commands
  import opened CommandLaws
  import opened DispatchLaws
  import opened Authorisation
  import opened RegistryLaws

  // ------------------------------------------------------------------
  // Telling
  // ------------------------------------------------------------------

  /** The same clients, and each of these has been offered the line once; nothing else was sent. */
  ghost predicate Announced(a: State, b: State, to: set<int>, line: string) {
    && b.users.Keys == a.users.Keys
    && forall i :: i in a.users ==>
         b.users[i].out == if i in to then Offer(i, a.users[i].out, line, None) else a.users[i].out
  }

  /** Apart from that nothing has changed. */
  ghost predicate OnlyAnnounced(a: State, b: State, to: set<int>, line: string) {
    && b == a.(users := b.users) && Announced(a, b, to, line)
    && forall i :: i in a.users ==> b.users[i] == a.users[i].(out := b.users[i].out)
  }

  lemma SayAnnounces(st: State, to: set<int>, m: IrcMessage)
    ensures var r := Say(st, to, m);
            match Serialize(m)
            case Failure(_) => r == Threw(st)
            case Success(line) => r.Done? && OnlyAnnounced(st, r.st, to, line)
  {
    hide Serialize, Offer;
  }

  /** A numeric reply comes from the server, is addressed to the client, and reaches nobody else. */
  lemma NumericAnnounces(st: State, id: int, code: string, params: seq<string>, text: string)
    requires id in st.users
    ensures var nick := st.users[id].account.nick;
            var m := IrcMessage(code, [if nick == "" then "*" else nick] + params + [text], "irc.42.local", true);
            Numeric(st, id, code, params, text) == Say(st, {id}, m)
  {
    hide Say;
  }

  /** What is said of a command with too few parameters. */
  lemma MissingParamsAnnounces(st: State, id: int, command: string)
    requires id in st.users && command != ""
    ensures MissingParams(st, id, command) == Numeric(st, id, "461", [command], "Not enough parameters")
  {
    hide Numeric;
  }

  /** The account, the channels and the input of everyone but the channels of one client. */
  ghost predicate OnlyJoined(a: State, b: State, id: int, joined: set<string>) {
    && b.users.Keys == a.users.Keys && b.nicks == a.nicks && b.order == a.order && b.password == a.password
    && forall i :: i in a.users ==>
         && b.users[i].account == a.users[i].account
         && b.users[i].joined == if i == id then joined else a.users[i].joined
  }

  // ------------------------------------------------------------------
  // Leaving
  // ------------------------------------------------------------------

  /** A channel without one client. */
  ghost predicate LessOne(a: Chan, b: Chan, id: int) {
    && b == a.(members := b.members, operators := b.operators, invited := b.invited)
    && b.members == a.members - {id} && b.operators == a.operators - {id} && b.invited == a.invited - {id}
  }

  /** This client is out of the channel, which vanishes with its last member; everything else stays. */
  ghost predicate Departed(a: State, b: State, id: int, key: string) {
    && key in a.channels && id in a.users
    && Elsewhere(a, b, key)
    && (key in b.channels <==> a.channels[key].members != {id})
    && (key in b.channels ==> LessOne(a.channels[key], b.channels[key], id))
    && OnlyJoined(a, b, id, a.users[id].joined - {key})
  }

  lemma LeaveChannels(st: State, id: int, key: string)
    requires id in st.users && key in st.channels && id in st.channels[key].members
    ensures var s := Leave(st, id, key);
            && Elsewhere(st, s, key)
            && (key in s.channels <==> st.channels[key].members != {id})
            && (key in s.channels ==> LessOne(st.channels[key], s.channels[key], id))
  {
    var members := st.channels[key].members;
    assert {id} - {id} == {};
    if members - {id} == {} {
      assert members == {id};
    }
    hide Normalize;
  }

  lemma LeaveClients(st: State, id: int, key: string)
    requires id in st.users && key in st.channels && id in st.channels[key].members
    requires Normalize(st.channels[key].name) == key
    ensures var s := Leave(st, id, key);
            && OnlyJoined(st, s, id, st.users[id].joined - {key})
            && forall i :: i in st.users ==> s.users[i].out == st.users[i].out
  {
    hide Normalize;
  }

  lemma LeaveDeparts(st: State, id: int, key: string)
    requires Inv(st) && id in st.users && key in st.channels && id in st.channels[key].members
    ensures Departed(st, Leave(st, id, key), id, key)
    ensures forall i :: i in st.users ==> Leave(st, id, key).users[i].out == st.users[i].out
  {
    hide Inv, Normalize, Leave, Elsewhere, LessOne, OnlyJoined;
    ChannelName(st, key);
    LeaveChannels(st, id, key);
    LeaveClients(st, id, key);
  }

  /** The same seen from before the farewell, which only adds output. */
  lemma ToldThenDeparted(a: State, b: State, c: State, to: set<int>, line: string, id: int, key: string)
    requires OnlyAnnounced(a, b, to, line) && Departed(b, c, id, key)
    requires forall i :: i in b.users ==> c.users[i].out == b.users[i].out
    ensures Departed(a, c, id, key) && Announced(a, c, to, line)
  {
    hide Offer, LessOne;
  }

  lemma SayThenLeave(st: State, to: set<int>, m: IrcMessage, id: int, key: string)
    requires Inv(st) && id in st.users && key in st.channels && id in st.channels[key].members
    requires Serialize(m).Success?
    ensures var s := Leave(Say(st, to, m).st, id, key);
            Departed(st, s, id, key) && Announced(st, s, to, Serialize(m).value)
  {
    hide Inv, Serialize, Say, Leave, Departed, Quiet;
    SayAnnounces(st, to, m);
    SayQuiet(st, to, m);
    QuietInv(st, Say(st, to, m).st);
    LeaveDeparts(Say(st, to, m).st, id, key);
    ToldThenDeparted(st, Say(st, to, m).st, Leave(Say(st, to, m).st, id, key), to, Serialize(m).value, id, key);
  }

  // ------------------------------------------------------------------
  // PART
  // ------------------------------------------------------------------

  /** The line of a PART, with the reason if one was given. */
  function PartLine(st: State, id: int, key: string, reason: Option<string>): IrcMessage
    requires id in st.users && key in st.channels
  {
    var a := st.users[id].account;
    var prefix := a.nick + "!" + a.username + "@" + a.host;
    match reason
    case None => IrcMessage("PART", [st.channels[key].name], prefix, false)
    case Some(why) => IrcMessage("PART", [st.channels[key].name, why], prefix, true)
  }

  lemma PartRuns(st: State, id: int, name: string, reason: Option<string>)
    requires id in st.users
    ensures var key := Normalize(name);
            key != "" && key in st.channels && id in st.channels[key].members ==>
              var r := Say(st, st.channels[key].members, PartLine(st, id, key, reason));
              PartOne(st, id, name, reason) == if r.Threw? then r else Done(Leave(r.st, id, key))
  {
    hide Say, Leave, Normalize;
    var key := Normalize(name);
    if key in st.channels {
      var params := [st.channels[key].name] + (if reason.Some? then [reason.value] else []);
      var prefix := PrefixOf(st.users[id].account);
      assert IrcMessage("PART", params, prefix, reason.Some?) == PartLine(st, id, key, reason);
      hide PartLine, PrefixOf;
    }
  }

  /**
   * PART of one channel: an unknown name is 403, a channel the client is not in
   * 442. A member leaves exactly when the line prints; everyone who was in the
   * channel, the client included, is told.
   */
  lemma PartExactly(st: State, id: int, name: string, reason: Option<string>)
    requires Inv(st) && id in st.users
    ensures var r, key := PartOne(st, id, name, reason), Normalize(name);
            if key == "" || key !in st.channels then r == Numeric(st, id, "403", One(name), "No such channel")
            else if id !in st.channels[key].members then
              r == Numeric(st, id, "442", One(st.channels[key].name), "You're not on that channel")
            else if Serialize(PartLine(st, id, key, reason)).Failure? then r == Threw(st)
            else
              && r.Done? && Departed(st, r.st, id, key)
              && Announced(st, r.st, st.channels[key].members, Serialize(PartLine(st, id, key, reason)).value)
  {
    hide Inv, Numeric, Say, Leave, Serialize, Normalize, Departed, Announced, One;
    var key := Normalize(name);
    if key != "" && key in st.channels && id in st.channels[key].members {
      var members, m := st.channels[key].members, PartLine(st, id, key, reason);
      PartRuns(st, id, name, reason);
      SayAnnounces(st, members, m);
      hide PartOne;
      if Serialize(m).Success? {
        SayThenLeave(st, members, m, id, key);
      }
    }
  }

  predicate Named(names: seq<string>, key: string) {
    exists i :: 0 <= i < |names| && Normalize(names[i]) == key
  }

  lemma NamedFirst(names: seq<string>, key: string)
    requires names != []
    ensures Named(names, key) <==> Normalize(names[0]) == key || Named(names[1..], key)
  {
    hide Normalize;
    if Named(names[1..], key) {
      var i :| 0 <= i < |names[1..]| && Normalize(names[1..][i]) == key;
      assert names[i + 1] == names[1..][i];
    }
    if Named(names, key) {
      var i :| 0 <= i < |names| && Normalize(names[i]) == key;
      if i > 0 {
        assert names[1..][i - 1] == names[i];
      }
    }
  }

  lemma PartOneLeaves(st: State, id: int, name: string, reason: Option<string>, key: string)
    requires Inv(st) && id in st.users && PartOne(st, id, name, reason).Done?
    ensures In(PartOne(st, id, name, reason).st, id, key) <==> In(st, id, key) && Normalize(name) != key
  {
    hide Inv, PartOne, Numeric, Serialize, Normalize, PartLine, Announced;
    PartExactly(st, id, name, reason);
    NumericSparesChannels(st, id);
    if In(st, id, key) {
      KeyNotEmpty(st, key);
    }
  }

  lemma KeyNotEmpty(st: State, key: string)
    requires Inv(st) && key in st.channels
    ensures key != ""
  {
    assert ChanOk(st.channels[key], key, st.users);
    assert |Normalize(st.channels[key].name)| == |st.channels[key].name|;
  }

  /** A PART that completes leaves its client in exactly the channels it did not name. */
  lemma {:induction false} PartLeavesExactly(st: State, id: int, names: seq<string>, reason: Option<string>,
                                             key: string)
    requires Inv(st) && id in st.users && PartAll(st, id, names, reason).Done?
    ensures In(PartAll(st, id, names, reason).st, id, key) <==> In(st, id, key) && !Named(names, key)
    decreases |names|
  {
    hide Inv, PartOne, Keeps, Follows, In, Named, Normalize;
    if names == [] {
      assert !Named([], key) by { NothingNamed(key); }
    } else {
      var r := PartOne(st, id, names[0], reason);
      PartOneKeeps(st, id, names[0], reason);
      PartOneLeaves(st, id, names[0], reason, key);
      KeepsFollows(st, r.st, BOT);
      PartLeavesExactly(r.st, id, names[1..], reason, key);
      NamedFirst(names, key);
    }
  }

  lemma NothingNamed(key: string)
    ensures !Named([], key)
  {
  }

  // ------------------------------------------------------------------
  // KICK
  // ------------------------------------------------------------------

  /** The target of a KICK or an INVITE, by name. */
  predicate Owner(st: State, nick: string, target: int) {
    FindNick(st, nick) == Some(target)
  }

  /** What everyone in the channel is told; the nickname of the operator stands in for a reason. */
  function KickLine(st: State, id: int, target: int, key: string, params: seq<string>): IrcMessage
    requires id in st.users && target in st.users && key in st.channels
  {
    var a := st.users[id].account;
    var reason := if |params| >= 3 && params[2] != "" then params[2] else a.nick;
    IrcMessage("KICK", [st.channels[key].name, st.users[target].account.nick, reason],
               a.nick + "!" + a.username + "@" + a.host, true)
  }

  /** Everything that KICK asks for. */
  predicate KickAllowed(st: State, id: int, target: int, key: string, params: seq<string>) {
    && |params| >= 2 && params[0] != "" && params[1] != ""
    && key == Normalize(params[0]) && key in st.channels && Owner(st, params[1], target) && target in st.users
    && id in st.channels[key].operators && target in st.channels[key].members
  }

  lemma KickAllowedRuns(st: State, id: int, target: int, key: string, params: seq<string>)
    requires Inv(st) && id in st.users && KickAllowed(st, id, target, key, params)
    ensures MayKick(st, id, params)
    ensures var r := Say(st, st.channels[key].members, KickLine(st, id, target, key, params));
            Kick(st, id, params) ==
              if r.Threw? then r
              else
                var left := Leave(r.st, target, key);
                if target == BOT then BotKicked(left, st.channels[key].name) else Done(left)
  {
    ChannelName(st, key);
    KeyNotEmpty(st, key);
    hide Inv, Say, Leave, BotKicked, Normalize, FindNick, Kick;
    assert KickReason(st, id, params) == KickLine(st, id, target, key, params).params[2];
    KickRuns(st, id, params);
  }

  /**
   * A permitted KICK of anybody but the bot takes exactly its target out of the
   * channel, when its line prints; everyone who was in it, the target included, is
   * told. Otherwise nothing has changed.
   */
  lemma KickExactly(st: State, id: int, target: int, key: string, params: seq<string>)
    requires Inv(st) && id in st.users && target != BOT && KickAllowed(st, id, target, key, params)
    ensures var r, m := Kick(st, id, params), KickLine(st, id, target, key, params);
            match Serialize(m)
            case Failure(_) => r == Threw(st)
            case Success(line) =>
              r.Done? && Departed(st, r.st, target, key) && Announced(st, r.st, st.channels[key].members, line)
  {
    hide Inv, Say, Leave, Serialize, Departed, Announced, Kick, KickLine;
    KickAllowedRuns(st, id, target, key, params);
    var m := KickLine(st, id, target, key, params);
    SayAnnounces(st, st.channels[key].members, m);
    if Serialize(m).Success? {
      SayThenLeave(st, st.channels[key].members, m, target, key);
    }
  }

  /** The bot is kicked like anybody else, and comes back into its home channel as an operator. */
  lemma BotKickExactly(st: State, id: int, key: string, params: seq<string>)
    requires Inv(st) && id in st.users && KickAllowed(st, id, BOT, key, params) && Kick(st, id, params).Done?
    ensures var s := Kick(st, id, params).st;
            if Normalize(HOME_CHANNEL) != key then Departed(st, s, BOT, key)
            else
              && key in s.channels && BOT in s.channels[key].members && BOT in s.channels[key].operators
              && s.channels[key].members == st.channels[key].members + {BOT}
  {
    hide Inv, Say, Leave, Serialize, Departed, Announced, Kick, KickLine, BotKicked, Normalize, Equal;
    ChannelName(st, key);
    KickAllowedRuns(st, id, BOT, key, params);
    var ch, m := st.channels[key], KickLine(st, id, BOT, key, params);
    SayAnnounces(st, ch.members, m);
    SayThenLeave(st, ch.members, m, BOT, key);
    var left := Leave(Say(st, ch.members, m).st, BOT, key);
    HomeIsEqual(ch.name, key);
    if Equal(ch.name, HOME_CHANNEL) {
      DepartedMembers(st, left, BOT, key);
      BotReturns(left, key, ch.name);
    } else {
      NotHome(left, ch.name);
    }
  }

  lemma HomeIsEqual(name: string, key: string)
    requires Normalize(name) == key
    ensures Equal(name, HOME_CHANNEL) <==> Normalize(HOME_CHANNEL) == key
  {
    EqualIsLetterwise(name, HOME_CHANNEL);
    NormalizedEqual(name, HOME_CHANNEL);
  }

  lemma NormalizedEqual(a: string, b: string)
    ensures Equal(a, b) <==> Normalize(a) == Normalize(b)
  {
  }

  lemma NotHome(st: State, name: string)
    requires !Equal(name, HOME_CHANNEL)
    ensures BotKicked(st, name) == Done(st)
  {
  }

  lemma DepartedMembers(a: State, b: State, id: int, key: string)
    requires Departed(a, b, id, key)
    ensures key in b.channels ==>
              b.channels[key].members == a.channels[key].members - {id} && b.channels[key].name == a.channels[key].name
    ensures key !in b.channels ==> a.channels[key].members == {id}
    ensures b.users.Keys == a.users.Keys && id in a.users
  {
  }

  /** Into the channel that is left, or a new one. */
  lemma BotReturns(st: State, key: string, name: string)
    requires BOT in st.users && Equal(name, HOME_CHANNEL) && key == Normalize(HOME_CHANNEL)
    requires key in st.channels ==> BOT !in st.channels[key].members && Equal(st.channels[key].name, HOME_CHANNEL)
    requires BotKicked(st, name).Done?
    ensures var s := BotKicked(st, name).st;
            && key in s.channels && BOT in s.channels[key].operators
            && s.channels[key].members == (if key in st.channels then st.channels[key].members else {}) + {BOT}
  {
    HomeChannelName();
    NormalizedEqual(HOME_CHANNEL, HOME_CHANNEL);
    hide Equal, Normalize, Say, JoinMessage;
  }

  /** What a KICK is answered that is not permitted, in the order of the checks. */
  lemma KickRefusedWith(st: State, id: int, params: seq<string>)
    requires Inv(st) && id in st.users && |params| >= 2
    ensures var r, key, target := Kick(st, id, params), Normalize(params[0]), FindNick(st, params[1]);
            if params[0] == "" || params[1] == "" then r == MissingParams(st, id, "KICK")
            else if key !in st.channels then r == Numeric(st, id, "403", One(params[0]), "No such channel")
            else if target.None? then r == Numeric(st, id, "401", One(params[1]), "No such nick")
            else
              var ch := st.channels[key];
              (id !in ch.members ==> r == Numeric(st, id, "442", [ch.name], "You're not on that channel"))
              && (id in ch.members && id !in ch.operators ==>
                    r == Numeric(st, id, "482", [ch.name], "You're not channel operator"))
              && (id in ch.operators && target.value !in ch.members ==>
                    r == Numeric(st, id, "441", [NickOfUser(st, target.value), ch.name], "They aren't on that channel"))
  {
    var key := Normalize(params[0]);
    assert params[0] != "" ==> key != "" by {
      assert |key| == |params[0]|;
    }
    if key in st.channels {
      NamedChannel(st, key);
      ChannelName(st, key);
    }
    hide Inv, Numeric, MissingParams, KickTarget, FindNick, Normalize;
  }

  // ------------------------------------------------------------------
  // INVITE
  // ------------------------------------------------------------------

  /** Everything that INVITE asks for. */
  predicate InviteAllowed(st: State, id: int, target: int, key: string, params: seq<string>) {
    && |params| >= 2 && params[0] != "" && params[1] != ""
    && key == Normalize(params[1]) && key in st.channels && Owner(st, params[0], target) && target in st.users
    && id in st.channels[key].operators && target !in st.channels[key].members
  }

  /** What its sender is answered. */
  function InvitingLine(st: State, id: int, target: int, key: string): IrcMessage
    requires id in st.users && target in st.users && key in st.channels
  {
    var nick := st.users[id].account.nick;
    IrcMessage("341", [if nick == "" then "*" else nick, st.users[target].account.nick, st.channels[key].name],
               "irc.42.local", false)
  }

  /** What the target is told. */
  function InviteLine(st: State, id: int, target: int, key: string): IrcMessage
    requires id in st.users && target in st.users && key in st.channels
  {
    var a := st.users[id].account;
    IrcMessage("INVITE", [st.users[target].account.nick, st.channels[key].name],
               a.nick + "!" + a.username + "@" + a.host, true)
  }

  /** The target is invited, and nothing else about any channel differs. */
  ghost predicate Invited(a: State, b: State, target: int, key: string) {
    && key in a.channels
    && b.channels == a.channels[key := a.channels[key].(invited := a.channels[key].invited + {target})]
  }

  lemma InviteAllowedRuns(st: State, id: int, target: int, key: string, params: seq<string>)
    requires Inv(st) && id in st.users && InviteAllowed(st, id, target, key, params)
    ensures Invite(st, id, params) == InviteTarget(st, id, target, key)
  {
    ChannelName(st, key);
    KeyNotEmpty(st, key);
    hide Inv, InviteTarget, Normalize, FindNick, Invite;
    InviteRuns(st, id, params);
  }

  lemma InviteTargetRuns(st: State, id: int, target: int, key: string)
    requires id in st.users && target in st.users && key in st.channels && target !in st.channels[key].members
    ensures Invited(st, WithInvited(st, key, target), target, key)
    ensures WithInvited(st, key, target).users == st.users
    ensures var r1 := Say(WithInvited(st, key, target), {id}, InvitingLine(st, id, target, key));
            var r2 := Say(r1.st, {target}, InviteLine(st, id, target, key));
            InviteTarget(st, id, target, key) ==
              if r1.Threw? then r1
              else if r2.Threw? then r2
              else if target == BOT then BotJoin(r2.st, key, true) else r2
  {
    var st1 := WithInvited(st, key, target);
    var m := InvitingLine(st, id, target, key);
    SayAnnounces(st1, {id}, m);
    assert NumericPlain(st1, id, "341", [NickOfUser(st, target), st.channels[key].name]) == Say(st1, {id}, m);
    hide Say, BotJoin, Serialize, Offer;
  }

  /**
   * A permitted INVITE of anybody but the bot leaves its target invited, even if
   * it throws; it completes exactly when both of its lines print, and then the
   * sender has had the one and the target the other.
   */
  lemma InviteExactly(st: State, id: int, target: int, key: string, params: seq<string>)
    requires Inv(st) && id in st.users && target != BOT && InviteAllowed(st, id, target, key, params)
    ensures var r := Invite(st, id, params);
            var replied := Serialize(InvitingLine(st, id, target, key));
            var told := Serialize(InviteLine(st, id, target, key));
            && Invited(st, r.st, target, key) && OnlyJoined(st, r.st, id, st.users[id].joined)
            && (r.Done? <==> replied.Success? && told.Success?)
            && (r.Done? ==> forall i :: i in st.users ==>
                  r.st.users[i].out ==
                    if i == id then Offer(id, st.users[id].out, replied.value, None)
                    else if i == target then Offer(target, st.users[target].out, told.value, None)
                    else st.users[i].out)
  {
    ChannelName(st, key);
    hide Inv, Say, Serialize, Offer, Invite, InviteTarget, InvitingLine, InviteLine, WithInvited, Normalize, FindNick,
      Invited, TwoTold;
    InviteAllowedRuns(st, id, target, key, params);
    InviteTargetRuns(st, id, target, key);
    InvitedOnly(st, key, target);
    var st1 := WithInvited(st, key, target);
    var m1, m2 := InvitingLine(st, id, target, key), InviteLine(st, id, target, key);
    BothTold(st1, id, m1, target, m2);
    var r := TwoSays(st1, id, m1, target, m2);
    InvitedStays(st, st1, r.st, target, key);
    ToldOfInvitation(st, st1, r, id, target, m1, m2);
  }

  /** One line to one client, then another to another. */
  function TwoSays(st: State, id: int, m1: IrcMessage, target: int, m2: IrcMessage): Outcome {
    var r1 := Say(st, {id}, m1);
    if r1.Threw? then r1 else Say(r1.st, {target}, m2)
  }

  ghost predicate TwoTold(st: State, r: Outcome, id: int, m1: IrcMessage, target: int, m2: IrcMessage) {
    && r.st.channels == st.channels && id in st.users && OnlyJoined(st, r.st, id, st.users[id].joined)
    && (r.Done? <==> Serialize(m1).Success? && Serialize(m2).Success?)
    && (r.Done? ==> forall i :: i in st.users ==>
          r.st.users[i].out ==
            if i == id then Offer(id, st.users[id].out, Serialize(m1).value, None)
            else if i == target then Offer(target, st.users[target].out, Serialize(m2).value, None)
            else st.users[i].out)
  }

  lemma BothTold(st: State, id: int, m1: IrcMessage, target: int, m2: IrcMessage)
    requires id in st.users && id != target
    ensures TwoTold(st, TwoSays(st, id, m1, target, m2), id, m1, target, m2)
  {
    hide Say, Serialize, Offer;
    SayAnnounces(st, {id}, m1);
    SayAnnounces(Say(st, {id}, m1).st, {target}, m2);
  }

  lemma ToldOfInvitation(st: State, st1: State, r: Outcome, id: int, target: int, m1: IrcMessage, m2: IrcMessage)
    requires TwoTold(st1, r, id, m1, target, m2) && st1 == st.(channels := st1.channels)
    ensures id in st.users && OnlyJoined(st, r.st, id, st.users[id].joined)
    ensures r.Done? <==> Serialize(m1).Success? && Serialize(m2).Success?
    ensures r.Done? ==> forall i :: i in st.users ==>
              r.st.users[i].out ==
                if i == id then Offer(id, st.users[id].out, Serialize(m1).value, None)
                else if i == target then Offer(target, st.users[target].out, Serialize(m2).value, None)
                else st.users[i].out
  {
    hide Serialize, Offer;
  }

  lemma InvitedOnly(st: State, key: string, target: int)
    requires key in st.channels
    ensures WithInvited(st, key, target) == st.(channels := WithInvited(st, key, target).channels)
  {
  }

  lemma InvitedStays(st: State, a: State, b: State, target: int, key: string)
    requires Invited(st, a, target, key) && b.channels == a.channels
    ensures Invited(st, b, target, key)
  {
  }

  /** The bot does not wait: invited, it is in. */
  lemma BotInviteExactly(st: State, id: int, key: string, params: seq<string>)
    requires Inv(st) && id in st.users && InviteAllowed(st, id, BOT, key, params) && Invite(st, id, params).Done?
    ensures var s := Invite(st, id, params).st;
            && key in s.channels && s.channels[key].members == st.channels[key].members + {BOT}
            && BOT !in s.channels[key].invited
  {
    ChannelName(st, key);
    hide Inv, Say, Serialize, Offer, Invite, InviteTarget, InvitingLine, InviteLine, WithInvited, Normalize, FindNick,
      BotJoin;
    InviteAllowedRuns(st, id, BOT, key, params);
    InviteTargetRuns(st, id, BOT, key);
    var st1 := WithInvited(st, key, BOT);
    SayAnnounces(st1, {id}, InvitingLine(st, id, BOT, key));
    var r1 := Say(st1, {id}, InvitingLine(st, id, BOT, key));
    SayAnnounces(r1.st, {BOT}, InviteLine(st, id, BOT, key));
    BotEnters(Say(r1.st, {BOT}, InviteLine(st, id, BOT, key)).st, key);
  }

  lemma BotEnters(st: State, key: string)
    requires BOT in st.users && key in st.channels && BOT !in st.channels[key].members
    ensures var s := BotJoin(st, key, true).st;
            && key in s.channels && s.channels[key].members == st.channels[key].members + {BOT}
            && s.channels[key].invited == st.channels[key].invited - {BOT}
  {
    hide Say, JoinMessage, Equal, BotText;
    var st1 := Enter(st, BOT, key);
    var st2 := Say(st1, st1.channels[key].members, JoinMessage(st1, BOT, key)).st;
    var ch := st2.channels[key];
    var st3 := if Equal(ch.name, HOME_CHANNEL) && BOT !in ch.operators then WithOperator(st2, key, BOT) else st2;
    BotTextSparesChannels(st3, st3.channels[key].members, ch.name, "PRIVMSG", BOT_GREETING);
  }

  /** What an INVITE is answered that is not permitted. */
  lemma InviteRefusedWith(st: State, id: int, params: seq<string>)
    requires Inv(st) && id in st.users && |params| >= 2
    ensures var r, key, target := Invite(st, id, params), Normalize(params[1]), FindNick(st, params[0]);
            if params[0] == "" || params[1] == "" then r == MissingParams(st, id, "INVITE")
            else if key !in st.channels then r == Numeric(st, id, "403", One(params[1]), "No such channel")
            else if target.None? then r == Numeric(st, id, "401", One(params[0]), "No such nick")
            else
              var ch := st.channels[key];
              (id !in ch.members ==> r == Numeric(st, id, "442", [ch.name], "You're not on that channel"))
              && (id in ch.members && target.value in ch.members ==>
                    r == Numeric(st, id, "443", [NickOfUser(st, target.value), ch.name], "is already on channel"))
              && (id in ch.members && target.value !in ch.members && id !in ch.operators ==>
                    r == Numeric(st, id, "482", [ch.name], "You're not channel operator"))
  {
    var key := Normalize(params[1]);
    assert params[1] != "" ==> key != "" by {
      assert |key| == |params[1]|;
    }
    if key in st.channels {
      NamedChannel(st, key);
    }
    hide Inv, Numeric, MissingParams, InviteTarget, FindNick, Normalize;
  }

  // ------------------------------------------------------------------
  // TOPIC
  // ------------------------------------------------------------------

  /** What everyone in the channel is told. */
  function TopicLine(st: State, id: int, key: string, topic: string): IrcMessage
    requires id in st.users && key in st.channels
  {
    var a := st.users[id].account;
    IrcMessage("TOPIC", [st.channels[key].name, topic], a.nick + "!" + a.username + "@" + a.host, true)
  }

  lemma TopicRuns(st: State, id: int, params: seq<string>, hasTrailing: bool, key: string)
    requires Inv(st) && id in st.users && |params| >= 1 && params[0] != ""
    requires key == Normalize(params[0]) && In(st, id, key)
    ensures var r, ch := Topic(st, id, params, hasTrailing), st.channels[key];
            if |params| == 1 && !hasTrailing then
              r == if ch.topic == "" then Numeric(st, id, "331", [ch.name], "No topic is set")
                   else Numeric(st, id, "332", [ch.name], ch.topic)
            else if ch.flags.topicRestricted && id !in ch.operators then
              r == Numeric(st, id, "482", [ch.name], "You're not channel operator")
            else
              var topic := if |params| == 1 then "" else params[1];
              r == Say(WithTopic(st, key, topic), ch.members, TopicLine(st, id, key, topic))
  {
    KeyNotEmpty(st, key);
    NamedChannel(st, key);
    hide Inv, Numeric, Say, Normalize;
  }

  /**
   * TOPIC by a member: without a text it is answered with the topic; under +t only
   * an operator may go on; then the text given, or none, is the topic, even if its
   * announcement throws, and everyone in the channel has had that when it prints.
   */
  lemma TopicExactly(st: State, id: int, params: seq<string>, hasTrailing: bool, key: string)
    requires Inv(st) && id in st.users && |params| >= 1 && params[0] != ""
    requires key == Normalize(params[0]) && In(st, id, key)
    ensures var r, ch := Topic(st, id, params, hasTrailing), st.channels[key];
            if |params| == 1 && !hasTrailing then
              r == if ch.topic == "" then Numeric(st, id, "331", [ch.name], "No topic is set")
                   else Numeric(st, id, "332", [ch.name], ch.topic)
            else if ch.flags.topicRestricted && id !in ch.operators then
              r == Numeric(st, id, "482", [ch.name], "You're not channel operator")
            else
              var topic := if |params| == 1 then "" else params[1];
              && r.st.channels == st.channels[key := ch.(topic := topic)]
              && match Serialize(TopicLine(st, id, key, topic))
                 case Failure(_) => r.Threw?
                 case Success(line) => r.Done? && Announced(st, r.st, ch.members, line)
  {
    TopicRuns(st, id, params, hasTrailing, key);
    var topic := if |params| == 1 then "" else params[1];
    var st1 := WithTopic(st, key, topic);
    var m := TopicLine(st, id, key, topic);
    hide Inv, Numeric, Say, Serialize, Normalize, Announced, Topic, TopicLine, In;
    SayAnnounces(st1, st.channels[key].members, m);
    ToldAfterwards(st, st1, Say(st1, st.channels[key].members, m).st, st.channels[key].members, m);
  }

  lemma ToldAfterwards(a: State, b: State, c: State, to: set<int>, m: IrcMessage)
    requires b.users == a.users
    ensures Serialize(m).Success? && OnlyAnnounced(b, c, to, Serialize(m).value) ==>
            Announced(a, c, to, Serialize(m).value)
  {
    hide Serialize, Offer;
  }

  /** TOPIC for a channel that is unknown, or that the client is not in. */
  lemma TopicRefusedWith(st: State, id: int, params: seq<string>, hasTrailing: bool)
    requires Inv(st) && id in st.users && |params| >= 1
    ensures var r, key := Topic(st, id, params, hasTrailing), Normalize(params[0]);
            && (params[0] == "" ==> r == MissingParams(st, id, "TOPIC"))
            && (params[0] != "" && key !in st.channels ==>
                  r == Numeric(st, id, "403", One(params[0]), "No such channel"))
            && (params[0] != "" && key in st.channels && !In(st, id, key) ==>
                  r == Numeric(st, id, "442", [st.channels[key].name], "You're not on that channel"))
  {
    var key := Normalize(params[0]);
    assert params[0] != "" ==> key != "" by {
      assert |key| == |params[0]|;
    }
    if key in st.channels {
      NamedChannel(st, key);
    }
    hide Inv, Numeric, MissingParams, Say, SendTopic, Normalize;
  }

  // ------------------------------------------------------------------
  // MODE
  // ------------------------------------------------------------------

  /** Who may change modes, and what the others are answered; a query needs no membership. */
  lemma ModeGoesBy(st: State, id: int, params: seq<string>)
    requires Inv(st) && id in st.users && |params| >= 1
    ensures var r, key := Mode(st, id, params), Normalize(params[0]);
            if params[0] == "" then r == MissingParams(st, id, "MODE")
            else if params[0][0] != '#' then r == Done(st)
            else if key !in st.channels then r == Numeric(st, id, "403", One(params[0]), "No such channel")
            else
              var ch := st.channels[key];
              if |params| == 1 || params[1] == "" then
                r == NumericPlain(st, id, "324", [ch.name, QueryFlags(ch.flags)] + QueryArguments(ch.flags))
              else if id !in ch.members then r == Numeric(st, id, "442", [ch.name], "You're not on that channel")
              else if id !in ch.operators then r == Numeric(st, id, "482", [ch.name], "You're not channel operator")
              else r == ChangeModes(st, id, key, params)
  {
    var key := Normalize(params[0]);
    assert params[0] != "" ==> key != "" by {
      assert |key| == |params[0]|;
    }
    if key in st.channels {
      NamedChannel(st, key);
    }
    hide Inv, Numeric, NumericPlain, MissingParams, ChangeModes, QueryFlags, QueryArguments, Normalize;
  }

  /** An obeyed command is announced to every member, by its letters and arguments; an empty one is not. */
  lemma ModeAnnounced(st: State, id: int, key: string, params: seq<string>)
    requires Inv(st) && id in st.users && key in st.channels && |params| >= 2 && Obeyed(st, key, params)
    ensures var r, ops, a, ch := ChangeModes(st, id, key, params), ObeyedOps(st, key, params), st.users[id].account,
                                 st.channels[key];
            var m := IrcMessage("MODE", [ch.name, Letters(ops, '\0')] + Arguments(ops),
                                a.nick + "!" + a.username + "@" + a.host, false);
            if ops == [] then r.Done? && r.st.users == st.users
            else
              match Serialize(m)
              case Failure(_) => r.Threw?
              case Success(line) => r.Done? && Announced(st, r.st, ch.members, line)
  {
    hide Inv, ChangeModes, ValidModes, Obeyed, ObeyedOps, Serialize, Announced, Letters, Arguments, Say, ApplyModes;
    ObeyedIsValid(st, key, params);
    ChangeModesIs(st, id, key, params);
    var ops := ObeyedOps(st, key, params);
    var st1 := ApplyModes(st, key, ops);
    ApplyModesFrame(st, key, ops);
    if ops != [] {
      var m := ModeMessage(st1, id, st.channels[key].name, ops);
      SayAnnounces(st1, st.channels[key].members, m);
      ToldAfterwards(st, st1, Say(st1, st.channels[key].members, m).st, st.channels[key].members, m);
    }
  }
}
