// src/commands/CommandDispatcher.cpp: the handlers, working on the server in
// place. `ok` is false when an exception leaves the handler.
module Dispatcher {
  import opened Results
  import opened IrcCasemap
  import opened Codec
  import opened CommaList
  import opened UserLimit
  import opened ChannelModes
  import opened ModeLaws
  import opened ServerState
  import opened Primitives
  import opened Membership
  import opened ChannelLog
  import opened Commands
  import opened CommandLaws
  import opened DispatchLaws
  import opened ClientObject
  import opened ChannelObject
  import opened ServerObject
  import opened ServerReplies
  import opened BotObject

  // ------------------------------------------------------------------
  // PASS, NICK, USER
  // ------------------------------------------------------------------

  method HandlePass(server: Server, id: int, params: seq<string>) returns (ok: bool)
    requires server.Valid() && id in server.st.users && |params| >= 1
    modifies server`st, server`pollFds, server.Objects
    ensures server.Valid() && server.Objects == old(server.Objects)
    ensures Report(ok, server.st) == Pass(old(server.st), id, params)
  {
    hide Server.ClientsOk, Server.ChannelsOk, PollMatches, Polled, Numeric;
    var client := server.Find(id);
    if client.registered {
      ok := server.QueueNumericReply(id, "462", [], "You may not reregister");
      return;
    }
    client.passwordAccepted := params[0] == server.password;
    client.offered := params[0];
    server.st := WithUser(server.st, id, client.View());
    server.RecordChanged(id);
    if !client.passwordAccepted {
      ok := server.QueueNumericReply(id, "464", [], "Password incorrect");
      return;
    }
    return true;
  }

  method HandleNick(server: Server, id: int, params: seq<string>) returns (ok: bool)
    requires server.Valid() && id in server.st.users && |params| >= 1
    modifies server`st, server`pollFds, server`clientsByNickname, server.Objects
    ensures server.Valid() && server.Objects == old(server.Objects)
    ensures Report(ok, server.st) == Nick(old(server.st), id, params)
  {
    hide Server.ClientsOk, Server.ChannelsOk, Server.Valid, Numeric, One, ValidNick, AssignNick, SayRelated, PrefixOf;
    var requested := params[0];
    if requested == "" {
      ok := server.QueueNumericReply(id, "431", [], "No nickname given");
      return;
    }
    var valid := IsValidNickname(requested);
    if !valid {
      ok := server.QueueNumericReply(id, "432", One(requested), "Erroneous nickname");
      return;
    }
    var wasRegistered := server.Find(id).registered;
    var previousNickname := server.Find(id).nickname;
    var previousPrefix := server.ClientPrefix(id);
    NickStays(server.st, id, requested);
    var accepted := server.AssignNickname(id, requested);
    if !accepted {
      ok := server.QueueNumericReply(id, "433", One(requested), "Nickname is already in use");
      return;
    }
    if !wasRegistered || previousNickname == requested {
      return true;
    }
    ok := server.SendRelated(id, IrcMessage("NICK", [requested], previousPrefix, true));
  }

  lemma NickStays(st: State, id: int, nick: string)
    requires id in st.users
    ensures AssignNick(st, id, nick).Some? ==> AssignNick(st, id, nick).value.users.Keys == st.users.Keys
  {
  }

  method HandleUser(server: Server, id: int, params: seq<string>) returns (ok: bool)
    requires server.Valid() && id in server.st.users && |params| >= 4
    modifies server`st, server`pollFds, server.Objects
    ensures server.Valid() && server.Objects == old(server.Objects)
    ensures Report(ok, server.st) == UserCommand(old(server.st), id, params)
  {
    hide Server.ClientsOk, Server.ChannelsOk, PollMatches, Polled, Numeric, One;
    var client := server.Find(id);
    if client.registered {
      ok := server.QueueNumericReply(id, "462", [], "You may not reregister");
      return;
    }
    if params[0] == "" || params[3] == "" {
      ok := server.QueueNumericReply(id, "461", One("USER"), "Not enough parameters");
      return;
    }
    client.username := params[0];
    client.realname := params[3];
    client.usernameReceived := true;
    server.st := WithUser(server.st, id, client.View());
    server.RecordChanged(id);
    return true;
  }

  // ------------------------------------------------------------------
  // JOIN and PART
  // ------------------------------------------------------------------

  /** The announcement, the topic and the names, once the client is a member. */
  method SendJoinReplies(server: Server, id: int, key: string) returns (ok: bool)
    requires server.Valid() && Inv(server.st) && id in server.st.users && key in server.st.channels
    modifies server`st, server`pollFds, server.Objects
    ensures server.Valid() && server.Objects == old(server.Objects)
    ensures Report(ok, server.st) == JoinReplies(old(server.st), id, key)
  {
    hide Server.ClientsOk, Server.ChannelsOk, Server.Valid, Inv, Say, SendTopic, SendNames, PrefixOf;
    MembersExist(server.st, key);
    var name := server.FindKey(key).name;
    ok := server.Send(server.FindKey(key).members, IrcMessage("JOIN", [name], server.ClientPrefix(id), true));
    if !ok {
      return;
    }
    ok := SendChannelTopic(server, id, key);
    if !ok {
      return;
    }
    ok := SendChannelNames(server, id, key);
  }

  method JoinClientToSingleChannel(server: Server, id: int, channelName: string, providedKey: string)
    returns (ok: bool)
    requires server.Valid() && Inv(server.st) && id in server.st.users && server.st.users[id].account.registered
    modifies server, server.Objects
    ensures server.Valid() && fresh(server.Objects - old(server.Objects))
    ensures Report(ok, server.st) == JoinOne(old(server.st), id, channelName, providedKey)
  {
    hide Server.ClientsOk, Server.ChannelsOk, Server.Valid, Inv, ValidChannelName, Normalize, Denial, Numeric, One,
      Enter, Keeps, JoinReplies, Replay, Enterable;
    ghost var was := server.st;
    var found := server.FindOrCreateChannel(channelName);
    if found.None? {
      ok := server.QueueNumericReply(id, "403", One(channelName), "No such channel");
      return;
    }
    var key := found.value;
    if id in server.FindKey(key).members {
      return true;
    }
    var admitted;
    ok, admitted := ValidateChannelJoinAccess(server, id, key, providedKey);
    if !admitted {
      return;
    }
    FindOrCreateEnterable(was, channelName);
    EnterLoose(server.st, id, key);
    server.AddClientToChannel(id, key);
    ok := SendJoinReplies(server, id, key);
    if !ok {
      return;
    }
    SendChannelHistory(server, id, key);
  }

  method HandleJoin(server: Server, id: int, params: seq<string>) returns (ok: bool)
    requires server.Valid() && Inv(server.st) && id in server.st.users && |params| >= 1
    requires !Virtual(id) && server.st.users[id].account.registered
    modifies server, server.Objects
    ensures server.Valid() && fresh(server.Objects - old(server.Objects))
    ensures Report(ok, server.st) == Join(old(server.st), id, params)
  {
    hide Server.ClientsOk, Server.ChannelsOk, Server.Valid, Inv, Numeric, One, JoinAll, JoinOne, Keeps, Follows,
      SplitCommas;
    if params[0] == "" {
      ok := server.QueueNumericReply(id, "461", One("JOIN"), "Not enough parameters");
      return;
    }
    var requestedChannels := SplitCommaSeparatedValues(params[0]);
    var providedKeys := [];
    if |params| > 1 {
      providedKeys := SplitCommaSeparatedValues(params[1]);
    }
    ghost var was := server.st;
    ghost var whole := JoinAll(was, id, requestedChannels, providedKeys);
    assert requestedChannels[0..] == requestedChannels && providedKeys[0..] == providedKeys;
    for i := 0 to |requestedChannels|
      invariant server.Valid() && Inv(server.st) && fresh(server.Objects - old(server.Objects))
      invariant id in server.st.users && server.st.users[id].account.registered
      invariant whole == JoinAll(server.st, id, requestedChannels[i..], KeysFrom(providedKeys, i))
    {
      var providedKey := if i < |providedKeys| then providedKeys[i] else "";
      JoinAllStep(server.st, id, requestedChannels, providedKeys, i);
      JoinOneKeeps(server.st, id, requestedChannels[i], providedKey);
      ghost var before := server.st;
      ok := JoinClientToSingleChannel(server, id, requestedChannels[i], providedKey);
      if !ok {
        return;
      }
      KeepsFollows(before, server.st, BOT);
      StaysRegistered(before, server.st, id);
    }
    assert requestedChannels[|requestedChannels|..] == [];
    JoinAllDone(server.st, id, KeysFrom(providedKeys, |requestedChannels|));
    return true;
  }

  /** The keys not used yet; a missing key is an empty one. */
  ghost function KeysFrom(keys: seq<string>, i: nat): seq<string> {
    if i < |keys| then keys[i..] else []
  }

  lemma JoinAllStep(st: State, id: int, names: seq<string>, keys: seq<string>, i: nat)
    requires id in st.users && i < |names|
    ensures var r := JoinOne(st, id, names[i], if i < |keys| then keys[i] else "");
            JoinAll(st, id, names[i..], KeysFrom(keys, i)) ==
              if r.Threw? then r else JoinAll(r.st, id, names[i + 1..], KeysFrom(keys, i + 1))
  {
  }

  lemma JoinAllDone(st: State, id: int, keys: seq<string>)
    requires id in st.users
    ensures JoinAll(st, id, [], keys) == Done(st)
  {
  }

  method PartClientFromSingleChannel(server: Server, id: int, channelName: string, reason: Option<string>)
    returns (ok: bool)
    requires server.Valid() && Inv(server.st) && id in server.st.users
    modifies server`st, server`pollFds, server`channels, server.Objects
    ensures server.Valid() && server.Objects == old(server.Objects)
    ensures Report(ok, server.st) == PartOne(old(server.st), id, channelName, reason)
  {
    hide Server.ClientsOk, Server.ChannelsOk, Server.Valid, Inv, Numeric, One, FindChan, Say, Leave, PrefixOf;
    FoundChan(server.st, channelName);
    var found := server.FindChannel(channelName);
    if found.None? {
      ok := server.QueueNumericReply(id, "403", One(channelName), "No such channel");
      return;
    }
    var key := found.value;
    var name := server.FindKey(key).name;
    if id !in server.FindKey(key).members {
      ok := server.QueueNumericReply(id, "442", One(name), "You're not on that channel");
      return;
    }
    var params := [name];
    if reason.Some? {
      params := params + [reason.value];
    }
    MembersExist(server.st, key);
    assert params == [name] + (if reason.Some? then [reason.value] else []);
    ok := server.Send(server.FindKey(key).members,
                      IrcMessage("PART", params, server.ClientPrefix(id), reason.Some?));
    if !ok {
      return;
    }
    server.RemoveClientFromChannel(id, key);
  }

  method HandlePart(server: Server, id: int, params: seq<string>) returns (ok: bool)
    requires server.Valid() && Inv(server.st) && id in server.st.users && |params| >= 1
    modifies server`st, server`pollFds, server`channels, server.Objects
    ensures server.Valid() && server.Objects == old(server.Objects)
    ensures Report(ok, server.st) == Commands.Part(old(server.st), id, params)
  {
    hide Server.ClientsOk, Server.ChannelsOk, Server.Valid, Inv, Numeric, One, PartAll, PartOne, Keeps, Follows,
      SplitCommas;
    if params[0] == "" {
      ok := server.QueueNumericReply(id, "461", One("PART"), "Not enough parameters");
      return;
    }
    var requestedChannels := SplitCommaSeparatedValues(params[0]);
    var reason := if |params| > 1 then Some(params[1]) else None;
    ghost var whole := PartAll(server.st, id, requestedChannels, reason);
    assert requestedChannels[0..] == requestedChannels;
    for i := 0 to |requestedChannels|
      invariant server.Valid() && Inv(server.st) && server.Objects == old(server.Objects)
      invariant id in server.st.users
      invariant whole == PartAll(server.st, id, requestedChannels[i..], reason)
    {
      PartAllStep(server.st, id, requestedChannels, reason, i);
      PartOneKeeps(server.st, id, requestedChannels[i], reason);
      ghost var before := server.st;
      ok := PartClientFromSingleChannel(server, id, requestedChannels[i], reason);
      if !ok {
        return;
      }
      KeepsFollows(before, server.st, BOT);
    }
    assert requestedChannels[|requestedChannels|..] == [];
    PartAllDone(server.st, id, reason);
    return true;
  }

  lemma PartAllStep(st: State, id: int, names: seq<string>, reason: Option<string>, i: nat)
    requires id in st.users && i < |names|
    ensures var r := PartOne(st, id, names[i], reason);
            PartAll(st, id, names[i..], reason) ==
              if r.Threw? then r else PartAll(r.st, id, names[i + 1..], reason)
  {
  }

  lemma PartAllDone(st: State, id: int, reason: Option<string>)
    requires id in st.users
    ensures PartAll(st, id, [], reason) == Done(st)
  {
  }

  // ------------------------------------------------------------------
  // INVITE and KICK
  // ------------------------------------------------------------------

  lemma SameChannel(st: State, key: string)
    requires key in st.channels
    ensures WithChan(st, key, st.channels[key]) == st
  {
  }

  /** channel.inviteClient, which ignores members. */
  method InviteToChannel(server: Server, key: string, target: int)
    requires server.Valid() && key in server.st.channels
    modifies server`st, server.FindKey(key)
    ensures server.Valid() && server.Objects == old(server.Objects)
    ensures server.st == WithInvited(old(server.st), key, target)
  {
    hide Server.ClientsOk, Server.ChannelsOk, PollMatches, Polled;
    var channel := server.FindKey(key);
    SameChannel(server.st, key);
    assert channel.invitedClients + {} == channel.invitedClients;
    channel.InviteClient(target);
    server.st := WithChan(server.st, key, channel.View());
    server.ChannelChanged(key);
  }

  method InviteClientToChannel(server: Server, id: int, target: int, key: string) returns (ok: bool)
    requires server.Valid() && Inv(server.st)
    requires id in server.st.users && target in server.st.users && key in server.st.channels
    modifies server`st, server`pollFds, server.Objects
    ensures server.Valid() && server.Objects == old(server.Objects)
    ensures Report(ok, server.st) == InviteTarget(old(server.st), id, target, key)
  {
    hide Server.ClientsOk, Server.ChannelsOk, Server.Valid, Inv, NumericPlain, Say, BotJoin, WithInvited, PrefixOf,
      Keeps;
    ghost var was := server.st;
    var nick := server.Find(target).nickname;
    var name := server.FindKey(key).name;
    WithInvitedFrame(was, key, target);
    WithInvitedKeeps(was, key, target);
    InviteToChannel(server, key, target);
    ghost var invited := server.st;
    ok := server.QueueNumericPlain(id, "341", [nick, name]);
    if !ok {
      return;
    }
    NumericPlainAfter(was, invited, id, "341", [nick, name], BOT);
    ghost var told := server.st;
    var m := IrcMessage("INVITE", [nick, name], server.ClientPrefix(id), true);
    ok := server.Send({target}, m);
    if !ok {
      return;
    }
    SayAfter(was, told, {target}, m, BOT);
    if target == BOT {
      BotRegistered(server.st);
      assert Enterable(server.st, key);
      ok := JoinChannel(server, key, true);
    }
  }

  method HandleInvite(server: Server, id: int, params: seq<string>) returns (ok: bool)
    requires server.Valid() && Inv(server.st) && id in server.st.users && |params| >= 2
    modifies server`st, server`pollFds, server.Objects
    ensures server.Valid() && server.Objects == old(server.Objects)
    ensures Report(ok, server.st) == Invite(old(server.st), id, params)
  {
    hide Server.ClientsOk, Server.ChannelsOk, Server.Valid, Inv, Numeric, One, FindChan, FindNick, InviteTarget;
    var nick, channelName := params[0], params[1];
    if nick == "" || channelName == "" {
      ok := server.QueueNumericReply(id, "461", One("INVITE"), "Not enough parameters");
      return;
    }
    FoundChan(server.st, channelName);
    var found := server.FindChannel(channelName);
    if found.None? {
      ok := server.QueueNumericReply(id, "403", One(channelName), "No such channel");
      return;
    }
    var key := found.value;
    var name := server.FindKey(key).name;
    var named := server.FindClientByNickname(nick);
    if named.None? {
      ok := server.QueueNumericReply(id, "401", One(nick), "No such nick");
      return;
    }
    var target := named.value;
    FoundNickExists(server.st, nick);
    if id !in server.FindKey(key).members {
      ok := server.QueueNumericReply(id, "442", One(name), "You're not on that channel");
      return;
    }
    if target in server.FindKey(key).members {
      ok := server.QueueNumericReply(id, "443", [server.Find(target).nickname, name], "is already on channel");
      return;
    }
    if id !in server.FindKey(key).operators {
      ok := server.QueueNumericReply(id, "482", One(name), "You're not channel operator");
      return;
    }
    ok := InviteClientToChannel(server, id, target, key);
  }

  method KickClientFromChannel(server: Server, id: int, target: int, key: string, reason: string) returns (ok: bool)
    requires server.Valid() && Inv(server.st)
    requires id in server.st.users && target in server.st.users && key in server.st.channels
    modifies server, server.Objects
    ensures server.Valid() && fresh(server.Objects - old(server.Objects))
    ensures Report(ok, server.st) == KickTarget(old(server.st), id, target, key, reason)
  {
    hide Server.ClientsOk, Server.ChannelsOk, Server.Valid, Inv, Say, BotKicked, Leave, PrefixOf, Keeps, Quiet;
    var name := server.FindKey(key).name;
    var m := IrcMessage("KICK", [name, server.Find(target).nickname, reason], server.ClientPrefix(id), true);
    MembersExist(server.st, key);
    SayQuiet(server.st, server.st.channels[key].members, m);
    QuietInv(server.st, Say(server.st, server.st.channels[key].members, m).st);
    ok := server.Send(server.FindKey(key).members, m);
    if !ok {
      return;
    }
    LeaveSteady(server.st, target, key);
    server.RemoveClientFromChannel(target, key);
    if target == BOT {
      ok := BotObject.HandleKick(server, name);
    }
  }

  method HandleKick(server: Server, id: int, params: seq<string>) returns (ok: bool)
    requires server.Valid() && Inv(server.st) && id in server.st.users && |params| >= 2
    modifies server, server.Objects
    ensures server.Valid() && fresh(server.Objects - old(server.Objects))
    ensures Report(ok, server.st) == Kick(old(server.st), id, params)
  {
    hide Server.ClientsOk, Server.ChannelsOk, Server.Valid, Inv, Numeric, One, FindChan, FindNick, KickTarget;
    var channelName, nick := params[0], params[1];
    if channelName == "" || nick == "" {
      ok := server.QueueNumericReply(id, "461", One("KICK"), "Not enough parameters");
      return;
    }
    FoundChan(server.st, channelName);
    var found := server.FindChannel(channelName);
    if found.None? {
      ok := server.QueueNumericReply(id, "403", One(channelName), "No such channel");
      return;
    }
    var key := found.value;
    var name := server.FindKey(key).name;
    var named := server.FindClientByNickname(nick);
    if named.None? {
      ok := server.QueueNumericReply(id, "401", One(nick), "No such nick");
      return;
    }
    var target := named.value;
    FoundNickExists(server.st, nick);
    if id !in server.FindKey(key).members {
      ok := server.QueueNumericReply(id, "442", One(name), "You're not on that channel");
      return;
    }
    if id !in server.FindKey(key).operators {
      ok := server.QueueNumericReply(id, "482", One(name), "You're not channel operator");
      return;
    }
    if target !in server.FindKey(key).members {
      ok := server.QueueNumericReply(id, "441", [server.Find(target).nickname, name], "They aren't on that channel");
      return;
    }
    var reason := server.Find(id).nickname;
    if |params| >= 3 && params[2] != "" {
      reason := params[2];
    }
    ok := KickClientFromChannel(server, id, target, key, reason);
  }

  // ------------------------------------------------------------------
  // TOPIC
  // ------------------------------------------------------------------

  /** CommandDispatcher::applyTopicChange: the topic is stored before it is announced. */
  method ApplyTopicChange(server: Server, id: int, key: string, newTopic: string) returns (ok: bool)
    requires server.Valid() && Inv(server.st) && id in server.st.users && key in server.st.channels
    modifies server`st, server`pollFds, server.Objects
    ensures server.Valid() && server.Objects == old(server.Objects)
    ensures var st := old(server.st);
            Report(ok, server.st) ==
            Say(WithTopic(st, key, newTopic), st.channels[key].members,
                IrcMessage("TOPIC", [st.channels[key].name, newTopic], PrefixOf(st.users[id].account), true))
  {
    hide Server.ClientsOk, Server.ChannelsOk, PollMatches, Polled, Inv, Say, PrefixOf;
    MembersExist(server.st, key);
    var channel := server.FindKey(key);
    channel.SetTopic(newTopic);
    server.st := WithChan(server.st, key, channel.View());
    server.ChannelChanged(key);
    ok := server.Send(channel.members,
                      IrcMessage("TOPIC", [channel.name, newTopic], server.ClientPrefix(id), true));
  }

  method HandleTopic(server: Server, id: int, params: seq<string>, hasTrailing: bool) returns (ok: bool)
    requires server.Valid() && Inv(server.st) && id in server.st.users && |params| >= 1
    modifies server`st, server`pollFds, server.Objects
    ensures server.Valid() && server.Objects == old(server.Objects)
    ensures Report(ok, server.st) == Topic(old(server.st), id, params, hasTrailing)
  {
    hide Server.ClientsOk, Server.ChannelsOk, Server.Valid, Inv, Numeric, One, FindChan, Say, SendTopic, PrefixOf,
      WithTopic;
    var channelName := params[0];
    if channelName == "" {
      ok := server.QueueNumericReply(id, "461", One("TOPIC"), "Not enough parameters");
      return;
    }
    FoundChan(server.st, channelName);
    var found := server.FindChannel(channelName);
    if found.None? {
      ok := server.QueueNumericReply(id, "403", One(channelName), "No such channel");
      return;
    }
    var key := found.value;
    var name := server.FindKey(key).name;
    if id !in server.FindKey(key).members {
      ok := server.QueueNumericReply(id, "442", One(name), "You're not on that channel");
      return;
    }
    if !hasTrailing && |params| < 2 {
      ok := SendChannelTopic(server, id, key);
      return;
    }
    if server.FindKey(key).topicRestricted && id !in server.FindKey(key).operators {
      ok := server.QueueNumericReply(id, "482", One(name), "You're not channel operator");
      return;
    }
    ok := ApplyTopicChange(server, id, key, if |params| >= 2 then params[1] else "");
  }

  // ------------------------------------------------------------------
  // PRIVMSG and NOTICE
  // ------------------------------------------------------------------

  method SendMessageToUser(server: Server, id: int, nick: string, text: string, notice: bool, answer: BotAnswer)
    returns (ok: bool)
    requires server.Valid() && Inv(server.st) && id in server.st.users
    modifies server`st, server`pollFds, server.Objects
    ensures server.Valid() && server.Objects == old(server.Objects)
    ensures Report(ok, server.st) == MessageToUser(old(server.st), id, nick, text, notice, answer)
  {
    hide Server.ClientsOk, Server.ChannelsOk, Server.Valid, Inv, Numeric, One, FindNick, Say, BotText, PrefixOf;
    var named := server.FindClientByNickname(nick);
    if named.None? {
      if notice {
        return true;
      }
      ok := server.QueueNumericReply(id, "401", One(nick), "No such nick");
      return;
    }
    FoundNickExists(server.st, nick);
    var command := if notice then "NOTICE" else "PRIVMSG";
    ok := server.Send({named.value}, IrcMessage(command, [nick, text], server.ClientPrefix(id), true));
    if !ok {
      return;
    }
    if !notice && named.value == BOT && id != BOT {
      ok := SendText(server, {id}, server.Find(id).nickname,
                     if answer.notice then "NOTICE" else "PRIVMSG", answer.text);
    }
  }

  /** The stored line, and its delivery to every other member. */
  method PostToChannel(server: Server, id: int, key: string, line: string)
    requires server.Valid() && Inv(server.st) && key in server.st.channels && line != ""
    modifies server`st, server`pollFds, server.Objects
    ensures server.Valid() && server.Objects == old(server.Objects)
    ensures server.st == Post(old(server.st), id, key, line)
  {
    hide Server.ClientsOk, Server.ChannelsOk, PollMatches, Polled, Inv, Broadcast;
    MembersExist(server.st, key);
    var channel := server.FindKey(key);
    channel.AddHistoryMessage(id, line);
    server.st := WithChan(server.st, key, channel.View());
    server.ChannelChanged(key);
    server.QueueMessageToMembers(channel.members - {id}, line, Some(key));
  }

  method SendMessageToChannel(server: Server, id: int, channelName: string, text: string, notice: bool,
                              answer: BotAnswer)
    returns (ok: bool)
    requires server.Valid() && Inv(server.st) && id in server.st.users
    modifies server`st, server`pollFds, server.Objects
    ensures server.Valid() && server.Objects == old(server.Objects)
    ensures Report(ok, server.st) == MessageToChannel(old(server.st), id, channelName, text, notice, answer)
  {
    hide Server.ClientsOk, Server.ChannelsOk, Server.Valid, Inv, Numeric, One, FindChan, Say, BotText, PrefixOf, Post,
      Serialize;
    FoundChan(server.st, channelName);
    var found := server.FindChannel(channelName);
    if found.None? {
      if notice {
        return true;
      }
      ok := server.QueueNumericReply(id, "403", One(channelName), "No such channel");
      return;
    }
    var key := found.value;
    if id !in server.FindKey(key).members {
      if notice {
        return true;
      }
      ok := server.QueueNumericReply(id, "404", One(channelName), "Cannot send to channel");
      return;
    }
    MembersExist(server.st, key);
    var name, members := server.FindKey(key).name, server.FindKey(key).members;
    var prefix := server.ClientPrefix(id);
    if notice {
      ok := server.Send(members - {id}, IrcMessage("NOTICE", [channelName, text], prefix, true));
      return;
    }
    var m := IrcMessage("PRIVMSG", [channelName, text], prefix, true);
    var r := SerializeMessage(m);
    if r.Failure? {
      return false;
    }
    SerializedFits(m);
    PostUsers(server.st, id, key, r.value);
    PostToChannel(server, id, key, r.value);
    if id != BOT && BOT in members {
      ok := SendText(server, members, name, "PRIVMSG", answer.text);
      return;
    }
    return true;
  }

  lemma PostUsers(st: State, id: int, key: string, line: string)
    requires key in st.channels
    ensures Post(st, id, key, line).users.Keys == st.users.Keys
  {
  }

  // ------------------------------------------------------------------
  // MODE
  // ------------------------------------------------------------------

  /** The numeric reply to the first operation that does not validate. */
  function ModeRefusal(st: State, id: int, name: string, e: ModeError): Outcome
    requires id in st.users
  {
    match e
    case NoSuchNick(nick) => Numeric(st, id, "401", One(nick), "No such nick")
    case NotInChannel(nick) => Numeric(st, id, "441", [nick, name], "They aren't on that channel")
    case NeedMoreParams => MissingParams(st, id, "MODE")
  }

  lemma {:induction false} ValidateStops(ops: seq<ModeOp>, i: nat, members: set<int>, lookup: Lookup, nickOf: NickOf)
    requires i < |ops|
    requires forall j :: 0 <= j < i ==> ValidateOp(ops[j], members, lookup, nickOf).Success?
    requires ValidateOp(ops[i], members, lookup, nickOf).Failure?
    ensures Validate(ops, members, lookup, nickOf).Failure?
    ensures Validate(ops, members, lookup, nickOf).error == ValidateOp(ops[i], members, lookup, nickOf).error
  {
    hide ValidateOp;
    if i > 0 {
      assert ops[1..][i - 1] == ops[i];
      forall j | 0 <= j < i - 1
        ensures ValidateOp(ops[1..][j], members, lookup, nickOf).Success?
      {
        assert ops[1..][j] == ops[j + 1];
      }
      ValidateStops(ops[1..], i - 1, members, lookup, nickOf);
    }
  }

  lemma LookupIs(st: State, nick: string)
    ensures LookupIn(st)(nick) == FindNick(st, nick)
    ensures forall id :: id in st.users ==> NicksIn(st)(id) == st.users[id].account.nick
  {
  }

  /** One operation of validateChannelModeOperations, before anything is queued. */
  method ValidateModeOperation(server: Server, key: string, operation: ModeOp)
    returns (r: Result<ModeOp, ModeError>)
    requires server.Valid() && Inv(server.st) && key in server.st.channels
    ensures r == ValidateOp(operation, server.st.channels[key].members, LookupIn(server.st), NicksIn(server.st))
  {
    hide Server.ClientsOk, Server.ChannelsOk, Server.Valid, Inv, FindNick, Format, Value, AllDigits, LookupIn, NicksIn;
    LookupIs(server.st, operation.argument);
    if operation.mode == 'o' {
      var target := server.FindClientByNickname(operation.argument);
      if target.None? {
        return Failure(NoSuchNick(operation.argument));
      }
      FoundNickExists(server.st, operation.argument);
      var nickname := server.Find(target.value).nickname;
      if target.value !in server.FindKey(key).members {
        return Failure(NotInChannel(nickname));
      }
      return Success(operation.(argument := nickname));
    }
    if operation.mode == 'k' && operation.action == Add {
      if operation.argument == "" {
        return Failure(NeedMoreParams);
      }
      return Success(operation);
    }
    if operation.mode == 'l' && operation.action == Add {
      var limit := ParsePositiveUserLimit(operation.argument);
      if limit.None? {
        return Failure(NeedMoreParams);
      }
      return Success(operation.(number := limit.value, argument := Format(limit.value)));
    }
    return Success(operation);
  }

  /** CommandDispatcher::validateChannelModeOperations: the first error is queued and ends it. */
  method ValidateChannelModeOperations(server: Server, id: int, key: string, parsed: seq<ModeOp>)
    returns (ok: bool, valid: bool, operations: seq<ModeOp>)
    requires server.Valid() && Inv(server.st) && id in server.st.users && key in server.st.channels
    modifies server`st, server`pollFds, server.Objects
    ensures server.Valid() && server.Objects == old(server.Objects)
    ensures var st := old(server.st);
            match Validate(parsed, st.channels[key].members, LookupIn(st), NicksIn(st))
            case Success(v) => ok && valid && operations == v && server.st == st
            case Failure(e) => !valid && Report(ok, server.st) == ModeRefusal(st, id, st.channels[key].name, e)
  {
    hide Server.ClientsOk, Server.ChannelsOk, Server.Valid, Inv, Numeric, One, Validate, ValidateOp, LookupIn, NicksIn;
    ghost var st := server.st;
    ghost var members, lookup, nickOf := st.channels[key].members, LookupIn(st), NicksIn(st);
    operations := parsed;
    for i := 0 to |parsed|
      invariant server.Valid() && server.Objects == old(server.Objects) && server.st == st
      invariant |operations| == |parsed| && operations[i..] == parsed[i..]
      invariant forall j :: 0 <= j < i ==> ValidateOp(parsed[j], members, lookup, nickOf) == Success(operations[j])
    {
      assert operations[i] == operations[i..][0] && parsed[i] == parsed[i..][0];
      var r := ValidateModeOperation(server, key, operations[i]);
      if r.Failure? {
        ValidateStops(parsed, i, members, lookup, nickOf);
        match r.error {
        case NoSuchNick(nick) =>
          ok := server.QueueNumericReply(id, "401", One(nick), "No such nick");
        case NotInChannel(nick) =>
          ok := server.QueueNumericReply(id, "441", [nick, server.FindKey(key).name], "They aren't on that channel");
        case NeedMoreParams =>
          ok := server.QueueNumericReply(id, "461", One("MODE"), "Not enough parameters");
        }
        return ok, false, [];
      }
      assert operations[i := r.value][i + 1..] == parsed[i + 1..];
      operations := operations[i := r.value];
    }
    ValidateFrom(parsed, operations, members, lookup, nickOf);
    return true, true, operations;
  }

  /** The setter that one operation stands for; `target` is the client that +o or -o names. */
  method SetChannelMode(channel: Channel, operation: ModeOp, target: Option<int>)
    requires channel.Valid()
    modifies channel
    ensures channel.Valid()
    ensures var ch := old(channel.View());
            forall lookup: Lookup :: (operation.mode == 'o' ==> lookup(operation.argument) == target) ==>
              channel.View() == WithModed(ch, ApplyOp(ModedOf(ch), ch.members, lookup, operation))
  {
    var adding := operation.action == Add;
    if operation.mode == 'i' {
      channel.SetInviteOnly(adding);
    } else if operation.mode == 't' {
      channel.SetTopicRestricted(adding);
    } else if operation.mode == 'k' {
      if adding {
        channel.SetKey(operation.argument);
      } else {
        channel.RemoveKey();
      }
    } else if operation.mode == 'l' {
      if adding {
        channel.SetUserLimit(operation.number);
      } else {
        channel.RemoveUserLimit();
      }
    } else if operation.mode == 'o' && target.Some? {
      if adding {
        channel.AddOperator(target.value);
      } else {
        channel.RemoveOperator(target.value);
      }
    }
  }

  /** One operation of applyChannelModeOperations on a channel of the server. */
  method ApplyChannelModeOperation(server: Server, key: string, operation: ModeOp)
    requires server.Valid() && key in server.st.channels
    modifies server`st, server.FindKey(key)
    ensures server.Valid() && server.Objects == old(server.Objects)
    ensures server.st == ApplyModes(old(server.st), key, [operation])
  {
    hide Server.ClientsOk, Server.ChannelsOk, PollMatches, Polled, FindNick, LookupIn, ApplyOp, ApplyModes;
    var channel := server.FindKey(key);
    AppliedOnce(server.st, key, operation);
    LookupIs(server.st, operation.argument);
    var target := None;
    if operation.mode == 'o' {
      target := server.FindClientByNickname(operation.argument);
    }
    SetChannelMode(channel, operation, target);
    server.st := WithChan(server.st, key, channel.View());
    server.ChannelChanged(key);
  }

  lemma AppliedOnce(st: State, key: string, op: ModeOp)
    requires key in st.channels
    ensures var ch := st.channels[key];
            ApplyModes(st, key, [op]) ==
            WithChan(st, key, WithModed(ch, ApplyOp(ModedOf(ch), ch.members, LookupIn(st), op)))
  {
    hide ApplyOp, LookupIn;
    var ch := st.channels[key];
    assert [op][..0] == [];
    assert Apply(ModedOf(ch), ch.members, LookupIn(st), [op]) ==
           ApplyOp(Apply(ModedOf(ch), ch.members, LookupIn(st), []), ch.members, LookupIn(st), op);
  }

  lemma AppliedSoFar(st: State, key: string, ops: seq<ModeOp>, i: nat)
    requires key in st.channels && i < |ops|
    ensures var now := ApplyModes(st, key, ops[..i]);
            key in now.channels && ApplyModes(now, key, [ops[i]]) == ApplyModes(st, key, ops[..i + 1])
  {
    var now := ApplyModes(st, key, ops[..i]);
    AppliedOnce(now, key, ops[i]);
    assert ops[..i + 1][..i] == ops[..i];
    assert LookupIn(now) == LookupIn(st);
    hide ApplyOp, LookupIn;
    assert ModedOf(now.channels[key]) ==
           Apply(ModedOf(st.channels[key]), st.channels[key].members, LookupIn(st), ops[..i]);
  }

  lemma AppliedNothing(st: State, key: string)
    requires key in st.channels
    ensures ApplyModes(st, key, []) == st
  {
  }

  /** CommandDispatcher::applyChannelModeOperations. */
  method ApplyChannelModeOperations(server: Server, key: string, operations: seq<ModeOp>)
    requires server.Valid() && key in server.st.channels
    modifies server`st, server.Objects
    ensures server.Valid() && server.Objects == old(server.Objects)
    ensures server.st == ApplyModes(old(server.st), key, operations)
  {
    hide Server.ClientsOk, Server.ChannelsOk, Server.Valid, ApplyModes;
    ghost var st := server.st;
    AppliedNothing(st, key);
    assert operations[..0] == [];
    for i := 0 to |operations|
      invariant server.Valid() && server.Objects == old(server.Objects)
      invariant key in server.st.channels && server.st == ApplyModes(st, key, operations[..i])
    {
      AppliedSoFar(st, key, operations, i);
      ApplyModesFrame(server.st, key, [operations[i]]);
      ApplyChannelModeOperation(server, key, operations[i]);
    }
    assert operations[..|operations|] == operations;
  }

  /** CommandDispatcher::notifyChannelModeChanges. */
  method NotifyChannelModeChanges(server: Server, id: int, key: string, operations: seq<ModeOp>) returns (ok: bool)
    requires server.Valid() && Inv(server.st) && id in server.st.users && key in server.st.channels
    modifies server`st, server`pollFds, server.Objects
    ensures server.Valid() && server.Objects == old(server.Objects)
    ensures var st := old(server.st);
            Report(ok, server.st) ==
            if operations == [] then Done(st)
            else Say(st, st.channels[key].members, ModeMessage(st, id, st.channels[key].name, operations))
  {
    hide Server.ClientsOk, Server.ChannelsOk, Server.Valid, Inv, Say, PrefixOf, Letters, Arguments;
    if operations == [] {
      return true;
    }
    MembersExist(server.st, key);
    var modeString := PrintLetters(operations);
    var arguments := PrintArguments(operations);
    ok := server.Send(server.FindKey(key).members,
                      IrcMessage("MODE", [server.FindKey(key).name, modeString] + arguments,
                                 server.ClientPrefix(id), false));
  }

  /** The changing half of CommandDispatcher::handleMode. */
  method ChangeChannelModes(server: Server, id: int, key: string, params: seq<string>) returns (ok: bool)
    requires server.Valid() && Inv(server.st) && id in server.st.users && key in server.st.channels && |params| >= 2
    modifies server`st, server`pollFds, server.Objects
    ensures server.Valid() && server.Objects == old(server.Objects)
    ensures Report(ok, server.st) == ChangeModes(old(server.st), id, key, params)
  {
    hide Server.ClientsOk, Server.ChannelsOk, Server.Valid, Inv, Keeps, Numeric, One, ParseModes, Validate,
      ApplyModes, LookupIn, NicksIn, Say, ModeMessage;
    ghost var st := server.st;
    var parsed, operations, unknownMode := ParseChannelModeOperations(params);
    if !parsed {
      if unknownMode != '\0' {
        ok := server.QueueNumericReply(id, "472", One([unknownMode]), "is unknown mode char to me");
        return;
      }
      ok := server.QueueNumericReply(id, "461", One("MODE"), "Not enough parameters");
      return;
    }
    var valid;
    ok, valid, operations := ValidateChannelModeOperations(server, id, key, operations);
    if !valid {
      return;
    }
    assert ValidModes(st, key, params) == Some(operations);
    ValidModesNumbers(st, key, params);
    ApplyModesKeeps(st, key, operations);
    ApplyModesFrame(st, key, operations);
    ApplyChannelModeOperations(server, key, operations);
    ok := NotifyChannelModeChanges(server, id, key, operations);
  }

  /** CommandDispatcher::sendChannelModeIs. */
  method SendChannelModeIs(server: Server, id: int, key: string) returns (ok: bool)
    requires server.Valid() && id in server.st.users && key in server.st.channels
    modifies server`st, server`pollFds, server.Objects
    ensures server.Valid() && server.Objects == old(server.Objects)
    ensures var st, ch := old(server.st), old(server.st).channels[key];
            Report(ok, server.st) ==
            NumericPlain(st, id, "324", [ch.name, QueryFlags(ch.flags)] + QueryArguments(ch.flags))
  {
    hide Server.ClientsOk, Server.ChannelsOk, Server.Valid, NumericPlain, Format;
    var channel := server.FindKey(key);
    var modeFlags := "+";
    if channel.inviteOnly {
      modeFlags := modeFlags + "i";
    }
    if channel.topicRestricted {
      modeFlags := modeFlags + "t";
    }
    if channel.keyEnabled {
      modeFlags := modeFlags + "k";
    }
    if channel.limitEnabled {
      modeFlags := modeFlags + "l";
    }
    var parameters := [channel.name, modeFlags];
    if channel.keyEnabled {
      parameters := parameters + [channel.channelKey];
    }
    if channel.limitEnabled {
      parameters := parameters + [Format(channel.userLimit)];
    }
    assert modeFlags == QueryFlags(channel.Settings());
    assert parameters == [channel.name, modeFlags] + QueryArguments(channel.Settings());
    ok := server.QueueNumericPlain(id, "324", parameters);
  }

  method HandleMode(server: Server, id: int, params: seq<string>) returns (ok: bool)
    requires server.Valid() && Inv(server.st) && id in server.st.users && |params| >= 1
    modifies server`st, server`pollFds, server.Objects
    ensures server.Valid() && server.Objects == old(server.Objects)
    ensures Report(ok, server.st) == Mode(old(server.st), id, params)
  {
    hide Server.ClientsOk, Server.ChannelsOk, Server.Valid, Inv, Numeric, NumericPlain, One, FindChan, ChangeModes,
      QueryFlags, QueryArguments;
    var target := params[0];
    if target == "" {
      ok := server.QueueNumericReply(id, "461", One("MODE"), "Not enough parameters");
      return;
    }
    if target[0] != '#' {
      return true;
    }
    FoundChan(server.st, target);
    var found := server.FindChannel(target);
    if found.None? {
      ok := server.QueueNumericReply(id, "403", One(target), "No such channel");
      return;
    }
    var key := found.value;
    var name := server.FindKey(key).name;
    if |params| < 2 || params[1] == "" {
      ok := SendChannelModeIs(server, id, key);
      return;
    }
    if id !in server.FindKey(key).members {
      ok := server.QueueNumericReply(id, "442", One(name), "You're not on that channel");
      return;
    }
    if id !in server.FindKey(key).operators {
      ok := server.QueueNumericReply(id, "482", One(name), "You're not channel operator");
      return;
    }
    ok := ChangeChannelModes(server, id, key, params);
  }

  // ------------------------------------------------------------------
  // PING, CAP, QUIT
  // ------------------------------------------------------------------

  method HandlePing(server: Server, id: int, params: seq<string>) returns (ok: bool)
    requires server.Valid() && id in server.st.users && |params| >= 1
    modifies server`st, server`pollFds, server.Objects
    ensures server.Valid() && server.Objects == old(server.Objects)
    ensures Report(ok, server.st) == Ping(old(server.st), id, params)
  {
    hide Server.ClientsOk, Server.ChannelsOk, Server.Valid, Say;
    ok := server.Send({id}, IrcMessage("PONG", [params[0]], "", true));
  }

  method HandleCap(server: Server, id: int, params: seq<string>) returns (ok: bool)
    requires server.Valid() && id in server.st.users && |params| >= 1
    modifies server`st, server`pollFds, server.Objects
    ensures server.Valid() && server.Objects == old(server.Objects)
    ensures Report(ok, server.st) == Cap(old(server.st), id, params)
  {
    hide Server.ClientsOk, Server.ChannelsOk, Server.Valid, Say, Numeric, One, Upper, ReplyTarget;
    var subcommand := UpperCopy(params[0]);
    var capabilities := "";
    if subcommand == "REQ" {
      if |params| < 2 || params[1] == "" {
        ok := server.QueueNumericReply(id, "461", One("CAP"), "Not enough parameters");
        return;
      }
      subcommand, capabilities := "NAK", params[1];
    } else if subcommand != "LS" {
      return true;
    }
    ok := server.Send({id}, IrcMessage("CAP", [server.TargetOf(id), subcommand, capabilities], SERVER_NAME, true));
  }

  method HandleQuit(server: Server, id: int, params: seq<string>) returns (ok: bool)
    requires server.Valid() && id in server.st.users
    modifies server`st, server.Objects
    ensures server.Valid() && server.Objects == old(server.Objects)
    ensures Report(ok, server.st) == Quit(old(server.st), id, params)
  {
    hide Server.ClientsOk, Server.ChannelsOk, Server.Valid, Request;
    var quitReason := "Client Quit";
    if params != [] && params[0] != "" {
      quitReason := params[0];
    }
    server.FlagClient(id, quitReason);
    return true;
  }

  // ------------------------------------------------------------------
  // Dispatch
  // ------------------------------------------------------------------

  /** The handler that the table names. */
  method RunHandler(server: Server, id: int, m: IrcMessage, answer: BotAnswer) returns (ok: bool)
    requires server.Valid() && Inv(server.st) && id in server.st.users && !Virtual(id)
    requires Admitted(server.st.users[id].account, m)
    modifies server, server.Objects
    ensures server.Valid() && fresh(server.Objects - old(server.Objects))
    ensures Report(ok, server.st) == Handle(old(server.st), id, m, answer)
  {
    hide Server.ClientsOk, Server.ChannelsOk, Server.Valid, Inv, Pass, Nick, UserCommand, Ping, Quit, Cap, Join,
      Commands.Part, Message, Topic, Invite, Kick, Mode;
    match m.command
    case "PASS" => ok := HandlePass(server, id, m.params);
    case "NICK" => ok := HandleNick(server, id, m.params);
    case "USER" => ok := HandleUser(server, id, m.params);
    case "PING" => ok := HandlePing(server, id, m.params);
    case "PONG" => ok := true;
    case "QUIT" => ok := HandleQuit(server, id, m.params);
    case "CAP" => ok := HandleCap(server, id, m.params);
    case "JOIN" => ok := HandleJoin(server, id, m.params);
    case "PART" => ok := HandlePart(server, id, m.params);
    case "PRIVMSG" => ok := RouteMessage(server, id, m.params[0], m.params[1], false, answer);
    case "NOTICE" =>
      if |m.params| < 2 || m.params[1] == "" {
        return true;
      }
      ok := RouteMessage(server, id, m.params[0], m.params[1], true, answer);
    case "TOPIC" => ok := HandleTopic(server, id, m.params, m.hasTrailing);
    case "INVITE" => ok := HandleInvite(server, id, m.params);
    case "KICK" => ok := HandleKick(server, id, m.params);
    case "MODE" => ok := HandleMode(server, id, m.params);
    case _ => ok := true;
  }

  /** The routing of handlePrivateMessage and handleNotice. */
  method RouteMessage(server: Server, id: int, target: string, text: string, notice: bool, answer: BotAnswer)
    returns (ok: bool)
    requires server.Valid() && Inv(server.st) && id in server.st.users
    modifies server`st, server`pollFds, server.Objects
    ensures server.Valid() && server.Objects == old(server.Objects)
    ensures Report(ok, server.st) == Message(old(server.st), id, target, text, notice, answer)
  {
    hide Server.ClientsOk, Server.ChannelsOk, Server.Valid, Inv, MessageToChannel, MessageToUser;
    if ChannelTarget(target) {
      ok := SendMessageToChannel(server, id, target, text, notice, answer);
    } else {
      ok := SendMessageToUser(server, id, target, text, notice, answer);
    }
  }

  /** CommandDispatcher::execute. */
  method ExecuteCommand(server: Server, id: int, m: IrcMessage, answer: BotAnswer) returns (ok: bool)
    requires server.Valid() && Inv(server.st) && id in server.st.users && !Virtual(id)
    modifies server, server.Objects
    ensures server.Valid() && fresh(server.Objects - old(server.Objects))
    ensures Report(ok, server.st) == Execute(old(server.st), id, m, answer)
  {
    hide Server.ClientsOk, Server.ChannelsOk, Server.Valid, Inv, Numeric, One, DefinitionOf, Handle, SameRegistry;
    var definition := DefinitionOf(m.command);
    if definition.None? {
      ok := server.QueueNumericReply(id, "421", One(m.command), "Unknown command");
      return;
    }
    if definition.value.requiresRegistration && !server.Find(id).registered {
      ok := server.QueueNumericReply(id, "451", [], "You have not registered");
      return;
    }
    if m.command == "NICK" && m.params == [] {
      ok := server.QueueNumericReply(id, "431", [], "No nickname given");
      return;
    }
    if (m.command == "PING" || m.command == "PONG") && m.params == [] {
      ok := server.QueueNumericReply(id, "409", [], "No origin specified");
      return;
    }
    if m.command == "PRIVMSG" {
      if m.params == [] {
        ok := server.QueueNumericReply(id, "411", [], "No recipient given (" + m.command + ")");
        return;
      }
      if |m.params| == 1 || m.params[1] == "" {
        ok := server.QueueNumericReply(id, "412", [], "No text to send");
        return;
      }
    }
    if |m.params| < definition.value.minParams {
      ok := server.QueueNumericReply(id, "461", One(m.command), "Not enough parameters");
      return;
    }
    ok := RunHandler(server, id, m, answer);
  }

  /** Server::dispatchCommand. */
  method DispatchCommand(server: Server, id: int, m: IrcMessage, answer: BotAnswer) returns (ok: bool)
    requires server.Valid() && Inv(server.st) && id in server.st.users && !Virtual(id)
    modifies server, server.Objects
    ensures server.Valid() && fresh(server.Objects - old(server.Objects))
    ensures Report(ok, server.st) == Dispatch(old(server.st), id, m, answer)
  {
    hide Server.ClientsOk, Server.ChannelsOk, Server.Valid, Inv, Execute, TryRegister;
    ok := ExecuteCommand(server, id, m, answer);
    if !ok {
      return;
    }
    ok := TryRegisterClient(server, id);
  }
}
