// src/Bot.cpp: the reactions of the built-in bot that change the server.
module BotObject {
  import opened Results
  import opened IrcCasemap
  import opened Codec
  import opened ServerState
  import opened Primitives
  import opened Membership
  import opened Commands
  import opened CommandLaws
  import opened ClientObject
  import opened ChannelObject
  import opened ServerObject

  /** The members of a sound channel are clients. */
  lemma MembersExist(st: State, key: string)
    requires Inv(st) && key in st.channels
    ensures st.channels[key].members <= st.users.Keys
  {
  }

  /** Bot::sendText to a client or to the members of a channel. */
  method SendText(server: Server, recipients: set<int>, target: string, command: string, text: string)
    returns (ok: bool)
    requires server.Valid() && recipients <= server.st.users.Keys
    modifies server`st, server`pollFds, server.Objects
    ensures server.Valid() && server.Objects == old(server.Objects)
    ensures Report(ok, server.st) == BotText(old(server.st), recipients, target, command, text)
  {
    hide Server.ClientsOk, Server.ChannelsOk, Server.Valid, Say, Clip, PrefixOf;
    if !server.HasBot() || text == "" {
      return true;
    }
    var prefix := server.ClientPrefix(BOT);
    var clippedText := Clip(prefix, command, target, text);
    if clippedText == "" {
      return true;
    }
    ok := server.Send(recipients, IrcMessage(command, [target, clippedText], prefix, true));
  }

  /** channel.addOperator, on a channel of the server. */
  method PromoteMember(server: Server, key: string, id: int)
    requires server.Valid() && key in server.st.channels && id in server.st.channels[key].members
    modifies server`st, server.FindKey(key)
    ensures server.Valid() && server.Objects == old(server.Objects)
    ensures server.st == WithOperator(old(server.st), key, id)
  {
    hide Server.ClientsOk, Server.ChannelsOk, PollMatches, Polled;
    var channel := server.FindKey(key);
    channel.AddOperator(id);
    server.st := WithChan(server.st, key, channel.View());
    server.ChannelChanged(key);
  }

  /** In its home channel the bot makes itself an operator. */
  method PromoteAtHome(server: Server, key: string)
    requires server.Valid() && key in server.st.channels && BOT in server.st.channels[key].members
    modifies server`st, server.FindKey(key)
    ensures server.Valid() && server.Objects == old(server.Objects)
    ensures var st, ch := old(server.st), old(server.st).channels[key];
            && server.st == (if Equal(ch.name, HOME_CHANNEL) && BOT !in ch.operators
                             then WithOperator(st, key, BOT) else st)
            && key in server.st.channels && server.st.users == st.users
            && server.st.channels[key].members == ch.members && server.st.channels[key].name == ch.name
  {
    hide Server.ClientsOk, Server.ChannelsOk, Server.Valid, Equal;
    var channel := server.FindKey(key);
    if Equal(channel.name, HOME_CHANNEL) && BOT !in channel.operators {
      PromoteMember(server, key, BOT);
    }
  }

  lemma EnteredChannel(st: State, key: string)
    requires BOT in st.users && key in st.channels
    ensures BOT in Enter(st, BOT, key).channels[key].members
  {
  }

  /** Bot::joinChannel. */
  method JoinChannel(server: Server, key: string, greet: bool) returns (ok: bool)
    requires server.Valid() && Enterable(server.st, key)
    requires BOT in server.st.users ==> server.st.users[BOT].account.registered
    modifies server`st, server`pollFds, server.Objects
    ensures server.Valid() && server.Objects == old(server.Objects)
    ensures Report(ok, server.st) == BotJoin(old(server.st), key, greet)
  {
    hide Server.ClientsOk, Server.ChannelsOk, Server.Valid, Inv, Enter, Say, BotText, Equal, Keeps, WithOperator,
      PrefixOf;
    if !server.HasBot() || BOT in server.FindKey(key).members {
      return true;
    }
    EnterLoose(server.st, BOT, key);
    EnteredChannel(server.st, key);
    hide Enterable;
    server.AddClientToChannel(BOT, key);
    MembersExist(server.st, key);
    var name := server.FindKey(key).name;
    ok := server.Send(server.FindKey(key).members,
                      IrcMessage("JOIN", [name], server.ClientPrefix(BOT), true));
    if !ok {
      return;
    }
    PromoteAtHome(server, key);
    if greet {
      ok := SendText(server, server.FindKey(key).members, name, "PRIVMSG", BOT_GREETING);
    }
  }

  /** Bot::handleKick. */
  method HandleKick(server: Server, channelName: string) returns (ok: bool)
    requires server.Valid() && Inv(server.st)
    modifies server, server.Objects
    ensures server.Valid() && fresh(server.Objects - old(server.Objects))
    ensures Report(ok, server.st) == BotKicked(old(server.st), channelName)
  {
    hide Server.ClientsOk, Server.ChannelsOk, Server.Valid, Inv, BotJoin, Equal, ValidChannelName, Normalize, Enterable;
    if !server.HasBot() || !Equal(channelName, HOME_CHANNEL) {
      return true;
    }
    HomeChannelName();
    FindOrCreateEnterable(server.st, HOME_CHANNEL);
    BotRegistered(server.st);
    var key := server.FindOrCreateChannel(HOME_CHANNEL);
    ok := JoinChannel(server, key.value, false);
  }
}
