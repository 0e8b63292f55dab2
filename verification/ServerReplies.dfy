// The replies of src/Server.cpp: topic, NAMES, history and welcome, and the
// step that completes a registration.
module ServerReplies {
  import opened Results
  import opened IrcCasemap
  import opened Codec
  import opened Walks
  import opened ServerState
  import opened Primitives
  import opened Membership
  import opened ChannelLog
  import Names
  import opened Commands
  import opened ClientObject
  import opened ChannelObject
  import opened ServerObject

  /** Server::validateChannelJoinAccess: `ok` is false for an exception, `admitted` for a refusal. */
  method ValidateChannelJoinAccess(server: Server, id: int, key: string, providedKey: string)
    returns (ok: bool, admitted: bool)
    requires server.Valid() && id in server.st.users && key in server.st.channels
    modifies server`pollFds, server`st, server.Objects
    ensures server.Valid() && server.Objects == old(server.Objects)
    ensures admitted <==> Denial(old(server.st).channels[key], id, providedKey).None?
    ensures match Denial(old(server.st).channels[key], id, providedKey)
            case None => ok && server.st == old(server.st)
            case Some(refusal) =>
              Report(ok, server.st) ==
              Numeric(old(server.st), id, refusal.code, One(old(server.st).channels[key].name), refusal.text)
  {
    hide Server.ClientsOk, Server.ChannelsOk, Server.Valid, Numeric, One;
    var channel := server.FindKey(key);
    if channel.limitEnabled && |channel.members| >= channel.userLimit {
      ok := server.QueueNumericReply(id, "471", One(channel.name), "Cannot join channel (+l)");
      return ok, false;
    }
    if channel.inviteOnly && id !in channel.invitedClients {
      ok := server.QueueNumericReply(id, "473", One(channel.name), "Cannot join channel (+i)");
      return ok, false;
    }
    if channel.keyEnabled && channel.channelKey != providedKey {
      ok := server.QueueNumericReply(id, "475", One(channel.name), "Cannot join channel (+k)");
      return ok, false;
    }
    return true, true;
  }

  /** Server::sendChannelTopic. */
  method SendChannelTopic(server: Server, id: int, key: string) returns (ok: bool)
    requires server.Valid() && id in server.st.users && key in server.st.channels
    modifies server`pollFds, server`st, server.Objects
    ensures server.Valid() && server.Objects == old(server.Objects)
    ensures Report(ok, server.st) == SendTopic(old(server.st), id, key)
  {
    hide Server.ClientsOk, Server.ChannelsOk, Server.Valid, Numeric, One;
    var channel := server.FindKey(key);
    if channel.topic == "" {
      ok := server.QueueNumericReply(id, "331", One(channel.name), "No topic is set");
    } else {
      ok := server.QueueNumericReply(id, "332", One(channel.name), channel.topic);
    }
  }

  // ------------------------------------------------------------------
  // NAMES
  // ------------------------------------------------------------------

  /** Only output happened since: the names to display are the same. */
  ghost predicate SameNames(was: State, now: State) {
    && now == was.(users := now.users) && now.users.Keys == was.users.Keys
    && forall id :: id in was.users ==> now.users[id].account == was.users[id].account
  }

  lemma NumericSameNames(st: State, id: int, code: string, params: seq<string>, trailing: string)
    requires id in st.users
    ensures SameNames(st, Numeric(st, id, code, params, trailing).st)
  {
  }

  lemma SameNamesTrans(a: State, b: State, c: State)
    requires SameNames(a, b) && SameNames(b, c)
    ensures SameNames(a, c)
  {
  }

  /** Sending the payload that is full and going on with the rest. */
  lemma PayloadSent(st: State, id: int, name: string, current: string, next: string, names: seq<string>, budget: nat)
    requires id in st.users && Names.Overflows(current, next, budget)
    ensures var r := Numeric(st, id, "353", ["=", name], current);
            SendPayloads(st, id, name, Names.Pack(current, [next] + names, budget)) ==
              if r.Threw? then r else SendPayloads(r.st, id, name, Names.Pack(Names.Add("", next), names, budget))
  {
  }

  lemma PayloadFilled(current: string, next: string, names: seq<string>, budget: nat)
    requires !Names.Overflows(current, next, budget)
    ensures Names.Pack(current, [next] + names, budget) == Names.Pack(Names.Add(current, next), names, budget)
  {
  }

  lemma LastPayloadSent(st: State, id: int, name: string, current: string, budget: nat)
    requires id in st.users
    ensures SendPayloads(st, id, name, Names.Pack(current, [], budget)) ==
              if current == "" then Done(st) else Numeric(st, id, "353", ["=", name], current)
  {
  }

  lemma NoNamesLeft(st: State, ch: Chan)
    ensures DisplayedNames(st, ch, []) == []
  {
  }

  lemma NamesAhead(st: State, ch: Chan, ids: seq<int>, i: nat)
    requires i < |ids|
    ensures DisplayedNames(st, ch, ids[i..]) ==
              (if ids[i] in st.users && st.users[ids[i]].account.nick != "" then [Displayed(st, ch, ids[i])] else [])
              + DisplayedNames(st, ch, ids[i + 1..])
  {
  }

  /** The loop of Server::sendChannelNames over the members, with its flush at each overflow. */
  method SendNamePayloads(server: Server, id: int, key: string, budget: nat) returns (ok: bool)
    requires server.Valid() && id in server.st.users && key in server.st.channels
    requires server.st.channels[key].members <= server.st.users.Keys
    modifies server`pollFds, server`st, server.Objects
    ensures server.Valid() && server.Objects == old(server.Objects)
    ensures var st, ch := old(server.st), old(server.st).channels[key];
            Report(ok, server.st) ==
            SendPayloads(st, id, ch.name, Names.Pack("", DisplayedNames(st, ch, st.walk(ch.members)), budget))
  {
    hide Server.ClientsOk, Server.ChannelsOk, Server.Valid, Numeric, SendPayloads, SameNames, DisplayedNames,
      Enumerates, Names.Pack, Names.Overflows, Names.Add;
    ghost var was := server.st;
    ghost var ch := was.channels[key];
    var name := server.FindKey(key).name;
    var members := server.WalkMembers(key);
    WalkEnumerates(was.walk, ch.members);
    ghost var whole := SendPayloads(was, id, name, Names.Pack("", DisplayedNames(was, ch, members), budget));
    assert members[0..] == members;
    var currentNames := "";
    SameNamesSelf(was);
    for i := 0 to |members|
      invariant server.Valid() && server.Objects == old(server.Objects) && SameNames(was, server.st)
      invariant id in server.st.users
      invariant whole == SendPayloads(server.st, id, name,
                                      Names.Pack(currentNames, DisplayedNames(was, ch, members[i..]), budget))
    {
      var member := members[i];
      assert member in members;
      SameNamesAt(was, server.st, member, key);
      ghost var rest := DisplayedNames(was, ch, members[i + 1..]);
      NamesAhead(was, ch, members, i);
      assert [] + rest == rest;
      var nickname := server.Find(member).nickname;
      if nickname != "" {
        var displayed := (if member in server.FindKey(key).operators then "@" else "") + nickname;
        assert DisplayedNames(was, ch, members[i..]) == [displayed] + rest;
        if Names.Overflows(currentNames, displayed, budget) {
          PayloadSent(server.st, id, name, currentNames, displayed, rest, budget);
          NumericSameNames(server.st, id, "353", ["=", name], currentNames);
          ghost var before := server.st;
          var sent := server.QueueNumericReply(id, "353", ["=", name], currentNames);
          SameNamesTrans(was, before, server.st);
          if !sent {
            return false;
          }
          currentNames := "";
        } else {
          PayloadFilled(currentNames, displayed, rest, budget);
        }
        currentNames := Names.Add(currentNames, displayed);
      }
    }
    assert members[|members|..] == [];
    NoNamesLeft(was, ch);
    LastPayloadSent(server.st, id, name, currentNames, budget);
    if currentNames == "" {
      return true;
    }
    ok := server.QueueNumericReply(id, "353", ["=", name], currentNames);
  }

  lemma SameNamesSelf(st: State)
    ensures SameNames(st, st)
  {
  }

  lemma SameNamesAt(was: State, now: State, id: int, key: string)
    requires SameNames(was, now) && key in was.channels
    ensures now.channels == was.channels
    ensures id in was.users ==> id in now.users && now.users[id].account == was.users[id].account
  {
  }

  /** Server::sendChannelNames. */
  method SendChannelNames(server: Server, id: int, key: string) returns (ok: bool)
    requires server.Valid() && id in server.st.users && key in server.st.channels
    requires server.st.channels[key].members <= server.st.users.Keys
    modifies server`pollFds, server`st, server.Objects
    ensures server.Valid() && server.Objects == old(server.Objects)
    ensures Report(ok, server.st) == SendNames(old(server.st), id, key)
  {
    hide Server.ClientsOk, Server.ChannelsOk, Server.Valid, Numeric, SendPayloads, Serialize, DisplayedNames;
    var name := server.FindKey(key).name;
    var emptyReply := SerializeMessage(
      IrcMessage("353", [server.TargetOf(id)] + ["=", name] + [""], SERVER_NAME, true));
    assert emptyReply == Serialize(NumericMessage(server.st.users[id].account, "353", ["=", name], ""));
    if emptyReply.Failure? || |emptyReply.value| > MAX_MESSAGE_LENGTH {
      return false;
    }
    var listed := SendNamePayloads(server, id, key, MAX_MESSAGE_LENGTH - |emptyReply.value|);
    if !listed {
      return false;
    }
    ok := server.QueueNumericReply(id, "366", One(name), "End of /NAMES list");
  }

  // ------------------------------------------------------------------
  // History
  // ------------------------------------------------------------------

  lemma OfferAllStep(id: int, o: Output, lines: seq<string>, i: nat, log: Option<string>)
    requires i < |lines|
    ensures OfferAll(id, o, lines[..i + 1], log) == Offer(id, OfferAll(id, o, lines[..i], log), lines[i], log)
  {
    assert lines[..i + 1][..i] == lines[..i];
    hide Offer;
  }

  /** Server::sendChannelHistory; the replay is on record from here. */
  method SendChannelHistory(server: Server, id: int, key: string)
    requires server.Valid() && id in server.st.users && key in server.st.channels
    modifies server`pollFds, server`st, server.Objects
    ensures server.Valid() && server.Objects == old(server.Objects)
    ensures server.st == Replay(old(server.st), id, key)
  {
    hide Server.ClientsOk, Server.ChannelsOk, Offer, PollMatches, Polled;
    ghost var was := server.st;
    ghost var entries := was.channels[key].history;
    var client := server.Find(id);
    var history := server.FindKey(key).messageHistory;
    assert history == EntryLines(entries);
    client.marks := client.marks[key := Mark(|client.accepted|, |entries|)];
    server.st := WithUser(server.st, id, client.View());
    server.RecordChanged(id);
    hide Server.Valid;
    ghost var mark := Mark(|was.users[id].out.accepted|, |entries|);
    ghost var marked := was.users[id].(marks := was.users[id].marks[key := mark]);
    assert history[..0] == [];
    for i := 0 to |history|
      invariant server.Valid() && server.Objects == old(server.Objects)
      invariant server.st == WithUser(was, id, marked.(out := OfferAll(id, was.users[id].out, history[..i], Some(key))))
    {
      OfferAllStep(id, was.users[id].out, history, i, Some(key));
      server.QueueMessage(id, history[i], Some(key));
    }
    assert history[..|history|] == history;
  }

  // ------------------------------------------------------------------
  // Registration
  // ------------------------------------------------------------------

  /** Server::sendWelcomeMessages. */
  method SendWelcomeMessages(server: Server, id: int) returns (ok: bool)
    requires server.Valid() && id in server.st.users
    modifies server`pollFds, server`st, server.Objects
    ensures server.Valid() && server.Objects == old(server.Objects)
    ensures Report(ok, server.st) == Welcome(old(server.st), id)
  {
    hide Server.ClientsOk, Server.ChannelsOk, Server.Valid, Numeric, NumericPlain, PrefixOf;
    var identity := server.ClientPrefix(id);
    ok := server.QueueNumericReply(id, "001", [], "Welcome to the IRC Network " + identity);
    if ok {
      ok := server.QueueNumericReply(id, "002", [], "Your host is " + SERVER_NAME);
    }
    if ok {
      ok := server.QueueNumericReply(id, "003", [], "This server was created today");
    }
    if ok {
      ok := server.QueueNumericPlain(id, "004", [SERVER_NAME, "1.0", "o", "itkol"]);
    }
    if ok {
      ok := server.QueueNumericReply(
        id, "005", ["CHANTYPES=#", "PREFIX=(o)@", "CHANMODES=,k,l,it", "CASEMAPPING=rfc1459"],
        "are supported by this server");
    }
  }

  /** Server::tryRegisterClient. */
  method TryRegisterClient(server: Server, id: int) returns (ok: bool)
    requires server.Valid() && id in server.st.users
    modifies server`pollFds, server`st, server.Objects
    ensures server.Valid() && server.Objects == old(server.Objects)
    ensures Report(ok, server.st) == TryRegister(old(server.st), id)
  {
    hide Server.ClientsOk, Server.ChannelsOk, PollMatches, Polled, Welcome;
    var client := server.Find(id);
    if client.registered || !client.IsReadyToRegister() {
      return true;
    }
    client.registered := true;
    client.welcomes := client.welcomes + 1;
    server.st := WithUser(server.st, id, client.View());
    server.RecordChanged(id);
    ok := SendWelcomeMessages(server, id);
  }
}
