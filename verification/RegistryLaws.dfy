// What the invariant means to the users of the indexes: nickname lookup, the
// reach of NICK and QUIT notifications, and complete channel logs.
module RegistryLaws {
  import opened Results
  import opened IrcCasemap
  import opened Codec
  import opened ServerState
  import opened Primitives
  import opened Membership
  import opened ChannelLog
  import opened Commands
  import opened CommandLaws
  import opened DispatchLaws
  import opened Connection
  import opened ConnectionLaws

  // ------------------------------------------------------------------
  // Nicknames
  // ------------------------------------------------------------------

  /** Looking a nickname up in the index is searching all clients for an equal one. */
  lemma LookupIsSearch(st: State, nick: string, id: int)
    requires Inv(st)
    ensures FindNick(st, nick) == Some(id) <==>
              id in st.users && st.users[id].account.nickGiven && Equal(st.users[id].account.nick, nick)
  {
    var key := Normalize(nick);
    assert |key| == |nick|;
    if key in st.nicks {
      assert Owns(st.users, st.nicks[key], key);
    }
    if id in st.users && st.users[id].account.nickGiven && Equal(st.users[id].account.nick, nick) {
      assert UserOk(st.password, id, st.users[id]);
      assert Owns(st.users, id, key);
      assert |Normalize(st.users[id].account.nick)| == |st.users[id].account.nick|;
    }
  }

  /** No two clients have nicknames that the casemap identifies. */
  lemma NicknamesUnique(st: State, a: int, b: int)
    requires Inv(st) && a in st.users && b in st.users
    requires st.users[a].account.nickGiven && st.users[b].account.nickGiven
    requires Equal(st.users[a].account.nick, st.users[b].account.nick)
    ensures a == b
  {
    hide Inv, Equal, FindNick;
    LookupIsSearch(st, st.users[b].account.nick, a);
    assert Equal(st.users[b].account.nick, st.users[b].account.nick) by {
      EqualSelf(st.users[b].account.nick);
    }
    LookupIsSearch(st, st.users[b].account.nick, b);
  }

  lemma EqualSelf(s: string)
    ensures Equal(s, s)
  {
  }

  /** The accounts, memberships and indexes are as they were. */
  ghost predicate NothingRenamed(a: State, b: State) {
    && b.nicks == a.nicks && b.channels == a.channels && b.users.Keys == a.users.Keys
    && forall i :: i in a.users ==> b.users[i].account == a.users[i].account && b.users[i].joined == a.users[i].joined
  }

  /** Another client owns a nickname equal to this one. */
  ghost predicate Taken(st: State, id: int, nick: string) {
    exists other :: other in st.users && other != id && st.users[other].account.nickGiven
                    && Equal(st.users[other].account.nick, nick)
  }

  lemma RefusalRenamesNothing(st: State, id: int, code: string, params: seq<string>, trailing: string)
    requires Inv(st) && id in st.users
    ensures NothingRenamed(st, Numeric(st, id, code, params, trailing).st)
  {
  }

  /** A NICK that is malformed, or asks for a nickname another client owns, changes nothing but output. */
  lemma RefusedNickChangesNothing(st: State, id: int, params: seq<string>)
    requires Inv(st) && id in st.users && |params| >= 1
    requires !ValidNick(params[0]) || Taken(st, id, params[0])
    ensures NothingRenamed(st, Nick(st, id, params).st)
  {
    hide Inv, Numeric, AssignNick, SayRelated, ValidNick, NothingRenamed, One;
    var nick := params[0];
    RefusalRenamesNothing(st, id, "431", [], "No nickname given");
    RefusalRenamesNothing(st, id, "432", One(nick), "Erroneous nickname");
    RefusalRenamesNothing(st, id, "433", One(nick), "Nickname is already in use");
    if ValidNick(nick) {
      AssignNickRefuses(st, id, nick);
    }
  }

  lemma AssignedNick(st: State, id: int, nick: string)
    requires id in st.users && ValidNick(nick) && AssignNick(st, id, nick).Some?
    ensures var after := AssignNick(st, id, nick).value;
            id in after.users && after.users[id].account.nick == nick && FindNick(after, nick) == Some(id)
  {
  }

  lemma SayKeepsNicks(st: State, to: set<int>, m: IrcMessage, nick: string)
    ensures var after := Say(st, to, m).st;
            && FindNick(after, nick) == FindNick(st, nick)
            && forall id :: id in st.users ==> after.users[id].account == st.users[id].account
  {
  }

  /** Any other NICK is carried out: the client has the nickname and is found under it. */
  lemma AcceptedNickIsFound(st: State, id: int, params: seq<string>)
    requires Inv(st) && id in st.users && |params| >= 1
    requires ValidNick(params[0]) && !Taken(st, id, params[0])
    ensures var after := Nick(st, id, params).st;
            after.users[id].account.nick == params[0] && FindNick(after, params[0]) == Some(id)
  {
    hide Inv, Numeric, AssignNick, Say, FindNick, Related, PrefixOf, One;
    var nick := params[0];
    AssignNickRefuses(st, id, nick);
    AssignedNick(st, id, nick);
    var st1 := AssignNick(st, id, nick).value;
    var m := IrcMessage("NICK", [nick], PrefixOf(st.users[id].account), true);
    SayKeepsNicks(st1, {id} + Related(st1, id), m, nick);
  }

  /** Section 2.3.1 of RFC 2812: letters and marks are 0x41 to 0x7D; digits and '-' may not come first. */
  lemma NickGrammar(nick: string)
    ensures ValidNick(nick) <==>
              && nick != "" && 0x41 <= nick[0] as int <= 0x7D
              && forall i :: 0 <= i < |nick| ==>
                   0x41 <= nick[i] as int <= 0x7D || 0x30 <= nick[i] as int <= 0x39 || nick[i] as int == 0x2D
  {
    assert forall i :: 0 <= i < |nick| ==>
             (0x41 <= nick[i] as int <= 0x7D <==> Letter(nick[i]) || NickSpecial(nick[i])) by {
      Marks();
    }
    hide Letter, NickSpecial;
  }

  lemma Marks()
    ensures forall c: char :: Letter(c) || NickSpecial(c) <==> 0x41 <= c as int <= 0x7D
  {
  }

  /** How a nickname may go on. */
  predicate NickTail(tail: string) {
    forall i :: 0 <= i < |tail| ==>
      Letter(tail[i]) || '0' <= tail[i] <= '9' || NickSpecial(tail[i]) || tail[i] == '-'
  }

  /** A nickname is a first character and any tail: nothing limits its length to 9. */
  lemma NicknameLengthIsFree(nick: string, tail: string)
    requires ValidNick(nick)
    ensures ValidNick(nick + tail) <==> NickTail(tail)
  {
    var all := nick + tail;
    if ValidNick(all) {
      forall i | 0 <= i < |tail|
        ensures Letter(tail[i]) || '0' <= tail[i] <= '9' || NickSpecial(tail[i]) || tail[i] == '-'
      {
        assert all[|nick| + i] == tail[i];
      }
    }
  }

  lemma TenLetters()
    ensures ValidNick("abcdefghij")
  {
    assert ValidNick("a");
    assert NickTail("bcdefghij");
    hide ValidNick, NickTail;
    NicknameLengthIsFree("a", "bcdefghij");
    assert "a" + "bcdefghij" == "abcdefghij";
  }

  /** A client that asks for ten letters where section 1.2.1 of RFC 2812 allows nine gets them. */
  lemma TenLettersAccepted(st: State, id: int)
    requires Inv(st) && id in st.users && !Taken(st, id, "abcdefghij")
    ensures var after := Nick(st, id, ["abcdefghij"]).st;
            after.users[id].account.nick == "abcdefghij" && FindNick(after, "abcdefghij") == Some(id)
  {
    hide ValidNick, Inv, Taken, Nick, FindNick;
    TenLetters();
    AcceptedNickIsFound(st, id, ["abcdefghij"]);
  }

  // ------------------------------------------------------------------
  // Fan-out
  // ------------------------------------------------------------------

  /** The real members, other than the client, of all its channels. */
  function Neighbours(st: State, id: int): set<int>
    requires id in st.users
  {
    set key, other | key in st.users[id].joined && key in st.channels && other in st.channels[key].members
                     && !Virtual(other) && other != id :: other
  }

  lemma SharedChannel(st: State, id: int, other: int)
    requires Inv(st) && id in st.users && other in st.users && other != id && other != BOT
    requires other in Related(st, id)
    ensures other in Neighbours(st, id)
  {
  }

  /** Computing the audience from the joined sets finds exactly the members of the shared channels. */
  lemma FanOutReaches(st: State, id: int)
    requires Inv(st) && id in st.users
    ensures Related(st, id) == Neighbours(st, id)
  {
    forall other | other in Related(st, id)
      ensures other in Neighbours(st, id)
    {
      SharedChannel(st, id, other);
    }
    forall key, other | key in st.users[id].joined && key in st.channels && other in st.channels[key].members
                        && !Virtual(other) && other != id
      ensures other in Related(st, id)
    {
      assert ChanOk(st.channels[key], key, st.users);
      assert key in st.users[other].joined * st.users[id].joined;
    }
  }

  /** What one offer does to a real client that is not closing. */
  lemma OfferedIsAccepted(id: int, o: Output, line: string, log: Option<string>)
    requires !Virtual(id) && !o.closing && 0 < |line| <= MAX_MESSAGE_LENGTH
    ensures var after := Offer(id, o, line, log);
            if |o.buffer| + |line| <= MAX_OUTPUT_BUFFER then
              after == o.(buffer := o.buffer + line, accepted := o.accepted + [Delivery(line, log)])
            else
              after == o.(closing := true, reason := "Output buffer limit exceeded")
  {
  }

  /** Connected to a socket, open, and with room for this line. */
  predicate CanTake(id: int, o: Output, line: string) {
    !Virtual(id) && !o.closing && |o.buffer| + |line| <= MAX_OUTPUT_BUFFER
  }

  /**
   * A NICK or QUIT line is offered exactly once to the client and to each real
   * member of its channels, however many they share: whoever can take it has it
   * once more at the end of its output. Nobody else's record changes.
   */
  lemma FanOutOnce(st: State, id: int, m: IrcMessage)
    requires Inv(st) && id in st.users
    ensures var r := SayRelated(st, id, m);
            match Serialize(m)
            case Failure(_) => r == Threw(st)
            case Success(line) =>
              && r.Done?
              && forall other :: other in st.users ==>
                   var u, v := st.users[other], r.st.users[other];
                   if other == id || other in Neighbours(st, id) then
                     && v == u.(out := Offer(other, u.out, line, None))
                     && (CanTake(other, u.out, line) ==>
                           && v.out.accepted == u.out.accepted + [Delivery(line, None)]
                           && v.out.buffer == u.out.buffer + line && !v.out.closing)
                   else v == u
  {
    hide Inv, Serialize, Offer, Related, Neighbours;
    FanOutReaches(st, id);
    if Serialize(m).Success? {
      var line := Serialize(m).value;
      SerializedFits(m);
      forall other | other in st.users && CanTake(other, st.users[other].out, line)
        ensures Offer(other, st.users[other].out, line, None) ==
                  st.users[other].out.(buffer := st.users[other].out.buffer + line,
                                       accepted := st.users[other].out.accepted + [Delivery(line, None)])
      {
        OfferedIsAccepted(other, st.users[other].out, line, None);
      }
    }
  }

  // ------------------------------------------------------------------
  // Channel logs
  // ------------------------------------------------------------------

  /**
   * For a connected member: the history lines replayed when it joined, followed
   * by the channel messages queued since, are the channel's whole history in
   * order, minus what the member itself wrote after joining.
   */
  lemma MembersSawEverything(st: State, id: int, key: string)
    requires Sound(st) && key in st.channels && id in st.channels[key].members
    requires !Virtual(id) && !st.users[id].out.closing
    ensures id in st.users && key in st.users[id].marks
    ensures var m, out, history := st.users[id].marks[key], st.users[id].out, st.channels[key].history;
            && m.accepted <= |out.accepted| && m.history <= |history|
            && LogOf(out.accepted[m.accepted..], key) ==
                 EntryLines(history[..m.history]) + OthersLines(history[m.history..], id)
  {
  }
}
