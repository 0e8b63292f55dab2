// The NAMES reply of a channel: who is listed, in which order, and when every
// line of it fits (Server::sendChannelNames, Server.cpp:740-813).
module NamesLaws {
  import opened Results
  import opened Codec
  import opened Walks
  import opened ServerState
  import opened Primitives
  import Names
  import opened Commands
  import opened CommandLaws

  // ------------------------------------------------------------------
  // Listing the members
  // ------------------------------------------------------------------

  lemma {:induction false} DisplayedExactly(st: State, ch: Chan, ids: seq<int>)
    requires forall id :: id in ids ==> id in st.users && st.users[id].account.nick != ""
    ensures var names := DisplayedNames(st, ch, ids);
            |names| == |ids| && forall i :: 0 <= i < |ids| ==> names[i] == Displayed(st, ch, ids[i])
  {
    if ids != [] {
      assert ids[0] in ids;
      DisplayedExactly(st, ch, ids[1..]);
      var rest := DisplayedNames(st, ch, ids[1..]);
      assert DisplayedNames(st, ch, ids) == [Displayed(st, ch, ids[0])] + rest;
      forall i | 0 < i < |ids|
        ensures rest[i - 1] == Displayed(st, ch, ids[i])
      {
        assert ids[i] == ids[1..][i - 1];
      }
    }
  }

  /** In whatever order: every member of a channel is listed once, with '@' exactly for operators. */
  lemma EveryMemberDisplayed(st: State, key: string, ids: seq<int>)
    requires Inv(st) && key in st.channels && Enumerates(ids, st.channels[key].members)
    ensures var ch, names := st.channels[key], DisplayedNames(st, st.channels[key], ids);
            && |names| == |ids|
            && forall i :: 0 <= i < |ids| ==>
                 ids[i] in st.users
                 && names[i] == (if ids[i] in ch.operators then "@" else "") + st.users[ids[i]].account.nick
  {
    forall id | id in ids
      ensures id in st.users && st.users[id].account.nick != ""
    {
      MemberNicknamed(st, key, id);
    }
    hide Inv, Enumerates;
    DisplayedExactly(st, st.channels[key], ids);
  }

  lemma MemberNicknamed(st: State, key: string, id: int)
    requires Inv(st) && key in st.channels && id in st.channels[key].members
    ensures id in st.users && ValidNick(st.users[id].account.nick)
  {
  }

  // ------------------------------------------------------------------
  // The length of the lines
  // ------------------------------------------------------------------

  lemma {:induction false} TrailingParams(params: seq<string>, trailing: string)
    ensures var short := SerializeParams(params + [""], true);
            var full := SerializeParams(params + [trailing], true);
            && (short.Success? && LineSafe(trailing) ==>
                  full.Success? && |full.value| == |short.value| + |trailing|)
            && (full.Success? ==> short.Success? && LineSafe(trailing))
  {
    if params == [] {
      assert [] + [""] == [""] && [] + [trailing] == [trailing];
    } else {
      assert (params + [""])[1..] == params[1..] + [""];
      assert (params + [trailing])[1..] == params[1..] + [trailing];
      TrailingParams(params[1..], trailing);
    }
  }

  /** A numeric reply is as long as the same reply with an empty text, plus the text. */
  lemma NumericLength(a: Account, code: string, params: seq<string>, trailing: string)
    requires Serialize(NumericMessage(a, code, params, "")).Success? && LineSafe(trailing)
    ensures var empty := Serialize(NumericMessage(a, code, params, "")).value;
            var r := Serialize(NumericMessage(a, code, params, trailing));
            && (r.Success? <==> |empty| + |trailing| <= MAX_MESSAGE_LENGTH)
            && (r.Success? ==> |r.value| == |empty| + |trailing|)
  {
    var all := [ReplyTarget(a)] + params;
    TrailingParams(all, trailing);
    hide SerializeParams, ReplyTarget, LineSafe;
  }

  lemma NumericCompletes(st: State, id: int, code: string, params: seq<string>, trailing: string)
    requires id in st.users
    ensures Numeric(st, id, code, params, trailing).Done? <==>
              Serialize(NumericMessage(st.users[id].account, code, params, trailing)).Success?
    ensures Numeric(st, id, code, params, trailing).st.users[id].account == st.users[id].account
  {
  }

  /** All 353 lines are sent exactly when every payload fits the budget. */
  lemma {:induction false} PayloadsComplete(st: State, id: int, name: string, payloads: seq<string>, empty: string)
    requires id in st.users
    requires Serialize(NumericMessage(st.users[id].account, "353", ["=", name], "")) == Success(empty)
    requires forall p :: p in payloads ==> LineSafe(p)
    ensures SendPayloads(st, id, name, payloads).Done? <==>
              forall p :: p in payloads ==> |p| <= MAX_MESSAGE_LENGTH - |empty|
    decreases |payloads|
  {
    if payloads != [] {
      assert payloads[0] in payloads;
      hide Serialize, Numeric, NumericMessage, LineSafe;
      var a := st.users[id].account;
      NumericLength(a, "353", ["=", name], payloads[0]);
      NumericCompletes(st, id, "353", ["=", name], payloads[0]);
      var r := Numeric(st, id, "353", ["=", name], payloads[0]);
      if r.Done? {
        PayloadsComplete(r.st, id, name, payloads[1..], empty);
        assert forall p :: p in payloads <==> p == payloads[0] || p in payloads[1..];
      }
    }
  }

  // ------------------------------------------------------------------
  // Names as payloads
  // ------------------------------------------------------------------

  lemma NickIsName(nick: string, operator: bool)
    requires ValidNick(nick)
    ensures var shown := (if operator then "@" else "") + nick;
            Names.Name(shown) && LineSafe(shown)
  {
  }

  lemma {:induction false} PackSafe(current: string, names: seq<string>, budget: nat)
    requires LineSafe(current) && forall n :: n in names ==> LineSafe(n)
    ensures forall p :: p in Names.Pack(current, names, budget) ==> LineSafe(p)
    decreases |names|
  {
    if names != [] {
      assert names[0] in names;
      if Names.Overflows(current, names[0], budget) {
        PackSafe(names[0], names[1..], budget);
      } else {
        PackSafe(Names.Add(current, names[0]), names[1..], budget);
      }
    }
  }

  lemma DisplayedAreNames(st: State, key: string, ids: seq<int>)
    requires Inv(st) && key in st.channels && Enumerates(ids, st.channels[key].members)
    ensures var names := DisplayedNames(st, st.channels[key], ids);
            Names.AllNames(names) && forall n :: n in names ==> LineSafe(n)
  {
    var ch := st.channels[key];
    var names := DisplayedNames(st, ch, ids);
    EveryMemberDisplayed(st, key, ids);
    hide Inv, DisplayedNames, LineSafe, Names.Name;
    forall n | n in names
      ensures Names.Name(n) && LineSafe(n)
    {
      var i :| 0 <= i < |names| && names[i] == n;
      assert ids[i] in ids;
      MemberNicknamed(st, key, ids[i]);
      NickIsName(st.users[ids[i]].account.nick, ids[i] in ch.operators);
    }
  }

  /**
   * NAMES on a channel of any size, its members walked in any order: the 353 payloads read one after another are
   * the displayed members, each once and in order; each break is forced; and all
   * the lines, none longer than 512 bytes, are sent exactly when every displayed
   * name fits beside the reply's own overhead.
   */
  lemma NamesReply(st: State, id: int, key: string, ids: seq<int>, empty: string)
    requires Inv(st) && id in st.users && key in st.channels && Enumerates(ids, st.channels[key].members)
    requires Serialize(NumericMessage(st.users[id].account, "353", ["=", st.channels[key].name], "")) == Success(empty)
    ensures |empty| <= MAX_MESSAGE_LENGTH
    ensures var ch, budget := st.channels[key], MAX_MESSAGE_LENGTH - |empty|;
            var names := DisplayedNames(st, ch, ids);
            var payloads := Names.Pack("", names, budget);
            && Names.Words(Names.Join(payloads)) == names
            && Names.BreaksForced(payloads, budget)
            && (SendPayloads(st, id, ch.name, payloads).Done? <==> forall n :: n in names ==> |n| <= budget)
  {
    hide Inv, Serialize, Enumerates, DisplayedNames, LineSafe, NumericMessage, SendPayloads, Names.AllNames,
      Names.BreaksForced, Names.Pack, Names.Words, Names.Join;
    var ch := st.channels[key];
    var names := DisplayedNames(st, ch, ids);
    SerializedWithin(NumericMessage(st.users[id].account, "353", ["=", ch.name], ""));
    DisplayedAreNames(st, key, ids);
    NamesPacked(st, id, ch.name, names, empty);
  }

  /** The same for any list of safe names. */
  lemma NamesPacked(st: State, id: int, name: string, names: seq<string>, empty: string)
    requires id in st.users && |empty| <= MAX_MESSAGE_LENGTH
    requires Serialize(NumericMessage(st.users[id].account, "353", ["=", name], "")) == Success(empty)
    requires Names.AllNames(names) && forall n :: n in names ==> LineSafe(n)
    ensures var budget := MAX_MESSAGE_LENGTH - |empty|;
            var payloads := Names.Pack("", names, budget);
            && Names.Words(Names.Join(payloads)) == names
            && Names.BreaksForced(payloads, budget)
            && (SendPayloads(st, id, name, payloads).Done? <==> forall n :: n in names ==> |n| <= budget)
  {
    hide Serialize, LineSafe, NumericMessage, SendPayloads, Names.AllNames, Names.BreaksForced, Names.Pack,
      Names.Words, Names.Join;
    var budget := MAX_MESSAGE_LENGTH - |empty|;
    Names.PackingIsExact(names, budget);
    EmptySafe();
    PackSafe("", names, budget);
    PayloadsComplete(st, id, name, Names.Pack("", names, budget), empty);
  }

  lemma SerializedWithin(m: IrcMessage)
    requires Serialize(m).Success?
    ensures |Serialize(m).value| <= MAX_MESSAGE_LENGTH
  {
  }

  lemma EmptySafe()
    ensures LineSafe("")
  {
  }
}
