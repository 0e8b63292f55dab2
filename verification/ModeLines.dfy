// When the two lines that speak of a channel's modes can be printed at all: the
// announcement of a change and the 324 reply to a query.
module ModeLines {
  import opened Results
  import opened IrcCasemap
  import opened Codec
  import opened CodecLaws
  import opened UserLimit
  import opened ChannelModes
  import opened ModeLaws
  import opened ServerState
  import opened Primitives
  import opened Commands
  import opened CommandLaws
  import opened DispatchLaws
  import opened NamesLaws
  import opened ModeBroadcast

  // ------------------------------------------------------------------
  // The parts of the two lines
  // ------------------------------------------------------------------

  lemma {:induction false} LettersClean(ops: seq<ModeOp>, sign: char)
    requires forall op :: op in ops ==> Supported(op.mode)
    ensures forall c :: c in Letters(ops, sign) ==> c == '+' || c == '-' || Supported(c)
    ensures ops != [] ==> Letters(ops, sign) != ""
  {
    if ops != [] {
      assert ops[0] in ops;
      LettersClean(ops[1..], SignOf(ops[0].action));
    }
  }

  lemma CleanIsMiddle(text: string)
    requires text != "" && forall c :: c in text ==> c == '+' || c == '-' || Supported(c)
    ensures ValidMiddle(text)
  {
    assert text[0] in text;
  }

  lemma DigitsAreMiddle(text: string)
    requires text != "" && AllDigits(text)
    ensures ValidMiddle(text)
  {
    assert IsDigit(text[0]);
  }

  lemma NickIsMiddle(nick: string)
    requires ValidNick(nick)
    ensures ValidMiddle(nick)
  {
  }

  lemma ChannelIsMiddle(name: string)
    requires ValidChannelName(name)
    ensures ValidMiddle(name)
  {
  }

  lemma QueryFlagsAreMiddle(f: Flags)
    ensures ValidMiddle(QueryFlags(f))
  {
    CleanIsMiddle(QueryFlags(f));
  }

  lemma ServerNameClean()
    ensures ValidPrefix(SERVER_NAME) && ValidCommand("324") && ValidCommand("MODE") && ValidMiddle("*")
  {
  }

  // ------------------------------------------------------------------
  // The 324 reply
  // ------------------------------------------------------------------

  /** RPL_CHANNELMODEIS, which lists the flags and then their values. */
  function QueryMessage(st: State, id: int, key: string): IrcMessage
    requires id in st.users && key in st.channels
  {
    var ch := st.channels[key];
    var shown := [ch.name, QueryFlags(ch.flags)] + QueryArguments(ch.flags);
    IrcMessage("324", [ReplyTarget(st.users[id].account)] + shown, SERVER_NAME, false)
  }

  /** A key in the last place may hold anything on one line; before the limit it must be a middle. */
  predicate KeyPrints(f: Flags) {
    f.keyEnabled ==> if f.limitEnabled then ValidMiddle(f.key) else LineSafe(f.key)
  }

  lemma TargetIsMiddle(st: State, id: int)
    requires Inv(st) && id in st.users
    ensures ValidMiddle(ReplyTarget(st.users[id].account))
  {
    assert UserOk(st.password, id, st.users[id]);
    hide ValidMiddle, ValidNick;
    ServerNameClean();
    if st.users[id].account.nickGiven {
      NickIsMiddle(st.users[id].account.nick);
    }
  }

  lemma QueryParamsPrint(head: seq<string>, f: Flags)
    requires |head| == 3 && ValidMiddle(head[0]) && ValidMiddle(head[1]) && ValidMiddle(head[2])
    ensures PrintableParams(head + QueryArguments(f)) <==> KeyPrints(f)
  {
    if f.limitEnabled {
      DigitsAreMiddle(Format(f.limit));
    }
    hide Format, NeedsTrailingMarker, LineSafe;
    var params := head + QueryArguments(f);
    assert params[0] == head[0] && params[1] == head[1] && params[2] == head[2];
    if f.keyEnabled {
      assert params[3] == f.key;
    }
    if f.limitEnabled {
      assert params[|params| - 1] == Format(f.limit);
    }
  }

  lemma QueryHead(st: State, id: int, key: string)
    requires Inv(st) && id in st.users && key in st.channels
    ensures ValidMiddle(ReplyTarget(st.users[id].account)) && ValidMiddle(st.channels[key].name)
    ensures ValidMiddle(QueryFlags(st.channels[key].flags)) && FlagsOk(st.channels[key].flags)
  {
    assert ChanOk(st.channels[key], key, st.users);
    hide Inv, ValidMiddle, ValidChannelName, QueryFlags;
    TargetIsMiddle(st, id);
    ChannelIsMiddle(st.channels[key].name);
    QueryFlagsAreMiddle(st.channels[key].flags);
  }

  /**
   * The reply to a query can be printed exactly when its key is a middle, or
   * merely one line when no limit follows it, and the whole has room.
   */
  lemma QueryPrintsExactly(st: State, id: int, key: string)
    requires Inv(st) && id in st.users && key in st.channels
    ensures var m := QueryMessage(st, id, key);
            Serialize(m).Success? <==>
              && KeyPrints(st.channels[key].flags)
              && |PrefixPart(SERVER_NAME)| + 3 + ParamsLength(m.params, false) + 2 <= MAX_MESSAGE_LENGTH
  {
    var m, f := QueryMessage(st, id, key), st.channels[key].flags;
    var head := [ReplyTarget(st.users[id].account), st.channels[key].name, QueryFlags(f)];
    assert m.params == head + QueryArguments(f);
    assert m.command == "324" && m.prefix == SERVER_NAME && SERVER_NAME != "" && m.params != [] && !m.hasTrailing;
    hide Inv, Serialize, QueryMessage, QueryFlags, QueryArguments, ValidMiddle, PrintableParams, KeyPrints,
      ParamsLength, ReplyTarget, ValidPrefix, ValidCommand, PrefixPart;
    QueryHead(st, id, key);
    QueryParamsPrint(head, f);
    ServerNameClean();
    PrintsExactly(m);
  }

  lemma QueryIsReparsable(st: State, id: int, key: string)
    requires id in st.users && key in st.channels
    ensures Reparsable(QueryMessage(st, id, key))
  {
    assert Upper("324") == "324";
  }

  /**
   * The printed reply, read by the client that asked, names the channel, and
   * its flags and values, given as a MODE command to a fresh channel, rebuild
   * the same settings.
   */
  lemma QueryLineRebuilds(st: State, id: int, key: string, operators: set<int>, members: set<int>, lookup: Lookup,
                          nickOf: NickOf)
    requires Inv(st) && id in st.users && key in st.channels
    requires Serialize(QueryMessage(st, id, key)).Success?
    ensures |Serialize(QueryMessage(st, id, key)).value| >= 2
    ensures var read := Parse(Body(Serialize(QueryMessage(st, id, key)).value));
            && read.Success? && read.value.command == "324" && |read.value.params| >= 3
            && read.value.params[1] == st.channels[key].name
            && var parsed := ParseModes(read.value.params[2], read.value.params[3..], Add);
               && parsed.Parsed?
               && Validate(parsed.ops, members, lookup, nickOf).Success?
               && Apply(Moded(NO_FLAGS, operators), members, lookup,
                        Validate(parsed.ops, members, lookup, nickOf).value).flags == st.channels[key].flags
  {
    var m, f := QueryMessage(st, id, key), st.channels[key].flags;
    QueryHead(st, id, key);
    hide Inv, Serialize, Parse, QueryFlags, QueryArguments, ParseModes, Validate, Apply, ReplyTarget, Reparsable,
      ValidMiddle, QueryMessage, FlagsOk;
    SerializedShape(m);
    QueryIsReparsable(st, id, key);
    RoundTrip(m);
    QueryParts(st, id, key);
    hide Body;
    QueryRebuilds(f, operators, members, lookup, nickOf);
  }

  lemma QueryParts(st: State, id: int, key: string)
    requires id in st.users && key in st.channels
    ensures var m, ch := QueryMessage(st, id, key), st.channels[key];
            && m.command == "324" && |m.params| >= 3
            && m.params[1] == ch.name && m.params[2] == QueryFlags(ch.flags)
            && m.params[3..] == QueryArguments(ch.flags)
  {
    hide QueryFlags, QueryArguments, ReplyTarget;
  }

  /** MODE with a channel, and at most an empty mode string. */
  predicate Queries(st: State, params: seq<string>) {
    && |params| >= 1 && ChannelTarget(params[0]) && FindChan(st, params[0]).Some?
    && (|params| < 2 || params[1] == "")
  }

  /** It is answered by that reply, or by the exception of printing it. */
  lemma QueryAnswered(st: State, id: int, params: seq<string>)
    requires Inv(st) && id in st.users && Queries(st, params)
    ensures FindChan(st, params[0]).value in st.channels
    ensures Mode(st, id, params).Done? <==>
              Serialize(QueryMessage(st, id, FindChan(st, params[0]).value)).Success?
  {
    hide Inv, Serialize, QueryFlags, QueryArguments, Broadcast, FindChan, ReplyTarget;
    FoundChan(st, params[0]);
  }

  /** "+lk" with 5 and "a b": the key is the last argument given, and becomes one that is not last. */
  const SPACED: Flags := Flags(false, false, true, "a b", true, 5)

  lemma SpacedKeyIsAccepted(operators: set<int>, members: set<int>, lookup: Lookup, nickOf: NickOf)
    ensures var parsed := ParseModes("+lk", ["5", "a b"], Add);
            && parsed.Parsed?
            && Validate(parsed.ops, members, lookup, nickOf).Success?
            && Apply(Moded(NO_FLAGS, operators), members, lookup,
                     Validate(parsed.ops, members, lookup, nickOf).value).flags == SPACED
  {
    FormatParses(5);
    var l, k := ModeOp(Add, 'l', "5", 0), ModeOp(Add, 'k', "a b", 0);
    assert ["5", "a b"][1..] == ["a b"] && ["a b"][1..] == [];
    assert "+lk"[1..] == "lk" && "lk"[1..] == "k" && "k"[1..] == "";
    assert ParseModes("", [], Add) == Parsed([]);
    assert ParseModes("k", ["a b"], Add) == Parsed([k]);
    assert ParseModes("lk", ["5", "a b"], Add) == Parsed([l, k]);
    assert ParseModes("+lk", ["5", "a b"], Add) == Parsed([l, k]);
    hide ParseModes;
    FiveIsALimit();
    var l2 := l.(number := 5, argument := Format(5));
    assert ValidateOp(l, members, lookup, nickOf) == Success(l2) by { hide Format; }
    assert ValidateOp(k, members, lookup, nickOf) == Success(k);
    hide Format, ParseLimit, ValidateOp;
    ValidateFrom([l, k], [l2, k], members, lookup, nickOf);
    assert [l2, k][..1] == [l2] && [l2][..0] == [];
    var m := Moded(NO_FLAGS, operators);
    assert Apply(m, members, lookup, [l2]) == ApplyOp(m, members, lookup, l2);
    assert Apply(m, members, lookup, [l2, k]) == ApplyOp(ApplyOp(m, members, lookup, l2), members, lookup, k);
  }

  lemma FiveIsALimit()
    ensures ParseLimit("5") == Some(5)
  {
    assert "5"[..0] == "";
  }

  /** Such a channel can be queried by nobody: the reply is never printed. */
  lemma SpacedKeyIsUnprintable(st: State, id: int, params: seq<string>)
    requires Inv(st) && id in st.users && Queries(st, params)
    requires var key := FindChan(st, params[0]).value; key in st.channels && st.channels[key].flags == SPACED
    ensures Mode(st, id, params).Threw?
  {
    var key := FindChan(st, params[0]).value;
    assert ' ' == SPACED.key[1];
    assert !KeyPrints(SPACED);
    hide Inv, Mode, Serialize, FindChan, KeyPrints, QueryMessage, Queries;
    QueryAnswered(st, id, params);
    QueryPrintsExactly(st, id, key);
  }

  // ------------------------------------------------------------------
  // The announcement
  // ------------------------------------------------------------------

  /** What validation does to one argument: a nickname or a number is rewritten, a key is kept. */
  lemma ValidatedArgument(st: State, key: string, op: ModeOp)
    requires Inv(st) && key in st.channels && AsParsed(op)
    requires ValidateOp(op, st.channels[key].members, LookupIn(st), NicksIn(st)).Success?
    ensures var v := ValidateOp(op, st.channels[key].members, LookupIn(st), NicksIn(st)).value;
            && v.mode == op.mode && v.action == op.action && (TakesArgument(v) <==> TakesArgument(op))
            && (v.argument == op.argument || ValidMiddle(v.argument))
  {
    hide ValidMiddle, Format, AllDigits, Value;
    var members := st.channels[key].members;
    if op.mode == 'o' {
      var target := LookupIn(st)(op.argument).value;
      MemberNicknamed(st, key, target);
      NickIsMiddle(st.users[target].account.nick);
    } else if op.mode == 'l' && op.action.Add? {
      DigitsAreMiddle(Format(ParseLimit(op.argument).value));
    }
  }

  /** Each printed argument is a middle, or the one that was supplied in its place. */
  predicate FromSupplied(printed: seq<string>, supplied: seq<string>) {
    && |printed| <= |supplied|
    && forall j :: 0 <= j < |printed| ==> ValidMiddle(printed[j]) || printed[j] == supplied[j]
  }

  lemma {:induction false} ArgumentsFromSupplied(st: State, key: string, ops: seq<ModeOp>, valid: seq<ModeOp>,
                                                 args: seq<string>)
    requires Inv(st) && key in st.channels && |valid| == |ops| && Arguments(ops) <= args
    requires forall i :: 0 <= i < |ops| ==>
               && AsParsed(ops[i])
               && ValidateOp(ops[i], st.channels[key].members, LookupIn(st), NicksIn(st)) == Success(valid[i])
    ensures FromSupplied(Arguments(valid), args)
    decreases |ops|
  {
    hide Inv, ValidMiddle, ValidateOp, LookupIn, NicksIn, AsParsed;
    if ops != [] {
      ValidatedArgument(st, key, ops[0]);
      var rest := if TakesArgument(ops[0]) then args[1..] else args;
      assert Arguments(ops[1..]) <= rest;
      assert forall i :: 0 <= i < |ops[1..]| ==> ops[1..][i] == ops[i + 1] && valid[1..][i] == valid[i + 1];
      ArgumentsFromSupplied(st, key, ops[1..], valid[1..], rest);
      hide TakesArgument;
      var more := Arguments(valid[1..]);
      if TakesArgument(ops[0]) {
        assert Arguments(valid) == [valid[0].argument] + more;
        assert args[0] == ops[0].argument;
        forall j | 0 <= j < |Arguments(valid)|
          ensures ValidMiddle(Arguments(valid)[j]) || Arguments(valid)[j] == args[j]
        {
          if j > 0 {
            assert Arguments(valid)[j] == more[j - 1] && args[j] == rest[j - 1];
          }
        }
      } else {
        assert Arguments(valid) == more;
      }
    }
  }

  /** The parameters of an announcement are printable when those of the command were read off a line. */
  lemma AnnouncementParams(name: string, letters: string, printed: seq<string>, params: seq<string>)
    requires ValidMiddle(name) && ValidMiddle(letters)
    requires |params| >= 2 && PrintableParams(params) && FromSupplied(printed, params[2..])
    ensures PrintableParams([name, letters] + printed)
  {
    hide NeedsTrailingMarker, LineSafe;
    var all := [name, letters] + printed;
    forall i | 0 <= i < |all|
      ensures LineSafe(all[i]) && (i < |all| - 1 ==> ValidMiddle(all[i]))
    {
      if i >= 2 {
        assert all[i] == printed[i - 2] && params[2..][i - 2] == params[i];
      }
    }
  }

  lemma AnnouncementPrintable(st: State, key: string, params: seq<string>)
    requires Inv(st) && key in st.channels && |params| >= 2 && PrintableParams(params)
    requires ValidModes(st, key, params).Some? && ValidModes(st, key, params).value != []
    ensures var ops := ValidModes(st, key, params).value;
            PrintableParams([st.channels[key].name, Letters(ops, '\0')] + Arguments(ops))
  {
    var name := st.channels[key].name;
    assert ChanOk(st.channels[key], key, st.users);
    ParseConsumesPrefix(params[1], params[2..], Add);
    hide Inv, ParseModes, ValidateOp, Letters, Arguments, LookupIn, NicksIn, ValidMiddle, ValidChannelName,
      PrintableParams;
    var ops := ParseModes(params[1], params[2..], Add).ops;
    var valid := ValidModes(st, key, params).value;
    forall i | 0 <= i < |ops|
      ensures AsParsed(ops[i]) && Supported(valid[i].mode)
    {
      assert ops[i] in ops;
      ValidatedArgument(st, key, ops[i]);
    }
    hide AsParsed, Supported;
    ArgumentsFromSupplied(st, key, ops, valid, params[2..]);
    LettersClean(valid, '\0');
    CleanIsMiddle(Letters(valid, '\0'));
    ChannelIsMiddle(name);
    AnnouncementParams(name, Letters(valid, '\0'), Arguments(valid), params);
  }

  /** Parameters read off a line are printable. */
  lemma WireParams(line: string)
    requires Parse(line).Success?
    ensures PrintableParams(Parse(line).value.params)
  {
    hide Parse, SerializeParams, PrintableParams;
    ParsedMessagePrints(line);
    ParamsPrintExactly(Parse(line).value.params, Parse(line).value.hasTrailing);
  }

  /**
   * An accepted MODE command that came off a line is announced exactly when the
   * sender's prefix is clean and the announcement has room. Otherwise it stays
   * applied, and nobody is told.
   */
  lemma AnnouncedExactly(st: State, id: int, key: string, params: seq<string>)
    requires Inv(st) && id in st.users && key in st.channels && |params| >= 2 && PrintableParams(params)
    requires ValidModes(st, key, params).Some? && ValidModes(st, key, params).value != []
    ensures var ops, r := ValidModes(st, key, params).value, ChangeModes(st, id, key, params);
            var prefix := PrefixOf(st.users[id].account);
            var printed := [st.channels[key].name, Letters(ops, '\0')] + Arguments(ops);
            && prefix != ""
            && (r.Done? <==>
                  && ValidPrefix(prefix)
                  && |PrefixPart(prefix)| + 4 + ParamsLength(printed, false) + 2 <= MAX_MESSAGE_LENGTH)
            && (r.Threw? ==> r.st == ApplyModes(st, key, ops))
  {
    var ops := ValidModes(st, key, params).value;
    var st1 := ApplyModes(st, key, ops);
    var prefix, m := PrefixOf(st.users[id].account), ModeMessage(st1, id, st.channels[key].name, ops);
    ApplyModesFrame(st, key, ops);
    assert prefix != "" by { PrefixHasMark(st.users[id].account); }
    hide Inv, Serialize, ValidModes, ApplyModes, ChangeModes, Letters, Arguments, PrintableParams, ParamsLength,
      PrefixOf, PrefixPart, ValidPrefix, ValidCommand, Broadcast;
    ChangeModesIs(st, id, key, params);
    AnnouncementPrintable(st, key, params);
    ServerNameClean();
    PrintsExactly(m);
  }
}
