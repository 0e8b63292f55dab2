// What the MODE pipeline promises as a whole.
module ModeLaws {
  import opened Results
  import opened UserLimit
  import opened ChannelModes

  // ------------------------------------------------------------------
  // Arguments are consumed in letter order
  // ------------------------------------------------------------------

  function WithoutSigns(text: string): string {
    if text == "" then ""
    else (if text[0] == '+' || text[0] == '-' then "" else [text[0]]) + WithoutSigns(text[1..])
  }

  function ModesOf(ops: seq<ModeOp>): string {
    if ops == [] then "" else [ops[0].mode] + ModesOf(ops[1..])
  }

  /** What the parser hands to the validator. */
  predicate AsParsed(op: ModeOp) {
    Supported(op.mode) && op.number == 0 && (TakesArgument(op) <==> op.argument != "")
  }

  /**
   * A parsed command has one operation per letter, in order, and its arguments
   * are exactly a prefix of those supplied; the rest are ignored.
   */
  lemma {:induction false} ParseConsumesPrefix(text: string, args: seq<string>, action: Action)
    requires ParseModes(text, args, action).Parsed?
    ensures var ops := ParseModes(text, args, action).ops;
            && ModesOf(ops) == WithoutSigns(text)
            && Arguments(ops) <= args
            && forall op :: op in ops ==> AsParsed(op)
  {
    if text != "" {
      if text[0] == '+' {
        ParseConsumesPrefix(text[1..], args, Add);
      } else if text[0] == '-' {
        ParseConsumesPrefix(text[1..], args, Remove);
      } else {
        var takes := RequiresArgument(text[0], action.Add?);
        var rest := if takes then args[1..] else args;
        ParseConsumesPrefix(text[1..], rest, action);
        var more := ParseModes(text[1..], rest, action).ops;
        var op := ModeOp(action, text[0], if takes then args[0] else "", 0);
        OneMoreParsed(op, more);
        assert ParseModes(text, args, action) == Parsed([op] + more);
        hide ParseModes, RequiresArgument;
        assert takes ==> args == [args[0]] + rest;
      }
    }
  }

  lemma OneMoreParsed(op: ModeOp, more: seq<ModeOp>)
    ensures ModesOf([op] + more) == [op.mode] + ModesOf(more)
    ensures Arguments([op] + more) == (if TakesArgument(op) then [op.argument] else []) + Arguments(more)
  {
    assert ([op] + more)[1..] == more;
  }

  // ------------------------------------------------------------------
  // Which operations are accepted
  // ------------------------------------------------------------------

  predicate IsLimit(text: string) {
    text != "" && AllDigits(text) && 1 <= Value(text) <= SIZE_MAX
  }

  /** An operator operation names a member, an added key is not empty, an added limit is one. */
  predicate Acceptable(op: ModeOp, members: set<int>, lookup: Lookup) {
    && (op.mode == 'o' ==> lookup(op.argument).Some? && lookup(op.argument).value in members)
    && (op.mode == 'k' && op.action == Add ==> op.argument != "")
    && (op.mode == 'l' && op.action == Add ==> IsLimit(op.argument))
  }

  /** The operation as it will be applied and announced: the member's own spelling, the number itself. */
  function Settled(op: ModeOp, members: set<int>, lookup: Lookup, nickOf: NickOf): ModeOp
    requires Acceptable(op, members, lookup)
  {
    if op.mode == 'o' then op.(argument := nickOf(lookup(op.argument).value))
    else if op.mode == 'l' && op.action == Add then
      op.(number := Value(op.argument), argument := Format(Value(op.argument)))
    else op
  }

  /** What is wrong with an operation. */
  function Complaint(op: ModeOp, lookup: Lookup, nickOf: NickOf): ModeError {
    if op.mode != 'o' then NeedMoreParams
    else if lookup(op.argument).None? then NoSuchNick(op.argument)
    else NotInChannel(nickOf(lookup(op.argument).value))
  }

  predicate AllAcceptable(ops: seq<ModeOp>, members: set<int>, lookup: Lookup) {
    forall i :: 0 <= i < |ops| ==> Acceptable(ops[i], members, lookup)
  }

  /** The i-th operation is the first that is not acceptable. */
  predicate FirstBad(ops: seq<ModeOp>, i: nat, members: set<int>, lookup: Lookup) {
    && i < |ops| && !Acceptable(ops[i], members, lookup)
    && forall j :: 0 <= j < i ==> Acceptable(ops[j], members, lookup)
  }

  function SettledAll(ops: seq<ModeOp>, members: set<int>, lookup: Lookup, nickOf: NickOf): (settled: seq<ModeOp>)
    requires AllAcceptable(ops, members, lookup)
    ensures |settled| == |ops|
  {
    seq(|ops|, i requires 0 <= i < |ops| => Settled(ops[i], members, lookup, nickOf))
  }

  lemma OneValidated(op: ModeOp, members: set<int>, lookup: Lookup, nickOf: NickOf)
    ensures ValidateOp(op, members, lookup, nickOf) ==
              if Acceptable(op, members, lookup) then Success(Settled(op, members, lookup, nickOf))
              else Failure(Complaint(op, lookup, nickOf))
  {
    hide Format;
    if op.mode == 'l' && op.argument == "" {
      assert Value(op.argument) == 0;
    }
  }

  /**
   * Validation passes exactly the commands all of whose operations are
   * acceptable, whatever is removed; otherwise its error is that of the first
   * operation that is not.
   */
  lemma {:induction false} ValidateExactly(ops: seq<ModeOp>, members: set<int>, lookup: Lookup, nickOf: NickOf)
    ensures var r := Validate(ops, members, lookup, nickOf);
            && (AllAcceptable(ops, members, lookup) ==> r == Success(SettledAll(ops, members, lookup, nickOf)))
            && (!AllAcceptable(ops, members, lookup) ==>
                  exists i: nat :: FirstBad(ops, i, members, lookup) && r == Failure(Complaint(ops[i], lookup, nickOf)))
  {
    hide ValidateOp, Acceptable, Settled, Complaint;
    if ops != [] {
      OneValidated(ops[0], members, lookup, nickOf);
      ValidateExactly(ops[1..], members, lookup, nickOf);
      assert forall i :: 0 <= i < |ops[1..]| ==> ops[1..][i] == ops[i + 1];
      if !Acceptable(ops[0], members, lookup) {
        assert FirstBad(ops, 0, members, lookup);
      } else if !AllAcceptable(ops[1..], members, lookup) {
        var i: nat :| FirstBad(ops[1..], i, members, lookup)
                      && Validate(ops[1..], members, lookup, nickOf) == Failure(Complaint(ops[1..][i], lookup, nickOf));
        assert forall j :: 0 < j <= i ==> ops[j] == ops[1..][j - 1];
        assert FirstBad(ops, i + 1, members, lookup);
      } else {
        assert forall i :: 0 <= i < |ops| ==> ops[i] == if i == 0 then ops[0] else ops[1..][i - 1];
        assert SettledAll(ops, members, lookup, nickOf) ==
               [Settled(ops[0], members, lookup, nickOf)] + SettledAll(ops[1..], members, lookup, nickOf);
      }
    }
  }

  // ------------------------------------------------------------------
  // Validation makes every apply-time guard hold
  // ------------------------------------------------------------------

  /** The nickname index answers each member's own spelling with that member. */
  predicate IndexInverse(members: set<int>, lookup: Lookup, nickOf: NickOf) {
    forall id :: id in members ==> nickOf(id) != "" && lookup(nickOf(id)) == Some(id)
  }

  /** No setter will ignore this operation. */
  predicate Ready(op: ModeOp, members: set<int>, lookup: Lookup) {
    match op.mode
    case 'i' => true
    case 't' => true
    case 'k' => op.action.Add? ==> op.argument != ""
    case 'l' => op.action.Add? ==> 1 <= op.number <= SIZE_MAX
    case 'o' => lookup(op.argument).Some? && lookup(op.argument).value in members
    case _ => false
  }

  predicate AllReady(ops: seq<ModeOp>, members: set<int>, lookup: Lookup) {
    forall op :: op in ops ==> Ready(op, members, lookup)
  }

  lemma ValidatedIsReady(ops: seq<ModeOp>, members: set<int>, lookup: Lookup, nickOf: NickOf)
    requires forall op :: op in ops ==> Supported(op.mode)
    requires IndexInverse(members, lookup, nickOf)
    requires Validate(ops, members, lookup, nickOf).Success?
    ensures AllReady(Validate(ops, members, lookup, nickOf).value, members, lookup)
  {
  }

  // ------------------------------------------------------------------
  // Last writer wins
  // ------------------------------------------------------------------

  function LastOn(ops: seq<ModeOp>, mode: char): Option<ModeOp> {
    if ops == [] then None
    else if ops[|ops| - 1].mode == mode then Some(ops[|ops| - 1])
    else LastOn(ops[..|ops| - 1], mode)
  }

  function LastOnTarget(ops: seq<ModeOp>, lookup: Lookup, id: int): Option<ModeOp> {
    if ops == [] then None
    else
      var last := ops[|ops| - 1];
      if last.mode == 'o' && lookup(last.argument) == Some(id) then Some(last)
      else LastOnTarget(ops[..|ops| - 1], lookup, id)
  }

  /** The settings a command leaves: per setting, what the last operation naming it says. */
  function LastWriter(f: Flags, ops: seq<ModeOp>): Flags {
    var i, t, k, l := LastOn(ops, 'i'), LastOn(ops, 't'), LastOn(ops, 'k'), LastOn(ops, 'l');
    Flags(
      if i.Some? then i.value.action.Add? else f.inviteOnly,
      if t.Some? then t.value.action.Add? else f.topicRestricted,
      if k.Some? then k.value.action.Add? else f.keyEnabled,
      if k.Some? then (if k.value.action.Add? then k.value.argument else "") else f.key,
      if l.Some? then l.value.action.Add? else f.limitEnabled,
      if l.Some? then (if l.value.action.Add? then l.value.number else 0) else f.limit)
  }

  predicate OperatorAfter(operators: set<int>, ops: seq<ModeOp>, lookup: Lookup, id: int) {
    var last := LastOnTarget(ops, lookup, id);
    if last.Some? then last.value.action.Add? else id in operators
  }

  lemma {:induction false} LastWriterWins(m: Moded, members: set<int>, lookup: Lookup, ops: seq<ModeOp>)
    requires AllReady(ops, members, lookup)
    ensures var after := Apply(m, members, lookup, ops);
            && after.flags == LastWriter(m.flags, ops)
            && forall id :: id in after.operators <==> OperatorAfter(m.operators, ops, lookup, id)
  {
    if ops != [] {
      var init := ops[..|ops| - 1];
      assert Ready(ops[|ops| - 1], members, lookup);
      assert AllReady(init, members, lookup);
      LastWriterWins(m, members, lookup, init);
    }
  }

  /** Applying a validated command a second time changes nothing. */
  lemma ApplyTwice(m: Moded, members: set<int>, lookup: Lookup, ops: seq<ModeOp>)
    requires AllReady(ops, members, lookup)
    ensures var once := Apply(m, members, lookup, ops);
            Apply(once, members, lookup, ops) == once
  {
    var once := Apply(m, members, lookup, ops);
    var twice := Apply(once, members, lookup, ops);
    LastWriterWins(m, members, lookup, ops);
    LastWriterWins(once, members, lookup, ops);
    assert forall id :: id in twice.operators <==> id in once.operators;
    assert twice.operators == once.operators;
  }

  lemma ApplyOpKeepsOk(m: Moded, members: set<int>, lookup: Lookup, op: ModeOp)
    requires FlagsOk(m.flags) && m.operators <= members
    requires op.number <= SIZE_MAX
    ensures var after := ApplyOp(m, members, lookup, op);
            FlagsOk(after.flags) && after.operators <= members
  {
  }

  /** MODE keeps the flag and value pairs consistent and operators inside the membership. */
  lemma {:induction false} ApplyKeepsOk(m: Moded, members: set<int>, lookup: Lookup, ops: seq<ModeOp>)
    requires FlagsOk(m.flags) && m.operators <= members
    requires forall op :: op in ops ==> op.number <= SIZE_MAX
    ensures var after := Apply(m, members, lookup, ops);
            FlagsOk(after.flags) && after.operators <= members
  {
    if ops != [] {
      var init, last := ops[..|ops| - 1], ops[|ops| - 1];
      assert last in ops;
      ApplyKeepsOk(m, members, lookup, init);
      ApplyOpKeepsOk(Apply(m, members, lookup, init), members, lookup, last);
    }
  }

  // ------------------------------------------------------------------
  // The broadcast parses back
  // ------------------------------------------------------------------

  /** A validated operation with the limit's number forgotten, as a parser sees it. */
  function Unnumbered(ops: seq<ModeOp>): (plain: seq<ModeOp>)
    ensures |plain| == |ops|
    ensures forall i :: 0 <= i < |ops| ==> plain[i] == ops[i].(number := 0)
  {
    seq(|ops|, i requires 0 <= i < |ops| => ops[i].(number := 0))
  }

  predicate Spelled(op: ModeOp) {
    Supported(op.mode) && (TakesArgument(op) <==> op.argument != "")
  }

  /** Reading one printed operation whose sign is already in force. */
  lemma LetterParses(op: ModeOp, rest: string, args: seq<string>)
    requires Spelled(op)
    ensures ParseModes([op.mode] + rest, (if TakesArgument(op) then [op.argument] else []) + args, op.action) ==
            Cons(op.(number := 0), ParseModes(rest, args, op.action))
  {
    assert ([op.mode] + rest)[1..] == rest;
    assert [] + args == args;
    assert ([op.argument] + args)[1..] == args;
  }

  lemma SignParses(sign: Action, rest: string, args: seq<string>, action: Action)
    ensures ParseModes([SignOf(sign)] + rest, args, action) == ParseModes(rest, args, sign)
  {
  }

  /** Reading one printed operation, with its sign where the sign changes. */
  lemma SignedLetterParses(op: ModeOp, rest: string, args: seq<string>, sign: char, action: Action)
    requires Spelled(op)
    requires sign == '\0' || sign == SignOf(action)
    ensures ParseModes(
              (if SignOf(op.action) != sign then [SignOf(op.action)] else "") + [op.mode] + rest,
              (if TakesArgument(op) then [op.argument] else []) + args, action) ==
            Cons(op.(number := 0), ParseModes(rest, args, op.action))
  {
    assert SignOf(op.action) == SignOf(action) ==> op.action == action;
    hide ParseModes, Spelled, SignOf, TakesArgument;
    LetterParses(op, rest, args);
    var given := (if TakesArgument(op) then [op.argument] else []) + args;
    if SignOf(op.action) != sign {
      SignParses(op.action, [op.mode] + rest, given, action);
      assert [SignOf(op.action)] + ([op.mode] + rest) == [SignOf(op.action)] + [op.mode] + rest;
    } else {
      assert "" + [op.mode] + rest == [op.mode] + rest;
    }
  }

  lemma {:induction false} LettersParse(ops: seq<ModeOp>, sign: char, action: Action)
    requires forall op :: op in ops ==> Spelled(op)
    requires sign == '\0' || sign == SignOf(action)
    ensures ParseModes(Letters(ops, sign), Arguments(ops), action) == Parsed(Unnumbered(ops))
  {
    if ops == [] {
      assert Unnumbered(ops) == [];
    } else {
      hide ParseModes, SignOf, Spelled, Unnumbered;
      var op := ops[0];
      var s := SignOf(op.action);
      LettersParse(ops[1..], s, op.action);
      SignedLetterParses(op, Letters(ops[1..], s), Arguments(ops[1..]), sign, action);
      UnnumberedCons(ops);
    }
  }

  lemma UnnumberedCons(ops: seq<ModeOp>)
    requires ops != []
    ensures Unnumbered(ops) == [ops[0].(number := 0)] + Unnumbered(ops[1..])
  {
  }

  lemma {:induction false} ValidateFrom(ops: seq<ModeOp>, v: seq<ModeOp>, members: set<int>, lookup: Lookup,
                                        nickOf: NickOf)
    requires |v| == |ops|
    requires forall i :: 0 <= i < |ops| ==> ValidateOp(ops[i], members, lookup, nickOf) == Success(v[i])
    ensures Validate(ops, members, lookup, nickOf) == Success(v)
  {
    if ops == [] {
      assert v == [];
    } else {
      forall i | 0 <= i < |ops[1..]|
        ensures ValidateOp(ops[1..][i], members, lookup, nickOf) == Success(v[1..][i])
      {
        assert ops[1..][i] == ops[i + 1] && v[1..][i] == v[i + 1];
      }
      ValidateFrom(ops[1..], v[1..], members, lookup, nickOf);
      assert v == [v[0]] + v[1..];
    }
  }

  lemma RevalidateOp(op: ModeOp, members: set<int>, lookup: Lookup, nickOf: NickOf)
    requires IndexInverse(members, lookup, nickOf)
    requires AsParsed(op)
    requires ValidateOp(op, members, lookup, nickOf).Success?
    ensures var w := ValidateOp(op, members, lookup, nickOf).value;
            && Spelled(w) && w.action == op.action && w.mode == op.mode
            && ValidateOp(w.(number := 0), members, lookup, nickOf) == Success(w)
  {
  }

  /**
   * What the MODE broadcast prints is a command with the same effect: it parses
   * back to the same operations, validates to the same targets and numbers, and
   * applying it to the channel it describes changes nothing.
   */
  lemma BroadcastReplays(
      text: string, args: seq<string>, m: Moded, members: set<int>, lookup: Lookup, nickOf: NickOf)
    requires IndexInverse(members, lookup, nickOf)
    requires ParseModes(text, args, Add).Parsed?
    requires Validate(ParseModes(text, args, Add).ops, members, lookup, nickOf).Success?
    ensures var v := Validate(ParseModes(text, args, Add).ops, members, lookup, nickOf).value;
            var reread := ParseModes(Letters(v, '\0'), Arguments(v), Add);
            var after := Apply(m, members, lookup, v);
            && reread == Parsed(Unnumbered(v))
            && Validate(reread.ops, members, lookup, nickOf) == Success(v)
            && Apply(after, members, lookup, v) == after
  {
    var ops := ParseModes(text, args, Add).ops;
    var v := Validate(ops, members, lookup, nickOf).value;
    ParseConsumesPrefix(text, args, Add);
    forall i | 0 <= i < |ops|
      ensures Spelled(v[i]) && ValidateOp(Unnumbered(v)[i], members, lookup, nickOf) == Success(v[i])
    {
      assert ops[i] in ops;
      RevalidateOp(ops[i], members, lookup, nickOf);
    }
    LettersParse(v, '\0', Add);
    ValidateFrom(Unnumbered(v), v, members, lookup, nickOf);
    ValidatedIsReady(ops, members, lookup, nickOf);
    ApplyTwice(m, members, lookup, v);
  }

  // ------------------------------------------------------------------
  // The 324 query rebuilds the settings
  // ------------------------------------------------------------------

  function Single(present: bool, op: ModeOp): seq<ModeOp> {
    if present then [op] else []
  }

  function KeyOp(f: Flags): ModeOp {
    ModeOp(Add, 'k', f.key, 0)
  }

  function LimitOp(f: Flags): ModeOp {
    ModeOp(Add, 'l', Format(f.limit), f.limit)
  }

  const INVITE_OP := ModeOp(Add, 'i', "", 0)
  const TOPIC_OP := ModeOp(Add, 't', "", 0)

  /** The operations a set of flags stands for, in itkl order. */
  function QueryOps(f: Flags): seq<ModeOp> {
    Single(f.inviteOnly, INVITE_OP)
    + Single(f.topicRestricted, TOPIC_OP)
    + Single(f.keyEnabled, KeyOp(f))
    + Single(f.limitEnabled, LimitOp(f))
  }

  lemma {:induction false} LettersAppend(a: seq<ModeOp>, b: seq<ModeOp>)
    requires forall op :: op in a ==> op.action.Add?
    ensures Letters(a + b, '+') == Letters(a, '+') + Letters(b, '+')
    ensures Arguments(a + b) == Arguments(a) + Arguments(b)
  {
    if a == [] {
      assert a + b == b;
    } else {
      assert (a + b)[1..] == a[1..] + b;
      assert a[0] in a && forall op :: op in a[1..] ==> op in a;
      assert (a + b)[0] == a[0];
      hide Letters, Arguments;
      LettersAppend(a[1..], b);
      AddedFirst(a);
      AddedFirst(a + b);
      Regrouped([a[0].mode], Letters(a[1..], '+'), Letters(b, '+'));
      Regrouped(if TakesArgument(a[0]) then [a[0].argument] else [], Arguments(a[1..]), Arguments(b));
    }
  }

  lemma Regrouped<T>(a: seq<T>, b: seq<T>, c: seq<T>)
    ensures a + (b + c) == a + b + c
  {
  }

  lemma AddedFirst(ops: seq<ModeOp>)
    requires ops != [] && ops[0].action.Add?
    ensures Letters(ops, '+') == [ops[0].mode] + Letters(ops[1..], '+')
    ensures Arguments(ops) == (if TakesArgument(ops[0]) then [ops[0].argument] else []) + Arguments(ops[1..])
  {
  }

  lemma {:induction false} LastOnAppend(a: seq<ModeOp>, b: seq<ModeOp>, mode: char)
    ensures LastOn(a + b, mode) == if LastOn(b, mode).Some? then LastOn(b, mode) else LastOn(a, mode)
  {
    if b == [] {
      assert a + b == a;
    } else {
      assert (a + b)[..|a + b| - 1] == a + b[..|b| - 1];
      LastOnAppend(a, b[..|b| - 1], mode);
    }
  }

  lemma SinglePrints(present: bool, op: ModeOp)
    requires op.action.Add?
    ensures Letters(Single(present, op), '+') == if present then [op.mode] else ""
    ensures Arguments(Single(present, op)) == if present && TakesArgument(op) then [op.argument] else []
    ensures forall o :: o in Single(present, op) ==> o.action.Add?
  {
  }

  lemma PrintedInOrder(a: string, b: string, c: string, d: string)
    ensures "+" + (a + b + c + d) == "+" + a + b + c + d
  {
  }

  /** Appending one more operation that only adds. */
  lemma SingleAppends(a: seq<ModeOp>, present: bool, op: ModeOp)
    requires op.action.Add? && forall o :: o in a ==> o.action.Add?
    ensures var ops := a + Single(present, op);
            && Letters(ops, '+') == Letters(a, '+') + (if present then [op.mode] else "")
            && Arguments(ops) == Arguments(a) + (if present && TakesArgument(op) then [op.argument] else [])
            && forall o :: o in ops ==> o.action.Add?
  {
    LettersAppend(a, Single(present, op));
    SinglePrints(present, op);
  }

  lemma QueryPrints(f: Flags)
    ensures QueryFlags(f) == "+" + Letters(QueryOps(f), '+')
    ensures QueryArguments(f) == Arguments(QueryOps(f))
  {
    hide Single, Letters, Arguments, Format;
    SinglePrints(f.inviteOnly, INVITE_OP);
    var i := Single(f.inviteOnly, INVITE_OP);
    SingleAppends(i, f.topicRestricted, TOPIC_OP);
    var it := i + Single(f.topicRestricted, TOPIC_OP);
    SingleAppends(it, f.keyEnabled, KeyOp(f));
    SingleAppends(it + Single(f.keyEnabled, KeyOp(f)), f.limitEnabled, LimitOp(f));
    PrintedInOrder(
      if f.inviteOnly then "i" else "", if f.topicRestricted then "t" else "",
      if f.keyEnabled then "k" else "", if f.limitEnabled then "l" else "");
  }

  lemma LastOnSingle(present: bool, op: ModeOp, mode: char)
    ensures LastOn(Single(present, op), mode) == if present && op.mode == mode then Some(op) else None
  {
  }

  lemma LastOnQuery(f: Flags, mode: char)
    ensures LastOn(QueryOps(f), mode) ==
            if mode == 'i' && f.inviteOnly then Some(INVITE_OP)
            else if mode == 't' && f.topicRestricted then Some(TOPIC_OP)
            else if mode == 'k' && f.keyEnabled then Some(KeyOp(f))
            else if mode == 'l' && f.limitEnabled then Some(LimitOp(f))
            else None
  {
    var i, t := Single(f.inviteOnly, INVITE_OP), Single(f.topicRestricted, TOPIC_OP);
    var k, l := Single(f.keyEnabled, KeyOp(f)), Single(f.limitEnabled, LimitOp(f));
    LastOnAppend(i, t, mode);
    LastOnAppend(i + t, k, mode);
    LastOnAppend(i + t + k, l, mode);
    LastOnSingle(f.inviteOnly, INVITE_OP, mode);
    LastOnSingle(f.topicRestricted, TOPIC_OP, mode);
    LastOnSingle(f.keyEnabled, KeyOp(f), mode);
    LastOnSingle(f.limitEnabled, LimitOp(f), mode);
  }

  lemma QueryIsLastWriter(f: Flags)
    requires FlagsOk(f)
    ensures LastWriter(NO_FLAGS, QueryOps(f)) == f
  {
    LastOnQuery(f, 'i');
    LastOnQuery(f, 't');
    LastOnQuery(f, 'k');
    LastOnQuery(f, 'l');
  }

  lemma QueryOpsShape(f: Flags, op: ModeOp)
    requires FlagsOk(f) && op in QueryOps(f)
    ensures Spelled(op) && op.number <= SIZE_MAX
    ensures op == INVITE_OP || op == TOPIC_OP
            || (f.keyEnabled && op == KeyOp(f)) || (f.limitEnabled && op == LimitOp(f))
  {
  }

  /**
   * The flags and arguments of the 324 reply are a MODE command that, given to
   * a fresh channel, rebuilds the same i, t, k and l settings.
   */
  lemma QueryRebuilds(f: Flags, operators: set<int>, members: set<int>, lookup: Lookup, nickOf: NickOf)
    requires FlagsOk(f)
    ensures var parsed := ParseModes(QueryFlags(f), QueryArguments(f), Add);
            && parsed.Parsed?
            && Validate(parsed.ops, members, lookup, nickOf) == Success(QueryOps(f))
            && Apply(Moded(NO_FLAGS, operators), members, lookup, QueryOps(f)).flags == f
  {
    var ops := QueryOps(f);
    QueryPrints(f);
    SignParses(Add, Letters(ops, '+'), Arguments(ops), Add);
    forall i | 0 <= i < |ops|
      ensures Spelled(ops[i]) && Ready(ops[i], members, lookup)
      ensures ValidateOp(Unnumbered(ops)[i], members, lookup, nickOf) == Success(ops[i])
    {
      QueryOpsShape(f, ops[i]);
      if f.limitEnabled {
        FormatParses(f.limit);
      }
    }
    LettersParse(ops, '+', Add);
    ValidateFrom(Unnumbered(ops), ops, members, lookup, nickOf);
    QueryIsLastWriter(f);
    LastWriterWins(Moded(NO_FLAGS, operators), members, lookup, ops);
  }
}
