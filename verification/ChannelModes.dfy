// The MODE pipeline of CommandDispatcher.cpp on values: parse, validate, apply,
// print for the broadcast, print for the 324 query (section 3.2.3 of RFC 2812).
module ChannelModes {
  import opened Results
  import opened UserLimit

  datatype Action = Add | Remove

  datatype ModeOp = ModeOp(action: Action, mode: char, argument: string, number: nat)

  /** The itkl settings of a channel, as flag and value pairs. */
  datatype Flags = Flags(
    inviteOnly: bool,
    topicRestricted: bool,
    keyEnabled: bool,
    key: string,
    limitEnabled: bool,
    limit: nat)

  const NO_FLAGS := Flags(false, false, false, "", false, 0)

  predicate FlagsOk(f: Flags) {
    && (f.keyEnabled <==> f.key != "")
    && (f.limitEnabled <==> f.limit != 0)
    && f.limit <= SIZE_MAX
  }

  /** What MODE changes: the settings and the operators. */
  datatype Moded = Moded(flags: Flags, operators: set<int>)

  /** findClientByNickname and getNickname, as MODE uses them. */
  type Lookup = string -> Option<int>
  type NickOf = int -> string

  predicate Supported(mode: char) {
    mode == 'i' || mode == 't' || mode == 'k' || mode == 'o' || mode == 'l'
  }

  predicate RequiresArgument(mode: char, adding: bool) {
    mode == 'o' || (mode == 'k' && adding) || (mode == 'l' && adding)
  }

  predicate TakesArgument(op: ModeOp) {
    RequiresArgument(op.mode, op.action.Add?)
  }

  // ------------------------------------------------------------------
  // Parsing
  // ------------------------------------------------------------------

  /** A rejection names the unknown letter, or NUL when an argument was missing. */
  datatype ParsedModes = Parsed(ops: seq<ModeOp>) | Rejected(unknown: char)

  function Cons(op: ModeOp, rest: ParsedModes): ParsedModes {
    match rest
    case Parsed(ops) => Parsed([op] + ops)
    case Rejected(_) => rest
  }

  function ParseModes(text: string, args: seq<string>, action: Action): ParsedModes {
    if text == "" then Parsed([])
    else if text[0] == '+' then ParseModes(text[1..], args, Add)
    else if text[0] == '-' then ParseModes(text[1..], args, Remove)
    else if !Supported(text[0]) then Rejected(text[0])
    else if !RequiresArgument(text[0], action.Add?) then
      Cons(ModeOp(action, text[0], "", 0), ParseModes(text[1..], args, action))
    else if args == [] || args[0] == "" then Rejected('\0')
    else Cons(ModeOp(action, text[0], args[0], 0), ParseModes(text[1..], args[1..], action))
  }

  function PrependOps(ops: seq<ModeOp>, rest: ParsedModes): ParsedModes {
    match rest
    case Parsed(more) => Parsed(ops + more)
    case Rejected(_) => rest
  }

  lemma PrependCons(ops: seq<ModeOp>, op: ModeOp, rest: ParsedModes)
    ensures PrependOps(ops, Cons(op, rest)) == PrependOps(ops + [op], rest)
  {
  }

  /** CommandDispatcher::parseChannelModeOperations on the MODE parameters. */
  method ParseChannelModeOperations(params: seq<string>)
    returns (ok: bool, operations: seq<ModeOp>, unknownMode: char)
    requires |params| >= 2
    ensures ParseModes(params[1], params[2..], Add) ==
            if ok then Parsed(operations) else Rejected(unknownMode)
    ensures !ok ==> operations == []
  {
    var modeString := params[1];
    var currentAction := Add;
    var argumentIndex := 2;
    unknownMode := '\0';
    operations := [];
    ghost var whole := ParseModes(params[1], params[2..], Add);
    assert modeString[0..] == modeString;
    assert whole.Parsed? ==> [] + whole.ops == whole.ops;
    for index := 0 to |modeString|
      invariant 2 <= argumentIndex <= |params|
      invariant unknownMode == '\0'
      invariant whole ==
                PrependOps(operations, ParseModes(modeString[index..], params[argumentIndex..], currentAction))
    {
      var character := modeString[index];
      ghost var left := modeString[index..];
      assert left[1..] == modeString[index + 1..];
      if character == '+' {
        currentAction := Add;
        continue;
      }
      if character == '-' {
        currentAction := Remove;
        continue;
      }
      if !Supported(character) {
        return false, [], character;
      }
      var operation := ModeOp(currentAction, character, "", 0);
      ghost var argsLeft := params[argumentIndex..];
      if RequiresArgument(character, currentAction.Add?) {
        if argumentIndex >= |params| || params[argumentIndex] == "" {
          return false, [], '\0';
        }
        operation := operation.(argument := params[argumentIndex]);
        argumentIndex := argumentIndex + 1;
        assert argsLeft[1..] == params[argumentIndex..];
      }
      PrependCons(operations, operation,
                  ParseModes(modeString[index + 1..], params[argumentIndex..], currentAction));
      operations := operations + [operation];
    }
    assert operations + [] == operations;
    ok := true;
  }

  // ------------------------------------------------------------------
  // Validating
  // ------------------------------------------------------------------

  datatype ModeError = NoSuchNick(argument: string) | NotInChannel(nickname: string) | NeedMoreParams

  function ValidateOp(op: ModeOp, members: set<int>, lookup: Lookup, nickOf: NickOf): Result<ModeOp, ModeError> {
    if op.mode == 'o' then
      match lookup(op.argument)
      case None => Failure(NoSuchNick(op.argument))
      case Some(target) =>
        if target !in members then Failure(NotInChannel(nickOf(target)))
        else Success(op.(argument := nickOf(target)))
    else if op.mode == 'k' && op.action.Add? then
      if op.argument == "" then Failure(NeedMoreParams) else Success(op)
    else if op.mode == 'l' && op.action.Add? then
      match ParseLimit(op.argument)
      case None => Failure(NeedMoreParams)
      case Some(n) => Success(op.(number := n, argument := Format(n)))
    else Success(op)
  }

  /** The first failing operation decides; nothing has been applied by then. */
  function Validate(ops: seq<ModeOp>, members: set<int>, lookup: Lookup, nickOf: NickOf)
    : (r: Result<seq<ModeOp>, ModeError>)
    ensures r.Success? ==> |r.value| == |ops|
    ensures r.Success? ==> forall i :: 0 <= i < |ops| ==>
                                         ValidateOp(ops[i], members, lookup, nickOf) == Success(r.value[i])
  {
    if ops == [] then Success([])
    else
      var first :- ValidateOp(ops[0], members, lookup, nickOf);
      var rest :- Validate(ops[1..], members, lookup, nickOf);
      Success([first] + rest)
  }

  // ------------------------------------------------------------------
  // Applying
  // ------------------------------------------------------------------

  /** One operation through the setters of Channel, with their guards. */
  function ApplyOp(m: Moded, members: set<int>, lookup: Lookup, op: ModeOp): Moded {
    var f := m.flags;
    var adding := op.action.Add?;
    if op.mode == 'i' then m.(flags := f.(inviteOnly := adding))
    else if op.mode == 't' then m.(flags := f.(topicRestricted := adding))
    else if op.mode == 'k' then
      if !adding then m.(flags := f.(key := "", keyEnabled := false))
      else if op.argument == "" then m
      else m.(flags := f.(key := op.argument, keyEnabled := true))
    else if op.mode == 'l' then
      if !adding then m.(flags := f.(limit := 0, limitEnabled := false))
      else if op.number == 0 then m
      else m.(flags := f.(limit := op.number, limitEnabled := true))
    else if op.mode == 'o' then
      match lookup(op.argument)
      case None => m
      case Some(target) =>
        if !adding then m.(operators := m.operators - {target})
        else if target !in members then m
        else m.(operators := m.operators + {target})
    else m
  }

  function Apply(m: Moded, members: set<int>, lookup: Lookup, ops: seq<ModeOp>): Moded {
    if ops == [] then m
    else ApplyOp(Apply(m, members, lookup, ops[..|ops| - 1]), members, lookup, ops[|ops| - 1])
  }

  // ------------------------------------------------------------------
  // Printing
  // ------------------------------------------------------------------

  function SignOf(action: Action): char {
    if action.Add? then '+' else '-'
  }

  /** The mode string of the broadcast: a sign only where it changes. */
  function Letters(ops: seq<ModeOp>, sign: char): string {
    if ops == [] then ""
    else
      var s := SignOf(ops[0].action);
      (if s != sign then [s] else "") + [ops[0].mode] + Letters(ops[1..], s)
  }

  function Arguments(ops: seq<ModeOp>): seq<string> {
    if ops == [] then []
    else (if TakesArgument(ops[0]) then [ops[0].argument] else []) + Arguments(ops[1..])
  }

  /** The first loop of notifyChannelModeChanges. */
  method PrintLetters(operations: seq<ModeOp>) returns (modeString: string)
    ensures modeString == Letters(operations, '\0')
  {
    modeString := "";
    var currentSign := '\0';
    assert operations[0..] == operations;
    for index := 0 to |operations|
      invariant Letters(operations, '\0') == modeString + Letters(operations[index..], currentSign)
    {
      var operation := operations[index];
      ghost var left := operations[index..];
      assert left[0] == operation && left[1..] == operations[index + 1..];
      var sign := SignOf(operation.action);
      ghost var rest := Letters(left[1..], sign);
      ghost var printed := modeString;
      if sign != currentSign {
        LettersStep(printed, [sign], operation.mode, rest);
        modeString := modeString + [sign];
        currentSign := sign;
      } else {
        LettersStep(printed, "", operation.mode, rest);
        assert printed + "" == printed;
      }
      modeString := modeString + [operation.mode];
    }
    assert modeString + "" == modeString;
  }

  lemma LettersStep(printed: string, sign: string, mode: char, rest: string)
    ensures printed + (sign + [mode] + rest) == printed + sign + [mode] + rest
  {
  }

  /** The second loop of notifyChannelModeChanges. */
  method PrintArguments(operations: seq<ModeOp>) returns (arguments: seq<string>)
    ensures arguments == Arguments(operations)
  {
    arguments := [];
    assert operations[0..] == operations;
    for index := 0 to |operations|
      invariant Arguments(operations) == arguments + Arguments(operations[index..])
    {
      var operation := operations[index];
      ghost var left := operations[index..];
      assert left[0] == operation && left[1..] == operations[index + 1..];
      if RequiresArgument(operation.mode, operation.action == Add) {
        arguments := arguments + [operation.argument];
      }
    }
    assert arguments + [] == arguments;
  }

  /** The flags of RPL_CHANNELMODEIS, in itkl order, and the values after them. */
  function QueryFlags(f: Flags): string {
    "+"
    + (if f.inviteOnly then "i" else "")
    + (if f.topicRestricted then "t" else "")
    + (if f.keyEnabled then "k" else "")
    + (if f.limitEnabled then "l" else "")
  }

  function QueryArguments(f: Flags): seq<string> {
    (if f.keyEnabled then [f.key] else [])
    + (if f.limitEnabled then [Format(f.limit)] else [])
  }
}
