// src/IrcMessage.cpp and src/MessageParser.cpp: the printer and the parser of
// one IRC line (section 2.3.1 of RFC 2812).
module Codec {
  import opened Results

  const MAX_MESSAGE_LENGTH: nat := 512
  const CRLF: string := "\r\n"

  datatype IrcMessage = IrcMessage(
    command: string,
    params: seq<string>,
    prefix: string,
    hasTrailing: bool)

  // ------------------------------------------------------------------
  // Printing
  // ------------------------------------------------------------------

  datatype SerializeError =
    | InvalidCommand
    | TrailingWithoutParameters
    | InvalidPrefix
    | InvalidParameter
    | InvalidMiddleParameter
    | MessageTooLong

  predicate LineSafe(text: string) {
    '\r' !in text && '\n' !in text && '\0' !in text
  }

  predicate ValidCommand(command: string) {
    command != "" && ' ' !in command && '\t' !in command && LineSafe(command)
  }

  predicate ValidPrefix(prefix: string)
    requires prefix != ""
  {
    LineSafe(prefix) && ' ' !in prefix && prefix[0] != ':'
  }

  predicate NeedsTrailingMarker(param: string) {
    param == "" || param[0] == ':' || ' ' in param
  }

  predicate ValidMiddle(param: string) {
    LineSafe(param) && !NeedsTrailingMarker(param)
  }

  function SerializeParams(params: seq<string>, hasTrailing: bool): Result<string, SerializeError> {
    if params == [] then Success("")
    else if !LineSafe(params[0]) then Failure(InvalidParameter)
    else if |params| == 1 && (hasTrailing || NeedsTrailingMarker(params[0])) then Success(" :" + params[0])
    else if !ValidMiddle(params[0]) then Failure(InvalidMiddleParameter)
    else
      var rest :- SerializeParams(params[1..], hasTrailing);
      Success(" " + params[0] + rest)
  }

  function PrefixPart(prefix: string): string {
    if prefix == "" then "" else ":" + prefix + " "
  }

  /** The specification of IrcMessage::serialize, checks in the order the code makes them. */
  function Serialize(m: IrcMessage): (r: Result<string, SerializeError>) {
    if !ValidCommand(m.command) then Failure(InvalidCommand)
    else if m.hasTrailing && m.params == [] then Failure(TrailingWithoutParameters)
    else if m.prefix != "" && !ValidPrefix(m.prefix) then Failure(InvalidPrefix)
    else
      var params :- SerializeParams(m.params, m.hasTrailing);
      var line := PrefixPart(m.prefix) + m.command + params + CRLF;
      if |line| > MAX_MESSAGE_LENGTH then Failure(MessageTooLong) else Success(line)
  }

  function Prepend(text: string, r: Result<string, SerializeError>): Result<string, SerializeError> {
    match r
    case Success(rest) => Success(text + rest)
    case Failure(e) => r
  }

  lemma PrependTwice(a: string, b: string, r: Result<string, SerializeError>)
    ensures Prepend(a, Prepend(b, r)) == Prepend(a + b, r)
  {
    assert r.Success? ==> a + (b + r.value) == a + b + r.value;
  }

  /** The parameter loop of IrcMessage::serialize, appending to what is already printed. */
  method AppendParams(head: string, params: seq<string>, hasTrailing: bool)
    returns (r: Result<string, SerializeError>)
    ensures r == Prepend(head, SerializeParams(params, hasTrailing))
  {
    var result := head;
    ghost var whole := Prepend(head, SerializeParams(params, hasTrailing));
    assert params[0..] == params;
    for i := 0 to |params|
      invariant whole == Prepend(result, SerializeParams(params[i..], hasTrailing))
    {
      var param := params[i];
      ghost var left := params[i..];
      assert left[0] == param && left[1..] == params[i + 1..];
      if !LineSafe(param) {
        return Failure(InvalidParameter);
      }
      var isLast := i + 1 == |params|;
      if isLast && (hasTrailing || NeedsTrailingMarker(param)) {
        return Success(result + (" :" + param));
      }
      if !ValidMiddle(param) {
        return Failure(InvalidMiddleParameter);
      }
      PrependTwice(result, " " + param, SerializeParams(left[1..], hasTrailing));
      result := result + (" " + param);
    }
    assert params[|params|..] == [];
    assert result + "" == result;
    return Success(result);
  }

  /** IrcMessage::serialize, appending to `result` part by part. */
  method SerializeMessage(m: IrcMessage) returns (r: Result<string, SerializeError>)
    ensures r == Serialize(m)
  {
    if !ValidCommand(m.command) {
      return Failure(InvalidCommand);
    }
    if m.hasTrailing && |m.params| == 0 {
      return Failure(TrailingWithoutParameters);
    }
    var result := "";
    if m.prefix != "" {
      if !ValidPrefix(m.prefix) {
        return Failure(InvalidPrefix);
      }
      result := ":" + m.prefix + " ";
    }
    assert result == PrefixPart(m.prefix);
    result := result + m.command;
    var withParams := AppendParams(result, m.params, m.hasTrailing);
    if withParams.Failure? {
      return withParams;
    }
    result := withParams.value + CRLF;
    if |result| > MAX_MESSAGE_LENGTH {
      return Failure(MessageTooLong);
    }
    return Success(result);
  }

  // ------------------------------------------------------------------
  // Parsing
  // ------------------------------------------------------------------

  datatype ParseError = UnsafeCharacter | EmptyLine | MissingCommandAfterPrefix

  function ToUpper(c: char): char {
    if 'a' <= c <= 'z' then (c as int - 'a' as int + 'A' as int) as char else c
  }

  function Upper(value: string): (upper: string)
    ensures |upper| == |value|
    ensures forall i :: 0 <= i < |value| ==> upper[i] == ToUpper(value[i])
  {
    seq(|value|, i requires 0 <= i < |value| => ToUpper(value[i]))
  }

  method UpperCopy(value: string) returns (normalized: string)
    ensures normalized == Upper(value)
  {
    normalized := value;
    for i := 0 to |normalized|
      invariant |normalized| == |value|
      invariant forall j :: 0 <= j < i ==> normalized[j] == ToUpper(value[j])
      invariant forall j :: i <= j < |value| ==> normalized[j] == value[j]
    {
      normalized := normalized[i := ToUpper(normalized[i])];
    }
  }

  /** Text from the first byte that is not a space on. */
  function DropSpaces(text: string): (rest: string)
    ensures |rest| <= |text|
    ensures rest == "" || rest[0] != ' '
  {
    if text != "" && text[0] == ' ' then DropSpaces(text[1..]) else text
  }

  /** Length of the longest prefix without a space. */
  function TokenLength(text: string): (n: nat)
    ensures n <= |text|
    ensures n < |text| ==> text[n] == ' '
    ensures ' ' !in text[..n]
  {
    if text == "" || text[0] == ' ' then 0 else 1 + TokenLength(text[1..])
  }

  datatype ParamList = ParamList(params: seq<string>, hasTrailing: bool)

  function ParseParams(text: string): ParamList
    decreases |text|
  {
    var rest := DropSpaces(text);
    if rest == "" then ParamList([], false)
    else if rest[0] == ':' then ParamList([rest[1..]], true)
    else
      var n := TokenLength(rest);
      var more := ParseParams(rest[n..]);
      ParamList([rest[..n]] + more.params, more.hasTrailing)
  }

  function ParseCommand(text: string, prefix: string): IrcMessage {
    var n := TokenLength(text);
    var list := ParseParams(text[n..]);
    IrcMessage(Upper(text[..n]), list.params, prefix, list.hasTrailing)
  }

  /** A line whose leading spaces are gone. */
  function ParseText(text: string): Result<IrcMessage, ParseError> {
    if text == "" then Failure(EmptyLine)
    else if text[0] == ':' then
      var n := TokenLength(text[1..]);
      var rest := DropSpaces(text[1 + n..]);
      if rest == "" then Failure(MissingCommandAfterPrefix)
      else Success(ParseCommand(rest, text[1..1 + n]))
    else Success(ParseCommand(text, ""))
  }

  /** The specification of MessageParser::parse. */
  function Parse(line: string): (r: Result<IrcMessage, ParseError>) {
    if !LineSafe(line) then Failure(UnsafeCharacter)
    else ParseText(DropSpaces(line))
  }

  method SkipSpaces(line: string, start: nat) returns (cursor: nat)
    requires start <= |line|
    ensures start <= cursor <= |line|
    ensures line[cursor..] == DropSpaces(line[start..])
    ensures start < |line| && line[start] != ' ' ==> cursor == start
  {
    cursor := start;
    while cursor < |line| && line[cursor] == ' '
      invariant start <= cursor <= |line|
      invariant DropSpaces(line[cursor..]) == DropSpaces(line[start..])
      invariant start < |line| && line[start] != ' ' ==> cursor == start
    {
      assert line[cursor..][1..] == line[cursor + 1..];
      cursor := cursor + 1;
    }
  }

  method SkipToken(line: string, start: nat) returns (cursor: nat)
    requires start <= |line|
    ensures start <= cursor <= |line|
    ensures cursor == start + TokenLength(line[start..])
  {
    cursor := start;
    while cursor < |line| && line[cursor] != ' '
      invariant start <= cursor <= |line|
      invariant cursor + TokenLength(line[cursor..]) == start + TokenLength(line[start..])
    {
      assert line[cursor..][1..] == line[cursor + 1..];
      cursor := cursor + 1;
    }
  }

  /** Reading one middle parameter off a text whose spaces are gone. */
  lemma ParseParamsStep(text: string, rest: string)
    requires rest == DropSpaces(text) && rest != "" && rest[0] != ':'
    ensures var n := TokenLength(rest);
            && n > 0
            && ParseParams(text).params == [rest[..n]] + ParseParams(rest[n..]).params
            && ParseParams(text).hasTrailing == ParseParams(rest[n..]).hasTrailing
  {
  }

  lemma ParseParamsStop(text: string, rest: string)
    requires rest == DropSpaces(text) && (rest == "" || rest[0] == ':')
    ensures ParseParams(text) == if rest == "" then ParamList([], false) else ParamList([rest[1..]], true)
  {
  }

  /** The parameter loop of MessageParser::parse. */
  method CollectParams(line: string, start: nat) returns (params: seq<string>, hasTrailing: bool)
    requires start <= |line|
    ensures ParamList(params, hasTrailing) == ParseParams(line[start..])
  {
    hide ParseParams, DropSpaces, TokenLength;
    var cursor := start;
    params, hasTrailing := [], false;
    ghost var list := ParseParams(line[start..]);
    while cursor < |line|
      invariant cursor <= |line|
      invariant !hasTrailing
      invariant list.params == params + ParseParams(line[cursor..]).params
      invariant list.hasTrailing == ParseParams(line[cursor..]).hasTrailing
      decreases |line| - cursor
    {
      ghost var text := line[cursor..];
      cursor := SkipSpaces(line, cursor);
      ghost var rest := line[cursor..];
      if cursor == |line| {
        ParseParamsStop(text, rest);
        return;
      }
      if line[cursor] == ':' {
        ParseParamsStop(text, rest);
        assert rest[1..] == line[cursor + 1..];
        return params + [line[cursor + 1..]], true;
      }
      ParseParamsStep(text, rest);
      var paramStart := cursor;
      cursor := SkipToken(line, cursor);
      assert rest[..TokenLength(rest)] == line[paramStart..cursor];
      assert rest[TokenLength(rest)..] == line[cursor..];
      params := params + [line[paramStart..cursor]];
    }
    assert line[cursor..] == "";
    ParseParamsNone();
  }

  lemma ParseParamsNone()
    ensures ParseParams("") == ParamList([], false)
  {
  }

  /** The command at `start`, where the line has no space, and the parameters after it. */
  method ReadCommand(line: string, start: nat, prefix: string) returns (m: IrcMessage)
    requires start < |line| && line[start] != ' '
    ensures m == ParseCommand(line[start..], prefix)
  {
    ghost var body := line[start..];
    var cursor := SkipToken(line, start);
    if cursor == start {
      assert false;  // the "missing IRC command" branch cannot be reached
    }
    ghost var n := TokenLength(body);
    assert line[start..cursor] == body[..n];
    assert line[cursor..] == body[n..];
    var command := UpperCopy(line[start..cursor]);
    var params, hasTrailing := CollectParams(line, cursor);
    m := IrcMessage(command, params, prefix, hasTrailing);
  }

  /** The prefix after the ':' at `start - 1`, and where the command begins. */
  method ReadPrefix(line: string, start: nat) returns (prefix: string, command: nat)
    requires start <= |line|
    ensures start <= command <= |line|
    ensures var text := line[start..];
            prefix == text[..TokenLength(text)] && line[command..] == DropSpaces(text[TokenLength(text)..])
  {
    var prefixEnd := SkipToken(line, start);
    prefix := line[start..prefixEnd];
    command := SkipSpaces(line, prefixEnd);
    assert line[start..][TokenLength(line[start..])..] == line[prefixEnd..];
  }

  /** MessageParser::parse: one cursor advanced through nested loops. */
  method ParseLine(line: string) returns (r: Result<IrcMessage, ParseError>)
    ensures r == Parse(line)
  {
    if !LineSafe(line) {
      return Failure(UnsafeCharacter);
    }
    var cursor := SkipSpaces(line, 0);
    assert line[0..] == line;
    if cursor == |line| {
      return Failure(EmptyLine);
    }
    ghost var text := line[cursor..];
    var prefix := "";
    if line[cursor] == ':' {
      assert text[1..] == line[cursor + 1..];
      SplitAfterColon(text);
      prefix, cursor := ReadPrefix(line, cursor + 1);
      if cursor == |line| {
        return Failure(MissingCommandAfterPrefix);
      }
    }
    var message := ReadCommand(line, cursor, prefix);
    return Success(message);
  }

  lemma SplitAfterColon(text: string)
    requires text != ""
    ensures var n := TokenLength(text[1..]);
            text[1..1 + n] == text[1..][..n] && text[1 + n..] == text[1..][n..]
  {
  }
}
