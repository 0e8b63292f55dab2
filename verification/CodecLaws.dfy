// What the printer and the parser promise each other.
module CodecLaws {
  import opened Results
  import opened Codec

  /** The trailing flag the wire shows: declared, or forced by the last parameter. */
  predicate PrintsTrailing(m: IrcMessage) {
    ShowsTrailing(m.params, m.hasTrailing)
  }

  predicate ShowsTrailing(params: seq<string>, hasTrailing: bool) {
    params != [] && (hasTrailing || NeedsTrailingMarker(params[|params| - 1]))
  }

  /** The message as its own wire form describes it. */
  function Printed(m: IrcMessage): IrcMessage {
    m.(hasTrailing := PrintsTrailing(m))
  }

  /** The two things the printer accepts and the parser reads differently. */
  predicate Reparsable(m: IrcMessage) {
    && Upper(m.command) == m.command
    && (m.prefix == "" ==> !(m.command != "" && m.command[0] == ':'))
  }

  /** A serialized message without its terminator. */
  function Body(wire: string): string
    requires |wire| >= 2
  {
    wire[..|wire| - 2]
  }

  // ------------------------------------------------------------------
  // Shape of the printed text
  // ------------------------------------------------------------------

  lemma {:induction false} SerializedParamsShape(params: seq<string>, hasTrailing: bool)
    ensures var r := SerializeParams(params, hasTrailing);
            r.Success? ==> LineSafe(r.value) && (r.value == "" || r.value[0] == ' ')
  {
    if params != [] && SerializeParams(params, hasTrailing).Success? {
      SerializedParamsShape(params[1..], hasTrailing);
    }
  }

  /** The wire form: a safe non-empty line within 510 bytes, then CR LF. */
  lemma SerializedShape(m: IrcMessage)
    requires Serialize(m).Success?
    ensures var wire := Serialize(m).value;
            && 2 < |wire| <= MAX_MESSAGE_LENGTH
            && wire == Body(wire) + CRLF
            && LineSafe(Body(wire))
            && SerializeParams(m.params, m.hasTrailing).Success?
            && Body(wire) == PrefixPart(m.prefix) + m.command + SerializeParams(m.params, m.hasTrailing).value
  {
    SerializedParamsShape(m.params, m.hasTrailing);
    var body := PrefixPart(m.prefix) + m.command + SerializeParams(m.params, m.hasTrailing).value;
    assert Serialize(m).value == body + CRLF;
    assert LineSafe(PrefixPart(m.prefix));
  }

  // ------------------------------------------------------------------
  // Reading back
  // ------------------------------------------------------------------

  lemma {:induction false} TokenOf(token: string, rest: string)
    requires ' ' !in token
    requires rest == "" || rest[0] == ' '
    ensures TokenLength(token + rest) == |token|
    ensures (token + rest)[..|token|] == token && (token + rest)[|token|..] == rest
  {
    if token == "" {
      assert token + rest == rest;
    } else {
      assert token[0] in token && forall c :: c in token[1..] ==> c in token;
      assert (token + rest)[1..] == token[1..] + rest;
      TokenOf(token[1..], rest);
    }
  }

  lemma LastParamRoundTrip(p: string)
    ensures ParseParams(" :" + p) == ParamList([p], true)
  {
    assert (" :" + p)[1..] == ":" + p;
    assert DropSpaces(" :" + p) == ":" + p;
    assert (":" + p)[1..] == p;
  }

  lemma MiddleParamRoundTrip(p: string, rest: string)
    requires ValidMiddle(p)
    requires rest == "" || rest[0] == ' '
    ensures ParseParams(" " + p + rest).params == [p] + ParseParams(rest).params
    ensures ParseParams(" " + p + rest).hasTrailing == ParseParams(rest).hasTrailing
  {
    var text := " " + p + rest;
    assert text[1..] == p + rest;
    assert DropSpaces(text) == p + rest;
    TokenOf(p, rest);
    ParseParamsStep(text, p + rest);
  }

  lemma {:induction false} ParamsRoundTrip(params: seq<string>, hasTrailing: bool)
    requires SerializeParams(params, hasTrailing).Success?
    ensures ParseParams(SerializeParams(params, hasTrailing).value) ==
            ParamList(params, ShowsTrailing(params, hasTrailing))
  {
    hide ParseParams, DropSpaces, TokenLength;
    if params == [] {
      ParseParamsNone();
    } else {
      var p := params[0];
      if |params| == 1 && (hasTrailing || NeedsTrailingMarker(p)) {
        LastParamRoundTrip(p);
        assert params == [p];
      } else {
        SerializedParamsShape(params[1..], hasTrailing);
        MiddleParamRoundTrip(p, SerializeParams(params[1..], hasTrailing).value);
        ParamsRoundTrip(params[1..], hasTrailing);
        assert params == [p] + params[1..];
      }
    }
  }

  lemma CommandRoundTrip(m: IrcMessage)
    requires Serialize(m).Success?
    ensures var text := m.command + SerializeParams(m.params, m.hasTrailing).value;
            ParseCommand(text, m.prefix) == Printed(m).(command := Upper(m.command))
  {
    SerializedParamsShape(m.params, m.hasTrailing);
    TokenOf(m.command, SerializeParams(m.params, m.hasTrailing).value);
    ParamsRoundTrip(m.params, m.hasTrailing);
  }

  /** Reading a prefix: everything up to the first space, then the command. */
  lemma ReadsPrefix(prefix: string, rest: string)
    requires ' ' !in prefix
    requires rest == "" || rest[0] == ' '
    ensures ParseText(":" + prefix + rest) ==
            if DropSpaces(rest) == "" then Failure(MissingCommandAfterPrefix)
            else Success(ParseCommand(DropSpaces(rest), prefix))
  {
    var text := ":" + prefix + rest;
    assert text[1..] == prefix + rest;
    TokenOf(prefix, rest);
    assert text[1 + |prefix|..] == text[1..][|prefix|..];
    assert text[1..1 + |prefix|] == text[1..][..|prefix|];
  }

  lemma PrefixedRoundTrip(m: IrcMessage)
    requires Serialize(m).Success? && m.prefix != ""
    ensures Parse(Body(Serialize(m).value)) == Success(Printed(m).(command := Upper(m.command)))
  {
    SerializedShape(m);
    var tail := m.command + SerializeParams(m.params, m.hasTrailing).value;
    var body := Body(Serialize(m).value);
    assert body == ":" + m.prefix + (" " + tail);
    hide TokenLength, ParseParams, SerializeParams, Upper;
    ReadsPrefix(m.prefix, " " + tail);
    assert (" " + tail)[1..] == tail;
    assert DropSpaces(" " + tail) == tail;
    assert DropSpaces(body) == body;
    CommandRoundTrip(m);
  }

  lemma UnprefixedRoundTrip(m: IrcMessage)
    requires Serialize(m).Success? && m.prefix == "" && m.command[0] != ':'
    ensures Parse(Body(Serialize(m).value)) == Success(Printed(m).(command := Upper(m.command)))
  {
    SerializedShape(m);
    var body := Body(Serialize(m).value);
    assert body == m.command + SerializeParams(m.params, m.hasTrailing).value;
    CommandRoundTrip(m);
  }

  /**
   * A lone ':' for a command is read as an empty prefix, and the first
   * parameter as the command. That could only be ':' again when the parameter
   * is a trailing text opening with a space, which then comes back shorter.
   */
  lemma LoneColonMisread(params: seq<string>, hasTrailing: bool, prefix: string)
    requires SerializeParams(params, hasTrailing).Success?
    requires DropSpaces(SerializeParams(params, hasTrailing).value) != ""
    ensures var m := ParseCommand(DropSpaces(SerializeParams(params, hasTrailing).value), prefix);
            m.command != ":" || m.params != params
  {
  }

  /** A message whose bare command opens with ':' reads back as something else. */
  lemma ColonCommandMisread(m: IrcMessage)
    requires Serialize(m).Success? && m.prefix == "" && m.command[0] == ':'
    ensures Parse(Body(Serialize(m).value)) != Success(Printed(m))
  {
    SerializedShape(m);
    SerializedParamsShape(m.params, m.hasTrailing);
    var params := SerializeParams(m.params, m.hasTrailing).value;
    var body := Body(Serialize(m).value);
    assert body == ":" + m.command[1..] + params;
    ReadsPrefix(m.command[1..], params);
    if m.command == ":" && DropSpaces(params) != "" {
      LoneColonMisread(m.params, m.hasTrailing, "");
    }
  }

  /**
   * Reading back what was printed gives the same message, with the trailing
   * flag as printed, exactly when the command has no lower-case letter and an
   * unprefixed command does not open with ':'.
   */
  lemma RoundTrip(m: IrcMessage)
    requires Serialize(m).Success?
    ensures Parse(Body(Serialize(m).value)) == Success(Printed(m)) <==> Reparsable(m)
  {
    if m.prefix != "" {
      PrefixedRoundTrip(m);
    } else if m.command[0] != ':' {
      UnprefixedRoundTrip(m);
    } else {
      ColonCommandMisread(m);
    }
  }

  // ------------------------------------------------------------------
  // The command word
  // ------------------------------------------------------------------

  /** The upper-case form of a character: 32 lower for the letters a to z, itself for any other. */
  predicate Raised(c: char, up: char) {
    if 'a' <= c <= 'z' then up as int == c as int - 32 else up == c
  }

  /** A word and its upper-case form. */
  predicate RaisedWord(word: string, up: string) {
    |up| == |word| && forall k :: 0 <= k < |word| ==> Raised(word[k], up[k])
  }

  lemma UpperRaises(word: string)
    ensures RaisedWord(word, Upper(word))
    ensures forall up :: RaisedWord(word, up) ==> up == Upper(word)
    ensures forall c :: c in Upper(word) ==> !('a' <= c <= 'z')
  {
    forall up | RaisedWord(word, up)
      ensures up == Upper(word)
    {
      forall k | 0 <= k < |word|
        ensures up[k] == Upper(word)[k]
      {
        assert Raised(word[k], up[k]);
      }
    }
  }

  predicate Blank(text: string) {
    forall c :: c in text ==> c == ' '
  }

  /** The token of a line that starts at `i` and ends before `j`. */
  predicate TokenAt(line: string, i: nat, j: nat) {
    i < j <= |line| && ' ' !in line[i..j] && (j == |line| || line[j] == ' ')
  }

  lemma {:induction false} SplitsBlank(text: string) returns (gap: string)
    ensures text == gap + DropSpaces(text) && Blank(gap)
  {
    if text != "" && text[0] == ' ' {
      var more := SplitsBlank(text[1..]);
      gap := " " + more;
      assert text == " " + text[1..];
    } else {
      gap := "";
    }
  }

  /** What precedes the command: spaces, or spaces around a prefix that opens with ':'. */
  ghost predicate Preamble(head: string, prefix: string) {
    || (Blank(head) && prefix == "")
    || exists a, b :: Blank(a) && Blank(b) && ' ' !in prefix && head == a + ":" + prefix + b
  }

  /** A text that opens with ':' is a prefix and what follows. */
  lemma SplitsPrefix(text: string) returns (prefix: string, after: string)
    requires text != "" && text[0] == ':'
    ensures text == ":" + prefix + after && ' ' !in prefix && (after == "" || after[0] == ' ')
    ensures ParseText(text) ==
            if DropSpaces(after) == "" then Failure(MissingCommandAfterPrefix)
            else Success(ParseCommand(DropSpaces(after), prefix))
  {
    var n := TokenLength(text[1..]);
    prefix, after := text[1..][..n], text[1..][n..];
    assert text == ":" + prefix + after;
    ReadsPrefix(prefix, after);
  }

  /** The command begins behind the preamble. */
  lemma CommandBegins(line: string) returns (head: string, text: string)
    requires Parse(line).Success?
    ensures line == head + text && text != "" && text[0] != ' '
    ensures Parse(line).value == ParseCommand(text, Parse(line).value.prefix)
    ensures Preamble(head, Parse(line).value.prefix)
  {
    hide ParseCommand, TokenLength;
    var blank := SplitsBlank(line);
    text := DropSpaces(line);
    head := blank;
    if text[0] == ':' {
      var prefix, after := SplitsPrefix(text);
      var gap := SplitsBlank(after);
      NamesItsPrefix(DropSpaces(after), prefix);
      Regroup(blank, prefix, gap, DropSpaces(after));
      head := blank + ":" + prefix + gap;
      text := DropSpaces(after);
    } else {
      NamesItsPrefix(text, "");
    }
  }

  lemma Regroup(blank: string, prefix: string, gap: string, text: string)
    ensures blank + (":" + prefix + (gap + text)) == blank + ":" + prefix + gap + text
  {
  }

  lemma NamesItsPrefix(text: string, prefix: string)
    ensures ParseCommand(text, prefix).prefix == prefix
  {
  }

  lemma ReadsCommand(head: string, text: string, prefix: string)
    requires text != "" && text[0] != ' '
    ensures var m, i, j := ParseCommand(text, prefix), |head|, |head| + TokenLength(text);
            TokenAt(head + text, i, j) && RaisedWord((head + text)[i..j], m.command)
  {
    var n := TokenLength(text);
    assert (head + text)[|head|..|head| + n] == text[..n];
    UpperRaises(text[..n]);
  }

  /**
   * The command of an accepted line is a token of it, behind spaces or a prefix,
   * with its letters a to z raised to A to Z and nothing else changed.
   */
  lemma CommandIsRaised(line: string)
    requires Parse(line).Success?
    ensures var m := Parse(line).value;
            && (forall c :: c in m.command ==> !('a' <= c <= 'z'))
            && exists i: nat, j: nat ::
                 TokenAt(line, i, j) && RaisedWord(line[i..j], m.command) && Preamble(line[..i], m.prefix)
  {
    hide Parse, Preamble, TokenLength, RaisedWord;
    var head, text := CommandBegins(line);
    ReadsCommand(head, text, Parse(line).value.prefix);
    assert line[..|head|] == head;
    NoLowerCase(text, Parse(line).value.prefix);
  }

  lemma NoLowerCase(text: string, prefix: string)
    ensures forall c :: c in ParseCommand(text, prefix).command ==> !('a' <= c <= 'z')
  {
    UpperRaises(text[..TokenLength(text)]);
  }

  /** Any mixture of cases is read as the same command. */
  lemma EverySpelling(word: string, spelling: string, rest: string)
    requires spelling != "" && spelling[0] != ':' && ' ' !in spelling && RaisedWord(spelling, word)
    requires rest == "" || rest[0] == ' '
    requires LineSafe(spelling + rest)
    ensures Parse(spelling + rest).Success? && Parse(spelling + rest).value.command == word
    ensures Parse(spelling + rest).value.params == ParseParams(rest).params
    ensures Parse(spelling + rest).value.prefix == ""
  {
    TokenOf(spelling, rest);
    UpperRaises(spelling);
    assert DropSpaces(spelling + rest) == spelling + rest;
  }

  lemma {:induction false} BlankDropped(blank: string, text: string)
    requires Blank(blank) && (text == "" || text[0] != ' ')
    ensures DropSpaces(blank + text) == text
  {
    if blank == "" {
      assert blank + text == text;
    } else {
      assert blank[0] in blank;
      assert forall c :: c in blank[1..] ==> c in blank;
      assert (blank + text)[1..] == blank[1..] + text;
      BlankDropped(blank[1..], text);
    }
  }

  /** A prefix with nothing behind it. */
  lemma PrefixAlone(a: string, prefix: string, b: string)
    requires Blank(a) && Blank(b) && ' ' !in prefix
    ensures Parse(a + ":" + prefix + b).Failure?
  {
    var text := ":" + prefix + b;
    assert a + ":" + prefix + b == a + text;
    BlankDropped(a, text);
    if b != "" {
      assert b[0] in b;
    }
    ReadsPrefix(prefix, b);
    assert b + "" == b;
    BlankDropped(b, "");
  }

  /** Which lines are refused: unsafe ones, and those with at most a prefix between their spaces. */
  lemma ParsesExactly(line: string)
    ensures Parse(line).Success? <==> LineSafe(line) && !exists prefix :: Preamble(line, prefix)
  {
    hide TokenLength, ParseCommand;
    var blank := SplitsBlank(line);
    var text := DropSpaces(line);
    if text == "" {
      assert blank + "" == blank;
      assert Preamble(line, "");
    } else if text[0] == ':' {
      var prefix, after := SplitsPrefix(text);
      var gap := SplitsBlank(after);
      if DropSpaces(after) == "" {
        hide DropSpaces, Blank;
        assert line == blank + ":" + prefix + gap;
        assert Preamble(line, prefix);
      }
    }
    hide Parse, Preamble;
    if prefix :| Preamble(line, prefix) {
      PreambleRefused(line, prefix);
    }
  }

  lemma PreambleRefused(line: string, prefix: string)
    requires Preamble(line, prefix)
    ensures Parse(line).Failure?
  {
    if Blank(line) {
      assert line + "" == line;
      BlankDropped(line, "");
    } else {
      var a, b :| Blank(a) && Blank(b) && ' ' !in prefix && line == a + ":" + prefix + b;
      PrefixAlone(a, prefix, b);
    }
  }

  // ------------------------------------------------------------------
  // Printing what was read
  // ------------------------------------------------------------------

  /** What a parsed parameter list offers the printer, within `room` bytes. */
  predicate PrintableList(list: ParamList, room: nat) {
    && SerializeParams(list.params, list.hasTrailing).Success?
    && |SerializeParams(list.params, list.hasTrailing).value| <= room
    && (list.hasTrailing <==> ShowsTrailing(list.params, list.hasTrailing))
  }

  lemma PrintableCons(p: string, list: ParamList, room: nat)
    requires ValidMiddle(p) && PrintableList(list, room)
    ensures PrintableList(ParamList([p] + list.params, list.hasTrailing), 1 + |p| + room)
  {
  }

  lemma {:induction false} ParsedParamsPrint(text: string)
    requires LineSafe(text)
    requires text == "" || text[0] == ' '
    ensures PrintableList(ParseParams(text), |text|)
    decreases |text|
  {
    var rest := DropSpaces(text);
    DropSpacesIsSuffix(text);
    if rest != "" {
      if rest[0] == ':' {
        assert SerializeParams([rest[1..]], true) == Success(" :" + rest[1..]);
      } else {
        ParseParamsStep(text, rest);
        var n := TokenLength(rest);
        ParsedParamsPrint(rest[n..]);
        PrintableCons(rest[..n], ParseParams(rest[n..]), |rest| - n);
      }
    }
  }

  lemma {:induction false} DropSpacesIsSuffix(text: string)
    ensures DropSpaces(text) == text[|text| - |DropSpaces(text)|..]
    ensures text != "" && text[0] == ' ' ==> |DropSpaces(text)| < |text|
  {
    if text != "" && text[0] == ' ' {
      DropSpacesIsSuffix(text[1..]);
    }
  }

  lemma UpperIdempotent(value: string)
    ensures Upper(Upper(value)) == Upper(value)
  {
  }

  lemma ParsedCommandPrints(text: string, prefix: string)
    requires LineSafe(text) && text != "" && text[0] != ' '
    ensures var m := ParseCommand(text, prefix);
            && m.command != "" && ' ' !in m.command && LineSafe(m.command)
            && Upper(m.command) == m.command
            && (text[0] != ':' ==> m.command[0] != ':')
            && (m.hasTrailing ==> m.params != [])
            && SerializeParams(m.params, m.hasTrailing).Success?
            && |m.command| + |SerializeParams(m.params, m.hasTrailing).value| <= |text|
            && Printed(m) == m
  {
    var n := TokenLength(text);
    ParsedParamsPrint(text[n..]);
    UpperIdempotent(text[..n]);
    var m := ParseCommand(text, prefix);
    assert forall c :: c in m.command ==> exists i :: 0 <= i < n && m.command[i] == c == ToUpper(text[i]);
  }

  /** What a parsed message offers the printer, within `room` bytes. */
  predicate Printable(m: IrcMessage, room: nat) {
    && m.command != "" && ' ' !in m.command && LineSafe(m.command)
    && Upper(m.command) == m.command
    && LineSafe(m.prefix) && ' ' !in m.prefix
    && (m.hasTrailing ==> m.params != [])
    && SerializeParams(m.params, m.hasTrailing).Success?
    && |PrefixPart(m.prefix)| + |m.command| + |SerializeParams(m.params, m.hasTrailing).value| <= room
    && Printed(m) == m
  }

  lemma PrefixedTextPrints(prefix: string, after: string)
    requires LineSafe(prefix) && LineSafe(after) && ' ' !in prefix
    requires after != "" && after[0] == ' '
    requires DropSpaces(after) != ""
    ensures Printable(ParseCommand(DropSpaces(after), prefix), 1 + |prefix| + |after|)
  {
    DropSpacesIsSuffix(after);
    ParsedCommandPrints(DropSpaces(after), prefix);
  }

  lemma ParsedTextPrints(text: string)
    requires LineSafe(text) && ParseText(text).Success?
    requires text[0] != ' '
    ensures Printable(ParseText(text).value, |text|)
  {
    if text[0] == ':' {
      var n := TokenLength(text[1..]);
      var prefix, after := text[1..][..n], text[1..][n..];
      assert text == ":" + prefix + after;
      ReadsPrefix(prefix, after);
      PrefixedTextPrints(prefix, after);
    } else {
      ParsedCommandPrints(text, "");
    }
  }

  /** Every accepted line yields a message that prints in no more room. */
  lemma ParsedMessagePrints(line: string)
    requires Parse(line).Success?
    ensures Printable(Parse(line).value, |line|)
  {
    DropSpacesIsSuffix(line);
    ParsedTextPrints(DropSpaces(line));
  }

  /**
   * Parser canonicalisation: an accepted line that leaves room for CR LF prints
   * in at most two more bytes and reads back as the identical message, exactly
   * when its command has no tab, its prefix does not open with ':', and a
   * command without a prefix does not open with ':'.
   */
  lemma Canonicalisation(line: string)
    requires |line| <= MAX_MESSAGE_LENGTH - 2
    requires Parse(line).Success?
    ensures var m := Parse(line).value;
            var printed := Serialize(m);
            && (printed.Success? ==> 2 <= |printed.value| <= |line| + 2)
            && ((printed.Success? && Parse(Body(printed.value)) == Success(m)) <==>
                && '\t' !in m.command
                && (m.prefix != "" ==> m.prefix[0] != ':')
                && (m.prefix == "" ==> m.command[0] != ':'))
  {
    ParsedMessagePrints(line);
    var m := Parse(line).value;
    if Serialize(m).Success? {
      RoundTrip(m);
      SerializedShape(m);
    }
  }

  // ------------------------------------------------------------------
  // When the printer succeeds
  // ------------------------------------------------------------------

  /** Every parameter is safe, and all but the last are middles. */
  predicate PrintableParams(params: seq<string>) {
    && (forall i :: 0 <= i < |params| ==> LineSafe(params[i]))
    && (forall i :: 0 <= i < |params| - 1 ==> ValidMiddle(params[i]))
  }

  /** One space for each parameter, and a ':' for a trailing one. */
  function ParamsLength(params: seq<string>, hasTrailing: bool): nat {
    if params == [] then 0
    else if |params| == 1 then 1 + |params[0]| + (if hasTrailing || NeedsTrailingMarker(params[0]) then 1 else 0)
    else 1 + |params[0]| + ParamsLength(params[1..], hasTrailing)
  }

  lemma {:induction false} ParamsPrintExactly(params: seq<string>, hasTrailing: bool)
    ensures var r := SerializeParams(params, hasTrailing);
            && (r.Success? <==> PrintableParams(params))
            && (r.Success? ==> |r.value| == ParamsLength(params, hasTrailing))
  {
    if |params| > 1 {
      ParamsPrintExactly(params[1..], hasTrailing);
      hide LineSafe, ValidMiddle;
      var rest := params[1..];
      assert forall i :: 0 <= i < |rest| ==> rest[i] == params[i + 1];
      assert PrintableParams(params) <==>
             LineSafe(params[0]) && ValidMiddle(params[0]) && PrintableParams(rest) by {
        forall i | 1 <= i < |params|
          ensures params[i] == rest[i - 1]
        {
        }
      }
    }
  }

  /** The printer fails exactly on a malformed field or a line over 512 bytes. */
  lemma PrintsExactly(m: IrcMessage)
    ensures Serialize(m).Success? <==>
              && ValidCommand(m.command)
              && (m.hasTrailing ==> m.params != [])
              && (m.prefix != "" ==> ValidPrefix(m.prefix))
              && PrintableParams(m.params)
              && |PrefixPart(m.prefix)| + |m.command| + ParamsLength(m.params, m.hasTrailing) + 2 <= MAX_MESSAGE_LENGTH
  {
    ParamsPrintExactly(m.params, m.hasTrailing);
    hide SerializeParams, ParamsLength, PrintableParams, LineSafe;
  }
}
