// parsePositiveUserLimit and formatUserLimit of CommandDispatcher.cpp: the
// decimal argument of MODE +l, held in a 64-bit std::size_t.
module UserLimit {
  import opened Results

  const SIZE_MAX: nat := 0xFFFF_FFFF_FFFF_FFFF
  newtype size_t = x: int | 0 <= x <= 0xFFFF_FFFF_FFFF_FFFF

  predicate IsDigit(c: char) {
    '0' <= c <= '9'
  }

  predicate AllDigits(text: string) {
    forall i :: 0 <= i < |text| ==> IsDigit(text[i])
  }

  function DigitValue(c: char): (d: nat)
    requires IsDigit(c)
    ensures d <= 9
  {
    c as int - '0' as int
  }

  function Digit(d: nat): (c: char)
    requires d <= 9
    ensures IsDigit(c) && DigitValue(c) == d
  {
    ('0' as int + d) as char
  }

  /** The number a digit string denotes. */
  function Value(text: string): nat
    requires AllDigits(text)
  {
    if text == "" then 0
    else 10 * Value(text[..|text| - 1]) + DigitValue(text[|text| - 1])
  }

  /** Exactly the digit strings whose value lies in 1..SIZE_MAX are limits. */
  function ParseLimit(text: string): Option<nat> {
    if AllDigits(text) && 1 <= Value(text) <= SIZE_MAX then Some(Value(text)) else None
  }

  lemma {:induction false} ValueGrows(text: string, i: nat)
    requires AllDigits(text) && i <= |text|
    ensures Value(text[..i]) <= Value(text)
  {
    if i == |text| {
      assert text[..i] == text;
    } else {
      var shorter := text[..|text| - 1];
      assert text[..i] == shorter[..i];
      ValueGrows(shorter, i);
    }
  }

  /** The loop of parsePositiveUserLimit; `value` and its update stay inside size_t. */
  method ParsePositiveUserLimit(text: string) returns (r: Option<nat>)
    ensures r == ParseLimit(text)
  {
    if text == "" {
      return None;
    }
    var maximumValue: size_t := 0xFFFF_FFFF_FFFF_FFFF;
    var value: size_t := 0;
    for index := 0 to |text|
      invariant AllDigits(text[..index])
      invariant value as int == Value(text[..index])
    {
      var character := text[index];
      if !IsDigit(character) {
        return None;
      }
      var digit := DigitValue(character) as size_t;
      assert text[..index + 1][..index] == text[..index];
      if value > maximumValue / 10 || (value == maximumValue / 10 && digit > maximumValue % 10) {
        if AllDigits(text) {
          ValueGrows(text, index + 1);
        }
        return None;
      }
      value := value * 10 + digit;
    }
    assert text[..|text|] == text;
    if value == 0 {
      return None;
    }
    return Some(value as nat);
  }

  /** What an ostringstream prints for an unsigned number. */
  function Format(n: nat): (text: string)
    ensures text != "" && AllDigits(text)
    ensures Value(text) == n
    ensures |text| > 1 ==> text[0] != '0'
  {
    if n < 10 then
      assert [Digit(n)][..0] == "";
      [Digit(n)]
    else
      var head := Format(n / 10);
      var text := head + [Digit(n % 10)];
      assert text[..|text| - 1] == head;
      assert Value(head) == n / 10;
      assert |head| == 1 ==> DigitValue(head[0]) == n / 10 by {
        if |head| == 1 { assert head[..0] == ""; }
      }
      text
  }

  /** Parsing inverts formatting on every limit a channel can hold. */
  lemma FormatParses(n: nat)
    requires 1 <= n <= SIZE_MAX
    ensures ParseLimit(Format(n)) == Some(n)
  {
  }

  predicate NoLeadingZero(text: string) {
    text != "" && (|text| > 1 ==> text[0] != '0')
  }

  lemma {:induction false} PositiveHead(text: string)
    requires AllDigits(text) && text != "" && text[0] != '0'
    ensures Value(text) > 0
  {
    if |text| > 1 {
      PositiveHead(text[..|text| - 1]);
    } else {
      assert text[..0] == "";
    }
  }

  /** Formatting inverts parsing exactly on the strings without leading zeros. */
  lemma {:induction false} FormatOfValue(text: string)
    requires AllDigits(text) && text != ""
    ensures Format(Value(text)) == text <==> NoLeadingZero(text)
  {
    var head := text[..|text| - 1];
    if |text| == 1 {
      assert head == "";
    } else if text[0] != '0' {
      FormatOfValue(head);
      PositiveHead(head);
      assert Value(text) / 10 == Value(head);
      assert text == head + [Digit(Value(text) % 10)];
    }
  }

  /** The base is ten. */
  lemma Decimal(tens: char, units: char)
    requires IsDigit(tens) && IsDigit(units) && tens != '0'
    ensures var n := 10 * (tens as int - 48) + (units as int - 48);
            ParseLimit([tens, units]) == Some(n) && Format(n) == [tens, units]
  {
    var text := [tens, units];
    assert text[..1] == [tens] && [tens][..0] == "";
    assert Value([tens]) == DigitValue(tens);
    assert Value(text) == 10 * DigitValue(tens) + DigitValue(units);
    FormatOfValue(text);
  }
}
