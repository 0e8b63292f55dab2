// CommandDispatcher::splitCommaSeparatedValues: the channel and key lists of JOIN and PART.
module CommaList {

  /** Position of the first comma, or the length when there is none. */
  function FirstComma(text: string): (n: nat)
    ensures n <= |text|
    ensures n < |text| ==> text[n] == ','
    ensures ',' !in text[..n]
  {
    if text == "" || text[0] == ',' then 0 else 1 + FirstComma(text[1..])
  }

  function SplitCommas(text: string): (values: seq<string>)
    ensures |values| >= 1
    decreases |text|
  {
    var n := FirstComma(text);
    if n == |text| then [text] else [text[..n]] + SplitCommas(text[n + 1..])
  }

  method FindComma(text: string, start: nat) returns (position: nat)
    requires start <= |text|
    ensures position == start + FirstComma(text[start..])
  {
    position := start;
    while position < |text| && text[position] != ','
      invariant start <= position <= |text|
      invariant position + FirstComma(text[position..]) == start + FirstComma(text[start..])
    {
      assert text[position..][1..] == text[position + 1..];
      position := position + 1;
    }
  }

  method SplitCommaSeparatedValues(valueList: string) returns (values: seq<string>)
    ensures values == SplitCommas(valueList)
  {
    values := [];
    var valueStart := 0;
    assert valueList[0..] == valueList;
    while true
      invariant valueStart <= |valueList|
      invariant SplitCommas(valueList) == values + SplitCommas(valueList[valueStart..])
      decreases |valueList| - valueStart
    {
      ghost var left := valueList[valueStart..];
      var commaPosition := FindComma(valueList, valueStart);
      if commaPosition == |valueList| {
        values := values + [valueList[valueStart..]];
        break;
      }
      ghost var rest := SplitCommas(left[FirstComma(left) + 1..]);
      assert left[..FirstComma(left)] == valueList[valueStart..commaPosition];
      assert left[FirstComma(left) + 1..] == valueList[commaPosition + 1..];
      assert values + ([left[..FirstComma(left)]] + rest) == values + [left[..FirstComma(left)]] + rest;
      values := values + [valueList[valueStart..commaPosition]];
      valueStart := commaPosition + 1;
    }
  }

  function JoinCommas(values: seq<string>): string {
    if values == [] then ""
    else if |values| == 1 then values[0]
    else values[0] + "," + JoinCommas(values[1..])
  }

  /** Nothing is lost, empty entries included, and no value contains a comma. */
  lemma {:induction false} SplitThenJoin(text: string)
    ensures JoinCommas(SplitCommas(text)) == text
    ensures forall v :: v in SplitCommas(text) ==> ',' !in v
    decreases |text|
  {
    var n := FirstComma(text);
    if n == |text| {
      assert text[..n] == text;
    } else {
      var rest := SplitCommas(text[n + 1..]);
      SplitThenJoin(text[n + 1..]);
      assert ([text[..n]] + rest)[1..] == rest;
      assert text == text[..n] + "," + text[n + 1..];
    }
  }

  lemma {:induction false} FirstCommaOf(value: string, rest: string)
    requires ',' !in value
    requires rest == "" || rest[0] == ','
    ensures FirstComma(value + rest) == |value|
  {
    if value == "" {
      assert value + rest == rest;
    } else {
      assert (value + rest)[1..] == value[1..] + rest;
      FirstCommaOf(value[1..], rest);
    }
  }

  /** Values without commas come back as they were listed, position by position. */
  lemma {:induction false} JoinThenSplit(values: seq<string>)
    requires values != [] && forall v :: v in values ==> ',' !in v
    ensures SplitCommas(JoinCommas(values)) == values
  {
    var first := values[0];
    assert first in values;
    if |values| == 1 {
      FirstCommaOf(first, "");
      assert first + "" == first;
      assert values == [first];
    } else {
      var rest := "," + JoinCommas(values[1..]);
      assert JoinCommas(values) == first + rest;
      FirstCommaOf(first, rest);
      assert (first + rest)[..|first|] == first;
      assert (first + rest)[|first| + 1..] == JoinCommas(values[1..]);
      JoinThenSplit(values[1..]);
      assert values == [first] + values[1..];
    }
  }
}
