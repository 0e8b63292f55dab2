// src/IrcCasemap.cpp: the case folding behind every nickname and channel key.
// A `char` stands for one byte; only ASCII constants are ever compared.
module IrcCasemap {

  /** One byte under the rfc1459 casemap. */
  function ToLower(c: char): char {
    if 'A' <= c <= 'Z' then (c as int - 'A' as int + 'a' as int) as char
    else if c == '[' then '{'
    else if c == ']' then '}'
    else if c == '\\' then '|'
    else if c == '~' then '^'
    else c
  }

  function Normalize(value: string): (normalized: string)
    ensures |normalized| == |value|
    ensures forall i :: 0 <= i < |value| ==> normalized[i] == ToLower(value[i])
  {
    seq(|value|, i requires 0 <= i < |value| => ToLower(value[i]))
  }

  /** The loop of IrcCasemap::normalize, which rewrites a copy in place. */
  method NormalizeCopy(value: string) returns (normalized: string)
    ensures normalized == Normalize(value)
  {
    normalized := value;
    for i := 0 to |normalized|
      invariant |normalized| == |value|
      invariant forall j :: 0 <= j < i ==> normalized[j] == ToLower(value[j])
      invariant forall j :: i <= j < |value| ==> normalized[j] == value[j]
    {
      normalized := normalized[i := ToLower(normalized[i])];
    }
  }

  predicate Equal(left: string, right: string) {
    Normalize(left) == Normalize(right)
  }

  /**
   * The character pairs that section 2.2 of RFC 2812 declares equivalent,
   * written as a relation that does not mention folding.
   */
  predicate SameLetter(a: char, b: char) {
    || a == b
    || (a, b) in CASE_PAIRS
    || (b, a) in CASE_PAIRS
    || ('A' <= a <= 'Z' && b as int == a as int + 32)
    || ('A' <= b <= 'Z' && a as int == b as int + 32)
  }

  const CASE_PAIRS: set<(char, char)> := {('[', '{'), (']', '}'), ('\\', '|'), ('~', '^')}

  /** Folding identifies exactly the strings that the RFC's relation identifies. */
  lemma EqualIsLetterwise(left: string, right: string)
    ensures Equal(left, right) <==>
            |left| == |right| && forall i :: 0 <= i < |left| ==> SameLetter(left[i], right[i])
  {
  }

  /** A key that has been normalized once is found again under itself. */
  lemma NormalizeIdempotent(value: string)
    ensures Normalize(Normalize(value)) == Normalize(value)
    ensures Equal(value, Normalize(value))
  {
  }
}
