// The packing of displayed nicknames into RPL_NAMREPLY payloads
// (Server::sendChannelNames).
module Names {
  import opened Results

  /** Append one name to a payload, with the separating space. */
  function Add(current: string, name: string): string {
    if current == "" then name else current + " " + name
  }

  predicate Overflows(current: string, name: string, budget: nat) {
    current != "" && |current| + 1 + |name| > budget
  }

  /** The payloads still to be sent, given the one being filled. */
  function Pack(current: string, names: seq<string>, budget: nat): seq<string>
    decreases |names|
  {
    if names == [] then
      if current == "" then [] else [current]
    else if Overflows(current, names[0], budget) then
      [current] + Pack(names[0], names[1..], budget)
    else
      Pack(Add(current, names[0]), names[1..], budget)
  }

  function Join(words: seq<string>): string {
    if words == [] then ""
    else if |words| == 1 then words[0]
    else words[0] + " " + Join(words[1..])
  }

  /** The words of a text, separated by single spaces; the empty text has none. */
  function Words(text: string): seq<string> {
    if text == "" then [] else WordsFrom("", text)
  }

  function WordsFrom(word: string, text: string): seq<string>
    decreases |text|
  {
    if text == "" then [word]
    else if text[0] == ' ' then [word] + WordsFrom("", text[1..])
    else WordsFrom(word + [text[0]], text[1..])
  }

  predicate Name(name: string) {
    name != "" && ' ' !in name
  }

  predicate AllNames(names: seq<string>) {
    forall n :: n in names ==> Name(n)
  }

  // ------------------------------------------------------------------
  // Nothing lost, nothing repeated, order kept
  // ------------------------------------------------------------------

  lemma {:induction false} WordsFromWord(word: string, name: string, rest: string)
    requires ' ' !in name
    ensures WordsFrom(word, name + rest) == WordsFrom(word + name, rest)
    decreases |name|
  {
    if name == "" {
      assert name + rest == rest && word + name == word;
    } else {
      assert (name + rest)[1..] == name[1..] + rest;
      assert word + [name[0]] + name[1..] == word + name;
      WordsFromWord(word + [name[0]], name[1..], rest);
    }
  }

  /** Joining is undone by splitting at the spaces, so each name is there once. */
  lemma {:induction false} WordsOfJoin(names: seq<string>)
    requires AllNames(names)
    ensures Words(Join(names)) == names
  {
    if names != [] {
      assert names[0] in names;
    }
    if |names| == 1 {
      assert names[0] + "" == names[0];
      WordsFromWord("", names[0], "");
      assert "" + names[0] == names[0];
      assert names == [names[0]];
    } else if |names| > 1 {
      var rest := " " + Join(names[1..]);
      assert Join(names) == names[0] + rest;
      WordsFromWord("", names[0], rest);
      assert "" + names[0] == names[0];
      assert rest[1..] == Join(names[1..]);
      assert names[1] in names;
      assert Join(names[1..]) != "";
      WordsOfJoin(names[1..]);
      assert names == [names[0]] + names[1..];
    }
  }

  lemma {:induction false} JoinCons(word: string, words: seq<string>)
    requires word != "" && AllNames(words)
    ensures Join([word] + words) == if words == [] then word else word + " " + Join(words)
    ensures words != [] ==> Join(words) != ""
  {
    assert ([word] + words)[1..] == words;
    if words != [] {
      assert words[0] in words;
    }
  }

  predicate NonEmpty(payloads: seq<string>) {
    forall p :: p in payloads ==> p != ""
  }

  lemma {:induction false} PackJoins(current: string, names: seq<string>, budget: nat)
    requires AllNames(names)
    ensures NonEmpty(Pack(current, names, budget))
    ensures Join(Pack(current, names, budget)) ==
            if current == "" then Join(names)
            else if names == [] then current
            else current + " " + Join(names)
    decreases |names|
  {
    if names != [] {
      var next := names[0];
      assert next in names;
      assert names == [next] + names[1..];
      JoinCons(next, names[1..]);
      if Overflows(current, next, budget) {
        PackJoins(next, names[1..], budget);
        var more := Pack(next, names[1..], budget);
        assert more != [];
        assert ([current] + more)[1..] == more;
        assert Join(more) == Join(names);
      } else {
        PackJoins(Add(current, next), names[1..], budget);
        if current != "" && |names| > 1 {
          assert current + " " + next + " " + Join(names[1..]) == current + " " + Join(names);
        }
      }
    }
  }

  // ------------------------------------------------------------------
  // Sizes
  // ------------------------------------------------------------------

  lemma {:induction false} PackFits(current: string, names: seq<string>, budget: nat)
    requires |current| <= budget
    requires forall n :: n in names ==> |n| <= budget
    ensures forall p :: p in Pack(current, names, budget) ==> |p| <= budget
    decreases |names|
  {
    if names != [] {
      assert names[0] in names;
      if Overflows(current, names[0], budget) {
        PackFits(names[0], names[1..], budget);
      } else {
        PackFits(Add(current, names[0]), names[1..], budget);
      }
    }
  }

  /** A name over the budget shows up in a payload over the budget. */
  lemma {:induction false} OversizedShows(current: string, names: seq<string>, budget: nat)
    requires |current| > budget || exists n :: n in names && |n| > budget
    ensures exists p :: p in Pack(current, names, budget) && |p| > budget
    decreases |names|
  {
    if names == [] {
      assert current in Pack(current, names, budget);
    } else if Overflows(current, names[0], budget) {
      var more := Pack(names[0], names[1..], budget);
      if |current| > budget {
        assert current in Pack(current, names, budget);
      } else {
        var n :| n in names && |n| > budget;
        assert n == names[0] || n in names[1..];
        OversizedShows(names[0], names[1..], budget);
        var p :| p in more && |p| > budget;
        assert p in Pack(current, names, budget);
      }
    } else {
      if |current| <= budget {
        var n :| n in names && |n| > budget;
        assert n == names[0] || n in names[1..];
      }
      OversizedShows(Add(current, names[0]), names[1..], budget);
    }
  }

  /** The first word of a payload, which is the name that did not fit before it. */
  function FirstWord(text: string): string {
    if text == "" || text[0] == ' ' then "" else [text[0]] + FirstWord(text[1..])
  }

  lemma {:induction false} FirstWordOf(name: string, rest: string)
    requires ' ' !in name
    requires rest == "" || rest[0] == ' '
    ensures FirstWord(name + rest) == name
  {
    if name == "" {
      assert name + rest == rest;
    } else {
      assert (name + rest)[1..] == name[1..] + rest;
      FirstWordOf(name[1..], rest);
    }
  }

  lemma FirstWordKept(current: string, name: string)
    requires current != "" && current[0] != ' '
    ensures FirstWord(Add(current, name)) == FirstWord(current)
  {
    FirstWordAppend(current, " " + name);
    assert current + (" " + name) == Add(current, name);
  }

  lemma {:induction false} FirstWordAppend(text: string, rest: string)
    requires rest != "" && rest[0] == ' '
    ensures FirstWord(text + rest) == FirstWord(text)
  {
    if text == "" {
      assert text + rest == rest;
    } else {
      assert (text + rest)[1..] == text[1..] + rest;
      FirstWordAppend(text[1..], rest);
    }
  }

  predicate BreaksForced(payloads: seq<string>, budget: nat) {
    forall i :: 0 <= i < |payloads| - 1 ==>
      |payloads[i]| + 1 + |FirstWord(payloads[i + 1])| > budget
  }

  lemma {:induction false} PackBreaks(current: string, names: seq<string>, budget: nat)
    requires AllNames(names)
    requires current == "" || current[0] != ' '
    ensures BreaksForced(Pack(current, names, budget), budget)
    ensures current != "" ==>
              Pack(current, names, budget) != [] && FirstWord(Pack(current, names, budget)[0]) == FirstWord(current)
    decreases |names|
  {
    if names != [] {
      var next := names[0];
      assert next in names;
      FirstWordOf(next, "");
      assert next + "" == next;
      if Overflows(current, next, budget) {
        PackBreaks(next, names[1..], budget);
        var more := Pack(next, names[1..], budget);
        forall i | 0 <= i < |more|
          ensures |([current] + more)[i]| + 1 + |FirstWord(([current] + more)[i + 1])| > budget
        {
          if i > 0 {
            assert ([current] + more)[i] == more[i - 1] && ([current] + more)[i + 1] == more[i];
          }
        }
      } else {
        if current != "" {
          FirstWordKept(current, next);
        }
        PackBreaks(Add(current, next), names[1..], budget);
      }
    }
  }

  /**
   * NAMES packing: the payloads read one after another give exactly the names,
   * each once and in order; every payload fits the budget exactly when every
   * name does; and each break is forced, because the next name did not fit.
   */
  lemma PackingIsExact(names: seq<string>, budget: nat)
    requires AllNames(names)
    ensures var payloads := Pack("", names, budget);
            && Words(Join(payloads)) == names
            && ((forall p :: p in payloads ==> |p| <= budget) <==> (forall n :: n in names ==> |n| <= budget))
            && BreaksForced(payloads, budget)
  {
    PackJoins("", names, budget);
    WordsOfJoin(names);
    PackBreaks("", names, budget);
    if forall n :: n in names ==> |n| <= budget {
      PackFits("", names, budget);
    } else {
      OversizedShows("", names, budget);
    }
  }
}
