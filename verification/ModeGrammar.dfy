// Mode strings as text: which of them parse, and how changes and settings are
// written (CommandDispatcher.cpp:1079-1130, 1267-1346).
module ModeGrammar {
  import opened Results
  import opened UserLimit
  import opened ChannelModes
  import opened ModeLaws

  // ------------------------------------------------------------------
  // Which mode strings parse
  // ------------------------------------------------------------------

  /** How many of its letters, the sign in force being `action`, take an argument. */
  function Wanted(text: string, action: Action): nat {
    if text == "" then 0
    else if text[0] == '+' then Wanted(text[1..], Add)
    else if text[0] == '-' then Wanted(text[1..], Remove)
    else
      var takes := text[0] == 'o' || (action.Add? && (text[0] == 'k' || text[0] == 'l'));
      (if takes then 1 else 0) + Wanted(text[1..], action)
  }

  /** The sign of each letter. */
  function Signs(text: string, action: Action): seq<Action> {
    if text == "" then []
    else if text[0] == '+' then Signs(text[1..], Add)
    else if text[0] == '-' then Signs(text[1..], Remove)
    else [action] + Signs(text[1..], action)
  }

  function ActionsOf(ops: seq<ModeOp>): seq<Action> {
    if ops == [] then [] else [ops[0].action] + ActionsOf(ops[1..])
  }

  predicate KnownLetters(text: string) {
    forall c :: c in WithoutSigns(text) ==> c in "itkol"
  }

  predicate Given(args: seq<string>, n: nat) {
    n <= |args| && forall j :: 0 <= j < n ==> args[j] != ""
  }

  lemma GivenStep(args: seq<string>, n: nat)
    requires args != [] && n > 0
    ensures Given(args, n) <==> args[0] != "" && Given(args[1..], n - 1)
  {
    if args[0] != "" && Given(args[1..], n - 1) {
      forall j | 0 <= j < n
        ensures args[j] != ""
      {
        if j > 0 {
          assert args[j] == args[1..][j - 1];
        }
      }
    }
  }

  /**
   * A mode string is accepted exactly when its letters are i, t, k, o and l and
   * there is an argument, not empty, for each o and each added k and l; then the
   * operations carry the signs in force.
   */
  lemma {:induction false} ParsesExactly(text: string, args: seq<string>, action: Action)
    ensures var r := ParseModes(text, args, action);
            && (r.Parsed? <==> KnownLetters(text) && Given(args, Wanted(text, action)))
            && (r.Parsed? ==> ActionsOf(r.ops) == Signs(text, action))
            && (r.Rejected? && r.unknown != '\0' ==> r.unknown in text && r.unknown !in "itkol+-")
  {
    if text != "" {
      if text[0] == '+' {
        ParsesExactly(text[1..], args, Add);
      } else if text[0] == '-' {
        ParsesExactly(text[1..], args, Remove);
      } else {
        assert WithoutSigns(text) == [text[0]] + WithoutSigns(text[1..]);
        assert KnownLetters(text) <==> text[0] in "itkol" && KnownLetters(text[1..]);
        assert Supported(text[0]) <==> text[0] in "itkol";
        ParsesExactly(text[1..], args, action);
        if RequiresArgument(text[0], action.Add?) && args != [] {
          ParsesExactly(text[1..], args[1..], action);
          assert Wanted(text, action) == 1 + Wanted(text[1..], action);
          GivenStep(args, Wanted(text, action));
          hide KnownLetters, Wanted, Given;
        }
      }
    }
  }

  // ------------------------------------------------------------------
  // How the settings and the changes are written
  // ------------------------------------------------------------------

  /** The settings are listed in the order i, t, k, l, and the key goes before the limit. */
  lemma QueryOrder(f: Flags)
    requires f.limitEnabled && f.keyEnabled
    ensures QueryFlags(f.(inviteOnly := true, topicRestricted := true)) == "+itkl"
    ensures QueryFlags(f.(inviteOnly := false, topicRestricted := true)) == "+tkl"
    ensures QueryArguments(f) == [f.key, Format(f.limit)]
  {
    hide Format;
  }

  function SignsOf(text: string): string {
    if text == "" then ""
    else (if text[0] == '+' || text[0] == '-' then [text[0]] else "") + SignsOf(text[1..])
  }

  /** No sign is repeated. */
  predicate Alternating(signs: string) {
    forall i :: 0 < i < |signs| ==> signs[i] != signs[i - 1]
  }

  lemma LettersStep(ops: seq<ModeOp>, sign: char)
    requires ops != [] && Supported(ops[0].mode)
    ensures var s, rest := SignOf(ops[0].action), Letters(ops[1..], SignOf(ops[0].action));
            && SignsOf(Letters(ops, sign)) == (if s != sign then [s] else "") + SignsOf(rest)
            && WithoutSigns(Letters(ops, sign)) == [ops[0].mode] + WithoutSigns(rest)
  {
    var mode, s := ops[0].mode, SignOf(ops[0].action);
    var rest := Letters(ops[1..], s);
    assert Letters(ops, sign) == if s != sign then [s] + ([mode] + rest) else [mode] + rest;
    hide Letters, SignsOf, WithoutSigns, Supported;
    LetterSigns(mode, rest);
    SignFirst(s, [mode] + rest);
    assert "" + SignsOf(rest) == SignsOf(rest);
  }

  /** A change is announced with a sign only where it differs from the one in force. */
  lemma {:induction false} SignsAlternate(ops: seq<ModeOp>, sign: char)
    requires forall op :: op in ops ==> Supported(op.mode)
    ensures var signs := SignsOf(Letters(ops, sign));
            Alternating(signs) && (signs != "" ==> signs[0] != sign)
    ensures WithoutSigns(Letters(ops, sign)) == ModesOf(ops)
  {
    if ops != [] {
      var s := SignOf(ops[0].action);
      assert ops[0] in ops;
      hide Letters, SignsOf, WithoutSigns, Supported, Alternating;
      SignsAlternate(ops[1..], s);
      LettersStep(ops, sign);
      SignInFront(s, SignsOf(Letters(ops[1..], s)));
      assert "" + SignsOf(Letters(ops[1..], s)) == SignsOf(Letters(ops[1..], s));
    }
  }

  lemma SignInFront(sign: char, signs: string)
    requires Alternating(signs) && (signs != "" ==> signs[0] != sign)
    ensures Alternating([sign] + signs)
  {
    var all := [sign] + signs;
    forall i | 0 < i < |all|
      ensures all[i] != all[i - 1]
    {
      if i > 1 {
        assert all[i] == signs[i - 1] && all[i - 1] == signs[i - 2];
      }
    }
  }

  lemma LetterSigns(mode: char, rest: string)
    requires Supported(mode)
    ensures SignsOf([mode] + rest) == SignsOf(rest) && WithoutSigns([mode] + rest) == [mode] + WithoutSigns(rest)
  {
    assert ([mode] + rest)[1..] == rest;
  }

  lemma SignFirst(sign: char, rest: string)
    requires sign == '+' || sign == '-'
    ensures SignsOf([sign] + rest) == [sign] + SignsOf(rest) && WithoutSigns([sign] + rest) == WithoutSigns(rest)
  {
    assert ([sign] + rest)[1..] == rest;
  }
}
