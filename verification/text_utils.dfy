/** TextUtils: joining words with spaces and the two accent clean-ups every
    generated e-mail address goes through. */
module TextUtils {
  import opened Chars

  const SHARP_S: char := 'ß'
  const L_STROKE: char := 'ł'
  const CAPITAL_L_STROKE: char := 'Ł'

  /** joinWithSpace: the parts with one space between neighbours. */
  function JoinWithSpace(parts: seq<string>): string {
    Join(parts, " ")
  }

  /** Joined parts are as long as the parts together plus one space per gap. */
  lemma {:induction false} JoinWithSpaceLength(parts: seq<string>)
    requires parts != []
    ensures |JoinWithSpace(parts)| == TotalLength(parts) + |parts| - 1
    decreases |parts|
  {
    if |parts| > 1 {
      JoinWithSpaceLength(parts[1..]);
    }
  }

  /** Parts without spaces give a string with exactly one space per gap. */
  lemma {:induction false} JoinWithSpaceSpaces(parts: seq<string>)
    requires parts != []
    requires forall i :: 0 <= i < |parts| ==> ' ' !in parts[i]
    ensures Occurrences(JoinWithSpace(parts), ' ') == |parts| - 1
    decreases |parts|
  {
    if |parts| > 1 {
      JoinWithSpaceSpaces(parts[1..]);
      OccurrencesConcat(parts[0] + " ", JoinWithSpace(parts[1..]), ' ');
      OccurrencesConcat(parts[0], " ", ' ');
      assert Occurrences(parts[0], ' ') == 0;
    }
  }

  function TotalLength(parts: seq<string>): nat {
    if parts == [] then 0 else |parts[0]| + TotalLength(parts[1..])
  }

  lemma {:induction false} OccurrencesConcat(a: string, b: string, c: char)
    ensures Occurrences(a + b, c) == Occurrences(a, c) + Occurrences(b, c)
    decreases |a|
  {
    if a != [] {
      OccurrencesConcat(a[1..], b, c);
      assert (a + b)[1..] == a[1..] + b;
    } else {
      assert a + b == b;
    }
  }

  /** stripSharpS: every ß becomes "ss". */
  function StripSharpS(s: string): (r: string)
    ensures SHARP_S !in r
    ensures |r| == |s| + Occurrences(s, SHARP_S)
  {
    ReplaceCharLength(s, SHARP_S, "ss");
    ReplaceChar(s, SHARP_S, "ss")
  }

  /** No ß is left, so stripping twice changes nothing. */
  lemma StripSharpSIdempotent(s: string)
    ensures StripSharpS(StripSharpS(s)) == StripSharpS(s)
  {
    assert SHARP_S !in StripSharpS(s);
  }

  /** stripAccents: the library's accent stripping `strip`
      (StringUtils.stripAccents), then ł becomes l and Ł becomes L, which
      the library leaves alone. */
  function StripAccents(strip: string -> string, s: string): (r: string)
    ensures L_STROKE !in r && CAPITAL_L_STROKE !in r
  {
    var t := ReplaceChar(strip(s), L_STROKE, "l");
    ReplaceCharKeepsAbsent(t, CAPITAL_L_STROKE, "L", L_STROKE);
    ReplaceChar(t, CAPITAL_L_STROKE, "L")
  }

  /** The two replacements keep the length, and change nothing when the
      stripped string holds neither letter. */
  lemma StripAccentsOnlyStrokes(strip: string -> string, s: string)
    ensures |StripAccents(strip, s)| == |strip(s)|
    ensures L_STROKE !in strip(s) && CAPITAL_L_STROKE !in strip(s) ==> StripAccents(strip, s) == strip(s)
  {
    var t := ReplaceChar(strip(s), L_STROKE, "l");
    ReplaceCharLength(strip(s), L_STROKE, "l");
    ReplaceCharLength(t, CAPITAL_L_STROKE, "L");
  }

  /** Neither clean-up lets a ß, ł or Ł through: the form every e-mail
      address ends in. */
  predicate Cleaned(s: string) {
    SHARP_S !in s && L_STROKE !in s && CAPITAL_L_STROKE !in s
  }

  /** stripSharpS(stripAccents(s)), as both e-mail builders apply them. */
  function Clean(strip: string -> string, s: string): (r: string)
    ensures Cleaned(r)
  {
    var t := StripAccents(strip, s);
    ReplaceCharKeepsAbsent(t, SHARP_S, "ss", L_STROKE);
    ReplaceCharKeepsAbsent(t, SHARP_S, "ss", CAPITAL_L_STROKE);
    StripSharpS(t)
  }
}
