/** The fragment of java.util.regex the identity-number validators use:
    a whole-string match (String.matches, Matcher.matches) of a sequence of
    character classes, each repeated between a lower and an upper count.
    The anchors ^ and $ add nothing under a whole-string match, a group
    `([-]?)` is an optional one-character class and an alternation of
    one-character classes is their union. */
module Regex {
  /** [a-z], [KPQS] and alternations of such classes; \d is [0-9]. */
  datatype CharClass = Range(lo: char, hi: char) | OneOf(chars: string) | Either(a: CharClass, b: CharClass)

  /** X{min,max}: the class repeated at least `min` and at most `max` times. */
  datatype Piece = Piece(cls: CharClass, min: nat, max: nat)

  type Pattern = seq<Piece>

  const DIGIT: CharClass := Range('0', '9')
  const UPPER: CharClass := Range('A', 'Z')

  predicate InClass(c: char, cls: CharClass) {
    match cls
    case Range(lo, hi) => lo <= c <= hi
    case OneOf(chars) => c in chars
    case Either(a, b) => InClass(c, a) || InClass(c, b)
  }

  /** X{n} */
  function Exactly(cls: CharClass, n: nat): Piece { Piece(cls, n, n) }

  /** X? */
  function Optional(cls: CharClass): Piece { Piece(cls, 0, 1) }

  /** The whole of `s` is matched by `p`. */
  predicate Matches(p: Pattern, s: string)
    decreases |s|, |p|, 1
  {
    if p == [] then s == [] else Repeats(p[0], p[1..], s, 0)
  }

  /** `k` repetitions of `pc` are behind; the rest of the pattern must match
      the rest of `s` after between `pc.min - k` and `pc.max - k` more. */
  predicate Repeats(pc: Piece, rest: Pattern, s: string, k: nat)
    decreases |s|, |rest| + 1, 0
  {
    (pc.min <= k && Matches(rest, s))
    || (k < pc.max && s != [] && InClass(s[0], pc.cls) && Repeats(pc, rest, s[1..], k + 1))
  }

  /** Every character of `s` is in the class. */
  predicate AllIn(s: string, cls: CharClass) {
    forall i :: 0 <= i < |s| ==> InClass(s[i], cls)
  }

  lemma {:induction false} RepeatsExactly(pc: Piece, rest: Pattern, s: string, k: nat)
    requires pc.min == pc.max && k <= pc.max
    ensures Repeats(pc, rest, s, k) <==>
              pc.max - k <= |s| && AllIn(s[..pc.max - k], pc.cls) && Matches(rest, s[pc.max - k..])
    decreases pc.max - k
  {
    if k < pc.max && s != [] {
      RepeatsExactly(pc, rest, s[1..], k + 1);
      if pc.max - k <= |s| {
        assert s[1..][pc.max - k - 1..] == s[pc.max - k..];
        assert s[..pc.max - k] == [s[0]] + s[1..][..pc.max - k - 1];
      }
    }
  }

  /** X{n} followed by the rest: n characters of the class, then the rest. */
  lemma MatchesExactly(cls: CharClass, n: nat, rest: Pattern, s: string)
    ensures Matches([Exactly(cls, n)] + rest, s) <==>
              n <= |s| && AllIn(s[..n], cls) && Matches(rest, s[n..])
  {
    var p := [Exactly(cls, n)] + rest;
    assert p[0] == Exactly(cls, n) && p[1..] == rest;
    RepeatsExactly(Exactly(cls, n), rest, s, 0);
  }

  /** X? followed by the rest: the rest, with or without one character of
      the class in front. */
  lemma MatchesOptional(cls: CharClass, rest: Pattern, s: string)
    ensures Matches([Optional(cls)] + rest, s) <==>
              Matches(rest, s) || (s != [] && InClass(s[0], cls) && Matches(rest, s[1..]))
  {
    var p := [Optional(cls)] + rest;
    assert p[0] == Optional(cls) && p[1..] == rest;
    if s != [] {
      assert Repeats(Optional(cls), rest, s[1..], 1) == Matches(rest, s[1..]);
    }
  }
}
