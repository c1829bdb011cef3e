/** The seeded random source every producer shares (BaseProducer over
    RandomGenerator). The generator's stream is an infinite sequence of raw
    draws fixed by the seed; the source remembers how many it has used. */
module Random {
  import opened Wrappers
  import opened Chars

  class RandomSource {
    /** The raw draws the seeded generator yields, in order. */
    const draws: nat -> nat
    /** How many raw draws have been consumed so far. */
    var position: nat

    constructor(draws: nat -> nat)
      ensures this.draws == draws && position == 0
    {
      this.draws := draws;
      position := 0;
    }

    /** randomBetween(min, max) for ints: RandomGenerator.nextInt answers
        `min` without consuming a draw when the bounds coincide. */
    method RandomBetween(min: int, max: int) returns (r: int)
      requires min <= max
      modifies this
      ensures min <= r <= max
      ensures min == max ==> position == old(position)
      ensures min < max ==>
                position == old(position) + 1 && r == min + draws(old(position)) % (max - min + 1)
    {
      if min == max {
        r := min;
      } else {
        r := min + draws(position) % (max - min + 1);
        position := position + 1;
      }
    }

    /** randomBetween(min, max) with the range checked: commons-math refuses min > max. */
    method CheckedBetween(min: int, max: int) returns (r: Result<int>)
      modifies this
      ensures min > max ==> r == Failure(BadRange) && position == old(position)
      ensures min <= max ==> r.Success? && min <= r.value <= max
    {
      if min > max {
        r := Failure(BadRange);
      } else {
        var v := RandomBetween(min, max);
        r := Success(v);
      }
    }

    /** randomInt(max) = randomBetween(0, max). */
    method RandomInt(max: int) returns (r: int)
      requires max >= 0
      modifies this
      ensures 0 <= r <= max
    {
      r := RandomBetween(0, max);
    }

    /** trueOrFalse: one boolean draw. */
    method TrueOrFalse() returns (b: bool)
      modifies this
      ensures position == old(position) + 1
      ensures b == (draws(old(position)) % 2 == 0)
    {
      b := draws(position) % 2 == 0;
      position := position + 1;
    }

    /** randomElement(list) = list.get(randomBetween(0, size - 1)); an empty
        list makes the range empty. */
    method RandomElement<T>(xs: seq<T>) returns (r: Result<T>)
      modifies this
      ensures xs == [] ==> r == Failure(BadRange)
      ensures xs != [] ==> r.Success? && r.value in xs
    {
      if xs == [] {
        r := Failure(BadRange);
      } else {
        var i := RandomBetween(0, |xs| - 1);
        r := Success(xs[i]);
      }
    }

    /** randomElements(list, count): `count` elements taken without
        replacement; a count larger than the list is refused. */
    method RandomElements<T>(xs: seq<T>, count: int) returns (r: Result<seq<T>>)
      modifies this
      ensures count < 0 || count > |xs| ==> r.Failure?
      ensures 0 <= count <= |xs| ==>
                r.Success? && |r.value| == count && multiset(r.value) <= multiset(xs)
    {
      if count < 0 || count > |xs| {
        return Failure(IllegalArgument("The size of the list is smaller than the count"));
      }
      var rest := xs;
      var picked: seq<T> := [];
      while |picked| < count
        invariant |picked| + |rest| == |xs|
        invariant |picked| <= count
        invariant multiset(picked) + multiset(rest) == multiset(xs)
      {
        var i := RandomBetween(0, |rest| - 1);
        assert rest == rest[..i] + [rest[i]] + rest[i + 1..];
        picked := picked + [rest[i]];
        rest := rest[..i] + rest[i + 1..];
      }
      r := Success(picked);
    }

    /** numerify: every '#' becomes a random digit, the rest is kept. */
    method Numerify(mask: string) returns (s: string)
      modifies this
      ensures Numerified(mask, s)
    {
      s := [];
      var i := 0;
      while i < |mask|
        invariant 0 <= i <= |mask| && |s| == i
        invariant Numerified(mask[..i], s)
      {
        var c := mask[i];
        if c == '#' {
          var d := RandomInt(9);
          c := DigitChar(d);
        }
        s := s + [c];
        i := i + 1;
      }
      assert mask[..i] == mask;
    }

    /** letterify: every '?' becomes a random lower-case letter, the rest is kept. */
    method Letterify(mask: string) returns (s: string)
      modifies this
      ensures Letterified(mask, s)
    {
      s := [];
      var i := 0;
      while i < |mask|
        invariant 0 <= i <= |mask| && |s| == i
        invariant Letterified(mask[..i], s)
      {
        var c := mask[i];
        if c == '?' {
          var k := RandomInt(25);
          c := ('a' as int + k) as char;
        }
        s := s + [c];
        i := i + 1;
      }
      assert mask[..i] == mask;
    }

    /** bothify = letterify(numerify(mask)). */
    method Bothify(mask: string) returns (s: string)
      modifies this
      ensures Bothified(mask, s)
    {
      var t := Numerify(mask);
      s := Letterify(t);
    }
  }

  /** `s` is `mask` with each '#' replaced by a digit. */
  predicate Numerified(mask: string, s: string) {
    |s| == |mask|
    && forall i :: 0 <= i < |mask| ==>
         if mask[i] == '#' then IsDigit(s[i]) else s[i] == mask[i]
  }

  /** A mask of '#' only numerifies to digits. */
  lemma NumerifiedDigits(mask: string, s: string)
    requires forall i :: 0 <= i < |mask| ==> mask[i] == '#'
    requires Numerified(mask, s)
    ensures |s| == |mask| && AllDigits(s)
  {
    forall i | 0 <= i < |s| ensures IsDigit(s[i]) {
      assert mask[i] == '#';
    }
  }

  /** `s` is `mask` with each '?' replaced by a lower-case letter. */
  predicate Letterified(mask: string, s: string) {
    |s| == |mask|
    && forall i :: 0 <= i < |mask| ==>
         if mask[i] == '?' then IsLower(s[i]) else s[i] == mask[i]
  }

  /** `s` is `mask` with each '#' a digit and each '?' a lower-case letter. */
  predicate Bothified(mask: string, s: string) {
    |s| == |mask|
    && forall i :: 0 <= i < |mask| ==>
         if mask[i] == '#' then IsDigit(s[i])
         else if mask[i] == '?' then IsLower(s[i])
         else s[i] == mask[i]
  }
}
