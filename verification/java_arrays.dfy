/** System.arraycopy on character arrays, as the identity-number builders
    use it. */
module JavaArrays {
  import opened Wrappers

  /** Copies all of `src` into `dest` from `destPos` on; a copy that would
      run past the end fails and leaves `dest` as it was. */
  method ArrayCopy(src: seq<char>, dest: array<char>, destPos: nat) returns (o: Outcome)
    modifies dest
    ensures destPos + |src| > dest.Length ==> o == Fail(IndexOutOfBounds) && dest[..] == old(dest[..])
    ensures destPos + |src| <= dest.Length ==>
              o == Pass && dest[..] == old(dest[..destPos]) + src + old(dest[destPos + |src|..])
  {
    if destPos + |src| > dest.Length {
      return Fail(IndexOutOfBounds);
    }
    forall i | 0 <= i < |src| {
      dest[destPos + i] := src[i];
    }
    o := Pass;
  }
}
