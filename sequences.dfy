/** Locating the parts of a concatenation inside a longer sequence. */
module Sequences {

  /** Where `x + y` sits at offset `o` of `data`, `x` starts at `o` and `y` right after it. */
  lemma Parts<T>(data: seq<T>, o: nat, x: seq<T>, y: seq<T>)
    requires o + |x| + |y| <= |data| && data[o..o + |x| + |y|] == x + y
    ensures data[o..o + |x|] == x
    ensures data[o + |x|..o + |x| + |y|] == y
  {
    assert data[o..o + |x|] == (x + y)[..|x|];
    assert data[o + |x|..o + |x| + |y|] == (x + y)[|x|..];
  }

  /** A concatenation starts with its left part and continues with its right part. */
  lemma Halves<T>(x: seq<T>, y: seq<T>)
    ensures (x + y)[0..|x|] == x
    ensures (x + y)[|x|..|x| + |y|] == y
  {
  }
}
