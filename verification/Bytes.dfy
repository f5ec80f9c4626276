/** Byte strings, their concatenation, and in-order subsequences. */
module Bytes {

  type byte = x: int | 0 <= x < 0x100
  type u32 = x: int | 0 <= x < 0x1_0000_0000
  type Bytes = seq<byte>

  datatype Option<+T> = None | Some(value: T)

  lemma ConcatAssoc<T>(a: seq<T>, b: seq<T>, c: seq<T>)
    ensures (a + b) + c == a + (b + c)
  {
  }

  lemma PrefixSplit<T>(x: seq<T>, a: seq<T>, b: seq<T>)
    requires x <= a + b
    ensures |x| <= |a| ==> x == a[..|x|]
    ensures |a| <= |x| ==> x == a + x[|a|..] && x[|a|..] <= b
  {
    assert forall i :: 0 <= i < |x| ==> x[i] == (a + b)[i];
  }

  /** All pieces, one after another. */
  function Flatten(pieces: seq<Bytes>): Bytes {
    if pieces == [] then [] else Flatten(pieces[..|pieces| - 1]) + pieces[|pieces| - 1]
  }

  lemma FlattenSnoc(pieces: seq<Bytes>, last: Bytes)
    ensures Flatten(pieces + [last]) == Flatten(pieces) + last
  {
    assert (pieces + [last])[..|pieces|] == pieces;
  }

  lemma {:induction false} FlattenConcat(a: seq<Bytes>, b: seq<Bytes>)
    ensures Flatten(a + b) == Flatten(a) + Flatten(b)
  {
    if b == [] {
      assert a + b == a;
    } else {
      var init, last := b[..|b| - 1], b[|b| - 1];
      assert a + b == (a + init) + [last];
      FlattenConcat(a, init);
      FlattenSnoc(a + init, last);
    }
  }

  lemma FlattenCons(first: Bytes, pieces: seq<Bytes>)
    ensures Flatten([first] + pieces) == first + Flatten(pieces)
  {
    FlattenConcat([first], pieces);
    assert [first][..0] == [];
  }

  /** `a` can be had from `b` by leaving out elements; order and multiplicity are kept. */
  ghost predicate Subsequence<T>(a: seq<T>, b: seq<T>) {
    a == [] ||
    (b != [] &&
     (Subsequence(a, b[..|b| - 1]) ||
      (a[|a| - 1] == b[|b| - 1] && Subsequence(a[..|a| - 1], b[..|b| - 1]))))
  }

  lemma SubsequenceSkip<T>(a: seq<T>, b: seq<T>, x: T)
    requires Subsequence(a, b)
    ensures Subsequence(a, b + [x])
  {
    assert (b + [x])[..|b|] == b;
  }

  lemma SubsequenceKeep<T>(a: seq<T>, b: seq<T>, x: T)
    requires Subsequence(a, b)
    ensures Subsequence(a + [x], b + [x])
  {
    assert (b + [x])[..|b|] == b && (a + [x])[..|a|] == a;
  }

  lemma {:induction false} SubsequenceRefl<T>(a: seq<T>)
    ensures Subsequence(a, a)
  {
    if a != [] {
      SubsequenceRefl(a[..|a| - 1]);
    }
  }

  lemma {:induction false} SubsequenceOfExtension<T>(a: seq<T>, b: seq<T>, c: seq<T>)
    requires Subsequence(a, b) && b <= c
    ensures Subsequence(a, c)
    decreases |c|
  {
    if |b| < |c| {
      var init := c[..|c| - 1];
      SubsequenceOfExtension(a, b, init);
      assert c == init + [c[|c| - 1]];
    } else {
      assert b == c;
    }
  }

  lemma {:induction false} SubsequenceTrans<T>(a: seq<T>, b: seq<T>, c: seq<T>)
    requires Subsequence(a, b) && Subsequence(b, c)
    ensures Subsequence(a, c)
    decreases |c|, |b|
  {
    if a != [] {
      var b', c' := b[..|b| - 1], c[..|c| - 1];
      if Subsequence(b, c') {
        SubsequenceTrans(a, b, c');
      } else if Subsequence(a, b') {
        SubsequenceTrans(a, b', c');
      } else {
        SubsequenceTrans(a[..|a| - 1], b', c');
      }
    }
  }
}
