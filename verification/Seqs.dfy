/** Order-preserving subsequences, shared by the worker pool and the audit sink. */
module Seqs {

  /** a can be obtained from b by deleting elements. */
  predicate Subseq<T(==)>(a: seq<T>, b: seq<T>)
    decreases |b|
  {
    if a == [] then true
    else if b == [] then false
    else if a[|a| - 1] == b[|b| - 1] then Subseq(a[..|a| - 1], b[..|b| - 1])
    else Subseq(a, b[..|b| - 1])
  }

  /** A longer whole keeps every subsequence. */
  lemma {:induction false} SubseqGrow<T>(a: seq<T>, b: seq<T>, x: T)
    requires Subseq(a, b)
    ensures Subseq(a, b + [x])
    decreases |b|, 1
  {
    var c := b + [x];
    assert c[..|c| - 1] == b;
    if a != [] && a[|a| - 1] == x {
      SubseqShrink(a, b);
    }
  }

  /** Dropping the last element of a subsequence leaves a subsequence. */
  lemma {:induction false} SubseqShrink<T>(a: seq<T>, b: seq<T>)
    requires a != [] && Subseq(a, b)
    ensures Subseq(a[..|a| - 1], b)
    decreases |b|, 0
  {
    var a', b' := a[..|a| - 1], b[..|b| - 1];
    if a[|a| - 1] == b[|b| - 1] {
      SubseqGrow(a', b', b[|b| - 1]);
    } else {
      SubseqShrink(a, b');
      SubseqGrow(a', b', b[|b| - 1]);
    }
    assert b' + [b[|b| - 1]] == b;
  }

  /** The same element may be appended to both. */
  lemma SubseqSnoc<T>(a: seq<T>, b: seq<T>, x: T)
    requires Subseq(a, b)
    ensures Subseq(a + [x], b + [x])
  {
    assert (a + [x])[..|a|] == a && (b + [x])[..|b|] == b;
  }

  lemma {:induction false} SubseqTrans<T>(a: seq<T>, b: seq<T>, c: seq<T>)
    requires Subseq(a, b) && Subseq(b, c)
    ensures Subseq(a, c)
    decreases |c|
  {
    if a == [] {
    } else if b[|b| - 1] == c[|c| - 1] {
      var b', c' := b[..|b| - 1], c[..|c| - 1];
      if a[|a| - 1] == b[|b| - 1] {
        SubseqTrans(a[..|a| - 1], b', c');
      } else {
        SubseqTrans(a, b', c');
      }
    } else {
      SubseqTrans(a, b, c[..|c| - 1]);
      SubseqShrink(a, c[..|c| - 1]);
    }
  }

  /** Subsequences may be extended by subsequences. */
  lemma {:induction false} SubseqConcat<T>(p: seq<T>, a: seq<T>, b: seq<T>)
    requires Subseq(a, b)
    ensures Subseq(p + a, p + b)
    decreases |b|
  {
    if b == [] {
      SubseqRefl(p);
      assert p + a == p && p + b == p;
    } else {
      var b', x := b[..|b| - 1], b[|b| - 1];
      assert p + b == (p + b') + [x];
      if a != [] && a[|a| - 1] == x {
        SubseqConcat(p, a[..|a| - 1], b');
        SubseqSnoc(p + a[..|a| - 1], p + b', x);
        assert p + a == (p + a[..|a| - 1]) + [x];
      } else {
        SubseqConcat(p, a, b');
        SubseqGrow(p + a, p + b', x);
      }
    }
  }

  /** A subsequence of a prefix is one of the whole. */
  lemma {:induction false} SubseqPrefix<T>(a: seq<T>, b: seq<T>, c: seq<T>)
    requires Subseq(a, b)
    ensures Subseq(a, b + c)
    decreases |c|
  {
    if c == [] {
      assert b + c == b;
    } else {
      SubseqPrefix(a, b, c[..|c| - 1]);
      SubseqGrow(a, b + c[..|c| - 1], c[|c| - 1]);
      assert b + c == (b + c[..|c| - 1]) + [c[|c| - 1]];
    }
  }

  lemma SubseqRefl<T>(a: seq<T>)
    ensures Subseq(a, a)
  {
  }
}
