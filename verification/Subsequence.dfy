/**
 Subsequences: what is left of a queue when some have left it.
 */
module Subsequence {
  import opened Common

  /** `a` is `b` without some of its elements. */
  ghost predicate Subseq<T>(a: seq<T>, b: seq<T>)
    decreases |b|
  {
    a == [] || (b != [] && ((a[0] == b[0] && Subseq(a[1..], b[1..])) || Subseq(a, b[1..])))
  }

  lemma {:induction false} SubseqSelf<T>(a: seq<T>)
    ensures Subseq(a, a)
  {
    if a != [] {
      SubseqSelf(a[1..]);
    }
  }

  lemma {:induction false} SubseqTrans<T>(a: seq<T>, b: seq<T>, c: seq<T>)
    requires Subseq(a, b) && Subseq(b, c)
    ensures Subseq(a, c)
    decreases |b| + |c|
  {
    if a != [] {
      if b[0] == c[0] && Subseq(b[1..], c[1..]) {
        if a[0] == b[0] && Subseq(a[1..], b[1..]) {
          SubseqTrans(a[1..], b[1..], c[1..]);
        } else {
          SubseqTrans(a, b[1..], c[1..]);
        }
      } else {
        SubseqTrans(a, b, c[1..]);
      }
    }
  }

  lemma {:induction false} SubseqRemove<T>(a: seq<T>, x: T)
    ensures Subseq(Remove(a, x), a)
  {
    if a == [] {
    } else if a[0] == x {
      SubseqSelf(a[1..]);
    } else {
      SubseqRemove(a[1..], x);
    }
  }

  /** Common parts in front do not matter. */
  lemma {:induction false} SubseqAppend<T>(p: seq<T>, a: seq<T>, b: seq<T>)
    requires Subseq(a, b)
    ensures Subseq(p + a, p + b)
  {
    if p == [] {
      assert p + a == a && p + b == b;
    } else {
      SubseqAppend(p[1..], a, b);
      assert (p + a)[1..] == p[1..] + a && (p + b)[1..] == p[1..] + b;
    }
  }

  /** Neither do common parts behind. */
  lemma {:induction false} SubseqBehind<T>(a: seq<T>, b: seq<T>, p: seq<T>)
    requires Subseq(a, b)
    ensures Subseq(a + p, b + p)
    decreases |b|
  {
    if a == [] {
      assert a + p == p;
      SubseqDrop(b, p);
    } else {
      assert (a + p)[1..] == a[1..] + p && (b + p)[1..] == b[1..] + p;
      if a[0] == b[0] && Subseq(a[1..], b[1..]) {
        SubseqBehind(a[1..], b[1..], p);
      } else {
        SubseqBehind(a, b[1..], p);
      }
    }
  }

  lemma {:induction false} SubseqDrop<T>(b: seq<T>, p: seq<T>)
    ensures Subseq(p, b + p)
    decreases |b|
  {
    if b == [] {
      assert b + p == p;
      SubseqSelf(p);
    } else {
      SubseqDrop(b[1..], p);
      assert (b + p)[1..] == b[1..] + p;
    }
  }
}
