/**
 Event times are machine words of some width 2^N. They wrap around, and two of them
 are compared by their distance from the moving base `min`. This module relates
 the word comparison to the order of the unbounded times that the words stand for.
 */
module WordTime {

  /** The number of values of a word type. */
  type Width = w: nat | w > 0 witness 1

  /** The word that stands for the unbounded value `x`; `w` is 2^N. */
  function Word(x: int, w: Width): (r: nat)
    ensures r < w
  {
    x % w
  }

  /** EVTTIM_LE: `t1` is not later than `t2`, seen from `min`, in wrapping arithmetic. */
  predicate Le(t1: nat, t2: nat, min: nat, w: Width)
  {
    Word(t1 - min, w) <= Word(t2 - min, w)
  }

  /** EVTTIM_LT. */
  predicate Lt(t1: nat, t2: nat, min: nat, w: Width)
  {
    Word(t1 - min, w) < Word(t2 - min, w)
  }

  lemma ModUnique(x: int, r: int, k: int, w: Width)
    requires 0 <= r < w && x == r + w * k
    ensures x % w == r && x / w == k
  {
    var q := x / w;
    assert x == w * q + x % w;
    if q < k {
      SplitMul(w, k, q);
    } else if q > k {
      SplitMul(w, q, k);
    }
  }

  lemma {:induction false} SplitMul(w: nat, a: int, b: int)
    requires a > b
    ensures w * a >= w * b + w
    decreases a - b
  {
    if a == b + 1 {
      assert w * (b + 1) == w * b + w;
    } else {
      SplitMul(w, a - 1, b);
      assert w * a == w * (a - 1) + w;
    }
  }

  /** Adding words is adding the values they stand for. */
  lemma WordAdd(x: int, d: int, w: Width)
    ensures Word(Word(x, w) + d, w) == Word(x + d, w)
  {
    var q := x / w;
    var r := (x + d) / w;
    assert Word(x, w) + d == (x + d) % w + w * (r - q) by {
      assert x == w * q + x % w;
      assert x + d == w * r + (x + d) % w;
      assert w * (r - q) == w * r - w * q;
    }
    ModUnique(Word(x, w) + d, (x + d) % w, r - q, w);
  }

  /** Subtracting words gives back any difference that fits the word. */
  lemma WordDistance(a: int, m: int, w: Width)
    requires 0 <= a - m < w
    ensures Word(Word(a, w) - Word(m, w), w) == a - m
  {
    var p := a / w;
    var q := m / w;
    assert Word(a, w) - Word(m, w) == (a - m) + w * (q - p) by {
      assert a == w * p + a % w;
      assert m == w * q + m % w;
      assert w * (q - p) == w * q - w * p;
    }
    ModUnique(Word(a, w) - Word(m, w), a - m, q - p, w);
  }

  /** Inside one window of width 2^N above the base, word order is time order. */
  lemma OrderInWindow(a: nat, b: nat, m: nat, w: Width)
    requires m <= a < m + w && m <= b < m + w
    ensures Le(Word(a, w), Word(b, w), Word(m, w), w) <==> a <= b
    ensures Lt(Word(a, w), Word(b, w), Word(m, w), w) <==> a < b
  {
    WordDistance(a, m, w);
    WordDistance(b, m, w);
  }

  /** The window is exactly what the comparison can bear: a time at or above the base
      compares correctly with every time of the window if and only if it lies in the
      window itself. */
  lemma WindowIsExact(a: nat, m: nat, w: Width)
    requires m <= a
    ensures (forall b: nat | m <= b < m + w :: Le(Word(a, w), Word(b, w), Word(m, w), w) <==> a <= b)
        <==> a < m + w
  {
    if a < m + w {
      forall b: nat | m <= b < m + w
        ensures Le(Word(a, w), Word(b, w), Word(m, w), w) <==> a <= b
      {
        OrderInWindow(a, b, m, w);
      }
    } else {
      var last := m + w - 1;
      WordDistance(last, m, w);
      assert Le(Word(a, w), Word(last, w), Word(m, w), w) && !(a <= last);
    }
  }

  /** Moving the base forward, past no registered time, keeps the order of every pair. */
  lemma RebaseKeepsOrder(a: nat, b: nat, m: nat, m': nat, w: Width)
    requires m <= m' <= a < m + w && m' <= b < m + w
    ensures Le(Word(a, w), Word(b, w), Word(m, w), w) <==> Le(Word(a, w), Word(b, w), Word(m', w), w)
  {
    OrderInWindow(a, b, m, w);
    OrderInWindow(a, b, m', w);
  }
}
