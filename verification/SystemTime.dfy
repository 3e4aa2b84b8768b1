/**
 The system time in unbounded numbers: what the incrementally kept words of the time
 event module stand for. A tick comes every nume/deno milliseconds.
 */
module SystemTime {
  import opened WordTime

  /** The width of EVTTIM, TIC_NUME, TIC_DENO and TMAX_RELTIM. */
  datatype TimeConfig = TimeConfig(w: Width, nume: nat, deno: nat, tmax: nat) {
    /** A relative time, counted from the coming tick, fits the window that starts two ticks before. */
    predicate Ok() {
      nume > 0 && deno > 0 && w > tmax + 2 * (nume / deno) + 3
    }
  }

  /** The system time of tick `n`, in whole milliseconds. */
  function TickTime(c: TimeConfig, n: nat): nat
    requires c.Ok()
  {
    n * c.nume / c.deno
  }

  /** The fraction of a millisecond that TickTime cuts off, in units of 1/deno. */
  function TickFraction(c: TimeConfig, n: nat): nat
    requires c.Ok()
  {
    n * c.nume % c.deno
  }

  /** base_time after `n` ticks: the time of the next tick, rounded up. */
  function BaseTime(c: TimeConfig, n: nat): nat
    requires c.Ok()
  {
    TickTime(c, n + 1) + if TickFraction(c, n + 1) > 0 then 1 else 0
  }

  lemma DivIs(x: nat, d: nat, q: nat, r: nat)
    requires d > 0 && x == q * d + r && r < d
    ensures x / d == q && x % d == r
  {
    assert d * q == q * d;
    ModUnique(x, r, q, d);
  }

  lemma {:induction false} MulOrder(a: nat, b: nat, d: nat)
    ensures a <= b ==> a * d <= b * d
    ensures d > 0 && a * d < b * d ==> a < b
  {
    if a < b {
      SplitMul(d, b, a);
      assert d * b == b * d && d * a == a * d;
    } else if b < a {
      SplitMul(d, a, b);
      assert d * b == b * d && d * a == a * d;
    }
  }

  /** TickTime and TickFraction together are the exact time. */
  lemma TickExact(c: TimeConfig, n: nat)
    requires c.Ok()
    ensures n * c.nume == TickTime(c, n) * c.deno + TickFraction(c, n) && TickFraction(c, n) < c.deno
  {
    var x, d, q := n * c.nume, c.deno, n * c.nume / c.deno;
    assert x == d * q + x % d;
    assert d * q == q * d;
  }

  /** As long as the exact time fits the word, the word is the time. */
  lemma BeforeWrap(c: TimeConfig, n: nat)
    requires c.Ok()
    ensures n * c.nume < c.w * c.deno ==> Word(TickTime(c, n), c.w) == TickTime(c, n)
  {
    hide TickTime, TickFraction;
    TickExact(c, n);
    if n * c.nume < c.w * c.deno {
      MulOrder(TickTime(c, n), c.w, c.deno);
      SmallWord(TickTime(c, n), c.w);
    }
  }

  lemma SmallWord(t: nat, w: Width)
    requires t < w
    ensures Word(t, w) == t
  {
  }

  /** One more tick: the time advances by the whole part, with the carry of the fraction. */
  lemma NextTick(c: TimeConfig, n: nat)
    requires c.Ok()
    ensures var f := TickFraction(c, n) + c.nume % c.deno;
      if f >= c.deno
      then TickTime(c, n + 1) == TickTime(c, n) + c.nume / c.deno + 1 && TickFraction(c, n + 1) == f - c.deno
      else TickTime(c, n + 1) == TickTime(c, n) + c.nume / c.deno && TickFraction(c, n + 1) == f
  {
    TickExact(c, n);
    var d, q, k := c.deno, TickTime(c, n), c.nume / c.deno;
    assert c.nume == k * d + c.nume % d by { assert c.nume == d * k + c.nume % d; assert d * k == k * d; }
    assert (n + 1) * c.nume == n * c.nume + c.nume;
    var f := TickFraction(c, n) + c.nume % d;
    assert (n + 1) * c.nume == (q + k) * d + f by { assert (q + k) * d == q * d + k * d; }
    if f >= d {
      assert (q + k + 1) * d == (q + k) * d + d;
      DivIs((n + 1) * c.nume, d, q + k + 1, f - d);
    } else {
      DivIs((n + 1) * c.nume, d, q + k, f);
    }
  }

  /** The same on words: a whole part, and a carry or none. */
  lemma NextWords(c: TimeConfig, n: nat)
    requires c.Ok()
    ensures c.deno == 1 ==>
      Word(Word(TickTime(c, n), c.w) + c.nume, c.w) == Word(TickTime(c, n + 1), c.w) && TickFraction(c, n + 1) == TickFraction(c, n)
    ensures var t := Word(Word(TickTime(c, n), c.w) + c.nume / c.deno, c.w);
      var f := TickFraction(c, n) + c.nume % c.deno;
      if f >= c.deno
      then Word(t + 1, c.w) == Word(TickTime(c, n + 1), c.w) && TickFraction(c, n + 1) == f - c.deno
      else t == Word(TickTime(c, n + 1), c.w) && TickFraction(c, n + 1) == f
  {
    hide TickTime, TickFraction, Word;
    NextTick(c, n);
    TickExact(c, n);
    WordAdd(TickTime(c, n), c.nume / c.deno, c.w);
    WordAdd(TickTime(c, n) + c.nume / c.deno, 1, c.w);
    if c.deno == 1 {
      assert c.nume / c.deno == c.nume && c.nume % c.deno == 0;
    }
  }

  lemma FirstTicks(c: TimeConfig)
    requires c.Ok()
    ensures TickTime(c, 0) == 0 && TickFraction(c, 0) == 0
    ensures TickTime(c, 1) == c.nume / c.deno && TickFraction(c, 1) == c.nume % c.deno
  {
    DivIs(0, c.deno, 0, 0);
    assert 1 * c.nume == c.nume;
  }

  /** The base of relative times lies strictly after the current time, and not far after it;
      and the next tick does not pass it. */
  lemma BaseBounds(c: TimeConfig, n: nat)
    requires c.Ok()
    ensures TickTime(c, n) < BaseTime(c, n) <= TickTime(c, n) + c.nume / c.deno + 2
    ensures TickTime(c, n) <= TickTime(c, n + 1) <= BaseTime(c, n)
    ensures TickTime(c, n + 1) <= TickTime(c, n) + c.nume / c.deno + 1
    ensures BaseTime(c, n) <= BaseTime(c, n + 1)
  {
    hide TickTime, TickFraction;
    WholeAndRest(c);
    NextTick(c, n);
    NextTick(c, n + 1);
    FractionSmall(c, n);
    FractionSmall(c, n + 1);
    FractionSmall(c, n + 2);
  }

  lemma FractionSmall(c: TimeConfig, n: nat)
    requires c.Ok()
    ensures TickFraction(c, n) < c.deno
  {
  }

  lemma WholeAndRest(c: TimeConfig)
    requires c.Ok()
    ensures c.nume % c.deno < c.deno && c.nume / c.deno >= 0 && (c.nume / c.deno == 0 ==> c.nume % c.deno > 0)
  {
    assert c.nume == c.deno * (c.nume / c.deno) + c.nume % c.deno;
  }

  lemma {:induction false} TickTimeMonotone(c: TimeConfig, n: nat, m: nat)
    requires c.Ok() && n <= m
    ensures TickTime(c, n) <= TickTime(c, m)
    decreases m - n
  {
    hide TickTime, TickFraction;
    if n < m {
      NextTick(c, n);
      TickTimeMonotone(c, n + 1, m);
    }
  }

  /** Never early: a time event registered after tick `n`, hence before the exact time of tick
      n + 1, for `d` milliseconds, is due at tick `m` only if at least `d` milliseconds lie
      between tick n + 1 and tick `m` exactly, in units of 1/deno milliseconds. */
  lemma NeverEarly(c: TimeConfig, n: nat, d: nat, m: nat)
    requires c.Ok() && BaseTime(c, n) + d <= TickTime(c, m)
    ensures m * c.nume >= (n + 1) * c.nume + d * c.deno
  {
    TickExact(c, n + 1);
    TickExact(c, m);
    var base := BaseTime(c, n);
    assert base * c.deno >= (n + 1) * c.nume by {
      if TickFraction(c, n + 1) > 0 {
        assert base * c.deno == TickTime(c, n + 1) * c.deno + c.deno;
      }
    }
    MulOrder(base + d, TickTime(c, m), c.deno);
    assert (base + d) * c.deno == base * c.deno + d * c.deno;
  }

  /** Less than a millisecond late: at any tick that comes at least d + 1 milliseconds after
      tick n + 1, the event is due. */
  lemma LessThanOneMillisecondLate(c: TimeConfig, n: nat, d: nat, m: nat)
    requires c.Ok() && m * c.nume >= (n + 1) * c.nume + (d + 1) * c.deno
    ensures BaseTime(c, n) + d <= TickTime(c, m)
  {
    TickExact(c, n + 1);
    TickExact(c, m);
    var base := BaseTime(c, n);
    assert base * c.deno < (n + 1) * c.nume + c.deno by {
      if TickFraction(c, n + 1) > 0 {
        assert base * c.deno == TickTime(c, n + 1) * c.deno + c.deno;
      }
    }
    assert (base + d) * c.deno == base * c.deno + d * c.deno;
    assert (d + 1) * c.deno == d * c.deno + c.deno;
    assert (TickTime(c, m) + 1) * c.deno == TickTime(c, m) * c.deno + c.deno;
    MulOrder(base + d, TickTime(c, m) + 1, c.deno);
  }
}
