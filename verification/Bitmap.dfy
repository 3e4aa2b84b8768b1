/**
 The priority bitmap: bit `p` says whether ready queue `p` has tasks.
 */
module Bitmap {

  /** PRIMAP_BIT. */
  function Bit(p: nat): bv16
    requires p < 16
  {
    1 << p
  }

  /** What is left of `m` under the mask `b`. */
  function Masked(m: bv16, b: bv16): bv16 {
    m & b
  }

  predicate IsSet(m: bv16, p: nat)
    requires p < 16
  {
    Masked(m, Bit(p)) != 0
  }

  const POWERS: seq<bv16> := [1, 2, 4, 8, 16, 32, 64, 128, 256, 512, 1024, 2048, 4096, 8192, 16384, 32768]

  lemma BitValue(p: nat)
    requires p < 16
    ensures Bit(p) == POWERS[p]
  {
  }

  /** Different priorities have different bits. */
  lemma BitsDisjoint(p: nat, q: nat)
    requires p < 16 && q < 16
    ensures Masked(Bit(p), Bit(q)) == if p == q then Bit(p) else 0
    ensures Bit(p) != 0
  {
    hide Bit, Masked;
    BitValue(p);
    BitValue(q);
    if p < q {
      PowersDisjoint(p, q);
    } else if q < p {
      PowersDisjoint(q, p);
    }
    PowerItself(p);
  }

  lemma PowerItself(p: nat)
    requires p < 16
    ensures Masked(POWERS[p], POWERS[p]) == POWERS[p] && POWERS[p] != 0
  {
  }

  lemma PowersDisjoint(p: nat, q: nat)
    requires p < q < 16
    ensures Masked(POWERS[p], POWERS[q]) == 0 && Masked(POWERS[q], POWERS[p]) == 0
  {
    OnePower(q);
    BelowPower(POWERS[q], p, q);
  }

  lemma OnePower(n: nat)
    requires n < 16
    ensures POWERS[n] & (POWERS[n] - 1) == 0
  {
  }

  function With(m: bv16, b: bv16): bv16 {
    m | b
  }

  function Without(m: bv16, b: bv16): bv16 {
    m & !b
  }

  lemma WithOther(m: bv16, a: bv16, b: bv16)
    requires Masked(a, b) == 0
    ensures Masked(With(m, a), b) == Masked(m, b)
  {
  }

  lemma WithSelf(m: bv16, a: bv16)
    ensures Masked(With(m, a), a) == a
  {
  }

  lemma WithoutOther(m: bv16, a: bv16, b: bv16)
    requires Masked(a, b) == 0
    ensures Masked(Without(m, a), b) == Masked(m, b)
  {
  }

  lemma WithoutSelf(m: bv16, a: bv16)
    ensures Masked(Without(m, a), a) == 0
  {
  }

  /** primap_set. */
  function Set(m: bv16, p: nat): bv16
    requires p < 16
  {
    With(m, Bit(p))
  }

  /** primap_clear. */
  function Clear(m: bv16, p: nat): bv16
    requires p < 16
  {
    Without(m, Bit(p))
  }

  /** Setting and clearing change one bit. */
  lemma SetClear(m: bv16, p: nat, q: nat)
    requires p < 16 && q < 16
    ensures IsSet(Set(m, p), q) <==> p == q || IsSet(m, q)
    ensures IsSet(Clear(m, p), q) <==> p != q && IsSet(m, q)
  {
    hide Bit, Masked, With, Without;
    BitsDisjoint(p, q);
    if p == q {
      WithSelf(m, Bit(p));
      WithoutSelf(m, Bit(p));
    } else {
      WithOther(m, Bit(p), Bit(q));
      WithoutOther(m, Bit(p), Bit(q));
    }
  }

  /** Of an empty bitmap no bit is set. */
  lemma EmptyHasNone(p: nat)
    requires p < 16
    ensures !IsSet(0, p)
  {
  }

  /** Is bit `n` the lowest that is set? */
  predicate Lowest(m: bv16, n: nat)
    requires n < 16
  {
    m & POWERS[n] != 0 && m & (POWERS[n] - 1) == 0
  }

  lemma LowestIs(m: bv16, n: nat)
    requires n < 16 && Lowest(m, n)
    ensures IsSet(m, n) && forall p :: 0 <= p < n ==> !IsSet(m, p)
  {
    hide Bit;
    BitValue(n);
    forall p | 0 <= p < n
      ensures !IsSet(m, p)
    {
      BitValue(p);
      BelowPower(m, p, n);
    }
  }

  lemma BelowPower(m: bv16, p: nat, n: nat)
    requires p < n < 16 && m & (POWERS[n] - 1) == 0
    ensures m & POWERS[p] == 0
  {
    assert POWERS[p] & (POWERS[n] - 1) == POWERS[p];
    MaskedPart(m, POWERS[p], POWERS[n] - 1);
  }

  lemma MaskedPart(m: bv16, a: bv16, b: bv16)
    requires a & b == a && m & b == 0
    ensures m & a == 0
  {
  }

  /** bitmap_search_table. */
  const TABLE: seq<nat> := [0, 1, 0, 2, 0, 1, 0, 3, 0, 1, 0, 2, 0, 1, 0]

  /** The entry for four bits that are not all zero. */
  function Entry(v: bv16): (n: nat)
    requires 0 < v <= 15
    ensures n < 4
  {
    TABLE[(v - 1) as nat]
  }

  lemma FourBits(b: bv16)
    requires b & 0x0f != 0
    ensures Lowest(b, Entry(b & 0x0f))
  {
    hide Entry;
    Nibble(b & 0x0f);
    NibbleLowest(b, Entry(b & 0x0f));
  }

  lemma Nibble(v: bv16)
    requires 0 < v <= 15
    ensures Lowest(v, Entry(v))
  {
    var i := (v - 1) as nat;
    assert v == (i + 1) as bv16;
    if i < 4 {
    } else if i < 8 {
    } else if i < 12 {
    } else {
    }
  }

  lemma NibbleLowest(b: bv16, n: nat)
    requires n < 4 && Lowest(b & 0x0f, n)
    ensures Lowest(b, n)
  {
  }

  /** Shifting zeros out moves the lowest bit. */
  lemma Shifted8(m: bv16, n: nat)
    requires m & 0x00ff == 0 && n < 8 && Lowest(m >> 8, n)
    ensures Lowest(m, n + 8)
  {
    assert POWERS[n + 8] == POWERS[n] << 8;
    Shift8(m, POWERS[n]);
  }

  lemma Shift8(m: bv16, a: bv16)
    requires m & 0x00ff == 0 && 0 < a <= 0x80 && (m >> 8) & a != 0 && (m >> 8) & (a - 1) == 0
    ensures m & (a << 8) != 0 && m & ((a << 8) - 1) == 0
  {
  }

  lemma Shifted4(m: bv16, n: nat)
    requires m & 0x0f == 0 && n < 4 && Lowest(m >> 4, n)
    ensures Lowest(m, n + 4)
  {
    assert POWERS[n + 4] == POWERS[n] << 4;
    Shift4(m, POWERS[n]);
  }

  lemma Shift4(m: bv16, a: bv16)
    requires m & 0x0f == 0 && 0 < a <= 8 && (m >> 4) & a != 0 && (m >> 4) & (a - 1) == 0
    ensures m & (a << 4) != 0 && m & ((a << 4) - 1) == 0
  {
  }

  /** The lower half of a bitmap that is not empty, after shifting, has a bit in eight. */
  lemma HalfNotEmpty(m: bv16)
    requires m != 0
    ensures m & 0x00ff == 0 ==> (m >> 8) & 0x00ff != 0
  {
  }

  /** bitmap_search: the lowest bit set, by halving and a table. */
  method Search(bitmap: bv16) returns (n: nat)
    requires bitmap != 0
    ensures n < 16 && IsSet(bitmap, n) && forall p :: 0 <= p < n ==> !IsSet(bitmap, p)
  {
    hide Lowest, IsSet;
    var b := bitmap;
    n := 0;
    HalfNotEmpty(bitmap);
    if b & 0x00ff == 0 {
      b := b >> 8;
      n := n + 8;
    }
    var m := SearchByte(b);
    if n == 8 {
      Shifted8(bitmap, m);
    }
    n := n + m;
    LowestIs(bitmap, n);
  }

  /** The rest of bitmap_search, when one of the lower eight bits is set. */
  method SearchByte(byte: bv16) returns (n: nat)
    requires byte & 0x00ff != 0
    ensures n < 8 && Lowest(byte, n)
  {
    hide Lowest, Entry;
    var b := byte;
    n := 0;
    ByteNotEmpty(byte);
    if b & 0x0f == 0 {
      b := b >> 4;
      n := n + 4;
    }
    FourBits(b);
    var m := Entry(b & 0x0f);
    if n == 4 {
      Shifted4(byte, m);
    }
    n := n + m;
  }

  lemma ByteNotEmpty(m: bv16)
    requires m & 0x00ff != 0
    ensures m & 0x0f == 0 ==> (m >> 4) & 0x0f != 0
  {
  }
}
