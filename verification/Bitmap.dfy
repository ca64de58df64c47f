/** The ready queue bitmap: a number with one bit a priority, searched for the lowest bit that is set.

    Masks and shifts are written as remainders and quotients: `b & 0xff` is `b % 256`, `b >> 4` is
    `b / 16`, and setting or clearing a bit goes bit by bit.
  */
module Bitmap {

  predicate Has(b: nat, p: nat) {
    if p == 0 then b % 2 == 1 else Has(b / 2, p - 1)
  }

  /** `b | (1 << p)` */
  function Set(b: nat, p: nat): nat {
    if p == 0 then b / 2 * 2 + 1 else Set(b / 2, p - 1) * 2 + b % 2
  }

  /** `b & ~(1 << p)` */
  function Clear(b: nat, p: nat): nat {
    if p == 0 then b / 2 * 2 else Clear(b / 2, p - 1) * 2 + b % 2
  }

  lemma {:induction false} SetBit(b: nat, p: nat, q: nat)
    ensures Has(Set(b, p), q) <==> q == p || Has(b, q)
  {
    if p > 0 && q > 0 { SetBit(b / 2, p - 1, q - 1); }
  }

  lemma {:induction false} ClearBit(b: nat, p: nat, q: nat)
    ensures Has(Clear(b, p), q) <==> q != p && Has(b, q)
  {
    if p > 0 && q > 0 { ClearBit(b / 2, p - 1, q - 1); }
  }

  lemma {:induction false} EmptyMap(q: nat)
    ensures !Has(0, q)
  {
    if q > 0 { EmptyMap(q - 1); }
  }

  function Pow2(n: nat): nat { if n == 0 then 1 else 2 * Pow2(n - 1) }

  lemma {:induction false} PowPositive(n: nat)
    ensures Pow2(n) >= 1
  {
    if n > 0 { PowPositive(n - 1); }
  }

  lemma {:induction false} StaysSmall(b: nat, p: nat, n: nat)
    requires b < Pow2(n) && p < n
    ensures Set(b, p) < Pow2(n) && Clear(b, p) < Pow2(n)
  {
    if p > 0 { StaysSmall(b / 2, p - 1, n - 1); }
  }

  // ---------- the search ----------

  const SEARCH_TABLE: seq<nat> := [0, 1, 0, 2, 0, 1, 0, 3, 0, 1, 0, 2, 0, 1, 0]

  /** `p` is the lowest bit set in `b`. */
  predicate Lowest(b: nat, p: nat) {
    Has(b, p) && forall q: nat :: q < p ==> !Has(b, q)
  }

  lemma Shifted(b: nat, q: nat)
    ensures Has(b, q + 4) == Has(b / 16, q)
  {
    assert Has(b, q + 4) == Has(b / 2, q + 3) == Has(b / 2 / 2, q + 2);
    assert Has(b / 2 / 2, q + 2) == Has(b / 2 / 2 / 2, q + 1) == Has(b / 2 / 2 / 2 / 2, q);
    assert b / 2 / 2 / 2 / 2 == b / 16;
  }

  lemma LowFour(b: nat)
    ensures Has(b, 0) == (b % 2 == 1) && Has(b, 1) == (b / 2 % 2 == 1)
    ensures Has(b, 2) == (b / 4 % 2 == 1) && Has(b, 3) == (b / 8 % 2 == 1)
  {
    assert b / 2 / 2 == b / 4 && b / 2 / 2 / 2 == b / 8;
    assert Has(b, 2) == Has(b / 2, 1) == Has(b / 2 / 2, 0);
    assert Has(b, 3) == Has(b / 2, 2) == Has(b / 2 / 2, 1) == Has(b / 2 / 2 / 2, 0);
  }

  /** With the low nibble clear the lowest bit is four above that of the map without the nibble. */
  lemma SkipNibble(b: nat, p: nat)
    requires b % 16 == 0 && Lowest(b / 16, p)
    ensures Lowest(b, p + 4)
  {
    Shifted(b, p);
    forall q: nat | q < p + 4 ensures !Has(b, q) {
      if q >= 4 {
        Shifted(b, q - 4);
      } else {
        NibbleOf(b);
        EmptyMap(q);
      }
    }
  }

  lemma HalfOf(k: nat, v: nat)
    ensures (2 * k + v) / 2 == k + v / 2 && (2 * k + v) % 2 == v % 2
  {}

  lemma HigherBits(k: nat, v: nat, p: nat)
    ensures Has(2 * k + v, p + 1) == Has(k + v / 2, p) && Has(2 * k + v, 0) == Has(v, 0) && Has(v, p + 1) == Has(v / 2, p)
  {
    HalfOf(k, v);
  }

  lemma NibbleOf(b: nat)
    ensures var v := b % 16;
      Has(b, 0) == Has(v, 0) && Has(b, 1) == Has(v, 1) && Has(b, 2) == Has(v, 2) && Has(b, 3) == Has(v, 3)
  {
    var k, v := b / 16, b % 16;
    assert b == 2 * (8 * k) + v;
    forall p: nat ensures Has(b, p + 1) == Has(8 * k + v / 2, p) && Has(v, p + 1) == Has(v / 2, p) { HigherBits(8 * k, v, p); }
    ThreeBits(k, v / 2);
    HigherBits(8 * k, v, 0);
    assert Has(b, 1 + 1) == Has(8 * k + v / 2, 1) && Has(b, 2 + 1) == Has(8 * k + v / 2, 2);
    assert Has(v, 1 + 1) == Has(v / 2, 1) && Has(v, 2 + 1) == Has(v / 2, 2);
  }

  lemma ThreeBits(k: nat, v: nat)
    ensures forall p: nat :: p < 3 ==> Has(8 * k + v, p) == Has(v, p)
  {
    forall p: nat | p < 3 ensures Has(8 * k + v, p) == Has(v, p) {
      HigherBits(4 * k, v, if p > 0 then p - 1 else 0);
      HigherBits(2 * k, v / 2, if p > 1 then p - 2 else 0);
      HigherBits(k, v / 2 / 2, 0);
      assert 8 * k + v == 2 * (4 * k) + v && 4 * k + v / 2 == 2 * (2 * k) + v / 2;
    }
  }

  /** The table gives the lowest bit of a nibble. */
  lemma NibbleTable(b: nat)
    requires b % 16 != 0
    ensures Lowest(b, SEARCH_TABLE[b % 16 - 1])
  {
    NibbleOf(b);
    var v := b % 16;
    LowFour(v);
    if v % 2 == 1 {
    } else if v / 2 % 2 == 1 {
      assert v == 2 || v == 6 || v == 10 || v == 14;
    } else if v / 4 % 2 == 1 {
      assert v == 4 || v == 12;
    } else {
      assert v == 8;
    }
  }

  lemma SixteenBits()
    ensures Pow2(16) == 0x10000
  {
    assert Pow2(4) == 16;
    assert Pow2(8) == 256;
    assert Pow2(12) == 4096;
  }

  /** Shifts the map until the lowest bit set is in the low nibble, and looks that up. */
  method BitmapSearch(bitmap: nat) returns (n: nat)
    requires bitmap != 0 && bitmap < Pow2(16)
    ensures Lowest(bitmap, n)
  {
    SixteenBits();
    var b := bitmap;
    n := 0;
    if b % 256 == 0 {
      b := b / 256;
      n := n + 8;
    }
    ghost var b8 := b;
    ghost var n8 := n;
    if b % 16 == 0 {
      b := b / 16;
      n := n + 4;
    }
    NibbleTable(b);
    var k := SEARCH_TABLE[b % 16 - 1];
    n := n + k;
    if b8 % 16 == 0 { SkipNibble(b8, k); }
    if bitmap % 256 == 0 {
      assert bitmap % 16 == 0 && bitmap / 16 % 16 == 0 && bitmap / 16 / 16 == bitmap / 256;
      SkipNibble(bitmap / 16, n - n8);
      SkipNibble(bitmap, n - n8 + 4);
    }
  }
}
