/** Bytes, fixed-width big-endian integers and the 64-bit two's complement view
    that the ptyhost wire format is written in. */
module Bytes {

  newtype byte = x: int | 0 <= x < 256

  const TWO_63: int := 0x8000_0000_0000_0000
  const TWO_64: int := 0x1_0000_0000_0000_0000

  type int64 = x: int | -0x8000_0000_0000_0000 <= x < 0x8000_0000_0000_0000
  type uint16 = x: int | 0 <= x < 0x1_0000

  function Pow256(w: nat): (p: nat)
    ensures p > 0
  {
    if w == 0 then 1 else 256 * Pow256(w - 1)
  }

  /** The `w`-byte big-endian form of `n`. */
  function PutBE(n: nat, w: nat): (b: seq<byte>)
    requires n < Pow256(w)
    ensures |b| == w
    decreases w
  {
    if w == 0 then [] else PutBE(n / 256, w - 1) + [(n % 256) as byte]
  }

  function GetBE(b: seq<byte>): (n: nat)
    ensures n < Pow256(|b|)
    decreases |b|
  {
    if b == [] then 0 else GetBE(b[..|b| - 1]) * 256 + b[|b| - 1] as nat
  }

  lemma {:induction false} GetPutBE(n: nat, w: nat)
    requires n < Pow256(w)
    ensures GetBE(PutBE(n, w)) == n
    decreases w
  {
    if w > 0 {
      var b := PutBE(n, w);
      assert b[..w - 1] == PutBE(n / 256, w - 1);
      GetPutBE(n / 256, w - 1);
    }
  }

  lemma {:induction false} PutGetBE(b: seq<byte>)
    ensures PutBE(GetBE(b), |b|) == b
    decreases |b|
  {
    if b != [] {
      PutGetBE(b[..|b| - 1]);
      assert b == b[..|b| - 1] + [b[|b| - 1]];
    }
  }

  lemma DivTwice(n: nat, p: nat)
    requires p > 0
    ensures n / 256 / p == n / (256 * p)
  {
    var q, r := n / 256 / p, n / 256 % p;
    assert n / 256 == q * p + r;
    assert n == (256 * p) * q + (256 * r + n % 256) by {
      assert n == 256 * (n / 256) + n % 256;
      assert 256 * (q * p + r) == (256 * p) * q + 256 * r;
    }
    DivIs(n, 256 * p, q, 256 * r + n % 256);
  }

  lemma DivIs(n: nat, d: nat, q: nat, r: nat)
    requires d > 0 && n == d * q + r && r < d
    ensures n / d == q
  {
    DivMod(n, d);
    SameQuotient(d, q, r, n / d, n % d);
  }

  lemma DivMod(n: nat, d: nat)
    requires d > 0
    ensures n == d * (n / d) + n % d && n % d < d
  {
  }

  lemma SameQuotient(d: nat, q: nat, r: nat, q': nat, r': nat)
    requires d * q + r == d * q' + r' && r < d && r' < d
    ensures q == q'
  {
    Difference(d, q, q');
    if q < q' {
      AtLeast(d, q' - q);
    } else if q' < q {
      AtLeast(d, q - q');
    }
  }

  lemma Difference(d: nat, q: nat, q': nat)
    ensures d * q' - d * q == d * (q' - q) && d * q - d * q' == d * (q - q')
  {
  }

  lemma AtLeast(d: nat, k: nat)
    requires k > 0
    ensures d * k >= d
  {
  }

  /** Most significant byte first. */
  lemma {:induction false} PutBEDigits(n: nat, w: nat, i: nat)
    requires n < Pow256(w) && i < w
    ensures PutBE(n, w)[i] as int == n / Pow256(w - 1 - i) % 256
    decreases w
  {
    if i < w - 1 {
      PutBEDigits(n / 256, w - 1, i);
      DivTwice(n, Pow256(w - 2 - i));
    }
  }

  /** Go's `uint64(x)` for an int64: two's complement. */
  function ToUint64(x: int64): (u: nat)
    ensures u < 0x1_0000_0000_0000_0000
  {
    if x < 0 then x + TWO_64 else x
  }

  /** Go's `int64(u)` for a uint64. */
  function FromUint64(u: nat): (x: int64)
    requires u < 0x1_0000_0000_0000_0000
    ensures ToUint64(x) == u
    ensures forall y: int64 :: ToUint64(y) == u ==> y == x
  {
    if u >= TWO_63 then u - TWO_64 else u
  }

  lemma Widths()
    ensures Pow256(2) == 0x1_0000
    ensures Pow256(4) == 0x1_0000_0000
    ensures Pow256(8) == 0x1_0000_0000_0000_0000
  {
    assert Pow256(0) == 1;
    assert Pow256(1) == 256;
    assert Pow256(2) == 0x1_0000;
    assert Pow256(3) == 0x100_0000;
    assert Pow256(4) == 0x1_0000_0000;
    assert Pow256(5) == 0x100_0000_0000;
    assert Pow256(6) == 0x1_0000_0000_0000;
    assert Pow256(7) == 0x100_0000_0000_0000;
  }

  lemma Assoc<T>(a: seq<T>, b: seq<T>, c: seq<T>)
    ensures (a + b) + c == a + (b + c)
  {
  }

  lemma PlusNil<T>(s: seq<T>)
    ensures s + [] == s && [] + s == s
  {
  }
}
