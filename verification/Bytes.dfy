/** Fixed-width integers as bytes. */
module Bytes {
  import opened Prelude

  type Byte = x: int | 0 <= x < 256

  type Text = seq<Byte>

  function Pow256(n: nat): (p: nat)
    ensures p > 0
  {
    if n == 0 then 1 else 256 * Pow256(n - 1)
  }

  lemma Widths()
    ensures Pow256(2) == U16_LIMIT && Pow256(4) == U32_LIMIT && Pow256(8) == U64_LIMIT
  {
    assert Pow256(4) == 256 * (256 * Pow256(2));
    assert Pow256(8) == 256 * (256 * (256 * (256 * Pow256(4))));
  }

  // ------------------------------------------------------------------
  // Least significant byte first

  function LittleEndian(value: nat, n: nat): (r: Text)
    ensures |r| == n
  {
    if n == 0 then [] else [value % 256] + LittleEndian(value / 256, n - 1)
  }

  function FromLittleEndian(bytes: Text): nat {
    if bytes == [] then 0 else bytes[0] + 256 * FromLittleEndian(bytes[1..])
  }

  lemma {:induction false} LittleEndianRoundTrip(value: nat, n: nat)
    requires value < Pow256(n)
    ensures FromLittleEndian(LittleEndian(value, n)) == value
  {
    if n > 0 {
      LittleEndianRoundTrip(value / 256, n - 1);
      assert LittleEndian(value, n)[1..] == LittleEndian(value / 256, n - 1);
    }
  }

  lemma LowByte(low: Byte, rest: nat, limit: nat)
    requires rest < limit
    ensures (low + 256 * rest) % 256 == low && (low + 256 * rest) / 256 == rest
    ensures low + 256 * rest < 256 * limit
  {
  }

  lemma {:induction false} LittleEndianInverse(bytes: Text)
    ensures FromLittleEndian(bytes) < Pow256(|bytes|)
    ensures LittleEndian(FromLittleEndian(bytes), |bytes|) == bytes
  {
    if bytes != [] {
      LittleEndianInverse(bytes[1..]);
      LowByte(bytes[0], FromLittleEndian(bytes[1..]), Pow256(|bytes| - 1));
      assert bytes == [bytes[0]] + bytes[1..];
    }
  }

  /** Byte `i` is the digit of weight 256^i. */
  lemma {:induction false} LittleEndianDigit(value: nat, n: nat, i: nat)
    requires i < n
    ensures LittleEndian(value, n)[i] == value / Pow256(i) % 256
  {
    if i > 0 {
      LittleEndianDigit(value / 256, n - 1, i - 1);
      DivideTwice(value, Pow256(i - 1));
    }
  }

  lemma DivideTwice(value: nat, d: nat)
    requires d > 0
    ensures value / 256 / d == value / (256 * d)
  {
    var q, r := value / (256 * d), value % (256 * d);
    assert value == 256 * (d * q) + r;
    assert value / 256 == d * q + r / 256;
    assert r / 256 < d;
    QuotientIs(value / 256, d, q, r / 256);
  }

  lemma QuotientIs(value: nat, d: nat, q: nat, r: nat)
    requires value == d * q + r && r < d
    ensures value / d == q
  {
    var p := value / d;
    assert value == d * p + value % d;
    if p < q { Grows(d, p, q); } else if q < p { Grows(d, q, p); }
  }

  lemma {:induction false} Grows(d: nat, a: nat, b: nat)
    requires a < b
    ensures d * a + d <= d * b
    decreases b
  {
    if a + 1 < b { Grows(d, a, b - 1); }
  }

  // ------------------------------------------------------------------
  // Most significant byte first

  function BigEndian(value: nat, n: nat): (r: Text)
    ensures |r| == n
  {
    if n == 0 then [] else BigEndian(value / 256, n - 1) + [value % 256]
  }

  lemma {:induction false} BigEndianInjective(a: nat, b: nat, n: nat)
    requires a < Pow256(n) && b < Pow256(n) && BigEndian(a, n) == BigEndian(b, n)
    ensures a == b
  {
    if n > 0 {
      var x, y := BigEndian(a, n), BigEndian(b, n);
      assert x[..n - 1] == BigEndian(a / 256, n - 1) && y[..n - 1] == BigEndian(b / 256, n - 1);
      assert x[n - 1] == a % 256 && y[n - 1] == b % 256;
      BigEndianInjective(a / 256, b / 256, n - 1);
    }
  }

  /** The same bytes, the other way round. */
  lemma {:induction false} BigEndianMirrors(value: nat, n: nat, i: nat)
    requires i < n
    ensures BigEndian(value, n)[i] == LittleEndian(value, n)[n - 1 - i]
  {
    if i < n - 1 { BigEndianMirrors(value / 256, n - 1, i); }
  }

  // ------------------------------------------------------------------
  // Signed values, in two's complement

  function Unsigned(x: int): nat
    requires IsI64(x)
  {
    if x < 0 then x + U64_LIMIT else x
  }

  function Signed(x: nat): (r: int)
    requires x < U64_LIMIT
    ensures IsI64(r) && Unsigned(r) == x
  {
    if x > I64_MAX then x - U64_LIMIT else x
  }

  // ------------------------------------------------------------------
  // Cancelling equal-length prefixes

  lemma Cancel(a: Text, b: Text, x: Text, y: Text)
    requires |a| == |b| && a + x == b + y
    ensures a == b && x == y
  {
    assert a == (a + x)[..|a|] && b == (b + y)[..|b|];
    assert x == (a + x)[|a|..] && y == (b + y)[|b|..];
  }
}
