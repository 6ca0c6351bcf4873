/**
 * Fixed-width integers and their little-endian byte layout, as produced by
 * Go's encoding/binary with binary.LittleEndian.
 */
module Wire {

  type byte = x: int | 0 <= x < 0x100
  type uint16 = x: int | 0 <= x < 0x1_0000

  /** 256 to the power n: the number of values that n bytes can hold. */
  function Pow256(n: nat): (r: nat)
    ensures r > 0
  {
    if n == 0 then 1 else 256 * Pow256(n - 1)
  }

  /**
   * The `width` little-endian bytes of n. A value that does not fit is
   * reduced modulo 256^width, which is what Go's truncating conversion
   * (uint16(x), uint64(x)) does before the bytes are written.
   */
  function LE(n: nat, width: nat): (r: seq<byte>)
    ensures |r| == width
  {
    if width == 0 then [] else [n % 256] + LE(n / 256, width - 1)
  }

  /** The unsigned number whose little-endian bytes are s. */
  function FromLE(s: seq<byte>): (r: nat)
    ensures r < Pow256(|s|)
  {
    if s == [] then 0 else s[0] + 256 * FromLE(s[1..])
  }

  /** Division with remainder is unique. */
  lemma DivModUnique(n: int, m: int, q: int, c: int)
    requires m > 0 && 0 <= c < m && n == m * q + c
    ensures n % m == c && n / m == q
  {
    var d := n / m - q;
    assert m * (n / m) + n % m == n;
    assert m * d == c - n % m by {
      assert m * d == m * (n / m) - m * q;
    }
    MulAwayFromZero(m, d);
  }

  /** A nonzero multiple of a positive m is at least m away from zero. */
  lemma MulAwayFromZero(m: int, d: int)
    requires m > 0
    ensures d >= 1 ==> m * d >= m
    ensures d <= -1 ==> m * d <= -m
  {
    if d >= 1 {
      assert m * d == m * (d - 1) + m;
    } else if d <= -1 {
      assert m * d == m * (d + 1) - m;
    }
  }

  /** Decoding the bytes of an encoding gives the value back, modulo the width. */
  lemma {:induction false} FromLEOfLE(n: nat, width: nat)
    ensures FromLE(LE(n, width)) == n % Pow256(width)
  {
    if width == 0 {
      assert LE(n, 0) == [];
    } else {
      var s := LE(n, width);
      assert s[0] == n % 256 && s[1..] == LE(n / 256, width - 1);
      FromLEOfLE(n / 256, width - 1);
      Reassemble(n, Pow256(width - 1));
    }
  }

  /** The low byte of n and the rest of n modulo p make up n modulo 256 * p. */
  lemma Reassemble(n: nat, p: nat)
    requires p > 0
    ensures n % 256 + 256 * ((n / 256) % p) == n % (256 * p)
  {
    var q, r := n / 256, n % 256;
    var a, b := q / p, q % p;
    assert q == p * a + b;
    assert 256 * (p * a) == (256 * p) * a;
    assert n == (256 * p) * a + (256 * b + r);
    DivModUnique(n, 256 * p, a, 256 * b + r);
  }

  /** The encoding of a value that fits in `width` bytes decodes to that value. */
  lemma LERoundTrip(n: nat, width: nat)
    requires n < Pow256(width)
    ensures FromLE(LE(n, width)) == n
  {
    FromLEOfLE(n, width);
  }

  /** Go's conversion of a signed integer to the unsigned type of the same width. */
  function Unsigned(i: int, width: nat): (r: nat)
    ensures r < Pow256(width)
  {
    i % Pow256(width)
  }

  /** Two's complement reading of an unsigned `width`-byte pattern. */
  function Signed(u: nat, width: nat): (r: int)
    requires u < Pow256(width)
    ensures -(Pow256(width) as int) <= 2 * r < Pow256(width)
  {
    if 2 * u >= Pow256(width) then u - Pow256(width) else u
  }

  /** Whether i is representable as a signed `width`-byte integer. */
  predicate InSignedRange(i: int, width: nat)
  {
    -(Pow256(width) as int) <= 2 * i < Pow256(width)
  }

  /** Writing a representable signed integer and reading it back is the identity. */
  lemma SignedUnsigned(i: int, width: nat)
    requires InSignedRange(i, width)
    ensures Signed(Unsigned(i, width), width) == i
  {
    var p := Pow256(width);
    if i >= 0 {
      DivModUnique(i, p, 0, i);
    } else {
      DivModUnique(i, p, -1, i + p);
    }
  }

  /** The little-endian bytes of a uint16. */
  function LE16(n: uint16): (r: seq<byte>)
    ensures |r| == 2 && FromLE(r) == n
  {
    LERoundTrip(n, 2);
    LE(n, 2)
  }
}
