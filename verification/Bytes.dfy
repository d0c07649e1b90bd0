/** Bytes on a connection, and the big-endian length fields every framing of the repository uses. */
module Bytes {

  newtype Byte = x: int | 0 <= x < 256

  /** 256 to the power `width`: the number of values a length field of `width` bytes holds. */
  function Pow256(width: nat): (p: nat)
    ensures p > 0
  {
    if width == 0 then 1 else 256 * Pow256(width - 1)
  }

  /** The low `width` bytes of `n`, most significant first. A larger `n` is truncated, as Go's uint32(n) is. */
  function BigEndian(n: nat, width: nat): (b: seq<Byte>)
    ensures |b| == width
  {
    if width == 0 then [] else BigEndian(n / 256, width - 1) + [(n % 256) as Byte]
  }

  function FromBigEndian(b: seq<Byte>): (n: nat)
    ensures n < Pow256(|b|)
  {
    if b == [] then 0 else FromBigEndian(b[..|b| - 1]) * 256 + b[|b| - 1] as nat
  }

  lemma MultipleOutsideModulus(d: int, x: int)
    requires d > 0
    ensures x >= 1 ==> d * x >= d
    ensures x <= -1 ==> d * x <= -d
  {
    if x >= 1 {
      assert d * x == d * (x - 1) + d;
    } else if x <= -1 {
      assert d * x == d * (x + 1) - d;
    }
  }

  lemma ModUnique(n: nat, d: nat, k: nat, m: nat)
    requires m < d && n == d * k + m
    ensures n % d == m
  {
    var q := n / d;
    assert n == d * q + n % d;
    assert d * (q - k) == d * q - d * k == m - n % d;
    MultipleOutsideModulus(d, q - k);
  }

  lemma SplitLow(n: nat, p: nat)
    requires p > 0
    ensures n % (256 * p) == 256 * (n / 256 % p) + n % 256
  {
    var q := n / 256;
    var k, m := q / p, q % p;
    assert q == p * k + m;
    assert n == 256 * q + n % 256;
    assert 256 * (p * k) == (256 * p) * k;
    assert n == (256 * p) * k + (256 * m + n % 256);
    ModUnique(n, 256 * p, k, 256 * m + n % 256);
  }

  /** Reading a length field back gives the length modulo what the field holds. */
  lemma {:induction false} FieldRoundTrip(n: nat, width: nat)
    ensures FromBigEndian(BigEndian(n, width)) == n % Pow256(width)
  {
    if width > 0 {
      FieldRoundTrip(n / 256, width - 1);
      var b := BigEndian(n, width);
      assert b[..width - 1] == BigEndian(n / 256, width - 1);
      SplitLow(n, Pow256(width - 1));
    }
  }

  /** The four assignments of binary.BigEndian.PutUint32 produce the four-byte field. */
  lemma FourBytes(n: nat)
    ensures BigEndian(n, 4) ==
            [(n / 0x100_0000 % 256) as Byte, (n / 0x1_0000 % 256) as Byte, (n / 256 % 256) as Byte, (n % 256) as Byte]
  {
    assert n / 256 / 256 == n / 0x1_0000;
    assert n / 0x1_0000 / 256 == n / 0x100_0000;
    var a := n / 256;
    var b := a / 256;
    var c := b / 256;
    assert BigEndian(c, 1) == BigEndian(c / 256, 0) + [(c % 256) as Byte];
    assert BigEndian(b, 2) == BigEndian(c, 1) + [(b % 256) as Byte];
    assert BigEndian(a, 3) == BigEndian(b, 2) + [(a % 256) as Byte];
  }

  lemma ThreeBytes(n: nat)
    ensures BigEndian(n, 3) == [(n / 0x1_0000 % 256) as Byte, (n / 256 % 256) as Byte, (n % 256) as Byte]
  {
    assert n / 256 / 256 == n / 0x1_0000;
    var a := n / 256;
    var b := a / 256;
    assert BigEndian(b, 1) == BigEndian(b / 256, 0) + [(b % 256) as Byte];
    assert BigEndian(a, 2) == BigEndian(b, 1) + [(a % 256) as Byte];
  }

  lemma FieldCapacities()
    ensures Pow256(3) == 0x100_0000 && Pow256(4) == 0x1_0000_0000
  {
    assert Pow256(0) == 1;
    assert Pow256(1) == 256;
    assert Pow256(2) == 0x1_0000;
  }
}
