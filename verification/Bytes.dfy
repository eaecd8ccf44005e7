/** Little-endian integers and the FNV-1a checksum of the Raft log (`file_store.rs`). */
module Bytes {
  import opened Prelude

  type Byte = n: int | 0 <= n < 256

  const FNV_OFFSET: U32 := 0x811c9dc5
  const FNV_PRIME: U32 := 0x01000193
  const TWO_32: nat := 0x1_0000_0000
  /** The multiplicative inverse of FNV_PRIME modulo 2^32. */
  const FNV_PRIME_INVERSE: U32 := 0x359c449b

  function Power(base: nat, exponent: nat): (p: nat)
    ensures base > 0 ==> p > 0
  {
    if exponent == 0 then 1 else base * Power(base, exponent - 1)
  }

  function ToLE(n: nat, width: nat): (s: seq<Byte>)
    ensures |s| == width
  {
    if width == 0 then [] else [n % 256] + ToLE(n / 256, width - 1)
  }

  function FromLE(s: seq<Byte>): nat {
    if s == [] then 0 else s[0] + 256 * FromLE(s[1..])
  }

  lemma {:induction false} FromToLE(n: nat, width: nat)
    requires n < Power(256, width)
    ensures FromLE(ToLE(n, width)) == n
  {
    if width > 0 {
      FromToLE(n / 256, width - 1);
      assert ToLE(n, width)[1..] == ToLE(n / 256, width - 1);
    }
  }

  lemma LowByte(b: Byte, n: nat)
    ensures (b + 256 * n) % 256 == b && (b + 256 * n) / 256 == n
  {
  }

  lemma {:induction false} ToFromLE(s: seq<Byte>)
    ensures ToLE(FromLE(s), |s|) == s
  {
    if s != [] {
      ToFromLE(s[1..]);
      LowByte(s[0], FromLE(s[1..]));
    }
  }

  /** Two fields of the same width that read as the same number are the same bytes. */
  lemma FromLEInjective(s: seq<Byte>, t: seq<Byte>)
    requires |s| == |t| && FromLE(s) == FromLE(t)
    ensures s == t
  {
    ToFromLE(s);
    ToFromLE(t);
  }

  lemma Widths()
    ensures Power(256, 4) == TWO_32 == U32_MAX + 1
    ensures Power(256, 8) == U64_MAX + 1
  {
    assert Power(256, 2) == 0x1_0000;
    assert Power(256, 4) == 256 * (256 * Power(256, 2));
    assert Power(256, 6) == 256 * (256 * Power(256, 4));
    assert Power(256, 8) == 256 * (256 * Power(256, 6));
  }

  /** Bitwise exclusive or of the low `width` bits. */
  function Xor(a: nat, b: nat, width: nat): nat {
    if width == 0 then 0 else (a + b) % 2 + 2 * Xor(a / 2, b / 2, width - 1)
  }

  lemma {:induction false} XorBound(a: nat, b: nat, width: nat)
    ensures Xor(a, b, width) < Power(2, width)
  {
    if width > 0 {
      XorBound(a / 2, b / 2, width - 1);
    }
  }

  lemma {:induction false} XorSymmetric(a: nat, b: nat, width: nat)
    ensures Xor(a, b, width) == Xor(b, a, width)
  {
    if width > 0 {
      XorSymmetric(a / 2, b / 2, width - 1);
    }
  }

  lemma XorDigits(a: nat, b: nat, width: nat)
    requires width > 0
    ensures Xor(a, b, width) % 2 == (a + b) % 2
    ensures Xor(a, b, width) / 2 == Xor(a / 2, b / 2, width - 1)
  {
  }

  lemma Parity(a: nat, b: nat, x: nat)
    requires x % 2 == (a + b) % 2
    ensures (x + b) % 2 == a % 2
  {
  }

  lemma {:induction false} XorCancels(a: nat, b: nat, width: nat)
    requires a < Power(2, width)
    ensures Xor(Xor(a, b, width), b, width) == a
  {
    if width > 0 {
      assert a / 2 < Power(2, width - 1);
      XorCancels(a / 2, b / 2, width - 1);
      XorDigits(a, b, width);
      XorDigits(Xor(a, b, width), b, width);
      Parity(a, b, Xor(a, b, width));
    }
  }

  lemma XorWord()
    ensures Power(2, 32) == TWO_32
  {
    assert Power(2, 8) == 256 by { assert Power(2, 4) == 16; }
    assert Power(2, 12) == 16 * Power(2, 8) by { assert Power(2, 10) == 4 * Power(2, 8); }
    assert Power(2, 16) == 16 * Power(2, 12) by { assert Power(2, 14) == 4 * Power(2, 12); }
    assert Power(2, 20) == 16 * Power(2, 16) by { assert Power(2, 18) == 4 * Power(2, 16); }
    assert Power(2, 24) == 16 * Power(2, 20) by { assert Power(2, 22) == 4 * Power(2, 20); }
    assert Power(2, 28) == 16 * Power(2, 24) by { assert Power(2, 26) == 4 * Power(2, 24); }
    assert Power(2, 32) == 16 * Power(2, 28) by { assert Power(2, 30) == 4 * Power(2, 28); }
  }

  function FnvStep(hash: U32, b: Byte): U32 {
    (Xor(hash, b, 32) * FNV_PRIME) % TWO_32
  }

  function FnvFrom(hash: U32, bytes: seq<Byte>): U32
    decreases |bytes|
  {
    if bytes == [] then hash else FnvFrom(FnvStep(hash, bytes[0]), bytes[1..])
  }

  function Checksum(bytes: seq<Byte>): U32 {
    FnvFrom(FNV_OFFSET, bytes)
  }

  method Checksum32(bytes: seq<Byte>) returns (hash: U32)
    ensures hash == Checksum(bytes)
  {
    hash := FNV_OFFSET;
    for i := 0 to |bytes|
      invariant FnvFrom(hash, bytes[i..]) == FnvFrom(FNV_OFFSET, bytes)
    {
      XorWord();
      XorBound(hash, bytes[i], 32);
      assert bytes[i..][1..] == bytes[i + 1..];
      hash := Xor(hash, bytes[i], 32);
      hash := (hash * FNV_PRIME) % TWO_32;
    }
  }

  lemma MultiplyInjective(x: nat, y: nat)
    requires x < TWO_32 && y < TWO_32
    requires (x * FNV_PRIME) % TWO_32 == (y * FNV_PRIME) % TWO_32
    ensures x == y
  {
    Undo(x);
    Undo(y);
  }

  lemma ModuloPlus(r: nat, k: int, m: nat)
    requires r < m
    ensures (r + k * m) % m == r
  {
    var n := r + k * m;
    var quotient, remainder := n / m, n % m;
    assert quotient * m + remainder == r + k * m;
    assert (quotient - k) * m == r - remainder by {
      Distribute(quotient, k, m);
    }
    Small(quotient - k, m, r - remainder);
  }

  lemma Distribute(a: int, b: int, c: int)
    ensures (a - b) * c == a * c - b * c
  {
  }

  /** A multiple of `m` strictly between -m and m is 0. */
  lemma Small(k: int, m: nat, d: int)
    requires k * m == d && 0 - m < d < m
    ensures d == 0
  {
    if k >= 1 {
      MultiplyUp(k, m);
    } else if k <= -1 {
      MultiplyUp(-k, m);
    }
  }

  lemma MultiplyUp(k: nat, m: nat)
    requires k >= 1
    ensures k * m >= m
  {
  }

  /** From `p = q * m + r` and `u * v = c * m + 1`, with `p = x * u`: `r * v` is `x` up to a multiple of `m`. */
  lemma Cancel(x: nat, u: nat, v: nat, c: nat, q: nat, r: nat, m: nat)
    requires x * u == q * m + r && u * v == c * m + 1
    ensures r * v == x + (x * c - q * v) * m
  {
    calc {
      r * v;
      == (x * u - q * m) * v;
      == { Distribute(x * u, q * m, v); }
      (x * u) * v - (q * m) * v;
      == { Regroup(x, u, v); Swap(q, m, v); }
      x * (u * v) - (q * v) * m;
      == x * (c * m + 1) - (q * v) * m;
      == { Expand(x, c, m); }
      x + (x * c) * m - (q * v) * m;
      == { Distribute(x * c, q * v, m); }
      x + (x * c - q * v) * m;
    }
  }

  lemma Regroup(a: int, b: int, c: int)
    ensures (a * b) * c == a * (b * c)
  {
  }

  lemma Swap(a: int, b: int, c: int)
    ensures (a * b) * c == (a * c) * b
  {
    Regroup(a, b, c);
    Regroup(a, c, b);
  }

  lemma Expand(x: int, c: int, m: int)
    ensures x * (c * m + 1) == x + (x * c) * m
  {
    Regroup(x, c, m);
  }

  lemma Undo(x: nat)
    requires x < TWO_32
    ensures (((x * FNV_PRIME) % TWO_32) * FNV_PRIME_INVERSE) % TWO_32 == x
  {
    var product := x * FNV_PRIME;
    var q, r := product / TWO_32, product % TWO_32;
    var c := (FNV_PRIME * FNV_PRIME_INVERSE) / TWO_32;
    Cancel(x, FNV_PRIME, FNV_PRIME_INVERSE, c, q, r, TWO_32);
    ModuloPlus(x, x * c - q * FNV_PRIME_INVERSE, TWO_32);
  }

  lemma StepInjective(g: U32, h: U32, a: Byte, b: Byte)
    requires FnvStep(g, a) == FnvStep(h, b)
    ensures g == h ==> a == b
    ensures a == b ==> g == h
  {
    XorWord();
    XorBound(g, a, 32);
    XorBound(h, b, 32);
    MultiplyInjective(Xor(g, a, 32), Xor(h, b, 32));
    XorCancels(g, a, 32);
    XorCancels(h, b, 32);
    XorSymmetric(g, a, 32);
    XorSymmetric(h, b, 32);
    XorCancels(a, g, 32);
    XorCancels(b, h, 32);
  }

  lemma {:induction false} FnvInjectiveInHash(g: U32, h: U32, bytes: seq<Byte>)
    requires FnvFrom(g, bytes) == FnvFrom(h, bytes)
    ensures g == h
    decreases |bytes|
  {
    if bytes != [] {
      FnvInjectiveInHash(FnvStep(g, bytes[0]), FnvStep(h, bytes[0]), bytes[1..]);
      StepInjective(g, h, bytes[0], bytes[0]);
    }
  }

  lemma {:induction false} FnvDetectsByte(hash: U32, bytes: seq<Byte>, k: nat, b: Byte)
    requires k < |bytes| && b != bytes[k]
    ensures FnvFrom(hash, bytes[k := b]) != FnvFrom(hash, bytes)
    decreases k
  {
    var changed := bytes[k := b];
    if k == 0 {
      assert changed[1..] == bytes[1..];
      if FnvFrom(hash, changed) == FnvFrom(hash, bytes) {
        FnvInjectiveInHash(FnvStep(hash, b), FnvStep(hash, bytes[0]), bytes[1..]);
        StepInjective(hash, hash, b, bytes[0]);
        assert false;
      }
    } else {
      assert changed[1..] == bytes[1..][k - 1 := b];
      FnvDetectsByte(FnvStep(hash, bytes[0]), bytes[1..], k - 1, b);
    }
  }

  /** Altering one byte always alters the checksum: FNV-1a is injective in each byte. */
  lemma ChecksumDetectsByte(bytes: seq<Byte>, k: nat, b: Byte)
    requires k < |bytes| && b != bytes[k]
    ensures Checksum(bytes[k := b]) != Checksum(bytes)
  {
    FnvDetectsByte(FNV_OFFSET, bytes, k, b);
  }
}
