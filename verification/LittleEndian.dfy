/** Little-endian integers of any width, and reads at a position of a byte buffer. */
module LittleEndian {
  import opened Wrappers

  type byte = x: int | 0 <= x < 256
  type Buffer = seq<byte>

  function Pow256(n: nat): (p: nat)
    ensures p > 0
  {
    if n == 0 then 1 else 256 * Pow256(n - 1)
  }

  lemma Width2()
    ensures Pow256(2) == 0x1_0000
  {
    assert Pow256(1) == 256;
  }

  lemma Width4()
    ensures Pow256(4) == 0x1_0000_0000
  {
    Width2();
    assert Pow256(3) == 256 * Pow256(2);
  }

  /** The n low bytes of x, least significant first. */
  function Encode(x: nat, n: nat): (s: Buffer)
    ensures |s| == n
    decreases n, x
  {
    if n == 0 then [] else [x % 256] + Encode(x / 256, n - 1)
  }

  function Decode(b: Buffer, pos: nat, n: nat): (x: nat)
    requires pos + n <= |b|
    decreases n, pos
  {
    if n == 0 then 0 else b[pos] + 256 * Decode(b, pos + 1, n - 1)
  }

  lemma {:induction false} DecodeSame(b: Buffer, pos: nat, b': Buffer, pos': nat, n: nat)
    requires pos + n <= |b| && pos' + n <= |b'|
    requires forall i :: pos <= i < pos + n ==> b[i] == b'[i - pos + pos']
    ensures Decode(b, pos, n) == Decode(b', pos', n)
    decreases n
  {
    if n > 0 {
      DecodeSame(b, pos + 1, b', pos' + 1, n - 1);
    }
  }

  lemma {:induction false} DecodeEncode(x: nat, n: nat)
    requires x < Pow256(n)
    ensures Decode(Encode(x, n), 0, n) == x
    decreases n, x
  {
    if n > 0 {
      DecodeEncode(x / 256, n - 1);
      DecodeSame(Encode(x, n), 1, Encode(x / 256, n - 1), 0, n - 1);
    }
  }

  // ----- Byte by byte --------------------------------------------------------------------

  lemma Decode2(b: Buffer, pos: nat)
    requires pos + 2 <= |b|
    ensures Decode(b, pos, 2) == b[pos] as int + 0x100 * (b[pos + 1] as int)
  {
    assert Decode(b, pos + 1, 1) == b[pos + 1] + 256 * Decode(b, pos + 2, 0);
  }

  /** The first byte is the least significant one. */
  lemma Decode4(b: Buffer, pos: nat)
    requires pos + 4 <= |b|
    ensures Decode(b, pos, 4) ==
      b[pos] as int + 0x100 * (b[pos + 1] as int) + 0x1_0000 * (b[pos + 2] as int) + 0x100_0000 * (b[pos + 3] as int)
  {
    Decode2(b, pos + 2);
    assert Decode(b, pos + 1, 3) == b[pos + 1] + 256 * Decode(b, pos + 2, 2);
  }

  /** Byte i is digit i of x to the base 256. */
  lemma {:induction false} EncodeDigit(x: nat, n: nat, i: nat)
    requires i < n
    ensures Encode(x, n)[i] == x / Pow256(i) % 256
  {
    if i > 0 {
      EncodeDigit(x / 256, n - 1, i - 1);
      DivideTwice(x, Pow256(i - 1));
    }
  }

  lemma DivideTwice(x: nat, p: nat)
    requires p > 0
    ensures x / (256 * p) == x / 256 / p
  {
    var q, r := x / 256 / p, x / 256 % p;
    assert x / 256 == p * q + r;
    assert x == 256 * (p * q + r) + x % 256;
    assert 256 * (p * q) == (256 * p) * q;
    assert 0 <= 256 * r + x % 256 < 256 * p;
    QuotientOf(x, 256 * p, q, 256 * r + x % 256);
  }

  lemma QuotientOf(x: nat, d: nat, q: nat, r: nat)
    requires x == d * q + r && r < d
    ensures x / d == q
  {
    Monotone(d, q + 1, x / d);
    Monotone(d, x / d + 1, q);
    assert d * (x / d) + x % d == d * q + r;
    assert d * (q + 1) == d * q + d && d * (x / d + 1) == d * (x / d) + d;
  }

  lemma Monotone(d: nat, a: nat, b: nat)
    ensures a <= b ==> d * a <= d * b
  {
  }

  lemma Encode4(x: nat)
    ensures Encode(x, 4) == [x % 256, x / 0x100 % 256, x / 0x1_0000 % 256, x / 0x100_0000 % 256]
  {
    Width2();
    assert Pow256(1) == 0x100 && Pow256(3) == 256 * Pow256(2);
    EncodeDigit(x, 4, 0);
    EncodeDigit(x, 4, 1);
    EncodeDigit(x, 4, 2);
    EncodeDigit(x, 4, 3);
  }

  /** x is a signed integer of n bytes. */
  predicate FitsSigned(x: int, n: nat) {
    0 <= 2 * x + Pow256(n) && 2 * x < Pow256(n)
  }

  /** Its two's-complement bit pattern, as an unsigned number. */
  function ToUnsigned(x: int, n: nat): nat
    requires FitsSigned(x, n)
  {
    if x < 0 then x + Pow256(n) else x
  }

  function ToSigned(v: nat, n: nat): int {
    if 2 * v < Pow256(n) then v else v - Pow256(n)
  }

  /** Reading n bytes at pos; None where Go panics because the slice is out of range. */
  function ReadLE(b: Buffer, pos: int, n: nat): Option<nat> {
    if 0 <= pos && pos + n <= |b| then Some(Decode(b, pos, n)) else None
  }

  function ReadSigned(b: Buffer, pos: int, n: nat): Option<int> {
    var v :- ReadLE(b, pos, n);
    Some(ToSigned(v, n))
  }

  /** Part of b at lo is the whole of mid. */
  ghost predicate Contains(b: Buffer, lo: int, mid: Buffer) {
    && 0 <= lo && lo + |mid| <= |b|
    && forall i :: 0 <= i < |mid| ==> b[lo + i] == mid[i]
  }

  lemma ReadContained(b: Buffer, lo: nat, mid: Buffer, i: nat, n: nat)
    requires Contains(b, lo, mid) && i + n <= |mid|
    ensures ReadLE(b, lo + i, n) == ReadLE(mid, i, n)
  {
    DecodeSame(mid, i, b, lo + i, n);
  }

  lemma ReadEncoded(b: Buffer, pos: nat, x: nat, n: nat)
    requires x < Pow256(n) && Contains(b, pos, Encode(x, n))
    ensures ReadLE(b, pos, n) == Some(x)
  {
    DecodeEncode(x, n);
    ReadContained(b, pos, Encode(x, n), 0, n);
  }

  /** b' is b with bytes prepended: how a builder's buffer grows. */
  ghost predicate Extends(b': Buffer, b: Buffer) {
    Contains(b', |b'| - |b|, b)
  }

  lemma ExtendsTransitive(b2: Buffer, b1: Buffer, b0: Buffer)
    requires Extends(b2, b1) && Extends(b1, b0)
    ensures Extends(b2, b0)
  {
    forall i | 0 <= i < |b0|
      ensures b2[|b2| - |b0| + i] == b0[i]
    {
      assert b1[|b1| - |b0| + i] == b0[i];
    }
  }

  lemma ReadExtended(b': Buffer, b: Buffer, pos: int, n: nat)
    requires Extends(b', b) && 0 <= pos && pos + n <= |b|
    ensures ReadLE(b', |b'| - |b| + pos, n) == ReadLE(b, pos, n)
  {
    ReadContained(b', |b'| - |b|, b, pos, n);
  }
}
