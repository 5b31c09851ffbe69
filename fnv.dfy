/*
 * PHP's `hash('fnv164', $s)`: the 64-bit FNV-1 hash (Fowler/Noll/Vo,
 * IETF draft-eastlake-fnv, section 2) of the bytes of `$s`, rendered as
 * 16 lower-case hexadecimal digits, most significant first.
 */
module Fnv {

  /** FNV-1 64 offset basis. */
  const OffsetBasis: bv64 := 0xcbf2_9ce4_8422_2325
  /** FNV-1 64 prime, 2^40 + 2^8 + 0xb3. */
  const Prime: bv64 := 0x100_0000_01b3

  /** A PHP string is a byte string; a character of the model stands for one byte. */
  function Byte(c: char): bv8
  {
    if c as int < 256 then (c as int) as bv8 else ((c as int) % 256) as bv8
  }

  function Bytes(s: string): (b: seq<bv8>)
    ensures |b| == |s|
    ensures forall i :: 0 <= i < |s| ==> b[i] == Byte(s[i])
  {
    if s == [] then [] else [Byte(s[0])] + Bytes(s[1..])
  }

  lemma {:induction false} BytesAppend(s: string, t: string)
    ensures Bytes(s + t) == Bytes(s) + Bytes(t)
  {
    if s == [] {
      assert s + t == t;
    } else {
      assert (s + t)[0] == s[0] && (s + t)[1..] == s[1..] + t;
      BytesAppend(s[1..], t);
    }
  }

  /** One round of FNV-1: multiply by the prime (mod 2^64), then xor the byte in. */
  function Step(h: bv64, b: bv8): bv64
  {
    (h * 0x100_0000_01b3) ^ (b as bv64)
  }

  /** FNV-1 64 of a byte sequence: the offset basis, then one Step per byte in order. */
  function Hash(data: seq<bv8>): bv64
  {
    if data == [] then OffsetBasis else Step(Hash(data[..|data| - 1]), data[|data| - 1])
  }

  /** Continues a hash from state `h` over `data`, front to back. */
  function Continue(h: bv64, data: seq<bv8>): bv64
    decreases |data|
  {
    if data == [] then h else Continue(Step(h, data[0]), data[1..])
  }

  lemma {:induction false} ContinueSnoc(h: bv64, data: seq<bv8>, b: bv8)
    ensures Continue(h, data + [b]) == Step(Continue(h, data), b)
    decreases |data|
  {
    if data != [] {
      assert (data + [b])[1..] == data[1..] + [b];
      ContinueSnoc(Step(h, data[0]), data[1..], b);
    }
  }

  /**
   * Hashing is incremental: the hash of `a + b` continues the hash of `a`
   * over `b`; with `a` empty this says Hash is the front-to-back fold.
   */
  lemma {:induction false} HashConcat(a: seq<bv8>, b: seq<bv8>)
    ensures Hash(a + b) == Continue(Hash(a), b)
    decreases |b|
  {
    if b == [] {
      assert a + b == a;
    } else {
      var b' := b[..|b| - 1];
      assert (a + b)[..|a + b| - 1] == a + b';
      HashConcat(a, b');
      ContinueSnoc(Hash(a), b', b[|b| - 1]);
      assert b' + [b[|b| - 1]] == b;
    }
  }

  lemma {:induction false} ContinueConcat(h: bv64, a: seq<bv8>, b: seq<bv8>)
    ensures Continue(h, a + b) == Continue(Continue(h, a), b)
    decreases |a|
  {
    if a == [] {
      assert a + b == b;
    } else {
      assert (a + b)[1..] == a[1..] + b;
      ContinueConcat(Step(h, a[0]), a[1..], b);
    }
  }

  /** Hashing the bytes of `s + t` carries on from where hashing `s` stopped. */
  lemma ContinueBytesConcat(h: bv64, s: string, t: string)
    ensures Continue(h, Bytes(s + t)) == Continue(Continue(h, Bytes(s)), Bytes(t))
  {
    BytesAppend(s, t);
    ContinueConcat(h, Bytes(s), Bytes(t));
  }

  /** The hash is the front-to-back fold of Step from the offset basis. */
  lemma HashIsFold(data: seq<bv8>)
    ensures Hash(data) == Continue(OffsetBasis, data)
  {
    HashConcat([], data);
    assert [] + data == data;
  }

  function HexDigit(d: nat): (c: char)
    requires d < 16
    ensures IsHexDigit(c) && HexDigitValue(c) == d
  {
    if d < 10 then '0' + d as char else 'a' + (d - 10) as char
  }

  predicate IsHexDigit(c: char) { '0' <= c <= '9' || 'a' <= c <= 'f' }

  function HexDigitValue(c: char): nat
    requires IsHexDigit(c)
  {
    if c <= '9' then (c - '0') as nat else (c - 'a') as nat + 10
  }

  /** The `n` low hexadecimal digits of `x`, most significant first. */
  function HexDigits(x: nat, n: nat): (s: string)
    ensures |s| == n
    ensures forall i :: 0 <= i < n ==> IsHexDigit(s[i])
  {
    if n == 0 then [] else HexDigits(x / 16, n - 1) + [HexDigit(x % 16)]
  }

  /** One more digit: writing `x` as `16 * y + d`, its rendering extends that of `y` by the digit `d`. */
  lemma HexDigitsPush(x: nat, y: nat, d: nat, n: nat, prefix: string)
    requires d < 16 && x == 16 * y + d && HexDigits(y, n) == prefix
    ensures HexDigits(x, n + 1) == prefix + [HexDigit(d)]
  {
  }

  /** The number a string of hexadecimal digits denotes. */
  function HexValue(s: string): nat
    requires forall i :: 0 <= i < |s| ==> IsHexDigit(s[i])
  {
    if s == [] then 0 else HexValue(s[..|s| - 1]) * 16 + HexDigitValue(s[|s| - 1])
  }

  function Pow16(n: nat): (p: nat)
    ensures p > 0
  {
    if n == 0 then 1 else 16 * Pow16(n - 1)
  }

  lemma {:induction false} HexDigitsValue(x: nat, n: nat)
    ensures HexValue(HexDigits(x, n)) == x % Pow16(n)
  {
    if n > 0 {
      var s := HexDigits(x, n);
      assert s[..n - 1] == HexDigits(x / 16, n - 1);
      HexDigitsValue(x / 16, n - 1);
      DivMod16(x, Pow16(n - 1));
    }
  }

  lemma DivMod16(x: nat, p: nat)
    requires p > 0
    ensures (x / 16) % p * 16 + x % 16 == x % (16 * p)
  {
    var q, r := x / 16, x % 16;
    var q2, r2 := q / p, q % p;
    assert x == (16 * p) * q2 + (16 * r2 + r) by {
      assert x == 16 * q + r;
      assert q == p * q2 + r2;
      assert 16 * q == 16 * p * q2 + 16 * r2;
    }
    ModOfSum(x, 16 * p, q2, 16 * r2 + r);
  }

  lemma ModOfSum(x: nat, m: nat, a: nat, b: nat)
    requires m > 0 && b < m && x == m * a + b
    ensures x % m == b
  {
    var a', b' := x / m, x % m;
    assert x == m * a' + b';
    assert m * (a - a') == b' - b;
    if a > a' {
      MulAtLeast(m, a - a');
    } else if a < a' {
      MulAtLeast(m, a' - a);
    }
  }

  lemma MulAtLeast(m: nat, k: int)
    requires k >= 1
    ensures m * k >= m
  {
  }

  /** The 16-digit lower-case hexadecimal rendering of a 64-bit hash. */
  function Hex(h: bv64): string
  {
    HexDigits(h as nat, 16)
  }

  lemma Pow16Of8()
    ensures Pow16(8) == 0x1_0000_0000
  {
    assert Pow16(1) == 0x10;
    assert Pow16(2) == 0x100;
    assert Pow16(3) == 0x1000;
    assert Pow16(4) == 0x10000;
    assert Pow16(5) == 0x100000;
    assert Pow16(6) == 0x1000000;
    assert Pow16(7) == 0x10000000;
    assert Pow16(8) == 0x100000000;
  }

  lemma Pow16Of16()
    ensures Pow16(16) == 0x1_0000_0000_0000_0000
  {
    Pow16Of8();
    assert Pow16(9) == 0x1000000000;
    assert Pow16(10) == 0x10000000000;
    assert Pow16(11) == 0x100000000000;
    assert Pow16(12) == 0x1000000000000;
    assert Pow16(13) == 0x10000000000000;
    assert Pow16(14) == 0x100000000000000;
    assert Pow16(15) == 0x1000000000000000;
    assert Pow16(16) == 0x10000000000000000;
  }

  lemma HexDigits16(x: nat)
    requires x < 0x1_0000_0000_0000_0000
    ensures HexValue(HexDigits(x, 16)) == x
  {
    HexDigitsValue(x, 16);
    Pow16Of16();
  }

  /** Hex is a faithful rendering: 16 hexadecimal digits that read back as the hash itself. */
  lemma HexRoundTrip(h: bv64)
    ensures |Hex(h)| == 16
    ensures forall i :: 0 <= i < 16 ==> IsHexDigit(Hex(h)[i])
    ensures HexValue(Hex(h)) == h as nat
  {
    HexDigits16(h as nat);
  }

  /** `hash('fnv164', $s)`. */
  function Fnv164(s: string): (d: string)
    ensures |d| == 16
    ensures forall i :: 0 <= i < 16 ==> IsHexDigit(d[i])
  {
    Hex(Hash(Bytes(s)))
  }
}
