/*
 * The slice of PHP's runtime semantics that the ORM core relies on:
 * scalars and their truthiness, the `(int)` cast, decimal rendering,
 * array keys with PHP's integer-string normalisation, ordered arrays
 * with `$a[$k] = $v`, lookup and the left-biased union `$a + $b`.
 */
module Php {

  datatype Option<T> = None | Some(value: T)

  /** The exceptions the core raises: an engine TypeError, or `new \RuntimeException($message, $code)`. */
  datatype Exception = TypeError | RuntimeException(message: string, code: int)

  /** A call that returns a value or throws. */
  datatype Outcome<T> = Ok(value: T) | Thrown(error: Exception)

  /** The 64-bit integer range of PHP_INT_MIN .. PHP_INT_MAX. */
  const MinInt: int := -0x8000_0000_0000_0000
  const MaxInt: int := 0x7FFF_FFFF_FFFF_FFFF

  predicate InIntRange(i: int) { MinInt <= i <= MaxInt }

  /** A scalar PHP value (floats are not modelled). */
  datatype Scalar = Null | Bool(b: bool) | Int(i: int) | Str(s: string)

  /** An array key: PHP keeps integer keys and string keys apart. */
  datatype Key = IntKey(i: int) | StrKey(s: string)

  /** A PHP value: a scalar or an ordered array of key/value entries. */
  datatype Value = Sc(scalar: Scalar) | Arr(entries: seq<(Key, Value)>)

  /** `if ($v)`: null, false, 0, "" and "0" are falsy. */
  predicate Truthy(v: Scalar)
  {
    match v
    case Null => false
    case Bool(b) => b
    case Int(i) => i != 0
    case Str(s) => s != "" && s != "0"
  }

  predicate IsDigit(c: char) { '0' <= c <= '9' }

  function DigitChar(d: nat): (c: char)
    requires d < 10
    ensures IsDigit(c) && DigitValue(c) == d
  {
    '0' + d as char
  }

  function DigitValue(c: char): nat
    requires IsDigit(c)
  {
    (c - '0') as nat
  }

  /** Decimal rendering of a natural number, most significant digit first. */
  function NatToString(n: nat): (s: string)
    decreases n
  {
    if n < 10 then [DigitChar(n)] else NatToString(n / 10) + [DigitChar(n % 10)]
  }

  /** Value of a string of decimal digits (the empty string reads as 0). */
  function DigitsValue(s: string): nat
    requires forall i :: 0 <= i < |s| ==> IsDigit(s[i])
  {
    if s == [] then 0 else DigitsValue(s[..|s| - 1]) * 10 + DigitValue(s[|s| - 1])
  }

  /** How PHP renders an integer as a string: an optional '-' and the decimal digits. */
  function IntToString(i: int): string
  {
    if i < 0 then "-" + NatToString(-i) else NatToString(i)
  }

  lemma {:induction false} NatToStringShape(n: nat)
    ensures |NatToString(n)| > 0
    ensures forall i :: 0 <= i < |NatToString(n)| ==> IsDigit(NatToString(n)[i])
    ensures DigitsValue(NatToString(n)) == n
    ensures n > 0 ==> NatToString(n)[0] != '0'
    ensures n == 0 ==> NatToString(n) == "0"
    decreases n
  {
    if n >= 10 {
      NatToStringShape(n / 10);
      var s := NatToString(n);
      assert s[..|s| - 1] == NatToString(n / 10);
    }
  }

  /**
   * The strings PHP converts to an integer key: "0", or an optional '-'
   * followed by a non-zero digit and further digits, whose value fits in
   * PHP_INT_MIN .. PHP_INT_MAX ("-0", "01" and " 1" stay strings).
   */
  predicate IsIntegerKeyString(s: string)
  {
    if s == "0" then true
    else if |s| > 0 && s[0] == '-' then
      |s| > 1 && '1' <= s[1] <= '9' && (forall i :: 1 <= i < |s| ==> IsDigit(s[i]))
      && InIntRange(-(DigitsValue(s[1..]) as int))
    else
      |s| > 0 && '1' <= s[0] <= '9' && (forall i :: 0 <= i < |s| ==> IsDigit(s[i]))
      && InIntRange(DigitsValue(s))
  }

  /** The integer such a string denotes. */
  function IntegerKeyValue(s: string): int
    requires IsIntegerKeyString(s)
  {
    if s[0] == '-' then -(DigitsValue(s[1..]) as int) else DigitsValue(s)
  }

  /** The key `$a[$s]` uses for a string offset `$s`. */
  function KeyOf(s: string): Key
  {
    if IsIntegerKeyString(s) then IntKey(IntegerKeyValue(s)) else StrKey(s)
  }

  /** A key as a string, the way `'prefix' . $key` renders it. */
  function KeyString(k: Key): string
  {
    match k
    case IntKey(i) => IntToString(i)
    case StrKey(s) => s
  }

  /** Keys a real PHP array can hold: integers in range, and strings PHP would not turn into integers. */
  predicate ValidKey(k: Key)
  {
    match k
    case IntKey(i) => InIntRange(i)
    case StrKey(s) => !IsIntegerKeyString(s)
  }

  lemma IntKeyRoundTrip(i: int)
    requires InIntRange(i)
    ensures IsIntegerKeyString(IntToString(i))
    ensures KeyOf(IntToString(i)) == IntKey(i)
  {
    if i < 0 {
      NegativeKeyRoundTrip(i);
    } else {
      NatToStringShape(i);
      var s := NatToString(i);
      assert IsDigit(s[0]);
      if i > 0 {
        assert s != "0" && '1' <= s[0] <= '9';
        assert IsIntegerKeyString(s) && IntegerKeyValue(s) == DigitsValue(s);
      }
    }
  }

  lemma NegativeKeyRoundTrip(i: int)
    requires MinInt <= i < 0
    ensures IsIntegerKeyString(IntToString(i))
    ensures IntegerKeyValue(IntToString(i)) == i
  {
    NatToStringShape(-i);
    NegativeKeyString(NatToString(-i));
  }

  /** '-' followed by digits without a leading zero, in range, is an integer key string. */
  lemma NegativeKeyString(t: string)
    requires |t| > 0 && t[0] != '0' && forall k :: 0 <= k < |t| ==> IsDigit(t[k])
    requires InIntRange(-(DigitsValue(t) as int))
    ensures IsIntegerKeyString("-" + t) && IntegerKeyValue("-" + t) == -(DigitsValue(t) as int)
  {
    var s := "-" + t;
    assert s[0] == '-' && s[1..] == t && s != "0" && s[1] == t[0];
    forall k | 1 <= k < |s| ensures IsDigit(s[k]) {
      assert s[k] == t[k - 1];
    }
  }

  /** The valid keys are exactly the normal forms of KeyOf: the keys that survive rendering and re-reading. */
  lemma {:induction false} ValidKeyCharacterisation(k: Key)
    ensures ValidKey(k) <==> KeyOf(KeyString(k)) == k
  {
    match k
    case IntKey(i) =>
      if InIntRange(i) { IntKeyRoundTrip(i); }
      else if IsIntegerKeyString(IntToString(i)) {
        var s := IntToString(i);
        if i < 0 {
          NatToStringShape(-i);
          assert s[1..] == NatToString(-i);
        } else {
          NatToStringShape(i);
        }
      }
    case StrKey(s) =>
  }

  /** Distinct valid keys render as distinct strings. */
  lemma KeyStringInjective(k1: Key, k2: Key)
    requires ValidKey(k1) && ValidKey(k2) && KeyString(k1) == KeyString(k2)
    ensures k1 == k2
  {
    ValidKeyCharacterisation(k1);
    ValidKeyCharacterisation(k2);
  }

  /** A string starting with a letter other than a digit or '-' is always a string key. */
  lemma {:induction false} KeyOfLetterPrefix(s: string)
    requires |s| > 0 && !IsDigit(s[0]) && s[0] != '-'
    ensures KeyOf(s) == StrKey(s)
  {
    assert s != "0";
  }

  /** `(int)$v` for a scalar, with PHP's saturation of out-of-range numeric strings. */
  function IntCast(v: Scalar): (r: int)
    ensures InIntRange(r) || v.Int?
  {
    match v
    case Null => 0
    case Bool(b) => if b then 1 else 0
    case Int(i) => i
    case Str(s) => StringToInt(s)
  }

  predicate IsSpace(c: char) { c == ' ' || c == '\t' || c == '\n' || c == '\r' || c as int == 11 || c as int == 12 }

  /** Length of the run of decimal digits at the start of `s`. */
  function DigitRun(s: string): (n: nat)
    ensures n <= |s|
    ensures forall i :: 0 <= i < n ==> IsDigit(s[i])
    ensures n < |s| ==> !IsDigit(s[n])
  {
    if s == [] || !IsDigit(s[0]) then 0 else 1 + DigitRun(s[1..])
  }

  function Saturate(i: int): (r: int)
    ensures InIntRange(r)
    ensures InIntRange(i) ==> r == i
  {
    if i < MinInt then MinInt else if i > MaxInt then MaxInt else i
  }

  /**
   * `(int)$s`: leading whitespace, an optional sign and the longest run of
   * digits; anything else reads as 0.
   */
  function StringToInt(s: string): (r: int)
    ensures InIntRange(r)
    decreases |s|
  {
    if |s| > 0 && IsSpace(s[0]) then StringToInt(s[1..])
    else if |s| > 0 && (s[0] == '-' || s[0] == '+') then
      var t := s[1..];
      var magnitude := DigitsValue(t[..DigitRun(t)]);
      Saturate(if s[0] == '-' then -(magnitude as int) else magnitude)
    else
      Saturate(DigitsValue(s[..DigitRun(s)]))
  }

  lemma StringToIntOfIntToString(i: int)
    requires InIntRange(i)
    ensures StringToInt(IntToString(i)) == i
  {
    if i < 0 { StringToIntOfNegative(i); } else { StringToIntOfNat(i); }
  }

  lemma StringToIntOfNegative(i: int)
    requires MinInt <= i < 0
    ensures StringToInt(IntToString(i)) == i
  {
    var t := NatToString(-i);
    NatToStringShape(-i);
    var s := IntToString(i);
    assert s == "-" + t;
    assert s[0] == '-' && !IsSpace(s[0]) && s[1..] == t;
    DigitRunOfDigits(t);
    assert StringToInt(s) == Saturate(-(DigitsValue(t) as int));
  }

  lemma DigitRunOfDigits(s: string)
    requires forall i :: 0 <= i < |s| ==> IsDigit(s[i])
    ensures DigitRun(s) == |s| && s[..DigitRun(s)] == s
  {
  }

  lemma StringToIntOfNat(i: nat)
    requires i <= MaxInt
    ensures StringToInt(IntToString(i)) == i
  {
    var s := IntToString(i);
    NatToStringShape(i);
    DigitRunOfDigits(s);
  }

  /** The string a scalar becomes where PHP needs a string (`"$v"`, a string parameter). */
  function ScalarToString(v: Scalar): string
  {
    match v
    case Null => ""
    case Bool(b) => if b then "1" else ""
    case Int(i) => IntToString(i)
    case Str(s) => s
  }

  /**
   * What becomes of a value returned from a function declared `: bool` in
   * PHP's default (coercive) typing mode: a scalar converts by truthiness,
   * while null and arrays raise a TypeError.
   */
  function BoolReturn(v: Value): (r: Outcome<bool>)
    ensures r.Ok? <==> v.Sc? && !v.scalar.Null?
    ensures r.Ok? ==> r.value == Truthy(v.scalar)
    ensures r.Thrown? ==> r.error == TypeError
  {
    match v
    case Sc(Null) => Thrown(TypeError)
    case Sc(s) => Ok(Truthy(s))
    case Arr(_) => Thrown(TypeError)
  }

  /** ASCII lower-casing, as PHP's class-name comparisons use it. */
  function LowerChar(c: char): char { if 'A' <= c <= 'Z' then c - 'A' + 'a' else c }

  function Lower(s: string): (r: string)
    ensures |r| == |s|
    ensures forall i :: 0 <= i < |s| ==> r[i] == LowerChar(s[i])
  {
    if s == [] then [] else [LowerChar(s[0])] + Lower(s[1..])
  }

  // ---------------------------------------------------------------------
  // Ordered arrays

  function Keys<V>(a: seq<(Key, V)>): (ks: seq<Key>)
    ensures |ks| == |a|
    ensures forall i :: 0 <= i < |a| ==> ks[i] == a[i].0
  {
    if a == [] then [] else [a[0].0] + Keys(a[1..])
  }

  predicate HasKey<V>(a: seq<(Key, V)>, k: Key) { exists i :: 0 <= i < |a| && a[i].0 == k }

  /** The invariant of every PHP array: keys are valid and pairwise distinct. */
  predicate WellFormed<V>(a: seq<(Key, V)>)
  {
    (forall i :: 0 <= i < |a| ==> ValidKey(a[i].0)) &&
    (forall i, j :: 0 <= i < j < |a| ==> a[i].0 != a[j].0)
  }

  /** `$a[$k] ?? null`: the value stored under `k`, if any. */
  function Lookup<V>(a: seq<(Key, V)>, k: Key): (r: Option<V>)
    ensures r.None? <==> !HasKey(a, k)
    ensures r.Some? ==> exists i :: 0 <= i < |a| && a[i] == (k, r.value)
  {
    if a == [] then None
    else if a[0].0 == k then Some(a[0].1)
    else
      var r := Lookup(a[1..], k);
      assert r.Some? ==> a[1..] == a[1..] && exists i :: 1 <= i < |a| && a[i] == (k, r.value) by {
        if r.Some? { var i :| 0 <= i < |a[1..]| && a[1..][i] == (k, r.value); assert a[i + 1] == (k, r.value); }
      }
      assert HasKey(a, k) ==> HasKey(a[1..], k) by {
        if HasKey(a, k) { var i :| 0 <= i < |a| && a[i].0 == k; assert a[1..][i - 1].0 == k; }
      }
      r
  }

  lemma LookupAt<V>(a: seq<(Key, V)>, i: nat)
    requires WellFormed(a) && i < |a|
    ensures Lookup(a, a[i].0) == Some(a[i].1)
  {
    if i > 0 {
      assert WellFormed(a[1..]);
      LookupAt(a[1..], i - 1);
    }
  }

  /** Lookup reads the first entry under the key. */
  lemma {:induction false} LookupIndex<V>(a: seq<(Key, V)>, k: Key) returns (i: nat)
    requires HasKey(a, k)
    ensures i < |a| && a[i].0 == k && Lookup(a, k) == Some(a[i].1)
    ensures forall j :: 0 <= j < i ==> a[j].0 != k
  {
    if a[0].0 == k {
      i := 0;
    } else {
      HasKeyCons(a, k);
      var i' := LookupIndex(a[1..], k);
      i := i' + 1;
      assert forall j :: 1 <= j < i ==> a[j] == a[1..][j - 1];
    }
  }

  lemma HasKeyCons<V>(a: seq<(Key, V)>, k: Key)
    requires a != []
    ensures HasKey(a, k) <==> a[0].0 == k || HasKey(a[1..], k)
  {
    if HasKey(a, k) && a[0].0 != k {
      var i :| 0 <= i < |a| && a[i].0 == k;
      assert a[1..][i - 1].0 == k;
    }
    if HasKey(a[1..], k) {
      var i :| 0 <= i < |a[1..]| && a[1..][i].0 == k;
      assert a[i + 1].0 == k;
    }
  }

  /** `$a[$k] = $v`: replaces the value in place when the key exists, appends otherwise. */
  function Set<V>(a: seq<(Key, V)>, k: Key, v: V): (r: seq<(Key, V)>)
  {
    if a == [] then [(k, v)]
    else if a[0].0 == k then [(k, v)] + a[1..]
    else [a[0]] + Set(a[1..], k, v)
  }

  lemma {:induction false} SetFresh<V>(a: seq<(Key, V)>, k: Key, v: V)
    requires !HasKey(a, k)
    ensures Set(a, k, v) == a + [(k, v)]
  {
    if a != [] {
      HasKeyCons(a, k);
      SetFresh(a[1..], k, v);
      assert [a[0]] + (a[1..] + [(k, v)]) == a + [(k, v)];
    }
  }

  /** Entries of `b` whose key `a` does not have, in `b`'s order. */
  function Missing<V>(a: seq<(Key, V)>, b: seq<(Key, V)>): (r: seq<(Key, V)>)
    ensures |r| <= |b|
    ensures forall i :: 0 <= i < |r| ==> !HasKey(a, r[i].0)
  {
    if b == [] then []
    else if HasKey(a, b[0].0) then Missing(a, b[1..])
    else [b[0]] + Missing(a, b[1..])
  }

  /** `$a + $b`: all of `a`, then the entries of `b` under keys `a` lacks. */
  function Union<V>(a: seq<(Key, V)>, b: seq<(Key, V)>): seq<(Key, V)>
  {
    a + Missing(a, b)
  }

  lemma {:induction false} MissingLookup<V>(a: seq<(Key, V)>, b: seq<(Key, V)>, k: Key)
    requires !HasKey(a, k)
    ensures Lookup(Missing(a, b), k) == Lookup(b, k)
  {
    if b != [] {
      MissingLookup(a, b[1..], k);
    }
  }

  lemma {:induction false} LookupAppend<V>(a: seq<(Key, V)>, b: seq<(Key, V)>, k: Key)
    ensures Lookup(a + b, k) == if HasKey(a, k) then Lookup(a, k) else Lookup(b, k)
  {
    if a != [] {
      assert (a + b)[1..] == a[1..] + b;
      LookupAppend(a[1..], b, k);
      HasKeyCons(a, k);
    } else {
      assert a + b == b;
    }
  }

  /** The union is left-biased: a key of `a` keeps `a`'s value, any other key reads from `b`. */
  lemma UnionLookup<V>(a: seq<(Key, V)>, b: seq<(Key, V)>, k: Key)
    ensures Lookup(Union(a, b), k) == if HasKey(a, k) then Lookup(a, k) else Lookup(b, k)
  {
    LookupAppend(a, Missing(a, b), k);
    if !HasKey(a, k) { MissingLookup(a, b, k); }
  }

  /** The union of two PHP arrays is again a PHP array. */
  lemma {:induction false} UnionWellFormed<V>(a: seq<(Key, V)>, b: seq<(Key, V)>)
    requires WellFormed(a) && WellFormed(b)
    ensures WellFormed(Union(a, b))
  {
    MissingWellFormed(a, b);
    var u := Union(a, b);
    var m := Missing(a, b);
    forall i, j | 0 <= i < j < |u| ensures u[i].0 != u[j].0 {
      if j >= |a| && i < |a| {
        assert u[j] == m[j - |a|];
        assert !HasKey(a, m[j - |a|].0);
      }
    }
  }

  lemma {:induction false} MissingWellFormed<V>(a: seq<(Key, V)>, b: seq<(Key, V)>)
    requires WellFormed(b)
    ensures WellFormed(Missing(a, b))
    ensures forall i :: 0 <= i < |Missing(a, b)| ==> HasKey(b, Missing(a, b)[i].0)
  {
    if b != [] {
      WellFormedTail(b);
      MissingWellFormed(a, b[1..]);
      var rest := Missing(a, b[1..]);
      forall i | 0 <= i < |rest| ensures HasKey(b, rest[i].0) && rest[i].0 != b[0].0 {
        var j :| 0 <= j < |b[1..]| && b[1..][j].0 == rest[i].0;
        assert b[j + 1].0 == rest[i].0;
      }
      if !HasKey(a, b[0].0) {
        WellFormedCons(b[0], rest);
        assert b[0].0 == b[0].0;
        assert HasKey(b, b[0].0);
      }
    }
  }

  lemma WellFormedTail<V>(a: seq<(Key, V)>)
    requires WellFormed(a) && a != []
    ensures WellFormed(a[1..])
  {
    assert forall i :: 0 <= i < |a[1..]| ==> a[1..][i] == a[i + 1];
  }

  lemma WellFormedCons<V>(x: (Key, V), r: seq<(Key, V)>)
    requires WellFormed(r) && ValidKey(x.0)
    requires forall i :: 0 <= i < |r| ==> r[i].0 != x.0
    ensures WellFormed([x] + r)
  {
    assert forall i :: 1 <= i < |r| + 1 ==> ([x] + r)[i] == r[i - 1];
  }

  /** Concatenation is associative; a hint for the solver where sequences are built piece by piece. */
  lemma AppendAssoc<T>(x: seq<T>, y: seq<T>, z: seq<T>)
    ensures (x + y) + z == x + (y + z)
  {
  }
}
