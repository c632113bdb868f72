/** Big-endian byte strings. */
module Bytes {
  import opened Base

  function Pow256(n: nat): (r: nat)
    ensures r > 0
  {
    if n == 0 then 1 else 256 * Pow256(n - 1)
  }

  /** The number a big-endian byte string denotes. */
  function Value(s: seq<byte>): nat {
    if s == [] then 0 else 256 * Value(s[..|s| - 1]) + s[|s| - 1]
  }

  /** `to_be_bytes` at a fixed width: the value modulo 256^width. */
  function BigEndian(n: nat, width: nat): (s: seq<byte>)
    ensures |s| == width
  {
    if width == 0 then [] else BigEndian(n / 256, width - 1) + [n % 256]
  }

  /** `iter().position(|b| b != 0)`, or the length when every byte is zero. */
  function LeadingZeros(s: seq<byte>): (z: nat)
    ensures z <= |s| && (forall i :: 0 <= i < z ==> s[i] == 0) && (z < |s| ==> s[z] != 0)
  {
    if s == [] || s[0] != 0 then 0 else 1 + LeadingZeros(s[1..])
  }

  function Stripped(s: seq<byte>): seq<byte> { s[LeadingZeros(s)..] }

  predicate Minimal(s: seq<byte>) { s == [] || s[0] != 0 }

  lemma {:induction false} ValueOfBigEndian(n: nat, width: nat)
    ensures Value(BigEndian(n, width)) == n % Pow256(width)
  {
    if width > 0 {
      ValueOfBigEndian(n / 256, width - 1);
      var s := BigEndian(n, width);
      assert s[..|s| - 1] == BigEndian(n / 256, width - 1);
      ModSplit(n, Pow256(width - 1));
    }
  }

  lemma ModSplit(n: nat, m: nat)
    requires m > 0
    ensures n % (256 * m) == 256 * (n / 256 % m) + n % 256
  {
    var q, r := n / 256 / m, n / 256 % m;
    assert n / 256 == q * m + r;
    assert n == 256 * (q * m + r) + n % 256 == (256 * m) * q + (256 * r + n % 256);
    var rest := 256 * r + n % 256;
    assert 256 * r <= 256 * (m - 1);
    DivModUnique(256 * m, n, q, rest);
  }

  lemma DivModUnique(m: int, n: int, q: int, r: int)
    requires 0 <= r < m && n == m * q + r
    ensures n % m == r
  {
    assert m * (n / m) + n % m == n;
    var d: int := n / m - q;
    assert m * d == r - n % m;
    assert d >= 1 ==> m * d >= m;
    assert d <= -1 ==> m * d <= -m;
  }

  lemma {:induction false} ValueBound(s: seq<byte>)
    ensures Value(s) < Pow256(|s|)
  {
    if s != [] { ValueBound(s[..|s| - 1]); }
  }

  /** A byte string is the fixed-width form of its value. */
  lemma {:induction false} BigEndianOfValue(s: seq<byte>)
    ensures BigEndian(Value(s), |s|) == s
  {
    if s != [] {
      var n := |s| - 1;
      BigEndianOfValue(s[..n]);
      assert Value(s) / 256 == Value(s[..n]) && Value(s) % 256 == s[n];
      assert s == s[..n] + [s[n]];
    }
  }

  lemma ModSmall(n: nat, m: nat)
    requires n < m
    ensures n % m == n
  {
  }

  lemma BigEndianRoundTrip(n: nat, width: nat)
    requires n < Pow256(width)
    ensures Value(BigEndian(n, width)) == n
  {
    ValueOfBigEndian(n, width);
    ModSmall(n, Pow256(width));
  }

  lemma BigEndianInjective(m: nat, n: nat, width: nat)
    requires m < Pow256(width) && n < Pow256(width) && BigEndian(m, width) == BigEndian(n, width)
    ensures m == n
  {
    BigEndianRoundTrip(m, width);
    BigEndianRoundTrip(n, width);
  }

  lemma {:induction false} LeadingZeroByte(s: seq<byte>)
    ensures Value([0] + s) == Value(s)
  {
    if s != [] {
      var n := |s| - 1;
      LeadingZeroByte(s[..n]);
      assert ([0] + s)[..n + 1] == [0] + s[..n];
    }
  }

  /** Stripping leading zeros keeps the value and leaves none. */
  lemma {:induction false} StrippedKeepsValue(s: seq<byte>)
    ensures Value(Stripped(s)) == Value(s) && Minimal(Stripped(s))
  {
    if s != [] && s[0] == 0 {
      StrippedKeepsValue(s[1..]);
      LeadingZeroByte(s[1..]);
      assert s == [0] + s[1..] && Stripped(s) == Stripped(s[1..]);
    }
  }

  lemma {:induction false} FirstByteDominates(s: seq<byte>)
    requires s != []
    ensures Value(s) >= s[0] * Pow256(|s| - 1)
  {
    if |s| > 1 {
      var n := |s| - 1;
      FirstByteDominates(s[..n]);
      assert 256 * (s[0] * Pow256(n - 1)) == s[0] * (256 * Pow256(n - 1));
    } else {
      assert s[..0] == [];
    }
  }

  lemma Pow256Monotone(a: nat, b: nat)
    requires a <= b
    ensures 0 < Pow256(a) <= Pow256(b)
    decreases b
  {
    if a < b { Pow256Monotone(a, b - 1); } else if b > 0 { Pow256Monotone(a - 1, b - 1); }
  }

  /** Minimal strings are determined by their values. */
  lemma {:induction false} MinimalUnique(s: seq<byte>, t: seq<byte>)
    requires Minimal(s) && Minimal(t) && Value(s) == Value(t)
    ensures s == t
    decreases |s| + |t|
  {
    if |s| > |t| {
      LongerMinimalIsLarger(s, t);
    } else if |t| > |s| {
      LongerMinimalIsLarger(t, s);
    } else {
      BigEndianOfValue(s);
      BigEndianOfValue(t);
    }
  }

  lemma LongerMinimalIsLarger(s: seq<byte>, t: seq<byte>)
    requires Minimal(s) && |s| > |t|
    ensures Value(s) > Value(t)
  {
    FirstByteDominates(s);
    ValueBound(t);
    Pow256Monotone(|t|, |s| - 1);
    assert s[0] * Pow256(|s| - 1) >= Pow256(|s| - 1);
  }

  /** The shortest big-endian form of a number below 256^width. */
  function Shortest(n: nat, width: nat): seq<byte> { Stripped(BigEndian(n, width)) }

  lemma ShortestIsMinimal(n: nat, width: nat)
    requires n < Pow256(width)
    ensures Minimal(Shortest(n, width)) && Value(Shortest(n, width)) == n
    ensures |Shortest(n, width)| <= width && (n > 0 ==> |Shortest(n, width)| > 0)
  {
    BigEndianRoundTrip(n, width);
    StrippedKeepsValue(BigEndian(n, width));
  }

  lemma ShortestOfMinimal(s: seq<byte>, width: nat)
    requires Minimal(s) && |s| <= width
    ensures Value(s) < Pow256(width) && Shortest(Value(s), width) == s
  {
    ValueBound(s);
    Pow256Monotone(|s|, width);
    ShortestIsMinimal(Value(s), width);
    MinimalUnique(s, Shortest(Value(s), width));
  }

  lemma Pow256Values()
    ensures Pow256(1) == 256 && Pow256(8) == U64_LIMIT && Pow256(16) == U128_LIMIT && Pow256(32) == U256_LIMIT
  {
    Pow256Plus(8, 8);
    Pow256Plus(16, 16);
  }

  lemma {:induction false} Pow256Plus(a: nat, b: nat)
    ensures Pow256(a + b) == Pow256(a) * Pow256(b)
  {
    if a > 0 { Pow256Plus(a - 1, b); }
  }
}
