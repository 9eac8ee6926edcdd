/** Kaspa script numbers: little-endian magnitude, sign in the top bit of the last byte. */
module ScriptNumbers {
  import opened Wrappers

  newtype byte = b: int | 0 <= b < 256

  type Bytes = seq<byte>

  const I64_MAX: nat := 0x7FFF_FFFF_FFFF_FFFF
  const U64_MAX: nat := 0xFFFF_FFFF_FFFF_FFFF
  const U32_MAX: nat := 0xFFFF_FFFF

  /** Shortest little-endian form of a magnitude. */
  function ToLe(v: nat): Bytes {
    if v == 0 then [] else [(v % 256) as byte] + ToLe(v / 256)
  }

  function FromLe(s: Bytes): nat {
    if s == [] then 0 else s[0] as nat + 256 * FromLe(s[1..])
  }

  /** Little-endian form padded to exactly `n` bytes, as `to_le_bytes` gives it. */
  function LeBytes(v: nat, n: nat): (s: Bytes)
    ensures |s| == n
  {
    if n == 0 then [] else [(v % 256) as byte] + LeBytes(v / 256, n - 1)
  }

  /** Drops the most significant zero bytes. */
  function TrimZeros(s: Bytes): Bytes {
    if s != [] && s[|s| - 1] == 0 then TrimZeros(s[..|s| - 1]) else s
  }

  function Abs(n: int): nat { if n < 0 then -n else n }

  /** The engine's serialization of a number. */
  function Num(n: int): Bytes {
    var m := ToLe(Abs(n));
    if m == [] then []
    else if m[|m| - 1] >= 128 then m + [if n < 0 then 128 else 0]
    else if n < 0 then m[..|m| - 1] + [m[|m| - 1] + 128]
    else m
  }

  /** No shorter byte string has the same value: the last byte is not sign padding. */
  predicate Minimal(s: Bytes) {
    s == [] || s[|s| - 1] % 128 != 0 || (|s| > 1 && s[|s| - 2] >= 128)
  }

  /** The number a byte string stands for, whether or not it is minimal. */
  function ValueOf(s: Bytes): int {
    if s == [] then 0
    else
      var last := s[|s| - 1];
      var magnitude: int := FromLe(s[..|s| - 1] + [last % 128]);
      if last >= 128 then -magnitude else magnitude
  }

  /** The engine's reading of a stack item as a 64-bit number. */
  function AsNum(s: Bytes): Option<int> {
    if |s| > 8 || !Minimal(s) then None else Some(ValueOf(s))
  }

  /** A numeric result, refused when it leaves the engine's 64-bit range. */
  function IntBytes(n: int): Option<Bytes> {
    if Abs(n) <= I64_MAX then Some(Num(n)) else None
  }

  function BoolBytes(b: bool): Bytes { if b then [1] else [] }

  /** The engine's reading of a stack item as a truth value; negative zero is false. */
  predicate AsBool(s: Bytes) {
    s != [] && (s[|s| - 1] % 128 != 0 || exists i :: 0 <= i < |s| - 1 && s[i] != 0)
  }

  function Pow256(k: nat): (p: nat)
    ensures p >= 1
  {
    if k == 0 then 1 else 256 * Pow256(k - 1)
  }

  // ---- magnitudes ----

  lemma {:induction false} LeRoundTrip(v: nat)
    ensures FromLe(ToLe(v)) == v
    ensures v != 0 ==> ToLe(v) != [] && ToLe(v)[|ToLe(v)| - 1] != 0
  {
    if v != 0 {
      LeRoundTrip(v / 256);
      assert ToLe(v)[1..] == ToLe(v / 256);
    }
  }

  lemma {:induction false} LeUnique(s: Bytes)
    requires s == [] || s[|s| - 1] != 0
    ensures ToLe(FromLe(s)) == s
    ensures s != [] ==> FromLe(s) > 0
  {
    if s != [] {
      var t := s[1..];
      assert t != [] ==> t[|t| - 1] == s[|s| - 1];
      LeUnique(t);
      var v := FromLe(s);
      assert v % 256 == s[0] as nat && v / 256 == FromLe(t);
      assert s == [s[0]] + t;
    }
  }

  lemma {:induction false} LeLength(v: nat, k: nat)
    requires v < Pow256(k)
    ensures |ToLe(v)| <= k
  {
    if v != 0 {
      assert v / 256 < Pow256(k - 1);
      LeLength(v / 256, k - 1);
    }
  }

  lemma {:induction false} FromLeBound(s: Bytes)
    ensures FromLe(s) < Pow256(|s|)
  {
    if s != [] { FromLeBound(s[1..]); }
  }

  lemma {:induction false} FromLeAppend(s: Bytes, b: byte)
    ensures FromLe(s + [b]) == FromLe(s) + b as nat * Pow256(|s|)
  {
    if s == [] {
      assert s + [b] == [b] && [b][1..] == [];
    } else {
      FromLeAppend(s[1..], b);
      assert (s + [b])[1..] == s[1..] + [b];
      assert 256 * (b as nat * Pow256(|s| - 1)) == b as nat * (256 * Pow256(|s| - 1));
    }
  }

  /** Fixed-width bytes with their high zeros trimmed are the shortest form. */
  lemma {:induction false} TrimmedIsShortest(v: nat, n: nat)
    requires v < Pow256(n)
    ensures TrimZeros(LeBytes(v, n)) == ToLe(v)
  {
    FromLeBytes(v, n);
    TrimKeepsValue(LeBytes(v, n));
    var t := TrimZeros(LeBytes(v, n));
    LeUnique(t);
  }

  lemma {:induction false} FromLeBytes(v: nat, n: nat)
    requires v < Pow256(n)
    ensures FromLe(LeBytes(v, n)) == v
  {
    if n != 0 {
      FromLeBytes(v / 256, n - 1);
      assert LeBytes(v, n)[1..] == LeBytes(v / 256, n - 1);
    }
  }

  lemma {:induction false} TrimKeepsValue(s: Bytes)
    ensures FromLe(TrimZeros(s)) == FromLe(s)
    ensures var t := TrimZeros(s); t == [] || t[|t| - 1] != 0
  {
    if s != [] && s[|s| - 1] == 0 {
      TrimKeepsValue(s[..|s| - 1]);
      FromLeAppend(s[..|s| - 1], 0);
      assert s == s[..|s| - 1] + [0];
    }
  }

  // ---- numbers ----

  lemma Pow256Values()
    ensures Pow256(7) == 0x100_0000_0000_0000
    ensures Pow256(8) == U64_MAX + 1
  {
    assert Pow256(4) == 0x1_0000_0000;
    assert Pow256(7) == 256 * 256 * 256 * Pow256(4);
  }

  /** Splits the last byte off a magnitude. */
  lemma LastByte(s: Bytes)
    requires s != []
    ensures FromLe(s) == FromLe(s[..|s| - 1]) + s[|s| - 1] as nat * Pow256(|s| - 1)
  {
    FromLeAppend(s[..|s| - 1], s[|s| - 1]);
    assert s == s[..|s| - 1] + [s[|s| - 1]];
  }

  lemma NumValue(n: int)
    ensures ValueOf(Num(n)) == n && Minimal(Num(n))
  {
    var m := ToLe(Abs(n));
    LeRoundTrip(Abs(n));
    if m != [] {
      var s := Num(n);
      var init := m[..|m| - 1];
      if m[|m| - 1] >= 128 {
        assert s[..|s| - 1] == m;
        assert s[|s| - 1] % 128 == 0;
        FromLeAppend(m, 0);
      } else {
        assert s[..|s| - 1] == init;
        assert s[|s| - 1] % 128 == m[|m| - 1];
        assert init + [m[|m| - 1]] == m;
      }
    }
  }

  lemma NumLength(n: int)
    requires Abs(n) <= I64_MAX
    ensures |Num(n)| <= 8
  {
    var m := ToLe(Abs(n));
    Pow256Values();
    LeLength(Abs(n), 8);
    LeRoundTrip(Abs(n));
    if |m| == 8 {
      LastByte(m);
      assert m[7] < 128;
    }
  }

  lemma PaddingDrops(s: Bytes, init: Bytes)
    requires s != [] && Minimal(s) && s[|s| - 1] % 128 == 0 && init == s[..|s| - 1]
    ensures s == Num(ValueOf(s))
  {
    FromLeAppend(init, 0);
    assert init[|init| - 1] >= 128;
    LeUnique(init);
    assert ToLe(Abs(ValueOf(s))) == init;
  }

  lemma MinimalIsNum(s: Bytes)
    requires Minimal(s)
    ensures s == Num(ValueOf(s))
  {
    if s != [] {
      var last := s[|s| - 1];
      var init := s[..|s| - 1];
      var padded := init + [last % 128];
      if last % 128 == 0 {
        PaddingDrops(s, init);
      } else {
        LeUnique(padded);
        assert ToLe(Abs(ValueOf(s))) == padded;
        assert padded[..|padded| - 1] == init;
      }
    }
  }

  /** Every 64-bit number is read back from its own encoding. */
  lemma NumRoundTrip(n: int)
    requires Abs(n) <= I64_MAX
    ensures AsNum(Num(n)) == Some(n) && |Num(n)| <= 8
  {
    NumValue(n);
    NumLength(n);
  }

  lemma ClearTopByte(low: nat, top: nat, p: nat)
    requires low < p && top < 128
    ensures low + top * p < 128 * p
  {
    assert top * p <= 127 * p;
  }

  lemma ValueRange(s: Bytes)
    requires |s| <= 8
    ensures Abs(ValueOf(s)) <= I64_MAX
  {
    if s != [] {
      var init, top := s[..|s| - 1], s[|s| - 1] % 128;
      FromLeAppend(init, top);
      FromLeBound(init);
      ClearTopByte(FromLe(init), top as nat, Pow256(|init|));
      PowMonotone(|init|, 7);
      Pow256Values();
    }
  }

  lemma {:induction false} PowMonotone(j: nat, k: nat)
    requires j <= k
    ensures Pow256(j) <= Pow256(k)
  {
    if j < k { PowMonotone(j, k - 1); }
  }

  /** The encoding is the only byte string the engine reads as that number. */
  lemma NumUnique(s: Bytes, n: int)
    ensures AsNum(s) == Some(n) <==> Abs(n) <= I64_MAX && s == Num(n)
  {
    if AsNum(s) == Some(n) {
      MinimalIsNum(s);
      ValueRange(s);
    }
    if Abs(n) <= I64_MAX && s == Num(n) {
      NumRoundTrip(n);
    }
  }

  /** Dropping sign padding from the end of a byte string. */
  function Shorten(s: Bytes): Bytes
    requires !Minimal(s)
  {
    if |s| == 1 then [] else s[..|s| - 2] + [s[|s| - 2] + (if s[|s| - 1] >= 128 then 128 else 0)]
  }

  lemma ShortenKeepsValue(s: Bytes)
    requires !Minimal(s)
    ensures ValueOf(Shorten(s)) == ValueOf(s) && |Shorten(s)| == |s| - 1
  {
    var init := s[..|s| - 1];
    assert s[|s| - 1] % 128 == 0;
    FromLeAppend(init, 0);
    if |s| > 1 {
      var t := Shorten(s);
      assert t[|t| - 1] % 128 == s[|s| - 2];
      assert t[..|t| - 1] + [s[|s| - 2]] == init;
    } else {
      assert init == [];
    }
  }

  /** No byte string with the same value is shorter, and no other one is as short. */
  lemma {:induction false} NumShortest(s: Bytes)
    ensures |Num(ValueOf(s))| <= |s|
    ensures |Num(ValueOf(s))| == |s| ==> s == Num(ValueOf(s))
    decreases |s|
  {
    if Minimal(s) {
      MinimalIsNum(s);
    } else {
      ShortenKeepsValue(s);
      NumShortest(Shorten(s));
    }
  }

  /** Byte equality of encodings is numeric equality. */
  lemma NumInjective(a: int, b: int)
    ensures Num(a) == Num(b) <==> a == b
  {
    NumValue(a);
    NumValue(b);
  }

  /** Non-negative numbers keep the sign bit clear and read the same as raw little-endian bytes. */
  lemma NumUnsigned(n: nat)
    ensures Num(n) != [] ==> Num(n)[|Num(n)| - 1] < 128
    ensures FromLe(Num(n)) == n
  {
    LeRoundTrip(n);
    FromLeAppend(ToLe(n), 0);
  }

  lemma BoolNum(b: bool)
    ensures AsNum(BoolBytes(b)) == Some(if b then 1 else 0)
    ensures BoolBytes(b) == Num(if b then 1 else 0)
    ensures AsBool(BoolBytes(b)) == b
  {
    NumUnique(BoolBytes(b), if b then 1 else 0);
    assert ToLe(1) == [1] + ToLe(0);
  }

  lemma TruthOfNumber(s: Bytes)
    requires Minimal(s)
    ensures AsBool(s) <==> ValueOf(s) != 0
  {
    MinimalIsNum(s);
    NumValue(0);
    if s != [] {
      NumInjective(ValueOf(s), 0);
      assert AsBool(s) by {
        if s[|s| - 1] % 128 == 0 { assert s[|s| - 2] != 0; }
      }
    }
  }

  lemma SmallNumber(n: int)
    requires n == -1 || 1 <= n <= 16
    ensures Num(n) == [if n == -1 then 0x81 else n as byte]
  {
    assert ToLe(Abs(n)) == [Abs(n) as byte] + ToLe(0);
  }
}
