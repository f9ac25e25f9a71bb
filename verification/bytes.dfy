/** Bytes, fixed-width big-endian integers and 64-bit two's complement, as
    encoding/binary provides them. */
module Bytes {

  type byte = x: int | 0 <= x < 256

  /** A SHA-256 message authentication code; how it is computed is left open. */
  type Mac = s: seq<byte> | |s| == 32 witness seq(32, i => 0)

  function Pow256(k: nat): (p: nat)
    ensures p > 0
  {
    if k == 0 then 1 else 256 * Pow256(k - 1)
  }

  function Value(s: seq<byte>): (n: nat)
    ensures n < Pow256(|s|)
  {
    if |s| == 0 then 0 else 256 * Value(s[..|s| - 1]) + s[|s| - 1]
  }

  /** The `k`-byte big-endian form of `n`; reading it back gives `n`. */
  function BigEndian(n: nat, k: nat): (s: seq<byte>)
    requires n < Pow256(k)
    ensures |s| == k && Value(s) == n
  {
    if k == 0 then [] else BigEndian(n / 256, k - 1) + [n % 256]
  }

  /** Every byte string is the big-endian form of its value. */
  lemma {:induction false} BigEndianValue(s: seq<byte>)
    ensures BigEndian(Value(s), |s|) == s
  {
    if |s| > 0 {
      BigEndianValue(s[..|s| - 1]);
    }
  }

  /** The first byte is the most significant. */
  lemma {:induction false} MostSignificantFirst(s: seq<byte>)
    requires |s| > 0
    ensures Value(s) == s[0] * Pow256(|s| - 1) + Value(s[1..])
  {
    if |s| > 1 {
      var most := s[..|s| - 1];
      MostSignificantFirst(most);
      assert most[1..] == s[1..][..|s| - 2];
      Scaled(s[0], Pow256(|s| - 2));
    }
  }

  lemma Scaled(a: nat, p: nat)
    ensures a * (256 * p) == 256 * (a * p)
  {
  }

  const TWO_TO_63: int := 0x8000_0000_0000_0000
  const TWO_TO_64: int := 0x1_0000_0000_0000_0000

  lemma Widths()
    ensures Pow256(1) == 0x100 && Pow256(2) == 0x1_0000 && Pow256(8) == TWO_TO_64
  {
  }

  predicate IsInt64(x: int) {
    -TWO_TO_63 <= x < TWO_TO_63
  }

  function ToUint64(x: int): (n: nat)
    requires IsInt64(x)
    ensures n < TWO_TO_64 && ToInt64(n) == x
  {
    if x < 0 then x + TWO_TO_64 else x
  }

  function ToInt64(n: nat): (x: int)
    requires n < TWO_TO_64
    ensures IsInt64(x)
  {
    if n < TWO_TO_63 then n else n - TWO_TO_64
  }

  /** `binary.BigEndian.PutUint64` of a signed value, and its reading. */
  function PutInt64(x: int): (s: seq<byte>)
    requires IsInt64(x)
    ensures |s| == 8
  {
    Widths(); BigEndian(ToUint64(x), 8)
  }

  function GetInt64(s: seq<byte>): (x: int)
    requires |s| == 8
    ensures IsInt64(x) && PutInt64(x) == s
  {
    Widths(); BigEndianValue(s); ToInt64(Value(s))
  }

  lemma Int64Wire(x: int)
    requires IsInt64(x)
    ensures GetInt64(PutInt64(x)) == x
  {
    Widths();
  }

  function PutUint16(n: nat): (s: seq<byte>)
    requires n < 0x1_0000
    ensures |s| == 2 && Value(s) == n
  {
    Widths(); BigEndian(n, 2)
  }

  /** A 16-bit flag set, least significant bit first. */
  type Flags = s: seq<bool> | |s| == 16 witness seq(16, i => false)

  function Pow2(k: nat): (p: nat)
    ensures p > 0
  {
    if k == 0 then 1 else 2 * Pow2(k - 1)
  }

  function BitsValue(s: seq<bool>): (n: nat)
    ensures n < Pow2(|s|)
  {
    if |s| == 0 then 0 else (if s[0] then 1 else 0) + 2 * BitsValue(s[1..])
  }

  function ValueBits(n: nat, k: nat): (s: seq<bool>)
    requires n < Pow2(k)
    ensures |s| == k && BitsValue(s) == n
  {
    if k == 0 then [] else [n % 2 == 1] + ValueBits(n / 2, k - 1)
  }

  lemma {:induction false} ValueBitsValue(s: seq<bool>)
    ensures ValueBits(BitsValue(s), |s|) == s
  {
    if |s| > 0 {
      ValueBitsValue(s[1..]);
    }
  }

  lemma Pow2Of16()
    ensures Pow2(16) == 0x1_0000
  {
    assert Pow2(4) == 16;
    assert Pow2(8) == 16 * Pow2(4);
    assert Pow2(12) == 16 * Pow2(8);
    assert Pow2(16) == 16 * Pow2(12);
  }

  function PutFlags(f: Flags): (s: seq<byte>)
    ensures |s| == 2 && GetFlags(s) == f
  {
    Pow2Of16(); ValueBitsValue(f); PutUint16(BitsValue(f))
  }

  function GetFlags(s: seq<byte>): (f: Flags)
    requires |s| == 2
  {
    Widths(); Pow2Of16(); ValueBits(Value(s), 16)
  }

  lemma FlagsWire(s: seq<byte>)
    requires |s| == 2
    ensures PutFlags(GetFlags(s)) == s
  {
    Widths();
    BigEndianValue(s);
  }

  /** Eight bytes are a signed number in two's complement: its first bit is the sign. */
  lemma TwosComplement(x: int)
    requires IsInt64(x)
    ensures Value(PutInt64(x)) == (if x >= 0 then x else x + 0x1_0000_0000_0000_0000)
  {
    Widths();
  }

  /** Flag `i` is the bit of weight 2 to the `i`: a lone flag is that number. */
  lemma {:induction false} BitWeight(k: nat, i: nat)
    requires i < k
    ensures BitsValue(seq(k, j => j == i)) == Pow2(i)
  {
    var s := seq(k, j => j == i);
    if i == 0 {
      NoBits(s[1..]);
    } else {
      BitWeight(k - 1, i - 1);
      assert s[1..] == seq(k - 1, j => j == i - 1);
    }
  }

  lemma {:induction false} NoBits(s: seq<bool>)
    requires forall j :: 0 <= j < |s| ==> !s[j]
    ensures BitsValue(s) == 0
  {
    if |s| > 0 {
      NoBits(s[1..]);
    }
  }
}
