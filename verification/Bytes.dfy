/** Bytes, fixed-width little-endian integers and 32-byte public keys. */
module Bytes {

  type Byte = x: int | 0 <= x < 256

  type U64 = x: int | 0 <= x < 0x1_0000_0000_0000_0000

  const U32_LIMIT: nat := 0x1_0000_0000
  const U64_LIMIT: nat := 0x1_0000_0000_0000_0000

  // Solana public keys and addresses: 32 raw bytes.
  type Key = s: seq<Byte> | |s| == 32 witness seq(32, _ => 0)

  function Pow256(width: nat): nat {
    if width == 0 then 1 else 256 * Pow256(width - 1)
  }

  function LittleEndian(n: nat, width: nat): (s: seq<Byte>)
    ensures |s| == width
  {
    if width == 0 then [] else [n % 256] + LittleEndian(n / 256, width - 1)
  }

  function Value(s: seq<Byte>): nat {
    if s == [] then 0 else s[0] + 256 * Value(s[1..])
  }

  // The least significant byte comes first.
  lemma LeastFirst(s: seq<Byte>)
    ensures |s| == 4 ==>
              Value(s) == s[0] as int + 0x100 * (s[1] as int) + 0x1_0000 * (s[2] as int) + 0x100_0000 * (s[3] as int)
    ensures |s| == 8 ==> Value(s) == Value(s[..4]) + U32_LIMIT * Value(s[4..])
  {
    if |s| == 4 {
      FourBytes(s);
    } else if |s| == 8 {
      FourBytes(s[..4]);
      FourBytes(s[4..]);
      Unfolds(s);
      Unfolds(s[1..]);
      Unfolds(s[2..]);
      Unfolds(s[3..]);
    }
  }

  lemma Unfolds(s: seq<Byte>)
    requires |s| >= 1
    ensures Value(s) == s[0] + 0x100 * Value(s[1..])
    ensures |s| >= 2 ==> s[1..][1..] == s[2..]
    ensures |s| >= 3 ==> s[2..][1..] == s[3..]
    ensures |s| >= 4 ==> s[3..][1..] == s[4..]
  {}

  lemma FourBytes(s: seq<Byte>)
    requires |s| == 4
    ensures Value(s) == s[0] as int + 0x100 * (s[1] as int) + 0x1_0000 * (s[2] as int) + 0x100_0000 * (s[3] as int)
  {
    Unfolds(s);
    Unfolds(s[1..]);
    Unfolds(s[2..]);
    Unfolds(s[3..]);
    assert s[4..] == [];
  }

  lemma {:induction false} ValueOfLittleEndian(n: nat, width: nat)
    requires n < Pow256(width)
    ensures Value(LittleEndian(n, width)) == n
  {
    if width == 0 {
    } else {
      ValueOfLittleEndian(n / 256, width - 1);
      assert LittleEndian(n, width)[1..] == LittleEndian(n / 256, width - 1);
    }
  }

  lemma {:induction false} LittleEndianOfValue(s: seq<Byte>)
    ensures Value(s) < Pow256(|s|)
    ensures LittleEndian(Value(s), |s|) == s
  {
    if s == [] {
    } else {
      LittleEndianOfValue(s[1..]);
      assert Value(s) % 256 == s[0] && Value(s) / 256 == Value(s[1..]);
    }
  }

  lemma Widths()
    ensures Pow256(1) == 256 && Pow256(4) == U32_LIMIT && Pow256(8) == U64_LIMIT
  {
    assert Pow256(2) == 256 * 256;
    assert Pow256(4) == 256 * 256 * Pow256(2);
    assert Pow256(6) == 256 * 256 * Pow256(4);
  }

  // A u64 has exactly one eight-byte little-endian form, and every eight bytes are one.
  lemma U64Bijection(n: U64, s: seq<Byte>)
    requires |s| == 8
    ensures Value(LittleEndian(n, 8)) == n
    ensures 0 <= Value(s) < U64_LIMIT && LittleEndian(Value(s), 8) == s
  {
    Widths();
    ValueOfLittleEndian(n, 8);
    LittleEndianOfValue(s);
  }

  // The keys of a list laid end to end.
  function Flatten(keys: seq<Key>): (s: seq<Byte>)
    ensures |s| == 32 * |keys|
  {
    if keys == [] then [] else keys[0] + Flatten(keys[1..])
  }

  lemma {:induction false} FlattenInjective(a: seq<Key>, b: seq<Key>)
    requires Flatten(a) == Flatten(b)
    ensures a == b
  {
    assert |a| == |b|;
    if a == [] {
    } else {
      assert Flatten(a)[..32] == a[0] && Flatten(b)[..32] == b[0];
      assert Flatten(a)[32..] == Flatten(a[1..]) && Flatten(b)[32..] == Flatten(b[1..]);
      FlattenInjective(a[1..], b[1..]);
    }
  }
}
