/** Eight-byte little-endian words, as `to_le_bytes` and `from_le_bytes` write and read them. */
module LittleEndian {
  newtype byte = x: int | 0 <= x < 256

  const TWO_64: int := 0x1_0000_0000_0000_0000
  const TWO_63: int := 0x8000_0000_0000_0000

  function Pow256(n: nat): (r: nat)
    ensures r >= 1
  {
    if n == 0 then 1 else 256 * Pow256(n - 1)
  }

  function LeBytes(v: nat, n: nat): (s: seq<byte>)
    ensures |s| == n
  {
    if n == 0 then [] else [(v % 256) as byte] + LeBytes(v / 256, n - 1)
  }

  function FromLe(s: seq<byte>): (v: nat)
    ensures v < Pow256(|s|)
  {
    if s == [] then 0 else s[0] as nat + 256 * FromLe(s[1..])
  }

  lemma {:induction false} FromLeBytes(v: nat, n: nat)
    requires v < Pow256(n)
    ensures FromLe(LeBytes(v, n)) == v
  {
    if n > 0 {
      assert LeBytes(v, n)[1..] == LeBytes(v / 256, n - 1);
      FromLeBytes(v / 256, n - 1);
    }
  }

  lemma {:induction false} LeBytesFrom(s: seq<byte>)
    ensures LeBytes(FromLe(s), |s|) == s
  {
    if s != [] {
      LeBytesFrom(s[1..]);
      assert FromLe(s) % 256 == s[0] as nat && FromLe(s) / 256 == FromLe(s[1..]);
      assert s == [s[0]] + s[1..];
    }
  }

  lemma Pow256Eight()
    ensures Pow256(8) == TWO_64
  {
    assert Pow256(4) == 0x1_0000_0000;
    assert Pow256(6) == 0x1_0000_0000_0000;
  }

  // ----- u64 and i64 words -----

  function U64Bytes(v: nat): (s: seq<byte>)
    requires v < TWO_64
    ensures |s| == 8 && ReadU64(s) == v
  {
    Pow256Eight();
    FromLeBytes(v, 8);
    LeBytes(v, 8)
  }

  function ReadU64(s: seq<byte>): (v: nat)
    requires |s| == 8
    ensures v < TWO_64
  {
    Pow256Eight();
    FromLe(s)
  }

  lemma U64BytesRead(s: seq<byte>)
    requires |s| == 8
    ensures U64Bytes(ReadU64(s)) == s
  {
    LeBytesFrom(s);
  }

  /** Two's complement. */
  function I64Bytes(v: int): (s: seq<byte>)
    requires -TWO_63 <= v < TWO_63
    ensures |s| == 8 && ReadI64(s) == v
  {
    U64Bytes(if v < 0 then v + TWO_64 else v)
  }

  function ReadI64(s: seq<byte>): (v: int)
    requires |s| == 8
    ensures -TWO_63 <= v < TWO_63
  {
    var u := ReadU64(s);
    if u < TWO_63 then u else u - TWO_64
  }

  lemma I64BytesRead(s: seq<byte>)
    requires |s| == 8
    ensures I64Bytes(ReadI64(s)) == s
  {
    U64BytesRead(s);
  }
}
