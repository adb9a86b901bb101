/** Bytes, fixed-width integers and their big-endian representation. */
module Bytes {

  type Byte = x: int | 0 <= x < 0x100
  type U16 = x: int | 0 <= x < 0x1_0000
  type U24 = x: int | 0 <= x < 0x100_0000
  type U32 = x: int | 0 <= x < 0x1_0000_0000
  type U64 = x: int | 0 <= x < 0x1_0000_0000_0000_0000
  type I32 = x: int | -0x8000_0000 <= x < 0x8000_0000
  type I64 = x: int | -0x8000_0000_0000_0000 <= x < 0x8000_0000_0000_0000

  /** `n` big-endian bytes holding the low-order `n` bytes of `v`. */
  function BE(n: nat, v: nat): (s: seq<Byte>)
    ensures |s| == n
  {
    if n == 0 then [] else BE(n - 1, v / 0x100) + [v % 0x100]
  }

  /** The unsigned big-endian value of a byte string. */
  function UnBE(s: seq<Byte>): nat
  {
    if s == [] then 0 else UnBE(s[..|s| - 1]) * 0x100 + s[|s| - 1]
  }

  function Pow256(n: nat): (p: nat)
    ensures p > 0
  {
    if n == 0 then 1 else Pow256(n - 1) * 0x100
  }

  /** static_cast to an unsigned 32- or 64-bit integer. */
  function ToU32(v: int): U32 { v % 0x1_0000_0000 }
  function ToU64(v: int): U64 { v % 0x1_0000_0000_0000_0000 }

  /** static_cast to a two's-complement 32- or 64-bit integer. */
  function ToI32(v: int): I32 {
    if ToU32(v) < 0x8000_0000 then ToU32(v) else ToU32(v) - 0x1_0000_0000
  }

  function ToI64(v: int): I64 {
    if ToU64(v) < 0x8000_0000_0000_0000 then ToU64(v) else ToU64(v) - 0x1_0000_0000_0000_0000
  }

  /** Encoding and then decoding recovers every value that fits the width ... */
  lemma {:induction false} UnBEofBE(n: nat, v: nat)
    requires v < Pow256(n)
    ensures UnBE(BE(n, v)) == v
  {
    if n == 0 {
    } else {
      UnBEofBE(n - 1, v / 0x100);
      assert BE(n, v)[..n - 1] == BE(n - 1, v / 0x100);
    }
  }

  /** ... and decoding and then encoding recovers every byte string. */
  lemma {:induction false} BEofUnBE(s: seq<Byte>)
    ensures BE(|s|, UnBE(s)) == s
    ensures UnBE(s) < Pow256(|s|)
  {
    if s == [] {
    } else {
      BEofUnBE(s[..|s| - 1]);
      assert UnBE(s) / 0x100 == UnBE(s[..|s| - 1]);
      assert s == s[..|s| - 1] + [s[|s| - 1]];
    }
  }

  lemma Widths()
    ensures Pow256(1) == 0x100
    ensures Pow256(2) == 0x1_0000
    ensures Pow256(3) == 0x100_0000
    ensures Pow256(4) == 0x1_0000_0000
    ensures Pow256(8) == 0x1_0000_0000_0000_0000
  {
    assert Pow256(4) == 0x1_0000_0000;
    assert Pow256(5) == 0x100_0000_0000;
    assert Pow256(6) == 0x1_0000_0000_0000;
    assert Pow256(7) == 0x100_0000_0000_0000;
  }

  /** The four shifted and masked bytes that BoxBuilder::U32 and Patch32 store. */
  lemma BE4(v: nat)
    ensures BE(4, v) == [v / 0x100_0000 % 0x100, v / 0x1_0000 % 0x100, v / 0x100 % 0x100, v % 0x100]
  {
    assert BE(1, v / 0x100 / 0x100 / 0x100) == [v / 0x100_0000 % 0x100];
    assert BE(2, v / 0x100 / 0x100) == [v / 0x100_0000 % 0x100, v / 0x1_0000 % 0x100];
    assert BE(3, v / 0x100) == [v / 0x100_0000 % 0x100, v / 0x1_0000 % 0x100, v / 0x100 % 0x100];
  }

  lemma BE3(v: nat)
    ensures BE(3, v) == [v / 0x1_0000 % 0x100, v / 0x100 % 0x100, v % 0x100]
  {
    assert BE(1, v / 0x100 / 0x100) == [v / 0x1_0000 % 0x100];
    assert BE(2, v / 0x100) == [v / 0x1_0000 % 0x100, v / 0x100 % 0x100];
  }

  /** The low four bytes of a wider field are a 32-bit field of its low word. */
  lemma BESplit4(n: nat, v: nat)
    ensures BE(n + 4, v) == BE(n, v / 0x1_0000_0000) + BE(4, v % 0x1_0000_0000)
  {
    BE4(v % 0x1_0000_0000);
    var a, b, c := v / 0x100, v / 0x100 / 0x100, v / 0x100 / 0x100 / 0x100;
    assert BE(n + 4, v) == BE(n + 3, a) + [v % 0x100];
    assert BE(n + 3, a) == BE(n + 2, b) + [a % 0x100];
    assert BE(n + 2, b) == BE(n + 1, c) + [b % 0x100];
    assert BE(n + 1, c) == BE(n, c / 0x100) + [c % 0x100];
    assert c / 0x100 == v / 0x1_0000_0000;
    LowWord(v);
  }

  lemma LowWord(v: nat)
    ensures var w := v % 0x1_0000_0000;
            && w % 0x100 == v % 0x100
            && w / 0x100 % 0x100 == v / 0x100 % 0x100
            && w / 0x1_0000 % 0x100 == v / 0x100 / 0x100 % 0x100
            && w / 0x100_0000 % 0x100 == v / 0x100 / 0x100 / 0x100 % 0x100
  {
    var w, k := v % 0x1_0000_0000, v / 0x1_0000_0000;
    assert v == 0x1_0000_0000 * k + w;
    assert v / 0x100 == 0x100_0000 * k + w / 0x100;
    assert v / 0x100 / 0x100 == 0x1_0000 * k + w / 0x1_0000;
    assert v / 0x100 / 0x100 / 0x100 == 0x100 * k + w / 0x100_0000;
  }

  /** Two's-complement fields read back as signed values. */
  lemma SignedField64(v: int)
    ensures ToI64(UnBE(BE(8, ToU64(v)))) == ToI64(v)
    ensures -0x8000_0000_0000_0000 <= v < 0x8000_0000_0000_0000 ==> ToI64(v) == v
  {
    Widths();
    var u: nat := ToU64(v);
    UnBEofBE(8, u);
  }
}
