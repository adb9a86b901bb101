/** Big-endian fields byte by byte. */
module FieldBytes {
  import opened Bytes
  import opened BoxTree
  import opened BoxBuilding
  import opened InitLayout

  lemma OneByte(v: nat)
    requires v < 0x100
    ensures BE(1, v) == [v]
  {
    assert BE(0, v / 0x100) == [];
  }

  lemma TwoBytes(v: nat)
    requires v < 0x1_0000
    ensures BE(2, v) == [v / 0x100, v % 0x100]
  {
    OneByte(v / 0x100);
  }

  lemma NextByte(n: nat, v: nat, b: Byte)
    ensures BE(n + 1, v * 0x100 + b) == BE(n, v) + [b]
  {
    assert (v * 0x100 + b) / 0x100 == v && (v * 0x100 + b) % 0x100 == b;
  }

  lemma FourBytes(a: Byte, b: Byte, c: Byte, d: Byte)
    ensures BE(4, ((a as int * 0x100 + b) * 0x100 + c) * 0x100 + d) == [a, b, c, d]
  {
    hide BE;
    var v2: int := a as int * 0x100 + b;
    OneByte(a);
    NextByte(1, a, b);
    NextByte(2, v2, c);
    NextByte(3, v2 * 0x100 + c, d);
  }

  lemma Four(v: U32, a: Byte, b: Byte, c: Byte, d: Byte)
    requires v == ((a * 0x100 + b) * 0x100 + c) * 0x100 + d
    ensures BE(4, v) == [a, b, c, d]
  {
    FourBytes(a, b, c, d);
  }

  lemma Two(v: U16, a: Byte, b: Byte)
    requires v == a * 0x100 + b
    ensures BE(2, v) == [a, b]
  {
    TwoBytes(v);
  }

  lemma {:induction false} NoBytes(n: nat)
    ensures BE(n, 0) == Zeros(n)
  {
    if n > 0 {
      NoBytes(n - 1);
    }
  }

  lemma Full(version: Byte, flags: Byte)
    ensures FullBoxHeader(version, flags) == [version, 0, 0, flags]
  {
    hide BE;
    NoBytes(2);
    NextByte(2, 0, flags);
    assert Zeros(2) == [0, 0];
  }

  lemma FullWide(version: Byte, a: Byte, b: Byte, c: Byte)
    ensures FullBoxHeader(version, (a as int * 0x100 + b) * 0x100 + c) == [version, a, b, c]
  {
    hide BE;
    OneByte(a);
    NextByte(1, a, b);
    NextByte(2, a as int * 0x100 + b, c);
  }

  // ---- boxes ----

  lemma LeafBytes(fourcc: FourCC, fields: seq<Byte>)
    ensures Encode(Box(fourcc, fields, [])) == BE(4, 8 + |fields|) + BE(4, fourcc) + fields
  {
    hide BE;
  }

  lemma NodeBytes(fourcc: FourCC, fields: seq<Byte>, children: seq<Box>)
    ensures Encode(Box(fourcc, fields, children))
         == BE(4, 8 + |fields| + |EncodeAll(children)|) + BE(4, fourcc) + fields + EncodeAll(children)
  {
    hide BE;
  }

  lemma NextBox(box: Box, rest: seq<Box>)
    ensures EncodeAll([box] + rest) == Encode(box) + EncodeAll(rest)
  {
    hide Encode;
    assert ([box] + rest)[1..] == rest;
  }

  lemma BoxesOf1(a: Box)
    ensures EncodeAll([a]) == Encode(a)
  {
    hide Encode;
  }

  lemma BoxesOf2(a: Box, b: Box)
    ensures EncodeAll([a, b]) == Encode(a) + Encode(b)
  {
    hide Encode, EncodeAll;
    NextBox(a, [b]);
    BoxesOf1(b);
    assert [a] + [b] == [a, b];
  }

  lemma BoxesOf3(a: Box, b: Box, c: Box)
    ensures EncodeAll([a, b, c]) == Encode(a) + Encode(b) + Encode(c)
  {
    hide Encode, EncodeAll;
    NextBox(a, [b, c]);
    BoxesOf2(b, c);
    assert [a] + [b, c] == [a, b, c];
  }

  lemma BoxesOf5(a: Box, b: Box, c: Box, d: Box, e: Box)
    ensures EncodeAll([a, b, c, d, e]) == Encode(a) + Encode(b) + Encode(c) + Encode(d) + Encode(e)
  {
    hide Encode, EncodeAll;
    NextBox(a, [b, c, d, e]);
    NextBox(b, [c, d, e]);
    BoxesOf3(c, d, e);
    assert [a] + [b, c, d, e] == [a, b, c, d, e] && [b] + [c, d, e] == [b, c, d, e];
  }
}
