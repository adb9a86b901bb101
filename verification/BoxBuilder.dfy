/** The append buffer with back-patched sizes that every box is written through (src/BoxBuilder.h). */
module BoxBuilding {
  import opened Bytes
  import opened BoxTree

  class BoxBuilder {
    var buf: seq<Byte>

    constructor ()
      ensures buf == []
    {
      buf := [];
    }

    method U8(v: Byte)
      modifies this
      ensures buf == old(buf) + [v]
    {
      buf := buf + [v];
    }

    method U16(v: U16)
      modifies this
      ensures buf == old(buf) + BE(2, v)
    {
      U8(v / 0x100);
      U8(v % 0x100);
      assert BE(1, v / 0x100) == [v / 0x100];
    }

    method U24(v: U24)
      modifies this
      ensures buf == old(buf) + BE(3, v)
    {
      BE3(v);
      U8(v / 0x1_0000 % 0x100);
      U8(v / 0x100 % 0x100);
      U8(v % 0x100);
    }

    method U32(v: U32)
      modifies this
      ensures buf == old(buf) + BE(4, v)
    {
      BE4(v);
      U8(v / 0x100_0000 % 0x100);
      U8(v / 0x1_0000 % 0x100);
      U8(v / 0x100 % 0x100);
      U8(v % 0x100);
    }

    method U64(v: U64)
      modifies this
      ensures buf == old(buf) + BE(8, v)
    {
      BESplit4(4, v);
      U32(v / 0x1_0000_0000);
      U32(v % 0x1_0000_0000);
    }

    method S32(v: int)
      modifies this
      ensures buf == old(buf) + BE(4, ToU32(v))
    {
      U32(ToU32(v));
    }

    method S64(v: int)
      modifies this
      ensures buf == old(buf) + BE(8, ToU64(v))
    {
      U64(ToU64(v));
    }

    method Append(data: seq<Byte>)
      modifies this
      ensures buf == old(buf) + data
    {
      if |data| == 0 {
        return;
      }
      buf := buf + data;
    }

    method Type(fourcc: FourCC)
      modifies this
      ensures buf == old(buf) + BE(4, fourcc)
    {
      U32(fourcc);
    }

    method BeginBox(fourcc: FourCC) returns (start: nat)
      modifies this
      ensures start == |old(buf)|
      ensures buf == old(buf) + BE(4, 0) + BE(4, fourcc)
    {
      start := |buf|;
      U32(0);
      Type(fourcc);
    }

    method BeginFullBox(fourcc: FourCC, version: Byte, flags: U24) returns (start: nat)
      modifies this
      ensures start == |old(buf)|
      ensures buf == old(buf) + BE(4, 0) + BE(4, fourcc) + FullBoxHeader(version, flags)
    {
      start := BeginBox(fourcc);
      U8(version);
      U24(flags);
    }

    method Patch32(offset: nat, value: U32)
      requires offset + 4 <= |buf|
      modifies this
      ensures buf == Patched(old(buf), offset, value)
    {
      BE4(value);
      buf := buf[offset := value / 0x100_0000 % 0x100];
      buf := buf[offset + 1 := value / 0x1_0000 % 0x100];
      buf := buf[offset + 2 := value / 0x100 % 0x100];
      buf := buf[offset + 3 := value % 0x100];
      assert buf == Patched(old(buf), offset, value);
    }

    /** Patches the size of the box begun at `start`, whatever was appended since. */
    method EndBox(start: nat)
      requires start + 4 <= |buf|
      modifies this
      ensures buf == Patched(old(buf), start, |old(buf)| - start)
    {
      var size := ToU32(|buf| - start);
      BE4(size);
      BESplit4(0, |buf| - start);
      buf := buf[start := size / 0x100_0000 % 0x100];
      buf := buf[start + 1 := size / 0x1_0000 % 0x100];
      buf := buf[start + 2 := size / 0x100 % 0x100];
      buf := buf[start + 3 := size % 0x100];
      assert buf == Patched(old(buf), start, |old(buf)| - start);
    }

    method Take() returns (bytes: seq<Byte>)
      modifies this
      ensures bytes == old(buf) && buf == []
    {
      bytes := buf;
      buf := [];
    }
  }

  /** The version and flags of a full box (ISO/IEC 14496-12, section 4.2). */
  function FullBoxHeader(version: Byte, flags: U24): seq<Byte> {
    [version] + BE(3, flags)
  }

  /** `s` with the four bytes at `offset` replaced by a 32-bit field. */
  function Patched(s: seq<Byte>, offset: nat, value: nat): seq<Byte>
    requires offset + 4 <= |s|
  {
    s[..offset] + BE(4, value) + s[offset + 4..]
  }

  /** Begin, children, End: patching the size over the placeholder leaves exactly the box after `before`, and
      `before` as it was. */
  lemma Closed(before: seq<Byte>, box: Box)
    ensures var open := before + BE(4, 0) + BE(4, box.fourcc) + box.fields + EncodeAll(box.children);
            && |open| - |before| == Size(box)
            && Patched(open, |before|, Size(box)) == before + Encode(box)
  {
    PatchedSize(before, BE(4, 0), BE(4, box.fourcc), box.fields, EncodeAll(box.children), Size(box));
  }

  lemma PatchedSize(before: seq<Byte>, placeholder: seq<Byte>, fourcc: seq<Byte>, fields: seq<Byte>,
                    children: seq<Byte>, size: nat)
    requires |placeholder| == 4
    ensures Patched(before + placeholder + fourcc + fields + children, |before|, size)
         == before + (BE(4, size) + fourcc + fields + children)
  {
    var after := fourcc + fields + children;
    assert before + placeholder + fourcc + fields + children == before + placeholder + after;
    assert before + (BE(4, size) + fourcc + fields + children) == before + BE(4, size) + after;
    PatchedBetween(before, placeholder, after, size);
  }

  lemma PatchedBetween(before: seq<Byte>, placeholder: seq<Byte>, after: seq<Byte>, value: nat)
    requires |placeholder| == 4
    ensures Patched(before + placeholder + after, |before|, value) == before + BE(4, value) + after
  {
  }

  lemma Associate(a: seq<Byte>, b: seq<Byte>, c: seq<Byte>, d: seq<Byte>)
    ensures a + b + c + d == a + (b + c + d) == a + b + (c + d) == a + (b + (c + d))
  {
  }

  /** A patch changes nothing outside its four bytes, so it commutes with what stands before and after it. */
  lemma PatchedInside(before: seq<Byte>, middle: seq<Byte>, after: seq<Byte>, offset: nat, value: nat)
    requires offset + 4 <= |middle|
    ensures Patched(before + middle + after, |before| + offset, value)
         == before + Patched(middle, offset, value) + after
  {
  }
}
