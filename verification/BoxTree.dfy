/** ISO base media file format boxes (ISO/IEC 14496-12, section 4.2): trees of boxes, their bytes, and a
    reader for those bytes. A four-character code is represented by its big-endian 32-bit value. */
module BoxTree {
  import opened Bytes
  import opened Wrappers
  import opened IsoTypes

  type FourCC = U32

  const FTYP: FourCC := 0x66747970
  const STYP: FourCC := 0x73747970
  const SIDX: FourCC := 0x73696478
  const MOOF: FourCC := 0x6D6F6F66
  const MFHD: FourCC := 0x6D666864
  const TRAF: FourCC := 0x74726166
  const TFHD: FourCC := 0x74666864
  const TFDT: FourCC := 0x74666474
  const TRUN: FourCC := 0x7472756E
  const MDAT: FourCC := 0x6D646174
  const MOOV: FourCC := 0x6D6F6F76
  const MVHD: FourCC := 0x6D766864
  const MVEX: FourCC := 0x6D766578
  const TREX: FourCC := 0x74726578
  const TRAK: FourCC := 0x7472616B
  const TKHD: FourCC := 0x746B6864
  const EDTS: FourCC := 0x65647473
  const ELST: FourCC := 0x656C7374
  const MDIA: FourCC := 0x6D646961
  const MDHD: FourCC := 0x6D646864
  const HDLR: FourCC := 0x68646C72
  const MINF: FourCC := 0x6D696E66
  const VMHD: FourCC := 0x766D6864
  const SMHD: FourCC := 0x736D6864
  const DINF: FourCC := 0x64696E66
  const DREF: FourCC := 0x64726566
  const URL_: FourCC := 0x75726C20
  const STBL: FourCC := 0x7374626C
  const STSD: FourCC := 0x73747364
  const STTS: FourCC := 0x73747473
  const STSC: FourCC := 0x73747363
  const STSZ: FourCC := 0x7374737A
  const STCO: FourCC := 0x7374636F
  const AVC1: FourCC := 0x61766331
  const HEV1: FourCC := 0x68657631
  const MP4A: FourCC := 0x6D703461
  const AVCC: FourCC := 0x61766343
  const HVCC: FourCC := 0x68766343
  const ESDS: FourCC := 0x65736473

  /** A box: its type, the fields before its child boxes, and the child boxes. A leaf has no children. */
  datatype Box = Box(fourcc: FourCC, fields: seq<Byte>, children: seq<Box>)

  /** Number of field bytes before the children of a container box; None for a box without children. */
  function FieldsBeforeChildren(fourcc: FourCC): Option<nat> {
    if fourcc == ISO_MOOV || fourcc == ISO_MVEX || fourcc == ISO_TRAK || fourcc == ISO_EDTS || fourcc == ISO_MDIA
       || fourcc == ISO_MINF || fourcc == ISO_DINF || fourcc == ISO_STBL || fourcc == ISO_MOOF || fourcc == ISO_TRAF
    then Some(0)
    else if fourcc == ISO_DREF || fourcc == ISO_STSD then Some(8)
    else if fourcc == ISO_AVC1 || fourcc == ISO_HEV1 then Some(78)
    else if fourcc == ISO_MP4A then Some(28)
    else None
  }

  /** The size of a box in bytes, header included. */
  function Size(box: Box): (n: nat)
    ensures n >= 8
    decreases box, 0
  {
    8 + |box.fields| + SizeAll(box.children)
  }

  function SizeAll(boxes: seq<Box>): nat
    decreases boxes
  {
    if boxes == [] then 0 else Size(boxes[0]) + SizeAll(boxes[1..])
  }

  /** The bytes of a box: 32-bit size, type, fields, children. */
  function Encode(box: Box): (s: seq<Byte>)
    ensures |s| == Size(box)
    decreases box, 0
  {
    BE(4, Size(box)) + BE(4, box.fourcc) + box.fields + EncodeAll(box.children)
  }

  function EncodeAll(boxes: seq<Box>): (s: seq<Byte>)
    ensures |s| == SizeAll(boxes)
    decreases boxes
  {
    if boxes == [] then [] else Encode(boxes[0]) + EncodeAll(boxes[1..])
  }

  /** A box the format can express: its size fits the 32-bit size field, and it has children only if it is of a
      container type, in which case it has exactly that type's fields. */
  predicate Wellformed(box: Box)
    decreases box, 0
  {
    && Size(box) < 0x1_0000_0000
    && (match FieldsBeforeChildren(box.fourcc)
        case Some(n) => |box.fields| == n
        case None => box.children == [])
    && WellformedAll(box.children)
  }

  predicate WellformedAll(boxes: seq<Box>)
    decreases boxes
  {
    boxes == [] || (Wellformed(boxes[0]) && WellformedAll(boxes[1..]))
  }

  /** Reads `s` as a sequence of boxes that tile it exactly, at every depth. A size field of 0 or 1 announces a
      box to the end of the file or a 64-bit size; no writer here emits either. */
  function Parse(s: seq<Byte>): (r: Option<seq<Box>>)
    decreases |s|, 0
  {
    if s == [] then Some([])
    else if |s| < 8 then None
    else
      var size := UnBE(s[..4]);
      if size < 8 || size > |s| then None
      else
        var rest :- Parse(s[size..]);
        var box :- ParseBody(UnBE4(s[4..8]), s[8..size]);
        Some([box] + rest)
  }

  function UnBE4(s: seq<Byte>): U32
    requires |s| == 4
  {
    BEofUnBE(s);
    Widths();
    UnBE(s)
  }

  function ParseBody(fourcc: FourCC, body: seq<Byte>): Option<Box>
    decreases |body|, 1
  {
    match FieldsBeforeChildren(fourcc)
    case None => Some(Box(fourcc, body, []))
    case Some(n) =>
      if |body| < n then None
      else
        var children :- Parse(body[n..]);
        Some(Box(fourcc, body[..n], children))
  }

  lemma {:induction false} EncodeAllConcat(a: seq<Box>, b: seq<Box>)
    ensures EncodeAll(a + b) == EncodeAll(a) + EncodeAll(b)
    decreases a
  {
    if a == [] {
      assert a + b == b;
    } else {
      assert (a + b)[1..] == a[1..] + b;
      EncodeAllConcat(a[1..], b);
    }
  }

  lemma WellformedConcat(a: seq<Box>, b: seq<Box>)
    requires WellformedAll(a) && WellformedAll(b)
    ensures WellformedAll(a + b)
    decreases a
  {
    if a == [] {
      assert a + b == b;
    } else {
      assert (a + b)[1..] == a[1..] + b;
      WellformedConcat(a[1..], b);
    }
  }

  /** Reading undoes writing, for every tree of well-formed boxes ... */
  lemma {:induction false} ParseEncode(boxes: seq<Box>)
    requires WellformedAll(boxes)
    ensures Parse(EncodeAll(boxes)) == Some(boxes)
    decreases boxes, 0
  {
    if boxes != [] {
      var box, rest := boxes[0], boxes[1..];
      var s := EncodeAll(boxes);
      Widths();
      UnBEofBE(4, Size(box));
      UnBEofBE(4, box.fourcc);
      var body := box.fields + EncodeAll(box.children);
      assert Encode(box) == BE(4, Size(box)) + BE(4, box.fourcc) + body;
      assert s == BE(4, Size(box)) + BE(4, box.fourcc) + body + EncodeAll(rest);
      assert s[..4] == BE(4, Size(box));
      assert s[4..8] == BE(4, box.fourcc);
      assert s[8..Size(box)] == body;
      assert s[Size(box)..] == EncodeAll(rest);
      ParseEncode(rest);
      ParseBodyEncode(box);
      assert boxes == [box] + rest;
    }
  }

  lemma {:induction false} ParseBodyEncode(box: Box)
    requires Wellformed(box)
    ensures ParseBody(box.fourcc, box.fields + EncodeAll(box.children)) == Some(box)
    decreases box
  {
    var body := box.fields + EncodeAll(box.children);
    if FieldsBeforeChildren(box.fourcc).Some? {
      var n := |box.fields|;
      assert body[..n] == box.fields && body[n..] == EncodeAll(box.children);
      ParseEncode(box.children);
    } else {
      assert body == box.fields;
    }
  }

  /** ... and whatever reads as boxes is exactly the bytes of those boxes, so their sizes tile it. */
  lemma {:induction false} EncodeParse(s: seq<Byte>)
    requires Parse(s).Some?
    ensures EncodeAll(Parse(s).value) == s && WellformedAll(Parse(s).value)
    decreases |s|, 0
  {
    hide *;
    if s != [] {
      var size, box, rest := ParseFirst(s);
      EncodeParse(s[size..]);
      EncodeParseBody(UnBE4(s[4..8]), s[8..size]);
      EncodeFrame(s, size, box);
      OneBox(box);
      EncodeAllConcat([box], rest);
      WellformedConcat([box], rest);
      assert s == s[..size] + s[size..];
    } else {
      NoBoxes();
    }
  }

  lemma OneBox(box: Box)
    requires Wellformed(box)
    ensures EncodeAll([box]) == Encode(box) && WellformedAll([box])
  {
    assert Encode(box) + EncodeAll([]) == Encode(box);
  }

  lemma NoBoxes()
    ensures Parse([]) == Some([]) && EncodeAll([]) == [] && WellformedAll([])
  {
  }

  lemma ParseFirst(s: seq<Byte>) returns (size: nat, box: Box, rest: seq<Box>)
    requires Parse(s).Some? && s != []
    ensures 8 <= size <= |s| && size < 0x1_0000_0000 && BE(4, size) == s[..4]
    ensures Parse(s) == Some([box] + rest) && Parse(s[size..]) == Some(rest)
    ensures ParseBody(UnBE4(s[4..8]), s[8..size]) == Some(box)
  {
    size := UnBE(s[..4]);
    rest := Parse(s[size..]).value;
    box := ParseBody(UnBE4(s[4..8]), s[8..size]).value;
    BEofUnBE(s[..4]);
    Widths();
  }

  lemma EncodeFrame(s: seq<Byte>, size: nat, box: Box)
    requires 8 <= size <= |s| && BE(4, size) == s[..4] && box.fourcc == UnBE4(s[4..8])
    requires box.fields + EncodeAll(box.children) == s[8..size]
    ensures Size(box) == size && Encode(box) == s[..size]
  {
    hide BE, UnBE, SizeAll, EncodeAll;
    BEofUnBE(s[4..8]);
    var body := box.fields + EncodeAll(box.children);
    assert Size(box) == size;
    assert Encode(box) == s[..4] + s[4..8] + body;
    assert s[..size] == s[..4] + s[4..8] + s[8..size];
  }

  lemma {:induction false} EncodeParseBody(fourcc: FourCC, body: seq<Byte>)
    requires ParseBody(fourcc, body).Some? && |body| + 8 < 0x1_0000_0000
    ensures var box := ParseBody(fourcc, body).value;
            box.fourcc == fourcc && box.fields + EncodeAll(box.children) == body && Wellformed(box)
    decreases |body|, 1
  {
    hide BE, UnBE, SizeAll, FieldsBeforeChildren;
    match FieldsBeforeChildren(fourcc)
    case None => assert body + [] == body;
    case Some(n) =>
      EncodeParse(body[n..]);
      assert body == body[..n] + body[n..];
  }
}
