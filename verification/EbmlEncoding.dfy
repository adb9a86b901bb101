/** Writing EBML elements with any legal widths, and that reading inverts it (RFC 8794, sections 4 to 6). */
module EbmlEncoding {
  import opened Bytes
  import opened Wrappers
  import opened Ebml

  /** An element, its size field in any width that can hold it. */
  datatype Element = Element(id: nat, sizeWidth: nat, data: seq<Byte>)

  /** The number of values that a variable-length integer of `w` bytes can hold, seven bits a byte; its marker bit. */
  function Marker(w: nat): nat {
    if w == 1 then 0x80
    else if w == 2 then 0x4000
    else if w == 3 then 0x20_0000
    else if w == 4 then 0x1000_0000
    else if w == 5 then 0x8_0000_0000
    else if w == 6 then 0x400_0000_0000
    else if w == 7 then 0x2_0000_0000_0000
    else 0x100_0000_0000_0000
  }

  /** It is the marker bit of the lead byte, moved to the front. */
  lemma MarkerIsLead(w: nat)
    requires 1 <= w <= 8
    ensures Marker(w) == LeadMarker(w) * Pow256(w - 1)
  {
    Widths();
    assert Pow256(0) == 1 && Pow256(5) == 0x100_0000_0000 && Pow256(6) == 0x1_0000_0000_0000;
    assert Pow256(7) == 0x100_0000_0000_0000;
  }

  predicate HasIdWidth(id: nat, w: nat) {
    1 <= w <= 8 && Marker(w) <= id < 2 * Marker(w)
  }

  /** The width of a legal element ID, which its marker bit announces; 0 for a number that is no ID. */
  function IdWidth(id: nat): (w: nat)
    ensures w <= 8
    ensures w > 0 ==> HasIdWidth(id, w)
  {
    if HasIdWidth(id, 1) then 1
    else if HasIdWidth(id, 2) then 2
    else if HasIdWidth(id, 3) then 3
    else if HasIdWidth(id, 4) then 4
    else if HasIdWidth(id, 5) then 5
    else if HasIdWidth(id, 6) then 6
    else if HasIdWidth(id, 7) then 7
    else if HasIdWidth(id, 8) then 8
    else 0
  }

  /** A size that the width can hold and that is not all ones, which is reserved for unknown sizes. */
  predicate LegalSize(w: nat, size: nat) {
    1 <= w <= 8 && size < Marker(w) - 1
  }

  /** A legal element with data. */
  predicate Legal(e: Element) {
    IdWidth(e.id) > 0 && LegalSize(e.sizeWidth, |e.data|) && e.data != []
  }

  predicate AllLegal(elements: seq<Element>) {
    forall i :: 0 <= i < |elements| ==> Legal(elements[i])
  }

  function Header(id: nat, sizeWidth: nat, size: nat): (h: seq<Byte>)
    ensures |h| == IdWidth(id) + sizeWidth
  {
    BE(IdWidth(id), id) + BE(sizeWidth, size + Marker(sizeWidth))
  }

  function EncodeElement(e: Element): seq<Byte> {
    Header(e.id, e.sizeWidth, |e.data|) + e.data
  }

  function EncodeElements(elements: seq<Element>): seq<Byte> {
    if elements == [] then [] else EncodeElement(elements[0]) + EncodeElements(elements[1..])
  }

  // ---- variable-length integers ----

  lemma {:induction false} FirstByte(n: nat, v: nat, lo: nat, hi: nat)
    requires n > 0 && hi <= 0x100 && lo * Pow256(n - 1) <= v < hi * Pow256(n - 1)
    ensures lo <= BE(n, v)[0] < hi
  {
    if n == 1 {
      assert Pow256(0) == 1;
    } else {
      var l, h := lo * Pow256(n - 2), hi * Pow256(n - 2);
      assert lo * Pow256(n - 1) == l * 0x100 && hi * Pow256(n - 1) == h * 0x100;
      FirstByte(n - 1, v / 0x100, lo, hi);
    }
  }

  lemma {:induction false} HeadValue(b: Byte, tail: seq<Byte>)
    ensures UnBE([b] + tail) == b * Pow256(|tail|) + UnBE(tail)
  {
    var s := [b] + tail;
    if tail == [] {
      assert s[..0] == [];
    } else {
      var n := |tail| - 1;
      HeadValue(b, tail[..n]);
      assert s[..n + 1] == [b] + tail[..n];
      assert b * Pow256(n + 1) == (b * Pow256(n)) * 0x100;
    }
  }

  /** A number with its marker bit at width `w` is written with that lead byte. */
  lemma LeadByte(w: nat, v: nat)
    requires HasIdWidth(v, w)
    ensures LeadMarker(w) <= BE(w, v)[0] < 2 * LeadMarker(w)
    ensures BE(w, v)[0] != 0 && LeadWidth(BE(w, v)[0]) == w
    ensures UnBE(BE(w, v)) == v
  {
    var m, p := LeadMarker(w), Pow256(w - 1);
    MarkerIsLead(w);
    assert 2 * Marker(w) == (2 * m) * p;
    FirstByte(w, v, m, 2 * m);
    assert v < Pow256(w) by { assert (2 * m) * p <= 0x100 * p; }
    UnBEofBE(w, v);
  }

  /** An ID reads back, marker bit included. */
  lemma ReadIdOf(id: nat, rest: seq<Byte>)
    requires IdWidth(id) > 0
    ensures ReadId(BE(IdWidth(id), id) + rest) == Some(Vint(IdWidth(id), id))
  {
    var w := IdWidth(id);
    hide IdWidth, BE, UnBE, LeadWidth, HasIdWidth;
    LeadByte(w, id);
    assert (BE(w, id) + rest)[..w] == BE(w, id);
  }

  /** A size reads back in every width, marker bit dropped. */
  lemma ReadSizeOf(w: nat, size: nat, rest: seq<Byte>)
    requires 1 <= w <= 8 && size < Marker(w)
    ensures ReadSize(BE(w, size + Marker(w)) + rest) == Some(Vint(w, size))
  {
    hide *;
    var v, m := size + Marker(w), LeadMarker(w);
    var s := BE(w, v);
    Marked(w, size);
    LeadByte(w, v);
    Unmarked(w, v);
    ModuloMarker(s[0], m);
    assert (s + rest)[0] == s[0] && (s + rest)[1..w] == s[1..];
    ReadSizeFrom(s + rest, w);
  }

  lemma Marked(w: nat, size: nat)
    requires 1 <= w <= 8 && size < Marker(w)
    ensures HasIdWidth(size + Marker(w), w)
  {
  }

  lemma ReadSizeFrom(s: seq<Byte>, w: nat)
    requires 1 <= w <= |s| && s[0] != 0 && LeadWidth(s[0]) == w
    ensures ReadSize(s) == Some(Vint(w, UnBE([s[0] % LeadMarker(w)] + s[1..w])))
  {
  }

  /** Dropping the marker bit of the lead byte drops it from the value. */
  lemma Unmarked(w: nat, v: nat)
    requires HasIdWidth(v, w)
    ensures BE(w, v)[0] >= LeadMarker(w)
    ensures UnBE([BE(w, v)[0] - LeadMarker(w)] + BE(w, v)[1..]) == v - Marker(w)
  {
    var s, m := BE(w, v), LeadMarker(w);
    LeadByte(w, v);
    MarkerIsLead(w);
    hide *;
    assert s == [s[0]] + s[1..];
    HeadValue(s[0], s[1..]);
    HeadValue(s[0] - m, s[1..]);
    Distribute(s[0], m, Pow256(w - 1));
  }

  lemma Distribute(a: int, b: int, p: int)
    ensures (a - b) * p == a * p - b * p
  {
  }

  lemma ModuloMarker(b: nat, m: nat)
    requires 0 < m <= b < 2 * m
    ensures b % m == b - m
  {
    assert b == m * 1 + (b - m);
  }

  // ---- scanning ----

  function HeaderSize(e: Element): nat {
    IdWidth(e.id) + e.sizeWidth
  }

  /** The visits that the elements are meant to cause: each with exactly its own data. */
  function Visits(elements: seq<Element>, base: nat): (v: seq<Visit>)
    ensures |v| == |elements|
  {
    if elements == [] then []
    else
      var e, at := elements[0], base + HeaderSize(elements[0]);
      [Visit(e.id, e.data, |e.data|, at)] + Visits(elements[1..], at + |e.data|)
  }

  lemma StepOf(s: seq<Byte>, pos: nat, base: nat, id: nat, sizeWidth: nat, size: nat, data: seq<Byte>)
    requires pos <= |s| && IdWidth(id) > 0 && 1 <= sizeWidth <= 8 && size < Marker(sizeWidth)
    requires s[pos..] == Header(id, sizeWidth, size) + data && data != []
    ensures var at := pos + IdWidth(id) + sizeWidth;
            var avail := if 0 < size < |data| then size else |data|;
            && ScanStep(s, pos, base)
            == Some(Step(Visit(id, data[..avail], size, base + at),
                         if size == 0 || size > |data| then None else Some(at + size)))
            && at + |data| == |s| && s[at..] == data
  {
    hide IdWidth, ReadId, ReadSize, Marker, Header;
    var at := pos + IdWidth(id) + sizeWidth;
    ReadHeader(s, pos, id, sizeWidth, size, data);
    var avail := if 0 < size < |data| then size else |data|;
    assert s[at..at + avail] == s[at..][..avail];
  }

  lemma ReadHeader(s: seq<Byte>, pos: nat, id: nat, sizeWidth: nat, size: nat, data: seq<Byte>)
    requires pos <= |s| && IdWidth(id) > 0 && 1 <= sizeWidth <= 8 && size < Marker(sizeWidth)
    requires s[pos..] == Header(id, sizeWidth, size) + data
    ensures ReadId(s[pos..]) == Some(Vint(IdWidth(id), id)) && pos + IdWidth(id) <= |s|
    ensures ReadSize(s[pos + IdWidth(id)..]) == Some(Vint(sizeWidth, size))
    ensures pos + IdWidth(id) + sizeWidth <= |s| && s[pos + IdWidth(id) + sizeWidth..] == data
  {
    hide IdWidth, BE, ReadId, ReadSize, Marker;
    var w, z := BE(IdWidth(id), id), BE(sizeWidth, size + Marker(sizeWidth));
    assert s[pos..] == w + (z + data);
    ReadIdOf(id, z + data);
    ReadSizeOf(sizeWidth, size, data);
    Drop(s, pos, w, z + data);
    Drop(s, pos + IdWidth(id), z, data);
  }

  lemma Drop(s: seq<Byte>, pos: nat, head: seq<Byte>, tail: seq<Byte>)
    requires pos <= |s| && s[pos..] == head + tail
    ensures pos + |head| <= |s| && s[pos + |head|..] == tail
  {
    assert s[pos + |head|..] == s[pos..][|head|..];
  }

  /** Scanning encoded elements visits each of them once, in order, with exactly its data, whatever follows. */
  lemma {:induction false} ScanOf(elements: seq<Element>, rest: seq<Byte>, s: seq<Byte>, pos: nat, base: nat)
    requires AllLegal(elements) && pos <= |s| && s[pos..] == EncodeElements(elements) + rest
    ensures var next := pos + |EncodeElements(elements)|;
            && next <= |s| && s[next..] == rest
            && ScanFrom(s, pos, base) == Visits(elements, base + pos) + ScanFrom(s, next, base)
    decreases |elements|
  {
    hide *;
    if elements == [] {
      NoElements(s, pos, base);
    } else {
      var e, more := elements[0], EncodeElements(elements[1..]);
      var at := pos + HeaderSize(e);
      ElementsCons(elements, base + pos);
      assert EncodeElement(e) + more + rest == EncodeElement(e) + (more + rest);
      StepOfElement(s, pos, base, e, more + rest);
      ScanGoesOn(s, pos, base, Visit(e.id, e.data, |e.data|, base + at), at + |e.data|);
      ScanOf(elements[1..], rest, s, at + |e.data|, base);
    }
  }

  /** ... and nothing else, when nothing follows. */
  lemma ScanOfAll(elements: seq<Element>, base: nat)
    requires AllLegal(elements)
    ensures Scan(EncodeElements(elements), base) == Visits(elements, base)
  {
    hide Visits, EncodeElements, Legal, ScanFrom;
    var s := EncodeElements(elements);
    assert s[0..] == s == s + [];
    ScanOf(elements, [], s, 0, base);
    NothingLeft(s, base);
  }

  lemma NoElements(s: seq<Byte>, pos: nat, base: nat)
    requires pos <= |s|
    ensures |EncodeElements([])| == 0 && Visits([], base + pos) == []
    ensures EncodeElements([]) + s[pos..] == s[pos..]
  {
  }

  lemma ElementsCons(elements: seq<Element>, base: nat)
    requires elements != [] && AllLegal(elements)
    ensures var e, rest := elements[0], elements[1..];
            && Legal(e) && AllLegal(rest) && |EncodeElement(e)| == HeaderSize(e) + |e.data|
            && EncodeElements(elements) == EncodeElement(e) + EncodeElements(rest)
            && Visits(elements, base)
            == [Visit(e.id, e.data, |e.data|, base + HeaderSize(e))] + Visits(rest, base + HeaderSize(e) + |e.data|)
  {
    ElementSize(elements[0]);
    hide Legal, HeaderSize, EncodeElement;
  }

  lemma ElementSize(e: Element)
    ensures |EncodeElement(e)| == HeaderSize(e) + |e.data|
  {
    hide BE;
  }

  lemma ScanGoesOn(s: seq<Byte>, pos: nat, base: nat, visit: Visit, next: nat)
    requires pos <= |s| && ScanStep(s, pos, base) == Some(Step(visit, Some(next)))
    ensures pos < next <= |s| && ScanFrom(s, pos, base) == [visit] + ScanFrom(s, next, base)
  {
    hide ScanStep;
  }

  lemma StepOfElement(s: seq<Byte>, pos: nat, base: nat, e: Element, rest: seq<Byte>)
    requires Legal(e) && pos <= |s| && s[pos..] == EncodeElement(e) + rest
    ensures var at := pos + HeaderSize(e);
            && ScanStep(s, pos, base) == Some(Step(Visit(e.id, e.data, |e.data|, base + at), Some(at + |e.data|)))
            && at + |e.data| <= |s| && s[at + |e.data|..] == rest
  {
    SizeFits(e);
    assert e.data != [] && EncodeElement(e) == Header(e.id, e.sizeWidth, |e.data|) + e.data;
    assert HeaderSize(e) == IdWidth(e.id) + e.sizeWidth;
    hide *;
    assert s[pos..] == Header(e.id, e.sizeWidth, |e.data|) + (e.data + rest);
    StepOf(s, pos, base, e.id, e.sizeWidth, |e.data|, e.data + rest);
    assert (e.data + rest)[..|e.data|] == e.data;
    Drop(s, pos + HeaderSize(e), e.data, rest);
  }

  lemma SizeFits(e: Element)
    requires Legal(e)
    ensures IdWidth(e.id) > 0 && 1 <= e.sizeWidth <= 8 && |e.data| < Marker(e.sizeWidth)
  {
  }
}
