/** Reading EBML elements (src/EbmlParser.h; RFC 8794, sections 4 to 6). */
module Ebml {
  import opened Bytes
  import opened Wrappers

  /** A variable-length integer and the number of bytes it takes. */
  datatype Vint = Vint(width: nat, value: nat)

  /** The width announced by the highest set bit of a lead byte. */
  function LeadWidth(lead: Byte): (w: nat)
    requires lead != 0
    ensures 1 <= w <= 8
  {
    if lead >= 0x80 then 1
    else if lead >= 0x40 then 2
    else if lead >= 0x20 then 3
    else if lead >= 0x10 then 4
    else if lead >= 0x08 then 5
    else if lead >= 0x04 then 6
    else if lead >= 0x02 then 7
    else 8
  }

  /** The value of the marker bit of a lead byte. */
  function LeadMarker(width: nat): (m: nat)
    ensures m > 0
  {
    if width == 1 then 0x80
    else if width == 2 then 0x40
    else if width == 3 then 0x20
    else if width == 4 then 0x10
    else if width == 5 then 0x08
    else if width == 6 then 0x04
    else if width == 7 then 0x02
    else 0x01
  }

  /** An element ID keeps its marker bit. None is the source's return value 0. */
  function ReadId(s: seq<Byte>): (r: Option<Vint>)
    ensures r.Some? ==> 1 <= r.value.width <= |s|
  {
    if |s| < 1 || s[0] == 0 || |s| < LeadWidth(s[0]) then None
    else Some(Vint(LeadWidth(s[0]), UnBE(s[..LeadWidth(s[0])])))
  }

  /** An element data size drops its marker bit. All ones is read as a size like any other. */
  function ReadSize(s: seq<Byte>): (r: Option<Vint>)
    ensures r.Some? ==> 1 <= r.value.width <= |s|
  {
    if |s| < 1 || s[0] == 0 || |s| < LeadWidth(s[0]) then None
    else
      var w := LeadWidth(s[0]);
      Some(Vint(w, UnBE([s[0] % LeadMarker(w)] + s[1..w])))
  }

  /** A big-endian unsigned integer of at most eight bytes. */
  function ReadUint(s: seq<Byte>): nat {
    UnBE(if |s| < 8 then s else s[..8])
  }

  method EbmlReadId(s: seq<Byte>) returns (width: nat, id: nat)
    ensures width == 0 <==> ReadId(s) == None
    ensures width > 0 ==> ReadId(s) == Some(Vint(width, id))
  {
    if |s| < 1 || s[0] == 0 {
      return 0, 0;
    }
    width := LeadWidth(s[0]);
    if |s| < width {
      return 0, 0;
    }
    id := 0;
    for i := 0 to width
      invariant id == UnBE(s[..i])
    {
      assert s[..i + 1][..i] == s[..i];
      id := id * 0x100 + s[i];
    }
  }

  method EbmlReadSize(s: seq<Byte>) returns (width: nat, size: nat)
    ensures width == 0 <==> ReadSize(s) == None
    ensures width > 0 ==> ReadSize(s) == Some(Vint(width, size))
  {
    if |s| < 1 || s[0] == 0 {
      return 0, 0;
    }
    width := LeadWidth(s[0]);
    if |s| < width {
      return 0, 0;
    }
    ghost var bytes: seq<Byte> := [s[0] % LeadMarker(width)] + s[1..width];
    size := s[0] % LeadMarker(width);
    assert bytes[..1] == [size] && [size][..0] == [];
    for i := 1 to width
      invariant size == UnBE(bytes[..i])
    {
      assert bytes[..i + 1][..i] == bytes[..i];
      assert bytes[i] == s[1..width][i - 1] == s[i];
      size := size * 0x100 + s[i];
    }
    assert bytes[..width] == bytes;
  }

  method EbmlReadUint(s: seq<Byte>) returns (v: nat)
    ensures v == ReadUint(s)
  {
    v := 0;
    var i := 0;
    while i < |s| && i < 8
      invariant 0 <= i <= |s| && i <= 8
      invariant v == UnBE(s[..i])
    {
      assert s[..i + 1][..i] == s[..i];
      v := v * 0x100 + s[i];
      i := i + 1;
    }
    assert s[..|s|] == s;
  }

  /** One call of a scan's visitor: the element's ID, the data bytes at hand, its announced size, and where its
      data starts. */
  datatype Visit = Visit(id: nat, data: seq<Byte>, size: nat, offset: nat)

  /** What the element at `pos` contributes: the visit, and where the next element starts if the scan can go on.
      An element without data, or one longer than the buffer, is given all that remains and ends the scan. */
  datatype Step = Step(visit: Visit, next: Option<nat>)

  function ScanStep(s: seq<Byte>, pos: nat, base: nat): (r: Option<Step>)
    requires pos <= |s|
    ensures r.Some? && r.value.next.Some? ==> pos < r.value.next.value <= |s|
  {
    var id :- ReadId(s[pos..]);
    if pos + id.width >= |s| then None
    else
      var size :- ReadSize(s[pos + id.width..]);
      var at := pos + id.width + size.width;
      if at >= |s| then None
      else
        var avail := if 0 < size.value < |s| - at then size.value else |s| - at;
        Some(Step(Visit(id.value, s[at..at + avail], size.value, base + at),
                  if size.value == 0 || size.value > |s| - at then None else Some(at + size.value)))
  }

  /** The visits of a scan over the elements in `s` from `pos`, where `s` starts at byte `base` of the file. */
  function ScanFrom(s: seq<Byte>, pos: nat, base: nat): seq<Visit>
    requires pos <= |s|
    decreases |s| - pos
  {
    match ScanStep(s, pos, base)
    case None => []
    case Some(Step(visit, None)) => [visit]
    case Some(Step(visit, Some(next))) => [visit] + ScanFrom(s, next, base)
  }

  function Scan(s: seq<Byte>, base: nat): seq<Visit> {
    ScanFrom(s, 0, base)
  }

  /** The loop of ebml_scan_children, with the visitor's calls collected in order. */
  method EbmlScanChildren(s: seq<Byte>, base: nat) returns (visits: seq<Visit>)
    ensures visits == Scan(s, base)
  {
    hide ReadId, ReadSize, ScanFrom;
    visits := [];
    var pos := 0;
    while pos < |s|
      invariant 0 <= pos <= |s|
      invariant Scan(s, base) == visits + ScanFrom(s, pos, base)
      decreases |s| - pos
    {
      ScanNext(s, pos, base);
      var idBytes, id := EbmlReadId(s[pos..]);
      if idBytes == 0 {
        return;
      }
      var at := pos + idBytes;
      if at >= |s| {
        return;
      }
      var sizeBytes, size := EbmlReadSize(s[at..]);
      if sizeBytes == 0 {
        return;
      }
      at := at + sizeBytes;
      var remaining := |s| - at;
      if remaining <= 0 {
        return;
      }
      var avail := if size > 0 && size < remaining then size else remaining;
      visits := visits + [Visit(id, s[at..at + avail], size, base + at)];
      if size <= 0 {
        return;
      }
      if size > |s| - at {
        return;
      }
      pos := at + size;
    }
    NothingLeft(s, base);
  }

  lemma ScanNext(s: seq<Byte>, pos: nat, base: nat)
    requires pos <= |s|
    ensures match ScanStep(s, pos, base)
            case None => ScanFrom(s, pos, base) == []
            case Some(Step(visit, None)) => ScanFrom(s, pos, base) == [visit]
            case Some(Step(visit, Some(next))) =>
              next <= |s| && ScanFrom(s, pos, base) == [visit] + ScanFrom(s, next, base)
  {
    hide ScanStep;
  }

  lemma NothingLeft(s: seq<Byte>, base: nat)
    ensures ScanFrom(s, |s|, base) == []
  {
  }

  // ---- truncation ----

  /** `short` is what is left of `full` when the buffer ends early: its visits are the first ones of `full`, all
      the same but for the last one's data, which may be shortened. */
  ghost predicate Truncates(short: seq<Visit>, full: seq<Visit>) {
    && |short| <= |full|
    && (forall i :: 0 <= i < |short| - 1 ==> short[i] == full[i])
    && (short != [] ==> Shortens(short[|short| - 1], full[|short| - 1]))
  }

  predicate Shortens(a: Visit, b: Visit) {
    a.id == b.id && a.size == b.size && a.offset == b.offset && a.data <= b.data
  }

  lemma ReadPrefix(s: seq<Byte>, k: nat)
    requires k <= |s|
    ensures ReadId(s[..k]).Some? ==> ReadId(s[..k]) == ReadId(s)
    ensures ReadSize(s[..k]).Some? ==> ReadSize(s[..k]) == ReadSize(s)
  {
    if 0 < k && s[0] != 0 && LeadWidth(s[0]) <= k {
      assert s[..k][..LeadWidth(s[0])] == s[..LeadWidth(s[0])];
      assert s[..k][1..LeadWidth(s[0])] == s[1..LeadWidth(s[0])];
    }
  }

  /** Scanning a prefix of any buffer yields a prefix of the full scan's visits, the last one perhaps cut short. */
  lemma {:induction false} ScanPrefix(s: seq<Byte>, k: nat, pos: nat, base: nat)
    requires pos <= k <= |s|
    ensures Truncates(ScanFrom(s[..k], pos, base), ScanFrom(s, pos, base))
    decreases |s| - pos
  {
    hide ScanStep;
    match ScanStep(s[..k], pos, base)
    case None =>
    case Some(Step(visit, next)) =>
      StepPrefix(s, k, pos, base);
      if next.Some? {
        ScanPrefix(s, k, next.value, base);
      }
  }

  lemma StepPrefix(s: seq<Byte>, k: nat, pos: nat, base: nat)
    requires pos <= k <= |s| && ScanStep(s[..k], pos, base).Some?
    ensures ScanStep(s, pos, base).Some?
    ensures var a, b := ScanStep(s[..k], pos, base).value, ScanStep(s, pos, base).value;
            && Shortens(a.visit, b.visit)
            && (a.next.Some? ==> a == b)
  {
    hide ReadId, ReadSize;
    var p := s[..k];
    assert p[pos..] == s[pos..][..k - pos];
    ReadPrefix(s[pos..], k - pos);
    var w := pos + ReadId(p[pos..]).value.width;
    assert p[w..] == s[w..][..k - w];
    ReadPrefix(s[w..], k - w);
    var at := w + ReadSize(p[w..]).value.width;
    DataPrefix(s, k, at, |ScanStep(p, pos, base).value.visit.data|, |ScanStep(s, pos, base).value.visit.data|);
  }

  lemma DataPrefix(s: seq<Byte>, k: nat, at: nat, m: nat, n: nat)
    requires k <= |s| && at + m <= k && m <= n && at + n <= |s|
    ensures s[..k][at..at + m] == s[at..at + m] <= s[at..at + n]
  {
    assert s[at..at + m] == s[at..at + n][..m];
  }
}
