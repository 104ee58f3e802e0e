/**
 * The bytes of a frame outside its bitmap do not depend on the bits: overwriting the
 * bitmap of a frame in place gives exactly the frame of the new bitmap.
 */
module FrameShape {
  import opened Wrappers
  import opened LittleEndian
  import opened FlatBuffers
  import opened DomainDataWire

  /** Equal except for the bytes whose distance from the end is in [lo, hi). */
  ghost predicate SameBut(b: Buffer, c: Buffer, lo: nat, hi: nat) {
    && |b| == |c|
    && forall k :: 0 <= k < |b| && !(lo <= |b| - 1 - k < hi) ==> b[k] == c[k]
  }

  lemma Prefixed(pre: Buffer, b: Buffer, c: Buffer, lo: nat, hi: nat)
    requires SameBut(b, c, lo, hi)
    ensures SameBut(pre + b, pre + c, lo, hi)
  {
  }

  lemma PreppedSame(b: Buffer, c: Buffer, align: nat, additional: nat, lo: nat, hi: nat)
    requires SameBut(b, c, lo, hi) && IsWidth(align)
    ensures SameBut(Prepped(b, align, additional), Prepped(c, align, additional), lo, hi)
  {
    Prefixed(Zeros(Padding(|b| + additional, align)), b, c, lo, hi);
  }

  lemma ScalarSame(b: Buffer, c: Buffer, x: nat, n: nat, lo: nat, hi: nat)
    requires SameBut(b, c, lo, hi) && IsWidth(n)
    ensures SameBut(WithScalar(b, x, n), WithScalar(c, x, n), lo, hi)
  {
    PreppedSame(b, c, n, 0, lo, hi);
    Prefixed(Encode(x, n), Prepped(b, n, 0), Prepped(c, n, 0), lo, hi);
  }

  lemma RefSame(b: Buffer, c: Buffer, x: nat, lo: nat, hi: nat)
    requires SameBut(b, c, lo, hi) && x <= |b|
    ensures SameBut(WithRef(b, x), WithRef(c, x), lo, hi)
  {
    PreppedSame(b, c, 4, 0, lo, hi);
    var p := Prepped(b, 4, 0);
    Prefixed(Encode(|p| + 4 - x, 4), p, Prepped(c, 4, 0), lo, hi);
  }

  lemma TableSame(b: Buffer, c: Buffer, slots: seq<nat>, start: nat, lo: nat, hi: nat)
    requires SameBut(b, c, lo, hi) && start <= |b|
    ensures SameBut(WithTable(b, slots, start), WithTable(c, slots, start), lo, hi)
    ensures TableOffset(b) == TableOffset(c) && TableOffset(b) <= |WithTable(b, slots, start)|
  {
    PreppedSame(b, c, 4, 0, lo, hi);
    var v := Vtable(slots, TableOffset(b), start);
    Prefixed(v + Encode(|v|, 4), Prepped(b, 4, 0), Prepped(c, 4, 0), lo, hi);
  }

  lemma FinishedSame(b: Buffer, c: Buffer, root: nat, lo: nat, hi: nat)
    requires SameBut(b, c, lo, hi) && root <= |b|
    ensures SameBut(Finished(b, root, 4), Finished(c, root, 4), lo, hi)
  {
    PreppedSame(b, c, 4, 8, lo, hi);
    RefSame(Prepped(b, 4, 8), Prepped(c, 4, 8), root, lo, hi);
    var r := WithRef(Prepped(b, 4, 8), root);
    Prefixed(Encode(|r|, 4), r, WithRef(Prepped(c, 4, 8), root), lo, hi);
  }

  lemma VectorSame(b: Buffer, d: Buffer, e: Buffer)
    requires |d| == |e|
    ensures var lo := |Prepped(b, 4, |d|)|;
      SameBut(WithByteVector(b, d), WithByteVector(b, e), lo, lo + |d|)
  {
  }

  lemma PartitionTableSame(b: Buffer, c: Buffer, lo: nat, hi: nat)
    requires SameBut(b, c, lo, hi)
    ensures SameBut(PartitionTable(b, |b|), PartitionTable(c, |c|), lo, hi)
    ensures PartitionOffset(b, |b|) == PartitionOffset(c, |c|)
  {
    hide SameBut, WithTable;
    assert |b| == |c| by { SameLengths(b, c, lo, hi); }
    RefSame(b, c, |b|, lo, hi);
    SameLengths(WithRef(b, |b|), WithRef(c, |c|), lo, hi);
    TableSame(WithRef(b, |b|), WithRef(c, |c|), [|WithRef(b, |b|)|], |b|, lo, hi);
  }

  lemma SameLengths(b: Buffer, c: Buffer, lo: nat, hi: nat)
    requires SameBut(b, c, lo, hi)
    ensures |b| == |c|
  {
  }

  lemma NamesSame(b: Buffer, c: Buffer, id: nat, name: nat, version: Option<nat>, lo: nat, hi: nat)
    requires SameBut(b, c, lo, hi)
    requires id <= |b| && name <= |b| && (version.Some? ==> version.value <= |b|)
    ensures |b| == |c|
    ensures var f, g := WithNames(b, id, name, version), WithNames(c, id, name, version);
      SameBut(f.bytes, g.bytes, lo, hi) && f.slots == g.slots
  {
    hide SameBut, WithRef;
    SameLengths(b, c, lo, hi);
    var r1, s1 := b, c;
    if version.Some? {
      RefSame(b, c, version.value, lo, hi);
      r1, s1 := WithRef(b, version.value), WithRef(c, version.value);
      SameLengths(r1, s1, lo, hi);
      RefGrows(b, version.value);
    }
    RefSame(r1, s1, id, lo, hi);
    SameLengths(WithRef(r1, id), WithRef(s1, id), lo, hi);
    RefGrows(r1, id);
    RefSame(WithRef(r1, id), WithRef(s1, id), name, lo, hi);
    SameLengths(WithRef(WithRef(r1, id), name), WithRef(WithRef(s1, id), name), lo, hi);
  }

  lemma RefGrows(b: Buffer, x: nat)
    requires x <= |b|
    ensures |b| < |WithRef(b, x)|
  {
  }

  lemma PayloadSame(f: Fields, g: Fields, data: nat, lo: nat, hi: nat)
    requires SameBut(f.bytes, g.bytes, lo, hi) && f.slots == g.slots && |f.slots| == 7 && data <= |f.bytes|
    ensures |f.bytes| == |g.bytes|
    ensures var p, q := WithPayload(f, data), WithPayload(g, data);
      SameBut(p.bytes, q.bytes, lo, hi) && p.slots == q.slots
  {
    hide SameBut;
    SameLengths(f.bytes, g.bytes, lo, hi);
    var r4, s4 := WithScalar(f.bytes, |f.bytes|, 4), WithScalar(g.bytes, |g.bytes|, 4);
    ScalarSame(f.bytes, g.bytes, |f.bytes|, 4, lo, hi);
    SameLengths(r4, s4, lo, hi);
    var r5, s5 := WithScalar(r4, PARTITION, 1), WithScalar(s4, PARTITION, 1);
    ScalarSame(r4, s4, PARTITION, 1, lo, hi);
    SameLengths(r5, s5, lo, hi);
    RefSame(r5, s5, data, lo, hi);
    SameLengths(WithRef(r5, data), WithRef(s5, data), lo, hi);
  }

  /** How far from the end of the frame the bitmap ends. */
  function BitmapEnd(id: Buffer, name: Buffer, version: Option<Buffer>, size: nat): nat {
    |Prepped(Contents(id, name, version), 4, size)|
  }

  lemma FramesSame(id: Buffer, name: Buffer, version: Option<Buffer>, d: Buffer, e: Buffer)
    requires |d| == |e|
    ensures var lo := BitmapEnd(id, name, version, |d|);
      SameBut(Frame(id, name, version, d), Frame(id, name, version, e), lo, lo + |d|)
    ensures RootOffset(id, name, version, d) == RootOffset(id, name, version, e)
    ensures LayoutOf(id, name, version, d) == LayoutOf(id, name, version, e)
    ensures MessageFields(id, name, version, d).slots == MessageFields(id, name, version, e).slots
  {
    hide SameBut, WithTable, PartitionTable, PartitionOffset, WithByteVector, Finished, WithNames, WithPayload,
      Contents;
    var lo := BitmapEnd(id, name, version, |d|);
    var hi := lo + |d|;
    var c := Contents(id, name, version);
    VectorSame(c, d, e);
    var v, w := WithByteVector(c, d), WithByteVector(c, e);
    SameLengths(v, w, lo, hi);
    PartitionTableSame(v, w, lo, hi);
    var p, q := Payload(id, name, version, d), Payload(id, name, version, e);
    SameLengths(p, q, lo, hi);
    var l := LayoutOf(id, name, version, d);
    assert LayoutOf(id, name, version, e) == l;
    LayoutInBounds(id, name, version, d);
    NamesSame(p, q, l.id, l.name, l.version, lo, hi);
    PayloadSame(WithNames(p, l.id, l.name, l.version), WithNames(q, l.id, l.name, l.version), l.partition, lo, hi);
    var f, g := MessageFields(id, name, version, d), MessageFields(id, name, version, e);
    SameLengths(f.bytes, g.bytes, lo, hi);
    TableSame(f.bytes, g.bytes, f.slots, |p|, lo, hi);
    FinishedSame(WithTable(f.bytes, f.slots, |p|), WithTable(g.bytes, g.slots, |q|), TableOffset(f.bytes), lo, hi);
  }

  /** b and w differ at most in the bytes [lo, hi). */
  ghost predicate AgreeOutside(b: Buffer, w: Buffer, lo: int, hi: int) {
    |b| == |w| && forall i :: 0 <= i < |b| && !(lo <= i < hi) ==> b[i] == w[i]
  }

  lemma Overwritten(f: Buffer, g: Buffer, w: Buffer, e: Buffer, start: nat)
    requires AgreeOutside(f, w, start, start + |e|) && start + |e| <= |f|
    requires SameBut(f, g, |f| - start - |e|, |f| - start)
    requires Contains(g, start, e) && w[start..start + |e|] == e
    ensures w == g
  {
    forall i | 0 <= i < |w|
      ensures w[i] == g[i]
    {
      if start <= i < start + |e| {
        assert w[start..start + |e|][i - start] == e[i - start];
        assert g[start + (i - start)] == e[i - start];
      }
    }
  }

  /** Where the bitmap of a frame starts. */
  function BitmapStart(id: Buffer, name: Buffer, version: Option<Buffer>, data: Buffer): int {
    |Frame(id, name, version, data)| - BitmapEnd(id, name, version, |data|) - |data|
  }

  lemma EncodableLength(id: Buffer, name: Buffer, version: Option<Buffer>, d: Buffer, e: Buffer)
    requires Encodable(id, name, version, d) && |d| == |e|
    ensures Encodable(id, name, version, e)
  {
  }

  /** Writing other bits over the bitmap of a frame yields the frame of those bits. */
  lemma FrameOverwritten(id: Buffer, name: Buffer, version: Option<Buffer>, d: Buffer, w: Buffer, e: Buffer)
    requires Encodable(id, name, version, d) && |d| == |e|
    requires var start := BitmapStart(id, name, version, d);
      && 0 <= start && start + |d| <= |w|
      && AgreeOutside(Frame(id, name, version, d), w, start, start + |d|) && w[start..start + |d|] == e
    ensures w == Frame(id, name, version, e)
  {
    hide Contains, SameBut, AgreeOutside, Contents, Frame, BitmapEnd, RootOffset, LayoutOf, Encodable, MessageFields;
    var f, g := Frame(id, name, version, d), Frame(id, name, version, e);
    var end := BitmapEnd(id, name, version, |d|);
    EncodableLength(id, name, version, d, e);
    BitmapInFrame(id, name, version, d);
    AgreeLengths(f, w, |f| - end - |d|, |f| - end);
    FramesSame(id, name, version, d, e);
    SameLengths(f, g, end, end + |d|);
    BitmapInFrame(id, name, version, e);
    Overwritten(f, g, w, e, |f| - end - |d|);
  }

  lemma AgreeLengths(b: Buffer, w: Buffer, lo: int, hi: int)
    requires AgreeOutside(b, w, lo, hi)
    ensures |b| == |w|
  {
  }

  /** The bitmap of a frame sits BitmapEnd bytes before its end, behind the first four bytes. */
  lemma BitmapInFrame(id: Buffer, name: Buffer, version: Option<Buffer>, data: Buffer)
    requires Encodable(id, name, version, data)
    ensures var f := Frame(id, name, version, data);
      var start := BitmapStart(id, name, version, data);
      4 <= start && start + |data| <= |f| && Contains(f, start, data)
  {
    hide ReadLE, Contains, Contents, Frame, TableAt, Payload, MessageFields, WithTable, ObjectsAt;
    FrameObjects(id, name, version, data);
    var l := LayoutOf(id, name, version, data);
    VectorInMessage(Frame(id, name, version, data), l, PartitionSlot(id, name, version, data), id, name, version, data);
    VectorInMessage(Frame(id, name, version, data)[4..], l, PartitionSlot(id, name, version, data),
                    id, name, version, data);
  }

  lemma VectorInMessage(b: Buffer, l: Layout, slot: nat, id: Buffer, name: Buffer, version: Option<Buffer>,
                        data: Buffer)
    requires ObjectsAt(b, l, slot, id, name, version, data)
    ensures VectorAt(b, l.vector, data)
  {
  }
}
