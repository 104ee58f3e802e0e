/** mergePartitions: one bitmap OR-ed into another inside the buffer the message came in. */
module PartitionMerge {
  import opened Wrappers
  import opened LittleEndian
  import opened FlatBuffers
  import opened DomainDataWire
  import opened FrameShape
  import opened Bitmaps

  /** The bytes of the bitmap of a partition table; nothing when the field is absent. */
  function Region(b: Buffer, pos: int): Vector {
    match VectorField(b, pos, 4)
    case Some(Some(v)) => v
    case _ => Vector(0, 0)
  }

  /** No other part of the table lies inside its bitmap, as in every well-formed buffer. */
  ghost predicate PartitionIsolated(b: Buffer, pos: int) {
    var v := Region(b, pos);
    && Bits(b, pos).Some? && 0 <= v.start && v.start + v.len <= |b|
    && forall w :: AgreeOutside(b, w, v.start, v.start + v.len) ==> VectorField(w, pos, 4) == VectorField(b, pos, 4)
  }

  lemma BitRead(b: Buffer, pos: int, v: Vector, j: nat)
    requires VectorField(b, pos, 4) == Some(Some(v)) && 0 <= v.start && v.start + j < |b|
    ensures PartitionBit(b, pos, j) == Some(b[v.start + j] == 1)
  {
    assert Decode(b, v.start + j, 1) == b[v.start + j] + 256 * Decode(b, v.start + j + 1, 0);
  }

  /** The generated getters read the bitmap element by element. */
  lemma PartitionGetters(b: Buffer, pos: int, bits: Bitmap)
    requires Bits(b, pos) == Some(bits)
    ensures PartitionLength(b, pos) == Some(|bits|)
    ensures forall j :: 0 <= j < |bits| ==> PartitionBit(b, pos, j) == Some(bits[j])
    ensures VectorField(b, pos, 4).Some? && |bits| == Region(b, pos).len
    ensures Region(b, pos).len > 0 ==> VectorField(b, pos, 4).value.Some?
  {
    forall j | 0 <= j < |bits|
      ensures PartitionBit(b, pos, j) == Some(bits[j])
    {
      BitRead(b, pos, Region(b, pos), j);
    }
  }

  method MutateData(a: array<byte>, pos: int, j: nat, x: bool) returns (ok: bool)
    requires VectorField(a[..], pos, 4).Some?
    requires var v := VectorField(a[..], pos, 4).value; v.Some? ==> 0 <= v.value.start + j < a.Length
    modifies a
    ensures ok == old(VectorField(a[..], pos, 4).value.Some?)
    ensures a[..] == if ok then old(a[..])[old(Region(a[..], pos).start) + j := if x then 1 else 0] else old(a[..])
  {
    var v := VectorField(a[..], pos, 4).value;
    if v.None? {
      return false;
    }
    a[v.value.start + j] := if x then 1 else 0;
    return true;
  }

  /** What the loop of MergePartitions has done after i rounds. */
  ghost predicate Written(before: Buffer, now: Buffer, start: nat, merged: Bitmap, i: nat) {
    && AgreeOutside(before, now, start, start + |merged|) && start + |merged| <= |before| && i <= |merged|
    && (forall k :: 0 <= k < i ==> now[start + k] == if merged[k] then 1 else 0)
    && (forall j :: start + i <= j < start + |merged| ==> now[j] == before[j])
  }

  lemma WrittenBits(before: Buffer, now: Buffer, pos: int, merged: Bitmap)
    requires PartitionIsolated(before, pos) && Region(before, pos).len == |merged|
    requires Written(before, now, Region(before, pos).start, merged, |merged|)
    ensures Bits(now, pos) == Some(merged)
  {
    var v := Region(before, pos);
    assert VectorField(now, pos, 4) == VectorField(before, pos, 4);
    PartitionGetters(before, pos, Bits(before, pos).value);
    if merged != [] {
      assert BitsOf(now[v.start..v.start + v.len]) == merged;
    }
  }

  lemma StillThere(before: Buffer, now: Buffer, pos: int, merged: Bitmap, i: nat)
    requires PartitionIsolated(before, pos) && Region(before, pos).len == |merged|
    requires Written(before, now, Region(before, pos).start, merged, i)
    ensures VectorField(now, pos, 4) == VectorField(before, pos, 4)
  {
  }

  /** Writing to the bitmap of the first table leaves the bits of the second as they are. */
  ghost predicate Apart(b: Buffer, pos1: int, pos2: int) {
    var v := Region(b, pos1);
    forall w :: AgreeOutside(b, w, v.start, v.start + v.len) ==> Bits(w, pos2) == Bits(b, pos2)
  }

  lemma StillApart(before: Buffer, now: Buffer, pos1: int, pos2: int, merged: Bitmap, i: nat)
    requires Apart(before, pos1, pos2) && Region(before, pos1).len == |merged| && 0 <= Region(before, pos1).start
    requires Written(before, now, Region(before, pos1).start, merged, i)
    ensures Bits(now, pos2) == Bits(before, pos2)
  {
  }

  /** Round i reads the bits of the buffer as it was, whether or not it reads p1 twice. */
  lemma RoundReads(before: Buffer, now: Buffer, pos: int, merged: Bitmap, i: nat)
    requires PartitionIsolated(before, pos) && Region(before, pos).len == |merged|
    requires Written(before, now, Region(before, pos).start, merged, i) && i < |merged|
    ensures PartitionBit(now, pos, i) == Some(Bits(before, pos).value[i])
  {
    hide ReadLE;
    StillThere(before, now, pos, merged, i);
    PartitionGetters(before, pos, Bits(before, pos).value);
    BitRead(now, pos, Region(before, pos), i);
    BitRead(before, pos, Region(before, pos), i);
  }

  lemma RoundWrites(before: Buffer, now: Buffer, start: nat, merged: Bitmap, i: nat)
    requires Written(before, now, start, merged, i) && i < |merged|
    ensures Written(before, now[start + i := if merged[i] then 1 else 0], start, merged, i + 1)
  {
  }

  /**
   * Afterwards p1 holds the merged bitmap and nothing else of its buffer has changed.
   * The two partitions may be one and the same object, or two tables of one buffer whose
   * bitmaps do not overlap.
   */
  method MergePartitions(a1: array<byte>, pos1: int, a2: array<byte>, pos2: int)
    requires PartitionIsolated(a1[..], pos1) && Bits(a2[..], pos2).Some?
    requires a1 == a2 && pos1 != pos2 ==> Apart(a1[..], pos1, pos2)
    modifies a1
    ensures var v := old(Region(a1[..], pos1)); AgreeOutside(old(a1[..]), a1[..], v.start, v.start + v.len)
    ensures Bits(a1[..], pos1) == Some(Merge(old(Bits(a1[..], pos1).value), old(Bits(a2[..], pos2).value)))
  {
    hide ReadLE, VectorField, Bits;
    ghost var before, other := a1[..], a2[..];
    ghost var bits1, bits2 := Bits(before, pos1).value, Bits(other, pos2).value;
    ghost var merged := Merge(bits1, bits2);
    ghost var start := Region(before, pos1).start;
    PartitionGetters(before, pos1, bits1);
    PartitionGetters(other, pos2, bits2);
    if PartitionLength(a1[..], pos1) == PartitionLength(a2[..], pos2) {
      var i := 0;
      while i < PartitionLength(a1[..], pos1).value
        invariant i <= |merged| && Written(before, a1[..], start, merged, i)
        invariant a1 != a2 || pos1 != pos2 ==> Bits(a2[..], pos2) == Some(bits2)
        invariant VectorField(a1[..], pos1, 4) == VectorField(before, pos1, 4)
        decreases |merged| - i
      {
        RoundReads(before, a1[..], pos1, merged, i);
        RoundWrites(before, a1[..], start, merged, i);
        if a1 != a2 || pos1 != pos2 {
          PartitionGetters(a2[..], pos2, bits2);
        }
        var x := PartitionBit(a1[..], pos1, i).value;
        var y := PartitionBit(a2[..], pos2, i).value;
        assert (x || y) == merged[i];
        var _ := MutateData(a1, pos1, i, x || y);
        i := i + 1;
        StillThere(before, a1[..], pos1, merged, i);
        if a1 == a2 && pos1 != pos2 {
          StillApart(before, a1[..], pos1, pos2, merged, i);
        }
      }
      WrittenBits(before, a1[..], pos1, merged);
    }
  }

  // ----- Messages with an isolated bitmap ------------------------------------------------

  /**
   * A partition message no other part of which lies inside its bitmap: writing bits
   * there changes the bits that are read and nothing else.
   */
  ghost predicate Isolated(b: Buffer, pos: int) {
    && Parse(b, pos).Some? && Parse(b, pos).value.bits.Some?
    && GetPartition(b, pos).Some? && GetPartition(b, pos).value.Some?
    && var p := GetPartition(b, pos).value.value; var v := Region(b, p);
    && 0 <= v.start && v.start + v.len <= |b|
    && forall w :: AgreeOutside(b, w, v.start, v.start + v.len) ==>
      && GetPartition(w, pos) == GetPartition(b, pos) && VectorField(w, p, 4) == VectorField(b, p, 4)
      && Parse(w, pos) == Some(Parse(b, pos).value.(bits := Bits(w, p)))
  }

  lemma IsolatedPartition(b: Buffer, pos: int)
    requires Isolated(b, pos)
    ensures GetPartition(b, pos).Some? && GetPartition(b, pos).value.Some? && Parse(b, pos).Some?
    ensures var p := GetPartition(b, pos).value.value;
      PartitionIsolated(b, p) && Bits(b, p) == Parse(b, pos).value.bits
  {
  }

  lemma BitmapLocated(b: Buffer, t: nat, slots: seq<nat>, l: Layout, slot: nat,
                      id: Buffer, name: Buffer, version: Option<Buffer>, data: Buffer)
    requires MessageAt(b, t, slots, l, slot, id, name, version, data)
    ensures GetPartition(b, |b| - t) == Some(Some(|b| - l.partition))
    ensures VectorField(b, |b| - l.partition, 4) == Some(Some(Vector(|b| - l.vector + 4, |data|)))
    ensures Bits(b, |b| - l.partition) == Some(BitsOf(data)) && l.vector <= |b|
    ensures Parse(b, |b| - t) == Some(DomainData(slots[3], id, name, if version.Some? then version.value else [],
                                                PARTITION, Some(BitsOf(data))))
  {
    hide ReadLE, Contains, Bits;
    PartitionFound(b, t, slots, l, slot, id, name, version, data);
    MessageRead(b, t, slots, l, slot, id, name, version, data);
    VectorFieldRead(b, l.partition, [slot], 0, l.vector, |data|);
  }

  function FrameBody(id: Buffer, name: Buffer, version: Option<Buffer>, data: Buffer): Buffer {
    Frame(id, name, version, data)[4..]
  }

  /** The body of a frame, as the functions that locate its parts see it. */
  lemma BodyLocated(id: Buffer, name: Buffer, version: Option<Buffer>, data: Buffer)
    requires Encodable(id, name, version, data)
    ensures var b := FrameBody(id, name, version, data);
      var pos := |b| - RootOffset(id, name, version, data);
      var l := LayoutOf(id, name, version, data);
      && Root(b, 0) == Some(pos)
      && GetPartition(b, pos) == Some(Some(|b| - l.partition))
      && VectorField(b, |b| - l.partition, 4) == Some(Some(Vector(|b| - l.vector + 4, |data|)))
      && Bits(b, |b| - l.partition) == Some(BitsOf(data)) && l.vector <= |b|
      && Parse(b, pos) == Some(DomainData(MessageFields(id, name, version, data).slots[3], id, name,
                                          if version.Some? then version.value else [], PARTITION, Some(BitsOf(data))))
  {
    hide ReadLE, MessageAt, Parse, GetPartition, VectorField, Bits, Frame, RootOffset, LayoutOf, PartitionSlot,
      MessageFields;
    FrameObjects(id, name, version, data);
    BitmapLocated(Frame(id, name, version, data)[4..], RootOffset(id, name, version, data),
                  MessageFields(id, name, version, data).slots, LayoutOf(id, name, version, data),
                  PartitionSlot(id, name, version, data), id, name, version, data);
  }

  lemma OverwrittenBody(id: Buffer, name: Buffer, version: Option<Buffer>, data: Buffer, w: Buffer)
    requires Encodable(id, name, version, data)
    ensures var b := FrameBody(id, name, version, data);
      var start := BitmapStart(id, name, version, data) - 4;
      && 0 <= start && start + |data| <= |b|
      && (AgreeOutside(b, w, start, start + |data|) ==>
           |w| == |b| && w == FrameBody(id, name, version, w[start..start + |data|]))
  {
    hide Frame, BitmapEnd, BitmapStart;
    var f := Frame(id, name, version, data);
    var start := BitmapStart(id, name, version, data) - 4;
    BitmapInFrame(id, name, version, data);
    if AgreeOutside(FrameBody(id, name, version, data), w, start, start + |data|) {
      var whole := f[..4] + w;
      assert AgreeOutside(f, whole, start + 4, start + 4 + |data|);
      BehindHeader(f[..4], w, start, start + |data|);
      FrameOverwritten(id, name, version, data, whole, w[start..start + |data|]);
    }
  }

  lemma BehindHeader(header: Buffer, w: Buffer, lo: nat, hi: nat)
    requires |header| == 4 && lo <= hi <= |w|
    ensures (header + w)[lo + 4..hi + 4] == w[lo..hi] && (header + w)[4..] == w
  {
  }

  lemma VectorOffset(id: Buffer, name: Buffer, version: Option<Buffer>, data: Buffer)
    ensures LayoutOf(id, name, version, data).vector == 4 + |data| + BitmapEnd(id, name, version, |data|)
  {
  }

  /** Two messages of which only the bits may differ, with their partition table at p. */
  ghost predicate Alike(b: Buffer, w: Buffer, pos: int, p: int) {
    && GetPartition(w, pos) == GetPartition(b, pos) == Some(Some(p)) && VectorField(w, p, 4) == VectorField(b, p, 4)
    && Parse(b, pos).Some? && Parse(w, pos) == Some(Parse(b, pos).value.(bits := Bits(w, p)))
  }

  lemma BodiesAlike(id: Buffer, name: Buffer, version: Option<Buffer>, data: Buffer, e: Buffer)
    requires Encodable(id, name, version, data) && |e| == |data|
    requires |FrameBody(id, name, version, e)| == |FrameBody(id, name, version, data)|
    ensures var b := FrameBody(id, name, version, data);
      Alike(b, FrameBody(id, name, version, e), |b| - RootOffset(id, name, version, data),
            |b| - LayoutOf(id, name, version, data).partition)
  {
    hide ReadLE, Parse, GetPartition, VectorField, Bits, Frame, RootOffset, LayoutOf, MessageFields, BitmapEnd, SameBut;
    BodyLocated(id, name, version, data);
    BodyLocated(id, name, version, e);
    FramesSame(id, name, version, data, e);
  }

  /** Every frame the repository writes is isolated, so its bitmap can be merged in place. */
  lemma FrameIsolated(id: Buffer, name: Buffer, version: Option<Buffer>, data: Buffer)
    requires Encodable(id, name, version, data)
    ensures var b := FrameBody(id, name, version, data); Root(b, 0).Some? && Isolated(b, Root(b, 0).value)
  {
    hide ReadLE, Parse, GetPartition, VectorField, Bits, Frame, RootOffset, LayoutOf, MessageFields, BitmapEnd,
      AgreeOutside;
    var b := FrameBody(id, name, version, data);
    BodyLocated(id, name, version, data);
    VectorOffset(id, name, version, data);
    OverwrittenBody(id, name, version, data, b);
    var pos := Root(b, 0).value;
    var p := GetPartition(b, pos).value.value;
    var v := Region(b, p);
    forall w | AgreeOutside(b, w, v.start, v.start + v.len)
      ensures GetPartition(w, pos) == GetPartition(b, pos) && VectorField(w, p, 4) == VectorField(b, p, 4)
      ensures Parse(w, pos) == Some(Parse(b, pos).value.(bits := Bits(w, p)))
    {
      OverwrittenBody(id, name, version, data, w);
      BodiesAlike(id, name, version, data, w[v.start..v.start + v.len]);
    }
  }
}
