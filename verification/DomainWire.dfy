/** The Domain message createDomain sends, with its vector of readers. */
module DomainWire {
  import opened Wrappers
  import opened LittleEndian
  import opened FlatBuffers
  import opened FlatBufferBuilder
  import opened TableWriter

  // ----- Generated accessors -------------------------------------------------------------

  function Id(b: Buffer, pos: int): Option<Buffer> {
    ByteField(b, pos, 4)
  }

  function Name(b: Buffer, pos: int): Option<Buffer> {
    ByteField(b, pos, 6)
  }

  function Writer(b: Buffer, pos: int): Option<Buffer> {
    ByteField(b, pos, 8)
  }

  function Readers(b: Buffer, pos: int, j: nat): Option<Buffer> {
    var v :- VectorField(b, pos, 10);
    if v.None? then Some([]) else ByteVector(b, v.value.start + 4 * j)
  }

  function ReadersLength(b: Buffer, pos: int): Option<nat> {
    var v :- VectorField(b, pos, 10);
    Some(if v.None? then 0 else v.value.len)
  }

  function NodesLength(b: Buffer, pos: int): Option<nat> {
    var v :- VectorField(b, pos, 12);
    Some(if v.None? then 0 else v.value.len)
  }

  function ClusterSecret(b: Buffer, pos: int): Option<Buffer> {
    ByteField(b, pos, 14)
  }

  // ----- What createDomain builds --------------------------------------------------------

  /** id, name, writer, then every reader, in the order the strings are created. */
  function Strings(id: Buffer, name: Buffer, dataNodes: seq<Buffer>): seq<Buffer>
    requires dataNodes != []
  {
    [id, name, dataNodes[0]] + dataNodes
  }

  predicate Encodable(id: Buffer, name: Buffer, dataNodes: seq<Buffer>)
    requires dataNodes != []
  {
    TotalSize(Strings(id, name, dataNodes)) + 4 * |dataNodes| + 128 < MAX_BUFFER
  }

  function ReaderOffsets(ss: seq<Buffer>): (xs: seq<nat>)
    requires |ss| >= 3
    ensures |xs| == |ss| - 3
    ensures forall i :: 0 <= i < |xs| ==> xs[i] <= |WithStrings([], ss)|
  {
    OffsetsInBounds(ss);
    seq(|ss| - 3, i requires 0 <= i < |ss| - 3 => StringOffset([], ss, i + 3))
  }

  lemma {:induction false} OffsetsInBounds(ss: seq<Buffer>)
    ensures forall i :: 0 <= i < |ss| ==> 0 < StringOffset([], ss, i) <= |WithStrings([], ss)|
  {
    if ss != [] {
      var n := |ss| - 1;
      OffsetsInBounds(ss[..n]);
      forall i | 0 <= i < |ss|
        ensures 0 < StringOffset([], ss, i) <= |WithStrings([], ss)|
      {
        if i < n {
          assert ss[..n][..i + 1] == ss[..i + 1];
          var _ := StringOffset([], ss[..n], i);
        } else {
          assert ss[..i + 1] == ss;
        }
      }
    }
  }

  function DomainFields(ss: seq<Buffer>, readers: nat): seq<FieldWrite>
    requires |ss| >= 3
  {
    [Ref(0, StringOffset([], ss, 0)), Ref(1, StringOffset([], ss, 1)), Ref(2, StringOffset([], ss, 2)), Ref(3, readers)]
  }

  function Contents(ss: seq<Buffer>): Buffer
    requires |ss| >= 3
  {
    WithRefVector(WithStrings([], ss), ReaderOffsets(ss))
  }

  lemma FieldsFit(ss: seq<Buffer>)
    requires |ss| >= 3
    ensures AllFit(DomainFields(ss, |Contents(ss)|), Contents(ss), 6)
    ensures DistinctSlots(DomainFields(ss, |Contents(ss)|))
  {
    OffsetsInBounds(ss);
  }

  function DomainFrame(ss: seq<Buffer>): (f: Buffer)
    requires |ss| >= 3
    ensures 4 <= |f|
  {
    FieldsFit(ss);
    var b := Contents(ss);
    var ws := DomainFields(ss, |b|);
    Finished(WithObject(b, 6, ws), ObjectOffset(b, 6, ws), 4)
  }

  // ----- Reading it back -------------------------------------------------------------------

  /** The message is found in b with its table at offset t from the end. */
  ghost predicate DomainAt(b: Buffer, t: nat, slots: seq<nat>, ss: seq<Buffer>)
    requires |ss| >= 3
  {
    && |slots| == 6
    && ObjectAt(b, t, slots, DomainFields(ss, |Contents(ss)|))
    && RefVectorAt(b, |Contents(ss)|, ReaderOffsets(ss))
    && forall i :: 0 <= i < |ss| ==> VectorAt(b, StringOffset([], ss, i), ss[i])
  }

  lemma StringsRead(b: Buffer, t: nat, slots: seq<nat>, ss: seq<Buffer>)
    requires |ss| >= 3 && DomainAt(b, t, slots, ss)
    ensures Id(b, |b| - t) == Some(ss[0]) && Name(b, |b| - t) == Some(ss[1]) && Writer(b, |b| - t) == Some(ss[2])
  {
    hide ReadLE, Contains, StringOffset, Contents, FieldOffset, ByteField;
    var ws := DomainFields(ss, |Contents(ss)|);
    assert ws[0].slot == 0 && ws[1].slot == 1 && ws[2].slot == 2;
    assert FieldAt(b, slots[0], ws[0]) && FieldAt(b, slots[1], ws[1]) && FieldAt(b, slots[2], ws[2]);
    ByteFieldRead(b, t, slots, 0, StringOffset([], ss, 0), ss[0]);
    ByteFieldRead(b, t, slots, 1, StringOffset([], ss, 1), ss[1]);
    ByteFieldRead(b, t, slots, 2, StringOffset([], ss, 2), ss[2]);
  }

  lemma ReadersRead(b: Buffer, t: nat, slots: seq<nat>, ss: seq<Buffer>)
    requires |ss| >= 3 && DomainAt(b, t, slots, ss)
    ensures ReadersLength(b, |b| - t) == Some(|ss| - 3)
    ensures forall i :: 3 <= i < |ss| ==> Readers(b, |b| - t, i - 3) == Some(ss[i])
  {
    hide ReadLE, Contains, StringOffset, Contents, FieldOffset, ByteVector;
    var ws := DomainFields(ss, |Contents(ss)|);
    assert ws[3].slot == 3 && FieldAt(b, slots[3], ws[3]);
    VectorFieldRead(b, t, slots, 3, |Contents(ss)|, |ss| - 3);
    var xs := ReaderOffsets(ss);
    forall i | 3 <= i < |ss|
      ensures Readers(b, |b| - t, i - 3) == Some(ss[i])
    {
      ReaderRead(b, |Contents(ss)|, xs, i - 3, ss[i]);
    }
  }

  lemma DomainRead(b: Buffer, t: nat, slots: seq<nat>, ss: seq<Buffer>)
    requires |ss| >= 3 && DomainAt(b, t, slots, ss)
    ensures var pos := |b| - t;
      && Id(b, pos) == Some(ss[0]) && Name(b, pos) == Some(ss[1]) && Writer(b, pos) == Some(ss[2])
      && ReadersLength(b, pos) == Some(|ss| - 3)
      && (forall i :: 3 <= i < |ss| ==> Readers(b, pos, i - 3) == Some(ss[i]))
      && NodesLength(b, pos) == Some(0) && ClusterSecret(b, pos) == Some([])
  {
    hide ReadLE, Contains, StringOffset, Contents, Id, Name, Writer, ReadersLength, Readers, VectorAt, RefVectorAt;
    StringsRead(b, t, slots, ss);
    ReadersRead(b, t, slots, ss);
    assert slots[4] == 0 && slots[5] == 0;
    assert FieldOffset(b, |b| - t, 4 + 2 * 4) == Some(Entry(slots[4], t));
    assert FieldOffset(b, |b| - t, 4 + 2 * 5) == Some(Entry(slots[5], t));
  }

  lemma ReaderRead(b: Buffer, o: nat, xs: seq<nat>, j: nat, s: Buffer)
    requires j < |xs| && RefVectorAt(b, o, xs) && VectorAt(b, xs[j], s)
    ensures ByteVector(b, |b| - o + 4 + 4 * j) == Some(s)
  {
    ReadVector(b, o - 4 - 4 * j, xs[j], s);
  }

  lemma ContentsBuilt(ss: seq<Buffer>)
    requires |ss| >= 3 && TotalSize(ss) + 4 * |ss| + 32 < MAX_BUFFER
    ensures var b := Contents(ss);
      && RefVectorAt(b, |b|, ReaderOffsets(ss)) && |b| < TotalSize(ss) + 4 * |ss| + 8
      && forall i :: 0 <= i < |ss| ==> VectorAt(b, StringOffset([], ss, i), ss[i])
  {
    hide ReadLE, Contains, VectorAt, RefVectorAt, StringOffset, WithStrings, WithRefVector;
    var p := WithStrings([], ss);
    StringsBuilt([], ss);
    RefVectorBuilt(p, ReaderOffsets(ss));
    forall i | 0 <= i < |ss|
      ensures VectorAt(Contents(ss), StringOffset([], ss, i), ss[i])
    {
      VectorExtended(Contents(ss), p, StringOffset([], ss, i), ss[i]);
    }
  }

  function Message(ss: seq<Buffer>): Buffer
    requires |ss| >= 3
  {
    FieldsFit(ss);
    WithObject(Contents(ss), 6, DomainFields(ss, |Contents(ss)|))
  }

  function RootOffset(ss: seq<Buffer>): nat
    requires |ss| >= 3
  {
    FieldsFit(ss);
    ObjectOffset(Contents(ss), 6, DomainFields(ss, |Contents(ss)|))
  }

  function Slots(ss: seq<Buffer>): seq<nat>
    requires |ss| >= 3
  {
    FieldsFit(ss);
    ObjectSlots(Contents(ss), 6, DomainFields(ss, |Contents(ss)|))
  }

  lemma DomainExtended(b': Buffer, b: Buffer, t: nat, slots: seq<nat>, ss: seq<Buffer>)
    requires |ss| >= 3 && Extends(b', b) && DomainAt(b, t, slots, ss)
    ensures DomainAt(b', t, slots, ss)
  {
    hide ReadLE, Contains, VectorAt, RefVectorAt, StringOffset, Contents, ObjectAt;
    ObjectExtended(b', b, t, slots, DomainFields(ss, |Contents(ss)|));
    RefVectorExtended(b', b, |Contents(ss)|, ReaderOffsets(ss));
    forall i | 0 <= i < |ss|
      ensures VectorAt(b', StringOffset([], ss, i), ss[i])
    {
      VectorExtended(b', b, StringOffset([], ss, i), ss[i]);
    }
  }

  lemma MessageBuilt(ss: seq<Buffer>)
    requires |ss| >= 3 && TotalSize(ss) + 4 * |ss| + 112 < MAX_BUFFER
    ensures DomainAt(Message(ss), RootOffset(ss), Slots(ss), ss)
    ensures RootOffset(ss) <= |Message(ss)| < MAX_BUFFER - 32
  {
    hide ReadLE, Contains, VectorAt, RefVectorAt, StringOffset, Contents, ObjectAt, WithObject, WriteFields;
    var b := Contents(ss);
    var ws := DomainFields(ss, |b|);
    FieldsFit(ss);
    ContentsBuilt(ss);
    ObjectBuilt(b, 6, ws);
    var m := Message(ss);
    RefVectorExtended(m, b, |b|, ReaderOffsets(ss));
    forall i | 0 <= i < |ss|
      ensures VectorAt(m, StringOffset([], ss, i), ss[i])
    {
      VectorExtended(m, b, StringOffset([], ss, i), ss[i]);
    }
  }

  /** A received Domain frame, read through the accessors. */
  ghost predicate ReadsAs(frame: Buffer, id: Buffer, name: Buffer, dataNodes: seq<Buffer>)
    requires dataNodes != []
  {
    && Root(frame, 4).Some?
    && var pos := Root(frame, 4).value;
    && Id(frame, pos) == Some(id) && Name(frame, pos) == Some(name) && Writer(frame, pos) == Some(dataNodes[0])
    && ReadersLength(frame, pos) == Some(|dataNodes|)
    && (forall j :: 0 <= j < |dataNodes| ==> Readers(frame, pos, j) == Some(dataNodes[j]))
    && NodesLength(frame, pos) == Some(0) && ClusterSecret(frame, pos) == Some([])
  }

  /**
   * Readers(j) is the j-th data node for every j and any number of nodes, and the
   * writer is the first node; the fields createDomain leaves out read as empty.
   */
  lemma DomainRoundTrip(id: Buffer, name: Buffer, dataNodes: seq<Buffer>)
    requires dataNodes != [] && Encodable(id, name, dataNodes)
    ensures ReadsAs(DomainFrame(Strings(id, name, dataNodes)), id, name, dataNodes)
  {
    hide ReadLE, Contains, DomainAt, Contents, Message, RootOffset, ReadersLength, Readers, Id, Name, Writer;
    hide NodesLength, ClusterSecret, TotalSize;
    var ss := Strings(id, name, dataNodes);
    MessageBuilt(ss);
    FrameBuilt(Message(ss), RootOffset(ss), 4);
    var f := DomainFrame(ss);
    assert f == Finished(Message(ss), RootOffset(ss), 4) by { FrameIsFinished(ss); }
    DomainExtended(f, Message(ss), RootOffset(ss), Slots(ss), ss);
    DomainRead(f, RootOffset(ss), Slots(ss), ss);
    forall j | 0 <= j < |dataNodes|
      ensures Readers(f, |f| - RootOffset(ss), j) == Some(dataNodes[j])
    {
      assert ss[j + 3] == dataNodes[j];
    }
  }

  lemma FrameIsFinished(ss: seq<Buffer>)
    requires |ss| >= 3 && RootOffset(ss) <= |Message(ss)|
    ensures DomainFrame(ss) == Finished(Message(ss), RootOffset(ss), 4)
  {
  }

  lemma FirstStrings(ss: seq<Buffer>)
    requires |ss| >= 3
    ensures WithString([], ss[0]) == WithStrings([], ss[..1])
    ensures WithString(WithStrings([], ss[..1]), ss[1]) == WithStrings([], ss[..2])
    ensures WithString(WithStrings([], ss[..2]), ss[2]) == WithStrings([], ss[..3])
  {
    assert ss[..1][..0] == [] && ss[..2][..1] == ss[..1] && ss[..3][..2] == ss[..2];
  }

  /** The reader strings, created first to last, and the offset each one got. */
  method CreateReaderStrings(builder: Builder, dataNodes: seq<Buffer>, ghost ss: seq<Buffer>)
    returns (offsets: seq<nat>)
    requires builder.Valid() && !builder.nested && builder.minalign == 4
    requires |ss| >= 3 && ss[3..] == dataNodes && builder.bytes == WithStrings([], ss[..3])
    modifies builder
    ensures builder.Valid() && !builder.nested && builder.minalign == 4
    ensures builder.bytes == WithStrings([], ss) && offsets == ReaderOffsets(ss)
  {
    hide WithString;
    offsets := [];
    while |offsets| < |dataNodes|
      invariant |offsets| <= |dataNodes|
      invariant builder.Valid() && !builder.nested && builder.minalign == 4
      invariant builder.bytes == WithStrings([], ss[..|offsets| + 3])
      invariant forall i :: 0 <= i < |offsets| ==> offsets[i] == StringOffset([], ss, i + 3)
    {
      var k := |offsets| + 3;
      assert ss[k] == dataNodes[|offsets|] && ss[..k + 1][..k] == ss[..k];
      var o := builder.CreateString(dataNodes[|offsets|]);
      offsets := offsets + [o];
    }
    assert ss[..|ss|] == ss;
  }

  /** The readers vector. Vectors are written back to front, so the loop runs from the last reader to the first. */
  method WriteReaders(builder: Builder, offsets: seq<nat>) returns (o: nat)
    requires builder.Valid() && !builder.nested && builder.minalign == 4
    requires forall i :: 0 <= i < |offsets| ==> offsets[i] <= |builder.bytes|
    modifies builder
    ensures builder.Valid() && !builder.nested && builder.minalign == 4
    ensures builder.bytes == WithRefVector(old(builder.bytes), offsets) && o == |builder.bytes|
  {
    hide WithRef;
    builder.StartVector(4, |offsets|, 4);
    ghost var p := builder.bytes;
    var i := |offsets| - 1;
    while i >= 0
      invariant -1 <= i < |offsets|
      invariant builder.Valid() && builder.nested && builder.minalign == 4
      invariant |p| <= |builder.bytes| && builder.bytes == WithRefs(p, offsets[i + 1..])
    {
      assert offsets[i..][0] == offsets[i] && offsets[i..][1..] == offsets[i + 1..];
      builder.PrependUOffset(offsets[i]);
      i := i - 1;
    }
    assert offsets[0..] == offsets;
    o := builder.EndVector(|offsets|);
  }

  /** DomainStart and the four fields that are set. */
  method WriteFour(builder: Builder, id: nat, name: nat, writer: nat, readers: nat)
    requires builder.Valid() && !builder.nested && builder.minalign == 4
    requires 0 < id <= |builder.bytes| && 0 < name <= |builder.bytes|
    requires 0 < writer <= |builder.bytes| && 0 < readers <= |builder.bytes|
    modifies builder
    ensures Writing(builder, old(builder.bytes), 6, [Ref(0, id), Ref(1, name), Ref(2, writer), Ref(3, readers)])
  {
    ghost var b := builder.bytes;
    StartTable(builder, 6);
    AddRef(builder, 0, id, b, 6, []);
    assert [] + [Ref(0, id)] == [Ref(0, id)];
    AddRef(builder, 1, name, b, 6, [Ref(0, id)]);
    assert [Ref(0, id)] + [Ref(1, name)] == [Ref(0, id), Ref(1, name)];
    AddRef(builder, 2, writer, b, 6, [Ref(0, id), Ref(1, name)]);
    assert [Ref(0, id), Ref(1, name)] + [Ref(2, writer)] == [Ref(0, id), Ref(1, name), Ref(2, writer)];
    AddRef(builder, 3, readers, b, 6, [Ref(0, id), Ref(1, name), Ref(2, writer)]);
    assert [Ref(0, id), Ref(1, name), Ref(2, writer)] + [Ref(3, readers)]
        == [Ref(0, id), Ref(1, name), Ref(2, writer), Ref(3, readers)];
  }

  /** createDomain: the strings, the readers vector, the table, FinishSizePrefixed. */
  method CreateDomain(id: Buffer, name: Buffer, dataNodes: seq<Buffer>) returns (frame: Buffer)
    requires dataNodes != [] && Encodable(id, name, dataNodes)
    ensures frame == DomainFrame(Strings(id, name, dataNodes))
    ensures ReadsAs(frame, id, name, dataNodes)
  {
    hide ReadLE, Contains, WithString, WithRef, WithObject, Finished, ReadersLength, Readers, Id, Name, Writer,
      WithRefVector;
    ghost var ss := Strings(id, name, dataNodes);
    FirstStrings(ss);
    FieldsFit(ss);
    OffsetsInBounds(ss);
    var builder := new Builder();
    var domainID := builder.CreateString(id);
    var domainName := builder.CreateString(name);
    var writer := builder.CreateString(dataNodes[0]);
    var readerStrs := CreateReaderStrings(builder, dataNodes, ss);
    var readers := WriteReaders(builder, readerStrs);
    WriteFour(builder, domainID, domainName, writer, readers);
    ghost var b := Contents(ss);
    assert DomainFields(ss, |b|) == [Ref(0, domainID), Ref(1, domainName), Ref(2, writer), Ref(3, readers)];
    var d := EndTable(builder, b, 6, DomainFields(ss, |b|));
    builder.FinishSizePrefixed(d);
    frame := builder.bytes;
    DomainRoundTrip(id, name, dataNodes);
  }
}
