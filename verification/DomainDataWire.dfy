/**
 * The main message: DomainData carrying a Partition. The getters read at the slots of
 * the generated accessors; Frame is what the two writers of the repository build.
 */
module DomainDataWire {
  import opened Wrappers
  import opened LittleEndian
  import opened FlatBuffers

  const PARTITION := 2

  // ----- Generated accessors -------------------------------------------------------

  function DataOffset(b: Buffer, pos: int): Option<nat> {
    ScalarField(b, pos, 4, 4)
  }

  function DomainId(b: Buffer, pos: int): Option<Buffer> {
    ByteField(b, pos, 8)
  }

  function Name(b: Buffer, pos: int): Option<Buffer> {
    ByteField(b, pos, 10)
  }

  function Version(b: Buffer, pos: int): Option<Buffer> {
    ByteField(b, pos, 12)
  }

  function DataType(b: Buffer, pos: int): Option<nat> {
    ScalarField(b, pos, 14, 1)
  }

  /** The table behind the union field; None inside when there is none. */
  function Data(b: Buffer, pos: int): Option<Option<int>> {
    var o :- FieldOffset(b, pos, 16);
    if o == 0 then Some(None)
    else
      var p :- Indirect(b, pos + o);
      Some(Some(p))
  }

  function PartitionLength(b: Buffer, pos: int): Option<nat> {
    var v :- VectorField(b, pos, 4);
    Some(if v.None? then 0 else v.value.len)
  }

  function PartitionBit(b: Buffer, pos: int, j: nat): Option<bool> {
    var v :- VectorField(b, pos, 4);
    if v.None? then Some(false)
    else
      var x :- ReadLE(b, v.value.start + j, 1);
      Some(x == 1)
  }

  /** GetPartition: the position of the partition table, or None for its error returns. */
  function GetPartition(b: Buffer, pos: int): Option<Option<int>> {
    var data :- Data(b, pos);
    var t :- DataType(b, pos);
    Some(if t == PARTITION then data else None)
  }

  // ----- Messages as values --------------------------------------------------------

  datatype DomainData = DomainData(dataOffset: nat, domainId: Buffer, name: Buffer, version: Buffer,
                                   dataType: nat, bits: Option<seq<bool>>)

  function BitsOf(data: Buffer): (r: seq<bool>)
    ensures |r| == |data|
    ensures forall i :: 0 <= i < |r| ==> r[i] == (data[i] == 1)
  {
    seq(|data|, i requires 0 <= i < |data| => data[i] == 1)
  }

  function BytesOf(bits: seq<bool>): (r: Buffer)
    ensures |r| == |bits|
    ensures forall i :: 0 <= i < |r| ==> r[i] == if bits[i] then 1 else 0
  {
    seq(|bits|, i requires 0 <= i < |bits| => if bits[i] then 1 else 0)
  }

  function Bits(b: Buffer, pos: int): Option<seq<bool>> {
    var v :- VectorField(b, pos, 4);
    if v.None? then Some([])
    else if 0 <= v.value.start && v.value.start + v.value.len <= |b| then
      Some(BitsOf(b[v.value.start..v.value.start + v.value.len]))
    else None
  }

  function Parse(b: Buffer, pos: int): Option<DomainData> {
    var dataOffset :- DataOffset(b, pos);
    var id :- DomainId(b, pos);
    var name :- Name(b, pos);
    var version :- Version(b, pos);
    var dataType :- DataType(b, pos);
    var partition :- GetPartition(b, pos);
    if partition.None? then Some(DomainData(dataOffset, id, name, version, dataType, None))
    else
      var bits :- Bits(b, partition.value);
      Some(DomainData(dataOffset, id, name, version, dataType, Some(bits)))
  }

  /** What GetRootAsDomainData sees in the body of a frame. */
  function ParseBody(body: Buffer): Option<DomainData> {
    var pos :- Root(body, 0);
    Parse(body, pos)
  }

  /** What GetSizePrefixedRootAsDomainData sees in a whole frame. */
  function ParseFrame(frame: Buffer): Option<DomainData> {
    var pos :- Root(frame, 4);
    Parse(frame, pos)
  }

  // ----- The writers as functions -------------------------------------------------

  function PartitionTable(b: Buffer, vector: nat): Buffer
    requires vector <= |b|
  {
    var r := WithRef(b, vector);
    WithTable(r, [|r|], |b|)
  }

  function PartitionOffset(b: Buffer, vector: nat): (o: nat)
    requires vector <= |b|
  {
    TableOffset(WithRef(b, vector))
  }

  /** The string fields in the order of the writers: version (slot 4) if any, domain id, name. */
  function WithNames(b: Buffer, id: nat, name: nat, version: Option<nat>): (f: Fields)
    requires id <= |b| && name <= |b| && (version.Some? ==> version.value <= |b|)
    ensures |f.slots| == 7 && |b| <= |f.bytes|
  {
    var r1 := if version.Some? then WithRef(b, version.value) else b;
    var r2 := WithRef(r1, id);
    var r3 := WithRef(r2, name);
    Fields(r3, [0, 0, |r2|, |r3|, if version.Some? then |r1| else 0, 0, 0])
  }

  /** Then data_offset, which is the size built so far, the type and the union. Slot 1 is deprecated. */
  function WithPayload(f: Fields, data: nat): (r: Fields)
    requires |f.slots| == 7 && data <= |f.bytes|
    ensures |r.slots| == 7 && |f.bytes| <= |r.bytes|
  {
    var r4 := WithScalar(f.bytes, |f.bytes|, 4);
    var r5 := WithScalar(r4, PARTITION, 1);
    var r6 := WithRef(r5, data);
    Fields(r6, f.slots[0 := |r4|][5 := |r5|][6 := |r6|])
  }

  function WithFields(b: Buffer, id: nat, name: nat, version: Option<nat>, data: nat): (f: Fields)
    requires id <= |b| && name <= |b| && data <= |b| && (version.Some? ==> version.value <= |b|)
    ensures |f.slots| == 7 && |b| <= |f.bytes|
  {
    WithPayload(WithNames(b, id, name, version), data)
  }

  function Contents(id: Buffer, name: Buffer, version: Option<Buffer>): Buffer {
    var b := WithString(WithString([], id), name);
    if version.Some? then WithString(b, version.value) else b
  }

  /** Everything up to the partition table, which is its last object. */
  function Payload(id: Buffer, name: Buffer, version: Option<Buffer>, data: Buffer): Buffer {
    var b := WithByteVector(Contents(id, name, version), data);
    PartitionTable(b, |b|)
  }

  /** Offsets from the end of the objects of one message. */
  datatype Layout = Layout(id: nat, name: nat, version: Option<nat>, vector: nat, partition: nat)

  function LayoutOf(id: Buffer, name: Buffer, version: Option<Buffer>, data: Buffer): Layout {
    var b := WithByteVector(Contents(id, name, version), data);
    Layout(|WithString([], id)|, |WithString(WithString([], id), name)|,
           if version.Some? then Some(|Contents(id, name, version)|) else None,
           |b|, PartitionOffset(b, |b|))
  }

  function MessageFields(id: Buffer, name: Buffer, version: Option<Buffer>, data: Buffer): (f: Fields)
    ensures |f.slots| == 7 && |Payload(id, name, version, data)| <= |f.bytes|
  {
    var l := LayoutOf(id, name, version, data);
    LayoutInBounds(id, name, version, data);
    WithFields(Payload(id, name, version, data), l.id, l.name, l.version, l.partition)
  }

  lemma LayoutInBounds(id: Buffer, name: Buffer, version: Option<Buffer>, data: Buffer)
    ensures var l := LayoutOf(id, name, version, data); var n := |Payload(id, name, version, data)|;
      l.id <= n && l.name <= n && l.partition <= n && (l.version.Some? ==> l.version.value <= n)
  {
  }

  /** Where the DomainData table ends up, counted from the end of the frame. */
  function RootOffset(id: Buffer, name: Buffer, version: Option<Buffer>, data: Buffer): nat {
    TableOffset(MessageFields(id, name, version, data).bytes)
  }

  function PartitionSlot(id: Buffer, name: Buffer, version: Option<Buffer>, data: Buffer): nat {
    var b := WithByteVector(Contents(id, name, version), data);
    |WithRef(b, |b|)|
  }

  /** The size-prefixed frame of one partition message. */
  function Frame(id: Buffer, name: Buffer, version: Option<Buffer>, data: Buffer): (f: Buffer)
    ensures 4 <= |f|
  {
    var f := MessageFields(id, name, version, data);
    LayoutInBounds(id, name, version, data);
    Finished(WithTable(f.bytes, f.slots, |Payload(id, name, version, data)|), TableOffset(f.bytes), 4)
  }

  /** The inputs whose frame stays within what the library can build. */
  predicate Encodable(id: Buffer, name: Buffer, version: Option<Buffer>, data: Buffer) {
    |id| + |name| + (if version.Some? then |version.value| else 0) + |data| + 160 < MAX_BUFFER
  }

  // ----- Reading back what was written -----------------------------------------------

  ghost predicate NamesAt(b: Buffer, slots: seq<nat>, id: nat, name: nat, version: Option<nat>) {
    && |slots| == 7
    && RefAt(b, slots[2], id) && RefAt(b, slots[3], name)
    && (if version.Some? then RefAt(b, slots[4], version.value) else slots[4] == 0)
  }

  ghost predicate PayloadAt(b: Buffer, slots: seq<nat>, offset: nat, data: nat) {
    && |slots| == 7
    && ScalarAt(b, slots[0], offset, 4) && ScalarAt(b, slots[5], PARTITION, 1) && RefAt(b, slots[6], data)
  }

  lemma NamesExtended(b': Buffer, b: Buffer, slots: seq<nat>, id: nat, name: nat, version: Option<nat>)
    requires Extends(b', b) && NamesAt(b, slots, id, name, version)
    ensures NamesAt(b', slots, id, name, version)
  {
    RefExtended(b', b, slots[2], id);
    RefExtended(b', b, slots[3], name);
    if version.Some? {
      RefExtended(b', b, slots[4], version.value);
    }
  }

  lemma PayloadExtended(b': Buffer, b: Buffer, slots: seq<nat>, offset: nat, data: nat)
    requires Extends(b', b) && PayloadAt(b, slots, offset, data)
    ensures PayloadAt(b', slots, offset, data)
  {
    ScalarExtended(b', b, slots[0], offset, 4);
    ScalarExtended(b', b, slots[5], PARTITION, 1);
    RefExtended(b', b, slots[6], data);
  }

  lemma RefStep(b: Buffer, x: nat, base: Buffer)
    requires Extends(b, base) && x <= |b| && |b| + 8 < U32
    ensures var r := WithRef(b, x);
      Extends(r, base) && Extends(r, b) && |b| + 4 <= |r| < |b| + 8 && RefAt(r, |r|, x)
  {
    RefBuilt(b, x);
    ExtendsTransitive(WithRef(b, x), b, base);
  }

  lemma ScalarStep(b: Buffer, x: nat, n: nat, base: Buffer)
    requires Extends(b, base) && IsWidth(n) && n <= 4 && x < Pow256(n)
    ensures var r := WithScalar(b, x, n);
      Extends(r, base) && Extends(r, b) && |b| + n <= |r| < |b| + 8 && ScalarAt(r, |r|, x, n)
  {
    ScalarBuilt(b, x, n);
    ExtendsTransitive(WithScalar(b, x, n), b, base);
  }

  /** Each slot is either unset or lies in the part of the buffer built since b. */
  ghost predicate SlotsWithin(slots: seq<nat>, b: Buffer, b': Buffer) {
    forall i :: 0 <= i < |slots| ==> slots[i] == 0 || |b| < slots[i] <= |b'|
  }

  lemma NamesBuilt(b: Buffer, id: nat, name: nat, version: Option<nat>)
    requires id <= |b| && name <= |b| && (version.Some? ==> version.value <= |b|)
    requires |b| + 64 < MAX_BUFFER
    ensures var f := WithNames(b, id, name, version);
      && Extends(f.bytes, b) && |f.bytes| < |b| + 24
      && NamesAt(f.bytes, f.slots, id, name, version) && SlotsWithin(f.slots, b, f.bytes)
      && |f.bytes| == f.slots[3]
  {
    hide ReadLE, Contains, WithRef;
    var r1 := if version.Some? then WithRef(b, version.value) else b;
    if version.Some? {
      RefStep(b, version.value, b);
    }
    var r2 := WithRef(r1, id);
    RefStep(r1, id, b);
    var r3 := WithRef(r2, name);
    RefStep(r2, name, b);
    RefExtended(r3, r2, |r2|, id);
    if version.Some? {
      ExtendsTransitive(r3, r2, r1);
      RefExtended(r3, r1, |r1|, version.value);
    }
  }

  lemma PayloadBuilt(f: Fields, data: nat)
    requires |f.slots| == 7 && data <= |f.bytes| && |f.bytes| + 32 < MAX_BUFFER
    ensures var r := WithPayload(f, data);
      && Extends(r.bytes, f.bytes) && |r.bytes| < |f.bytes| + 24
      && PayloadAt(r.bytes, r.slots, |f.bytes|, data)
      && |f.bytes| < r.slots[0] <= r.slots[5] <= r.slots[6] == |r.bytes|
      && forall i :: 1 <= i < 5 ==> r.slots[i] == f.slots[i]
  {
    hide ReadLE, Contains, WithRef, WithScalar;
    Width4();
    assert Pow256(1) == 256;
    var r4 := WithScalar(f.bytes, |f.bytes|, 4);
    ScalarStep(f.bytes, |f.bytes|, 4, f.bytes);
    var r5 := WithScalar(r4, PARTITION, 1);
    ScalarStep(r4, PARTITION, 1, f.bytes);
    var r6 := WithRef(r5, data);
    RefStep(r5, data, f.bytes);
    ScalarExtended(r6, r5, |r5|, PARTITION, 1);
    ExtendsTransitive(r6, r5, r4);
    ScalarExtended(r6, r4, |r4|, |f.bytes|, 4);
  }

  lemma FieldsBuilt(b: Buffer, id: nat, name: nat, version: Option<nat>, data: nat)
    requires id <= |b| && name <= |b| && data <= |b| && (version.Some? ==> version.value <= |b|)
    requires |b| + 64 < MAX_BUFFER
    ensures var f := WithFields(b, id, name, version, data);
      && Extends(f.bytes, b) && |f.bytes| < |b| + 48
      && NamesAt(f.bytes, f.slots, id, name, version) && PayloadAt(f.bytes, f.slots, f.slots[3], data)
      && SlotsWithin(f.slots, b, f.bytes)
  {
    hide ReadLE, Contains, WithNames, WithPayload;
    var n := WithNames(b, id, name, version);
    NamesBuilt(b, id, name, version);
    PayloadBuilt(n, data);
    var f := WithPayload(n, data);
    ExtendsTransitive(f.bytes, n.bytes, b);
    NamesExtended(f.bytes, n.bytes, n.slots, id, name, version);
  }

  lemma PartitionBuilt(b: Buffer, data: Buffer)
    requires VectorAt(b, |b|, data) && |b| + 32 < MAX_BUFFER
    ensures var b' := PartitionTable(b, |b|); var t := PartitionOffset(b, |b|);
      && Extends(b', b) && |b| < |WithRef(b, |b|)| < t < |b'| < |b| + 24
      && TableAt(b', t, [|WithRef(b, |b|)|]) && RefAt(b', |WithRef(b, |b|)|, |b|)
  {
    hide ReadLE, Contains, WithRef, WithTable, FieldOffset;
    var r := WithRef(b, |b|);
    RefBuilt(b, |b|);
    TableBuilt(r, [|r|], |b|);
    var b' := PartitionTable(b, |b|);
    ExtendsTransitive(b', r, b);
    RefExtended(b', r, |r|, |b|);
    assert Trimmed([|r|]) == [|r|];
  }

  lemma PartitionRead(b: Buffer, t: nat, slot: nat, vector: nat, data: Buffer)
    requires TableAt(b, t, [slot]) && 0 < slot < t && RefAt(b, slot, vector) && VectorAt(b, vector, data)
    ensures Bits(b, |b| - t) == Some(BitsOf(data))
  {
    VectorFieldRead(b, t, [slot], 0, vector, |data|);
    ContainedSlice(b, |b| - vector + 4, data);
  }

  /** Where the strings, the bitmap and the partition table are found. */
  ghost predicate ObjectsAt(b: Buffer, l: Layout, slot: nat, id: Buffer, name: Buffer, version: Option<Buffer>,
                            data: Buffer) {
    && VectorAt(b, l.id, id) && VectorAt(b, l.name, name) && VectorAt(b, l.vector, data)
    && l.version.Some? == version.Some?
    && (version.Some? ==> VectorAt(b, l.version.value, version.value))
    && slot < l.partition && l.vector < slot && TableAt(b, l.partition, [slot]) && RefAt(b, slot, l.vector)
  }

  lemma ObjectsExtended(b': Buffer, b: Buffer, l: Layout, slot: nat,
                        id: Buffer, name: Buffer, version: Option<Buffer>, data: Buffer)
    requires Extends(b', b) && ObjectsAt(b, l, slot, id, name, version, data)
    ensures ObjectsAt(b', l, slot, id, name, version, data)
  {
    hide ReadLE, Contains;
    VectorExtended(b', b, l.id, id);
    VectorExtended(b', b, l.name, name);
    VectorExtended(b', b, l.vector, data);
    if version.Some? {
      VectorExtended(b', b, l.version.value, version.value);
    }
    TableExtended(b', b, l.partition, [slot]);
    RefExtended(b', b, slot, l.vector);
  }

  lemma ContentsBuilt(id: Buffer, name: Buffer, version: Option<Buffer>)
    requires Encodable(id, name, version, [])
    ensures var b := Contents(id, name, version); var n := WithString(WithString([], id), name);
      && VectorAt(b, |WithString([], id)|, id) && VectorAt(b, |n|, name)
      && (version.Some? ==> VectorAt(b, |b|, version.value))
      && |b| < |id| + |name| + (if version.Some? then |version.value| + 9 else 0) + 18
  {
    hide ReadLE, Contains, WithString;
    var b1 := WithString([], id);
    StringBuilt([], id);
    var b2 := WithString(b1, name);
    StringBuilt(b1, name);
    VectorExtended(b2, b1, |b1|, id);
    if version.Some? {
      var b3 := WithString(b2, version.value);
      StringBuilt(b2, version.value);
      VectorExtended(b3, b2, |b1|, id);
      VectorExtended(b3, b2, |b2|, name);
    }
  }

  lemma PayloadObjects(id: Buffer, name: Buffer, version: Option<Buffer>, data: Buffer)
    requires Encodable(id, name, version, data)
    ensures var b := WithByteVector(Contents(id, name, version), data);
      var p := Payload(id, name, version, data);
      && ObjectsAt(p, LayoutOf(id, name, version, data), |WithRef(b, |b|)|, id, name, version, data)
      && |p| < |id| + |name| + |data| + (if version.Some? then |version.value| + 9 else 0) + 50
  {
    hide ReadLE, Contains, WithString, WithByteVector, PartitionTable, PartitionOffset, Contents, WithRef, FieldOffset;
    var c := Contents(id, name, version);
    ContentsBuilt(id, name, version);
    var b := WithByteVector(c, data);
    ByteVectorBuilt(c, data);
    VectorExtended(b, c, |WithString([], id)|, id);
    VectorExtended(b, c, |WithString(WithString([], id), name)|, name);
    if version.Some? {
      VectorExtended(b, c, |c|, version.value);
    }
    var p := PartitionTable(b, |b|);
    PartitionBuilt(b, data);
    VectorExtended(p, b, |WithString([], id)|, id);
    VectorExtended(p, b, |WithString(WithString([], id), name)|, name);
    VectorExtended(p, b, |b|, data);
    if version.Some? {
      VectorExtended(p, b, |c|, version.value);
    }
  }

  /** A whole message whose DomainData table is at offset t. */
  ghost predicate MessageAt(b: Buffer, t: nat, slots: seq<nat>, l: Layout, slot: nat,
                            id: Buffer, name: Buffer, version: Option<Buffer>, data: Buffer) {
    && ObjectsAt(b, l, slot, id, name, version, data)
    && TableAt(b, t, slots) && NamesAt(b, slots, l.id, l.name, l.version) && PayloadAt(b, slots, slots[3], l.partition)
    && forall i :: 0 <= i < |slots| ==> slots[i] < t
  }

  lemma MessageExtended(b': Buffer, b: Buffer, t: nat, slots: seq<nat>, l: Layout, slot: nat,
                        id: Buffer, name: Buffer, version: Option<Buffer>, data: Buffer)
    requires Extends(b', b) && MessageAt(b, t, slots, l, slot, id, name, version, data)
    ensures MessageAt(b', t, slots, l, slot, id, name, version, data)
  {
    hide ReadLE, Contains, FieldOffset;
    ObjectsExtended(b', b, l, slot, id, name, version, data);
    TableExtended(b', b, t, slots);
    NamesExtended(b', b, slots, l.id, l.name, l.version);
    PayloadExtended(b', b, slots, slots[3], l.partition);
  }

  lemma PartitionFound(b: Buffer, t: nat, slots: seq<nat>, l: Layout, slot: nat,
                       id: Buffer, name: Buffer, version: Option<Buffer>, data: Buffer)
    requires MessageAt(b, t, slots, l, slot, id, name, version, data)
    ensures DataType(b, |b| - t) == Some(PARTITION)
    ensures Data(b, |b| - t) == Some(Some(|b| - l.partition))
    ensures Bits(b, |b| - l.partition) == Some(BitsOf(data))
  {
    hide ReadLE, Contains;
    ScalarFieldRead(b, t, slots, 5, PARTITION, 1);
    assert FieldOffset(b, |b| - t, 4 + 2 * 6) == Some(t - slots[6]) by {
      var field := slots[6];
    }
    PartitionRead(b, l.partition, slot, l.vector, data);
  }

  lemma MessageRead(b: Buffer, t: nat, slots: seq<nat>, l: Layout, slot: nat,
                    id: Buffer, name: Buffer, version: Option<Buffer>, data: Buffer)
    requires MessageAt(b, t, slots, l, slot, id, name, version, data)
    ensures Parse(b, |b| - t) == Some(DomainData(slots[3], id, name, if version.Some? then version.value else [],
                                                PARTITION, Some(BitsOf(data))))
  {
    hide ReadLE, Contains, Bits, Data;
    ScalarFieldRead(b, t, slots, 0, slots[3], 4);
    ByteFieldRead(b, t, slots, 2, l.id, id);
    ByteFieldRead(b, t, slots, 3, l.name, name);
    if version.Some? {
      ByteFieldRead(b, t, slots, 4, l.version.value, version.value);
    } else {
      assert FieldOffset(b, |b| - t, 4 + 2 * 4) == Some(Entry(slots[4], t));
    }
    PartitionFound(b, t, slots, l, slot, id, name, version, data);
  }

  function Message(id: Buffer, name: Buffer, version: Option<Buffer>, data: Buffer): Buffer {
    var f := MessageFields(id, name, version, data);
    WithTable(f.bytes, f.slots, |Payload(id, name, version, data)|)
  }

  /** The message with x in the slot of the deprecated field, which no writer sets. */
  function MessageWith(id: Buffer, name: Buffer, version: Option<Buffer>, data: Buffer, x: nat): Buffer {
    var f := MessageFields(id, name, version, data);
    WithTable(f.bytes, f.slots[1 := x], |Payload(id, name, version, data)|)
  }

  predicate CanHold(id: Buffer, name: Buffer, version: Option<Buffer>, data: Buffer, x: nat) {
    x == 0 || |Payload(id, name, version, data)| < x <= |MessageFields(id, name, version, data).bytes|
  }

  lemma MessageWithBuilt(id: Buffer, name: Buffer, version: Option<Buffer>, data: Buffer, x: nat)
    requires Encodable(id, name, version, data) && CanHold(id, name, version, data, x)
    ensures var m := MessageWith(id, name, version, data, x); var t := RootOffset(id, name, version, data);
      && MessageAt(m, t, MessageFields(id, name, version, data).slots[1 := x], LayoutOf(id, name, version, data),
                   PartitionSlot(id, name, version, data), id, name, version, data)
      && t <= |m| < MAX_BUFFER - 16
  {
    hide ReadLE, Contains, FieldOffset, WithFields, Payload, LayoutOf, WithTable;
    var l := LayoutOf(id, name, version, data);
    var p := Payload(id, name, version, data);
    var f := MessageFields(id, name, version, data);
    var slots := f.slots[1 := x];
    LayoutInBounds(id, name, version, data);
    PayloadObjects(id, name, version, data);
    FieldsBuilt(p, l.id, l.name, l.version, l.partition);
    TableBuilt(f.bytes, slots, |p|);
    var m := MessageWith(id, name, version, data, x);
    ExtendsTransitive(m, f.bytes, p);
    ObjectsExtended(m, p, l, PartitionSlot(id, name, version, data), id, name, version, data);
    NamesExtended(m, f.bytes, slots, l.id, l.name, l.version);
    PayloadExtended(m, f.bytes, slots, slots[3], l.partition);
  }

  lemma SlotUnset(id: Buffer, name: Buffer, version: Option<Buffer>, data: Buffer)
    ensures var slots := MessageFields(id, name, version, data).slots; slots[1] == 0 && slots[1 := 0] == slots
    ensures MessageWith(id, name, version, data, 0) == Message(id, name, version, data)
  {
    hide WithTable, Payload, WithRef, WithScalar;
  }

  lemma MessageBuilt(id: Buffer, name: Buffer, version: Option<Buffer>, data: Buffer)
    requires Encodable(id, name, version, data)
    ensures var m := Message(id, name, version, data); var t := RootOffset(id, name, version, data);
      && MessageAt(m, t, MessageFields(id, name, version, data).slots, LayoutOf(id, name, version, data),
                   PartitionSlot(id, name, version, data), id, name, version, data)
      && t <= |m| < MAX_BUFFER - 16
  {
    hide MessageFields, Payload, LayoutOf, WithTable, MessageAt, RootOffset, PartitionSlot, Message, MessageWith;
    SlotUnset(id, name, version, data);
    MessageWithBuilt(id, name, version, data, 0);
  }

  /** The writers leave the deprecated slot unset, and the accessors would not look at it. */
  lemma DeprecatedSlotIgnored(id: Buffer, name: Buffer, version: Option<Buffer>, data: Buffer, x: nat)
    requires Encodable(id, name, version, data) && CanHold(id, name, version, data, x)
    ensures MessageFields(id, name, version, data).slots[1] == 0
    ensures var m := MessageWith(id, name, version, data, x); var plain := Message(id, name, version, data);
      var t := RootOffset(id, name, version, data);
      Parse(m, |m| - t) == Parse(plain, |plain| - t) != None
  {
    hide MessageFields, Payload, LayoutOf, WithTable, MessageAt, RootOffset, PartitionSlot, Message, MessageWith, Parse;
    var slots, slot := MessageFields(id, name, version, data).slots, PartitionSlot(id, name, version, data);
    var t, l := RootOffset(id, name, version, data), LayoutOf(id, name, version, data);
    SlotUnset(id, name, version, data);
    MessageWithBuilt(id, name, version, data, x);
    MessageBuilt(id, name, version, data);
    MessageRead(MessageWith(id, name, version, data, x), t, slots[1 := x], l, slot, id, name, version, data);
    MessageRead(Message(id, name, version, data), t, slots, l, slot, id, name, version, data);
  }

  /** The frame and its body both hold the message, at the position their root reference gives. */
  lemma FrameObjects(id: Buffer, name: Buffer, version: Option<Buffer>, data: Buffer)
    requires Encodable(id, name, version, data)
    ensures var f := Frame(id, name, version, data); var t := RootOffset(id, name, version, data);
      var slots := MessageFields(id, name, version, data).slots;
      var l := LayoutOf(id, name, version, data); var slot := PartitionSlot(id, name, version, data);
      && 4 <= |f| < MAX_BUFFER && ReadLE(f, 0, 4) == Some(|f| - 4)
      && Root(f, 4) == Some(|f| - t) && Root(f[4..], 0) == Some(|f| - 4 - t)
      && MessageAt(f, t, slots, l, slot, id, name, version, data)
      && MessageAt(f[4..], t, slots, l, slot, id, name, version, data)
  {
    hide ReadLE, Contains, FieldOffset, MessageFields, Payload, LayoutOf, WithTable, Finished, MessageAt, PartitionSlot;
    var m := Message(id, name, version, data);
    var t := RootOffset(id, name, version, data);
    var slots := MessageFields(id, name, version, data).slots;
    var l := LayoutOf(id, name, version, data);
    var slot := PartitionSlot(id, name, version, data);
    MessageBuilt(id, name, version, data);
    FrameBuilt(m, t, 4);
    var f := Frame(id, name, version, data);
    assert f == Finished(m, t, 4);
    MessageExtended(f, m, t, slots, l, slot, id, name, version, data);
    MessageExtended(f[4..], m, t, slots, l, slot, id, name, version, data);
  }

  /** The value a partition message stands for; data_offset is what the writer put there. */
  ghost predicate IsMessage(m: Option<DomainData>, id: Buffer, name: Buffer, version: Buffer, bits: seq<bool>) {
    && m.Some? && m.value.domainId == id && m.value.name == name && m.value.version == version
    && m.value.dataType == PARTITION && m.value.bits == Some(bits)
  }

  /**
   * Round trip: whatever the id, name, version and bitmap bytes, both readers get them
   * back from the frame. A version left out reads back as empty; a bitmap byte reads as
   * true exactly when it is 1.
   */
  lemma FrameRoundTrip(id: Buffer, name: Buffer, version: Option<Buffer>, data: Buffer)
    requires Encodable(id, name, version, data)
    ensures var f := Frame(id, name, version, data);
      && 4 <= |f| < MAX_BUFFER && ReadLE(f, 0, 4) == Some(|f| - 4)
      && IsMessage(ParseFrame(f), id, name, if version.Some? then version.value else [], BitsOf(data))
      && ParseBody(f[4..]) == ParseFrame(f)
  {
    hide ReadLE, MessageAt, Parse, Frame, MessageFields, LayoutOf, PartitionSlot, RootOffset;
    var f := Frame(id, name, version, data);
    var t := RootOffset(id, name, version, data);
    var slots := MessageFields(id, name, version, data).slots;
    var l := LayoutOf(id, name, version, data);
    var slot := PartitionSlot(id, name, version, data);
    FrameObjects(id, name, version, data);
    MessageRead(f, t, slots, l, slot, id, name, version, data);
    MessageRead(f[4..], t, slots, l, slot, id, name, version, data);
  }
}
