/** The two writers of partition messages, call by call. */
module DomainDataWriters {
  import opened Wrappers
  import opened LittleEndian
  import opened FlatBuffers
  import opened FlatBufferBuilder
  import opened DomainDataWire

  /** PartitionStart, PartitionAddData, PartitionEnd. */
  method WritePartition(builder: Builder, vector: nat) returns (o: nat)
    requires builder.Valid() && !builder.nested && builder.minalign >= 4 && 0 < vector <= |builder.bytes|
    modifies builder
    ensures builder.Valid() && !builder.nested && builder.minalign == old(builder.minalign)
    ensures builder.bytes == PartitionTable(old(builder.bytes), vector)
    ensures o == PartitionOffset(old(builder.bytes), vector)
  {
    builder.StartObject(1);
    builder.PrependUOffsetSlot(0, vector, 0);
    assert builder.vtable == [|builder.bytes|];
    o := builder.EndObject();
  }

  /** The calls of DomainDataStart .. DomainDataEnd; version is skipped by sendDomainData. */
  method WriteDomainData(builder: Builder, id: nat, name: nat, version: Option<nat>, data: nat) returns (o: nat)
    requires builder.Valid() && !builder.nested && builder.minalign >= 4 && |builder.bytes| + 48 < U32
    requires 0 < id <= |builder.bytes| && 0 < name <= |builder.bytes| && 0 < data <= |builder.bytes|
    requires version.Some? ==> 0 < version.value <= |builder.bytes|
    modifies builder
    ensures builder.Valid() && !builder.nested && builder.minalign == old(builder.minalign)
    ensures var f := WithFields(old(builder.bytes), id, name, version, data);
      && builder.bytes == WithTable(f.bytes, f.slots, old(|builder.bytes|))
      && o == TableOffset(f.bytes)
  {
    builder.StartObject(7);
    if version.Some? {
      builder.PrependUOffsetSlot(4, version.value, 0);
    }
    builder.PrependUOffsetSlot(2, id, 0);
    builder.PrependUOffsetSlot(3, name, 0);
    ghost var f := WithNames(old(builder.bytes), id, name, version);
    assert builder.bytes == f.bytes && builder.vtable == f.slots;
    builder.PrependScalarSlot(0, |builder.bytes|, 0, 4);
    builder.PrependScalarSlot(5, PARTITION, 0, 1);
    builder.PrependUOffsetSlot(6, data, 0);
    ghost var g := WithPayload(f, data);
    assert builder.bytes == g.bytes && builder.vtable == g.slots;
    o := builder.EndObject();
  }

  /** The copy of the merged bitmap: one byte per bit. */
  method BitmapBytes(bits: seq<bool>) returns (data: Buffer)
    ensures data == BytesOf(bits) && BitsOf(data) == bits
  {
    data := [];
    var i := 0;
    while i < |bits|
      invariant 0 <= i <= |bits| && data == BytesOf(bits)[..i]
    {
      data := data + [if bits[i] then 1 else 0];
      i := i + 1;
    }
  }

  /** The merged frame of processPartition. */
  method EncodeMerged(id: Buffer, name: Buffer, version: Buffer, bits: seq<bool>) returns (frame: Buffer)
    requires Encodable(id, name, Some(version), BytesOf(bits))
    ensures frame == Frame(id, name, Some(version), BytesOf(bits))
    ensures IsMessage(ParseFrame(frame), id, name, version, bits)
    ensures ParseBody(frame[4..]) == ParseFrame(frame)
  {
    hide ReadLE, Contains, Parse;
    var builder := new Builder();
    var domainID := builder.CreateString(id);
    var nameAt := builder.CreateString(name);
    var data := BitmapBytes(bits);
    var versionAt := builder.CreateString(version);
    var pd := builder.CreateByteVector(data);
    assert builder.bytes == WithByteVector(Contents(id, name, Some(version)), data);
    var pdd := WritePartition(builder, pd);
    assert builder.bytes == Payload(id, name, Some(version), data);
    PayloadObjects(id, name, Some(version), data);
    var dd := WriteDomainData(builder, domainID, nameAt, Some(versionAt), pdd);
    builder.FinishSizePrefixed(dd);
    frame := builder.bytes;
    FrameRoundTrip(id, name, Some(version), data);
  }

  /** One frame of sendDomainData, on its freshly reset builder. */
  method EncodeUpload(id: Buffer, name: Buffer, content: Buffer) returns (frame: Buffer)
    requires Encodable(id, name, None, content)
    ensures frame == Frame(id, name, None, content)
    ensures IsMessage(ParseFrame(frame), id, name, [], BitsOf(content))
    ensures ParseBody(frame[4..]) == ParseFrame(frame)
  {
    hide ReadLE, Contains, Parse;
    var builder := new Builder();
    var domainID := builder.CreateString(id);
    var nameAt := builder.CreateString(name);
    var contentAt := builder.CreateByteVector(content);
    assert builder.bytes == WithByteVector(Contents(id, name, None), content);
    var partition := WritePartition(builder, contentAt);
    assert builder.bytes == Payload(id, name, None, content);
    PayloadObjects(id, name, None, content);
    var dd := WriteDomainData(builder, domainID, nameAt, None, partition);
    builder.FinishSizePrefixed(dd);
    frame := builder.bytes;
    FrameRoundTrip(id, name, None, content);
  }
}
