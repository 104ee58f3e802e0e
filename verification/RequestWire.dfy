/** The download request: the app sets the domain id only, the data node reads all three fields. */
module RequestWire {
  import opened Wrappers
  import opened LittleEndian
  import opened FlatBuffers
  import opened FlatBufferBuilder
  import opened TableWriter

  /** kind is the byte of the type. */
  datatype Request = Request(domainId: Buffer, name: Buffer, kind: nat)

  function DomainId(b: Buffer, pos: int): Option<Buffer> {
    ByteField(b, pos, 4)
  }

  function Name(b: Buffer, pos: int): Option<Buffer> {
    ByteField(b, pos, 6)
  }

  function Type(b: Buffer, pos: int): Option<nat> {
    ScalarField(b, pos, 8, 1)
  }

  function Parse(b: Buffer, pos: int): Option<Request> {
    var id :- DomainId(b, pos);
    var name :- Name(b, pos);
    var kind :- Type(b, pos);
    Some(Request(id, name, kind))
  }

  /** GetRootAsDownloadDomainDataReq on the bytes behind the size. */
  function ParseBody(body: Buffer): Option<Request> {
    var pos :- Root(body, 0);
    Parse(body, pos)
  }

  predicate Encodable(domainId: Buffer) {
    |domainId| + 160 < MAX_BUFFER
  }

  function RequestFields(domainId: Buffer): seq<FieldWrite> {
    [Ref(0, |WithString([], domainId)|)]
  }

  function RequestFrame(domainId: Buffer): (f: Buffer)
    ensures 4 <= |f|
  {
    var b := WithString([], domainId);
    Finished(WithObject(b, 3, RequestFields(domainId)), ObjectOffset(b, 3, RequestFields(domainId)), 4)
  }

  lemma RequestRead(b: Buffer, t: nat, slots: seq<nat>, domainId: Buffer, x: nat)
    requires |slots| == 3 && ObjectAt(b, t, slots, [Ref(0, x)]) && VectorAt(b, x, domainId)
    ensures Parse(b, |b| - t) == Some(Request(domainId, [], 0))
  {
    hide ReadLE, Contains;
    var ws := [Ref(0, x)];
    assert FieldAt(b, slots[0], ws[0]);
    ByteFieldRead(b, t, slots, 0, x, domainId);
    assert slots[1] == 0 && slots[2] == 0;
    assert FieldOffset(b, |b| - t, 4 + 2 * 1) == Some(Entry(slots[1], t));
    assert FieldOffset(b, |b| - t, 4 + 2 * 2) == Some(Entry(slots[2], t));
  }

  /** The app's request reads back as its domain, no name and type NONE. */
  lemma RequestRoundTrip(domainId: Buffer)
    requires Encodable(domainId)
    ensures ParseBody(RequestFrame(domainId)[4..]) == Some(Request(domainId, [], 0))
  {
    hide ReadLE, Contains, WithString, WithObject, ObjectOffset, ObjectSlots, ObjectAt, VectorAt, Parse, Finished;
    var b, ws := WithString([], domainId), RequestFields(domainId);
    StringBuilt([], domainId);
    assert DistinctSlots(ws) && AllFit(ws, b, 3);
    ObjectBuilt(b, 3, ws);
    var m, t, slots := WithObject(b, 3, ws), ObjectOffset(b, 3, ws), ObjectSlots(b, 3, ws);
    FrameBuilt(m, t, 4);
    var f := RequestFrame(domainId)[4..];
    ObjectExtended(f, m, t, slots, ws);
    ExtendsTransitive(f, m, b);
    VectorExtended(f, b, |b|, domainId);
    RequestRead(f, t, slots, domainId, |b|);
  }

  /** What the app writes to the stream once it is open. */
  method CreateRequest(domainId: Buffer) returns (frame: Buffer)
    requires Encodable(domainId)
    ensures frame == RequestFrame(domainId) && ParseBody(frame[4..]) == Some(Request(domainId, [], 0))
  {
    hide WithString, WithObject, Finished, ParseBody;
    StringBuilt([], domainId);
    var builder := new Builder();
    var id := builder.CreateString(domainId);
    ghost var b := builder.bytes;
    StartTable(builder, 3);
    AddRef(builder, 0, id, b, 3, []);
    assert [] + [Ref(0, id)] == RequestFields(domainId);
    var t := EndTable(builder, b, 3, RequestFields(domainId));
    builder.FinishSizePrefixed(t);
    frame := builder.bytes;
    RequestRoundTrip(domainId);
  }
}
