/** The Portal message: written by the app that creates it, written again for gossip. */
module PortalWire {
  import opened Wrappers
  import opened LittleEndian
  import opened FlatBuffers
  import opened FlatBufferBuilder
  import opened TableWriter

  /** size is the bit pattern of a float32. */
  datatype Portal = Portal(defaultName: Buffer, size: nat, shortId: Buffer)

  const NEGATIVE_ZERO := 0x8000_0000

  /** Comparing with the default 0.0: both zeros are equal to it, NaNs are not. */
  predicate IsZero(size: nat) {
    size == 0 || size == NEGATIVE_ZERO
  }

  function DefaultName(b: Buffer, pos: int): Option<Buffer> {
    ByteField(b, pos, 4)
  }

  function Size(b: Buffer, pos: int): Option<nat> {
    ScalarField(b, pos, 6, 4)
  }

  function ShortId(b: Buffer, pos: int): Option<Buffer> {
    ByteField(b, pos, 8)
  }

  function Parse(b: Buffer, pos: int): Option<Portal> {
    var name :- DefaultName(b, pos);
    var size :- Size(b, pos);
    var id :- ShortId(b, pos);
    Some(Portal(name, size, id))
  }

  function ParseBody(body: Buffer): Option<Portal> {
    var pos :- Root(body, 0);
    Parse(body, pos)
  }

  function ParseFrame(frame: Buffer): Option<Portal> {
    var pos :- Root(frame, 4);
    Parse(frame, pos)
  }

  // ----- The two writers -----------------------------------------------------------------

  predicate Encodable(p: Portal) {
    p.size < U32 && |p.defaultName| + |p.shortId| + 160 < MAX_BUFFER
  }

  function SizeField(size: nat): seq<FieldWrite> {
    if IsZero(size) then [] else [Scalar(1, size, 4)]
  }

  /** createPortal: id string before name string; fields name, id, size. */
  function CreatedStrings(p: Portal): seq<Buffer> {
    [p.shortId, p.defaultName]
  }

  function CreatedFields(p: Portal): seq<FieldWrite> {
    var ss := CreatedStrings(p);
    [Ref(0, StringOffset([], ss, 1)), Ref(2, StringOffset([], ss, 0))] + SizeField(p.size)
  }

  /** publishPortal: name string before id string; fields id, size, name. */
  function PublishedStrings(p: Portal): seq<Buffer> {
    [p.defaultName, p.shortId]
  }

  function PublishedFields(p: Portal): seq<FieldWrite> {
    var ss := PublishedStrings(p);
    [Ref(2, StringOffset([], ss, 1))] + SizeField(p.size) + [Ref(0, StringOffset([], ss, 0))]
  }

  function FrameOf(ss: seq<Buffer>, ws: seq<FieldWrite>): (f: Buffer)
    requires AllFit(ws, WithStrings([], ss), 3)
    ensures 4 <= |f|
  {
    var b := WithStrings([], ss);
    Finished(WithObject(b, 3, ws), ObjectOffset(b, 3, ws), 4)
  }

  lemma TwoStrings(a: Buffer, c: Buffer)
    ensures var ss := [a, c];
      && WithStrings([], ss[..1]) == WithString([], a) && WithStrings([], ss) == WithString(WithString([], a), c)
      && StringOffset([], ss, 0) == |WithString([], a)| && StringOffset([], ss, 1) == |WithStrings([], ss)|
      && 0 < StringOffset([], ss, 0) <= |WithStrings([], ss)|
      && TotalSize(ss) == |a| + |c| + 18
  {
    var ss := [a, c];
    var one: seq<Buffer> := [a];
    var none: seq<Buffer> := [];
    assert one[..0] == none && ss[..1] == one && ss[..2] == ss;
    assert TotalSize(one) == |a| + 9;
  }

  lemma FieldsFit(p: Portal)
    requires Encodable(p)
    ensures AllFit(CreatedFields(p), WithStrings([], CreatedStrings(p)), 3) && DistinctSlots(CreatedFields(p))
    ensures AllFit(PublishedFields(p), WithStrings([], PublishedStrings(p)), 3) && DistinctSlots(PublishedFields(p))
  {
    Width4();
    TwoStrings(p.shortId, p.defaultName);
    TwoStrings(p.defaultName, p.shortId);
  }

  function CreatedFrame(p: Portal): (f: Buffer)
    requires Encodable(p)
    ensures 4 <= |f|
  {
    FieldsFit(p);
    FrameOf(CreatedStrings(p), CreatedFields(p))
  }

  function PublishedFrame(p: Portal): (f: Buffer)
    requires Encodable(p)
    ensures 4 <= |f|
  {
    FieldsFit(p);
    FrameOf(PublishedStrings(p), PublishedFields(p))
  }

  // ----- Reading back ----------------------------------------------------------------------

  /** The portal a reader gets: negative zero has become the default zero. */
  function Normal(p: Portal): Portal {
    if p.size == NEGATIVE_ZERO then p.(size := 0) else p
  }

  /** ws sets name and id to the strings at these offsets, and the size unless it is zero. */
  ghost predicate Describes(ws: seq<FieldWrite>, name: nat, id: nat, size: nat) {
    && DistinctSlots(ws)
    && Ref(0, name) in ws && Ref(2, id) in ws
    && (if IsZero(size) then forall i :: 0 <= i < |ws| ==> ws[i].slot != 1 else Scalar(1, size, 4) in ws)
  }

  lemma PortalRead(b: Buffer, t: nat, slots: seq<nat>, ws: seq<FieldWrite>, name: nat, id: nat, p: Portal)
    requires |slots| == 3 && ObjectAt(b, t, slots, ws) && Describes(ws, name, id, p.size)
    requires VectorAt(b, name, p.defaultName) && VectorAt(b, id, p.shortId)
    ensures Parse(b, |b| - t) == Some(Normal(p))
  {
    hide ReadLE, Contains;
    var i :| 0 <= i < |ws| && ws[i] == Ref(0, name);
    assert FieldAt(b, slots[0], ws[i]);
    ByteFieldRead(b, t, slots, 0, name, p.defaultName);
    var j :| 0 <= j < |ws| && ws[j] == Ref(2, id);
    assert FieldAt(b, slots[2], ws[j]);
    ByteFieldRead(b, t, slots, 2, id, p.shortId);
    if IsZero(p.size) {
      assert slots[1] == 0;
      assert FieldOffset(b, |b| - t, 4 + 2 * 1) == Some(Entry(slots[1], t));
    } else {
      var k :| 0 <= k < |ws| && ws[k] == Scalar(1, p.size, 4);
      assert FieldAt(b, slots[1], ws[k]);
      ScalarFieldRead(b, t, slots, 1, p.size, 4);
    }
  }

  lemma FrameRead(ss: seq<Buffer>, ws: seq<FieldWrite>, n: nat, d: nat, p: Portal)
    requires n < |ss| && d < |ss| && ss[n] == p.defaultName && ss[d] == p.shortId
    requires TotalSize(ss) + 100 < MAX_BUFFER && |ws| <= 3 && DistinctSlots(ws)
    requires AllFit(ws, WithStrings([], ss), 3)
    requires Describes(ws, StringOffset([], ss, n), StringOffset([], ss, d), p.size)
    ensures ParseFrame(FrameOf(ss, ws)) == Some(Normal(p)) && ParseBody(FrameOf(ss, ws)[4..]) == Some(Normal(p))
  {
    hide ReadLE, Contains, WithStrings, StringOffset, WithObject, ObjectOffset, ObjectSlots, ObjectAt, VectorAt, Parse;
    hide Finished, Normal, Describes, DistinctSlots, AllFit, Fits, TotalSize;
    var b := WithStrings([], ss);
    StringsBuilt([], ss);
    ObjectBuilt(b, 3, ws);
    var m, t, slots := WithObject(b, 3, ws), ObjectOffset(b, 3, ws), ObjectSlots(b, 3, ws);
    FrameBuilt(m, t, 4);
    ReadIn(FrameOf(ss, ws), m, b, t, slots, ss, ws, n, d, p);
    ReadIn(FrameOf(ss, ws)[4..], m, b, t, slots, ss, ws, n, d, p);
  }

  lemma ReadIn(f: Buffer, m: Buffer, b: Buffer, t: nat, slots: seq<nat>,
               ss: seq<Buffer>, ws: seq<FieldWrite>, n: nat, d: nat, p: Portal)
    requires n < |ss| && d < |ss| && ss[n] == p.defaultName && ss[d] == p.shortId && |slots| == 3
    requires Extends(f, m) && Extends(m, b) && ObjectAt(m, t, slots, ws)
    requires VectorAt(b, StringOffset([], ss, n), ss[n]) && VectorAt(b, StringOffset([], ss, d), ss[d])
    requires Describes(ws, StringOffset([], ss, n), StringOffset([], ss, d), p.size)
    ensures Parse(f, |f| - t) == Some(Normal(p))
  {
    hide ReadLE, Contains, StringOffset, VectorAt, Parse, ObjectAt;
    ExtendsTransitive(f, m, b);
    ObjectExtended(f, m, t, slots, ws);
    VectorExtended(f, b, StringOffset([], ss, n), ss[n]);
    VectorExtended(f, b, StringOffset([], ss, d), ss[d]);
    PortalRead(f, t, slots, ws, StringOffset([], ss, n), StringOffset([], ss, d), p);
  }

  /**
   * Both writers are undone by the accessors, and so by each other's readers: name, id
   * and size survive, except that a size of negative zero comes back as zero.
   */
  lemma PortalRoundTrip(p: Portal)
    requires Encodable(p)
    ensures ParseFrame(CreatedFrame(p)) == ParseFrame(PublishedFrame(p)) == Some(Normal(p))
    ensures ParseBody(CreatedFrame(p)[4..]) == Some(Normal(p))
    ensures Some(Normal(p)) == Some(p) <==> p.size != NEGATIVE_ZERO
  {
    hide WithStrings, StringOffset, ParseFrame, ParseBody, FrameOf, TotalSize;
    FieldsFit(p);
    TwoStrings(p.shortId, p.defaultName);
    TwoStrings(p.defaultName, p.shortId);
    var cs, ps := CreatedStrings(p), PublishedStrings(p);
    var cw, pw := CreatedFields(p), PublishedFields(p);
    assert cw[0] == Ref(0, StringOffset([], cs, 1)) && cw[1] == Ref(2, StringOffset([], cs, 0));
    assert pw[0] == Ref(2, StringOffset([], ps, 1)) && pw[|pw| - 1] == Ref(0, StringOffset([], ps, 0));
    if !IsZero(p.size) {
      assert cw[2] == Scalar(1, p.size, 4) && pw[1] == Scalar(1, p.size, 4);
    }
    FrameRead(cs, cw, 1, 0, p);
    FrameRead(ps, pw, 0, 1, p);
  }

  /** publishPortal, up to the bytes handed to the topic. */
  method PublishPortal(p: Portal) returns (frame: Buffer)
    requires Encodable(p)
    ensures frame == PublishedFrame(p) && ParseFrame(frame) == Some(Normal(p))
  {
    hide WithString, WithObject, Finished, ParseFrame;
    FieldsFit(p);
    Width4();
    TwoStrings(p.defaultName, p.shortId);
    var builder := new Builder();
    var name := builder.CreateString(p.defaultName);
    var id := builder.CreateString(p.shortId);
    ghost var b := builder.bytes;
    StartTable(builder, 3);
    AddRef(builder, 2, id, b, 3, []);
    ghost var ws := [] + [Ref(2, id)];
    if !IsZero(p.size) {
      AddScalar(builder, 1, p.size, 4, b, 3, ws);
      ws := ws + [Scalar(1, p.size, 4)];
    }
    AddRef(builder, 0, name, b, 3, ws);
    assert ws + [Ref(0, name)] == PublishedFields(p);
    var t := EndTable(builder, b, 3, PublishedFields(p));
    builder.FinishSizePrefixed(t);
    frame := builder.bytes;
    PortalRoundTrip(p);
  }

  /** createPortal, up to the bytes written to the stream. */
  method CreatePortal(p: Portal) returns (frame: Buffer)
    requires Encodable(p)
    ensures frame == CreatedFrame(p) && ParseBody(frame[4..]) == Some(Normal(p))
  {
    hide WithString, WithObject, Finished, ParseBody;
    FieldsFit(p);
    Width4();
    TwoStrings(p.shortId, p.defaultName);
    var builder := new Builder();
    var id := builder.CreateString(p.shortId);
    var name := builder.CreateString(p.defaultName);
    ghost var b := builder.bytes;
    StartTable(builder, 3);
    AddRef(builder, 0, name, b, 3, []);
    AddRef(builder, 2, id, b, 3, [] + [Ref(0, name)]);
    ghost var ws := [] + [Ref(0, name)] + [Ref(2, id)];
    if !IsZero(p.size) {
      AddScalar(builder, 1, p.size, 4, b, 3, ws);
      ws := ws + [Scalar(1, p.size, 4)];
    }
    assert ws == CreatedFields(p);
    var t := EndTable(builder, b, 3, CreatedFields(p));
    builder.FinishSizePrefixed(t);
    frame := builder.bytes;
    PortalRoundTrip(p);
  }
}
