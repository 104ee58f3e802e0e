/**
 * The bytes on the wire, without the accessors of this project: where a reader of the
 * published format finds each field, position by position.
 */
module WireLayout {
  import opened Wrappers
  import opened LittleEndian
  import opened FlatBuffers
  import opened TableWriter
  import D = DomainDataWire
  import N = DomainWire
  import P = PortalWire
  import Q = RequestWire
  import I = NodeInfoWire

  // ----- Numbers and fields in a buffer ---------------------------------------------------

  function ByteAt(b: Buffer, i: int): int {
    if 0 <= i < |b| then b[i] else 0
  }

  function U16(b: Buffer, i: int): int {
    ByteAt(b, i) + 0x100 * ByteAt(b, i + 1)
  }

  function Number32(b: Buffer, i: int): int {
    ByteAt(b, i) + 0x100 * ByteAt(b, i + 1) + 0x1_0000 * ByteAt(b, i + 2) + 0x100_0000 * ByteAt(b, i + 3)
  }

  function VtableOf(b: Buffer, table: int): int {
    var back := Number32(b, table);
    table - if back < 0x8000_0000 then back else back - 0x1_0000_0000
  }

  /** The field behind a vtable entry, or None when the vtable is too short or the entry is 0. */
  function FieldPosition(b: Buffer, table: int, entry: nat): Option<int> {
    var vtable := VtableOf(b, table);
    if entry < U16(b, vtable) && U16(b, vtable + entry) != 0 then Some(table + U16(b, vtable + entry)) else None
  }

  /** At i there is a length, and the bytes v behind it. */
  ghost predicate BytesAt(b: Buffer, i: int, v: Buffer) {
    0 <= i && i + 4 + |v| <= |b| && Number32(b, i) == |v| && b[i + 4..i + 4 + |v|] == v
  }

  /** The field refers to the bytes v. */
  ghost predicate HoldsBytes(b: Buffer, table: int, entry: nat, v: Buffer) {
    && FieldPosition(b, table, entry).Some?
    && var p := FieldPosition(b, table, entry).value; BytesAt(b, p + Number32(b, p), v)
  }

  lemma ReadIs(b: Buffer, i: int, n: nat)
    requires ReadLE(b, i, n).Some? && (n == 1 || n == 2 || n == 4)
    ensures ReadLE(b, i, n).value ==
      if n == 1 then ByteAt(b, i) else if n == 2 then U16(b, i) else Number32(b, i)
  {
    if n == 1 {
      assert Decode(b, i, 1) == b[i] + 256 * Decode(b, i + 1, 0);
    } else if n == 2 {
      Decode2(b, i);
    } else {
      Decode4(b, i);
    }
  }

  lemma FieldIs(b: Buffer, table: int, entry: nat, o: nat)
    requires FieldOffset(b, table, entry) == Some(o)
    ensures FieldPosition(b, table, entry) == if o == 0 then None else Some(table + o)
  {
    hide ReadLE, U16, Number32;
    Width4();
    ReadIs(b, table, 4);
    ReadIs(b, VtableOf(b, table), 2);
    if entry < U16(b, VtableOf(b, table)) {
      ReadIs(b, VtableOf(b, table) + entry, 2);
    }
  }

  lemma SlotIs(b: Buffer, t: nat, slots: seq<nat>, i: nat)
    requires i < |slots| && TableAt(b, t, slots) && slots[i] < t
    ensures FieldPosition(b, |b| - t, 4 + 2 * i) == if slots[i] == 0 then None else Some(|b| - slots[i])
  {
    hide FieldOffset, FieldPosition;
    FieldIs(b, |b| - t, 4 + 2 * i, Entry(slots[i], t));
  }

  lemma VectorIs(b: Buffer, x: nat, v: Buffer)
    requires VectorAt(b, x, v)
    ensures BytesAt(b, |b| - x, v)
  {
    hide ReadLE, Number32;
    ReadIs(b, |b| - x, 4);
    ContainedSlice(b, |b| - x + 4, v);
  }

  lemma RefIs(b: Buffer, s: nat, x: nat)
    requires RefAt(b, s, x)
    ensures |b| - s + Number32(b, |b| - s) == |b| - x
  {
    hide ReadLE, Number32;
    ReadIs(b, |b| - s, 4);
  }

  lemma StringHeld(b: Buffer, t: nat, slots: seq<nat>, i: nat, x: nat, v: Buffer)
    requires i < |slots| && TableAt(b, t, slots) && 0 < slots[i] < t && RefAt(b, slots[i], x) && VectorAt(b, x, v)
    ensures HoldsBytes(b, |b| - t, 4 + 2 * i, v)
  {
    hide TableAt, RefAt, VectorAt, FieldPosition, BytesAt, Number32;
    SlotIs(b, t, slots, i);
    RefIs(b, slots[i], x);
    VectorIs(b, x, v);
  }

  // ----- A table --------------------------------------------------------------------------------

  /**
   * The front of a new table: size of the vtable, size of the table, one entry for every
   * slot up to the last one set, and the distance back to the vtable.
   */
  lemma TableBytes(b: Buffer, slots: seq<nat>, start: nat, i: nat)
    requires start <= |b| && |b| + 16 < U32 / 2 && |b| - start + 8 < 0x1_0000 && 4 + 2 * |slots| < 0x1_0000
    requires i < |Trimmed(slots)| && (slots[i] == 0 || start < slots[i] <= |b|)
    ensures var f := WithTable(b, slots, start); var t := TableOffset(b); var n := |Trimmed(slots)|;
      && U16(f, 0) == 4 + 2 * n && U16(f, 2) == t - start
      && U16(f, 4 + 2 * i) == (if slots[i] == 0 then 0 else t - slots[i])
      && Number32(f, 4 + 2 * n) == 4 + 2 * n && |f| - t == 4 + 2 * n
  {
    hide *;
    var v, p := TableIs(b, slots, start);
    var es := Entries(Trimmed(slots), TableOffset(b));
    EntryIs(slots, TableOffset(b), i);
    VtableReads(v, es, TableOffset(b) - start, i);
    FrontBytes(v, p, 4 + 2 * |es|, TableOffset(b) - start, es[i], i);
  }

  ghost predicate IsVtable(v: Buffer, es: seq<nat>, span: nat) {
    v == Encode(4 + 2 * |es|, 2) + Encode(span, 2) + Encode16s(es)
  }

  lemma TableIs(b: Buffer, slots: seq<nat>, start: nat) returns (v: Buffer, p: Buffer)
    requires start <= |b|
    ensures |b| + 4 <= TableOffset(b) == |p| + 4 < |b| + 8 && WithTable(b, slots, start) == v + Encode(|v|, 4) + p
    ensures var es := Entries(Trimmed(slots), TableOffset(b));
      IsVtable(v, es, TableOffset(b) - start) && |v| == 4 + 2 * |es|
  {
    hide Encode, Encode16s, Trimmed, Entries;
    v, p := Vtable(slots, TableOffset(b), start), Prepped(b, 4, 0);
  }

  lemma VtableReads(v: Buffer, es: seq<nat>, span: nat, i: nat)
    requires IsVtable(v, es, span) && 4 + 2 * |es| < 0x1_0000 && span < 0x1_0000 && i < |es| && es[i] < 0x1_0000
    ensures ReadLE(v, 0, 2) == Some(4 + 2 * |es|) && ReadLE(v, 2, 2) == Some(span)
    ensures ReadLE(v, 4 + 2 * i, 2) == Some(es[i])
  {
    hide Encode, Encode16s, ReadLE;
    VtableNumbers(4 + 2 * |es|, span, es, i);
  }

  lemma EntryIs(slots: seq<nat>, t: nat, i: nat)
    requires i < |Trimmed(slots)| && slots[i] < t
    ensures |Entries(Trimmed(slots), t)| == |Trimmed(slots)| <= |slots|
    ensures Entries(Trimmed(slots), t)[i] == if slots[i] == 0 then 0 else t - slots[i]
  {
  }

  lemma FrontBytes(v: Buffer, p: Buffer, size: nat, span: nat, entry: nat, i: nat)
    requires |v| == size < 0x1_0000 && 6 + 2 * i <= |v|
    requires ReadLE(v, 0, 2) == Some(size) && ReadLE(v, 2, 2) == Some(span) && ReadLE(v, 4 + 2 * i, 2) == Some(entry)
    ensures var f := v + Encode(|v|, 4) + p;
      U16(f, 0) == size && U16(f, 2) == span && U16(f, 4 + 2 * i) == entry && Number32(f, |v|) == size
  {
    hide Encode, U16, Number32, ReadLE;
    var f := v + Encode(|v|, 4) + p;
    Width4();
    assert Contains(f, |v|, Encode(|v|, 4));
    ReadEncoded(f, |v|, |v|, 4);
    ReadPrefix(v, Encode(|v|, 4), p, 0, 2);
    ReadPrefix(v, Encode(|v|, 4), p, 2, 2);
    ReadPrefix(v, Encode(|v|, 4), p, 4 + 2 * i, 2);
    ReadIs(f, 0, 2);
    ReadIs(f, 2, 2);
    ReadIs(f, 4 + 2 * i, 2);
    ReadIs(f, |v|, 4);
  }

  lemma VtableNumbers(size: nat, span: nat, es: seq<nat>, i: nat)
    requires size < 0x1_0000 && span < 0x1_0000 && i < |es| && es[i] < 0x1_0000
    ensures var v := Encode(size, 2) + Encode(span, 2) + Encode16s(es);
      ReadLE(v, 0, 2) == Some(size) && ReadLE(v, 2, 2) == Some(span) && ReadLE(v, 4 + 2 * i, 2) == Some(es[i])
  {
    hide Encode, Pow256, Encode16s, ReadLE, Contains;
    VtableRead(size, span, es, i);
    Width2();
    MiddleContained(Encode(size, 2), Encode(span, 2), Encode16s(es));
    ReadEncoded(Encode(size, 2) + Encode(span, 2) + Encode16s(es), 2, span, 2);
  }

  lemma MiddleContained(a: Buffer, c: Buffer, d: Buffer)
    ensures Contains(a + c + d, |a|, c)
  {
  }

  // ----- DomainData and Partition ----------------------------------------------------------------

  /**
   * A partition message with its table at root: data_offset behind entry 4, the domain
   * id behind 8, the name behind 10, the version behind 12, the type 2 behind 14 and the
   * partition behind 16, whose bitmap is behind entry 4 of its own table. The deprecated
   * entry 6 is 0.
   */
  ghost predicate IsMessage(b: Buffer, root: int, id: Buffer, name: Buffer, version: Option<Buffer>, data: Buffer) {
    && HoldsBytes(b, root, 8, id) && HoldsBytes(b, root, 10, name)
    && (if version.Some? then HoldsBytes(b, root, 12, version.value) else FieldPosition(b, root, 12).None?)
    && FieldPosition(b, root, 4).Some? && FieldPosition(b, root, 6).None?
    && FieldPosition(b, root, 14).Some? && ByteAt(b, FieldPosition(b, root, 14).value) == 2
    && FieldPosition(b, root, 16).Some?
    && var p := FieldPosition(b, root, 16).value; HoldsBytes(b, p + Number32(b, p), 4, data)
  }

  lemma MessageIs(b: Buffer, t: nat, slots: seq<nat>, l: D.Layout, slot: nat,
                  id: Buffer, name: Buffer, version: Option<Buffer>, data: Buffer)
    requires D.MessageAt(b, t, slots, l, slot, id, name, version, data) && slots[1] == 0
    ensures IsMessage(b, |b| - t, id, name, version, data)
  {
    hide ReadLE, Contains, TableAt, VectorAt, FieldPosition, HoldsBytes, Number32;
    StringHeld(b, t, slots, 2, l.id, id);
    StringHeld(b, t, slots, 3, l.name, name);
    if version.Some? {
      StringHeld(b, t, slots, 4, l.version.value, version.value);
    } else {
      SlotIs(b, t, slots, 4);
    }
    SlotIs(b, t, slots, 0);
    SlotIs(b, t, slots, 1);
    SlotIs(b, t, slots, 5);
    ReadIs(b, |b| - slots[5], 1);
    SlotIs(b, t, slots, 6);
    RefIs(b, slots[6], l.partition);
    StringHeld(b, l.partition, [slot], 0, l.vector, data);
  }

  /** Every frame of the repository's two writers, in the bytes of the format. */
  lemma FrameBytes(id: Buffer, name: Buffer, version: Option<Buffer>, data: Buffer)
    requires D.Encodable(id, name, version, data)
    ensures var f := D.Frame(id, name, version, data);
      Number32(f, 0) == |f| - 4 && IsMessage(f, 4 + Number32(f, 4), id, name, version, data)
  {
    hide ReadLE, D.MessageAt, D.MessageFields, D.LayoutOf, D.PartitionSlot, D.Frame, D.RootOffset, Number32, IsMessage;
    D.FrameObjects(id, name, version, data);
    DeprecatedUnset(id, name, version, data);
    var f := D.Frame(id, name, version, data);
    ReadIs(f, 0, 4);
    ReadIs(f, 4, 4);
    MessageIs(f, D.RootOffset(id, name, version, data), D.MessageFields(id, name, version, data).slots,
              D.LayoutOf(id, name, version, data), D.PartitionSlot(id, name, version, data), id, name, version, data);
  }

  lemma DeprecatedUnset(id: Buffer, name: Buffer, version: Option<Buffer>, data: Buffer)
    ensures D.MessageFields(id, name, version, data).slots[1] == 0
  {
    hide D.Payload, D.LayoutOf, WithRef, WithScalar;
    D.LayoutInBounds(id, name, version, data);
  }

  // ----- Portal -------------------------------------------------------------------------------

  /** The name behind entry 4, the size behind 6, absent for both zeros, the id behind 8. */
  ghost predicate IsPortal(b: Buffer, root: int, p: P.Portal) {
    && HoldsBytes(b, root, 4, p.defaultName) && HoldsBytes(b, root, 8, p.shortId)
    && if p.size == 0 || p.size == 0x8000_0000 then FieldPosition(b, root, 6).None?
       else FieldPosition(b, root, 6).Some? && Number32(b, FieldPosition(b, root, 6).value) == p.size
  }

  lemma PortalIs(b: Buffer, t: nat, slots: seq<nat>, ws: seq<FieldWrite>, name: nat, id: nat, p: P.Portal)
    requires |slots| == 3 && ObjectAt(b, t, slots, ws) && P.Describes(ws, name, id, p.size)
    requires VectorAt(b, name, p.defaultName) && VectorAt(b, id, p.shortId)
    ensures IsPortal(b, |b| - t, p)
  {
    hide ReadLE, Contains, TableAt, VectorAt, FieldPosition, HoldsBytes, Number32;
    var i :| 0 <= i < |ws| && ws[i] == Ref(0, name);
    assert FieldAt(b, slots[0], ws[i]);
    StringHeld(b, t, slots, 0, name, p.defaultName);
    var j :| 0 <= j < |ws| && ws[j] == Ref(2, id);
    assert FieldAt(b, slots[2], ws[j]);
    StringHeld(b, t, slots, 2, id, p.shortId);
    if P.IsZero(p.size) {
      assert slots[1] == 0;
    } else {
      var k :| 0 <= k < |ws| && ws[k] == Scalar(1, p.size, 4);
      assert FieldAt(b, slots[1], ws[k]);
      ReadIs(b, |b| - slots[1], 4);
    }
    SlotIs(b, t, slots, 1);
  }

  /** A frame of these strings and fields, with the portal's name and id among them. */
  lemma PortalInFrame(ss: seq<Buffer>, ws: seq<FieldWrite>, n: nat, k: nat, p: P.Portal)
    requires n < |ss| && k < |ss| && ss[n] == p.defaultName && ss[k] == p.shortId
    requires TotalSize(ss) + 100 < MAX_BUFFER && |ws| <= 3 && DistinctSlots(ws) && AllFit(ws, WithStrings([], ss), 3)
    requires P.Describes(ws, StringOffset([], ss, n), StringOffset([], ss, k), p.size)
    ensures var f := P.FrameOf(ss, ws); Number32(f, 0) == |f| - 4 && IsPortal(f, 4 + Number32(f, 4), p)
  {
    hide ReadLE, Contains, WithStrings, StringOffset, WithObject, ObjectOffset, ObjectSlots, ObjectAt, VectorAt,
      Finished, P.Describes, DistinctSlots, AllFit, Fits, TotalSize, IsPortal, Number32;
    var b := WithStrings([], ss);
    StringsBuilt([], ss);
    ObjectBuilt(b, 3, ws);
    var m, t, slots := WithObject(b, 3, ws), ObjectOffset(b, 3, ws), ObjectSlots(b, 3, ws);
    FrameBuilt(m, t, 4);
    var f := P.FrameOf(ss, ws);
    ReadIs(f, 0, 4);
    ReadIs(f, 4, 4);
    ExtendsTransitive(f, m, b);
    ObjectExtended(f, m, t, slots, ws);
    VectorExtended(f, b, StringOffset([], ss, n), ss[n]);
    VectorExtended(f, b, StringOffset([], ss, k), ss[k]);
    PortalIs(f, t, slots, ws, StringOffset([], ss, n), StringOffset([], ss, k), p);
  }

  /** Both writers of portals, in the bytes of the format. */
  lemma PortalBytes(p: P.Portal)
    requires P.Encodable(p)
    ensures var f := P.CreatedFrame(p); Number32(f, 0) == |f| - 4 && IsPortal(f, 4 + Number32(f, 4), p)
    ensures var f := P.PublishedFrame(p); Number32(f, 0) == |f| - 4 && IsPortal(f, 4 + Number32(f, 4), p)
  {
    hide WithStrings, StringOffset, P.FrameOf, TotalSize, IsPortal, Number32;
    P.FieldsFit(p);
    P.TwoStrings(p.shortId, p.defaultName);
    P.TwoStrings(p.defaultName, p.shortId);
    var cs, ps := P.CreatedStrings(p), P.PublishedStrings(p);
    var cw, pw := P.CreatedFields(p), P.PublishedFields(p);
    assert cw[0] == Ref(0, StringOffset([], cs, 1)) && cw[1] == Ref(2, StringOffset([], cs, 0));
    assert pw[0] == Ref(2, StringOffset([], ps, 1)) && pw[|pw| - 1] == Ref(0, StringOffset([], ps, 0));
    if !P.IsZero(p.size) {
      assert cw[2] == Scalar(1, p.size, 4) && pw[1] == Scalar(1, p.size, 4);
    }
    PortalInFrame(cs, cw, 1, 0, p);
    PortalInFrame(ps, pw, 0, 1, p);
  }

  // ----- DownloadDomainDataReq -------------------------------------------------------------------

  /** The app's request: the domain id behind entry 4, and neither name (6) nor type (8). */
  lemma RequestBytes(domainId: Buffer)
    requires Q.Encodable(domainId)
    ensures var f := Q.RequestFrame(domainId); var root := 4 + Number32(f, 4);
      && Number32(f, 0) == |f| - 4 && HoldsBytes(f, root, 4, domainId)
      && FieldPosition(f, root, 6).None? && FieldPosition(f, root, 8).None?
  {
    hide ReadLE, Contains, WithString, WithObject, ObjectOffset, ObjectSlots, VectorAt, Finished, FieldPosition,
      HoldsBytes, Number32, TableAt;
    var b, ws := WithString([], domainId), Q.RequestFields(domainId);
    StringBuilt([], domainId);
    assert DistinctSlots(ws) && AllFit(ws, b, 3);
    ObjectBuilt(b, 3, ws);
    var m, t, slots := WithObject(b, 3, ws), ObjectOffset(b, 3, ws), ObjectSlots(b, 3, ws);
    FrameBuilt(m, t, 4);
    var f := Q.RequestFrame(domainId);
    ObjectExtended(f, m, t, slots, ws);
    ExtendsTransitive(f, m, b);
    VectorExtended(f, b, |b|, domainId);
    ReadIs(f, 0, 4);
    ReadIs(f, 4, 4);
    assert FieldAt(f, slots[0], ws[0]);
    StringHeld(f, t, slots, 0, |b|, domainId);
    SlotIs(f, t, slots, 1);
    SlotIs(f, t, slots, 2);
  }

  // ----- Domain ---------------------------------------------------------------------------------

  /** Id behind entry 4, name 6, writer 8; behind 10 the number of readers and a reference to each. */
  ghost predicate IsDomain(b: Buffer, root: int, ss: seq<Buffer>)
    requires |ss| >= 3
  {
    && HoldsBytes(b, root, 4, ss[0]) && HoldsBytes(b, root, 6, ss[1]) && HoldsBytes(b, root, 8, ss[2])
    && FieldPosition(b, root, 12).None? && FieldPosition(b, root, 14).None? && FieldPosition(b, root, 10).Some?
    && var p := FieldPosition(b, root, 10).value; var v := p + Number32(b, p);
      && Number32(b, v) == |ss| - 3
      && forall j :: 3 <= j < |ss| ==> var r := v + 4 * (j - 2); BytesAt(b, r + Number32(b, r), ss[j])
  }

  lemma DomainIs(b: Buffer, t: nat, slots: seq<nat>, ss: seq<Buffer>)
    requires |ss| >= 3 && N.DomainAt(b, t, slots, ss)
    ensures IsDomain(b, |b| - t, ss)
  {
    hide ReadLE, Contains, StringOffset, N.Contents, TableAt, VectorAt, RefAt, FieldPosition, HoldsBytes, Number32,
      BytesAt;
    var ws, o := N.DomainFields(ss, |N.Contents(ss)|), |N.Contents(ss)|;
    assert ws[0].slot == 0 && ws[1].slot == 1 && ws[2].slot == 2 && ws[3].slot == 3;
    assert FieldAt(b, slots[0], ws[0]) && FieldAt(b, slots[1], ws[1]) && FieldAt(b, slots[2], ws[2]);
    assert FieldAt(b, slots[3], ws[3]);
    StringHeld(b, t, slots, 0, StringOffset([], ss, 0), ss[0]);
    StringHeld(b, t, slots, 1, StringOffset([], ss, 1), ss[1]);
    StringHeld(b, t, slots, 2, StringOffset([], ss, 2), ss[2]);
    assert slots[4] == 0 && slots[5] == 0;
    SlotIs(b, t, slots, 3);
    SlotIs(b, t, slots, 4);
    SlotIs(b, t, slots, 5);
    RefIs(b, slots[3], o);
    ReadIs(b, |b| - o, 4);
    var xs := N.ReaderOffsets(ss);
    forall j | 3 <= j < |ss|
      ensures var r := |b| - o + 4 * (j - 2); BytesAt(b, r + Number32(b, r), ss[j])
    {
      RefIs(b, o - 4 - 4 * (j - 3), xs[j - 3]);
      VectorIs(b, xs[j - 3], ss[j]);
    }
  }

  /** What createDomain sends, in the bytes of the format. */
  lemma DomainBytes(id: Buffer, name: Buffer, dataNodes: seq<Buffer>)
    requires dataNodes != [] && N.Encodable(id, name, dataNodes)
    ensures var f := N.DomainFrame(N.Strings(id, name, dataNodes));
      Number32(f, 0) == |f| - 4 && IsDomain(f, 4 + Number32(f, 4), [id, name, dataNodes[0]] + dataNodes)
  {
    hide ReadLE, Contains, N.DomainAt, N.Contents, N.Message, N.RootOffset, TotalSize, IsDomain, Number32;
    var ss := N.Strings(id, name, dataNodes);
    N.MessageBuilt(ss);
    FrameBuilt(N.Message(ss), N.RootOffset(ss), 4);
    var f := N.DomainFrame(ss);
    N.FrameIsFinished(ss);
    N.DomainExtended(f, N.Message(ss), N.RootOffset(ss), N.Slots(ss), ss);
    ReadIs(f, 0, 4);
    ReadIs(f, 4, 4);
    DomainIs(f, N.RootOffset(ss), N.Slots(ss), ss);
  }

  // ----- NodeInfo -------------------------------------------------------------------------------

  /** Two's complement in four bytes. */
  function Pattern32(x: int): int {
    if x < 0 then x + 0x1_0000_0000 else x
  }

  lemma SignedIs(b: Buffer, i: nat, x: int)
    requires FitsSigned(x, 4) && Contains(b, i, Encode(ToUnsigned(x, 4), 4))
    ensures Number32(b, i) == Pattern32(x)
  {
    hide ReadLE, Number32, Encode;
    Width4();
    ReadEncoded(b, i, ToUnsigned(x, 4), 4);
    ReadIs(b, i, 4);
  }

  lemma Width8()
    ensures Pow256(8) == 0x1_0000_0000_0000_0000
  {
    Width4();
    assert Pow256(5) == 256 * Pow256(4) && Pow256(6) == 256 * Pow256(5) && Pow256(7) == 256 * Pow256(6);
  }

  lemma LongIs(b: Buffer, i: nat, x: nat)
    requires x < 0x1_0000_0000_0000_0000 && Contains(b, i, Encode(x, 8))
    ensures Number32(b, i) + 0x1_0000_0000 * Number32(b, i + 4) == x
  {
    hide Encode, Number32;
    Width8();
    ReadEncoded(b, i, x, 8);
    DecodeTwice(b, i);
    Decode4(b, i);
    Decode4(b, i + 4);
    ReadIs(b, i, 4);
    ReadIs(b, i + 4, 4);
  }

  lemma DecodeTwice(b: Buffer, i: nat)
    requires i + 8 <= |b|
    ensures Decode(b, i, 8) == Decode(b, i, 4) + 0x1_0000_0000 * Decode(b, i + 4, 4)
  {
    assert Decode(b, i, 8) == b[i] + 256 * Decode(b, i + 1, 7) && Decode(b, i, 4) == b[i] + 256 * Decode(b, i + 1, 3);
    assert Decode(b, i + 1, 7) == b[i + 1] + 256 * Decode(b, i + 2, 6);
    assert Decode(b, i + 1, 3) == b[i + 1] + 256 * Decode(b, i + 2, 2);
    assert Decode(b, i + 2, 6) == b[i + 2] + 256 * Decode(b, i + 3, 5);
    assert Decode(b, i + 2, 2) == b[i + 2] + 256 * Decode(b, i + 3, 1);
    assert Decode(b, i + 3, 5) == b[i + 3] + 256 * Decode(b, i + 4, 4);
    assert Decode(b, i + 3, 1) == b[i + 3] + 256 * Decode(b, i + 4, 0);
  }

  /** The packed block: three bytes, padding, latency at 8, cpu at 16, gpu at 20, memory at 24, padding. */
  lemma NodeInfoBytes(n: I.NodeInfo)
    requires I.InRange(n)
    ensures var p := I.Packed(n);
      && |p| == 32 && p[0] == n.id && p[1] == n.name && p[2] == n.type_ && p[24] == n.memory
      && (forall i :: 3 <= i < 8 || 25 <= i < 32 ==> p[i] == 0)
      && Number32(p, 8) + 0x1_0000_0000 * Number32(p, 12) ==
           (if n.latency < 0 then n.latency + 0x1_0000_0000_0000_0000 else n.latency)
      && Number32(p, 16) == Pattern32(n.cpu) && Number32(p, 20) == Pattern32(n.gpu)
  {
    hide Encode, Number32;
    var p := I.Packed(n);
    I.PackedParts(n);
    Width8();
    LongIs(p, 8, ToUnsigned(n.latency, 8));
    SignedIs(p, 16, n.cpu);
    SignedIs(p, 20, n.gpu);
  }
}
