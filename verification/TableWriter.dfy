/** Tables, strings and reference vectors written in any order of slots. */
module TableWriter {
  import opened Wrappers
  import opened LittleEndian
  import opened FlatBuffers
  import opened FlatBufferBuilder

  // ----- A table as a list of field writes ---------------------------------------------

  datatype FieldWrite =
    | Ref(slot: nat, target: nat)
    | Scalar(slot: nat, value: nat, width: nat)

  predicate Fits(w: FieldWrite, b: Buffer) {
    match w
    case Ref(_, target) => 0 < target <= |b|
    case Scalar(_, value, width) => IsWidth(width) && width <= 4 && 0 < value < Pow256(width)
  }

  predicate AllFit(ws: seq<FieldWrite>, b: Buffer, slots: nat) {
    forall i :: 0 <= i < |ws| ==> Fits(ws[i], b) && ws[i].slot < slots
  }

  predicate DistinctSlots(ws: seq<FieldWrite>) {
    forall i, j :: 0 <= i < j < |ws| ==> ws[i].slot != ws[j].slot
  }

  function WriteField(f: Fields, w: FieldWrite): (r: Fields)
    requires Fits(w, f.bytes) && w.slot < |f.slots|
    ensures |r.slots| == |f.slots| && |f.bytes| <= |r.bytes|
  {
    var b := if w.Ref? then WithRef(f.bytes, w.target) else WithScalar(f.bytes, w.value, w.width);
    Fields(b, f.slots[w.slot := |b|])
  }

  function WriteFields(f: Fields, ws: seq<FieldWrite>): (r: Fields)
    requires AllFit(ws, f.bytes, |f.slots|)
    ensures |r.slots| == |f.slots| && |f.bytes| <= |r.bytes|
    decreases |ws|
  {
    if ws == [] then f else WriteFields(WriteField(f, ws[0]), ws[1..])
  }

  lemma {:induction false} WriteFieldsSnoc(f: Fields, ws: seq<FieldWrite>, w: FieldWrite)
    requires AllFit(ws + [w], f.bytes, |f.slots|)
    ensures AllFit(ws, f.bytes, |f.slots|) && Fits(w, WriteFields(f, ws).bytes) && w.slot < |f.slots|
    ensures WriteFields(f, ws + [w]) == WriteField(WriteFields(f, ws), w)
    decreases |ws|
  {
    hide WriteField, Pow256;
    assert (ws + [w])[|ws|] == w;
    assert forall i :: 0 <= i < |ws| ==> (ws + [w])[i] == ws[i];
    if ws == [] {
      assert (ws + [w])[1..] == [];
    } else {
      assert (ws + [w])[1..] == ws[1..] + [w];
      WriteFieldsSnoc(WriteField(f, ws[0]), ws[1..], w);
    }
  }

  /** A new table with these fields on top of b: StartObject, the slots, EndObject. */
  function WithObject(b: Buffer, slots: nat, ws: seq<FieldWrite>): Buffer
    requires AllFit(ws, b, slots)
  {
    var f := WriteFields(Fields(b, seq(slots, _ => 0)), ws);
    WithTable(f.bytes, f.slots, |b|)
  }

  function ObjectOffset(b: Buffer, slots: nat, ws: seq<FieldWrite>): nat
    requires AllFit(ws, b, slots)
  {
    TableOffset(WriteFields(Fields(b, seq(slots, _ => 0)), ws).bytes)
  }

  ghost predicate FieldAt(b: Buffer, s: nat, w: FieldWrite) {
    match w
    case Ref(_, target) => RefAt(b, s, target)
    case Scalar(_, value, width) => ScalarAt(b, s, value, width)
  }

  lemma FieldExtended(b': Buffer, b: Buffer, s: nat, w: FieldWrite)
    requires Extends(b', b) && FieldAt(b, s, w)
    ensures FieldAt(b', s, w)
  {
    match w
    case Ref(_, target) => RefExtended(b', b, s, target);
    case Scalar(_, value, width) => ScalarExtended(b', b, s, value, width);
  }

  lemma WriteFieldBuilt(f: Fields, w: FieldWrite)
    requires Fits(w, f.bytes) && w.slot < |f.slots| && |f.bytes| + 8 < U32
    ensures var r := WriteField(f, w);
      && Extends(r.bytes, f.bytes) && |f.bytes| < |r.bytes| < |f.bytes| + 8
      && r.slots == f.slots[w.slot := |r.bytes|] && FieldAt(r.bytes, |r.bytes|, w)
  {
    if w.Ref? {
      RefBuilt(f.bytes, w.target);
    } else {
      ScalarBuilt(f.bytes, w.value, w.width);
    }
  }

  /** Slots set by ws hold their field; all others are as before. */
  ghost predicate FieldsWritten(f: Fields, r: Fields, ws: seq<FieldWrite>) {
    && |r.slots| == |f.slots|
    && (forall i :: 0 <= i < |ws| ==>
          && ws[i].slot < |r.slots|
          && |f.bytes| < r.slots[ws[i].slot] <= |r.bytes| && FieldAt(r.bytes, r.slots[ws[i].slot], ws[i]))
    && (forall s :: 0 <= s < |f.slots| && (forall i :: 0 <= i < |ws| ==> ws[i].slot != s) ==> r.slots[s] == f.slots[s])
  }

  lemma {:induction false} FieldsBuilt(f: Fields, ws: seq<FieldWrite>)
    requires AllFit(ws, f.bytes, |f.slots|) && DistinctSlots(ws) && |f.bytes| + 8 * |ws| + 8 < U32
    ensures var r := WriteFields(f, ws);
      && Extends(r.bytes, f.bytes) && |r.bytes| <= |f.bytes| + 8 * |ws| && FieldsWritten(f, r, ws)
    decreases |ws|
  {
    hide ReadLE, Contains, RefAt, ScalarAt, WriteField;
    if ws == [] {
      ExtendsReflexive(f.bytes);
    } else {
      var g, rest := WriteField(f, ws[0]), ws[1..];
      WriteFieldBuilt(f, ws[0]);
      FieldsBuilt(g, rest);
      var r := WriteFields(g, rest);
      ExtendsTransitive(r.bytes, g.bytes, f.bytes);
      forall i | 0 <= i < |rest|
        ensures ws[0].slot != rest[i].slot
      {
        assert ws[i + 1] == rest[i];
      }
      assert r.slots[ws[0].slot] == g.slots[ws[0].slot];
      FieldExtended(r.bytes, g.bytes, |g.bytes|, ws[0]);
      forall i | 0 <= i < |ws|
        ensures |f.bytes| < r.slots[ws[i].slot] <= |r.bytes| && FieldAt(r.bytes, r.slots[ws[i].slot], ws[i])
      {
        if i > 0 {
          assert ws[i] == rest[i - 1];
        }
      }
      forall s | 0 <= s < |f.slots| && (forall i :: 0 <= i < |ws| ==> ws[i].slot != s)
        ensures r.slots[s] == f.slots[s]
      {
        assert ws[0].slot != s;
        assert forall i :: 0 <= i < |rest| ==> rest[i] == ws[i + 1];
      }
    }
  }

  lemma ExtendsReflexive(b: Buffer)
    ensures Extends(b, b)
  {
  }

  /**
   * The table reads back: each written slot leads to its field, each slot not written
   * is absent. The order of the writes does not matter.
   */
  ghost predicate ObjectAt(b: Buffer, t: nat, slots: seq<nat>, ws: seq<FieldWrite>) {
    && TableAt(b, t, slots)
    && (forall i :: 0 <= i < |ws| ==>
          ws[i].slot < |slots| && 0 < slots[ws[i].slot] < t && FieldAt(b, slots[ws[i].slot], ws[i]))
    && (forall s :: 0 <= s < |slots| && (forall i :: 0 <= i < |ws| ==> ws[i].slot != s) ==> slots[s] == 0)
  }

  lemma ObjectExtended(b': Buffer, b: Buffer, t: nat, slots: seq<nat>, ws: seq<FieldWrite>)
    requires Extends(b', b) && ObjectAt(b, t, slots, ws)
    ensures ObjectAt(b', t, slots, ws)
  {
    hide ReadLE, Contains, RefAt, ScalarAt, TableAt, FieldAt;
    TableExtended(b', b, t, slots);
    forall i | 0 <= i < |ws|
      ensures FieldAt(b', slots[ws[i].slot], ws[i])
    {
      FieldExtended(b', b, slots[ws[i].slot], ws[i]);
    }
  }

  function ObjectSlots(b: Buffer, slots: nat, ws: seq<FieldWrite>): (r: seq<nat>)
    requires AllFit(ws, b, slots)
    ensures |r| == slots
  {
    WriteFields(Fields(b, seq(slots, _ => 0)), ws).slots
  }

  lemma ObjectBuilt(b: Buffer, slots: nat, ws: seq<FieldWrite>)
    requires AllFit(ws, b, slots) && DistinctSlots(ws)
    requires slots < 64 && |ws| < 64 && |b| + 8 * |ws| + 2 * slots + 32 < MAX_BUFFER
    ensures var r := WithObject(b, slots, ws); var t := ObjectOffset(b, slots, ws);
      && Extends(r, b) && t <= |r| < |b| + 8 * |ws| + 2 * slots + 16 && ObjectAt(r, t, ObjectSlots(b, slots, ws), ws)
  {
    hide ReadLE, Contains, RefAt, ScalarAt, TableAt, FieldAt, WriteFields, WithTable;
    var f := Fields(b, seq(slots, _ => 0));
    var g := WriteFields(f, ws);
    FieldsBuilt(f, ws);
    SlotsInRange(f, g, ws);
    TableBuilt(g.bytes, g.slots, |b|);
    var r := WithObject(b, slots, ws);
    ExtendsTransitive(r, g.bytes, b);
    forall i | 0 <= i < |ws|
      ensures FieldAt(r, g.slots[ws[i].slot], ws[i])
    {
      FieldExtended(r, g.bytes, g.slots[ws[i].slot], ws[i]);
    }
  }

  lemma SlotsInRange(f: Fields, g: Fields, ws: seq<FieldWrite>)
    requires FieldsWritten(f, g, ws) && forall s :: 0 <= s < |f.slots| ==> f.slots[s] == 0
    ensures forall s :: 0 <= s < |g.slots| ==> g.slots[s] == 0 || |f.bytes| < g.slots[s] <= |g.bytes|
  {
    forall s | 0 <= s < |g.slots|
      ensures g.slots[s] == 0 || |f.bytes| < g.slots[s] <= |g.bytes|
    {
      if i :| 0 <= i < |ws| && ws[i].slot == s {
      }
    }
  }

  // ----- Strings -------------------------------------------------------------------------

  function WithStrings(b: Buffer, ss: seq<Buffer>): (r: Buffer)
    ensures |b| <= |r|
  {
    if ss == [] then b else WithString(WithStrings(b, ss[..|ss| - 1]), ss[|ss| - 1])
  }

  function StringOffset(b: Buffer, ss: seq<Buffer>, i: nat): nat
    requires i < |ss|
  {
    |WithStrings(b, ss[..i + 1])|
  }

  function TotalSize(ss: seq<Buffer>): nat {
    if ss == [] then 0 else TotalSize(ss[..|ss| - 1]) + |ss[|ss| - 1]| + 9
  }

  lemma {:induction false} StringsBuilt(b: Buffer, ss: seq<Buffer>)
    requires |b| + TotalSize(ss) < U32
    ensures var r := WithStrings(b, ss);
      && Extends(r, b) && |r| <= |b| + TotalSize(ss)
      && forall i :: 0 <= i < |ss| ==> VectorAt(r, StringOffset(b, ss, i), ss[i])
  {
    hide ReadLE, Contains, VectorAt;
    if ss == [] {
      ExtendsReflexive(b);
    } else {
      var n := |ss| - 1;
      var init := ss[..n];
      StringsBuilt(b, init);
      var p := WithStrings(b, init);
      StringBuilt(p, ss[n]);
      var r := WithString(p, ss[n]);
      ExtendsTransitive(r, p, b);
      forall i | 0 <= i < |ss|
        ensures VectorAt(r, StringOffset(b, ss, i), ss[i])
      {
        if i < n {
          assert init[..i + 1] == ss[..i + 1] && init[i] == ss[i];
          VectorExtended(r, p, StringOffset(b, init, i), init[i]);
        } else {
          assert ss[..i + 1] == ss;
        }
      }
    }
  }

  // ----- Vectors of references ---------------------------------------------------------

  /** References prepended from the last one to the first. */
  function WithRefs(b: Buffer, xs: seq<nat>): (r: Buffer)
    requires forall i :: 0 <= i < |xs| ==> xs[i] <= |b|
    ensures |b| <= |r|
  {
    if xs == [] then b else WithRef(WithRefs(b, xs[1..]), xs[0])
  }

  /** StartVector(4, n, 4), the references, EndVector. */
  function WithRefVector(b: Buffer, xs: seq<nat>): (r: Buffer)
    requires forall i :: 0 <= i < |xs| ==> xs[i] <= |b|
    ensures |b| + 4 <= |r|
  {
    Encode(|xs|, 4) + WithRefs(Prepped(Prepped(b, 4, 4 * |xs|), 4, 4 * |xs|), xs)
  }

  /** A vector of references at offset o: element j refers to xs[j]. */
  ghost predicate RefVectorAt(b: Buffer, o: nat, xs: seq<nat>) {
    && 4 + 4 * |xs| <= o <= |b| && ReadLE(b, |b| - o, 4) == Some(|xs|)
    && forall j :: 0 <= j < |xs| ==> RefAt(b, o - 4 - 4 * j, xs[j])
  }

  lemma RefVectorExtended(b': Buffer, b: Buffer, o: nat, xs: seq<nat>)
    requires Extends(b', b) && RefVectorAt(b, o, xs)
    ensures RefVectorAt(b', o, xs)
  {
    hide Contains;
    ReadExtended(b', b, |b| - o, 4);
    forall j | 0 <= j < |xs|
      ensures RefAt(b', o - 4 - 4 * j, xs[j])
    {
      RefExtended(b', b, o - 4 - 4 * j, xs[j]);
    }
  }

  /** No padding creeps in between the references, so element j is 4 * j bytes after the first. */
  lemma {:induction false} RefsBuilt(b: Buffer, xs: seq<nat>)
    requires |b| % 4 == 0 && |b| + 4 * |xs| + 8 < U32
    requires forall i :: 0 <= i < |xs| ==> xs[i] <= |b|
    ensures var r := WithRefs(b, xs);
      && Extends(r, b) && |r| == |b| + 4 * |xs|
      && forall j :: 0 <= j < |xs| ==> RefAt(r, |r| - 4 * j, xs[j])
  {
    hide ReadLE, Contains, RefAt;
    if xs == [] {
      ExtendsReflexive(b);
    } else {
      var rest := xs[1..];
      RefsBuilt(b, rest);
      var p := WithRefs(b, rest);
      RefBuilt(p, xs[0]);
      var r := WithRef(p, xs[0]);
      assert |r| == |p| + 4;
      ExtendsTransitive(r, p, b);
      forall j | 0 <= j < |xs|
        ensures RefAt(r, |r| - 4 * j, xs[j])
      {
        if j > 0 {
          RefExtended(r, p, |p| - 4 * (j - 1), rest[j - 1]);
        }
      }
    }
  }

  lemma LengthBuilt(q: Buffer, n: nat)
    requires n < U32
    ensures var r := Encode(n, 4) + q; Extends(r, q) && ReadLE(r, 0, 4) == Some(n)
  {
    Width4();
    ReadEncoded(Encode(n, 4) + q, 0, n, 4);
  }

  lemma VectorPrepped(b: Buffer, n: nat)
    ensures var p := Prepped(b, 4, 4 * n);
      && Prepped(p, 4, 4 * n) == p && |p| % 4 == 0 && Extends(p, b) && |b| <= |p| < |b| + 4
  {
    var p := Prepped(b, 4, 4 * n);
    AlignedBefore(|p|, n);
    assert Zeros(0) + p == p;
  }

  lemma AlignedBefore(size: nat, n: nat)
    requires (size + 4 * n) % 4 == 0
    ensures size % 4 == 0
  {
  }

  lemma RefVectorBuilt(b: Buffer, xs: seq<nat>)
    requires |b| + 4 * |xs| + 16 < U32 && forall i :: 0 <= i < |xs| ==> xs[i] <= |b|
    ensures var r := WithRefVector(b, xs);
      && Extends(r, b) && RefVectorAt(r, |r|, xs) && |r| < |b| + 4 * |xs| + 8
  {
    hide ReadLE, RefAt, WithRefs, Contains, Encode, Prepped;
    var p := Prepped(b, 4, 4 * |xs|);
    VectorPrepped(b, |xs|);
    RefsBuilt(p, xs);
    var q := WithRefs(p, xs);
    var r := WithRefVector(b, xs);
    LengthBuilt(q, |xs|);
    ExtendsTransitive(r, q, p);
    ExtendsTransitive(r, p, b);
    forall j | 0 <= j < |xs|
      ensures RefAt(r, |r| - 4 - 4 * j, xs[j])
    {
      RefExtended(r, q, |q| - 4 * j, xs[j]);
    }
  }

  // ----- The same steps on a builder -----------------------------------------------------

  /** builder has an open object with the fields ws, started on top of b. */
  ghost predicate Writing(builder: Builder, b: Buffer, slots: nat, ws: seq<FieldWrite>)
    reads builder
  {
    && builder.Valid() && builder.nested && builder.minalign == 4 && builder.objectEnd == |b|
    && AllFit(ws, b, slots)
    && WriteFields(Fields(b, seq(slots, _ => 0)), ws) == Fields(builder.bytes, builder.vtable)
  }

  method StartTable(builder: Builder, slots: nat)
    requires builder.Valid() && !builder.nested && builder.minalign == 4
    modifies builder
    ensures Writing(builder, old(builder.bytes), slots, [])
  {
    builder.StartObject(slots);
  }

  method AddRef(builder: Builder, slot: nat, target: nat, ghost b: Buffer, ghost slots: nat, ghost ws: seq<FieldWrite>)
    requires Writing(builder, b, slots, ws) && slot < slots && 0 < target <= |b|
    modifies builder
    ensures Writing(builder, b, slots, ws + [Ref(slot, target)])
  {
    WriteFieldsSnoc(Fields(b, seq(slots, _ => 0)), ws, Ref(slot, target));
    builder.PrependUOffsetSlot(slot, target, 0);
  }

  method AddScalar(builder: Builder, slot: nat, value: nat, width: nat,
                   ghost b: Buffer, ghost slots: nat, ghost ws: seq<FieldWrite>)
    requires Writing(builder, b, slots, ws) && slot < slots
    requires IsWidth(width) && width <= 4 && 0 < value < Pow256(width)
    modifies builder
    ensures Writing(builder, b, slots, ws + [Scalar(slot, value, width)])
  {
    WriteFieldsSnoc(Fields(b, seq(slots, _ => 0)), ws, Scalar(slot, value, width));
    builder.PrependScalarSlot(slot, value, 0, width);
  }

  method EndTable(builder: Builder, ghost b: Buffer, ghost slots: nat, ghost ws: seq<FieldWrite>) returns (t: nat)
    requires Writing(builder, b, slots, ws)
    modifies builder
    ensures builder.Valid() && !builder.nested && builder.minalign == 4
    ensures builder.bytes == WithObject(b, slots, ws) && t == ObjectOffset(b, slots, ws) && t <= |builder.bytes|
  {
    t := builder.EndObject();
  }
}
