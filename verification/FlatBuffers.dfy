/**
 * The part of the FlatBuffers library this repository calls: reading tables and
 * vectors, and building a buffer back to front. Offsets of finished objects count
 * from the end of the buffer, so prepending never moves them.
 */
module FlatBuffers {
  import opened Wrappers
  import opened LittleEndian

  const U32 := 0x1_0000_0000
  // The library panics when a buffer outgrows 2 GiB.
  const MAX_BUFFER := 0x8000_0000

  // ----- Reading ---------------------------------------------------------------

  /** Where the field behind a vtable entry starts, relative to the table; 0 if absent. */
  function FieldOffset(b: Buffer, pos: int, entry: nat): Option<nat> {
    var back :- ReadSigned(b, pos, 4);
    var vtable := pos - back;
    var size :- ReadLE(b, vtable, 2);
    if entry < size then ReadLE(b, vtable + entry, 2) else Some(0)
  }

  function Indirect(b: Buffer, pos: int): Option<int> {
    var rel :- ReadLE(b, pos, 4);
    Some(pos + rel)
  }

  /** The byte vector or string that the reference at pos points to. */
  function ByteVector(b: Buffer, pos: int): Option<Buffer> {
    var p :- Indirect(b, pos);
    var len :- ReadLE(b, p, 4);
    if p + 4 + len <= |b| then Some(b[p + 4..p + 4 + len]) else None
  }

  /** A string or byte-vector field: nil, here the empty sequence, when absent. */
  function ByteField(b: Buffer, pos: int, entry: nat): Option<Buffer> {
    var o :- FieldOffset(b, pos, entry);
    if o != 0 then ByteVector(b, pos + o) else Some([])
  }

  /** An n-byte scalar field with default 0. */
  function ScalarField(b: Buffer, pos: int, entry: nat, n: nat): Option<nat> {
    var o :- FieldOffset(b, pos, entry);
    if o != 0 then ReadLE(b, pos + o, n) else Some(0)
  }

  datatype Vector = Vector(start: int, len: nat)

  /** The first element and the length of a vector field; None inside when absent. */
  function VectorField(b: Buffer, pos: int, entry: nat): Option<Option<Vector>> {
    var o :- FieldOffset(b, pos, entry);
    if o == 0 then Some(None)
    else
      var p :- Indirect(b, pos + o);
      var len :- ReadLE(b, p, 4);
      Some(Some(Vector(p + 4, len)))
  }

  /** GetRootAsX on b[skip..]: skip is 0, or 4 for a size-prefixed buffer. */
  function Root(b: Buffer, skip: nat): Option<int> {
    var n :- ReadLE(b, skip, 4);
    Some(skip + n)
  }

  // ----- What a finished object looks like ---------------------------------------

  /** A length-prefixed byte vector sits at offset o from the end. */
  ghost predicate VectorAt(b: Buffer, o: nat, v: Buffer) {
    && 4 + |v| <= o <= |b|
    && ReadLE(b, |b| - o, 4) == Some(|v|)
    && Contains(b, |b| - o + 4, v)
  }

  /** The four bytes at offset s refer to the object at offset x. */
  ghost predicate RefAt(b: Buffer, s: nat, x: nat) {
    && 4 <= s <= |b| && x <= s
    && ReadLE(b, |b| - s, 4) == Some(s - x)
  }

  /** An n-byte scalar x sits at offset s. */
  ghost predicate ScalarAt(b: Buffer, s: nat, x: nat, n: nat) {
    n <= s <= |b| && ReadLE(b, |b| - s, n) == Some(x)
  }

  function Entry(slot: nat, table: nat): nat {
    if slot == 0 || table < slot then 0 else table - slot
  }

  /** A table at offset t whose slot i holds the field at offset slots[i], 0 if unset. */
  ghost predicate TableAt(b: Buffer, t: nat, slots: seq<nat>) {
    && 4 <= t <= |b|
    && forall i :: 0 <= i < |slots| ==> FieldOffset(b, |b| - t, 4 + 2 * i) == Some(Entry(slots[i], t))
  }

  lemma VectorExtended(b': Buffer, b: Buffer, o: nat, v: Buffer)
    requires Extends(b', b) && VectorAt(b, o, v)
    ensures VectorAt(b', o, v)
  {
    ReadExtended(b', b, |b| - o, 4);
    forall i | 0 <= i < |v|
      ensures b'[|b'| - o + 4 + i] == v[i]
    {
      assert b[|b| - o + 4 + i] == v[i];
    }
  }

  lemma RefExtended(b': Buffer, b: Buffer, s: nat, x: nat)
    requires Extends(b', b) && RefAt(b, s, x)
    ensures RefAt(b', s, x)
  {
    ReadExtended(b', b, |b| - s, 4);
  }

  lemma FieldOffsetExtended(b': Buffer, b: Buffer, pos: int, entry: nat)
    requires Extends(b', b) && FieldOffset(b, pos, entry).Some?
    ensures FieldOffset(b', |b'| - |b| + pos, entry) == FieldOffset(b, pos, entry)
  {
    ReadExtended(b', b, pos, 4);
    var back := ReadSigned(b, pos, 4).value;
    ReadExtended(b', b, pos - back, 2);
    if entry < ReadLE(b, pos - back, 2).value {
      ReadExtended(b', b, pos - back + entry, 2);
    }
  }

  lemma TableExtended(b': Buffer, b: Buffer, t: nat, slots: seq<nat>)
    requires Extends(b', b) && TableAt(b, t, slots)
    ensures TableAt(b', t, slots)
  {
    forall i | 0 <= i < |slots|
      ensures FieldOffset(b', |b'| - t, 4 + 2 * i) == Some(Entry(slots[i], t))
    {
      var slot := slots[i];
      FieldOffsetExtended(b', b, |b| - t, 4 + 2 * i);
    }
  }

  lemma ScalarExtended(b': Buffer, b: Buffer, s: nat, x: nat, n: nat)
    requires Extends(b', b) && ScalarAt(b, s, x, n)
    ensures ScalarAt(b', s, x, n)
  {
    ReadExtended(b', b, |b| - s, n);
  }

  /** Following a reference to a vector yields the vector. */
  lemma ReadVector(b: Buffer, s: nat, x: nat, v: Buffer)
    requires RefAt(b, s, x) && VectorAt(b, x, v)
    ensures ByteVector(b, |b| - s) == Some(v)
  {
    hide ReadLE;
    ContainedSlice(b, |b| - x + 4, v);
  }

  lemma ContainedSlice(b: Buffer, lo: nat, v: Buffer)
    requires Contains(b, lo, v)
    ensures b[lo..lo + |v|] == v
  {
  }

  /** A reference slot that points to a vector reads back as the vector. */
  lemma ByteFieldRead(b: Buffer, t: nat, slots: seq<nat>, i: nat, x: nat, v: Buffer)
    requires i < |slots| && TableAt(b, t, slots) && 0 < slots[i] < t
    requires RefAt(b, slots[i], x) && VectorAt(b, x, v)
    ensures ByteField(b, |b| - t, 4 + 2 * i) == Some(v)
  {
    hide ReadLE;
    assert FieldOffset(b, |b| - t, 4 + 2 * i) == Some(t - slots[i]);
    ReadVector(b, slots[i], x, v);
  }

  lemma VectorFieldRead(b: Buffer, t: nat, slots: seq<nat>, i: nat, x: nat, len: nat)
    requires i < |slots| && TableAt(b, t, slots) && 0 < slots[i] < t
    requires RefAt(b, slots[i], x) && x <= |b| && ReadLE(b, |b| - x, 4) == Some(len)
    ensures VectorField(b, |b| - t, 4 + 2 * i) == Some(Some(Vector(|b| - x + 4, len)))
  {
    hide ReadLE;
    assert FieldOffset(b, |b| - t, 4 + 2 * i) == Some(t - slots[i]);
    assert Indirect(b, |b| - slots[i]) == Some(|b| - x);
  }

  lemma ScalarFieldRead(b: Buffer, t: nat, slots: seq<nat>, i: nat, x: nat, n: nat)
    requires i < |slots| && TableAt(b, t, slots) && 0 < slots[i] < t && ScalarAt(b, slots[i], x, n)
    ensures ScalarField(b, |b| - t, 4 + 2 * i, n) == Some(x)
  {
    assert FieldOffset(b, |b| - t, 4 + 2 * i) == Some(t - slots[i]);
  }

  // ----- Building: each step as a function of the bytes built so far --------------

  function Zeros(n: nat): (z: Buffer)
    ensures |z| == n
    ensures forall i :: 0 <= i < n ==> z[i] == 0
  {
    seq(n, _ => 0)
  }

  /** The sizes a scalar can have, which are also the alignments in use. */
  predicate IsWidth(n: nat) {
    n == 1 || n == 2 || n == 4 || n == 8
  }

  /** Bytes needed so that size + Padding(size, align) is a multiple of align. */
  function Padding(size: nat, align: nat): (p: nat)
    requires IsWidth(align)
    ensures p < align && (size + p) % align == 0
  {
    if size % align == 0 then 0 else align - size % align
  }

  /** Prep: align what follows after `additional` more bytes have been written. */
  function Prepped(b: Buffer, align: nat, additional: nat): Buffer
    requires IsWidth(align)
  {
    Zeros(Padding(|b| + additional, align)) + b
  }

  function WithScalar(b: Buffer, x: nat, n: nat): Buffer
    requires IsWidth(n)
  {
    Encode(x, n) + Prepped(b, n, 0)
  }

  /** PrependUOffsetT: a reference, relative to its own position, to offset x. */
  function WithRef(b: Buffer, x: nat): (r: Buffer)
    requires x <= |b|
    ensures |b| + 4 <= |r|
  {
    var p := Prepped(b, 4, 0);
    Encode(|p| + 4 - x, 4) + p
  }

  function WithByteVector(b: Buffer, v: Buffer): Buffer {
    Encode(|v|, 4) + v + Prepped(b, 4, |v|)
  }

  function WithString(b: Buffer, s: Buffer): Buffer {
    Encode(|s|, 4) + s + [0] + Prepped(b, 4, |s| + 1)
  }

  /** The slots without the unset ones at the end. */
  function Trimmed(slots: seq<nat>): (r: seq<nat>)
    ensures r <= slots
    ensures forall i :: |r| <= i < |slots| ==> slots[i] == 0
    ensures r != [] ==> r[|r| - 1] != 0
  {
    if slots == [] || slots[|slots| - 1] != 0 then slots else Trimmed(slots[..|slots| - 1])
  }

  function Entries(slots: seq<nat>, table: nat): (e: seq<nat>)
    ensures |e| == |slots|
    ensures forall i :: 0 <= i < |e| ==> e[i] == Entry(slots[i], table)
  {
    seq(|slots|, i requires 0 <= i < |slots| => Entry(slots[i], table))
  }

  function Encode16s(es: seq<nat>): (s: Buffer)
    ensures |s| == 2 * |es|
  {
    if es == [] then [] else Encode(es[0], 2) + Encode16s(es[1..])
  }

  /** The vtable of a table at offset t that started when start bytes were built. */
  function Vtable(slots: seq<nat>, t: nat, start: nat): (v: Buffer)
    requires start <= t
    ensures |v| == 4 + 2 * |Trimmed(slots)|
  {
    var es := Entries(Trimmed(slots), t);
    Encode(4 + 2 * |es|, 2) + Encode(t - start, 2) + Encode16s(es)
  }

  /** An object under construction: what is built, and where each slot's field went. */
  datatype Fields = Fields(bytes: Buffer, slots: seq<nat>)

  /** EndObject: the reference to the vtable, and the vtable in front of it. */
  function WithTable(b: Buffer, slots: seq<nat>, start: nat): Buffer
    requires start <= |b|
  {
    var p := Prepped(b, 4, 0);
    var v := Vtable(slots, |p| + 4, start);
    v + Encode(|v|, 4) + p
  }

  function TableOffset(b: Buffer): nat {
    |Prepped(b, 4, 0)| + 4
  }

  /** FinishSizePrefixed with largest alignment `align`: root reference, then size. */
  function Finished(b: Buffer, root: nat, align: nat): Buffer
    requires IsWidth(align) && root <= |b|
  {
    var r := WithRef(Prepped(b, align, 8), root);
    Encode(|r|, 4) + r
  }

  // ----- What each step leaves behind ---------------------------------------------

  lemma ScalarBuilt(b: Buffer, x: nat, n: nat)
    requires IsWidth(n) && x < Pow256(n)
    ensures var b' := WithScalar(b, x, n);
      && Extends(b', b) && |b'| % n == 0 && |b| + n <= |b'| < |b| + 2 * n
      && ReadLE(b', 0, n) == Some(x)
  {
    AlignedNext(|Prepped(b, n, 0)|, n);
    ReadEncoded(WithScalar(b, x, n), 0, x, n);
  }

  lemma AlignedNext(x: nat, n: nat)
    requires IsWidth(n) && x % n == 0
    ensures (x + n) % n == 0
  {
    if n == 1 {
    } else if n == 2 {
    } else if n == 4 {
    } else {
      assert n == 8;
    }
  }

  lemma RefBuilt(b: Buffer, x: nat)
    requires x <= |b| && |b| + 8 < U32
    ensures var b' := WithRef(b, x);
      && Extends(b', b) && |b'| % 4 == 0 && |b| + 4 <= |b'| < |b| + 8
      && RefAt(b', |b'|, x)
  {
    hide Encode, Decode, Pow256;
    Width4();
    ReadEncoded(WithRef(b, x), 0, |Prepped(b, 4, 0)| + 4 - x, 4);
  }

  lemma ByteVectorBuilt(b: Buffer, v: Buffer)
    requires |b| + |v| + 8 < U32
    ensures var b' := WithByteVector(b, v);
      && Extends(b', b) && |b'| % 4 == 0 && |b| + |v| + 4 <= |b'| < |b| + |v| + 8
      && VectorAt(b', |b'|, v)
  {
    hide Encode, Decode, Pow256;
    Width4();
    ReadEncoded(WithByteVector(b, v), 0, |v|, 4);
  }

  lemma StringBuilt(b: Buffer, s: Buffer)
    requires |b| + |s| + 9 < U32
    ensures var b' := WithString(b, s);
      && Extends(b', b) && |b'| % 4 == 0 && |b| + |s| + 5 <= |b'| < |b| + |s| + 9
      && VectorAt(b', |b'|, s) && b'[4 + |s|] == 0
  {
    hide Encode, Decode, Pow256;
    Width4();
    ReadEncoded(WithString(b, s), 0, |s|, 4);
  }

  lemma {:induction false} Read16(es: seq<nat>, i: nat)
    requires i < |es| && es[i] < 0x1_0000
    ensures ReadLE(Encode16s(es), 2 * i, 2) == Some(es[i])
  {
    hide Encode, Decode, Pow256;
    if i == 0 {
      Width2();
      ReadEncoded(Encode16s(es), 0, es[0], 2);
    } else {
      Read16(es[1..], i - 1);
      ReadContained(Encode16s(es), 2, Encode16s(es[1..]), 2 * (i - 1), 2);
    }
  }

  lemma PartsContained(a: Buffer, c: Buffer, d: Buffer)
    ensures Contains(a + c + d, 0, a) && Contains(a + c + d, |a| + |c|, d)
  {
  }

  lemma VtableRead(size: nat, span: nat, es: seq<nat>, i: nat)
    requires size < 0x1_0000 && (i < |es| ==> es[i] < 0x1_0000)
    ensures var v := Encode(size, 2) + Encode(span, 2) + Encode16s(es);
      && ReadLE(v, 0, 2) == Some(size)
      && (i < |es| ==> ReadLE(v, 4 + 2 * i, 2) == Some(es[i]))
  {
    hide Encode, Decode, Pow256, Encode16s, Contains, ReadLE;
    var v := Encode(size, 2) + Encode(span, 2) + Encode16s(es);
    PartsContained(Encode(size, 2), Encode(span, 2), Encode16s(es));
    Width2();
    ReadEncoded(v, 0, size, 2);
    if i < |es| {
      Read16(es, i);
      ReadContained(v, 4, Encode16s(es), 2 * i, 2);
    }
  }

  lemma VtableRefBuilt(v: Buffer, rest: Buffer)
    requires |v| < U32 / 2
    ensures ReadSigned(v + Encode(|v|, 4) + rest, |v|, 4) == Some(|v|)
  {
    hide Encode, Decode, Pow256;
    Width4();
    ReadEncoded(v + Encode(|v|, 4) + rest, |v|, |v|, 4);
  }

  lemma FieldOffsetBuilt(b: Buffer, v: Buffer, p: Buffer, entry: nat, field: nat)
    requires |v| < U32 / 2 && ReadLE(v, 0, 2) == Some(|v|)
    requires b == v + Encode(|v|, 4) + p
    requires entry < |v| ==> ReadLE(v, entry, 2) == Some(field)
    requires entry >= |v| ==> field == 0
    ensures FieldOffset(b, |b| - (|p| + 4), entry) == Some(field)
  {
    hide Encode, Decode, Pow256;
    VtableRefBuilt(v, p);
    ReadPrefix(v, Encode(|v|, 4), p, 0, 2);
    if entry < |v| {
      ReadPrefix(v, Encode(|v|, 4), p, entry, 2);
    }
  }

  lemma ReadPrefix(v: Buffer, mid: Buffer, rest: Buffer, i: nat, n: nat)
    requires i + n <= |v|
    ensures ReadLE(v + mid + rest, i, n) == ReadLE(v, i, n)
  {
    hide Encode, Decode, Pow256;
    ReadContained(v + mid + rest, 0, v, i, n);
  }

  lemma VtableEntry(slots: seq<nat>, t: nat, start: nat, i: nat)
    requires i < |slots| && start <= t < U32 / 2 && t - start < 0x1_0000 && 4 + 2 * |slots| < 0x1_0000
    requires slots[i] == 0 || start < slots[i] <= t
    ensures var v := Vtable(slots, t, start);
      && ReadLE(v, 0, 2) == Some(|v|)
      && (4 + 2 * i < |v| ==> ReadLE(v, 4 + 2 * i, 2) == Some(Entry(slots[i], t)))
      && (4 + 2 * i >= |v| ==> Entry(slots[i], t) == 0)
  {
    var es := Entries(Trimmed(slots), t);
    VtableRead(4 + 2 * |es|, t - start, es, i);
  }

  lemma TableShape(b: Buffer, slots: seq<nat>, start: nat)
    requires start <= |b|
    ensures var b' := WithTable(b, slots, start);
      && Extends(b', b) && |b'| == TableOffset(b) + 4 + 2 * |Trimmed(slots)|
      && |Vtable(slots, TableOffset(b), start)| == |b'| - TableOffset(b)
  {
  }

  lemma SlotBuilt(b: Buffer, slots: seq<nat>, start: nat, i: nat)
    requires i < |slots| && start <= |b| && |b| + 16 < U32 / 2
    requires |b| - start + 8 < 0x1_0000 && 4 + 2 * |slots| < 0x1_0000
    requires slots[i] == 0 || start < slots[i] <= |b|
    ensures var t := TableOffset(b); var b' := WithTable(b, slots, start);
      FieldOffset(b', |b'| - t, 4 + 2 * i) == Some(Entry(slots[i], t))
  {
    hide ReadLE;
    var t := TableOffset(b);
    VtableEntry(slots, t, start, i);
    FieldOffsetBuilt(WithTable(b, slots, start), Vtable(slots, t, start), Prepped(b, 4, 0), 4 + 2 * i,
                     Entry(slots[i], t));
  }

  lemma TableFromSlots(b: Buffer, t: nat, slots: seq<nat>)
    requires 4 <= t <= |b|
    requires forall i :: 0 <= i < |slots| ==> FieldOffset(b, |b| - t, 4 + 2 * i) == Some(Entry(slots[i], t))
    ensures TableAt(b, t, slots)
  {
  }

  /** Every slot reads back as set, whatever other slots were set and in which order. */
  lemma TableBuilt(b: Buffer, slots: seq<nat>, start: nat)
    requires start <= |b| && |b| + 16 < U32 / 2
    requires |b| - start + 8 < 0x1_0000 && 4 + 2 * |slots| < 0x1_0000
    requires forall i :: 0 <= i < |slots| ==> slots[i] == 0 || start < slots[i] <= |b|
    ensures var b' := WithTable(b, slots, start);
      && Extends(b', b) && TableAt(b', TableOffset(b), slots)
      && |b'| == TableOffset(b) + 4 + 2 * |Trimmed(slots)|
  {
    var b' := WithTable(b, slots, start);
    forall i | 0 <= i < |slots|
      ensures FieldOffset(b', |b'| - TableOffset(b), 4 + 2 * i) == Some(Entry(slots[i], TableOffset(b)))
    {
      SlotBuilt(b, slots, start, i);
    }
    TableShape(b, slots, start);
    TableFromSlots(b', TableOffset(b), slots);
  }

  lemma MultipleOf4(n: nat, align: nat)
    requires (align == 4 || align == 8) && n % align == 0
    ensures n % 4 == 0
  {
    if align == 8 {
      assert n == 4 * (2 * (n / 8));
    }
  }

  lemma PreppedFrame(b: Buffer, align: nat)
    requires align == 4 || align == 8
    ensures |Prepped(b, align, 8)| % 4 == 0
    ensures Prepped(Prepped(b, align, 8), 4, 0) == Prepped(b, align, 8)
  {
    var q := Prepped(b, align, 8);
    MultipleOf4(|q| + 8, align);
    assert Zeros(0) + q == q;
  }

  /** The first four bytes of a finished frame are the length of the rest, least significant first. */
  lemma FramePrefix(b: Buffer, root: nat, align: nat)
    requires IsWidth(align) && root <= |b|
    ensures var f := Finished(b, root, align); var size := |f| - 4;
      4 <= |f| && f[..4] == [size % 0x100, size / 0x100 % 0x100, size / 0x1_0000 % 0x100, size / 0x100_0000 % 0x100]
  {
    hide Encode, WithRef;
    var r := WithRef(Prepped(b, align, 8), root);
    Encode4(|r|);
    var f := Encode(|r|, 4) + r;
    assert f[..4] == Encode(|r|, 4) && |f| - 4 == |r|;
  }

  /** A finished frame: its size in front, its root at the given offset from the end. */
  lemma FrameBuilt(b: Buffer, root: nat, align: nat)
    requires (align == 4 || align == 8) && root <= |b| && |b| + align + 16 < U32
    ensures var f := Finished(b, root, align);
      && 4 <= |f| && Extends(f, b) && Extends(f[4..], b)
      && |b| + 8 <= |f| < |b| + 8 + align
      && ReadLE(f, 0, 4) == Some(|f| - 4)
      && Root(f, 4) == Some(|f| - root) && Root(f[4..], 0) == Some(|f| - 4 - root)
  {
    hide Decode;
    var q := Prepped(b, align, 8);
    PreppedFrame(b, align);
    RefBuilt(q, root);
    var r := WithRef(q, root);
    var f := Finished(b, root, align);
    assert f[4..] == r;
    Width4();
    ReadEncoded(f, 0, |r|, 4);
    ReadExtended(f, r, 0, 4);
    ExtendsTransitive(r, q, b);
    ExtendsTransitive(f, r, b);
  }
}
