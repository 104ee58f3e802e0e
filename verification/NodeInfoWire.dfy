/** The packed NodeInfo struct: fixed offsets, written back to front. */
module NodeInfoWire {
  import opened Wrappers
  import opened LittleEndian
  import opened FlatBuffers
  import opened FlatBufferBuilder

  datatype NodeInfo = NodeInfo(id: byte, name: byte, type_: byte, latency: int, cpu: int, gpu: int, memory: byte)

  predicate InRange(n: NodeInfo) {
    FitsSigned(n.latency, 8) && FitsSigned(n.cpu, 4) && FitsSigned(n.gpu, 4)
  }

  // ----- Generated accessors -----------------------------------------------------------

  function Id(b: Buffer, pos: int): Option<nat> { ReadLE(b, pos, 1) }

  function Name(b: Buffer, pos: int): Option<nat> { ReadLE(b, pos + 1, 1) }

  function Type(b: Buffer, pos: int): Option<nat> { ReadLE(b, pos + 2, 1) }

  function Latency(b: Buffer, pos: int): Option<int> { ReadSigned(b, pos + 8, 8) }

  function Cpu(b: Buffer, pos: int): Option<int> { ReadSigned(b, pos + 16, 4) }

  function Gpu(b: Buffer, pos: int): Option<int> { ReadSigned(b, pos + 20, 4) }

  function Memory(b: Buffer, pos: int): Option<nat> { ReadLE(b, pos + 24, 1) }

  ghost predicate ReadsAs(b: Buffer, pos: int, n: NodeInfo) {
    && Id(b, pos) == Some(n.id) && Name(b, pos) == Some(n.name) && Type(b, pos) == Some(n.type_)
    && Latency(b, pos) == Some(n.latency) && Cpu(b, pos) == Some(n.cpu) && Gpu(b, pos) == Some(n.gpu)
    && Memory(b, pos) == Some(n.memory)
  }

  // ----- Layout -----------------------------------------------------------------------------

  function Head(n: NodeInfo): Buffer {
    [n.id, n.name, n.type_] + Zeros(5)
  }

  function Packed(n: NodeInfo): (p: Buffer)
    requires InRange(n)
    ensures |p| == 32
  {
    Head(n) + Encode(ToUnsigned(n.latency, 8), 8) + Encode(ToUnsigned(n.cpu, 4), 4)
    + Encode(ToUnsigned(n.gpu, 4), 4) + [n.memory] + Zeros(7)
  }

  lemma SignedFits(x: int, n: nat)
    requires FitsSigned(x, n)
    ensures ToUnsigned(x, n) < Pow256(n) && ToSigned(ToUnsigned(x, n), n) == x
  {
  }

  lemma ByteRead(b: Buffer, pos: nat)
    requires pos < |b|
    ensures ReadLE(b, pos, 1) == Some(b[pos])
  {
    assert Decode(b, pos, 1) == b[pos] + 256 * Decode(b, pos + 1, 0);
  }

  lemma SignedRead(b: Buffer, pos: nat, x: int, n: nat)
    requires FitsSigned(x, n) && Contains(b, pos, Encode(ToUnsigned(x, n), n))
    ensures ReadSigned(b, pos, n) == Some(x)
  {
    SignedFits(x, n);
    ReadEncoded(b, pos, ToUnsigned(x, n), n);
  }

  lemma PackedParts(n: NodeInfo)
    requires InRange(n)
    ensures var p := Packed(n);
      && p[0] == n.id && p[1] == n.name && p[2] == n.type_ && p[24] == n.memory
      && Contains(p, 8, Encode(ToUnsigned(n.latency, 8), 8))
      && Contains(p, 16, Encode(ToUnsigned(n.cpu, 4), 4)) && Contains(p, 20, Encode(ToUnsigned(n.gpu, 4), 4))
  {
    hide Encode;
  }

  /** The getters return all seven fields, wherever the block lies in a buffer. */
  lemma PackedReads(b: Buffer, pos: nat, n: NodeInfo)
    requires InRange(n) && Contains(b, pos, Packed(n))
    ensures ReadsAs(b, pos, n)
  {
    hide Encode, Decode;
    var p := Packed(n);
    PackedParts(n);
    ByteRead(b, pos);
    ByteRead(b, pos + 1);
    ByteRead(b, pos + 2);
    ByteRead(b, pos + 24);
    assert b[pos + 0] == p[0] && b[pos + 1] == p[1] && b[pos + 2] == p[2] && b[pos + 24] == p[24];
    ContainsWithin(b, pos, p, 8, Encode(ToUnsigned(n.latency, 8), 8));
    ContainsWithin(b, pos, p, 16, Encode(ToUnsigned(n.cpu, 4), 4));
    ContainsWithin(b, pos, p, 20, Encode(ToUnsigned(n.gpu, 4), 4));
    SignedRead(b, pos + 8, n.latency, 8);
    SignedRead(b, pos + 16, n.cpu, 4);
    SignedRead(b, pos + 20, n.gpu, 4);
  }

  lemma ContainsWithin(b: Buffer, pos: nat, p: Buffer, i: nat, part: Buffer)
    requires Contains(b, pos, p) && Contains(p, i, part)
    ensures Contains(b, pos + i, part)
  {
    forall k | 0 <= k < |part|
      ensures b[pos + i + k] == part[k]
    {
      assert p[i + k] == part[k];
      assert b[pos + (i + k)] == p[i + k];
    }
  }

  lemma EncodeByte(x: byte)
    ensures Encode(x, 1) == [x]
  {
    assert Encode(x / 256, 0) == [];
  }

  lemma NoPadding(b: Buffer, n: nat)
    requires IsWidth(n) && |b| % n == 0
    ensures Prepped(b, n, 0) == b
  {
    assert Zeros(0) + b == b;
  }

  /** A scalar that follows an aligned one of at least its size needs no padding. */
  method PrependAligned(builder: Builder, x: nat, n: nat)
    requires builder.Valid() && IsWidth(n) && |builder.bytes| % n == 0
    modifies builder`bytes, builder`minalign
    ensures builder.Valid() && builder.bytes == Encode(x, n) + old(builder.bytes)
    ensures builder.minalign == if n > old(builder.minalign) then n else old(builder.minalign)
  {
    hide Encode;
    NoPadding(builder.bytes, n);
    builder.PrependScalar(x, n);
  }

  method PrependByte(builder: Builder, x: byte)
    requires builder.Valid()
    modifies builder`bytes, builder`minalign
    ensures builder.Valid() && builder.bytes == [x] + old(builder.bytes)
    ensures builder.minalign == old(builder.minalign)
  {
    EncodeByte(x);
    PrependAligned(builder, x, 1);
  }

  /** The second half of the block: cpu, gpu, memory and padding, written from its end. */
  function Tail(n: NodeInfo): (t: Buffer)
    requires InRange(n)
    ensures |t| == 16
  {
    Encode(ToUnsigned(n.cpu, 4), 4) + Encode(ToUnsigned(n.gpu, 4), 4) + [n.memory] + Zeros(7)
  }

  method WriteTail(builder: Builder, n: NodeInfo)
    requires builder.Valid() && InRange(n) && |builder.bytes| % 8 == 0 && builder.minalign == 8
    modifies builder`bytes, builder`minalign
    ensures builder.Valid() && builder.bytes == Tail(n) + old(builder.bytes) && builder.minalign == 8
  {
    hide *;
    TailIs(n);
    ghost var before, cpu, gpu := builder.bytes, ToUnsigned(n.cpu, 4), ToUnsigned(n.gpu, 4);
    TailAligned(|before|);
    builder.Pad(7);
    PrependByte(builder, n.memory);
    PrependAligned(builder, ToUnsigned(n.gpu, 4), 4);
    PrependAligned(builder, ToUnsigned(n.cpu, 4), 4);
    Reassociate(Encode(cpu, 4), Encode(gpu, 4), [n.memory], Zeros(7), before);
  }

  lemma TailIs(n: NodeInfo)
    requires InRange(n)
    ensures FitsSigned(n.cpu, 4) && FitsSigned(n.gpu, 4)
    ensures Tail(n) == Encode(ToUnsigned(n.cpu, 4), 4) + Encode(ToUnsigned(n.gpu, 4), 4) + [n.memory] + Zeros(7)
  {
    hide Encode, ToUnsigned, Zeros;
  }

  /** Behind the eight bytes of memory and padding, and four bytes later, four bytes are aligned. */
  lemma TailAligned(size: nat)
    requires size % 8 == 0
    ensures (size + 8) % 4 == 0 && (size + 12) % 4 == 0 && IsWidth(4)
  {
  }

  lemma Reassociate(a: Buffer, b: Buffer, c: Buffer, d: Buffer, e: Buffer)
    ensures a + (b + (c + (d + e))) == a + b + c + d + e
  {
  }

  method WriteHead(builder: Builder, n: NodeInfo)
    requires builder.Valid() && InRange(n) && |builder.bytes| % 8 == 0 && builder.minalign == 8
    modifies builder`bytes, builder`minalign
    ensures builder.Valid() && builder.minalign == 8
    ensures builder.bytes == Head(n) + Encode(ToUnsigned(n.latency, 8), 8) + old(builder.bytes)
  {
    hide Encode;
    PrependAligned(builder, ToUnsigned(n.latency, 8), 8);
    builder.Pad(5);
    PrependByte(builder, n.type_);
    PrependByte(builder, n.name);
    PrependByte(builder, n.id);
  }

  /**
   * CreateNodeInfo, from any state of the builder: an 8-aligned block of 32 bytes that
   * the getters read back, in front of the unchanged earlier contents.
   */
  method CreateNodeInfo(builder: Builder, n: NodeInfo) returns (o: nat)
    requires builder.Valid() && InRange(n)
    modifies builder`bytes, builder`minalign
    ensures builder.Valid() && o == |builder.bytes| && o % 8 == 0 && builder.minalign == 8
    ensures builder.bytes == Packed(n) + Prepped(old(builder.bytes), 8, 32)
    ensures Extends(builder.bytes, old(builder.bytes)) && |builder.bytes| < old(|builder.bytes|) + 40
    ensures ReadsAs(builder.bytes, |builder.bytes| - o, n)
  {
    hide Encode, Decode;
    builder.Prep(8, 32);
    ghost var p := builder.bytes;
    BlockAligned(|p|);
    WriteTail(builder, n);
    WriteHead(builder, n);
    o := |builder.bytes|;
    assert builder.bytes == Packed(n) + p;
    PackedReads(builder.bytes, 0, n);
  }

  lemma BlockAligned(size: nat)
    requires (size + 32) % 8 == 0
    ensures size % 8 == 0
  {
  }

  // ----- Mutators ---------------------------------------------------------------------------

  datatype Field = IdField | NameField | TypeField | LatencyField | CpuField | GpuField | MemoryField

  function Offset(f: Field): nat {
    match f
    case IdField => 0
    case NameField => 1
    case TypeField => 2
    case LatencyField => 8
    case CpuField => 16
    case GpuField => 20
    case MemoryField => 24
  }

  function Width(f: Field): nat {
    match f
    case LatencyField => 8
    case CpuField => 4
    case GpuField => 4
    case _ => 1
  }

  /** The values each mutator takes: a byte, an int32 or an int64. */
  predicate Accepts(f: Field, x: int) {
    match f
    case LatencyField => FitsSigned(x, 8)
    case CpuField => FitsSigned(x, 4)
    case GpuField => FitsSigned(x, 4)
    case _ => 0 <= x < 256
  }

  function With(n: NodeInfo, f: Field, x: int): NodeInfo
    requires Accepts(f, x)
  {
    match f
    case IdField => n.(id := x)
    case NameField => n.(name := x)
    case TypeField => n.(type_ := x)
    case LatencyField => n.(latency := x)
    case CpuField => n.(cpu := x)
    case GpuField => n.(gpu := x)
    case MemoryField => n.(memory := x)
  }

  function Pattern(f: Field, x: int): (p: Buffer)
    requires Accepts(f, x)
    ensures |p| == Width(f)
  {
    if Width(f) == 1 then [x] else Encode(ToUnsigned(x, Width(f)), Width(f))
  }

  /**
   * MutateId .. MutateMemory: the changed field reads as the new value, the other six
   * and every byte outside the field stay as they were.
   */
  method Mutate(a: array<byte>, pos: nat, f: Field, x: int, ghost n: NodeInfo)
    requires pos + 32 <= a.Length && Accepts(f, x) && ReadsAs(a[..], pos, n)
    modifies a
    ensures ReadsAs(a[..], pos, With(n, f, x))
    ensures forall i :: 0 <= i < a.Length && !(pos + Offset(f) <= i < pos + Offset(f) + Width(f)) ==> a[i] == old(a[i])
  {
    hide Encode, Decode, ReadLE;
    ghost var before := a[..];
    var p := Pattern(f, x);
    var at := pos + Offset(f);
    var i := 0;
    while i < |p|
      invariant 0 <= i <= |p|
      invariant forall k :: 0 <= k < a.Length && !(at <= k < at + i) ==> a[k] == before[k]
      invariant forall k :: 0 <= k < i ==> a[at + k] == p[k]
    {
      a[at + i] := p[i];
      i := i + 1;
    }
    MutatedReads(before, a[..], pos, f, x, n);
  }

  lemma MutatedReads(b: Buffer, b': Buffer, pos: nat, f: Field, x: int, n: NodeInfo)
    requires |b| == |b'| && pos + 32 <= |b| && Accepts(f, x) && ReadsAs(b, pos, n)
    requires Contains(b', pos + Offset(f), Pattern(f, x))
    requires forall i :: 0 <= i < |b| && !(pos + Offset(f) <= i < pos + Offset(f) + Width(f)) ==> b'[i] == b[i]
    ensures ReadsAs(b', pos, With(n, f, x))
  {
    hide Encode, Decode, Contains, ReadLE;
    if Width(f) == 1 {
      PatternByte(b', pos + Offset(f), x);
    } else {
      SignedRead(b', pos + Offset(f), x, Width(f));
    }
    SameField(b, b', pos, f, IdField);
    SameField(b, b', pos, f, NameField);
    SameField(b, b', pos, f, TypeField);
    SameField(b, b', pos, f, LatencyField);
    SameField(b, b', pos, f, CpuField);
    SameField(b, b', pos, f, GpuField);
    SameField(b, b', pos, f, MemoryField);
  }

  lemma PatternByte(b: Buffer, pos: nat, x: byte)
    requires Contains(b, pos, [x])
    ensures ReadLE(b, pos, 1) == Some(x)
  {
    ByteRead(b, pos);
    assert b[pos + 0] == [x][0];
  }

  lemma SameField(b: Buffer, b': Buffer, pos: nat, f: Field, g: Field)
    requires |b| == |b'| && pos + 32 <= |b|
    requires forall i :: 0 <= i < |b| && !(pos + Offset(f) <= i < pos + Offset(f) + Width(f)) ==> b'[i] == b[i]
    ensures g != f ==> ReadLE(b', pos + Offset(g), Width(g)) == ReadLE(b, pos + Offset(g), Width(g))
  {
    if g != f {
      DecodeSame(b', pos + Offset(g), b, pos + Offset(g), Width(g));
    }
  }
}
