/**
 * A stored file holds a whole frame, a received message only its body. Both readers see
 * the same message, for every body that can be read at all.
 */
module FrameViews {
  import opened Wrappers
  import opened LittleEndian
  import opened FlatBuffers
  import opened DomainDataWire

  lemma IndirectExtended(b': Buffer, b: Buffer, pos: int)
    requires Extends(b', b) && Indirect(b, pos).Some?
    ensures Indirect(b', |b'| - |b| + pos) == Some(|b'| - |b| + Indirect(b, pos).value)
  {
    ReadExtended(b', b, pos, 4);
  }

  lemma SliceExtended(b': Buffer, b: Buffer, lo: int, hi: int)
    requires Extends(b', b) && 0 <= lo <= hi <= |b|
    ensures b'[|b'| - |b| + lo..|b'| - |b| + hi] == b[lo..hi]
  {
  }

  lemma ByteFieldExtended(b': Buffer, b: Buffer, pos: int, entry: nat)
    requires Extends(b', b) && ByteField(b, pos, entry).Some?
    ensures ByteField(b', |b'| - |b| + pos, entry) == ByteField(b, pos, entry)
  {
    hide ReadLE, FieldOffset, Indirect, Contains;
    FieldOffsetExtended(b', b, pos, entry);
    var o := FieldOffset(b, pos, entry).value;
    if o != 0 {
      IndirectExtended(b', b, pos + o);
      var p := Indirect(b, pos + o).value;
      LengthExtended(b', b, p);
      SliceExtended(b', b, p + 4, p + 4 + ReadLE(b, p, 4).value);
    }
  }

  lemma LengthExtended(b': Buffer, b: Buffer, p: int)
    requires Extends(b', b) && ReadLE(b, p, 4).Some?
    ensures ReadLE(b', |b'| - |b| + p, 4) == ReadLE(b, p, 4)
    ensures 0 <= p && p + 4 <= |b| && |b| <= |b'|
  {
    ReadExtended(b', b, p, 4);
  }

  lemma ScalarFieldExtended(b': Buffer, b: Buffer, pos: int, entry: nat, n: nat)
    requires Extends(b', b) && ScalarField(b, pos, entry, n).Some?
    ensures ScalarField(b', |b'| - |b| + pos, entry, n) == ScalarField(b, pos, entry, n)
  {
    hide FieldOffset, Contains;
    FieldOffsetExtended(b', b, pos, entry);
    var o := FieldOffset(b, pos, entry).value;
    if o != 0 {
      ReadExtended(b', b, pos + o, n);
    }
  }

  lemma BitsExtended(b': Buffer, b: Buffer, pos: int)
    requires Extends(b', b) && Bits(b, pos).Some?
    ensures Bits(b', |b'| - |b| + pos) == Bits(b, pos)
  {
    hide ReadLE, FieldOffset, Indirect, Contains;
    FieldOffsetExtended(b', b, pos, 4);
    var o := FieldOffset(b, pos, 4).value;
    if o != 0 {
      IndirectExtended(b', b, pos + o);
      var p := Indirect(b, pos + o).value;
      LengthExtended(b', b, p);
      SliceExtended(b', b, p + 4, p + 4 + ReadLE(b, p, 4).value);
    }
  }

  lemma GetPartitionExtended(b': Buffer, b: Buffer, pos: int)
    requires Extends(b', b) && GetPartition(b, pos).Some?
    ensures GetPartition(b', |b'| - |b| + pos) ==
      Some(if GetPartition(b, pos).value.None? then None else Some(|b'| - |b| + GetPartition(b, pos).value.value))
  {
    hide ReadLE, FieldOffset, Indirect, Contains, ScalarField;
    ScalarFieldExtended(b', b, pos, 14, 1);
    FieldOffsetExtended(b', b, pos, 16);
    var o := FieldOffset(b, pos, 16).value;
    if o != 0 {
      IndirectExtended(b', b, pos + o);
    }
  }

  lemma ParseExtended(b': Buffer, b: Buffer, pos: int)
    requires Extends(b', b) && Parse(b, pos).Some?
    ensures Parse(b', |b'| - |b| + pos) == Parse(b, pos)
  {
    hide ReadLE, ScalarField, ByteField, GetPartition, Bits, Contains;
    ScalarFieldExtended(b', b, pos, 4, 4);
    ByteFieldExtended(b', b, pos, 8);
    ByteFieldExtended(b', b, pos, 10);
    ByteFieldExtended(b', b, pos, 12);
    ScalarFieldExtended(b', b, pos, 14, 1);
    GetPartitionExtended(b', b, pos);
    if p :| GetPartition(b, pos) == Some(Some(p)) {
      BitsExtended(b', b, p);
    }
  }

  /** What is written to a file reads like what was received. */
  lemma FrameLikeBody(header: Buffer, body: Buffer)
    requires |header| == 4 && ParseBody(body).Some?
    ensures ParseFrame(header + body) == ParseBody(body)
  {
    hide ReadLE, Parse;
    var f := header + body;
    LengthExtended(f, body, 0);
    ParseExtended(f, body, Root(body, 0).value);
  }
}
