/**
 * The builder object behind every generated writer. `bytes` is the finished part of
 * its buffer; every call prepends to it. Each method is tied to the function of
 * module FlatBuffers that says what it prepends.
 */
module FlatBufferBuilder {
  import opened LittleEndian
  import opened FlatBuffers

  lemma Prepend3(a: Buffer, b: Buffer, c: Buffer, rest: Buffer)
    ensures a + (b + (c + rest)) == (a + b + c) + rest
  {
  }

  lemma PatchMiddle(v: Buffer, dummy: Buffer, p: Buffer, e: Buffer)
    requires |dummy| == |e|
    ensures var b := v + (dummy + p); b[..|v|] + e + b[|v| + |e|..] == v + e + p
  {
    var b := v + (dummy + p);
    assert b[..|v|] == v;
    assert b[|v| + |e|..] == p;
  }

  class Builder {
    var bytes: Buffer
    var minalign: nat
    var vtable: seq<nat>   // slot -> offset of its field from the end, 0 while unset
    var objectEnd: nat     // number of bytes built when the open object was started
    var nested: bool       // inside an object, a vector or a string

    ghost predicate Valid()
      reads this
    {
      && IsWidth(minalign) && objectEnd <= |bytes|
      && forall i :: 0 <= i < |vtable| ==> vtable[i] == 0 || objectEnd < vtable[i] <= |bytes|
    }

    constructor ()
      ensures Valid() && bytes == [] && minalign == 1 && vtable == [] && !nested
    {
      bytes, minalign, vtable, objectEnd, nested := [], 1, [], 0, false;
    }

    method Pad(n: nat)
      requires Valid()
      modifies `bytes
      ensures Valid() && bytes == Zeros(n) + old(bytes)
    {
      var i := 0;
      while i < n
        invariant i <= n && Valid() && bytes == Zeros(i) + old(bytes)
      {
        bytes := [0] + bytes;
        i := i + 1;
      }
    }

    method Prep(align: nat, additional: nat)
      requires Valid() && IsWidth(align)
      modifies `bytes, `minalign
      ensures Valid() && bytes == Prepped(old(bytes), align, additional)
      ensures minalign == if align > old(minalign) then align else old(minalign)
    {
      if align > minalign {
        minalign := align;
      }
      Pad(Padding(|bytes| + additional, align));
    }

    method PrependScalar(x: nat, n: nat)
      requires Valid() && IsWidth(n)
      modifies `bytes, `minalign
      ensures Valid() && bytes == WithScalar(old(bytes), x, n)
      ensures minalign == if n > old(minalign) then n else old(minalign)
    {
      Prep(n, 0);
      bytes := Encode(x, n) + bytes;
    }

    method PrependUOffset(x: nat)
      requires Valid() && x <= |bytes|
      modifies `bytes, `minalign
      ensures Valid() && bytes == WithRef(old(bytes), x)
      ensures minalign == if 4 > old(minalign) then 4 else old(minalign)
    {
      Prep(4, 0);
      bytes := Encode(|bytes| - x + 4, 4) + bytes;
    }

    method StartVector(elemSize: nat, count: nat, align: nat)
      requires Valid() && !nested && IsWidth(align)
      modifies `bytes, `minalign, `nested
      ensures Valid() && nested
      ensures bytes == Prepped(Prepped(old(bytes), 4, elemSize * count), align, elemSize * count)
      ensures align <= 4 ==> minalign == if 4 > old(minalign) then 4 else old(minalign)
    {
      nested := true;
      Prep(4, elemSize * count);
      Prep(align, elemSize * count);
    }

    method EndVector(count: nat) returns (o: nat)
      requires Valid() && nested
      modifies `bytes, `nested
      ensures Valid() && !nested && bytes == Encode(count, 4) + old(bytes) && o == |bytes|
    {
      bytes := Encode(count, 4) + bytes;
      nested := false;
      o := |bytes|;
    }

    /** CreateString and CreateByteString: the bytes and a closing zero. */
    method CreateString(s: Buffer) returns (o: nat)
      requires Valid() && !nested
      modifies `bytes, `minalign, `nested
      ensures Valid() && !nested && bytes == WithString(old(bytes), s) && o == |bytes|
      ensures minalign == if 4 > old(minalign) then 4 else old(minalign)
    {
      nested := true;
      Prep(4, |s| + 1);
      ghost var p := bytes;
      bytes := [0] + bytes;
      bytes := s + bytes;
      assert bytes == s + [0] + p;
      o := EndVector(|s|);
    }

    method CreateByteVector(v: Buffer) returns (o: nat)
      requires Valid() && !nested
      modifies `bytes, `minalign, `nested
      ensures Valid() && !nested && bytes == WithByteVector(old(bytes), v) && o == |bytes|
      ensures minalign == if 4 > old(minalign) then 4 else old(minalign)
    {
      nested := true;
      Prep(4, |v|);
      bytes := v + bytes;
      o := EndVector(|v|);
    }

    method StartObject(fields: nat)
      requires Valid() && !nested
      modifies `vtable, `objectEnd, `nested
      ensures Valid() && nested && vtable == seq(fields, _ => 0) && objectEnd == |bytes|
    {
      nested := true;
      vtable := seq(fields, _ => 0);
      objectEnd := |bytes|;
    }

    /** A scalar field, left out of the buffer when it has its default. */
    method PrependScalarSlot(slot: nat, x: nat, default: nat, n: nat)
      requires Valid() && nested && slot < |vtable| && IsWidth(n)
      modifies `bytes, `minalign, `vtable
      ensures Valid()
      ensures x == default ==> bytes == old(bytes) && vtable == old(vtable) && minalign == old(minalign)
      ensures x != default ==>
        && bytes == WithScalar(old(bytes), x, n) && vtable == old(vtable)[slot := |bytes|]
        && minalign == if n > old(minalign) then n else old(minalign)
    {
      if x != default {
        PrependScalar(x, n);
        vtable := vtable[slot := |bytes|];
      }
    }

    method PrependUOffsetSlot(slot: nat, x: nat, default: nat)
      requires Valid() && nested && slot < |vtable| && x <= |bytes|
      modifies `bytes, `minalign, `vtable
      ensures Valid()
      ensures x == default ==> bytes == old(bytes) && vtable == old(vtable) && minalign == old(minalign)
      ensures x != default ==>
        && bytes == WithRef(old(bytes), x) && vtable == old(vtable)[slot := |bytes|]
        && minalign == if 4 > old(minalign) then 4 else old(minalign)
    {
      if x != default {
        PrependUOffset(x);
        vtable := vtable[slot := |bytes|];
      }
    }

    method PrependVOffset(x: nat)
      requires Valid() && |bytes| % 2 == 0
      modifies `bytes, `minalign
      ensures Valid() && bytes == Encode(x, 2) + old(bytes)
      ensures minalign == if 2 > old(minalign) then 2 else old(minalign)
    {
      Prep(2, 0);
      assert bytes == old(bytes);
      bytes := Encode(x, 2) + bytes;
    }

    /** The used slots as distances from the table, written from the last to the first. */
    method WriteEntries(used: seq<nat>, t: nat)
      requires Valid() && |bytes| % 2 == 0 && minalign >= 2
      modifies `bytes, `minalign
      ensures Valid() && minalign == old(minalign)
      ensures bytes == Encode16s(Entries(used, t)) + old(bytes)
    {
      ghost var es := Entries(used, t);
      var i := |used|;
      while i > 0
        invariant 0 <= i <= |used| && Valid() && minalign == old(minalign)
        invariant bytes == Encode16s(es[i..]) + old(bytes)
      {
        var field := used[i - 1];
        var entry := if field == 0 || t < field then 0 else t - field;
        assert es[i - 1..] == [es[i - 1]] + es[i..];
        PrependVOffset(entry);
        i := i - 1;
      }
      assert es[0..] == es;
    }

    /** The entries, then the size of the object, then the size of the vtable itself. */
    method WriteVtable(used: seq<nat>, t: nat, size: nat)
      requires Valid() && |bytes| % 2 == 0 && minalign >= 2
      modifies `bytes, `minalign
      ensures Valid() && minalign == old(minalign)
      ensures bytes == (Encode(4 + 2 * |used|, 2) + Encode(size, 2) + Encode16s(Entries(used, t))) + old(bytes)
    {
      WriteEntries(used, t);
      PrependVOffset(size);
      PrependVOffset(4 + 2 * |used|);
      Prepend3(Encode(4 + 2 * |used|, 2), Encode(size, 2), Encode16s(Entries(used, t)), old(bytes));
    }

    /** Overwrites the four bytes at offset t from the end. */
    method Patch(t: nat, x: nat)
      requires Valid() && 4 <= t <= |bytes|
      modifies `bytes
      ensures Valid() && |bytes| == old(|bytes|)
      ensures bytes == old(bytes)[..|bytes| - t] + Encode(x, 4) + old(bytes)[|bytes| - t + 4..]
    {
      var at := |bytes| - t;
      bytes := bytes[..at] + Encode(x, 4) + bytes[at + 4..];
    }

    /** Writes a dummy reference, the vtable in front of it, and then patches the reference. */
    method WriteTable(slots: seq<nat>, start: nat)
      requires Valid() && start <= |bytes|
      modifies `bytes, `minalign
      ensures Valid() && bytes == WithTable(old(bytes), slots, start)
      ensures minalign == if 4 > old(minalign) then 4 else old(minalign)
    {
      hide Encode, Encode16s, Entries, Trimmed, Padding, Zeros;
      ghost var p := Prepped(bytes, 4, 0);
      PrependUOffset(0);
      var t := |bytes|;
      ghost var v, dummy := Vtable(slots, t, start), bytes[..4];
      assert bytes == dummy + p;
      WriteVtable(Trimmed(slots), t, t - start);
      assert bytes == v + (dummy + p);
      Patch(t, |bytes| - t);
      PatchMiddle(v, dummy, p, Encode(|v|, 4));
      assert bytes == v + Encode(|v|, 4) + p;
    }

    method EndObject() returns (t: nat)
      requires Valid() && nested
      modifies `bytes, `minalign, `vtable, `nested
      ensures Valid() && !nested && vtable == []
      ensures bytes == WithTable(old(bytes), old(vtable), old(objectEnd)) && t == TableOffset(old(bytes))
      ensures minalign == if 4 > old(minalign) then 4 else old(minalign)
    {
      t := TableOffset(bytes);
      WriteTable(vtable, objectEnd);
      vtable, nested := [], false;
    }

    method FinishSizePrefixed(root: nat)
      requires Valid() && !nested && root <= |bytes|
      modifies `bytes, `minalign
      ensures Valid() && bytes == Finished(old(bytes), root, old(minalign))
    {
      Prep(minalign, 8);
      PrependUOffset(root);
      bytes := Encode(|bytes|, 4) + bytes;
    }
  }
}
