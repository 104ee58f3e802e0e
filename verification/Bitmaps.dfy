/** Bitwise OR of partition bitmaps, and what a store that merges uploads ends up holding. */
module Bitmaps {

  type Bitmap = seq<bool>

  function Or(a: Bitmap, b: Bitmap): (r: Bitmap)
    requires |a| == |b|
    ensures |r| == |a|
    ensures forall i :: 0 <= i < |r| ==> r[i] == (a[i] || b[i])
  {
    seq(|a|, i requires 0 <= i < |a| => a[i] || b[i])
  }

  /** mergePartitions: p1 takes on the bits of p2, unless their lengths differ. */
  function Merge(p1: Bitmap, p2: Bitmap): (r: Bitmap)
    ensures |r| == |p1|
  {
    if |p1| == |p2| then Or(p1, p2) else p1
  }

  /** Bit i of p1 merged with every bitmap of files, whatever their lengths and order. */
  ghost predicate MergedBit(p1: Bitmap, files: seq<Bitmap>, i: nat)
    requires i < |p1|
  {
    p1[i] || exists k :: 0 <= k < |files| && |files[k]| == |p1| && files[k][i]
  }

  function MergeAll(p1: Bitmap, files: seq<Bitmap>): (r: Bitmap)
    ensures |r| == |p1|
    decreases |files|
  {
    if files == [] then p1 else MergeAll(Merge(p1, files[0]), files[1..])
  }

  lemma {:induction false} MergeAllBits(p1: Bitmap, files: seq<Bitmap>, i: nat)
    requires i < |p1|
    ensures MergeAll(p1, files)[i] <==> MergedBit(p1, files, i)
    decreases |files|
  {
    if files != [] {
      var next, rest := Merge(p1, files[0]), files[1..];
      MergeAllBits(next, rest, i);
      if MergedBit(next, rest, i) && !next[i] {
        var k :| 0 <= k < |rest| && |rest[k]| == |next| && rest[k][i];
        assert files[k + 1] == rest[k];
      }
      if MergedBit(p1, files, i) && !p1[i] {
        var k :| 0 <= k < |files| && |files[k]| == |p1| && files[k][i];
        if k > 0 {
          assert rest[k - 1] == files[k];
        }
      }
    }
  }

  /** The merge loop may visit the files of a directory in any order and repetition. */
  lemma MergeAllOrderIrrelevant(p1: Bitmap, files: seq<Bitmap>, files': seq<Bitmap>)
    requires forall f :: f in files <==> f in files'
    ensures MergeAll(p1, files) == MergeAll(p1, files')
  {
    forall i | 0 <= i < |p1|
      ensures MergeAll(p1, files)[i] == MergeAll(p1, files')[i]
    {
      MergeAllBits(p1, files, i);
      MergeAllBits(p1, files', i);
      if k :| 0 <= k < |files| && |files[k]| == |p1| && files[k][i] {
        assert files[k] in files';
      }
      if k :| 0 <= k < |files'| && |files'[k]| == |p1| && files'[k][i] {
        assert files'[k] in files;
      }
    }
  }

  // ----- A sequence of uploads to one key ---------------------------------------------

  /** The next stored bitmap: the upload merged with what was stored, if anything was. */
  function Store(stored: seq<Bitmap>, upload: Bitmap): (r: seq<Bitmap>)
    requires |stored| <= 1
    ensures |r| == 1
  {
    [if stored == [] then upload else Merge(upload, stored[0])]
  }

  function Run(uploads: seq<Bitmap>): (r: seq<Bitmap>)
    ensures |r| == if uploads == [] then 0 else 1
  {
    if uploads == [] then [] else Store(Run(uploads[..|uploads| - 1]), uploads[|uploads| - 1])
  }

  predicate SameLength(us: seq<Bitmap>, n: nat) {
    forall i :: 0 <= i < |us| ==> |us[i]| == n
  }

  /** The longest suffix whose uploads all have the length of the last one starts at k. */
  predicate IsLongestSuffix(us: seq<Bitmap>, k: nat)
    requires us != []
  {
    var n := |us[|us| - 1]|;
    k < |us| && SameLength(us[k..], n) && (k == 0 || |us[k - 1]| != n)
  }

  /** Bit i of the OR of us. */
  ghost predicate AnyBit(us: seq<Bitmap>, i: nat) {
    exists k :: 0 <= k < |us| && i < |us[k]| && us[k][i]
  }

  /** r is the bitwise OR of us, all of length n. */
  ghost predicate IsOr(r: Bitmap, us: seq<Bitmap>, n: nat) {
    |r| == n && forall i :: 0 <= i < n ==> (r[i] <==> AnyBit(us, i))
  }

  lemma OrStep(r: Bitmap, us: seq<Bitmap>, u: Bitmap)
    requires IsOr(r, us, |u|)
    ensures IsOr(Merge(u, r), us + [u], |u|)
  {
    forall i | 0 <= i < |u|
      ensures Merge(u, r)[i] <==> AnyBit(us + [u], i)
    {
      if r[i] {
        var k :| 0 <= k < |us| && i < |us[k]| && us[k][i];
        assert (us + [u])[k] == us[k];
      }
      if u[i] {
        assert (us + [u])[|us|] == u;
      }
      if AnyBit(us + [u], i) && !u[i] {
        var k :| 0 <= k < |us + [u]| && i < |(us + [u])[k]| && (us + [u])[k][i];
        assert us[k] == (us + [u])[k];
      }
    }
  }

  /**
   * Suffix law. After any run of uploads exactly one bitmap is stored: the OR of the
   * longest suffix of uploads as long as the last one. A change of length forgets
   * everything before it.
   */
  lemma {:induction false} SuffixLaw(us: seq<Bitmap>, k: nat)
    requires us != [] && IsLongestSuffix(us, k)
    ensures |Run(us)| == 1 && IsOr(Run(us)[0], us[k..], |us[|us| - 1]|)
  {
    hide Merge, SameLength, IsOr;
    var m := |us| - 1;
    var init, last := us[..m], us[m];
    if k == m {
      assert us[k..] == [last];
      OrOfOne(last);
      if init != [] {
        LongestSuffixExists(init);
        var j: nat :| IsLongestSuffix(init, j);
        SuffixLaw(init, j);
        OrSize(Run(init)[0], init[j..], |init[m - 1]|);
        MergeOther(last, Run(init)[0]);
      }
    } else {
      SuffixOfInit(us, k);
      SuffixLaw(init, k);
      OrStep(Run(init)[0], init[k..], last);
    }
  }

  lemma OrSize(r: Bitmap, us: seq<Bitmap>, n: nat)
    requires IsOr(r, us, n)
    ensures |r| == n
  {
  }

  lemma MergeOther(p1: Bitmap, p2: Bitmap)
    ensures |p1| != |p2| ==> Merge(p1, p2) == p1
  {
  }

  lemma OrOfOne(u: Bitmap)
    ensures IsOr(u, [u], |u|)
  {
    assert [u][0] == u;
  }

  /** The longest suffix of one length starts at the same place without its last upload. */
  lemma SuffixOfInit(us: seq<Bitmap>, k: nat)
    requires us != [] && IsLongestSuffix(us, k) && k < |us| - 1
    ensures var init := us[..|us| - 1];
      IsLongestSuffix(init, k) && init[k..] + [us[|us| - 1]] == us[k..] && |init[|init| - 1]| == |us[|us| - 1]|
  {
    var m := |us| - 1;
    assert us[k..][m - 1 - k] == us[m - 1];
    assert us[..m][k..] == us[k..][..m - k];
  }

  lemma {:induction false} LongestSuffixExists(us: seq<Bitmap>)
    requires us != []
    ensures exists k: nat :: IsLongestSuffix(us, k)
  {
    var n := |us[|us| - 1]|;
    var k := |us| - 1;
    while k > 0 && |us[k - 1]| == n
      invariant 0 <= k < |us| && SameLength(us[k..], n)
    {
      assert us[k - 1..] == [us[k - 1]] + us[k..];
      k := k - 1;
    }
    assert IsLongestSuffix(us, k);
  }

  lemma AnyBitOfSame(us: seq<Bitmap>, vs: seq<Bitmap>, i: nat)
    requires forall b :: b in us <==> b in vs
    ensures AnyBit(us, i) <==> AnyBit(vs, i)
  {
    if x :| 0 <= x < |us| && i < |us[x]| && us[x][i] {
      assert us[x] in vs;
    }
    if x :| 0 <= x < |vs| && i < |vs[x]| && vs[x][i] {
      assert vs[x] in us;
    }
  }

  lemma OrsEqual(r: Bitmap, us: seq<Bitmap>, s: Bitmap, vs: seq<Bitmap>, n: nat)
    requires IsOr(r, us, n) && IsOr(s, vs, n) && forall b :: b in us <==> b in vs
    ensures r == s
  {
    forall i | 0 <= i < n
      ensures r[i] == s[i]
    {
      AnyBitOfSame(us, vs, i);
    }
  }

  /**
   * Convergence. Two stores whose last equal-length stretches contain the same bitmaps,
   * in any order and with any repetition, hold the same bitmap.
   */
  lemma Convergence(us: seq<Bitmap>, j: nat, vs: seq<Bitmap>, k: nat)
    requires us != [] && vs != [] && IsLongestSuffix(us, j) && IsLongestSuffix(vs, k)
    requires forall b :: b in us[j..] <==> b in vs[k..]
    ensures Run(us) == Run(vs)
  {
    hide IsOr, Store;
    SuffixLaw(us, j);
    SuffixLaw(vs, k);
    var n := |us[|us| - 1]|;
    assert us[|us| - 1] == us[j..][|us| - 1 - j];
    assert us[|us| - 1] in vs[k..];
    OrsEqual(Run(us)[0], us[j..], Run(vs)[0], vs[k..], n);
  }

  /** The usual case of Convergence: all uploads of one length, equal as sets. */
  lemma ConvergenceOfEqualLengths(us: seq<Bitmap>, vs: seq<Bitmap>, n: nat)
    requires us != [] && SameLength(us, n) && SameLength(vs, n)
    requires forall b :: b in us <==> b in vs
    ensures Run(us) == Run(vs)
  {
    assert us[0] in vs;
    assert us[0..] == us && vs[0..] == vs;
    Convergence(us, 0, vs, 0);
  }

  /** While the length stays the same, no stored bit ever clears. */
  lemma StoreMonotone(stored: Bitmap, upload: Bitmap)
    ensures var next := Store([stored], upload)[0];
      && (|upload| == |stored| ==> forall i :: 0 <= i < |stored| && stored[i] ==> next[i])
      && (|upload| != |stored| ==> next == upload)
  {
  }
}
