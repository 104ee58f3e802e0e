/** The directories of a data node as values, and what a sequence of uploads makes of them. */
module PartitionStore {
  import opened Wrappers
  import opened LittleEndian
  import opened DomainDataWire
  import opened Bitmaps
  import opened DirectoryKeys
  import S = Subscribers

  datatype Entry = File(content: Buffer) | SubDirectory

  type Directory = map<string, Entry>

  /** The key directories of the node. */
  type Directories = map<Path, Directory>

  /** Go's string(bytes). */
  function Text(b: Buffer): (s: string)
    ensures |s| == |b|
    ensures forall i :: 0 <= i < |s| ==> s[i] == b[i] as char
  {
    seq(|b|, i requires 0 <= i < |b| => b[i] as char)
  }

  lemma TextInjective(a: Buffer, b: Buffer)
    requires Text(a) == Text(b)
    ensures a == b
  {
    assert |a| == |b|;
    forall i | 0 <= i < |a|
      ensures a[i] == b[i]
    {
      assert Text(a)[i] == Text(b)[i];
    }
  }

  /** A relative path as the string that subscriber patterns are matched against. */
  function PathText(p: Path): string {
    if p == [] then "" else if |p| == 1 then p[0] else p[0] + "/" + PathText(p[1..])
  }

  lemma {:induction false} PathTextMore(p: Path, x: string)
    requires p != []
    ensures PathText(p + [x]) == PathText(p) + "/" + x
  {
    assert (p + [x])[1..] == p[1..] + [x];
    if |p| > 1 {
      PathTextMore(p[1..], x);
      assert PathText(p + [x]) == p[0] + "/" + (PathText(p[1..]) + "/" + x);
    } else {
      assert p[1..] + [x] == [x];
    }
  }

  predicate NoSlashes(p: Path) {
    forall i :: 0 <= i < |p| ==> '/' !in p[i]
  }

  /** The text has all segments in it: cut at the slashes, it is the path again. */
  lemma {:induction false} SplitPathText(p: Path)
    requires p != [] && NoSlashes(p)
    ensures Split(PathText(p)) == p
  {
    SplitPlain(p[0]);
    if |p| > 1 {
      SplitPathText(p[1..]);
      SplitJoined(p[0], PathText(p[1..]));
      assert p == [p[0]] + p[1..];
    }
  }

  /** Different keys have different texts: a push is matched against one directory only. */
  lemma DirTextInjective(base: Path, d1: string, n1: string, t1: nat, d2: string, n2: string, t2: nat)
    requires CleanPath(base) && Plain(d1) && '/' !in n1 && Plain(d2) && '/' !in n2
    requires PathText(DirPath(base, d1, n1, t1)) == PathText(DirPath(base, d2, n2, t2))
    ensures d1 == d2 && n1 == n2 && t1 == t2
  {
    hide PathText, Plain, Split;
    PathSlashless(base, d1, n1, t1);
    PathSlashless(base, d2, n2, t2);
    SplitPathText(DirPath(base, d1, n1, t1));
    SplitPathText(DirPath(base, d2, n2, t2));
    DirPathInjective(base, d1, n1, t1, d2, n2, t2);
  }

  lemma PathSlashless(base: Path, domain: string, name: string, t: nat)
    requires CleanPath(base) && Plain(domain) && '/' !in name
    ensures var p := DirPath(base, domain, name, t); p != [] && NoSlashes(p)
  {
    hide LastSegment, DirPath;
    DirPathShape(base, domain, name, t);
    LastSegmentPlain(name, t);
    var head := DomainSegments(base, domain);
    forall i | 0 <= i < |head|
      ensures '/' !in head[i]
    {
      if i < |base| {
        assert head[i] == base[i];
      }
    }
  }

  /** The text of a key's directory, spelled out. */
  lemma DirTextIs(base: Path, domain: string, name: string, t: nat)
    requires CleanPath(base) && base != [] && Plain(domain) && '/' !in name
    ensures PathText(DirPath(base, domain, name, t)) ==
      PathText(base) + "/" + "domaindata" + "/" + domain + "/" + LastSegment(name, t)
  {
    hide LastSegment, PathText, DirPath, CleanPath;
    DirPathShape(base, domain, name, t);
    PathTextMore(base, "domaindata");
    PathTextMore(base + ["domaindata"], domain);
    assert base + ["domaindata"] + [domain] == base + ["domaindata", domain];
    PathTextMore(base + ["domaindata", domain], LastSegment(name, t));
  }

  /** The base path a data node is started with. */
  lemma BaseText(node: string)
    ensures PathText(["..", "..", "volume", node]) == "../../volume/" + node
  {
    assert ["..", "..", "volume", node][1..] == ["..", "volume", node];
    assert ["..", "volume", node][1..] == ["volume", node] && ["volume", node][1..] == [node];
    assert PathText(["volume", node]) == "volume/" + node;
    assert PathText(["..", "volume", node]) == "../volume/" + node;
  }

  function MessagePath(base: Path, m: DomainData): Path {
    DirPath(base, Text(m.domainId), Text(m.name), m.dataType)
  }

  // ----- Files ----------------------------------------------------------------------------

  /** Reading the file does not panic. */
  predicate Readable(e: Entry) {
    e.File? ==> ParseFrame(e.content).Some?
  }

  /** The bitmap in a file that holds a partition message. */
  function FileBits(e: Entry): Option<Bitmap> {
    if e.SubDirectory? then None
    else
      var m :- ParseFrame(e.content);
      m.bits
  }

  /** The bitmaps of the files among names, in that order. */
  function BitmapsOf(d: Directory, names: seq<string>): seq<Bitmap>
    requires forall n :: n in names ==> n in d
  {
    if names == [] then []
    else
      var rest := BitmapsOf(d, names[1..]);
      if FileBits(d[names[0]]).Some? then [FileBits(d[names[0]]).value] + rest else rest
  }

  /** r is bits merged with every file of d, whatever the order the files are listed in. */
  ghost predicate IsMerge(r: Bitmap, bits: Bitmap, d: Directory) {
    && |r| == |bits|
    && forall i :: 0 <= i < |r| ==> (r[i] <==> bits[i] || SetInFile(d, |bits|, i))
  }

  ghost predicate SetInFile(d: Directory, size: nat, i: nat) {
    exists n :: n in d && FileBits(d[n]).Some? && |FileBits(d[n]).value| == size && i < size && FileBits(d[n]).value[i]
  }

  lemma {:induction false} BitmapsOfMember(d: Directory, names: seq<string>, b: Bitmap)
    requires forall n :: n in names ==> n in d
    ensures b in BitmapsOf(d, names) <==> exists n :: n in names && FileBits(d[n]) == Some(b)
  {
    hide FileBits;
    if names != [] {
      assert names == [names[0]] + names[1..];
      BitmapsOfMember(d, names[1..], b);
    }
  }

  lemma MergeOfListing(d: Directory, names: seq<string>, bits: Bitmap)
    requires forall n :: n in names <==> n in d
    ensures IsMerge(MergeAll(bits, BitmapsOf(d, names)), bits, d)
  {
    hide FileBits;
    var files := BitmapsOf(d, names);
    forall i | 0 <= i < |bits|
      ensures MergeAll(bits, files)[i] <==> bits[i] || SetInFile(d, |bits|, i)
    {
      MergeAllBits(bits, files, i);
      if k :| 0 <= k < |files| && |files[k]| == |bits| && files[k][i] {
        BitmapsOfMember(d, names, files[k]);
      }
      if SetInFile(d, |bits|, i) {
        var n :| n in d && FileBits(d[n]).Some? && |FileBits(d[n]).value| == |bits| && FileBits(d[n]).value[i];
        BitmapsOfMember(d, names, FileBits(d[n]).value);
      }
    }
  }

  // ----- What is stored -----------------------------------------------------------------------

  ghost predicate IsPartitionDir(p: Path) {
    |p| > 0 && exists name :: p[|p| - 1] == LastSegment(name, PARTITION)
  }

  /** Exactly one file, and it holds a partition. */
  ghost predicate Settled(d: Directory) {
    exists n :: SoleFile(d, n)
  }

  ghost predicate SoleFile(d: Directory, n: string) {
    d.Keys == {n} && FileBits(d[n]).Some?
  }

  ghost function StoredBits(d: Directory): Bitmap
    requires Settled(d)
  {
    var n :| SoleFile(d, n);
    FileBits(d[n]).value
  }

  lemma SoleFileUnique(d: Directory, m: string, n: string)
    requires SoleFile(d, m) && SoleFile(d, n)
    ensures m == n
  {
    assert n in d.Keys;
  }

  lemma StoredBitsOf(d: Directory, n: string)
    requires SoleFile(d, n)
    ensures Settled(d) && StoredBits(d) == FileBits(d[n]).value
  {
    hide FileBits;
    var m :| SoleFile(d, m) && StoredBits(d) == FileBits(d[m]).value;
    SoleFileUnique(d, m, n);
  }

  /** What every partition directory must look like between uploads. */
  ghost predicate AllSettled(dirs: Directories) {
    forall p :: p in dirs && IsPartitionDir(p) ==> Settled(dirs[p])
  }

  /** The store as its users see it: one bitmap per partition directory. */
  ghost function View(dirs: Directories): map<Path, Bitmap>
    requires AllSettled(dirs)
  {
    map p | p in dirs && IsPartitionDir(p) :: StoredBits(dirs[p])
  }

  function Stored(view: map<Path, Bitmap>, p: Path): (r: seq<Bitmap>)
    ensures |r| <= 1
  {
    if p in view then [view[p]] else []
  }

  /** A partition message as the store sees it: a directory and a bitmap. */
  datatype Upload = Upload(dir: Path, bits: Bitmap)

  function Ingest(view: map<Path, Bitmap>, u: Upload): map<Path, Bitmap> {
    view[u.dir := Store(Stored(view, u.dir), u.bits)[0]]
  }

  function IngestAll(view: map<Path, Bitmap>, us: seq<Upload>): map<Path, Bitmap>
    decreases |us|
  {
    if us == [] then view else IngestAll(Ingest(view, us[0]), us[1..])
  }

  /** The bitmaps uploaded to one directory, in order. */
  function UploadsTo(us: seq<Upload>, p: Path): seq<Bitmap> {
    if us == [] then []
    else (if us[0].dir == p then [us[0].bits] else []) + UploadsTo(us[1..], p)
  }

  lemma IngestedRun(view: map<Path, Bitmap>, u: Upload, p: Path, before: seq<Bitmap>, one: seq<Bitmap>)
    requires Stored(view, p) == Run(before) && one == if u.dir == p then [u.bits] else []
    ensures Stored(Ingest(view, u), p) == Run(before + one)
  {
    hide Merge;
    if u.dir == p {
      assert (before + one)[..|before|] == before;
    } else {
      assert before + one == before;
    }
  }

  /** Each directory ends up with the run of its own uploads, after what it held before. */
  lemma {:induction false} IngestIsRun(view: map<Path, Bitmap>, us: seq<Upload>, p: Path, before: seq<Bitmap>)
    requires Stored(view, p) == Run(before)
    ensures Stored(IngestAll(view, us), p) == Run(before + UploadsTo(us, p))
    decreases |us|
  {
    hide Merge, Ingest;
    if us == [] {
      assert before + UploadsTo(us, p) == before;
    } else {
      var one := if us[0].dir == p then [us[0].bits] else [];
      IngestedRun(view, us[0], p, before, one);
      IngestIsRun(Ingest(view, us[0]), us[1..], p, before + one);
      assert UploadsTo(us, p) == one + UploadsTo(us[1..], p);
      assert before + one + UploadsTo(us[1..], p) == before + UploadsTo(us, p);
    }
  }

  /**
   * The suffix law of the whole store: a directory that was empty holds, after any
   * sequence of uploads to any keys, the OR of the longest equal-length suffix of the
   * uploads to it, and no other directory's uploads matter.
   */
  lemma StoreSuffixLaw(us: seq<Upload>, p: Path, k: nat)
    requires UploadsTo(us, p) != [] && IsLongestSuffix(UploadsTo(us, p), k)
    ensures var mine := UploadsTo(us, p); var view := IngestAll(map[], us);
      p in view && IsOr(view[p], mine[k..], |mine[|mine| - 1]|)
  {
    IngestIsRun(map[], us, p, []);
    var mine := UploadsTo(us, p);
    assert [] + mine == mine;
    SuffixLaw(mine, k);
  }

  /** Only partitions change what is stored. */
  function UploadOf(base: Path, m: DomainData): (us: seq<Upload>)
    ensures |us| <= 1
  {
    if m.dataType == PARTITION && m.bits.Some? then [Upload(MessagePath(base, m), m.bits.value)] else []
  }

  function UploadsOf(base: Path, ms: seq<DomainData>): seq<Upload> {
    if ms == [] then [] else UploadOf(base, ms[0]) + UploadsOf(base, ms[1..])
  }

  // ----- One upload ------------------------------------------------------------------------------

  /** A directory with the raw frame added and then merged into one file. */
  lemma UploadSettles(d: Directory, raw: string, frame: Buffer, merged: string, content: Buffer, bits: Bitmap,
                      r: Bitmap)
    requires d == map[] || Settled(d)
    requires raw !in d && FileBits(File(frame)) == Some(bits)
    requires IsMerge(r, bits, d[raw := File(frame)]) && FileBits(File(content)) == Some(r)
    ensures var d' := map[merged := File(content)];
      Settled(d') && StoredBits(d') == Store(if d == map[] then [] else [StoredBits(d)], bits)[0]
  {
    hide FileBits;
    var d' := map[merged := File(content)];
    StoredBitsOf(d', merged);
    var e := d[raw := File(frame)];
    if d == map[] {
      forall i | 0 <= i < |bits|
        ensures r[i] == bits[i]
      {
      }
    } else {
      var n :| SoleFile(d, n);
      StoredBitsOf(d, n);
      forall i | 0 <= i < |bits|
        ensures r[i] == Merge(bits, StoredBits(d))[i]
      {
        assert e[n] == d[n] && e.Keys == {n, raw};
      }
    }
  }

  // ----- Pushing a frame to the subscribers -----------------------------------------------------

  /** A network stream: whether the peer is gone, whether writing fails, what was written. */
  datatype StreamState = StreamState(closed: bool, failing: bool, sent: seq<Buffer>)

  datatype PushState = PushState(registry: S.Registry, streams: map<S.Stream, StreamState>, ok: bool)

  function Repeat(frame: Buffer, n: nat): (r: seq<Buffer>)
    ensures |r| == n && forall i :: 0 <= i < n ==> r[i] == frame
  {
    seq(n, _ => frame)
  }

  /** One round of the loop. */
  function PushOne(st: PushState, key: string, s: S.Stream, frame: Buffer): PushState
    requires s in st.streams
  {
    var x := st.streams[s];
    if x.closed then st.(registry := S.Removed(st.registry, key, s))
    else if x.failing then st.(ok := false)
    else st.(streams := st.streams[s := x.(sent := x.sent + [frame])])
  }

  /** The loop over FindSubscribers(key): closed streams are deregistered, the first failing write ends it. */
  function Push(st: PushState, key: string, found: seq<S.Stream>, frame: Buffer): PushState
    requires forall s :: s in found ==> s in st.streams
    decreases |found|
  {
    if found == [] then st
    else
      var x := st.streams[found[0]];
      var next := PushOne(st, key, found[0], frame);
      if !x.closed && x.failing then next else Push(next, key, found[1..], frame)
  }

  /** The stream with n more copies of the frame sent to it, unless it is closed. */
  function Served(x: StreamState, frame: Buffer, n: nat): StreamState {
    x.(sent := x.sent + Repeat(frame, if x.closed then 0 else n))
  }

  lemma ServedAgain(x: StreamState, frame: Buffer, m: nat, n: nat)
    ensures Served(Served(x, frame, m), frame, n) == Served(x, frame, m + n)
  {
    if !x.closed {
      assert Repeat(frame, m) + Repeat(frame, n) == Repeat(frame, m + n);
      assert x.sent + Repeat(frame, m) + Repeat(frame, n) == x.sent + Repeat(frame, m + n);
    } else {
      assert x.sent + [] + [] == x.sent + [];
    }
  }

  /** Every open stream got the frame as often as it is in found, and only closed ones of key left the registry. */
  ghost predicate Delivered(st: PushState, st': PushState, key: string, found: seq<S.Stream>, frame: Buffer) {
    && st'.ok == st.ok && st'.streams.Keys == st.streams.Keys
    && (forall s :: s in st.streams ==> st'.streams[s] == Served(st.streams[s], frame, multiset(found)[s]))
    && (forall p :: p != key ==>
         (p in st'.registry <==> p in st.registry) && S.Get(st'.registry, p) == S.Get(st.registry, p))
    && (key !in st.registry ==> st'.registry == st.registry)
  }

  lemma DeliveredOne(st: PushState, key: string, s: S.Stream, frame: Buffer)
    requires s in st.streams && !st.streams[s].failing
    ensures Delivered(st, PushOne(st, key, s, frame), key, [s], frame)
  {
    hide S.WithoutFirst;
    forall t | t in st.streams
      ensures PushOne(st, key, s, frame).streams[t] == Served(st.streams[t], frame, multiset([s])[t])
    {
      var x := st.streams[t];
      assert Repeat(frame, 1) == [frame] && x.sent + Repeat(frame, 0) == x.sent;
    }
  }

  lemma DeliveredBoth(a: PushState, b: PushState, c: PushState, key: string, s: S.Stream, rest: seq<S.Stream>,
                      frame: Buffer)
    requires Delivered(a, b, key, [s], frame) && Delivered(b, c, key, rest, frame)
    ensures Delivered(a, c, key, [s] + rest, frame)
  {
    hide Served;
    forall t | t in a.streams
      ensures c.streams[t] == Served(a.streams[t], frame, multiset([s] + rest)[t])
    {
      ServedAgain(a.streams[t], frame, multiset([s])[t], multiset(rest)[t]);
    }
  }

  /**
   * With no failing stream, every open stream receives the frame as often as it is
   * registered under matching patterns and every closed one receives nothing. Closed
   * streams leave the registry only from the entry named like the directory itself.
   */
  lemma {:induction false} PushDelivers(st: PushState, key: string, found: seq<S.Stream>, frame: Buffer)
    requires forall s :: s in found ==> s in st.streams && !st.streams[s].failing
    ensures Delivered(st, Push(st, key, found, frame), key, found, frame)
    decreases |found|
  {
    if found == [] {
      forall s | s in st.streams
        ensures st.streams[s] == Served(st.streams[s], frame, 0)
      {
        assert st.streams[s].sent + Repeat(frame, 0) == st.streams[s].sent;
      }
    } else {
      var s, rest := found[0], found[1..];
      assert found == [s] + rest;
      var next := PushOne(st, key, s, frame);
      DeliveredOne(st, key, s, frame);
      StillSound(st, next, key, s, rest, frame);
      PushDelivers(next, key, rest, frame);
      DeliveredBoth(st, next, Push(next, key, rest, frame), key, s, rest, frame);
    }
  }

  lemma OneKeepsOpen(st: PushState, key: string, t: S.Stream, frame: Buffer, p: S.Pattern, s: S.Stream)
    requires t in st.streams && s in st.streams && !st.streams[s].closed
    ensures var next := PushOne(st, key, t, frame);
      && next.streams.Keys == st.streams.Keys && !next.streams[s].closed
      && multiset(S.Get(next.registry, p))[s] == multiset(S.Get(st.registry, p))[s]
  {
    hide S.WithoutFirst, S.Removed;
    S.ApplyCounts(st.registry, S.Operation.Remove(key, t), p, s);
  }

  /** The registrations of an open stream survive the loop. */
  lemma {:induction false} PushKeepsOpen(st: PushState, key: string, found: seq<S.Stream>, frame: Buffer,
                                         p: S.Pattern, s: S.Stream)
    requires (forall t :: t in found ==> t in st.streams) && s in st.streams && !st.streams[s].closed
    ensures multiset(S.Get(Push(st, key, found, frame).registry, p))[s] == multiset(S.Get(st.registry, p))[s]
    decreases |found|
  {
    hide PushOne, S.Get;
    if found != [] {
      OneKeepsOpen(st, key, found[0], frame, p, s);
      if st.streams[found[0]].closed || !st.streams[found[0]].failing {
        PushKeepsOpen(PushOne(st, key, found[0], frame), key, found[1..], frame, p, s);
      }
    }
  }

  function Less(m: nat, n: nat): nat {
    if m <= n then 0 else m - n
  }

  /** One round takes a closed stream out of the entry named like the directory, once. */
  lemma OneForgets(st: PushState, key: string, t: S.Stream, frame: Buffer, s: S.Stream)
    requires t in st.streams && s in st.streams
    ensures multiset(S.Get(PushOne(st, key, t, frame).registry, key))[s] ==
      Less(multiset(S.Get(st.registry, key))[s], if t == s && st.streams[s].closed then 1 else 0)
  {
    hide S.WithoutFirst, S.Removed;
    S.ApplyCounts(st.registry, S.Operation.Remove(key, t), key, s);
  }

  /**
   * What the loop removes: of the entry named like the directory, as many registrations
   * of a closed stream as were found for it under any pattern, and nothing of an open one.
   */
  lemma {:induction false} PushForgets(st: PushState, key: string, found: seq<S.Stream>, frame: Buffer, s: S.Stream)
    requires (forall t :: t in found ==> t in st.streams && !st.streams[t].failing) && s in st.streams
    ensures multiset(S.Get(Push(st, key, found, frame).registry, key))[s] ==
      Less(multiset(S.Get(st.registry, key))[s], if st.streams[s].closed then multiset(found)[s] else 0)
    decreases |found|
  {
    hide PushOne, S.Get;
    if found != [] {
      var t, rest := found[0], found[1..];
      assert found == [t] + rest;
      var next := PushOne(st, key, t, frame);
      OneForgets(st, key, t, frame, s);
      DeliveredOne(st, key, t, frame);
      StillSound(st, next, key, t, rest, frame);
      ServedFlags(st.streams[s], frame, multiset([t])[s]);
      PushForgets(next, key, rest, frame, s);
    }
  }

  lemma ServedFlags(x: StreamState, frame: Buffer, n: nat)
    ensures Served(x, frame, n).closed == x.closed && Served(x, frame, n).failing == x.failing
  {
  }

  lemma StillSound(a: PushState, b: PushState, key: string, s: S.Stream, rest: seq<S.Stream>, frame: Buffer)
    requires Delivered(a, b, key, [s], frame)
    requires forall t :: t in rest ==> t in a.streams && !a.streams[t].failing
    ensures forall t :: t in rest ==> t in b.streams && !b.streams[t].failing
  {
    assert forall t :: t in a.streams ==> b.streams[t] == Served(a.streams[t], frame, multiset([s])[t]);
  }

  /** A failing stream cuts the loop short: those found before it are served, those after it are not. */
  lemma {:induction false} PushStops(st: PushState, key: string, found: seq<S.Stream>, k: nat, frame: Buffer)
    requires forall s :: s in found ==> s in st.streams
    requires k < |found| && st.streams[found[k]].failing && !st.streams[found[k]].closed
    requires forall i :: 0 <= i < k ==> !st.streams[found[i]].failing
    ensures Push(st, key, found, frame) == Push(st, key, found[..k], frame).(ok := false)
    decreases |found|
  {
    var s := found[0];
    var x := st.streams[s];
    if k > 0 {
      assert found[..k][0] == s && found[..k][1..] == found[1..][..k - 1];
      assert s != found[k];
      PushStops(PushOne(st, key, s, frame), key, found[1..], k - 1, frame);
    }
  }
}
