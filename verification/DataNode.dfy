/**
 * The data node: ReceiveDomainData, classifyDomainData and processPartition working on
 * directories, buffers and the subscriber registry in place.
 */
module DataNode {
  import opened Wrappers
  import opened LittleEndian
  import opened FlatBuffers
  import opened DomainDataWire
  import opened DomainDataWriters
  import opened FrameShape
  import opened FrameViews
  import opened PartitionMerge
  import opened Bitmaps
  import opened DirectoryKeys
  import opened PartitionStore
  import F = Framing
  import S = Subscribers

  // ----- The file system ---------------------------------------------------------------

  /** os.ReadDir: every entry once, in whatever order. */
  method ReadDir(d: Directory) returns (names: seq<string>)
    ensures forall n :: n in names <==> n in d
    ensures forall i, j :: 0 <= i < j < |names| ==> names[i] != names[j]
  {
    names := [];
    var todo := d.Keys;
    while todo != {}
      invariant forall n :: n in d <==> n in names || n in todo
      invariant forall n :: n in names ==> n !in todo
      invariant forall i, j :: 0 <= i < j < |names| ==> names[i] != names[j]
    {
      var n :| n in todo;
      todo := todo - {n};
      names := names + [n];
    }
  }

  /** Stands for the random name of os.CreateTemp: all a caller knows is that it is new. */
  method NewName(d: Directory) returns (name: string)
    ensures name !in d
  {
    name := ".bin";
    var todo := d.Keys;
    while todo != {}
      invariant name != "" && forall n :: n in d ==> n in todo || |n| < |name|
    {
      var n :| n in todo;
      todo := todo - {n};
      name := n + name;
    }
  }

  // ----- The merge loop on values --------------------------------------------------------

  /** What is left of d when the files among gone have been removed. */
  function WithoutFiles(d: Directory, gone: set<string>): Directory {
    map n | n in d && !(d[n].File? && n in gone) :: d[n]
  }

  lemma WithoutNothing(d: Directory)
    ensures WithoutFiles(d, {}) == d
  {
  }

  lemma WithoutOneMore(d: Directory, gone: set<string>, n: string)
    requires n in d && n !in gone
    ensures n in WithoutFiles(d, gone) && WithoutFiles(d, gone)[n] == d[n]
    ensures WithoutFiles(d, gone + {n}) == if d[n].File? then WithoutFiles(d, gone) - {n} else WithoutFiles(d, gone)
  {
  }

  lemma WithoutAll(d: Directory, gone: set<string>)
    requires forall n :: n in d ==> n in gone
    ensures WithoutFiles(d, gone) == SubDirectories(d)
  {
  }

  function SubDirectories(d: Directory): Directory {
    map n | n in d && d[n].SubDirectory? :: d[n]
  }

  predicate AllReadable(d: Directory) {
    forall n :: n in d ==> Readable(d[n])
  }

  ghost predicate AllPartitions(d: Directory) {
    forall n :: n in d && d[n].File? ==> FileBits(d[n]).Some?
  }

  /**
   * Conservation: a bit is set in the accumulator or in a file of the same length that
   * is still there exactly when it was before.
   */
  ghost predicate Conserved(acc: Bitmap, now: Directory, bits: Bitmap, before: Directory) {
    && |acc| == |bits|
    && forall i :: 0 <= i < |bits| ==>
      (acc[i] || SetInFile(now, |bits|, i) <==> bits[i] || SetInFile(before, |bits|, i))
  }

  lemma ConservedStep(acc: Bitmap, now: Directory, bits: Bitmap, before: Directory, n: string, b: Bitmap)
    requires Conserved(acc, now, bits, before) && n in now && FileBits(now[n]) == Some(b)
    ensures Conserved(Merge(acc, b), now - {n}, bits, before)
  {
    hide FileBits;
    var rest := now - {n};
    forall i | 0 <= i < |bits|
      ensures Merge(acc, b)[i] || SetInFile(rest, |bits|, i) <==> acc[i] || SetInFile(now, |bits|, i)
    {
      if k :| k in now && FileBits(now[k]).Some? && |FileBits(now[k]).value| == |bits| && FileBits(now[k]).value[i] {
        assert k == n || rest[k] == now[k];
      }
      if k :| k in rest && FileBits(rest[k]).Some? && |FileBits(rest[k]).value| == |bits|
              && FileBits(rest[k]).value[i] {
        assert now[k] == rest[k];
      }
    }
  }

  lemma ConservedToEnd(acc: Bitmap, now: Directory, bits: Bitmap, before: Directory)
    requires Conserved(acc, now, bits, before) && forall n :: n in now ==> now[n].SubDirectory?
    ensures IsMerge(acc, bits, before)
  {
    forall i | 0 <= i < |bits|
      ensures !SetInFile(now, |bits|, i)
    {
    }
  }

  lemma StaysIsolated(b: Buffer, w: Buffer, p: int)
    requires PartitionIsolated(b, p)
    requires AgreeOutside(b, w, Region(b, p).start, Region(b, p).start + Region(b, p).len)
    ensures PartitionIsolated(w, p) && Region(w, p) == Region(b, p)
  {
    hide ReadLE;
    var v := Region(b, p);
    assert VectorField(w, p, 4) == VectorField(b, p, 4);
    forall u | AgreeOutside(w, u, v.start, v.start + v.len)
      ensures VectorField(u, p, 4) == VectorField(w, p, 4)
    {
      assert AgreeOutside(b, u, v.start, v.start + v.len);
    }
  }

  lemma ConservedStart(bits: Bitmap, d: Directory)
    ensures Conserved(bits, d, bits, d)
  {
  }

  lemma AgreesWithItself(b: Buffer, lo: int, hi: int)
    ensures AgreeOutside(b, b, lo, hi)
  {
  }

  lemma AgreesThrough(a: Buffer, b: Buffer, c: Buffer, lo: int, hi: int)
    requires AgreeOutside(a, b, lo, hi) && AgreeOutside(b, c, lo, hi)
    ensures AgreeOutside(a, c, lo, hi)
  {
  }

  ghost function BitsAt(b: Buffer, p: int): Bitmap
    requires PartitionIsolated(b, p)
  {
    Bits(b, p).value
  }

  /** Opening one file of the directory as a partition. */
  method OpenPartition(content: Buffer) returns (a: array<byte>, p: Option<int>)
    requires ParseFrame(content).Some?
    ensures fresh(a) && a[..] == content
    ensures p.Some? == FileBits(File(content)).Some?
    ensures p.Some? ==> Bits(a[..], p.value) == FileBits(File(content))
  {
    hide ReadLE, DataOffset, DomainId, Name, Version, DataType, Bits;
    a := new byte[|content|](i requires 0 <= i < |content| => content[i]);
    assert a[..] == content;
    p := GetPartition(a[..], Root(a[..], 4).value).value;
  }

  /** What a message must be for the pipeline to take it in without an error. */
  ghost predicate CleanUpload(body: Buffer) {
    && ParseBody(body).Some? && Root(body, 0).Some?
    && var m := ParseBody(body).value;
      && Plain(Text(m.domainId)) && '/' !in Text(m.name)
      && (m.dataType == PARTITION ==> Isolated(body, Root(body, 0).value) && Fits(m))
  }

  /** The merged message, with a version of 36 bytes, can be encoded. */
  predicate Fits(m: DomainData) {
    m.bits.Some? && |m.domainId| + |m.name| + 36 + |m.bits.value| + 160 < MAX_BUFFER
  }

  lemma NoFilesLeft(d: Directory)
    ensures forall n :: n in SubDirectories(d) ==> SubDirectories(d)[n].SubDirectory?
    ensures d == map[] ==> SubDirectories(d) == map[] && AllPartitions(d)
  {
  }

  /** After merging, the message reads as before except for its bits, which are those of all files. */
  lemma MergedMessage(b: Buffer, w: Buffer, pos: int, p: int, before: Directory, now: Directory)
    requires Isolated(b, pos) && GetPartition(b, pos) == Some(Some(p))
    requires PartitionIsolated(b, p) && PartitionIsolated(w, p)
    requires AgreeOutside(b, w, Region(b, p).start, Region(b, p).start + Region(b, p).len)
    requires Conserved(BitsAt(w, p), now, BitsAt(b, p), before) && now == SubDirectories(before)
    ensures Parse(b, pos).Some? && Parse(w, pos) == Some(Parse(b, pos).value.(bits := Some(BitsAt(w, p))))
    ensures Parse(b, pos).value.bits.Some? && IsMerge(BitsAt(w, p), Parse(b, pos).value.bits.value, before)
    ensures |BitsAt(w, p)| == |Parse(b, pos).value.bits.value|
  {
    hide ReadLE, VectorField, Bits, Parse, Conserved, IsMerge;
    NoFilesLeft(before);
    ConservedToEnd(BitsAt(w, p), now, BitsAt(b, p), before);
  }

  function MergedFrame(id: Buffer, name: Buffer, version: Buffer, bits: Bitmap): Buffer {
    Frame(id, name, Some(version), BytesOf(bits))
  }

  /** d' has one more file than d, under a new name. */
  ghost predicate OneMore(d: Directory, d': Directory, content: Buffer) {
    exists n :: n !in d && d' == d[n := File(content)]
  }

  /** The files of d were merged with m into one file. */
  ghost predicate StoredMerged(d: Directory, d': Directory, m: DomainData, merged: Bitmap, version: Buffer) {
    && m.bits.Some? && |version| == 36 && IsMerge(merged, m.bits.value, d)
    && OneMore(SubDirectories(d), d', MergedFrame(m.domainId, m.name, version, merged))
  }

  function DirAt(dirs: Directories, p: Path): Directory {
    if p in dirs then dirs[p] else map[]
  }

  lemma PathOf(b: Buffer, pos: int, base: Path)
    requires Parse(b, pos).Some?
    ensures DataType(b, pos).Some? && DomainId(b, pos).Some? && Name(b, pos).Some?
    ensures DirPath(base, Text(DomainId(b, pos).value), Text(Name(b, pos).value), DataType(b, pos).value)
         == MessagePath(base, Parse(b, pos).value)
  {
    hide ReadLE, ScalarField, ByteField, Bits, GetPartition, DirPath;
  }

  lemma UnionPresent(b: Buffer, pos: int)
    requires Parse(b, pos).Some? && (Parse(b, pos).value.dataType == PARTITION ==> Isolated(b, pos))
    ensures Data(b, pos).Some? && DataType(b, pos).Some?
    ensures var present := Data(b, pos).value.Some? && DataType(b, pos).value == PARTITION;
      present <==> Parse(b, pos).value.dataType == PARTITION
  {
    hide ReadLE, ScalarField, ByteField, Bits;
  }

  // ----- One round of the receive loop on values --------------------------------------------

  ghost predicate NoneFailing(streams: map<S.Stream, StreamState>) {
    forall s :: s in streams ==> !streams[s].failing
  }

  /**
   * Taking in message m: a partition directory goes from one bitmap to the next, any
   * other directory gains the frame as a file, and no other directory changes.
   */
  ghost predicate Took(dirs: Directories, dirs': Directories, base: Path, m: DomainData, frame: Buffer) {
    var p := MessagePath(base, m);
    && p in dirs' && dirs' == dirs[p := dirs'[p]]
    && (m.dataType != PARTITION ==> OneMore(DirAt(dirs, p), dirs'[p], frame))
    && (m.dataType == PARTITION ==>
         && m.bits.Some? && (p in dirs ==> Settled(dirs[p])) && Settled(dirs'[p])
         && StoredBits(dirs'[p]) == Store(if p in dirs then [StoredBits(dirs[p])] else [], m.bits.value)[0])
  }

  lemma PathKind(base: Path, m: DomainData)
    requires CleanPath(base) && Plain(Text(m.domainId)) && '/' !in Text(m.name)
    ensures IsPartitionDir(MessagePath(base, m)) <==> m.dataType == PARTITION
  {
    hide TypeName;
    DirPathShape(base, Text(m.domainId), Text(m.name), m.dataType);
    var p := MessagePath(base, m);
    assert p[|p| - 1] == LastSegment(Text(m.name), m.dataType);
    if name :| p[|p| - 1] == LastSegment(name, PARTITION) {
      LastSegmentInjective(name, PARTITION, Text(m.name), m.dataType);
    }
  }

  /** A partition directory with a raw upload in it can be merged. */
  lemma PartitionPending(dirs: Directories, p: Path, body: Buffer, m: DomainData, header: Buffer, raw: Directory)
    requires AllSettled(dirs) && IsPartitionDir(p) && |header| == 4
    requires ParseBody(body) == Some(m) && m.bits.Some? && OneMore(DirAt(dirs, p), raw, header + body)
    ensures AllReadable(raw) && AllPartitions(raw) && raw != map[] && forall n :: n in raw ==> raw[n].File?
    ensures FileBits(File(header + body)) == m.bits
  {
    hide ReadLE, Parse, ParseFrame, ParseBody, IsPartitionDir;
    FrameLikeBody(header, body);
    var n :| n !in DirAt(dirs, p) && raw == DirAt(dirs, p)[n := File(header + body)];
    assert n in raw;
    if p in dirs {
      var k :| SoleFile(dirs[p], k);
    }
  }

  lemma NoSubDirectories(d: Directory)
    requires forall n :: n in d ==> d[n].File?
    ensures SubDirectories(d) == map[]
  {
  }

  lemma PartitionTaken(dirs: Directories, dirs': Directories, base: Path, m: DomainData, frame: Buffer,
                       raw: Directory, merged: Bitmap, version: Buffer)
    requires var p := MessagePath(base, m);
      p in dirs' && dirs' == dirs[p := dirs'[p]] && IsPartitionDir(p) && StoredMerged(raw, dirs'[p], m, merged, version)
    requires AllSettled(dirs) && m.dataType == PARTITION && Fits(m)
    requires OneMore(DirAt(dirs, MessagePath(base, m)), raw, frame) && FileBits(File(frame)) == m.bits
    requires AllPartitions(raw) && forall n :: n in raw ==> raw[n].File?
    ensures Took(dirs, dirs', base, m, frame) && AllSettled(dirs')
    ensures StoredAlone(dirs', MessagePath(base, m), m, merged, version)
  {
    hide FileBits, Frame, IsPartitionDir, MessagePath, Fits;
    var p := MessagePath(base, m);
    var d := DirAt(dirs, p);
    var n :| n !in d && raw == d[n := File(frame)];
    if p in dirs {
      var k :| SoleFile(dirs[p], k);
    }
    NoSubDirectories(raw);
    var content := MergedFrame(m.domainId, m.name, version, merged);
    var k :| dirs'[p] == map[][k := File(content)];
    MergedReadsBack(m, version, merged);
    UploadSettles(d, n, frame, k, content, m.bits.value, merged);
    assert dirs'[p] == map[k := File(content)];
  }

  /** The merged frame is the one file of the directory. */
  ghost predicate StoredAlone(dirs: Directories, p: Path, m: DomainData, merged: Bitmap, version: Buffer) {
    && Fits(m) && |version| == 36 && |merged| == |m.bits.value|
    && p in dirs && Settled(dirs[p]) && StoredBits(dirs[p]) == merged
    && OneMore(map[], dirs[p], MergedFrame(m.domainId, m.name, version, merged))
  }

  lemma MergedReadsBack(m: DomainData, version: Buffer, merged: Bitmap)
    requires Fits(m) && |version| == 36 && |merged| == |m.bits.value|
    ensures FileBits(File(MergedFrame(m.domainId, m.name, version, merged))) == Some(merged)
  {
    hide ReadLE, Parse, Frame;
    FrameRoundTrip(m.domainId, m.name, Some(version), BytesOf(merged));
    assert BitsOf(BytesOf(merged)) == merged;
  }

  lemma OtherTaken(dirs: Directories, dirs': Directories, base: Path, m: DomainData, frame: Buffer)
    requires var p := MessagePath(base, m);
      && p in dirs' && dirs' == dirs[p := dirs'[p]] && !IsPartitionDir(p) && OneMore(DirAt(dirs, p), dirs'[p], frame)
    requires AllSettled(dirs) && m.dataType != PARTITION
    ensures Took(dirs, dirs', base, m, frame) && AllSettled(dirs')
  {
    hide MessagePath, OneMore, IsPartitionDir, Settled;
  }

  // ----- The whole receive loop on values --------------------------------------------------

  datatype ReceiveResult = Nil | SizeError | ContentError | CallbackError

  function ResultOf(end: F.FrameResult): (r: ReceiveResult)
    requires !end.Frame?
    ensures r != CallbackError
  {
    match end
    case End => Nil
    case HeaderCut => SizeError
    case BodyCut => ContentError
  }

  /** The result by what is left of the bytes behind the last whole frame. */
  lemma ResultByLeftover(s: Buffer)
    ensures var r := ResultOf(F.ParseStream(s).end);
      && (r == SizeError <==> 0 < |F.Leftover(s)| < 4) && (r == ContentError <==> 4 < |F.Leftover(s)|)
      && (r == Nil <==> |F.Leftover(s)| == 0 || |F.Leftover(s)| == 4)
  {
    hide F.ParseStream, F.Leftover;
    F.CutIff(s);
    F.EndIff(s);
  }

  ghost predicate AllClean(frames: seq<Buffer>) {
    forall i :: 0 <= i < |frames| ==> |frames[i]| >= 4 && CleanUpload(frames[i][4..])
  }

  ghost function Messages(frames: seq<Buffer>): (ms: seq<DomainData>)
    requires AllClean(frames)
    ensures |ms| == |frames|
    ensures forall i :: 0 <= i < |ms| ==> ParseBody(frames[i][4..]) == Some(ms[i])
  {
    seq(|frames|, i requires 0 <= i < |frames| => ParseBody(frames[i][4..]).value)
  }

  /** Directories that are not among the targets of the messages are as they were. */
  ghost predicate Untouched(dirs: Directories, dirs': Directories, base: Path, ms: seq<DomainData>) {
    forall p :: (forall i :: 0 <= i < |ms| ==> MessagePath(base, ms[i]) != p) ==>
      (p in dirs <==> p in dirs') && DirAt(dirs', p) == DirAt(dirs, p)
  }

  /** A message that is not a partition is in a file of its directory. */
  ghost predicate Saved(dirs: Directories, base: Path, m: DomainData, frame: Buffer) {
    m.dataType != PARTITION ==>
      exists n :: n in DirAt(dirs, MessagePath(base, m)) && DirAt(dirs, MessagePath(base, m))[n] == File(frame)
  }

  /** The directories after the messages ms, received in the given frames. */
  ghost predicate Ingested(start: Directories, dirs: Directories, base: Path, ms: seq<DomainData>,
                           frames: seq<Buffer>) {
    && |frames| == |ms| && AllSettled(start) && AllSettled(dirs)
    && View(dirs) == IngestAll(View(start), UploadsOf(base, ms)) && Untouched(start, dirs, base, ms)
    && forall i :: 0 <= i < |ms| ==> Saved(dirs, base, ms[i], frames[i])
  }

  lemma NothingIngested(dirs: Directories, base: Path)
    requires AllSettled(dirs)
    ensures Ingested(dirs, dirs, base, [], [])
  {
  }

  lemma ViewAt(dirs: Directories, p: Path)
    requires AllSettled(dirs)
    ensures p in View(dirs) <==> p in dirs && IsPartitionDir(p)
    ensures p in View(dirs) ==> View(dirs)[p] == StoredBits(dirs[p])
  {
    hide Settled, IsPartitionDir, StoredBits;
  }

  lemma ViewsEqual(dirs: Directories, dirs': Directories, p: Path)
    requires AllSettled(dirs) && AllSettled(dirs') && p in dirs' && dirs' == dirs[p := dirs'[p]]
    ensures View(dirs') == if IsPartitionDir(p) then View(dirs)[p := StoredBits(dirs'[p])] else View(dirs)
  {
    hide Settled, IsPartitionDir, StoredBits, View;
    forall q
      ensures var v, v' := View(dirs), View(dirs');
        if q == p && IsPartitionDir(p) then q in v' && v'[q] == StoredBits(dirs'[p])
        else (q in v' <==> q in v) && (q in v ==> v'[q] == v[q])
    {
      ViewAt(dirs, q);
      ViewAt(dirs', q);
    }
  }

  lemma TookView(dirs: Directories, dirs': Directories, base: Path, m: DomainData, frame: Buffer)
    requires AllSettled(dirs) && AllSettled(dirs') && Took(dirs, dirs', base, m, frame)
    requires IsPartitionDir(MessagePath(base, m)) <==> m.dataType == PARTITION
    ensures View(dirs') == IngestAll(View(dirs), UploadOf(base, m))
  {
    hide Settled, IsPartitionDir, MessagePath, StoredBits, View, OneMore, AllSettled;
    var p := MessagePath(base, m);
    ViewAt(dirs, p);
    ViewsEqual(dirs, dirs', p);
    if m.dataType == PARTITION {
      var u := Upload(p, m.bits.value);
      assert IngestAll(Ingest(View(dirs), u), [u][1..]) == Ingest(View(dirs), u);
    }
  }

  lemma {:induction false} UploadsOfMore(base: Path, ms: seq<DomainData>, m: DomainData)
    ensures UploadsOf(base, ms + [m]) == UploadsOf(base, ms) + UploadOf(base, m)
  {
    hide UploadOf;
    if ms == [] {
      assert ms + [m] == [m] && [m][1..] == [];
    } else {
      assert (ms + [m])[1..] == ms[1..] + [m];
      UploadsOfMore(base, ms[1..], m);
    }
  }

  lemma {:induction false} IngestSplit(view: map<Path, Bitmap>, us: seq<Upload>, more: seq<Upload>)
    ensures IngestAll(view, us + more) == IngestAll(IngestAll(view, us), more)
    decreases |us|
  {
    hide Ingest;
    if us == [] {
      assert us + more == more;
    } else {
      assert (us + more)[1..] == us[1..] + more;
      IngestSplit(Ingest(view, us[0]), us[1..], more);
    }
  }

  lemma UntouchedStep(start: Directories, dirs: Directories, dirs': Directories, base: Path, ms: seq<DomainData>,
                      m: DomainData, frame: Buffer)
    requires Untouched(start, dirs, base, ms) && Took(dirs, dirs', base, m, frame)
    ensures Untouched(start, dirs', base, ms + [m])
  {
    hide MessagePath, Settled, StoredBits;
    forall p | forall i :: 0 <= i < |ms + [m]| ==> MessagePath(base, (ms + [m])[i]) != p
      ensures (p in start <==> p in dirs') && DirAt(dirs', p) == DirAt(start, p)
    {
      assert (ms + [m])[|ms|] == m;
      assert forall i :: 0 <= i < |ms| ==> ms[i] == (ms + [m])[i];
    }
  }

  lemma SavedStep(dirs: Directories, dirs': Directories, base: Path, m: DomainData, frame: Buffer,
                  k: DomainData, other: Buffer)
    requires Took(dirs, dirs', base, m, frame) && Saved(dirs, base, k, other)
    requires IsPartitionDir(MessagePath(base, m)) <==> m.dataType == PARTITION
    requires IsPartitionDir(MessagePath(base, k)) <==> k.dataType == PARTITION
    ensures Saved(dirs', base, k, other)
  {
    hide MessagePath, Settled, StoredBits, IsPartitionDir;
    if k.dataType != PARTITION {
      var p := MessagePath(base, k);
      var n :| n in DirAt(dirs, p) && DirAt(dirs, p)[n] == File(other);
      assert n in DirAt(dirs', p) && DirAt(dirs', p)[n] == File(other);
    }
  }

  lemma SavedNow(dirs: Directories, dirs': Directories, base: Path, m: DomainData, frame: Buffer)
    requires Took(dirs, dirs', base, m, frame)
    ensures Saved(dirs', base, m, frame)
  {
    hide MessagePath, Settled, StoredBits;
    if m.dataType != PARTITION {
      var p := MessagePath(base, m);
      var n :| n !in DirAt(dirs, p) && dirs'[p] == DirAt(dirs, p)[n := File(frame)];
      assert n in DirAt(dirs', p);
    }
  }

  /** Every message belongs in a partition directory exactly when it is one. */
  ghost predicate Sorted(base: Path, ms: seq<DomainData>) {
    forall i :: 0 <= i < |ms| ==> (IsPartitionDir(MessagePath(base, ms[i])) <==> ms[i].dataType == PARTITION)
  }

  lemma CleanSorted(base: Path, frames: seq<Buffer>)
    requires CleanPath(base) && AllClean(frames)
    ensures Sorted(base, Messages(frames))
  {
    hide MessagePath, Isolated, IsPartitionDir, Text;
    forall i | 0 <= i < |frames|
      ensures var m := Messages(frames)[i]; IsPartitionDir(MessagePath(base, m)) <==> m.dataType == PARTITION
    {
      PathKind(base, Messages(frames)[i]);
    }
  }

  lemma IngestedOne(start: Directories, dirs: Directories, dirs': Directories, base: Path, ms: seq<DomainData>,
                    frames: seq<Buffer>, m: DomainData, frame: Buffer)
    requires Ingested(start, dirs, base, ms, frames) && Took(dirs, dirs', base, m, frame) && Sorted(base, ms + [m])
    requires AllSettled(dirs')
    ensures Ingested(start, dirs', base, ms + [m], frames + [frame])
  {
    hide MessagePath, Took, Saved, Untouched, IsPartitionDir, AllSettled, View, IngestAll, UploadOf, UploadsOf;
    assert (ms + [m])[|ms|] == m;
    TookView(dirs, dirs', base, m, frame);
    UploadsOfMore(base, ms, m);
    IngestSplit(View(start), UploadsOf(base, ms), UploadOf(base, m));
    UntouchedStep(start, dirs, dirs', base, ms, m, frame);
    SavedNow(dirs, dirs', base, m, frame);
    forall i | 0 <= i < |ms|
      ensures Saved(dirs', base, ms[i], frames[i])
    {
      assert (ms + [m])[i] == ms[i];
      SavedStep(dirs, dirs', base, m, frame, ms[i], frames[i]);
    }
  }

  lemma SortedParts(base: Path, ms: seq<DomainData>, i: nat)
    requires Sorted(base, ms) && i < |ms|
    ensures Sorted(base, ms[..i] + [ms[i]])
  {
    hide MessagePath, IsPartitionDir;
  }

  lemma Around<T>(xs: seq<T>, i: nat)
    requires i < |xs|
    ensures xs[i..] != [] && xs[i..][0] == xs[i] && xs[i..][1..] == xs[i + 1..] && xs[..i] + [xs[i]] == xs[..i + 1]
  {
  }

  /** Of a stream that parses as all, the bytes s remain after the first n frames. */
  ghost predicate ReadUpTo(all: F.Frames, s: Buffer, n: nat) {
    n <= |all.frames| && F.ParseStream(s) == F.Frames(all.frames[n..], all.end)
  }

  /** What the next frame is, and where reading it leads. */
  lemma ReadOn(all: F.Frames, s: Buffer, n: nat, next: F.FrameResult)
    requires ReadUpTo(all, s, n) && next == F.FirstFrame(s)
    ensures if next.Frame? then
        && n < |all.frames| && all.frames[n] == next.header + next.body && |next.header| == 4
        && ReadUpTo(all, s[4 + |next.body|..], n + 1)
      else n == |all.frames| && all.end == next
  {
    hide F.ParseStream, F.FirstFrame;
    NextOf(s, next, all.frames[n..], all.end);
    if next.Frame? {
      Around(all.frames, n);
    }
  }

  lemma ReadNothing(s: Buffer)
    ensures ReadUpTo(F.ParseStream(s), s, 0)
  {
    hide F.ParseStream;
    assert F.ParseStream(s).frames[0..] == F.ParseStream(s).frames;
  }

  /** What the next frame of a stream says about its parse. */
  lemma NextOf(s: Buffer, next: F.FrameResult, rest: seq<Buffer>, end: F.FrameResult)
    requires next == F.FirstFrame(s) && F.ParseStream(s) == F.Frames(rest, end)
    ensures if next.Frame? then
        rest != [] && rest[0] == next.header + next.body && rest[0][4..] == next.body && |next.header| == 4
        && F.ParseStream(s[4 + |next.body|..]) == F.Frames(rest[1..], end)
      else rest == [] && end == next
  {
  }

  // ----- The push loop on values -----------------------------------------------------------

  ghost predicate FoundKnown(st: PushState, order: seq<S.Pattern>) {
    forall s :: s in S.Flatten(st.registry, order) ==> s in st.streams
  }

  lemma {:induction false} FoundAreKnown(st: PushState, order: seq<S.Pattern>)
    requires forall p, s :: p in st.registry && s in st.registry[p] ==> s in st.streams
    ensures FoundKnown(st, order)
    decreases |order|
  {
    if order != [] {
      FoundAreKnown(st, order[1..]);
    }
  }

  lemma PushStep(st: PushState, key: string, found: seq<S.Stream>, i: nat, frame: Buffer)
    requires i < |found| && forall s :: s in found ==> s in st.streams
    ensures var x := st.streams[found[i]]; var next := PushOne(st, key, found[i], frame);
      && next.streams.Keys == st.streams.Keys
      && Push(st, key, found[i..], frame) ==
        if !x.closed && x.failing then next else Push(next, key, found[i + 1..], frame)
  {
    assert found[i..][1..] == found[i + 1..];
  }

  lemma PushNone(st: PushState, key: string, frame: Buffer)
    ensures Push(st, key, [], frame) == st
  {
  }

  lemma RemovedWithin(r: S.Registry, p: S.Pattern, s: S.Stream)
    ensures forall q, t :: q in S.Removed(r, p, s) && t in S.Removed(r, p, s)[q] ==> q in r && t in r[q]
  {
    if p in r {
      S.WithoutFirstCounts(r[p], s);
      forall t | t in S.WithoutFirst(r[p], s)
        ensures t in r[p]
      {
        assert t in multiset(S.WithoutFirst(r[p], s));
        assert t in multiset(r[p]);
      }
    }
  }

  /** The app's own uploads are clean, as long as the merged message still fits. */
  lemma UploadIsClean(id: Buffer, name: Buffer, content: Buffer)
    requires Plain(Text(id)) && '/' !in Text(name) && |id| + |name| + 36 + |content| + 160 < MAX_BUFFER
    ensures F.IsFrame(Frame(id, name, None, content)) && CleanUpload(Frame(id, name, None, content)[4..])
  {
    hide Frame, Parse, Isolated, Text, Plain;
    FrameRoundTrip(id, name, None, content);
    FrameIsolated(id, name, None, content);
  }

  // ----- Streams that cannot be written to ---------------------------------------------------

  /** Writing to a stream whose peer is still there would fail. */
  predicate WriteFails(x: StreamState) {
    !x.closed && x.failing
  }

  /** A stream that cannot be written to is registered under a pattern that matches the directory. */
  ghost predicate Blocked(st: PushState, matches: (S.Pattern, string) -> bool, p: Path) {
    exists q, s :: q in st.registry && matches(q, PathText(p)) && s in st.registry[q]
      && s in st.streams && WriteFails(st.streams[s])
  }

  /** Streams neither come nor go, nor do their flags change. */
  predicate SameFlags(a: map<S.Stream, StreamState>, b: map<S.Stream, StreamState>) {
    a.Keys == b.Keys && forall s :: s in a ==> b[s].closed == a[s].closed && b[s].failing == a[s].failing
  }

  lemma {:induction false} PushFlags(st: PushState, key: string, found: seq<S.Stream>, frame: Buffer)
    requires forall s :: s in found ==> s in st.streams
    ensures var st' := Push(st, key, found, frame);
      SameFlags(st.streams, st'.streams) && st'.ok == (st.ok && forall s :: s in found ==> !WriteFails(st.streams[s]))
    decreases |found|
  {
    hide S.Removed;
    if found != [] {
      var next := PushOne(st, key, found[0], frame);
      assert found == [found[0]] + found[1..];
      if !WriteFails(st.streams[found[0]]) {
        PushFlags(next, key, found[1..], frame);
      }
    }
  }

  lemma {:induction false} FoundMember(r: S.Registry, order: seq<S.Pattern>, s: S.Stream)
    ensures s in S.Flatten(r, order) <==> exists q :: q in order && q in r && s in r[q]
    decreases |order|
  {
    if order != [] {
      FoundMember(r, order[1..], s);
      assert order == [order[0]] + order[1..];
    }
  }

  /** Streams that cannot be written to stay registered, so a push changes nothing about who is blocked. */
  lemma PushBlocked(st: PushState, key: string, found: seq<S.Stream>, frame: Buffer,
                    matches: (S.Pattern, string) -> bool, p: Path)
    requires forall s :: s in found ==> s in st.streams
    ensures Blocked(Push(st, key, found, frame), matches, p) <==> Blocked(st, matches, p)
  {
    hide Push, PathText;
    var st' := Push(st, key, found, frame);
    PushFlags(st, key, found, frame);
    forall q: S.Pattern, s | s in st.streams && !st.streams[s].closed
      ensures q in st'.registry && s in st'.registry[q] <==> q in st.registry && s in st.registry[q]
    {
      PushKeepsOpen(st, key, found, frame, q, s);
      assert s in S.Get(st.registry, q) <==> s in multiset(S.Get(st.registry, q));
      assert s in S.Get(st'.registry, q) <==> s in multiset(S.Get(st'.registry, q));
    }
  }

  // ----- The node ---------------------------------------------------------------------------

  class Node {
    const basePath: Path
    const matches: (S.Pattern, string) -> bool
    const uuids: nat -> Buffer
    const subscribers: S.DomainDataSubscribers
    var drawn: nat
    var dirs: Directories
    var streams: map<S.Stream, StreamState>
    // The raw frames that were written to files, in order.
    ghost var log: seq<Buffer>

    ghost predicate Valid()
      reads this, subscribers, subscribers.Repr
    {
      && CleanPath(basePath) && (forall n :: |uuids(n)| == 36)
      && subscribers.Valid() && this !in subscribers.Repr
      && forall p, s :: p in subscribers.Contents() && s in subscribers.Contents()[p] ==> s in streams
    }

    ghost function Pushing(ok: bool): PushState
      reads this, subscribers, subscribers.Repr
      requires Valid()
    {
      PushState(subscribers.Contents(), streams, ok)
    }

    constructor (basePath: Path, matches: (S.Pattern, string) -> bool, uuids: nat -> Buffer)
      requires CleanPath(basePath) && forall n :: |uuids(n)| == 36
      ensures Valid() && this.basePath == basePath && this.matches == matches
      ensures dirs == map[] && streams == map[] && subscribers.Contents() == map[] && log == []
      ensures fresh(subscribers.Repr)
    {
      this.basePath, this.matches, this.uuids := basePath, matches, uuids;
      var none := new S.DomainDataSubscribers();
      subscribers := none;
      drawn, dirs, streams, log := 0, map[], map[], [];
    }

    /** One round of the merge loop: merge a file into the incoming bitmap, then delete the file. */
    method MergeFile(dirPath: Path, n: string, body: array<byte>, p: int) returns (ok: bool)
      requires dirPath in dirs && n in dirs[dirPath] && dirs[dirPath][n].File? && Readable(dirs[dirPath][n])
      requires PartitionIsolated(body[..], p)
      modifies this`dirs, body
      ensures PartitionIsolated(body[..], p) && Region(body[..], p) == old(Region(body[..], p))
      ensures var v := Region(body[..], p); AgreeOutside(old(body[..]), body[..], v.start, v.start + v.len)
      ensures ok == FileBits(old(dirs[dirPath][n])).Some?
      ensures dirs == old(dirs)[dirPath := if ok then old(dirs[dirPath]) - {n} else old(dirs[dirPath])]
      ensures BitsAt(body[..], p) ==
        if ok then Merge(old(BitsAt(body[..], p)), FileBits(old(dirs[dirPath][n])).value) else old(BitsAt(body[..], p))
    {
      hide ReadLE, VectorField, Bits, FileBits, Parse, Region;
      var file, q := OpenPartition(dirs[dirPath][n].content);
      if q.None? {
        return false;
      }
      ghost var b := body[..];
      MergePartitions(body, p, file, q.value);
      StaysIsolated(b, body[..], p);
      dirs := dirs[dirPath := dirs[dirPath] - {n}];
      return true;
    }

    /** The whole merge loop; it stops at the first file that holds no partition. */
    method MergeFiles(dirPath: Path, body: array<byte>, p: int) returns (ok: bool)
      requires dirPath in dirs && AllReadable(dirs[dirPath]) && PartitionIsolated(body[..], p)
      modifies this`dirs, body
      ensures PartitionIsolated(body[..], p) && Region(body[..], p) == old(Region(body[..], p))
      ensures var v := Region(body[..], p); AgreeOutside(old(body[..]), body[..], v.start, v.start + v.len)
      ensures dirPath in dirs && dirs == old(dirs)[dirPath := dirs[dirPath]]
      ensures Conserved(BitsAt(body[..], p), dirs[dirPath], old(BitsAt(body[..], p)), old(dirs[dirPath]))
      ensures ok == AllPartitions(old(dirs[dirPath]))
      ensures ok ==> dirs[dirPath] == SubDirectories(old(dirs[dirPath]))
    {
      hide ReadLE, VectorField, Bits, FileBits, Readable, Parse, Region, PartitionIsolated, AgreeOutside,
        Conserved, BitsAt, WithoutFiles, SubDirectories;
      ghost var before, b0 := dirs[dirPath], body[..];
      ghost var bits, v := BitsAt(b0, p), Region(b0, p);
      AgreesWithItself(b0, v.start, v.start + v.len);
      ConservedStart(bits, before);
      var names := ReadDir(dirs[dirPath]);
      ghost var gone: set<string> := {};
      WithoutNothing(before);
      var i := 0;
      while i < |names|
        invariant 0 <= i <= |names|
        invariant dirs == old(dirs)[dirPath := WithoutFiles(before, gone)]
        invariant forall k :: 0 <= k < |names| ==> (names[k] in gone <==> k < i)
        invariant AgreeOutside(b0, body[..], v.start, v.start + v.len)
        invariant PartitionIsolated(body[..], p) && Region(body[..], p) == v
        invariant Conserved(BitsAt(body[..], p), WithoutFiles(before, gone), bits, before)
        invariant forall n :: n in gone && n in before && before[n].File? ==> FileBits(before[n]).Some?
      {
        var n := names[i];
        WithoutOneMore(before, gone, n);
        if dirs[dirPath][n].File? {
          ghost var b := body[..];
          ok := MergeFile(dirPath, n, body, p);
          AgreesThrough(b0, b, body[..], v.start, v.start + v.len);
          if !ok {
            return false;
          }
          ConservedStep(BitsAt(b, p), WithoutFiles(before, gone), bits, before, n, FileBits(before[n]).value);
        }
        gone := gone + {n};
        i := i + 1;
      }
      WithoutAll(before, gone);
      return true;
    }

    /** The loop with the subscribers in view: they are not involved. */
    method MergeQuietly(dirPath: Path, body: array<byte>, p: int) returns (ok: bool)
      requires Valid() && body !in subscribers.Repr
      requires dirPath in dirs && AllReadable(dirs[dirPath]) && PartitionIsolated(body[..], p)
      modifies this`dirs, body
      ensures Valid() && subscribers.Repr == old(subscribers.Repr) && Pushing(true) == old(Pushing(true))
      ensures PartitionIsolated(body[..], p) && Region(body[..], p) == old(Region(body[..], p))
      ensures var v := Region(body[..], p); AgreeOutside(old(body[..]), body[..], v.start, v.start + v.len)
      ensures dirPath in dirs && dirs == old(dirs)[dirPath := dirs[dirPath]]
      ensures Conserved(BitsAt(body[..], p), dirs[dirPath], old(BitsAt(body[..], p)), old(dirs[dirPath]))
      ensures ok == AllPartitions(old(dirs[dirPath]))
      ensures ok ==> dirs[dirPath] == SubDirectories(old(dirs[dirPath]))
    {
      hide AllReadable, PartitionIsolated, Region, AgreeOutside, Conserved, BitsAt, AllPartitions, SubDirectories;
      ok := MergeFiles(dirPath, body, p);
    }

    /** One round of the push loop. */
    method PushTo(dirPath: Path, s: S.Stream, frame: Buffer) returns (failed: bool)
      requires Valid() && s in streams
      modifies this`streams, subscribers.Repr
      ensures Valid() && subscribers.Repr == old(subscribers.Repr)
      ensures failed == (!old(streams[s].closed) && old(streams[s].failing))
      ensures Pushing(!failed) == PushOne(old(Pushing(true)), PathText(dirPath), s, frame)
    {
      hide PathText, S.Removed;
      failed := false;
      if streams[s].closed {
        ghost var r := subscribers.Contents();
        subscribers.RemoveSubscriber(PathText(dirPath), s);
        RemovedWithin(r, PathText(dirPath), s);
      } else if streams[s].failing {
        failed := true;
      } else {
        streams := streams[s := streams[s].(sent := streams[s].sent + [frame])];
      }
    }

    /** The merged frame goes to every subscriber found, in order. */
    method PushFrame(dirPath: Path, frame: Buffer) returns (ok: bool, ghost order: seq<S.Pattern>)
      requires Valid()
      modifies this`streams, subscribers.Repr
      ensures Valid() && subscribers.Repr == old(subscribers.Repr)
      ensures Pushed(old(Pushing(true)), Pushing(ok), dirPath, order, frame)
    {
      hide Push, PathText, S.Removed, S.Flatten, PushOne;
      var found;
      found, order := subscribers.FindSubscribers(PathText(dirPath), matches);
      ghost var fs, start, key := found[..], Pushing(true), PathText(dirPath);
      FoundAreKnown(start, order);
      var i := 0;
      assert fs[0..] == fs;
      while i < found.Length
        invariant 0 <= i <= found.Length && found[..] == fs
        invariant Valid() && subscribers.Repr == old(subscribers.Repr)
        invariant streams.Keys == start.streams.Keys
        invariant Push(Pushing(true), key, fs[i..], frame) == Push(start, key, fs, frame)
      {
        PushStep(Pushing(true), key, fs, i, frame);
        var failed := PushTo(dirPath, found[i], frame);
        if failed {
          ok := false;
          return;
        }
        i := i + 1;
      }
      ok := true;
      PushNone(Pushing(true), key, frame);
      assert fs[i..] == [];
    }

    /** The frame went to the streams of all matching patterns, some order of which is given. */
    ghost predicate Pushed(a: PushState, b: PushState, dirPath: Path, order: seq<S.Pattern>, frame: Buffer) {
      && IsOrder(a.registry, order, dirPath) && FoundKnown(a, order)
      && b == Push(a, PathText(dirPath), S.Flatten(a.registry, order), frame)
    }

    /** The push fails exactly when the directory is blocked, and blocks or frees no other. */
    lemma PushedFlags(a: PushState, b: PushState, dirPath: Path, order: seq<S.Pattern>, frame: Buffer)
      requires Pushed(a, b, dirPath, order, frame) && a.ok
      ensures b.ok == !Blocked(a, matches, dirPath) && SameFlags(a.streams, b.streams)
      ensures forall p :: Blocked(b, matches, p) <==> Blocked(a, matches, p)
    {
      hide Push, PathText, S.Flatten;
      var found := S.Flatten(a.registry, order);
      PushFlags(a, PathText(dirPath), found, frame);
      forall s
        ensures s in found <==> exists q :: q in a.registry && matches(q, PathText(dirPath)) && s in a.registry[q]
      {
        FoundMember(a.registry, order, s);
      }
      forall p
        ensures Blocked(b, matches, p) <==> Blocked(a, matches, p)
      {
        PushBlocked(a, PathText(dirPath), found, frame, matches, p);
      }
    }

    ghost predicate IsOrder(r: S.Registry, order: seq<S.Pattern>, dirPath: Path) {
      S.Enumerates(order, Matched(r, dirPath))
    }

    /** The patterns whose streams are found for a directory. */
    ghost function Matched(r: S.Registry, dirPath: Path): set<S.Pattern> {
      S.Matching(r.Keys, matches, PathText(dirPath))
    }

    /** The merged bitmap becomes the one file of the directory; then its frame is pushed. */
    method WriteMerged(dirPath: Path, m: DomainData, bits: Bitmap)
      returns (ok: bool, ghost version: Buffer, ghost order: seq<S.Pattern>)
      requires Valid() && dirPath in dirs && Fits(m.(bits := Some(bits)))
      modifies this`dirs, this`drawn, this`streams, subscribers.Repr
      ensures Valid() && subscribers.Repr == old(subscribers.Repr)
      ensures version == uuids(old(drawn)) && |version| == 36 && drawn == old(drawn) + 1 && dirPath in dirs
      ensures dirs == old(dirs)[dirPath := dirs[dirPath]]
      ensures OneMore(old(dirs[dirPath]), dirs[dirPath], MergedFrame(m.domainId, m.name, version, bits))
      ensures Pushed(old(Pushing(true)), Pushing(ok), dirPath, order, MergedFrame(m.domainId, m.name, version, bits))
    {
      hide Frame, Pushed, IsMessage, BytesOf, BitsOf;
      var name := NewName(dirs[dirPath]);
      var v := uuids(drawn);
      drawn := drawn + 1;
      version := v;
      var frame := EncodeMerged(m.domainId, m.name, v, bits);
      dirs := dirs[dirPath := dirs[dirPath][name := File(frame)]];
      ok, order := PushFrame(dirPath, frame);
    }

    /**
     * What processPartition does with message m in directory d: nothing when d is empty,
     * an error when some file is no partition, else one merged file that is also pushed.
     */
    ghost predicate Processed(p: Path, d: Directory, d': Directory, a: PushState, b: PushState, m: DomainData,
                              merged: Bitmap, version: Buffer, order: seq<S.Pattern>) {
      && (d == map[] ==> d' == d && b == a)
      && (!AllPartitions(d) ==> b == a.(ok := false))
      && (d != map[] && AllPartitions(d) ==>
           && StoredMerged(d, d', m, merged, version)
           && Pushed(a, b, p, order, MergedFrame(m.domainId, m.name, version, merged)))
    }

    method ProcessPartition(dirPath: Path, body: array<byte>, pos: int)
      returns (ok: bool, ghost merged: Bitmap, ghost version: Buffer, ghost order: seq<S.Pattern>)
      requires Valid() && dirPath in dirs && AllReadable(dirs[dirPath])
      requires Isolated(body[..], pos) && Fits(Parse(body[..], pos).value) && body !in subscribers.Repr
      modifies this`dirs, this`drawn, this`streams, subscribers.Repr, body
      ensures Valid() && subscribers.Repr == old(subscribers.Repr) && dirPath in dirs
      ensures dirs == old(dirs)[dirPath := dirs[dirPath]]
      ensures Processed(dirPath, old(dirs[dirPath]), dirs[dirPath], old(Pushing(true)), Pushing(ok),
                        old(Parse(body[..], pos).value), merged, version, order)
    {
      hide ReadLE, VectorField, Bits, Parse, Region, PartitionIsolated, AgreeOutside, Conserved, MergedFrame, Pushed,
        SubDirectories, OneMore, AllPartitions, Isolated, IsMerge, GetPartition, BitsAt;
      merged, version, order := [], [], [];
      ghost var b, before := body[..], dirs[dirPath];
      IsolatedPartition(b, pos);
      var p := GetPartition(body[..], pos).value.value;
      var listed := |dirs[dirPath]|;
      ok := MergeQuietly(dirPath, body, p);
      NoFilesLeft(before);
      if ok && listed != 0 {
        MergedMessage(b, body[..], pos, p, before, dirs[dirPath]);
        var m := Parse(body[..], pos).value;
        merged := m.bits.value;
        ok, version, order := WriteMerged(dirPath, m, m.bits.value);
      }
    }

    /** os.MkdirAll. */
    method MakeDir(p: Path)
      modifies this`dirs
      ensures dirs == old(dirs)[p := DirAt(old(dirs), p)]
    {
      if p !in dirs {
        dirs := dirs[p := map[]];
      }
    }

    /** The size bytes and the body are written to a new file of the directory. */
    method SaveRaw(dirPath: Path, header: Buffer, body: Buffer)
      modifies this`dirs, this`log
      ensures dirPath in dirs && dirs == old(dirs)[dirPath := dirs[dirPath]]
      ensures OneMore(DirAt(old(dirs), dirPath), dirs[dirPath], header + body)
      ensures log == old(log) + [header + body]
    {
      MakeDir(dirPath);
      var name := NewName(dirs[dirPath]);
      dirs := dirs[dirPath := dirs[dirPath][name := File(header + body)]];
      log := log + [header + body];
    }

    /** Partitions are processed, anything else stays as it is. */
    ghost predicate Classified(dirs: Directories, dirs': Directories, a: PushState, b: PushState, m: DomainData,
                               merged: Bitmap, version: Buffer, order: seq<S.Pattern>) {
      var p := MessagePath(basePath, m);
      var d := DirAt(dirs, p);
      && p in dirs' && dirs' == dirs[p := dirs'[p]]
      && if m.dataType == PARTITION then Processed(p, d, dirs'[p], a, b, m, merged, version, order)
         else dirs'[p] == d && b == a
    }

    /** The merged frame of a partition is stored and pushed; other messages are told to nobody. */
    ghost predicate PushedOut(dirs: Directories, a: PushState, b: PushState, m: DomainData,
                              merged: Bitmap, version: Buffer, order: seq<S.Pattern>) {
      var p := MessagePath(basePath, m);
      if m.dataType == PARTITION then
        && StoredAlone(dirs, p, m, merged, version)
        && Pushed(a, b, p, order, MergedFrame(m.domainId, m.name, version, merged))
      else b == a
    }

    /** The raw file and then the classification make up one round. */
    lemma RoundTaken(d0: Directories, d1: Directories, d2: Directories, a: PushState, b: PushState,
                     header: Buffer, body: Buffer,
                     merged: Bitmap, version: Buffer, order: seq<S.Pattern>)
      requires AllSettled(d0) && CleanPath(basePath) && a.ok
      requires |header| == 4 && CleanUpload(body)
      requires var m := ParseBody(body).value; var p := MessagePath(basePath, m);
        && p in d1 && d1 == d0[p := d1[p]] && OneMore(DirAt(d0, p), d1[p], header + body)
        && Classified(d1, d2, a, b, m, merged, version, order)
      ensures Took(d0, d2, basePath, ParseBody(body).value, header + body)
      ensures AllSettled(d2) && PushedOut(d2, a, b, ParseBody(body).value, merged, version, order)
    {
      hide ReadLE, Parse, Isolated, Fits, StoredMerged, StoredAlone, Pushed, MergedFrame, AllPartitions, MessagePath,
        Took, AllSettled, AllReadable, FileBits, Text, OneMore, IsPartitionDir;
      var m := ParseBody(body).value;
      var p := MessagePath(basePath, m);
      PathKind(basePath, m);
      if m.dataType == PARTITION {
        IsolatedPartition(body, Root(body, 0).value);
        PartitionPending(d0, p, body, m, header, d1[p]);
        PartitionTaken(d0, d2, basePath, m, header + body, d1[p], merged, version);
      } else {
        OtherTaken(d0, d2, basePath, m, header + body);
      }
    }

    /** Whether the round ends in an error, and what it leaves of the streams. */
    lemma RoundFlags(dirs: Directories, a: PushState, b: PushState, m: DomainData,
                     merged: Bitmap, version: Buffer, order: seq<S.Pattern>)
      requires PushedOut(dirs, a, b, m, merged, version, order) && a.ok
      ensures b.ok == !Stuck(a, m) && SameFlags(a.streams, b.streams)
      ensures forall k :: Stuck(b.(ok := true), k) <==> Stuck(a, k)
    {
      hide MessagePath, StoredAlone, MergedFrame, Pushed, PathText;
      if m.dataType == PARTITION {
        PushedFlags(a, b, MessagePath(basePath, m), order, MergedFrame(m.domainId, m.name, version, merged));
      }
    }

    /** Message m would be pushed to a stream that cannot be written to. */
    ghost predicate Stuck(st: PushState, m: DomainData) {
      m.dataType == PARTITION && Blocked(st, matches, MessagePath(basePath, m))
    }

    /** With no failing stream no message gets stuck. */
    lemma NeverStuck(st: PushState, m: DomainData)
      requires NoneFailing(st.streams)
      ensures !Stuck(st, m)
    {
      hide PathText, MessagePath;
    }

    /** classifyDomainData: partitions are merged, everything else stays as it was received. */
    method Classify(body: array<byte>, pos: int)
      returns (ok: bool, ghost merged: Bitmap, ghost version: Buffer, ghost order: seq<S.Pattern>)
      requires Valid() && body !in subscribers.Repr && Parse(body[..], pos).Some?
      requires var m := Parse(body[..], pos).value; m.dataType == PARTITION ==>
        Isolated(body[..], pos) && Fits(m) && AllReadable(DirAt(dirs, MessagePath(basePath, m)))
      modifies this`dirs, this`drawn, this`streams, subscribers.Repr, body
      ensures Valid() && subscribers.Repr == old(subscribers.Repr)
      ensures Classified(old(dirs), dirs, old(Pushing(true)), Pushing(ok), old(Parse(body[..], pos).value),
                         merged, version, order)
    {
      hide ReadLE, ScalarField, ByteField, Bits, MessagePath, DirPath, AllReadable, Isolated, Processed, Fits, Text;
      merged, version, order := [], [], [];
      var dirPath := DirPath(basePath, Text(DomainId(body[..], pos).value), Text(Name(body[..], pos).value),
                             DataType(body[..], pos).value);
      PathOf(body[..], pos, basePath);
      MakeDir(dirPath);
      UnionPresent(body[..], pos);
      if Data(body[..], pos).value.Some? && DataType(body[..], pos).value == PARTITION {
        ok, merged, version, order := ProcessPartition(dirPath, body, pos);
      } else {
        ok := true;
      }
    }

    /** The received bytes in a buffer of their own, the root table in them, and the directory they belong to. */
    method Locate(received: Buffer) returns (body: array<byte>, pos: int, dirPath: Path)
      requires ParseBody(received).Some?
      ensures fresh(body) && body[..] == received
      ensures Root(received, 0) == Some(pos) && dirPath == MessagePath(basePath, ParseBody(received).value)
    {
      hide ReadLE, ScalarField, ByteField, Bits, DirPath, Parse;
      body := new byte[|received|](i requires 0 <= i < |received| => received[i]);
      assert body[..] == received;
      pos := Root(body[..], 0).value;
      PathOf(body[..], pos, basePath);
      dirPath := DirPath(basePath, Text(DomainId(body[..], pos).value), Text(Name(body[..], pos).value),
                         DataType(body[..], pos).value);
    }

    /** The buffer can be classified once its raw file is there. */
    lemma ReadyToClassify(d0: Directories, d1: Directories, header: Buffer, body: Buffer)
      requires AllSettled(d0) && CleanPath(basePath) && |header| == 4 && CleanUpload(body)
      requires var p := MessagePath(basePath, ParseBody(body).value);
        p in d1 && OneMore(DirAt(d0, p), d1[p], header + body)
      ensures var m := ParseBody(body).value; m.dataType == PARTITION ==>
        Isolated(body, Root(body, 0).value) && Fits(m) && AllReadable(DirAt(d1, MessagePath(basePath, m)))
    {
      hide ReadLE, Parse, Isolated, Fits, MessagePath, AllSettled, AllReadable, OneMore, IsPartitionDir, Text;
      var m := ParseBody(body).value;
      PathKind(basePath, m);
      if m.dataType == PARTITION {
        IsolatedPartition(body, Root(body, 0).value);
        PartitionPending(d0, MessagePath(basePath, m), body, m, header, d1[MessagePath(basePath, m)]);
      }
    }

    /** One round of the receive loop, for one clean message: save the raw frame, then classify it. */
    method TakeIn(header: Buffer, received: Buffer)
      returns (ok: bool, ghost merged: Bitmap, ghost version: Buffer, ghost order: seq<S.Pattern>)
      requires Valid() && AllSettled(dirs)
      requires |header| == 4 && CleanUpload(received)
      modifies this`dirs, this`drawn, this`streams, this`log, subscribers.Repr
      ensures Valid() && AllSettled(dirs) && subscribers.Repr == old(subscribers.Repr)
      ensures log == old(log) + [header + received]
      ensures Took(old(dirs), dirs, basePath, ParseBody(received).value, header + received)
      ensures PushedOut(dirs, old(Pushing(true)), Pushing(ok), ParseBody(received).value, merged, version, order)
      ensures ok == !Stuck(old(Pushing(true)), ParseBody(received).value) && SameFlags(old(streams), streams)
      ensures forall k :: Stuck(Pushing(true), k) <==> Stuck(old(Pushing(true)), k)
    {
      hide ReadLE, Parse, Isolated, Fits, MessagePath, PushedOut, Took, AllSettled, AllReadable, OneMore,
        Classified, Text, Blocked;
      ghost var before := dirs;
      var body, pos, dirPath := Locate(received);
      SaveRaw(dirPath, header, body[..]);
      ReadyToClassify(before, dirs, header, received);
      ghost var saved, waiting := dirs, Pushing(true);
      ok, merged, version, order := Classify(body, pos);
      RoundTaken(before, saved, dirs, waiting, Pushing(ok), header, received, merged, version, order);
      RoundFlags(dirs, waiting, Pushing(ok), ParseBody(received).value, merged, version, order);
    }

    /** The loop took in the first n messages: up to the first one it got stuck on, or all of them. */
    ghost predicate StopsAfter(st: PushState, ms: seq<DomainData>, n: nat, failed: bool) {
      && n <= |ms| && (forall i :: 0 <= i < n - 1 ==> !Stuck(st, ms[i]))
      && if failed then n > 0 && Stuck(st, ms[n - 1]) else n == |ms| && forall i :: 0 <= i < n ==> !Stuck(st, ms[i])
    }

    /** The first n messages, none of which the loop got stuck on, have been taken in. */
    ghost predicate TakenIn(start: Directories, st: PushState, ms: seq<DomainData>, fs: seq<Buffer>, n: nat)
      reads this, subscribers, subscribers.Repr
      requires Valid()
    {
      && n <= |ms| == |fs| && Ingested(start, dirs, basePath, ms[..n], fs[..n]) && SameFlags(st.streams, streams)
      && (forall k :: Stuck(Pushing(true), k) <==> Stuck(st, k)) && forall i :: 0 <= i < n ==> !Stuck(st, ms[i])
    }

    lemma NothingTakenIn(ms: seq<DomainData>, fs: seq<Buffer>)
      requires Valid() && AllSettled(dirs) && |ms| == |fs|
      ensures TakenIn(dirs, Pushing(true), ms, fs, 0)
    {
      hide AllSettled, Stuck, Ingested;
      NothingIngested(dirs, basePath);
      assert ms[..0] == [] && fs[..0] == [];
    }

    lemma AllTakenIn(start: Directories, st: PushState, ms: seq<DomainData>, fs: seq<Buffer>)
      requires Valid() && TakenIn(start, st, ms, fs, |ms|)
      ensures StopsAfter(st, ms, |ms|, false) && SameFlags(st.streams, streams)
      ensures Ingested(start, dirs, basePath, ms[..|ms|], fs[..|ms|])
    {
      hide Stuck, Ingested, SameFlags;
    }

    /** One round of the loop, with what was received before it in view. */
    method TakeNext(header: Buffer, body: Buffer, ghost start: Directories, ghost st: PushState,
                    ghost fs: seq<Buffer>, ghost n: nat)
      returns (ok: bool)
      requires Valid() && AllSettled(dirs) && AllClean(fs) && TakenIn(start, st, Messages(fs), fs, n)
      requires n < |fs| && |header| == 4 && fs[n] == header + body
      modifies this`dirs, this`drawn, this`streams, this`log, subscribers.Repr
      ensures Valid() && AllSettled(dirs) && subscribers.Repr == old(subscribers.Repr)
      ensures log == old(log) + [fs[n]]
      ensures ok ==> TakenIn(start, st, Messages(fs), fs, n + 1)
      ensures !ok ==> StopsAfter(st, Messages(fs), n + 1, true) && SameFlags(st.streams, streams)
      ensures !ok ==> Ingested(start, dirs, basePath, Messages(fs)[..n + 1], fs[..n + 1])
    {
      hide CleanUpload, PushedOut, AllSettled, Took, Ingested, ParseBody, Sorted, Stuck, SameFlags, Messages;
      ghost var ms, before, now := Messages(fs), dirs, streams;
      CleanSorted(basePath, fs);
      Around(fs, n);
      Around(ms, n);
      assert fs[n][4..] == body;
      SortedParts(basePath, ms, n);
      ghost var merged, version, order;
      ok, merged, version, order := TakeIn(header, body);
      SameThroughout(st.streams, now, streams);
      IngestedOne(start, before, dirs, basePath, ms[..n], fs[..n], ms[n], fs[n]);
    }

    /** The loop on a stream of bytes that parses as all, from the state given by start and st. */
    method ReceiveAll(reader: F.Reader, ghost all: F.Frames, ghost start: Directories, ghost st: PushState)
      returns (r: ReceiveResult, ghost n: nat)
      requires Valid() && AllSettled(dirs) && reader !in subscribers.Repr
      requires ReadUpTo(all, reader.Remaining(), 0) && AllClean(all.frames)
      requires TakenIn(start, st, Messages(all.frames), all.frames, 0) && !all.end.Frame?
      modifies this`dirs, this`drawn, this`streams, this`log, subscribers.Repr, reader
      ensures Valid() && AllSettled(dirs)
      ensures subscribers.Repr == old(subscribers.Repr) && SameFlags(st.streams, streams)
      ensures StopsAfter(st, Messages(all.frames), n, r == CallbackError) && n <= |all.frames|
      ensures r != CallbackError ==> r == ResultOf(all.end)
      ensures log == old(log) + all.frames[..n]
      ensures Ingested(start, dirs, basePath, Messages(all.frames)[..n], all.frames[..n])
    {
      hide *;
      ghost var fs := all.frames;
      n := 0;
      assert log + fs[..0] == log;
      while true
        invariant Valid() && AllSettled(dirs) && subscribers.Repr == old(subscribers.Repr)
        invariant n <= |fs| && ReadUpTo(all, reader.Remaining(), n)
        invariant log == old(log) + fs[..n] && TakenIn(start, st, Messages(fs), fs, n)
        decreases |reader.Remaining()|
      {
        ghost var s := reader.Remaining();
        var frame := reader.NextFrame();
        ReadOn(all, s, n, frame);
        if !frame.Frame? {
          AllTakenIn(start, st, Messages(fs), fs);
          return ResultOf(frame), n;
        }
        assert s[4 + |frame.body|..] == reader.Remaining() && fs[..n + 1] == fs[..n] + [fs[n]];
        var ok := TakeNext(frame.header, frame.body, start, st, fs, n);
        n := n + 1;
        if !ok {
          return CallbackError, n;
        }
      }
    }

    /**
     * ReceiveDomainData with classifyDomainData as its callback, on clean uploads. It
     * ends with an error of the callback exactly when some message would be pushed to a
     * stream that cannot be written to, after the first such message; otherwise the
     * result depends only on how the bytes end. The raw frames written are those taken
     * in, whatever pieces they arrived in. Afterwards every partition directory holds
     * what the uploads taken in amount to, the last one included, every other message is
     * in a file of its own, and directories no message belongs to are as they were.
     */
    method ReceiveDomainData(reader: F.Reader) returns (r: ReceiveResult, ghost n: nat)
      requires Valid() && AllSettled(dirs) && reader !in subscribers.Repr
      requires AllClean(F.ParseStream(reader.Remaining()).frames)
      modifies this`dirs, this`drawn, this`streams, this`log, subscribers.Repr, reader
      ensures Valid() && AllSettled(dirs)
      ensures subscribers.Repr == old(subscribers.Repr) && SameFlags(old(streams), streams)
      ensures StopsAfter(old(Pushing(true)), Messages(old(F.ParseStream(reader.Remaining())).frames), n,
                         r == CallbackError)
      ensures r != CallbackError ==> r == ResultOf(old(F.ParseStream(reader.Remaining())).end)
      ensures log == old(log) + old(F.ParseStream(reader.Remaining())).frames[..n]
      ensures var fs := old(F.ParseStream(reader.Remaining())).frames;
        Ingested(old(dirs), dirs, basePath, Messages(fs)[..n], fs[..n])
    {
      hide F.ParseStream, AllClean, TakenIn, Ingested, StopsAfter, Messages, Stuck, AllSettled, SameFlags, ReadUpTo;
      ghost var all := F.ParseStream(reader.Remaining());
      NothingTakenIn(Messages(all.frames), all.frames);
      ReadNothing(reader.Remaining());
      r, n := ReceiveAll(reader, all, dirs, Pushing(true));
    }
  }

  lemma SameAsNow(a: map<S.Stream, StreamState>)
    ensures SameFlags(a, a)
  {
  }

  lemma FlagsNotFailing(a: map<S.Stream, StreamState>, b: map<S.Stream, StreamState>)
    requires SameFlags(a, b) && NoneFailing(a)
    ensures NoneFailing(b)
  {
  }

  lemma SameThroughout(a: map<S.Stream, StreamState>, b: map<S.Stream, StreamState>, c: map<S.Stream, StreamState>)
    requires SameFlags(a, b) && SameFlags(b, c)
    ensures SameFlags(a, c)
  {
  }
}
