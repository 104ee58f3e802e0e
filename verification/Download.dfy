/** The download handler of the data node: subscribe, list the domain, copy one file per directory. */
module Download {
  import opened Wrappers
  import opened LittleEndian
  import opened DirectoryKeys
  import opened PartitionStore
  import opened DataNode
  import S = Subscribers

  /** The pattern of a request; an empty name and the type NONE stand for everything. */
  function PatternOf(name: string, kind: nat): S.Pattern {
    (if name == "" then ".*" else name) + "_" + (if kind == 0 then ".*" else TypeName(kind))
  }

  /** The directories the handler looks at. */
  function Wanted(dirs: Directories, root: Path, matches: (S.Pattern, string) -> bool, pattern: S.Pattern): set<Path> {
    set p | p in dirs && p != [] && p[..|p| - 1] == root && matches(pattern, p[|p| - 1])
  }

  /** The file chosen in each directory that was copied. */
  datatype Pick = Pick(dir: Path, name: string)

  ghost predicate IsPick(dirs: Directories, k: Pick) {
    k.dir in dirs && k.name in dirs[k.dir] && dirs[k.dir][k.name].File?
  }

  function ContentOf(dirs: Directories, k: Pick): Buffer {
    if k.dir in dirs && k.name in dirs[k.dir] && dirs[k.dir][k.name].File? then dirs[k.dir][k.name].content else []
  }

  function Copied(dirs: Directories, picks: seq<Pick>): (r: seq<Buffer>)
    ensures |r| == |picks|
  {
    seq(|picks|, i requires 0 <= i < |picks| => ContentOf(dirs, picks[i]))
  }

  /** picks has one file of every directory in done that has any. */
  ghost predicate PicksFor(dirs: Directories, done: set<Path>, picks: seq<Pick>) {
    && (forall i :: 0 <= i < |picks| ==> IsPick(dirs, picks[i]) && picks[i].dir in done)
    && (forall i, j :: 0 <= i < j < |picks| ==> picks[i].dir != picks[j].dir)
    && (forall p :: p in done && p in dirs && dirs[p] != map[] ==> exists i :: 0 <= i < |picks| && picks[i].dir == p)
  }

  lemma NoPicks(dirs: Directories)
    ensures PicksFor(dirs, {}, []) && Copied(dirs, []) == []
  {
  }

  lemma EmptyDirectory(dirs: Directories, done: set<Path>, picks: seq<Pick>, p: Path)
    requires PicksFor(dirs, done, picks)
    ensures p in dirs && dirs[p] == map[] ==> PicksFor(dirs, done + {p}, picks)
  {
  }

  lemma OneMorePick(dirs: Directories, done: set<Path>, picks: seq<Pick>, k: Pick)
    requires PicksFor(dirs, done, picks) && IsPick(dirs, k) && k.dir !in done
    ensures PicksFor(dirs, done + {k.dir}, picks + [k])
    ensures Copied(dirs, picks + [k]) == Copied(dirs, picks) + [ContentOf(dirs, k)]
  {
    var more := picks + [k];
    assert more[|picks|] == k;
    forall p | p in done + {k.dir} && p in dirs && dirs[p] != map[]
      ensures exists i :: 0 <= i < |more| && more[i].dir == p
    {
      if p in done {
        var i :| 0 <= i < |picks| && picks[i].dir == p;
        assert more[i].dir == p;
      }
    }
  }

  /** The stream after the copies of the picked files. */
  function WithCopies(x: StreamState, copies: seq<Buffer>): StreamState {
    x.(sent := x.sent + copies)
  }

  lemma CopiesMore(x: StreamState, copies: seq<Buffer>, more: Buffer)
    ensures WithCopies(WithCopies(x, copies), [more]) == WithCopies(x, copies + [more]) && WithCopies(x, []) == x
  {
    assert x.sent + copies + [more] == x.sent + (copies + [more]) && x.sent + [] == x.sent;
  }

  /** The first of the files of a directory that has any. */
  method FirstFile(node: Node, p: Path) returns (n: string)
    requires p in node.dirs && node.dirs[p] != map[]
    ensures n in node.dirs[p]
  {
    var files := ReadDir(node.dirs[p]);
    var some :| some in node.dirs[p];
    assert some in files;
    n := files[0];
  }

  /** Opening the file that was listed under name n and reading it; by now it may have been removed. */
  method OpenFile(node: Node, p: Path, n: string) returns (content: Option<Buffer>)
    requires p in node.dirs && (n in node.dirs[p] ==> node.dirs[p][n].File?)
    ensures content == if n in node.dirs[p] then Some(node.dirs[p][n].content) else None
  {
    content := if n in node.dirs[p] then Some(node.dirs[p][n].content) else None;
  }

  /** A stream that can be written to. */
  predicate Writable(x: StreamState) {
    !x.closed && !x.failing
  }

  /** What was read is copied to the stream; this fails when the peer is gone or the stream broken. */
  method SendCopy(node: Node, s: S.Stream, content: Buffer) returns (ok: bool)
    requires s in node.streams
    modifies node`streams
    ensures ok == Writable(old(node.streams[s]))
    ensures node.streams ==
      if ok then old(node.streams)[s := WithCopies(old(node.streams[s]), [content])] else old(node.streams)
  {
    ok := Writable(node.streams[s]);
    if ok {
      node.streams := node.streams[s := WithCopies(node.streams[s], [content])];
    }
  }

  /** The first file of one directory, if it has any, is copied. */
  method CopyOne(node: Node, p: Path, s: S.Stream) returns (ok: bool, ghost k: Pick)
    requires s in node.streams && p in node.dirs
    requires forall n :: n in node.dirs[p] ==> node.dirs[p][n].File?
    modifies node`streams
    ensures node.dirs[p] == map[] ==> ok && node.streams == old(node.streams)
    ensures node.dirs[p] != map[] ==> k.dir == p && IsPick(node.dirs, k) && ok == Writable(old(node.streams[s]))
    ensures node.dirs[p] != map[] ==>
      (ok ==> node.streams == old(node.streams)[s := WithCopies(old(node.streams[s]), [ContentOf(node.dirs, k)])])
    ensures !ok ==> node.streams == old(node.streams)
  {
    hide WithCopies;
    ok, k := true, Pick(p, "");
    if node.dirs[p] != map[] {
      var n := FirstFile(node, p);
      var content := OpenFile(node, p, n);
      k := Pick(p, n);
      ok := SendCopy(node, s, content.value);
    }
  }

  /** Some directory among wanted has a file to copy. */
  predicate AnyFile(dirs: Directories, wanted: set<Path>) {
    exists p :: p in wanted && p in dirs && dirs[p] != map[]
  }

  /**
   * The loop over the matching directories, in whatever order. It returns at the first
   * copy that fails: on a stream that cannot be written to nothing is written at all.
   */
  method CopyOut(node: Node, wanted: set<Path>, s: S.Stream) returns (ok: bool, ghost picks: seq<Pick>)
    requires s in node.streams && forall p :: p in wanted ==> p in node.dirs
    requires forall p :: p in node.dirs ==> forall n :: n in node.dirs[p] ==> node.dirs[p][n].File?
    modifies node`streams
    ensures ok == (Writable(old(node.streams[s])) || !AnyFile(node.dirs, wanted))
    ensures ok ==> PicksFor(node.dirs, wanted, picks)
    ensures node.streams ==
      if ok then old(node.streams)[s := WithCopies(old(node.streams[s]), Copied(node.dirs, picks))]
      else old(node.streams)
  {
    hide PicksFor, ContentOf, Copied, WithCopies, IsPick;
    ghost var start, done: set<Path> := node.streams[s], {};
    picks := [];
    NoPicks(node.dirs);
    CopiesMore(start, [], []);
    var todo := wanted;
    while todo != {}
      invariant done + todo == wanted && done !! todo && PicksFor(node.dirs, done, picks)
      invariant node.streams == old(node.streams)[s := WithCopies(start, Copied(node.dirs, picks))]
      invariant !Writable(start) ==> picks == [] && forall p :: p in done ==> node.dirs[p] == map[]
    {
      var p :| p in todo;
      todo := todo - {p};
      EmptyDirectory(node.dirs, done, picks, p);
      SameAbility(start, Copied(node.dirs, picks));
      ghost var k;
      ok, k := CopyOne(node, p, s);
      if !ok {
        assert AnyFile(node.dirs, wanted);
        return;
      }
      if node.dirs[p] != map[] {
        OneMorePick(node.dirs, done, picks, k);
        CopiesMore(start, Copied(node.dirs, picks), ContentOf(node.dirs, k));
        picks := picks + [k];
      }
      done := done + {p};
    }
    ok := true;
    assert done == wanted;
  }

  lemma SameAbility(x: StreamState, copies: seq<Buffer>)
    ensures WithCopies(x, copies).failing == x.failing && WithCopies(x, copies).closed == x.closed
  {
  }

  /** Copying leaves the registry alone. */
  method CopyAll(node: Node, wanted: set<Path>, s: S.Stream) returns (ok: bool, ghost picks: seq<Pick>)
    requires node.Valid() && s in node.streams && forall p :: p in wanted ==> p in node.dirs
    requires forall p :: p in node.dirs ==> forall n :: n in node.dirs[p] ==> node.dirs[p][n].File?
    modifies node`streams
    ensures node.Valid() && node.subscribers.Contents() == old(node.subscribers.Contents())
    ensures ok == (Writable(old(node.streams[s])) || !AnyFile(node.dirs, wanted))
    ensures ok ==> PicksFor(node.dirs, wanted, picks)
    ensures node.streams ==
      if ok then old(node.streams)[s := WithCopies(old(node.streams[s]), Copied(node.dirs, picks))]
      else old(node.streams)
  {
    hide PicksFor, Copied, WithCopies, AnyFile, Writable;
    ok, picks := CopyOut(node, wanted, s);
  }

  method Subscribe(node: Node, pattern: S.Pattern, s: S.Stream)
    requires node.Valid() && s in node.streams
    modifies node.subscribers.Repr
    ensures node.Valid() && fresh(node.subscribers.Repr - old(node.subscribers.Repr))
    ensures node.subscribers.Contents() == S.Added(old(node.subscribers.Contents()), pattern, s)
  {
    node.subscribers.AddSubscriber(pattern, s);
  }

  /**
   * The stream is registered first. Then it gets, once each and in some order, a file of
   * every directory of the domain whose name matches and which is not empty. The handler
   * returns early, having written nothing, when there is such a directory but the stream
   * cannot be written to.
   */
  method OnDownloadRequest(node: Node, domain: string, name: string, kind: nat, s: S.Stream)
    returns (ok: bool, ghost picks: seq<Pick>)
    requires node.Valid() && s in node.streams
    requires forall p :: p in node.dirs ==> forall n :: n in node.dirs[p] ==> node.dirs[p][n].File?
    modifies node`streams, node.subscribers.Repr
    ensures node.Valid() && fresh(node.subscribers.Repr - old(node.subscribers.Repr))
    ensures node.subscribers.Contents() == S.Added(old(node.subscribers.Contents()), PatternOf(name, kind), s)
    ensures var wanted := Wanted(node.dirs, DomainRoot(node.basePath, domain), node.matches, PatternOf(name, kind));
      && ok == (Writable(old(node.streams[s])) || !AnyFile(node.dirs, wanted))
      && (ok ==> PicksFor(node.dirs, wanted, picks))
    ensures node.streams ==
      if ok then old(node.streams)[s := WithCopies(old(node.streams[s]), Copied(node.dirs, picks))]
      else old(node.streams)
  {
    hide PatternOf, PicksFor, Copied, WithCopies, S.Added, AnyFile, Writable;
    var key := PatternOf(name, kind);
    Subscribe(node, key, s);
    var wanted := Wanted(node.dirs, DomainRoot(node.basePath, domain), node.matches, key);
    ok, picks := CopyAll(node, wanted, s);
  }

  /** What is copied from a settled directory is a frame of the stored bitmap. */
  lemma CopyShowsStored(dirs: Directories, picks: seq<Pick>, i: nat)
    requires i < |picks| && IsPick(dirs, picks[i]) && Settled(dirs[picks[i].dir])
    ensures FileBits(File(Copied(dirs, picks)[i])) == Some(StoredBits(dirs[picks[i].dir]))
  {
    hide FileBits;
    var d := dirs[picks[i].dir];
    var n :| SoleFile(d, n);
    StoredBitsOf(d, n);
    assert picks[i].name in d.Keys;
  }
}
