/**
 * The data node refines the snapshot protocol: taking in an upload, subscribing, listing
 * and copying one directory are its steps, so its results hold for directories, registry
 * and stream contents.
 */
module Refinement {
  import opened Wrappers
  import opened LittleEndian
  import opened DomainDataWire
  import opened Bitmaps
  import opened DirectoryKeys
  import opened PartitionStore
  import opened FrameViews
  import opened PartitionMerge
  import opened DataNode
  import opened Download
  import F = Framing
  import S = Subscribers
  import P = SnapshotProtocol

  // ----- What a state of the node stands for -------------------------------------------------

  predicate PlainKey(k: P.Key) {
    Plain(Text(k.domain)) && '/' !in Text(k.name)
  }

  function KeyPath(base: Path, k: P.Key): Path {
    DirPath(base, Text(k.domain), Text(k.name), k.kind)
  }

  function KeyOf(m: DomainData): P.Key {
    P.Key(m.domainId, m.name, m.dataType)
  }

  /** A whole frame with a message of the item's key and, for a partition, with its bitmap. */
  ghost predicate Carries(frame: Buffer, x: P.Item) {
    && F.IsFrame(frame) && ParseFrame(frame).Some? && ParseBody(frame[4..]) == ParseFrame(frame)
    && var m := ParseFrame(frame).value;
      KeyOf(m) == x.key && (m.dataType == PARTITION ==> m.bits == Some(x.bits))
  }

  ghost predicate DirMatches(d: Directory, items: seq<P.Item>) {
    && items != [] && d != map[]
    && forall n :: n in d ==> d[n].File? && exists i :: 0 <= i < |items| && Carries(d[n].content, items[i])
  }

  ghost predicate FilesMatch(base: Path, dirs: Directories, s: P.State) {
    && (forall k :: k in s.files ==>
         PlainKey(k) && KeyPath(base, k) in dirs && DirMatches(dirs[KeyPath(base, k)], s.files[k]))
    && (forall p :: p in dirs ==> exists k :: k in s.files && KeyPath(base, k) == p)
  }

  ghost predicate SentMatches(frames: seq<Buffer>, items: seq<P.Item>) {
    |frames| == |items| && forall i :: 0 <= i < |items| ==> Carries(frames[i], items[i])
  }

  ghost predicate SessionMatches(streams: map<S.Stream, StreamState>, id: nat, x: P.Session) {
    && id in streams && streams[id].closed == x.closed
    && SentMatches(streams[id].sent, x.sent)
  }

  /** A live session's stream is registered once, under its pattern. */
  ghost predicate Registered(r: S.Registry, id: nat, x: P.Session) {
    forall p: S.Pattern :: multiset(S.Get(r, p))[id] == if p == x.pattern then 1 else 0
  }

  ghost predicate SessionsMatch(st: PushState, s: P.State) {
    forall id :: id in s.sessions ==>
      && SessionMatches(st.streams, id, s.sessions[id])
      && (!s.sessions[id].closed ==> Registered(st.registry, id, s.sessions[id]))
  }

  lemma KeyPathInjective(base: Path, j: P.Key, k: P.Key)
    requires CleanPath(base) && PlainKey(j) && PlainKey(k) && KeyPath(base, j) == KeyPath(base, k)
    ensures j == k
  {
    hide DirPath, Text, Plain;
    DirPathInjective(base, Text(j.domain), Text(j.name), j.kind, Text(k.domain), Text(k.name), k.kind);
    TextInjective(j.domain, k.domain);
    TextInjective(j.name, k.name);
  }

  // ----- An upload is a step -----------------------------------------------------------------

  /** The bits of an upload as the protocol sees it. */
  function UploadedBits(m: DomainData): Bitmap {
    if m.dataType == PARTITION && m.bits.Some? then m.bits.value else []
  }

  lemma SettledCarries(base: Path, dirs: Directories, s: P.State, k: P.Key)
    requires FilesMatch(base, dirs, s) && P.WellStored(s) && k in s.files && k.kind == PARTITION
    requires Settled(dirs[KeyPath(base, k)])
    ensures |s.files[k]| == 1 && StoredBits(dirs[KeyPath(base, k)]) == s.files[k][0].bits
  {
    hide KeyPath, PlainKey, Carries, FileBits, StoredBits;
    var d := dirs[KeyPath(base, k)];
    var n :| SoleFile(d, n);
    StoredBitsOf(d, n);
    assert n in d && d[n].File?;
    var i :| 0 <= i < |s.files[k]| && Carries(d[n].content, s.files[k][i]);
    CarriedBits(d[n], s.files[k][0]);
  }

  lemma CarriedBits(f: Entry, x: P.Item)
    requires f.File? && Carries(f.content, x) && FileBits(f).Some? && x.key.kind == PARTITION
    ensures FileBits(f) == Some(x.bits)
  {
    hide ParseFrame;
  }

  lemma MergedCarries(m: DomainData, merged: Bitmap, version: Buffer, x: P.Item)
    requires Fits(m) && |version| == 36 && |merged| == |m.bits.value| && m.dataType == PARTITION
    requires x.key == KeyOf(m) && x.bits == merged
    ensures Carries(MergedFrame(m.domainId, m.name, version, merged), x)
  {
    hide Frame, Parse;
    FrameRoundTrip(m.domainId, m.name, Some(version), BytesOf(merged));
    assert BitsOf(BytesOf(merged)) == merged;
  }

  lemma OneMoreMatches(d: Directory, d': Directory, items: seq<P.Item>, frame: Buffer, x: P.Item)
    requires OneMore(d, d', frame) && Carries(frame, x) && (d == map[] || DirMatches(d, items))
    ensures DirMatches(d', items + [x])
  {
    hide Carries;
    var n :| n !in d && d' == d[n := File(frame)];
    var more := items + [x];
    assert more[|items|] == x && n in d';
    forall j | j in d'
      ensures d'[j].File? && exists i :: 0 <= i < |more| && Carries(d'[j].content, more[i])
    {
      if j != n {
        var i :| 0 <= i < |items| && Carries(d[j].content, items[i]);
        assert more[i] == items[i];
      }
    }
  }

  /** The directories after a message match the files after the protocol's step. */
  lemma FilesStayMatched(base: Path, dirs: Directories, dirs': Directories, s: P.State, k: P.Key,
                         items: seq<P.Item>, s': P.State)
    requires CleanPath(base) && FilesMatch(base, dirs, s) && PlainKey(k)
    requires KeyPath(base, k) in dirs' && dirs' == dirs[KeyPath(base, k) := dirs'[KeyPath(base, k)]]
    requires DirMatches(dirs'[KeyPath(base, k)], items) && s'.files == s.files[k := items]
    ensures FilesMatch(base, dirs', s')
  {
    hide KeyPath, PlainKey, DirMatches;
    forall j | j in s'.files
      ensures PlainKey(j) && KeyPath(base, j) in dirs' && DirMatches(dirs'[KeyPath(base, j)], s'.files[j])
    {
      if j != k && KeyPath(base, j) == KeyPath(base, k) {
        KeyPathInjective(base, j, k);
      }
    }
    forall p | p in dirs'
      ensures exists j :: j in s'.files && KeyPath(base, j) == p
    {
      if p in dirs {
        var j :| j in s.files && KeyPath(base, j) == p;
        assert j in s'.files;
      } else {
        assert k in s'.files;
      }
    }
  }

  lemma KnownByPath(base: Path, dirs: Directories, s: P.State, k: P.Key)
    requires CleanPath(base) && FilesMatch(base, dirs, s) && PlainKey(k)
    ensures k in s.files <==> KeyPath(base, k) in dirs
  {
    hide KeyPath, PlainKey, DirMatches;
    if KeyPath(base, k) in dirs {
      var j :| j in s.files && KeyPath(base, j) == KeyPath(base, k);
      KeyPathInjective(base, j, k);
    }
  }

  /** What one upload does to the files, on both sides. */
  lemma UploadFiles(node: Node, dirs: Directories, dirs': Directories, s: P.State, m: DomainData, frame: Buffer,
                    a: PushState, b: PushState, merged: Bitmap, version: Buffer, order: seq<S.Pattern>)
    requires CleanPath(node.basePath) && FilesMatch(node.basePath, dirs, s) && P.WellStored(s) && PlainKey(KeyOf(m))
    requires AllSettled(dirs) && Took(dirs, dirs', node.basePath, m, frame)
    requires node.PushedOut(dirs', a, b, m, merged, version, order)
    requires F.IsFrame(frame) && ParseFrame(frame) == ParseBody(frame[4..]) == Some(m)
    ensures var files := P.FilesAfter(s, KeyOf(m), UploadedBits(m));
      && FilesMatch(node.basePath, dirs', P.State(s.files[KeyOf(m) := files], s.sessions, s.next + 1))
      && (m.dataType == PARTITION ==> Carries(MergedFrame(m.domainId, m.name, version, merged), files[0]))
  {
    hide KeyPath, MessagePath, Carries, DirMatches, Settled, StoredBits, OneMore, MergedFrame, Merge, node.Pushed,
      Fits, ParseFrame;
    var base, k := node.basePath, KeyOf(m);
    var p := KeyPath(base, k);
    SamePath(base, m);
    KnownByPath(base, dirs, s, k);
    var files := P.FilesAfter(s, k, UploadedBits(m));
    if m.dataType == PARTITION {
      if p in dirs {
        SettledCarries(base, dirs, s, k);
      }
      MergedCarries(m, merged, version, files[0]);
      OneMoreMatches(map[], dirs'[p], [], MergedFrame(m.domainId, m.name, version, merged), files[0]);
      assert [] + [files[0]] == files;
    } else {
      var x := P.Item(k, s.next, []);
      var before := if k in s.files then s.files[k] else [];
      FrameCarries(frame, m, x);
      OneMoreMatches(DirAt(dirs, p), dirs'[p], before, frame, x);
      assert before + [x] == files;
    }
    FilesStayMatched(base, dirs, dirs', s, k, files, P.State(s.files[k := files], s.sessions, s.next + 1));
  }

  lemma SamePath(base: Path, m: DomainData)
    ensures KeyPath(base, KeyOf(m)) == MessagePath(base, m)
  {
    hide DirPath;
  }

  lemma FrameCarries(frame: Buffer, m: DomainData, x: P.Item)
    requires F.IsFrame(frame) && ParseFrame(frame) == ParseBody(frame[4..]) == Some(m)
    requires x.key == KeyOf(m) && m.dataType != PARTITION
    ensures Carries(frame, x)
  {
    hide ParseFrame;
  }

  // ----- What an upload does to the subscribers -------------------------------------------

  lemma {:induction false} FoundOnce(r: S.Registry, order: seq<S.Pattern>, q: S.Pattern, id: nat)
    requires forall i, j :: 0 <= i < j < |order| ==> order[i] != order[j]
    requires forall p: S.Pattern :: multiset(S.Get(r, p))[id] == if p == q then 1 else 0
    ensures multiset(S.Flatten(r, order))[id] == if q in order then 1 else 0
  {
    if order != [] {
      var rest := order[1..];
      FoundOnce(r, rest, q, id);
      assert q in order <==> q == order[0] || q in rest;
      assert forall i :: 0 <= i < |rest| ==> rest[i] == order[i + 1];
    }
  }

  /** A registered stream is found exactly when its pattern matches. */
  lemma FoundIfMatching(node: Node, r: S.Registry, order: seq<S.Pattern>, p: Path, id: nat, x: P.Session)
    requires node.IsOrder(r, order, p) && Registered(r, id, x)
    ensures multiset(S.Flatten(r, order))[id] == if node.matches(x.pattern, PathText(p)) then 1 else 0
  {
    hide PathText;
    FoundOnce(r, order, x.pattern, id);
    assert multiset(S.Get(r, x.pattern))[id] == 1;
    assert x.pattern in r;
  }

  lemma ServedMatches(x: StreamState, y: P.Session, frame: Buffer, n: nat, item: P.Item)
    requires SentMatches(x.sent, y.sent) && x.closed == y.closed && Carries(frame, item) && n <= 1
    ensures SentMatches(Served(x, frame, n).sent, if !y.closed && n == 1 then y.sent + [item] else y.sent)
  {
    hide Carries;
    var sent := Served(x, frame, n).sent;
    if !y.closed && n == 1 {
      assert sent == x.sent + [frame];
      forall i | 0 <= i < |y.sent + [item]|
        ensures Carries(sent[i], (y.sent + [item])[i])
      {
      }
    } else {
      assert sent == x.sent;
    }
  }

  /** One session through one push, on both sides. */
  lemma ToldMatches(node: Node, a: PushState, b: PushState, k: P.Key, order: seq<S.Pattern>, frame: Buffer,
                    id: nat, x: P.Session, item: P.Item)
    requires NoneFailing(a.streams) && node.Pushed(a, b, KeyPath(node.basePath, k), order, frame)
    requires SessionMatches(a.streams, id, x) && (!x.closed ==> Registered(a.registry, id, x))
    requires Carries(frame, item) && item.key == k
    ensures var y := P.Told(P.NodeEnv(node.basePath, node.matches), x, item);
      SessionMatches(b.streams, id, y) && (!y.closed ==> Registered(b.registry, id, y))
  {
    hide Push, KeyPath, PathText, S.Flatten, Carries, SentMatches, Served, PushOne, S.Get;
    var p := KeyPath(node.basePath, k);
    var found: seq<nat> := S.Flatten(a.registry, order);
    PushDelivers(a, PathText(p), found, frame);
    TextOfPath(node.basePath, k);
    if x.closed {
      ClosedServed(a.streams[id], frame, multiset(found)[id]);
    } else {
      FoundIfMatching(node, a.registry, order, p, id, x);
      ServedMatches(a.streams[id], x, frame, multiset(found)[id], item);
      forall q: S.Pattern
        ensures multiset(S.Get(b.registry, q))[id] == if q == x.pattern then 1 else 0
      {
        PushKeepsOpen(a, PathText(p), found, frame, q, id);
      }
    }
    ServedClosed(a.streams[id], frame, multiset(found)[id]);
  }

  lemma ServedClosed(x: StreamState, frame: Buffer, n: nat)
    ensures Served(x, frame, n).closed == x.closed
  {
  }

  lemma ClosedServed(x: StreamState, frame: Buffer, n: nat)
    requires x.closed
    ensures Served(x, frame, n) == x
  {
    assert x.sent + Repeat(frame, 0) == x.sent;
  }

  lemma TextOfPath(base: Path, k: P.Key)
    ensures PathText(KeyPath(base, k)) == P.DirText(base, k)
  {
    hide DirPath, PathText;
  }

  lemma UploadSessions(node: Node, dirs: Directories, s: P.State, m: DomainData, a: PushState, b: PushState,
                       merged: Bitmap, version: Buffer, order: seq<S.Pattern>)
    requires SessionsMatch(a, s) && NoneFailing(a.streams) && node.PushedOut(dirs, a, b, m, merged, version, order)
    requires m.dataType == PARTITION ==>
      Carries(MergedFrame(m.domainId, m.name, version, merged), P.FilesAfter(s, KeyOf(m), UploadedBits(m))[0])
    ensures SessionsMatch(b, P.Uploaded(P.NodeEnv(node.basePath, node.matches), s, KeyOf(m), UploadedBits(m)))
  {
    hide KeyPath, MessagePath, Carries, StoredAlone, MergedFrame, node.Pushed, P.Told, SessionMatches, Registered,
      NoneFailing;
    SamePath(node.basePath, m);
    if m.dataType == PARTITION {
      var item := P.FilesAfter(s, KeyOf(m), UploadedBits(m))[0];
      forall id | id in s.sessions
        ensures var y := P.Told(P.NodeEnv(node.basePath, node.matches), s.sessions[id], item);
          SessionMatches(b.streams, id, y) && (!y.closed ==> Registered(b.registry, id, y))
      {
        ToldMatches(node, a, b, KeyOf(m), order, MergedFrame(m.domainId, m.name, version, merged),
                    id, s.sessions[id], item);
      }
    }
  }

  // ----- The steps of the node are steps of the protocol -------------------------------------

  /** The node's directories, registry and streams are those of s. */
  ghost predicate Represents(node: Node, s: P.State)
    reads node, node.subscribers, node.subscribers.Repr
  {
    && node.Valid() && AllSettled(node.dirs) && NoneFailing(node.streams)
    && FilesMatch(node.basePath, node.dirs, s) && SessionsMatch(node.Pushing(true), s)
  }

  ghost function EnvOf(node: Node): P.Env {
    P.NodeEnv(node.basePath, node.matches)
  }

  /** Taking in a clean message is the protocol's Upload step. */
  method Upload(node: Node, header: Buffer, body: Buffer, ghost s: P.State)
    requires Represents(node, s) && P.Inv(EnvOf(node), s)
    requires |header| == 4 && F.IsFrame(header + body) && CleanUpload(body)
    modifies node`dirs, node`drawn, node`streams, node`log, node.subscribers.Repr
    ensures node.subscribers.Repr == old(node.subscribers.Repr) && SameFlags(old(node.streams), node.streams)
    ensures Took(old(node.dirs), node.dirs, node.basePath, ParseBody(body).value, header + body)
    ensures var m := ParseBody(body).value;
      Represents(node, P.Apply(EnvOf(node), s, P.Step.Upload(KeyOf(m), UploadedBits(m))))
  {
    hide ReadLE, Parse, P.Good, P.WellStored, FilesMatch, SessionsMatch, AllSettled, NoneFailing, Took, node.PushedOut,
      P.FilesAfter, P.NodeEnv, Isolated, PlainKey, node.Stuck, SameFlags;
    ghost var m := ParseBody(body).value;
    ghost var dirs, a := node.dirs, node.Pushing(true);
    FrameLikeBody(header, body);
    assert (header + body)[4..] == body;
    CleanKey(body);
    ghost var merged, version, order;
    ghost var streams := node.streams;
    var ok;
    ok, merged, version, order := node.TakeIn(header, body);
    node.NeverStuck(a, m);
    FlagsNotFailing(streams, node.streams);
    UploadFiles(node, dirs, node.dirs, s, m, header + body, a, node.Pushing(true), merged, version, order);
    UploadSessions(node, node.dirs, s, m, a, node.Pushing(true), merged, version, order);
    SplitUploaded(EnvOf(node), node.basePath, node.dirs, s, KeyOf(m), UploadedBits(m));
  }

  lemma CleanKey(body: Buffer)
    requires CleanUpload(body)
    ensures PlainKey(KeyOf(ParseBody(body).value))
  {
    hide ParseBody, Isolated;
  }

  lemma SplitUploaded(env: P.Env, base: Path, dirs: Directories, s: P.State, k: P.Key, bits: Bitmap)
    requires FilesMatch(base, dirs, P.State(s.files[k := P.FilesAfter(s, k, bits)], s.sessions, s.next + 1))
    ensures FilesMatch(base, dirs, P.Uploaded(env, s, k, bits))
  {
    hide KeyPath, PlainKey, DirMatches, P.FilesAfter, P.Told;
  }

  ghost predicate Unregistered(r: S.Registry, id: S.Stream) {
    forall p: S.Pattern :: id !in S.Get(r, p)
  }

  lemma RegisteredMore(r: S.Registry, pattern: S.Pattern, id: S.Stream, j: S.Stream, x: P.Session)
    requires if j == id then Unregistered(r, id) && x.pattern == pattern else Registered(r, j, x)
    ensures Registered(S.Added(r, pattern, id), j, x)
  {
    forall p: S.Pattern
      ensures multiset(S.Get(S.Added(r, pattern, id), p))[j] == if p == x.pattern then 1 else 0
    {
      if p == pattern {
        assert multiset(S.Get(r, p) + [id]) == multiset(S.Get(r, p)) + multiset{id};
      }
      assert j == id ==> j !in S.Get(r, p);
    }
  }

  lemma RegisterSessions(a: PushState, b: PushState, s: P.State, id: S.Stream, domain: Buffer, pattern: S.Pattern)
    requires SessionsMatch(a, s) && id in a.streams && a.streams[id] == StreamState(false, false, [])
    requires Unregistered(a.registry, id) && b == a.(registry := S.Added(a.registry, pattern, id))
    ensures SessionsMatch(b, P.Set(s, id, P.Session(domain, pattern, P.Registered, false, [], {})))
  {
    hide S.Added, Registered, Unregistered;
    var s' := P.Set(s, id, P.Session(domain, pattern, P.Registered, false, [], {}));
    forall j | j in s'.sessions
      ensures SessionMatches(b.streams, j, s'.sessions[j])
      ensures !s'.sessions[j].closed ==> Registered(b.registry, j, s'.sessions[j])
    {
      if !s'.sessions[j].closed {
        RegisteredMore(a.registry, pattern, id, j, s'.sessions[j]);
      }
    }
  }

  lemma FilesOnly(base: Path, dirs: Directories, s: P.State, s': P.State)
    requires FilesMatch(base, dirs, s) && s'.files == s.files
    ensures FilesMatch(base, dirs, s')
  {
    hide KeyPath, PlainKey, DirMatches;
  }

  /** Registering a new stream is the protocol's Register step. */
  method Register(node: Node, domain: Buffer, pattern: S.Pattern, id: S.Stream, ghost s: P.State)
    requires Represents(node, s) && id !in s.sessions
    requires id in node.streams && node.streams[id] == StreamState(false, false, [])
    requires Unregistered(node.subscribers.Contents(), id)
    modifies node.subscribers.Repr
    ensures fresh(node.subscribers.Repr - old(node.subscribers.Repr))
    ensures Represents(node, P.Apply(EnvOf(node), s, P.Register(id, domain, pattern)))
  {
    hide FilesMatch, SessionsMatch, Unregistered, S.Added;
    ghost var a := node.Pushing(true);
    Subscribe(node, pattern, id);
    ghost var s' := P.Set(s, id, P.Session(domain, pattern, P.Registered, false, [], {}));
    RegisterSessions(a, node.Pushing(true), s, id, domain, pattern);
    FilesOnly(node.basePath, node.dirs, s, s');
  }

  lemma PathParts(base: Path, k: P.Key)
    requires CleanPath(base) && PlainKey(k)
    ensures var p := KeyPath(base, k);
      p != [] && p[..|p| - 1] == DomainRoot(base, Text(k.domain)) && p[|p| - 1] == P.DirName(k)
  {
    hide DirPath, TypeName, Text, DomainRoot;
    DirPathShape(base, Text(k.domain), Text(k.name), k.kind);
    RootShape(base, Text(k.domain));
  }

  /** The directories the handler looks at are those the protocol's List step puts on the list. */
  lemma Listing(base: Path, matches: (S.Pattern, string) -> bool, dirs: Directories, s: P.State, x: P.Session)
    requires CleanPath(base) && FilesMatch(base, dirs, s)
    ensures var wanted := Wanted(dirs, DomainRoot(base, Text(x.domain)), matches, x.pattern);
      forall p :: p in wanted <==> exists k :: k in P.Listed(P.NodeEnv(base, matches), s, x) && KeyPath(base, k) == p
  {
    hide KeyPath, DirMatches, Text, P.DirName, DomainRoot, Plain;
    var wanted := Wanted(dirs, DomainRoot(base, Text(x.domain)), matches, x.pattern);
    forall k | k in s.files
      ensures KeyPath(base, k) in wanted <==> k in P.Listed(P.NodeEnv(base, matches), s, x)
    {
      PathParts(base, k);
    }
    forall p | p in wanted
      ensures exists k :: k in P.Listed(P.NodeEnv(base, matches), s, x) && KeyPath(base, k) == p
    {
      var k :| k in s.files && KeyPath(base, k) == p;
    }
  }

  /** A requested id without slashes leads to its own domain only. */
  lemma ListsOwn(base: Path, domain: Buffer, k: P.Key)
    requires CleanPath(base) && PlainKey(k) && '/' !in Text(domain)
    ensures P.Lists(base, domain, k) <==> domain == k.domain
  {
    var a, b := k.domain, domain;
    hide DomainRoot;
    RootShape(base, Text(a));
    RootShape(base, Text(b));
    var r, q := DomainSegments(base, Text(a)), DomainSegments(base, Text(b));
    if r == q {
      assert |q| == |base| + 2;
      assert r[|base| + 1] == Text(a) && q[|base| + 1] == Text(b);
      TextInjective(a, b);
    }
  }

  /** Session id goes from s.sessions[id] to y, having been sent one more frame. */
  lemma CopySessions(a: PushState, b: PushState, s: P.State, id: S.Stream, content: Buffer, item: P.Item, y: P.Session)
    requires SessionsMatch(a, s) && id in s.sessions && id in a.streams
    requires b == a.(streams := a.streams[id := WithCopies(a.streams[id], [content])])
    requires Carries(content, item) && y.sent == s.sessions[id].sent + [item]
    requires y.closed == s.sessions[id].closed && y.pattern == s.sessions[id].pattern
    ensures SessionsMatch(b, P.Set(s, id, y))
  {
    hide Carries;
    var x := s.sessions[id];
    assert SessionMatches(a.streams, id, x);
    var sent := b.streams[id].sent;
    assert sent == a.streams[id].sent + [content];
    forall i | 0 <= i < |y.sent|
      ensures Carries(sent[i], y.sent[i])
    {
    }
    var s' := P.Set(s, id, y);
    forall j | j in s'.sessions
      ensures SessionMatches(b.streams, j, s'.sessions[j])
      ensures !s'.sessions[j].closed ==> Registered(b.registry, j, s'.sessions[j])
    {
    }
  }

  /** Nothing the outside can see of session id changes. */
  lemma PhaseSessions(a: PushState, s: P.State, id: S.Stream, y: P.Session)
    requires SessionsMatch(a, s) && id in s.sessions && y.sent == s.sessions[id].sent
    requires y.closed == s.sessions[id].closed && y.pattern == s.sessions[id].pattern
    ensures SessionsMatch(a, P.Set(s, id, y))
  {
    hide Carries;
    var s' := P.Set(s, id, y);
    forall j | j in s'.sessions
      ensures SessionMatches(a.streams, j, s'.sessions[j])
      ensures !s'.sessions[j].closed ==> Registered(a.registry, j, s'.sessions[j])
    {
      assert SessionMatches(a.streams, j, s.sessions[j]);
    }
  }

  /** Listing the domain is the protocol's List step: the same directories are to be copied. */
  method List(node: Node, id: S.Stream, domain: Buffer, pattern: S.Pattern, ghost s: P.State)
    returns (wanted: set<Path>)
    requires Represents(node, s) && P.InPhase(s, id, false)
    requires s.sessions[id].domain == domain && s.sessions[id].pattern == pattern
    ensures Represents(node, P.Apply(EnvOf(node), s, P.List(id)))
    ensures wanted == Wanted(node.dirs, DomainRoot(node.basePath, Text(domain)), node.matches, pattern)
    ensures forall p :: p in wanted <==>
      exists k :: k in P.Listed(EnvOf(node), s, s.sessions[id]) && KeyPath(node.basePath, k) == p
  {
    hide KeyPath, FilesMatch, SessionsMatch, Text, DomainRoot, P.Listed;
    wanted := Wanted(node.dirs, DomainRoot(node.basePath, Text(domain)), node.matches, pattern);
    ghost var x := s.sessions[id];
    Listing(node.basePath, node.matches, node.dirs, s, x);
    ghost var y := x.(phase := P.Copying(P.Listed(EnvOf(node), s, x), None, None));
    PhaseSessions(node.Pushing(true), s, id, y);
    FilesOnly(node.basePath, node.dirs, s, P.Set(s, id, y));
  }

  /** When nothing is left to copy, the handler just waits: the protocol's Finish step. */
  lemma Finish(node: Node, id: S.Stream, s: P.State)
    requires Represents(node, s) && P.Enabled(s, P.Finish(id))
    ensures Represents(node, P.Apply(EnvOf(node), s, P.Finish(id)))
  {
    hide FilesMatch, SessionsMatch;
    var y := s.sessions[id].(phase := P.Serving);
    PhaseSessions(node.Pushing(true), s, id, y);
    FilesOnly(node.basePath, node.dirs, s, P.Set(s, id, y));
  }

  /** Session id can go on with the directory of k. */
  ghost predicate ToCopy(s: P.State, id: S.Stream, k: P.Key) {
    && P.WellStored(s) && P.InPhase(s, id, true) && P.NothingHeld(s.sessions[id])
    && k in s.sessions[id].phase.todo && k in s.files
  }

  lemma SnapshotOf(env: P.Env, s: P.State, id: S.Stream, k: P.Key, i: nat)
    requires ToCopy(s, id, k) && i < |s.files[k]|
    ensures var item := s.files[k][i]; var x := P.WithOpen(s.sessions[id], item);
      && item.key == k && P.Enabled(s, P.Choose(id, item)) && P.Enabled(s, P.Snapshot(id, item))
      && P.Apply(env, s, P.Choose(id, item)) == P.Set(s, id, P.WithChoice(s.sessions[id], item))
      && P.Apply(env, s, P.Snapshot(id, item)) == P.Set(s, id, P.WithCopy(x, item))
  {
  }

  /** Some file of a directory that matches carries an item. */
  lemma PickCarries(base: Path, dirs: Directories, s: P.State, k: P.Key)
    requires FilesMatch(base, dirs, s) && k in s.files
    ensures KeyPath(base, k) in dirs && dirs[KeyPath(base, k)] != map[]
    ensures forall n :: n in dirs[KeyPath(base, k)] ==> dirs[KeyPath(base, k)][n].File?
    ensures forall x: Pick :: x.dir == KeyPath(base, k) && IsPick(dirs, x) ==>
      exists i: nat :: i < |s.files[k]| && Carries(ContentOf(dirs, x), s.files[k][i])
  {
    hide KeyPath, PlainKey, Carries;
    assert DirMatches(dirs[KeyPath(base, k)], s.files[k]);
  }

  /** Item x is the chosen file as it is now: as long as it is stored it is there under name n. */
  ghost predicate StillNamed(base: Path, dirs: Directories, s: P.State, x: P.Item, n: string) {
    x.key in s.files && KeyPath(base, x.key) in dirs &&
    (P.InFiles(s, x) ==>
      var d := dirs[KeyPath(base, x.key)]; n in d && d[n].File? && Carries(d[n].content, x))
  }

  /** Listing a directory and taking its first file is the protocol's Choose step. */
  method Choose(node: Node, id: S.Stream, p: Path, ghost k: P.Key, ghost s: P.State)
    returns (n: string, ghost item: P.Item)
    requires Represents(node, s) && ToCopy(s, id, k)
    requires p == KeyPath(node.basePath, k) && p in node.dirs
    ensures n in node.dirs[p] && item.key == k && P.Enabled(s, P.Choose(id, item))
    ensures Represents(node, P.Apply(EnvOf(node), s, P.Choose(id, item)))
    ensures StillNamed(node.basePath, node.dirs, s, item, n)
  {
    hide KeyPath, Carries, SessionsMatch, FilesMatch, ContentOf, ToCopy, P.Apply, P.Enabled;
    InCopying(s, id, k);
    PickCarries(node.basePath, node.dirs, s, k);
    n := FirstFile(node, p);
    ghost var pick := Pick(p, n);
    assert IsPick(node.dirs, pick);
    ghost var i: nat :| i < |s.files[k]| && Carries(ContentOf(node.dirs, pick), s.files[k][i]);
    item := s.files[k][i];
    SnapshotOf(EnvOf(node), s, id, k, i);
    PickContent(node.dirs, pick);
    PhaseSessions(node.Pushing(true), s, id, P.WithChoice(s.sessions[id], item));
    FilesOnly(node.basePath, node.dirs, s, P.Set(s, id, P.WithChoice(s.sessions[id], item)));
  }

  lemma OpenOf(s: P.State, k: P.Key, i: nat)
    requires P.WellStored(s) && k in s.files && i < |s.files[k]|
    ensures s.files[k][i].key == k && P.InFiles(s, s.files[k][i])
  {
  }

  lemma PickContent(dirs: Directories, k: Pick)
    requires IsPick(dirs, k)
    ensures ContentOf(dirs, k) == dirs[k.dir][k.name].content
  {
  }

  /**
   * Opening the chosen file is the protocol's Open step when a file of that name is
   * there, and otherwise its Skip step.
   */
  method OpenChosen(node: Node, id: S.Stream, p: Path, n: string, ghost s: P.State)
    returns (content: Option<Buffer>, ghost item: P.Item)
    requires Represents(node, s) && P.WellStored(s) && P.InPhase(s, id, true) && s.sessions[id].phase.chosen.Some?
    requires var x := s.sessions[id].phase.chosen.value;
      p == KeyPath(node.basePath, x.key) && StillNamed(node.basePath, node.dirs, s, x, n)
    ensures var k := s.sessions[id].phase.chosen.value.key;
      if content.Some? then
        && item.key == k && Carries(content.value, item) && P.Enabled(s, P.Open(id, item))
        && Represents(node, P.Apply(EnvOf(node), s, P.Open(id, item)))
      else P.Enabled(s, P.Skip(id, k)) && Represents(node, P.Apply(EnvOf(node), s, P.Skip(id, k)))
    ensures p in node.dirs
    ensures if n in node.dirs[p] then content.Some? && node.dirs[p][n] == File(content.value) else content.None?
  {
    hide KeyPath, Carries, SessionsMatch, FilesMatch, ContentOf;
    ghost var x := s.sessions[id].phase.chosen.value;
    item := x;
    PickCarries(node.basePath, node.dirs, s, x.key);
    content := OpenFile(node, p, n);
    ghost var y := P.WithSkip(s.sessions[id], x.key);
    if content.Some? {
      ghost var pick := Pick(p, n);
      assert IsPick(node.dirs, pick);
      ghost var i: nat :| i < |s.files[x.key]| && Carries(ContentOf(node.dirs, pick), s.files[x.key][i]);
      item := s.files[x.key][i];
      PickContent(node.dirs, pick);
      OpenOf(s, x.key, i);
      y := P.WithOpen(s.sessions[id], item);
    }
    PhaseSessions(node.Pushing(true), s, id, y);
    FilesOnly(node.basePath, node.dirs, s, P.Set(s, id, y));
  }

  /** Copying a file opened before, whatever was uploaded meanwhile, is the protocol's Copy step. */
  method CopyOpened(node: Node, id: S.Stream, content: Buffer, ghost s: P.State) returns (ok: bool)
    requires Represents(node, s) && P.Enabled(s, P.Copy(id)) && id in node.streams
    requires Carries(content, s.sessions[id].phase.open.value)
    modifies node`streams
    ensures ok && node.streams == old(node.streams)[id := WithCopies(old(node.streams[id]), [content])]
    ensures Represents(node, P.Apply(EnvOf(node), s, P.Copy(id)))
  {
    hide Carries, SessionsMatch, FilesMatch, WithCopies;
    ghost var a := node.Pushing(true);
    ghost var y := P.WithCopy(s.sessions[id], s.sessions[id].phase.open.value);
    OpenIsWritable(a, s, id);
    ok := SendCopy(node, id, content);
    CopySessions(a, node.Pushing(true), s, id, content, s.sessions[id].phase.open.value, y);
    FilesOnly(node.basePath, node.dirs, s, P.Set(s, id, y));
    SameAbility(a.streams[id], [content]);
  }

  lemma OpenIsWritable(a: PushState, s: P.State, id: S.Stream)
    requires SessionsMatch(a, s) && NoneFailing(a.streams) && id in s.sessions && !s.sessions[id].closed
    ensures id in a.streams && Writable(a.streams[id])
  {
    hide SentMatches, Registered;
    assert SessionMatches(a.streams, id, s.sessions[id]);
  }

  /** Copying one directory, with no upload in between, is the protocol's Snapshot step. */
  method Copy(node: Node, id: S.Stream, p: Path, ghost k: P.Key, ghost s: P.State) returns (ghost item: P.Item)
    requires Represents(node, s) && ToCopy(s, id, k)
    requires p == KeyPath(node.basePath, k) && p in node.dirs && id in node.streams
    modifies node`streams
    ensures item.key == k && P.Enabled(s, P.Snapshot(id, item))
    ensures Represents(node, P.Apply(EnvOf(node), s, P.Snapshot(id, item)))
  {
    hide KeyPath, Carries, SessionsMatch, FilesMatch, WithCopies, ContentOf, IsPick, ToCopy, P.Apply, P.Enabled;
    ghost var a := node.Pushing(true);
    InCopying(s, id, k);
    PickCarries(node.basePath, node.dirs, s, k);
    OpenIsWritable(a, s, id);
    ghost var pick;
    var ok;
    ok, pick := CopyOne(node, p, id);
    ghost var content := ContentOf(node.dirs, pick);
    ghost var i: nat :| i < |s.files[k]| && Carries(content, s.files[k][i]);
    item := s.files[k][i];
    SnapshotOf(EnvOf(node), s, id, k, i);
    ghost var y := P.WithCopy(P.WithOpen(s.sessions[id], item), item);
    CopySessions(a, node.Pushing(true), s, id, content, item, y);
    FilesOnly(node.basePath, node.dirs, s, P.Set(s, id, y));
    SameAbility(a.streams[id], [content]);
  }

  lemma InCopying(s: P.State, id: S.Stream, k: P.Key)
    requires ToCopy(s, id, k)
    ensures id in s.sessions && s.sessions[id].phase.Copying? && !s.sessions[id].closed && k in s.files
  {
  }

  /** A node starts where the protocol starts. */
  method Create(base: Path, matches: (S.Pattern, string) -> bool, uuids: nat -> Buffer) returns (node: Node)
    requires CleanPath(base) && forall n :: |uuids(n)| == 36
    ensures fresh(node) && fresh(node.subscribers) && fresh(node.subscribers.Repr) && node.streams == map[]
    ensures node.basePath == base && node.matches == matches && Represents(node, P.Start())
  {
    node := new Node(base, matches, uuids);
  }

  lemma CloseSessions(a: PushState, b: PushState, s: P.State, id: S.Stream)
    requires SessionsMatch(a, s) && id in s.sessions && id in a.streams
    requires b == a.(streams := a.streams[id := a.streams[id].(closed := true)])
    ensures SessionsMatch(b, P.Set(s, id, s.sessions[id].(closed := true)))
  {
    hide SentMatches, Registered;
    var s' := P.Set(s, id, s.sessions[id].(closed := true));
    forall j | j in s'.sessions
      ensures SessionMatches(b.streams, j, s'.sessions[j])
      ensures !s'.sessions[j].closed ==> Registered(b.registry, j, s'.sessions[j])
    {
      assert SessionMatches(a.streams, j, s.sessions[j]);
    }
  }

  /** A peer that goes away is the protocol's Close step. */
  method PeerLeaves(node: Node, id: S.Stream, ghost s: P.State)
    requires Represents(node, s) && id in s.sessions && id in node.streams
    modifies node`streams
    ensures node.streams == old(node.streams)[id := old(node.streams[id]).(closed := true)]
    ensures Represents(node, P.Apply(EnvOf(node), s, P.Close(id)))
  {
    hide FilesMatch, SessionsMatch, AllSettled;
    ghost var a := node.Pushing(true);
    node.streams := node.streams[id := node.streams[id].(closed := true)];
    CloseSessions(a, node.Pushing(true), s, id);
    FilesOnly(node.basePath, node.dirs, s, P.Apply(EnvOf(node), s, P.Close(id)));
  }

  // ----- The protocol's result on the node's own data ------------------------------------------

  ghost predicate IsFor(frame: Buffer, k: P.Key) {
    ParseFrame(frame).Some? && KeyOf(ParseFrame(frame).value) == k
  }

  /** Frame i is the last one for k. */
  ghost predicate LastFrame(frames: seq<Buffer>, k: P.Key, i: nat) {
    i < |frames| && IsFor(frames[i], k) && forall j :: i < j < |frames| ==> !IsFor(frames[j], k)
  }

  lemma {:induction false} LastForAt(xs: seq<P.Item>, k: P.Key) returns (i: nat)
    requires P.LastFor(xs, k).Some?
    ensures i < |xs| && xs[i] == P.LastFor(xs, k).value && xs[i].key == k
    ensures forall j :: i < j < |xs| ==> xs[j].key != k
  {
    if xs[|xs| - 1].key == k {
      i := |xs| - 1;
    } else {
      i := LastForAt(xs[..|xs| - 1], k);
    }
  }

  lemma CarriesKey(frame: Buffer, x: P.Item, k: P.Key)
    requires Carries(frame, x)
    ensures IsFor(frame, k) <==> x.key == k
    ensures x.key.kind == PARTITION ==> FileBits(File(frame)) == Some(x.bits)
  {
    hide ParseFrame;
  }

  /**
   * After any run, for every directory a live subscriber looks for and that has been
   * copied, the last frame written to the stream for it decodes to the bitmap stored in
   * the directory, provided the last upload was not missed.
   */
  lemma SubscriberUpToDate(node: Node, steps: seq<P.Step>, s: P.State, id: S.Stream, k: P.Key)
    requires Represents(node, s) && P.Exec(EnvOf(node), steps) == Some(s)
    requires P.Watches(EnvOf(node), s, id, k) && !P.Pending(s.sessions[id], k)
    requires !P.LastUploadMissed(EnvOf(node), steps, id, k)
    ensures id in node.streams && KeyPath(node.basePath, k) in node.dirs
    ensures Settled(node.dirs[KeyPath(node.basePath, k)])
    ensures exists i: nat ::
      LastFrame(node.streams[id].sent, k, i) &&
      FileBits(File(node.streams[id].sent[i])) == Some(StoredBits(node.dirs[KeyPath(node.basePath, k)]))
  {
    hide KeyPath, Carries, P.Exec, P.Covered, P.LastFor, IsFor, FileBits, StoredBits, Registered, P.Good,
      P.LastUploadMissed;
    P.MissedExactlyWhenOvertaken(EnvOf(node), steps, s, id, k);
    P.ReachableFine(EnvOf(node), steps);
    var i := LastForAt(s.sessions[id].sent, k);
    var frames := node.streams[id].sent;
    assert SessionMatches(node.Pushing(true).streams, id, s.sessions[id]);
    forall j | 0 <= j < |frames|
      ensures IsFor(frames[j], k) <==> s.sessions[id].sent[j].key == k
    {
      CarriesKey(frames[j], s.sessions[id].sent[j], k);
    }
    CarriesKey(frames[i], s.sessions[id].sent[i], k);
    PartitionSettled(node.basePath, node.dirs, s, k);
    SettledCarries(node.basePath, node.dirs, s, k);
    assert LastFrame(frames, k, i);
  }

  /** No missed update on the node's own data: atomic copies and a pattern that matches the path are enough. */
  lemma NothingMissed(node: Node, steps: seq<P.Step>, s: P.State, id: S.Stream, k: P.Key)
    requires P.Exec(EnvOf(node), steps) == Some(s) && P.Atomic(steps) && P.Watches(EnvOf(node), s, id, k)
    requires node.matches(s.sessions[id].pattern, P.DirText(node.basePath, k))
    ensures !P.LastUploadMissed(EnvOf(node), steps, id, k)
  {
    hide P.Exec, P.Covered, P.DirText, P.LastUploadMissed;
    P.AtomicReaches(EnvOf(node), steps, id, k);
  }

  lemma PartitionSettled(base: Path, dirs: Directories, s: P.State, k: P.Key)
    requires CleanPath(base) && FilesMatch(base, dirs, s) && AllSettled(dirs) && k in s.files && k.kind == PARTITION
    ensures KeyPath(base, k) in dirs && Settled(dirs[KeyPath(base, k)])
  {
    hide KeyPath, DirMatches, Settled, Text, TypeName;
    PathParts(base, k);
    assert IsPartitionDir(KeyPath(base, k));
  }
}
