/** A whole download request that nothing interrupts is a run of protocol steps. */
module DownloadRun {
  import opened Wrappers
  import opened LittleEndian
  import opened DirectoryKeys
  import opened PartitionStore
  import opened DataNode
  import opened Download
  import opened Refinement
  import S = Subscribers
  import P = SnapshotProtocol

  /** The state after more steps from s, or None when one of them was not possible. */
  function Continue(env: P.Env, s: P.State, steps: seq<P.Step>): Option<P.State>
    decreases |steps|
  {
    if steps == [] then Some(s)
    else if P.Enabled(s, steps[0]) then Continue(env, P.Apply(env, s, steps[0]), steps[1..])
    else None
  }

  /** A continued run is a run. */
  lemma {:induction false} ExecThen(env: P.Env, before: seq<P.Step>, s: P.State, more: seq<P.Step>)
    requires P.Exec(env, before) == Some(s)
    ensures P.Exec(env, before + more) == Continue(env, s, more)
    decreases |more|
  {
    hide P.Apply, P.Enabled;
    if more == [] {
      assert before + more == before;
    } else {
      P.ExecMoreOrNot(env, before, s, more[0]);
      assert before + more == before + [more[0]] + more[1..];
      if P.Enabled(s, more[0]) {
        ExecThen(env, before + [more[0]], P.Apply(env, s, more[0]), more[1..]);
      } else {
        P.StaysNone(env, before + [more[0]], more[1..]);
      }
    }
  }

  lemma ContinueOne(env: P.Env, s: P.State, step: P.Step, more: seq<P.Step>)
    requires P.Enabled(s, step)
    ensures Continue(env, s, [step] + more) == Continue(env, P.Apply(env, s, step), more)
  {
    hide P.Apply, P.Enabled;
    assert ([step] + more)[1..] == more;
  }

  predicate SnapshotsOf(steps: seq<P.Step>, id: S.Stream) {
    forall i :: 0 <= i < |steps| ==> steps[i].Snapshot? && steps[i].id == id
  }

  /** The keys still to copy, in the order of the picks, whose directories are theirs. */
  ghost predicate ToDo(base: Path, todo: set<P.Key>, keys: seq<P.Key>, picks: seq<Pick>) {
    && |keys| == |picks| && (forall k :: k in todo <==> k in keys)
    && (forall i :: 0 <= i < |keys| ==> KeyPath(base, keys[i]) == picks[i].dir)
    && forall i, j :: 0 <= i < j < |keys| ==> keys[i] != keys[j]
  }

  /** One snapshot takes the first directory off the list. */
  lemma ToDoLess(base: Path, todo: set<P.Key>, keys: seq<P.Key>, picks: seq<Pick>)
    requires ToDo(base, todo, keys, picks) && picks != []
    ensures ToDo(base, todo - {keys[0]}, keys[1..], picks[1..])
  {
    hide KeyPath;
    var rest := keys[1..];
    assert forall i :: 0 <= i < |rest| ==> rest[i] == keys[i + 1];
    assert keys == [keys[0]] + rest;
  }

  lemma CopiedFirst(dirs: Directories, x: StreamState, picks: seq<Pick>)
    requires picks != []
    ensures var one := WithCopies(x, [ContentOf(dirs, picks[0])]);
      WithCopies(one, Copied(dirs, picks[1..])) == WithCopies(x, Copied(dirs, picks))
  {
    hide ContentOf;
    assert [ContentOf(dirs, picks[0])] + Copied(dirs, picks[1..]) == Copied(dirs, picks);
    assert x.sent + [ContentOf(dirs, picks[0])] + Copied(dirs, picks[1..]) == x.sent + Copied(dirs, picks);
  }

  lemma StoredOnly(s: P.State, s': P.State)
    requires P.WellStored(s) && s'.files == s.files && s'.next == s.next
    ensures P.WellStored(s')
  {
  }

  /** The copies of all picked files are as many Snapshot steps. */
  lemma {:induction false} SnapshotAll(env: P.Env, base: Path, dirs: Directories, a: PushState, s: P.State,
                                       id: S.Stream, keys: seq<P.Key>, picks: seq<Pick>)
    returns (steps: seq<P.Step>, s': P.State)
    requires CleanPath(base) && FilesMatch(base, dirs, s) && SessionsMatch(a, s) && id in a.streams
    requires P.WellStored(s) && P.InPhase(s, id, true) && P.NothingHeld(s.sessions[id])
    requires ToDo(base, s.sessions[id].phase.todo, keys, picks)
    requires forall k :: k in s.sessions[id].phase.todo ==> k in s.files
    requires forall i :: 0 <= i < |picks| ==> IsPick(dirs, picks[i])
    ensures Continue(env, s, steps) == Some(s') && SnapshotsOf(steps, id) && |steps| == |picks|
    ensures s'.files == s.files && P.InPhase(s', id, true) && s'.sessions[id].phase.todo == {}
    ensures SessionsMatch(a.(streams := a.streams[id := WithCopies(a.streams[id], Copied(dirs, picks))]), s')
    decreases |picks|
  {
    hide KeyPath, Carries, SessionsMatch, FilesMatch, WithCopies, ContentOf, Copied, P.Apply, P.Enabled, IsPick,
      P.WellStored;
    if picks == [] {
      steps, s' := [], s;
      NoPicks(dirs);
      assert s.sessions[id].phase.todo == {};
      CopiesMore(a.streams[id], [], []);
      assert a.streams[id := a.streams[id]] == a.streams;
    } else {
      var k := keys[0];
      PickCarries(base, dirs, s, k);
      var content := ContentOf(dirs, picks[0]);
      var i: nat :| i < |s.files[k]| && Carries(content, s.files[k][i]);
      var item := s.files[k][i];
      SnapshotOf(env, s, id, k, i);
      var y := P.WithCopy(P.WithOpen(s.sessions[id], item), item);
      var next := P.Set(s, id, y);
      var b := a.(streams := a.streams[id := WithCopies(a.streams[id], [content])]);
      CopySessions(a, b, s, id, content, item, y);
      FilesOnly(base, dirs, s, next);
      StoredOnly(s, next);
      ToDoLess(base, s.sessions[id].phase.todo, keys, picks);
      var more;
      more, s' := SnapshotAll(env, base, dirs, b, next, id, keys[1..], picks[1..]);
      steps := [P.Snapshot(id, item)] + more;
      ContinueOne(env, s, P.Snapshot(id, item), more);
      CopiedFirst(dirs, a.streams[id], picks);
      assert b.streams[id := WithCopies(b.streams[id], Copied(dirs, picks[1..]))]
          == a.streams[id := WithCopies(a.streams[id], Copied(dirs, picks))];
    }
  }

  /** The keys of the directories wanted, in the order in which they were picked. */
  lemma ListedToDo(base: Path, dirs: Directories, s: P.State, todo: set<P.Key>, wanted: set<Path>, picks: seq<Pick>)
    returns (keys: seq<P.Key>)
    requires CleanPath(base) && FilesMatch(base, dirs, s) && PicksFor(dirs, wanted, picks)
    requires forall k :: k in todo ==> k in s.files
    requires forall p :: p in wanted <==> exists k :: k in todo && KeyPath(base, k) == p
    ensures ToDo(base, todo, keys, picks) && forall i :: 0 <= i < |picks| ==> IsPick(dirs, picks[i])
  {
    hide KeyPath, DirMatches, PlainKey, IsPick;
    keys := [];
    while |keys| < |picks|
      invariant |keys| <= |picks|
      invariant forall i :: 0 <= i < |keys| ==> keys[i] in todo && KeyPath(base, keys[i]) == picks[i].dir
    {
      assert picks[|keys|].dir in wanted;
      var k :| k in todo && KeyPath(base, k) == picks[|keys|].dir;
      keys := keys + [k];
    }
    forall k | k in todo
      ensures k in keys
    {
      PickCarries(base, dirs, s, k);
      assert KeyPath(base, k) in wanted;
      var i :| 0 <= i < |picks| && picks[i].dir == KeyPath(base, k);
      KeyPathInjective(base, keys[i], k);
    }
  }

  /** The steps of a request: register, list, one snapshot per directory, finish. */
  ghost predicate IsRequest(steps: seq<P.Step>, id: S.Stream, domain: Buffer, pattern: S.Pattern) {
    && |steps| >= 3 && steps[0] == P.Register(id, domain, pattern) && steps[1] == P.List(id)
    && steps[|steps| - 1] == P.Finish(id) && SnapshotsOf(steps[2..|steps| - 1], id)
  }

  /** What the request does to the subscribers, on both sides. */
  lemma RequestSessions(base: Path, matches: (S.Pattern, string) -> bool, dirs: Directories, a: PushState, s: P.State,
                        id: S.Stream, domain: Buffer, pattern: S.Pattern, picks: seq<Pick>)
    returns (steps: seq<P.Step>, s': P.State)
    requires CleanPath(base) && FilesMatch(base, dirs, s) && SessionsMatch(a, s) && P.WellStored(s)
    requires id !in s.sessions && id in a.streams && a.streams[id] == StreamState(false, false, [])
    requires Unregistered(a.registry, id)
    requires PicksFor(dirs, Wanted(dirs, DomainRoot(base, Text(domain)), matches, pattern), picks)
    ensures Continue(P.NodeEnv(base, matches), s, steps) == Some(s') && IsRequest(steps, id, domain, pattern)
    ensures s'.files == s.files && id in s'.sessions && s'.sessions[id].phase == P.Serving && !s'.sessions[id].closed
    ensures SessionsMatch(PushState(S.Added(a.registry, pattern, id),
                                    a.streams[id := WithCopies(a.streams[id], Copied(dirs, picks))], a.ok), s')
  {
    hide KeyPath, Carries, SessionsMatch, FilesMatch, WithCopies, Copied, Wanted, PicksFor, Text, P.NodeEnv,
      P.WellStored,
      P.Listed, S.Added, Unregistered, IsPick, ToDo, SnapshotsOf;
    var env := P.NodeEnv(base, matches);
    var x := P.Session(domain, pattern, P.Registered, false, [], {});
    var s1 := P.Set(s, id, x);
    var b := a.(registry := S.Added(a.registry, pattern, id));
    RegisterSessions(a, b, s, id, domain, pattern);
    FilesOnly(base, dirs, s, s1);
    StoredOnly(s, s1);
    var todo := P.Listed(env, s1, x);
    var y := x.(phase := P.Copying(todo, None, None));
    var s2 := P.Set(s1, id, y);
    PhaseSessions(b, s1, id, y);
    FilesOnly(base, dirs, s1, s2);
    StoredOnly(s1, s2);
    Listing(base, matches, dirs, s1, x);
    ListedInFiles(env, s1, x);
    var keys := ListedToDo(base, dirs, s2, todo, Wanted(dirs, DomainRoot(base, Text(domain)), matches, pattern), picks);
    var copies, s3 := SnapshotAll(env, base, dirs, b, s2, id, keys, picks);
    var z := s3.sessions[id].(phase := P.Serving);
    s' := P.Set(s3, id, z);
    PhaseSessions(b.(streams := b.streams[id := WithCopies(b.streams[id], Copied(dirs, picks))]), s3, id, z);
    steps := [P.Register(id, domain, pattern)] + ([P.List(id)] + (copies + [P.Finish(id)]));
    ContinueOne(env, s, P.Register(id, domain, pattern), [P.List(id)] + (copies + [P.Finish(id)]));
    ContinueOne(env, s1, P.List(id), copies + [P.Finish(id)]);
    ContinueBoth(env, s2, copies, s3, [P.Finish(id)]);
    ContinueOne(env, s3, P.Finish(id), []);
    assert [P.Finish(id)] + [] == [P.Finish(id)];
    assert steps[2..|steps| - 1] == copies;
  }

  lemma ListedInFiles(env: P.Env, s: P.State, x: P.Session)
    ensures forall k :: k in P.Listed(env, s, x) ==> k in s.files
  {
    hide P.Covered;
  }

  lemma {:induction false} ContinueBoth(env: P.Env, s: P.State, a: seq<P.Step>, t: P.State, b: seq<P.Step>)
    requires Continue(env, s, a) == Some(t)
    ensures Continue(env, s, a + b) == Continue(env, t, b)
    decreases |a|
  {
    hide P.Apply, P.Enabled;
    if a == [] {
      assert a + b == b;
    } else {
      assert (a + b)[1..] == a[1..] + b;
      ContinueBoth(env, P.Apply(env, s, a[0]), a[1..], t, b);
    }
  }

  /**
   * The download handler, from subscribing to waiting, run without interruption: the node
   * goes through Register, List, one Snapshot for every directory and Finish.
   */
  method Request(node: Node, domain: Buffer, name: string, kind: nat, id: S.Stream, ghost s: P.State)
    returns (ghost steps: seq<P.Step>, ghost s': P.State)
    requires Represents(node, s) && P.WellStored(s) && id !in s.sessions
    requires id in node.streams && node.streams[id] == StreamState(false, false, [])
    requires Unregistered(node.subscribers.Contents(), id)
    modifies node`streams, node.subscribers.Repr
    ensures fresh(node.subscribers.Repr - old(node.subscribers.Repr))
    ensures node.streams.Keys == old(node.streams.Keys)
    ensures Continue(EnvOf(node), s, steps) == Some(s') && IsRequest(steps, id, domain, PatternOf(name, kind))
    ensures Represents(node, s') && id in s'.sessions && s'.sessions[id].phase == P.Serving
  {
    hide KeyPath, SessionsMatch, FilesMatch, Wanted, PicksFor, Text, P.WellStored, S.Added, Unregistered, IsRequest,
      Continue,
      PatternOf, WithCopies, Copied;
    ghost var a := node.Pushing(true);
    AllFiles(node.basePath, node.dirs, s);
    ghost var picks;
    var ok;
    ok, picks := OnDownloadRequest(node, Text(domain), name, kind, id);
    steps, s' := RequestSessions(node.basePath, node.matches, node.dirs, a, s,
                                 id, domain, PatternOf(name, kind), picks);
    FilesOnly(node.basePath, node.dirs, s, s');
    SameAbility(a.streams[id], Copied(node.dirs, picks));
  }

  lemma AllFiles(base: Path, dirs: Directories, s: P.State)
    requires FilesMatch(base, dirs, s)
    ensures forall p :: p in dirs ==> forall n :: n in dirs[p] ==> dirs[p][n].File?
  {
    hide KeyPath, PlainKey, Carries;
    forall p | p in dirs
      ensures forall n :: n in dirs[p] ==> dirs[p][n].File?
    {
      var k :| k in s.files && KeyPath(base, k) == p;
    }
  }
}
