/**
 * The data node at work: uploads arrive, download requests come in, their handlers take
 * one step at a time in any interleaving, and peers leave. Whatever the schedule, the
 * node goes through a run of the protocol.
 */
module NodeRuns {
  import opened Wrappers
  import opened LittleEndian
  import opened DomainDataWire
  import opened Bitmaps
  import opened DirectoryKeys
  import opened PartitionStore
  import opened DataNode
  import opened Download
  import opened DownloadRun
  import opened Refinement
  import opened NodeView
  import opened PartitionMerge
  import F = Framing
  import R = Refinement
  import A = AppView
  import E = EndToEnd
  import S = Subscribers
  import P = SnapshotProtocol

  // ----- Handlers -----------------------------------------------------------------------------

  /** Where the handler of a download request is, with its local variables. */
  datatype Progress =
    | Subscribed
    | Looking(todo: set<Path>)
    | Chosen(todo: set<Path>, dir: Path, name: string)
    | Reading(todo: set<Path>, dir: Path, content: Buffer)
    | Waiting
    | Returned

  datatype Handler = Handler(domain: Buffer, pattern: S.Pattern, progress: Progress)

  type Handlers = map<S.Stream, Handler>

  ghost predicate TodoMatches(base: Path, todo: set<Path>, keys: set<P.Key>) {
    forall p :: p in todo <==> exists k :: k in keys && KeyPath(base, k) == p
  }

  ghost predicate ProgressMatches(base: Path, dirs: Directories, s: P.State, h: Progress, phase: P.Phase) {
    match h
    case Subscribed => phase.Registered?
    case Looking(todo) =>
      phase.Copying? && TodoMatches(base, todo, phase.todo) && phase.chosen.None? && phase.open.None?
    case Chosen(todo, dir, n) =>
      && phase.Copying? && TodoMatches(base, todo, phase.todo) && phase.chosen.Some? && phase.open.None?
      && dir == KeyPath(base, phase.chosen.value.key) && StillNamed(base, dirs, s, phase.chosen.value, n)
    case Reading(todo, dir, content) =>
      && phase.Copying? && TodoMatches(base, todo, phase.todo) && phase.chosen.None? && phase.open.Some?
      && dir == KeyPath(base, phase.open.value.key) && Carries(content, phase.open.value)
    case Waiting => phase.Serving?
    case Returned => false
  }

  /** A handler whose peer has left is not followed any further: it can write nothing. */
  ghost predicate HandlerMatches(base: Path, dirs: Directories, s: P.State, h: Handler, x: P.Session) {
    && h.domain == x.domain && h.pattern == x.pattern
    && (!x.closed ==> ProgressMatches(base, dirs, s, h.progress, x.phase))
  }

  ghost predicate HandlersMatch(base: Path, dirs: Directories, s: P.State, hs: Handlers) {
    hs.Keys == s.sessions.Keys && forall id :: id in hs ==> HandlerMatches(base, dirs, s, hs[id], s.sessions[id])
  }

  /** Only session id has changed. */
  ghost predicate OnlySession(s: P.State, s': P.State, id: S.Stream) {
    && s'.files == s.files && s'.sessions.Keys == s.sessions.Keys + {id}
    && forall j :: j in s.sessions && j != id ==> s'.sessions[j] == s.sessions[j]
  }

  lemma ProgressStays(base: Path, dirs: Directories, s: P.State, s': P.State, h: Progress, phase: P.Phase)
    requires ProgressMatches(base, dirs, s, h, phase) && s'.files == s.files
    ensures ProgressMatches(base, dirs, s', h, phase)
  {
    hide KeyPath, Carries, TodoMatches;
  }

  lemma HandlersSet(base: Path, dirs: Directories, s: P.State, s': P.State, hs: Handlers, id: S.Stream, h: Handler)
    requires HandlersMatch(base, dirs, s, hs) && OnlySession(s, s', id)
    requires HandlerMatches(base, dirs, s', h, s'.sessions[id])
    ensures HandlersMatch(base, dirs, s', hs[id := h])
  {
    hide ProgressMatches;
    forall j | j in hs && j != id
      ensures HandlerMatches(base, dirs, s', hs[j], s'.sessions[j])
    {
      if !s.sessions[j].closed {
        ProgressStays(base, dirs, s, s', hs[j].progress, s.sessions[j].phase);
      }
    }
  }

  // ----- An upload under the handlers' feet ---------------------------------------------------

  /** A chosen file is still there after an upload, unless it was a partition that was merged away. */
  lemma ChosenStays(env: P.Env, base: Path, dirs: Directories, dirs': Directories, s: P.State, m: DomainData,
                    frame: Buffer, x: P.Item, n: string)
    requires CleanPath(base) && FilesMatch(base, dirs, s) && PlainKey(KeyOf(m)) && Took(dirs, dirs', base, m, frame)
    requires StillNamed(base, dirs, s, x, n) && x.version < s.next
    ensures StillNamed(base, dirs', P.Uploaded(env, s, KeyOf(m), UploadedBits(m)), x, n)
  {
    hide KeyPath, MessagePath, Carries, DirMatches, Settled, StoredBits, Merge, PlainKey, P.Told;
    SamePath(base, m);
    if x.key != KeyOf(m) && KeyPath(base, x.key) == KeyPath(base, KeyOf(m)) {
      KeyPathInjective(base, x.key, KeyOf(m));
    }
  }

  lemma ToldPhase(env: P.Env, s: P.State, k: P.Key, bits: Bitmap, id: S.Stream)
    requires id in s.sessions
    ensures var s' := P.Uploaded(env, s, k, bits);
      && s'.sessions.Keys == s.sessions.Keys && s'.sessions[id].phase == s.sessions[id].phase
      && s'.sessions[id].closed == s.sessions[id].closed && s'.sessions[id].domain == s.sessions[id].domain
      && s'.sessions[id].pattern == s.sessions[id].pattern
  {
    hide P.Addressed, P.Reaches, P.FilesAfter;
  }

  lemma ProgressUnderUpload(env: P.Env, base: Path, dirs: Directories, dirs': Directories, s: P.State, m: DomainData,
                            frame: Buffer, h: Progress, x: P.Session)
    requires CleanPath(base) && FilesMatch(base, dirs, s) && PlainKey(KeyOf(m)) && Took(dirs, dirs', base, m, frame)
    requires ProgressMatches(base, dirs, s, h, x.phase) && P.SessionFine(env, s, x)
    ensures ProgressMatches(base, dirs', P.Uploaded(env, s, KeyOf(m), UploadedBits(m)), h, x.phase)
  {
    hide KeyPath, Carries, TodoMatches, FilesMatch, Took, PlainKey, StillNamed, P.Covered, P.Uploaded;
    if h.Chosen? {
      ChosenStays(env, base, dirs, dirs', s, m, frame, x.phase.chosen.value, h.name);
    }
  }

  lemma HandlersUnderUpload(env: P.Env, base: Path, dirs: Directories, dirs': Directories, s: P.State, m: DomainData,
                            frame: Buffer, hs: Handlers)
    requires CleanPath(base) && FilesMatch(base, dirs, s) && PlainKey(KeyOf(m)) && Took(dirs, dirs', base, m, frame)
    requires HandlersMatch(base, dirs, s, hs) && P.Inv(env, s)
    ensures HandlersMatch(base, dirs', P.Uploaded(env, s, KeyOf(m), UploadedBits(m)), hs)
  {
    hide ProgressMatches, FilesMatch, Took, PlainKey, P.Uploaded, P.SessionFine;
    var s' := P.Uploaded(env, s, KeyOf(m), UploadedBits(m));
    SessionKeys(env, s, KeyOf(m), UploadedBits(m));
    forall id | id in hs
      ensures HandlerMatches(base, dirs', s', hs[id], s'.sessions[id])
    {
      ToldPhase(env, s, KeyOf(m), UploadedBits(m), id);
      assert P.Good(env, s, s.sessions[id]);
      if !s.sessions[id].closed {
        ProgressUnderUpload(env, base, dirs, dirs', s, m, frame, hs[id].progress, s.sessions[id]);
      }
    }
  }

  lemma SessionKeys(env: P.Env, s: P.State, k: P.Key, bits: Bitmap)
    ensures P.Uploaded(env, s, k, bits).sessions.Keys == s.sessions.Keys
  {
    hide P.Told, P.FilesAfter;
  }

  // ----- One step of a handler --------------------------------------------------------------

  /** A step of session id that is no upload. */
  predicate Own(step: P.Step, id: S.Stream) {
    !step.Upload? && step.id == id
  }

  lemma OwnStep(env: P.Env, s: P.State, step: P.Step, id: S.Stream)
    requires P.Enabled(s, step) && Own(step, id)
    ensures OnlySession(s, P.Apply(env, s, step), id)
    ensures id in s.sessions ==> var x, y := s.sessions[id], P.Apply(env, s, step).sessions[id];
      y.domain == x.domain && y.pattern == x.pattern
  {
    hide P.Listed;
  }

  /** Session id is live and its handler is h. */
  ghost predicate Handles(node: Node, s: P.State, id: S.Stream, h: Handler)
    reads node, node.subscribers, node.subscribers.Repr
  {
    && Represents(node, s) && P.Inv(EnvOf(node), s)
    && id in s.sessions && !s.sessions[id].closed && HandlerMatches(node.basePath, node.dirs, s, h, s.sessions[id])
  }

  /** The handler went on to h' by one step of the protocol. */
  ghost predicate Stepped(node: Node, s: P.State, id: S.Stream, step: P.Step, h': Handler)
    reads node, node.subscribers, node.subscribers.Repr
  {
    && P.Enabled(s, step) && Own(step, id) && Represents(node, P.Apply(EnvOf(node), s, step))
    && var s' := P.Apply(EnvOf(node), s, step);
      id in s'.sessions && HandlerMatches(node.basePath, node.dirs, s', h', s'.sessions[id])
  }

  /** What a handler does next, on the directories as they are. */
  predicate Goes(node: Node, h: Handler, h': Handler)
    reads node
  {
    && h'.domain == h.domain && h'.pattern == h.pattern
    && match h.progress
       case Subscribed =>
         h'.progress ==
           Looking(Wanted(node.dirs, DomainRoot(node.basePath, Text(h.domain)), node.matches, h.pattern))
       case Looking(todo) =>
         if todo == {} then h'.progress == Waiting
         else
           && h'.progress.Chosen? && h'.progress.todo == todo && h'.progress.dir in todo
           && h'.progress.dir in node.dirs && h'.progress.name in node.dirs[h'.progress.dir]
       case Chosen(todo, dir, n) =>
         if dir in node.dirs && n in node.dirs[dir] then
           node.dirs[dir][n].File? && h'.progress == Reading(todo, dir, node.dirs[dir][n].content)
         else h'.progress == Looking(todo - {dir})
       case Reading(todo, dir, _) => h'.progress == Looking(todo - {dir})
       case _ => h' == h
  }

  lemma TodoLess(base: Path, dirs: Directories, s: P.State, todo: set<Path>, keys: set<P.Key>, k: P.Key)
    requires CleanPath(base) && FilesMatch(base, dirs, s) && TodoMatches(base, todo, keys) && k in keys
    requires forall j :: j in keys ==> j in s.files
    ensures TodoMatches(base, todo - {KeyPath(base, k)}, keys - {k})
  {
    hide KeyPath, DirMatches, PlainKey;
    forall p
      ensures p in todo - {KeyPath(base, k)} <==> exists j :: j in keys - {k} && KeyPath(base, j) == p
    {
      if j :| j in keys - {k} && KeyPath(base, j) == p {
        if KeyPath(base, j) == KeyPath(base, k) {
          KeyPathInjective(base, j, k);
        }
      }
      if p in todo - {KeyPath(base, k)} {
        var j :| j in keys && KeyPath(base, j) == p;
        assert j in keys - {k};
      }
    }
  }

  lemma TodoInFiles(env: P.Env, s: P.State, id: S.Stream)
    requires P.Inv(env, s) && id in s.sessions
    ensures P.WellStored(s)
    ensures s.sessions[id].phase.Copying? ==> forall k :: k in s.sessions[id].phase.todo ==> k in s.files
    ensures var x := s.sessions[id]; x.phase.Copying? ==>
      && (x.phase.chosen.Some? ==> x.phase.chosen.value.key in x.phase.todo)
      && (x.phase.open.Some? ==> x.phase.open.value.key in x.phase.todo)
  {
    hide P.WellStored, P.PartitionFine, P.Covered;
    assert P.Good(env, s, s.sessions[id]);
  }

  /** Listing the directories of the domain. */
  method ListNext(node: Node, id: S.Stream, h: Handler, ghost s: P.State) returns (h': Handler, ghost step: P.Step)
    requires Handles(node, s, id, h) && h.progress.Subscribed?
    ensures Stepped(node, s, id, step, h') && Goes(node, h, h')
  {
    hide KeyPath, Represents, P.Inv, P.Listed, StillNamed;
    step := P.List(id);
    var wanted := List(node, id, h.domain, h.pattern, s);
    h' := h.(progress := Looking(wanted));
  }

  /** No directory is left. */
  lemma WaitNext(node: Node, id: S.Stream, h: Handler, s: P.State)
    requires Handles(node, s, id, h) && h.progress == Looking({})
    ensures Stepped(node, s, id, P.Finish(id), h.(progress := Waiting))
  {
    hide KeyPath, FilesMatch, SessionsMatch, AllSettled, P.Inv;
    assert forall k :: k in s.sessions[id].phase.todo ==> KeyPath(node.basePath, k) in h.progress.todo;
    Finish(node, id, s);
  }

  lemma KeyAt(base: Path, dirs: Directories, s: P.State, todo: set<Path>, keys: set<P.Key>, p: Path) returns (k: P.Key)
    requires FilesMatch(base, dirs, s) && TodoMatches(base, todo, keys) && p in todo
    requires forall j :: j in keys ==> j in s.files
    ensures k in keys && KeyPath(base, k) == p && p in dirs
  {
    hide KeyPath, DirMatches, PlainKey;
    k :| k in keys && KeyPath(base, k) == p;
  }

  /** The next directory: its first file is taken. */
  method ChooseNext(node: Node, id: S.Stream, h: Handler, p: Path, ghost s: P.State)
    returns (h': Handler, ghost step: P.Step)
    requires Handles(node, s, id, h) && h.progress.Looking? && p in h.progress.todo
    ensures Stepped(node, s, id, step, h') && Goes(node, h, h')
  {
    hide KeyPath, Carries, FilesMatch, SessionsMatch, AllSettled, TodoMatches, P.Inv, P.WellStored, StillNamed,
      DirMatches;
    TodoInFiles(EnvOf(node), s, id);
    ghost var k := KeyAt(node.basePath, node.dirs, s, h.progress.todo, s.sessions[id].phase.todo, p);
    ghost var item;
    var n;
    n, item := Choose(node, id, p, k, s);
    step := P.Choose(id, item);
    StillNamedAfter(node.basePath, node.dirs, s, P.Apply(EnvOf(node), s, step), item, n);
    h' := h.(progress := Chosen(h.progress.todo, p, n));
  }

  lemma StillNamedAfter(base: Path, dirs: Directories, s: P.State, s': P.State, x: P.Item, n: string)
    requires StillNamed(base, dirs, s, x, n) && s'.files == s.files
    ensures StillNamed(base, dirs, s', x, n)
  {
    hide KeyPath, Carries;
  }

  /** Opening the chosen file, or passing its directory over. */
  method OpenNext(node: Node, id: S.Stream, h: Handler, ghost s: P.State) returns (h': Handler, ghost step: P.Step)
    requires Handles(node, s, id, h) && h.progress.Chosen?
    ensures Stepped(node, s, id, step, h') && Goes(node, h, h')
  {
    hide KeyPath, Carries, FilesMatch, SessionsMatch, AllSettled, P.Inv, P.WellStored, StillNamed, TodoMatches;
    var todo, p := h.progress.todo, h.progress.dir;
    ghost var x := s.sessions[id].phase.chosen.value;
    TodoInFiles(EnvOf(node), s, id);
    ghost var item;
    var content;
    content, item := OpenChosen(node, id, p, h.progress.name, s);
    if content.Some? {
      step := P.Open(id, item);
      h' := h.(progress := Reading(todo, p, content.value));
    } else {
      step := P.Skip(id, x.key);
      TodoLess(node.basePath, node.dirs, s, todo, s.sessions[id].phase.todo, x.key);
      h' := h.(progress := Looking(todo - {p}));
    }
  }

  /** Copying the file that is open. */
  method CopyNext(node: Node, id: S.Stream, h: Handler, ghost s: P.State) returns (h': Handler, ghost step: P.Step)
    requires Handles(node, s, id, h) && h.progress.Reading? && id in node.streams
    modifies node`streams
    ensures Stepped(node, s, id, step, h') && Goes(node, h, h')
    ensures node.streams == old(node.streams)[id := WithCopies(old(node.streams[id]), [h.progress.content])]
  {
    hide KeyPath, Carries, FilesMatch, SessionsMatch, AllSettled, P.Inv, P.WellStored, TodoMatches, WithCopies;
    var todo, p := h.progress.todo, h.progress.dir;
    step := P.Copy(id);
    TodoInFiles(EnvOf(node), s, id);
    TodoLess(node.basePath, node.dirs, s, todo, s.sessions[id].phase.todo, s.sessions[id].phase.open.value.key);
    var ok := CopyOpened(node, id, h.progress.content, s);
    h' := h.(progress := if ok then Looking(todo - {p}) else Returned);
  }

  // ----- Runs ------------------------------------------------------------------------------

  /** The node and its handlers have come to s by the given steps. */
  ghost predicate Running(node: Node, hs: Handlers, steps: seq<P.Step>, s: P.State)
    reads node, node.subscribers, node.subscribers.Repr
  {
    && Represents(node, s) && P.Exec(EnvOf(node), steps) == Some(s)
    && HandlersMatch(node.basePath, node.dirs, s, hs) && hs.Keys == node.streams.Keys
  }

  datatype Action =
    | Receive(header: Buffer, body: Buffer)
    | Connect(domain: Buffer, name: string, kind: nat)
    | Ask(domain: Buffer, name: string, kind: nat)
    | Proceed(id: S.Stream)
    | Leave(id: S.Stream)

  ghost predicate Acceptable(a: Action) {
    a.Receive? ==> |a.header| == 4 && F.IsFrame(a.header + a.body) && CleanUpload(a.body)
  }

  /** The bitmaps a message brings for k. */
  function ReceivedBy(a: Action, k: P.Key): seq<Bitmap> {
    if a.Receive? && ParseBody(a.body).Some? && KeyOf(ParseBody(a.body).value) == k
    then [UploadedBits(ParseBody(a.body).value)] else []
  }

  /** The bitmaps received for k, in order. */
  function ReceivedFor(actions: seq<Action>, k: P.Key): seq<Bitmap> {
    if actions == [] then []
    else ReceivedFor(actions[..|actions| - 1], k) + ReceivedBy(actions[|actions| - 1], k)
  }

  /** The steps upload exactly what the action brings. */
  ghost predicate Recorded(steps: seq<P.Step>, a: Action) {
    forall k :: P.UploadsIn(steps, k) == ReceivedBy(a, k)
  }

  predicate OwnSteps(steps: seq<P.Step>, id: S.Stream) {
    forall i :: 0 <= i < |steps| ==> Own(steps[i], id)
  }

  lemma {:induction false} OwnUploads(steps: seq<P.Step>, id: S.Stream, k: P.Key)
    requires OwnSteps(steps, id)
    ensures P.UploadsIn(steps, k) == []
  {
    if steps != [] {
      OwnUploads(steps[..|steps| - 1], id, k);
    }
  }

  lemma OwnRecorded(steps: seq<P.Step>, id: S.Stream, a: Action)
    requires OwnSteps(steps, id) && !a.Receive?
    ensures Recorded(steps, a)
  {
    hide P.UploadsIn;
    forall k
      ensures P.UploadsIn(steps, k) == ReceivedBy(a, k)
    {
      OwnUploads(steps, id, k);
    }
  }

  lemma {:induction false} UploadsJoin(a: seq<P.Step>, b: seq<P.Step>, k: P.Key)
    ensures P.UploadsIn(a + b, k) == P.UploadsIn(a, k) + P.UploadsIn(b, k)
    decreases |b|
  {
    if b == [] {
      assert a + b == a;
    } else {
      assert (a + b)[..|a + b| - 1] == a + b[..|b| - 1];
      UploadsJoin(a, b[..|b| - 1], k);
    }
  }

  lemma {:induction false} OwnRun(env: P.Env, s: P.State, steps: seq<P.Step>, id: S.Stream, s': P.State)
    requires Continue(env, s, steps) == Some(s') && OwnSteps(steps, id) && id in s.sessions
    ensures OnlySession(s, s', id)
    ensures s'.sessions[id].domain == s.sessions[id].domain && s'.sessions[id].pattern == s.sessions[id].pattern
    decreases |steps|
  {
    hide P.Apply, P.Enabled;
    if steps != [] {
      assert Own(steps[0], id);
      OwnStep(env, s, steps[0], id);
      OwnRun(env, P.Apply(env, s, steps[0]), steps[1..], id, s');
    }
  }

  lemma RequestOwn(steps: seq<P.Step>, id: S.Stream, domain: Buffer, pattern: S.Pattern)
    requires IsRequest(steps, id, domain, pattern)
    ensures OwnSteps(steps, id) && P.Atomic(steps)
  {
    var copies := steps[2..|steps| - 1];
    forall i | 0 <= i < |steps|
      ensures Own(steps[i], id) && !steps[i].Choose?
    {
      if 2 <= i < |steps| - 1 {
        assert copies[i - 2].Snapshot? && steps[i] == copies[i - 2];
      }
    }
  }

  lemma RequestRun(env: P.Env, s: P.State, steps: seq<P.Step>, id: S.Stream, domain: Buffer, pattern: S.Pattern,
                   s': P.State)
    requires Continue(env, s, steps) == Some(s') && IsRequest(steps, id, domain, pattern)
    ensures OnlySession(s, s', id) && s'.sessions[id].domain == domain && s'.sessions[id].pattern == pattern
  {
    hide OwnSteps, IsRequest;
    RequestOwn(steps, id, domain, pattern);
    FirstOfRequest(env, s, steps, id, domain, pattern);
    OwnRest(steps, id);
    var s1 := P.Apply(env, s, steps[0]);
    OwnRun(env, s1, steps[1..], id, s');
  }

  lemma FirstOfRequest(env: P.Env, s: P.State, steps: seq<P.Step>, id: S.Stream, domain: Buffer, pattern: S.Pattern)
    requires Continue(env, s, steps).Some? && IsRequest(steps, id, domain, pattern)
    ensures steps != [] && P.Enabled(s, steps[0])
    ensures var s1 := P.Apply(env, s, steps[0]);
      && Continue(env, s, steps) == Continue(env, s1, steps[1..]) && OnlySession(s, s1, id)
      && s1.sessions[id].domain == domain && s1.sessions[id].pattern == pattern
  {
  }

  lemma OwnRest(steps: seq<P.Step>, id: S.Stream)
    requires OwnSteps(steps, id) && steps != []
    ensures OwnSteps(steps[1..], id)
  {
  }

  // ----- The actions -------------------------------------------------------------------------

  /** One message arrives. */
  method DoReceive(node: Node, hs: Handlers, header: Buffer, body: Buffer, ghost steps: seq<P.Step>, ghost s: P.State)
    returns (ghost more: seq<P.Step>, ghost s': P.State)
    requires Running(node, hs, steps, s) && Acceptable(Receive(header, body))
    modifies node`dirs, node`drawn, node`streams, node`log, node.subscribers.Repr
    ensures node.subscribers.Repr == old(node.subscribers.Repr)
    ensures Running(node, hs, steps + more, s') && Recorded(more, Receive(header, body)) && P.Atomic(more)
  {
    hide KeyOf, P.Exec, P.Inv, P.Uploaded, Took, FilesMatch, SessionsMatch, AllSettled, NoneFailing, Isolated, Fits,
      HandlersMatch, PlainKey, UploadedBits, ParseBody;
    ghost var m, dirs := ParseBody(body).value, node.dirs;
    ghost var k, bits := KeyOf(m), UploadedBits(m);
    P.ReachableFine(EnvOf(node), steps);
    CleanKey(body);
    HandlersAfter(node, hs, s, m, header + body);
    R.Upload(node, header, body, s);
    more := [P.Step.Upload(k, bits)];
    s' := P.Apply(EnvOf(node), s, more[0]);
    P.ExecMore(EnvOf(node), steps, s, more[0]);
    UploadRecorded(header, body);
  }

  lemma UploadRecorded(header: Buffer, body: Buffer)
    requires CleanUpload(body)
    ensures var m := ParseBody(body).value;
      Recorded([P.Step.Upload(KeyOf(m), UploadedBits(m))], Receive(header, body))
  {
    hide ParseBody, Isolated, Fits, KeyOf, UploadedBits;
    var step := P.Step.Upload(KeyOf(ParseBody(body).value), UploadedBits(ParseBody(body).value));
    forall k
      ensures P.UploadsIn([step], k) == ReceivedBy(Receive(header, body), k)
    {
      assert [step][..0] == [] && P.UploadsIn([], k) == [];
    }
  }

  /** Whatever an upload makes of the directories, the handlers still match. */
  lemma HandlersAfter(node: Node, hs: Handlers, s: P.State, m: DomainData, frame: Buffer)
    requires Represents(node, s) && P.Inv(EnvOf(node), s) && HandlersMatch(node.basePath, node.dirs, s, hs)
    requires PlainKey(KeyOf(m))
    ensures forall dirs': Directories :: Took(node.dirs, dirs', node.basePath, m, frame) ==>
      HandlersMatch(node.basePath, dirs', P.Apply(EnvOf(node), s, P.Step.Upload(KeyOf(m), UploadedBits(m))), hs)
  {
    hide KeyOf, P.Inv, P.Uploaded, Took, FilesMatch, SessionsMatch, AllSettled, NoneFailing, HandlersMatch, PlainKey;
    forall dirs': Directories | Took(node.dirs, dirs', node.basePath, m, frame)
      ensures HandlersMatch(node.basePath, dirs',
                            P.Apply(EnvOf(node), s, P.Step.Upload(KeyOf(m), UploadedBits(m))), hs)
    {
      HandlersUnderUpload(EnvOf(node), node.basePath, node.dirs, dirs', s, m, frame, hs);
    }
  }

  /** A number no stream has. */
  method NewStream(streams: map<S.Stream, StreamState>) returns (id: S.Stream)
    ensures id !in streams
  {
    id := 0;
    var todo := streams.Keys;
    while todo != {}
      invariant forall s :: s in streams ==> s in todo || s < id
    {
      var s :| s in todo;
      todo := todo - {s};
      id := if s < id then id else s + 1;
    }
  }

  lemma SessionsMore(a: PushState, b: PushState, s: P.State, id: S.Stream, x: StreamState)
    requires SessionsMatch(a, s) && id !in a.streams && b == a.(streams := a.streams[id := x])
    ensures SessionsMatch(b, s) && id !in s.sessions
  {
    hide SentMatches, Registered;
    forall j | j in s.sessions
      ensures SessionMatches(b.streams, j, s.sessions[j])
      ensures !s.sessions[j].closed ==> Registered(b.registry, j, s.sessions[j])
    {
      assert SessionMatches(a.streams, j, s.sessions[j]);
    }
  }

  /** A peer opens a stream. */
  method Attach(node: Node, ghost s: P.State) returns (id: S.Stream)
    requires Represents(node, s)
    modifies node`streams
    ensures id !in old(node.streams) && node.streams == old(node.streams)[id := StreamState(false, false, [])]
    ensures Represents(node, s) && id !in s.sessions && Unregistered(node.subscribers.Contents(), id)
  {
    hide FilesMatch, AllSettled, SessionsMatch;
    ghost var a := node.Pushing(true);
    id := NewStream(node.streams);
    node.streams := node.streams[id := StreamState(false, false, [])];
    SessionsMore(a, node.Pushing(true), s, id, StreamState(false, false, []));
  }

  /** A request is read and its stream registered; its handler will go on later. */
  method DoConnect(node: Node, hs: Handlers, domain: Buffer, name: string, kind: nat,
                   ghost steps: seq<P.Step>, ghost s: P.State)
    returns (id: S.Stream, hs': Handlers, ghost more: seq<P.Step>, ghost s': P.State)
    requires Running(node, hs, steps, s)
    modifies node`streams, node.subscribers.Repr
    ensures fresh(node.subscribers.Repr - old(node.subscribers.Repr))
    ensures id !in hs && hs' == hs[id := Handler(domain, PatternOf(name, kind), Subscribed)]
    ensures Running(node, hs', steps + more, s') && Recorded(more, Connect(domain, name, kind))
  {
    hide P.Exec, FilesMatch, SessionsMatch, AllSettled, NoneFailing, HandlersMatch, Unregistered, Recorded,
      P.UploadsIn, PatternOf;
    var pattern := PatternOf(name, kind);
    id := Attach(node, s);
    Register(node, domain, pattern, id, s);
    var h := Handler(domain, pattern, Subscribed);
    ghost var step := P.Register(id, domain, pattern);
    more := [step];
    s' := P.Apply(EnvOf(node), s, step);
    P.ExecMore(EnvOf(node), steps, s, step);
    OwnStep(EnvOf(node), s, step, id);
    HandlersSet(node.basePath, node.dirs, s, s', hs, id, h);
    hs' := hs[id := h];
    OwnRecorded(more, id, Connect(domain, name, kind));
  }

  /** A whole request that nothing interrupts. */
  method DoAsk(node: Node, hs: Handlers, domain: Buffer, name: string, kind: nat,
               ghost steps: seq<P.Step>, ghost s: P.State)
    returns (id: S.Stream, hs': Handlers, ghost more: seq<P.Step>, ghost s': P.State)
    requires Running(node, hs, steps, s)
    modifies node`streams, node.subscribers.Repr
    ensures fresh(node.subscribers.Repr - old(node.subscribers.Repr))
    ensures id !in hs && hs' == hs[id := Handler(domain, PatternOf(name, kind), Waiting)]
    ensures Running(node, hs', steps + more, s') && Recorded(more, Ask(domain, name, kind)) && P.Atomic(more)
  {
    hide P.Exec, FilesMatch, SessionsMatch, AllSettled, NoneFailing, HandlersMatch, Unregistered, Recorded,
      P.UploadsIn, PatternOf, P.Inv, Continue, IsRequest, P.WellStored, OwnSteps;
    var pattern := PatternOf(name, kind);
    id := Attach(node, s);
    P.ReachableFine(EnvOf(node), steps);
    InvStored(EnvOf(node), s);
    more, s' := Request(node, domain, name, kind, id, s);
    ExecThen(EnvOf(node), steps, s, more);
    RequestRun(EnvOf(node), s, more, id, domain, pattern, s');
    RequestOwn(more, id, domain, pattern);
    var h := Handler(domain, pattern, Waiting);
    HandlersSet(node.basePath, node.dirs, s, s', hs, id, h);
    hs' := hs[id := h];
    OwnRecorded(more, id, Ask(domain, name, kind));
  }

  lemma InvStored(env: P.Env, s: P.State)
    requires P.Inv(env, s)
    ensures P.WellStored(s)
  {
    hide P.Good;
  }

  /** Every handler has done what it had to do. */
  predicate AtRest(hs: Handlers) {
    forall id :: id in hs ==> hs[id].progress.Waiting? || hs[id].progress.Returned?
  }

  /** Only the handler that has read a file writes. */
  function Sent(streams: map<S.Stream, StreamState>, id: S.Stream, h: Handler): map<S.Stream, StreamState> {
    if id in streams && h.progress.Reading? then streams[id := WithCopies(streams[id], [h.progress.content])]
    else streams
  }

  /** The handler of a live session goes on by one step. */
  method Next(node: Node, id: S.Stream, h: Handler, ghost s: P.State) returns (h': Handler, ghost step: P.Step)
    requires Handles(node, s, id, h) && !h.progress.Waiting? && id in node.streams
    modifies node`streams
    ensures Stepped(node, s, id, step, h') && Goes(node, h, h')
    ensures node.streams == Sent(old(node.streams), id, h)
  {
    hide Represents, P.Inv, Stepped, TodoMatches, StillNamed, WithCopies;
    if h.progress.Subscribed? {
      h', step := ListNext(node, id, h, s);
    } else if h.progress.Looking? && h.progress.todo == {} {
      h', step := h.(progress := Waiting), P.Finish(id);
      WaitNext(node, id, h, s);
    } else if h.progress.Looking? {
      var p :| p in h.progress.todo;
      h', step := ChooseNext(node, id, h, p, s);
    } else if h.progress.Chosen? {
      h', step := OpenNext(node, id, h, s);
    } else {
      h', step := CopyNext(node, id, h, s);
    }
  }

  /**
   * Some handler goes on, if there is one of that number that is not waiting. When its
   * peer has left, it is as good as returned.
   */
  method DoProceed(node: Node, hs: Handlers, id: S.Stream, ghost steps: seq<P.Step>, ghost s: P.State)
    returns (hs': Handlers, ghost more: seq<P.Step>, ghost s': P.State)
    requires Running(node, hs, steps, s)
    modifies node`streams
    ensures Running(node, hs', steps + more, s') && Recorded(more, Proceed(id)) && hs'.Keys == hs.Keys
    ensures forall j :: j in hs && j != id ==> hs'[j] == hs[j]
    ensures id in hs ==>
      if old(node.streams[id].closed) then hs'[id] == hs[id].(progress := Returned) && node.streams == old(node.streams)
      else Goes(node, hs[id], hs'[id]) && node.streams == Sent(old(node.streams), id, hs[id])
    ensures AtRest(hs) ==> P.Atomic(more)
  {
    hide P.Exec, P.Inv, HandlersMatch, FilesMatch, SessionsMatch, AllSettled, NoneFailing, Recorded, P.UploadsIn,
      ProgressMatches, WithCopies;
    hs', more, s' := hs, [], s;
    OwnRecorded([], id, Proceed(id));
    assert steps + [] == steps;
    if id in hs {
      HandlerOf(node, hs, s, id);
      if node.streams[id].closed {
        hs' := hs[id := hs[id].(progress := Returned)];
        HandlerReturned(node.basePath, node.dirs, s, hs, id);
      } else if !hs[id].progress.Waiting? {
        P.ReachableFine(EnvOf(node), steps);
        ghost var step;
        var h;
        h, step := Next(node, id, hs[id], s);
        more := [step];
        s' := P.Apply(EnvOf(node), s, step);
        P.ExecMore(EnvOf(node), steps, s, step);
        OwnStep(EnvOf(node), s, step, id);
        HandlersSet(node.basePath, node.dirs, s, s', hs, id, h);
        hs' := hs[id := h];
        OwnRecorded(more, id, Proceed(id));
      }
    }
  }

  lemma HandlerOf(node: Node, hs: Handlers, s: P.State, id: S.Stream)
    requires Represents(node, s) && HandlersMatch(node.basePath, node.dirs, s, hs) && id in hs
    ensures id in s.sessions && id in node.streams && node.streams[id].closed == s.sessions[id].closed
    ensures HandlerMatches(node.basePath, node.dirs, s, hs[id], s.sessions[id])
    ensures !s.sessions[id].closed ==> !hs[id].progress.Returned?
  {
    hide FilesMatch, SentMatches, Registered;
    assert SessionMatches(node.streams, id, s.sessions[id]);
  }

  lemma HandlerReturned(base: Path, dirs: Directories, s: P.State, hs: Handlers, id: S.Stream)
    requires HandlersMatch(base, dirs, s, hs) && id in hs && s.sessions[id].closed
    ensures HandlersMatch(base, dirs, s, hs[id := hs[id].(progress := Returned)])
  {
    hide ProgressMatches;
  }

  /** A peer goes away. */
  method DoLeave(node: Node, hs: Handlers, id: S.Stream, ghost steps: seq<P.Step>, ghost s: P.State)
    returns (ghost more: seq<P.Step>, ghost s': P.State)
    requires Running(node, hs, steps, s)
    modifies node`streams
    ensures Running(node, hs, steps + more, s') && Recorded(more, Leave(id)) && P.Atomic(more)
    ensures node.streams ==
      if id in hs then old(node.streams)[id := old(node.streams[id]).(closed := true)] else old(node.streams)
  {
    hide P.Exec, HandlersMatch, FilesMatch, SessionsMatch, AllSettled, NoneFailing, Recorded, P.UploadsIn,
      ProgressMatches;
    more, s' := [], s;
    OwnRecorded([], id, Leave(id));
    assert steps + [] == steps;
    if id in hs {
      HandlerOf(node, hs, s, id);
      PeerLeaves(node, id, s);
      ghost var step := P.Close(id);
      more := [step];
      s' := P.Apply(EnvOf(node), s, step);
      P.ExecMore(EnvOf(node), steps, s, step);
      OwnStep(EnvOf(node), s, step, id);
      HandlersSet(node.basePath, node.dirs, s, s', hs, id, hs[id]);
      assert hs[id := hs[id]] == hs;
      OwnRecorded(more, id, Leave(id));
    }
  }

  lemma DirInTodo(node: Node, hs: Handlers, steps: seq<P.Step>, s: P.State, id: S.Stream)
    requires Running(node, hs, steps, s) && id in hs && !node.streams[id].closed
    ensures match hs[id].progress
      case Chosen(todo, dir, _) => dir in todo
      case Reading(todo, dir, _) => dir in todo
      case Returned => false
      case _ => true
  {
    hide P.Exec, P.Inv, FilesMatch, SessionsMatch, AllSettled, NoneFailing, KeyPath, StillNamed, Carries, P.WellStored;
    HandlerOf(node, hs, s, id);
    P.ReachableFine(EnvOf(node), steps);
    TodoInFiles(EnvOf(node), s, id);
  }

  /** How much a handler that has listed its domain has left to do. */
  function Left(h: Progress): nat {
    match h
    case Looking(todo) => 3 * |todo| + 1
    case Chosen(todo, _, _) => 3 * |todo|
    case Reading(todo, _, _) => if todo == {} then 0 else 3 * |todo| - 1
    case _ => 0
  }

  /** Left to itself, the handler of a live session goes through its directories and then waits. */
  method Attend(node: Node, hs: Handlers, id: S.Stream, ghost steps: seq<P.Step>, ghost s: P.State)
    returns (hs': Handlers, ghost more: seq<P.Step>, ghost s': P.State)
    requires Running(node, hs, steps, s) && id in hs && id in node.streams && !node.streams[id].closed
    modifies node`streams
    ensures id in node.streams && !node.streams[id].closed
    ensures Running(node, hs', steps + more, s') && hs'.Keys == hs.Keys && hs'[id].progress == Waiting
  {
    hide Running, Wanted, Sent, WithCopies;
    hs', more, s' := hs, [], s;
    assert steps + [] == steps;
    while hs'[id].progress != Waiting
      invariant Running(node, hs', steps + more, s') && hs'.Keys == hs.Keys
      invariant id in node.streams && !node.streams[id].closed
      decreases hs'[id].progress.Subscribed?, Left(hs'[id].progress)
    {
      DirInTodo(node, hs', steps + more, s', id);
      SentOpen(node.streams, id, hs'[id]);
      ghost var next;
      hs', next, s' := DoProceed(node, hs', id, steps + more, s');
      assert steps + more + next == steps + (more + next);
      more := more + next;
    }
  }

  lemma SentOpen(streams: map<S.Stream, StreamState>, id: S.Stream, h: Handler)
    requires id in streams
    ensures id in Sent(streams, id, h) && Sent(streams, id, h)[id].closed == streams[id].closed
  {
  }

  // ----- Serving -----------------------------------------------------------------------------

  /** The steps upload exactly what the actions brought. */
  ghost predicate AllRecorded(steps: seq<P.Step>, actions: seq<Action>) {
    forall k :: P.UploadsIn(steps, k) == ReceivedFor(actions, k)
  }

  /** No request is handled piecemeal. */
  predicate Uninterrupted(actions: seq<Action>) {
    forall i :: 0 <= i < |actions| ==> !actions[i].Connect?
  }

  predicate Requesting(a: Action) {
    a.Connect? || a.Ask?
  }

  /** Handlers come with requests and keep what was asked for; added is the number of a new one. */
  predicate Joins(hs: Handlers, hs': Handlers, a: Action, added: seq<S.Stream>) {
    && (forall id :: id in hs ==> id in hs' && hs'[id].domain == hs[id].domain && hs'[id].pattern == hs[id].pattern)
    && if Requesting(a) then
         && |added| == 1 && added[0] !in hs && hs'.Keys == hs.Keys + {added[0]}
         && hs'[added[0]].domain == a.domain && hs'[added[0]].pattern == PatternOf(a.name, a.kind)
       else added == [] && hs'.Keys == hs.Keys
  }

  method Act(node: Node, hs: Handlers, a: Action, ghost steps: seq<P.Step>, ghost s: P.State)
    returns (hs': Handlers, added: seq<S.Stream>, ghost more: seq<P.Step>, ghost s': P.State)
    requires Running(node, hs, steps, s) && Acceptable(a)
    modifies node`dirs, node`drawn, node`streams, node`log, node.subscribers.Repr
    ensures fresh(node.subscribers.Repr - old(node.subscribers.Repr))
    ensures Running(node, hs', steps + more, s') && Recorded(more, a) && Joins(hs, hs', a, added)
    ensures AtRest(hs) && !a.Connect? ==> AtRest(hs') && P.Atomic(more)
  {
    hide Running, Recorded, P.Atomic, F.IsFrame, CleanUpload, PatternOf, Sent;
    hs', added := hs, [];
    match a
    case Receive(header, body) => more, s' := DoReceive(node, hs, header, body, steps, s);
    case Connect(domain, name, kind) =>
      var id;
      id, hs', more, s' := DoConnect(node, hs, domain, name, kind, steps, s);
      added := [id];
    case Ask(domain, name, kind) =>
      var id;
      id, hs', more, s' := DoAsk(node, hs, domain, name, kind, steps, s);
      added := [id];
    case Proceed(id) =>
      hs', more, s' := DoProceed(node, hs, id, steps, s);
    case Leave(id) => more, s' := DoLeave(node, hs, id, steps, s);
  }

  lemma RecordedMore(steps: seq<P.Step>, more: seq<P.Step>, actions: seq<Action>, a: Action)
    requires AllRecorded(steps, actions) && Recorded(more, a)
    ensures AllRecorded(steps + more, actions + [a])
  {
    hide P.UploadsIn;
    assert (actions + [a])[..|actions|] == actions;
    forall k
      ensures P.UploadsIn(steps + more, k) == ReceivedFor(actions + [a], k)
    {
      UploadsJoin(steps, more, k);
    }
  }

  /**
   * A run of the protocol that brought the node where it is and uploaded what the
   * actions brought; its copies are atomic if no request was handled piecemeal.
   */
  ghost predicate Explains(node: Node, hs: Handlers, actions: seq<Action>, steps: seq<P.Step>, s: P.State)
    reads node, node.subscribers, node.subscribers.Repr
  {
    && Running(node, hs, steps, s) && AllRecorded(steps, actions)
    && (Uninterrupted(actions) ==> P.Atomic(steps) && AtRest(hs))
  }

  lemma ExplainedStart(node: Node)
    requires Represents(node, P.Start()) && node.streams == map[]
    ensures Explains(node, map[], [], [], P.Start())
  {
    hide FilesMatch, SessionsMatch, AllSettled;
    P.StartReached(EnvOf(node));
  }

  /** The requests among the actions. */
  function Requests(actions: seq<Action>): (r: seq<Action>)
    ensures forall i :: 0 <= i < |r| ==> Requesting(r[i])
  {
    if actions == [] then []
    else
      var last := actions[|actions| - 1];
      Requests(actions[..|actions| - 1]) + if Requesting(last) then [last] else []
  }

  /** Every request has a handler of its own, and there are no others. */
  ghost predicate Answered(hs: Handlers, asked: seq<S.Stream>, actions: seq<Action>) {
    && |asked| == |Requests(actions)| && (forall id :: id in hs <==> id in asked)
    && (forall i, j :: 0 <= i < j < |asked| ==> asked[i] != asked[j])
    && forall i :: 0 <= i < |asked| ==>
      var r := Requests(actions)[i];
      hs[asked[i]].domain == r.domain && hs[asked[i]].pattern == PatternOf(r.name, r.kind)
  }

  lemma AnsweredMore(hs: Handlers, hs': Handlers, asked: seq<S.Stream>, actions: seq<Action>, a: Action,
                     added: seq<S.Stream>)
    requires Answered(hs, asked, actions) && Joins(hs, hs', a, added)
    ensures Answered(hs', asked + added, actions + [a])
  {
    hide PatternOf;
    assert (actions + [a])[..|actions|] == actions;
    forall id
      ensures id in hs' <==> id in asked + added
    {
    }
  }

  lemma NobodyAsked()
    ensures Answered(map[], [], [])
  {
  }

  lemma AtomicJoin(a: seq<P.Step>, b: seq<P.Step>)
    requires P.Atomic(a) && P.Atomic(b)
    ensures P.Atomic(a + b)
  {
  }

  /**
   * A new node, any actions in any order: whatever happens is a run of the protocol, and
   * every result about runs holds of the node's own directories and streams.
   */
  method Serve(base: Path, matches: (S.Pattern, string) -> bool, uuids: nat -> Buffer, actions: seq<Action>)
    returns (node: Node, hs: Handlers, asked: seq<S.Stream>, ghost steps: seq<P.Step>, ghost s: P.State)
    requires CleanPath(base) && forall n :: |uuids(n)| == 36
    requires forall i :: 0 <= i < |actions| ==> Acceptable(actions[i])
    ensures fresh(node) && node.basePath == base && node.matches == matches
    ensures Explains(node, hs, actions, steps, s) && Answered(hs, asked, actions)
  {
    hide Running, AllRecorded, AtRest, Represents, Acceptable, Recorded, P.Atomic, Answered, Joins;
    node := Create(base, matches, uuids);
    hs, asked, steps, s := map[], [], [], P.Start();
    NobodyAsked();
    ExplainedStart(node);
    var i := 0;
    assert actions[..0] == [];
    while i < |actions|
      invariant 0 <= i <= |actions| && Explains(node, hs, actions[..i], steps, s) && Answered(hs, asked, actions[..i])
      invariant fresh(node) && fresh(node.subscribers.Repr) && node.basePath == base && node.matches == matches
    {
      assert actions[..i + 1] == actions[..i] + [actions[i]];
      assert Uninterrupted(actions[..i + 1]) ==> Uninterrupted(actions[..i]) && !actions[i].Connect? by {
        assert actions[..i + 1][i] == actions[i];
        assert forall j :: 0 <= j < i ==> actions[..i + 1][j] == actions[..i][j];
      }
      ghost var more;
      ghost var before, handlers := steps, hs;
      var added;
      hs, added, more, s := Act(node, hs, actions[i], steps, s);
      AnsweredMore(handlers, hs, asked, actions[..i], actions[i], added);
      asked := asked + added;
      RecordedMore(before, more, actions[..i], actions[i]);
      steps := before + more;
      if Uninterrupted(actions[..i + 1]) {
        AtomicJoin(before, more);
      }
      i := i + 1;
    }
    assert actions[..i] == actions;
  }

  // ----- What the node stores and its subscribers see ------------------------------------------

  /**
   * After any actions a partition key has a directory exactly when something was
   * received for it, and what is stored there is the OR of the longest suffix of what
   * was received that has one length.
   */
  lemma StoredAfterServing(node: Node, hs: Handlers, actions: seq<Action>, steps: seq<P.Step>, s: P.State,
                           k: P.Key, j: nat)
    requires Explains(node, hs, actions, steps, s) && PlainKey(k) && k.kind == PARTITION
    requires var us := ReceivedFor(actions, k); us != [] ==> IsLongestSuffix(us, j)
    ensures var us := ReceivedFor(actions, k); var p := KeyPath(node.basePath, k);
      && (p in node.dirs <==> us != []) && (k in s.files <==> us != [])
      && (us != [] ==> Settled(node.dirs[p]) && IsOr(StoredBits(node.dirs[p]), us[j..], |us[|us| - 1]|))
  {
    hide KeyPath, FilesMatch, SessionsMatch, HandlersMatch, Settled, StoredBits, ReceivedFor, PlainKey, P.Exec,
      P.UploadsIn, P.Inv, AtRest, P.Atomic, Run, IsOr, IsLongestSuffix;
    var us := ReceivedFor(actions, k);
    assert P.UploadsIn(steps, k) == us;
    P.StoredIsRun(EnvOf(node), steps, k);
    KnownByPath(node.basePath, node.dirs, s, k);
    if us != [] {
      P.ReachableFine(EnvOf(node), steps);
      InvStored(EnvOf(node), s);
      PartitionSettled(node.basePath, node.dirs, s, k);
      SettledCarries(node.basePath, node.dirs, s, k);
      SuffixLaw(us, j);
    }
  }

  /** The request is for the domain and name of k, whose directory the handler is done with. */
  ghost predicate DoneWith(node: Node, h: Handler, k: P.Key) {
    && PlainKey(k) && k.kind == PARTITION
    && P.Lists(node.basePath, h.domain, k) && node.matches(h.pattern, P.DirName(k))
    && match h.progress
       case Subscribed => false
       case Looking(todo) => KeyPath(node.basePath, k) !in todo
       case Chosen(todo, _, _) => KeyPath(node.basePath, k) !in todo
       case Reading(todo, _, _) => KeyPath(node.basePath, k) !in todo
       case _ => true
  }

  lemma DoneNotPending(node: Node, hs: Handlers, s: P.State, id: S.Stream, k: P.Key)
    requires Represents(node, s) && HandlersMatch(node.basePath, node.dirs, s, hs) && k in s.files
    requires id in hs && id in node.streams && !node.streams[id].closed && DoneWith(node, hs[id], k)
    ensures P.Watches(EnvOf(node), s, id, k) && !P.Pending(s.sessions[id], k)
  {
    hide KeyPath, FilesMatch, StillNamed, Carries, PlainKey, P.Lists, Represents, P.DirName;
    HandlerOf(node, hs, s, id);
  }

  /** The app shows, in the row of k, the stored bitmap of k, which is the OR of what was received last. */
  ghost predicate RowIsRight(node: Node, sent: seq<Buffer>, chunks: seq<Buffer>, k: P.Key, us: seq<Bitmap>, j: nat)
    reads node
    requires us != [] && j <= |us|
  {
    var received := F.ParseStream(F.Concat(chunks));
    && received.frames == sent && received.end == F.End && A.AllDecode(received.frames)
    && KeyPath(node.basePath, k) in node.dirs && Settled(node.dirs[KeyPath(node.basePath, k)])
    && var bits := StoredBits(node.dirs[KeyPath(node.basePath, k)]);
      && IsOr(bits, us[j..], |us[|us| - 1]|)
      && var shown := A.ShowAll(A.Blank(), A.Decoded(received.frames));
         shown.Shown? && 0 <= E.RowFor(k) < A.ROWS && shown.rows[E.RowFor(k)] == BytesOf(bits)
  }

  /**
   * From uploads to screen, for any schedule: a subscriber whose handler is done with a
   * directory and that did not miss the last upload to it sees the OR of the longest
   * equal-length suffix of all that was received for it.
   */
  lemma RowsAfterServing(node: Node, hs: Handlers, actions: seq<Action>, steps: seq<P.Step>, s: P.State,
                         id: S.Stream, k: P.Key, j: nat, chunks: seq<Buffer>)
    requires Explains(node, hs, actions, steps, s)
    requires id in hs && !node.streams[id].closed && DoneWith(node, hs[id], k)
    requires var us := ReceivedFor(actions, k); us != [] && IsLongestSuffix(us, j)
    requires !P.LastUploadMissed(EnvOf(node), steps, id, k)
    requires Displayable(node.streams[id].sent, k) && F.Concat(chunks) == F.Concat(node.streams[id].sent)
    ensures RowIsRight(node, node.streams[id].sent, chunks, k, ReceivedFor(actions, k), j)
  {
    hide KeyPath, FilesMatch, SessionsMatch, HandlersMatch, Settled, StoredBits, ReceivedFor, PlainKey, P.Exec,
      P.UploadsIn, AtRest, P.Atomic, IsOr, IsLongestSuffix, AllRecorded, P.LastUploadMissed, Displayable,
      P.Watches, P.Pending, A.ParseInt, F.ParseStream, F.Concat, A.ShowAll, A.Decoded, A.AllDecode, P.Lists, P.DirName;
    StoredAfterServing(node, hs, actions, steps, s, k, j);
    DoneNotPending(node, hs, s, id, k);
    RowsMatchNode(node, steps, s, id, k, chunks);
  }

  /**
   * With uninterrupted requests nothing is missed: whoever asked, has not left, and has a
   * pattern that matches the path of a directory as it does its name, sees what it holds.
   */
  lemma RowsWhenUninterrupted(node: Node, hs: Handlers, actions: seq<Action>, steps: seq<P.Step>, s: P.State,
                              id: S.Stream, k: P.Key, j: nat, chunks: seq<Buffer>)
    requires Explains(node, hs, actions, steps, s) && Uninterrupted(actions)
    requires id in hs && !node.streams[id].closed && DoneWith(node, hs[id], k)
    requires node.matches(hs[id].pattern, PathText(KeyPath(node.basePath, k)))
    requires var us := ReceivedFor(actions, k); us != [] && IsLongestSuffix(us, j)
    requires Displayable(node.streams[id].sent, k) && F.Concat(chunks) == F.Concat(node.streams[id].sent)
    ensures RowIsRight(node, node.streams[id].sent, chunks, k, ReceivedFor(actions, k), j)
  {
    hide KeyPath, FilesMatch, SessionsMatch, HandlersMatch, ReceivedFor, PlainKey, P.Exec, AtRest, P.Atomic,
      IsLongestSuffix, AllRecorded, P.LastUploadMissed, Displayable, P.Watches, P.Pending, F.Concat, RowIsRight,
      P.Lists, PathText, DoneWith;
    HandlerOf(node, hs, s, id);
    TextOfPath(node.basePath, k);
    P.AtomicReaches(EnvOf(node), steps, id, k);
    RowsAfterServing(node, hs, actions, steps, s, id, k, j, chunks);
  }
}
