/**
 * Subscribing to a domain while uploads go on: the download handler registers its
 * stream first, lists the domain second and copies one file per matching directory
 * last, and every upload of a partition is pushed to the registered streams.
 */
module SnapshotProtocol {
  import opened Wrappers
  import opened LittleEndian
  import opened DomainDataWire
  import opened Bitmaps
  import opened DirectoryKeys
  import opened PartitionStore

  // ----- States ------------------------------------------------------------------------

  datatype Key = Key(domain: Buffer, name: Buffer, kind: nat)

  /** A stored or sent message. No two have the same version. */
  datatype Item = Item(key: Key, version: nat, bits: Bitmap)

  /**
   * The last segment and the whole path of a key's directory, whether a requested domain
   * leads to the directory above it, and the regular-expression matcher.
   */
  datatype Env = Env(dirName: Key -> string, dirText: Key -> string, lists: (Buffer, Key) -> bool,
                     matches: (string, string) -> bool)

  /** chosen is the file that was listed first in a directory and is to be opened, open the one being copied. */
  datatype Phase =
    | Registered
    | Copying(todo: set<Key>, chosen: Option<Item>, open: Option<Item>)
    | Serving

  /** One download request. outdated records the keys whose last upload it was not told of. */
  datatype Session = Session(domain: Buffer, pattern: string, phase: Phase, closed: bool, sent: seq<Item>,
                             outdated: set<Key>)

  datatype State = State(files: map<Key, seq<Item>>, sessions: map<nat, Session>, next: nat)

  function DirName(k: Key): string {
    LastSegment(Text(k.name), k.kind)
  }

  function DirText(base: Path, k: Key): string {
    PathText(DirPath(base, Text(k.domain), Text(k.name), k.kind))
  }

  predicate Lists(base: Path, domain: Buffer, k: Key) {
    DomainRoot(base, Text(domain)) == DomainRoot(base, Text(k.domain))
  }

  /** The names and paths a data node uses. */
  function NodeEnv(base: Path, matches: (string, string) -> bool): Env {
    Env(DirName, k => DirText(base, k), (domain, k) => Lists(base, domain, k), matches)
  }

  /** The handler looks for k: its domain is listed and its directory name matches. */
  predicate Covered(env: Env, x: Session, k: Key) {
    env.lists(x.domain, k) && env.matches(x.pattern, env.dirName(k))
  }

  /** An upload to k is pushed to x: the whole path matches, in whatever domain it is. */
  predicate Addressed(env: Env, x: Session, k: Key) {
    !x.closed && env.matches(x.pattern, env.dirText(k))
  }

  /** A pattern that is not anchored passes from the name to the path, which ends in it. */
  lemma TextEndsInName(base: Path, k: Key)
    requires CleanPath(base) && '/' !in Text(k.domain) && '/' !in Text(k.name)
    ensures exists front: string :: DirText(base, k) == front + DirName(k)
  {
    hide TypeName;
    DirPathShape(base, Text(k.domain), Text(k.name), k.kind);
    PathTextLast(DomainSegments(base, Text(k.domain)), DirName(k));
  }

  lemma {:induction false} PathTextLast(p: Path, last: string)
    ensures exists front: string :: PathText(p + [last]) == front + last
  {
    if p == [] {
      assert PathText([] + [last]) == "" + last;
    } else {
      assert (p + [last])[1..] == p[1..] + [last];
      PathTextLast(p[1..], last);
      var front: string :| PathText(p[1..] + [last]) == front + last;
      assert PathText(p + [last]) == (p[0] + "/" + front) + last;
    }
  }

  // ----- Steps --------------------------------------------------------------------------

  datatype Step =
    | Upload(key: Key, bits: Bitmap)
    | Register(id: nat, domain: Buffer, pattern: string)
    | List(id: nat)
    | Snapshot(id: nat, item: Item)
    | Choose(id: nat, item: Item)
    | Open(id: nat, item: Item)
    | Skip(id: nat, key: Key)
    | Copy(id: nat)
    | Finish(id: nat)
    | Close(id: nat)

  predicate InPhase(s: State, id: nat, copying: bool) {
    && id in s.sessions && !s.sessions[id].closed
    && if copying then s.sessions[id].phase.Copying? else s.sessions[id].phase.Registered?
  }

  predicate InFiles(s: State, item: Item) {
    item.key in s.files && item in s.files[item.key]
  }

  /** item is a file of a directory still to be copied, and no other file is chosen or open. */
  predicate CanChoose(s: State, id: nat, item: Item) {
    && InPhase(s, id, true) && s.sessions[id].phase.chosen.None? && s.sessions[id].phase.open.None?
    && item.key in s.sessions[id].phase.todo && InFiles(s, item)
  }

  predicate HasChosen(s: State, id: nat, k: Key) {
    InPhase(s, id, true) && s.sessions[id].phase.chosen.Some? && s.sessions[id].phase.chosen.value.key == k
  }

  /** What is opened is a file of the chosen directory: the chosen one, or a later one of the same name. */
  predicate CanOpen(s: State, id: nat, item: Item) {
    HasChosen(s, id, item.key) && InFiles(s, item)
  }

  predicate Enabled(s: State, step: Step) {
    match step
    case Upload(_, _) => true
    case Register(id, _, _) => id !in s.sessions
    case List(id) => InPhase(s, id, false)
    case Snapshot(id, item) => CanChoose(s, id, item)
    case Choose(id, item) => CanChoose(s, id, item)
    case Open(id, item) => CanOpen(s, id, item)
    case Skip(id, k) => HasChosen(s, id, k) && !InFiles(s, s.sessions[id].phase.chosen.value)
    case Copy(id) => InPhase(s, id, true) && s.sessions[id].phase.open.Some?
    case Finish(id) => InPhase(s, id, true) && s.sessions[id].phase.todo == {}
    case Close(id) => id in s.sessions
  }

  predicate HasOpen(x: Session, k: Key) {
    x.phase.Copying? && x.phase.open.Some? && x.phase.open.value.key == k
  }

  /** An upload to k now is pushed to x and is the last thing x gets for k. */
  predicate Reaches(env: Env, x: Session, k: Key) {
    Addressed(env, x, k) && !HasOpen(x, k)
  }

  /** What the upload that stored item does to a session. */
  function Told(env: Env, x: Session, item: Item): Session {
    var y := if Addressed(env, x, item.key) then x.(sent := x.sent + [item]) else x;
    y.(outdated := if Reaches(env, x, item.key) then x.outdated - {item.key} else x.outdated + {item.key})
  }

  /** A partition directory is merged into one file; any other directory gains a file. */
  function FilesAfter(s: State, k: Key, bits: Bitmap): (r: seq<Item>)
    ensures k.kind == PARTITION ==> |r| == 1 && r[0].key == k
  {
    var files := if k in s.files then s.files[k] else [];
    if k.kind == PARTITION then
      [Item(k, s.next, if files == [] then bits else Merge(bits, files[0].bits))]
    else files + [Item(k, s.next, bits)]
  }

  function Uploaded(env: Env, s: State, k: Key, bits: Bitmap): State {
    var files := FilesAfter(s, k, bits);
    State(s.files[k := files],
          if k.kind == PARTITION then map id | id in s.sessions :: Told(env, s.sessions[id], files[0]) else s.sessions,
          s.next + 1)
  }

  function Listed(env: Env, s: State, x: Session): set<Key> {
    set k | k in s.files && Covered(env, x, k)
  }

  function Apply(env: Env, s: State, step: Step): State
    requires Enabled(s, step)
  {
    match step
    case Upload(k, bits) => Uploaded(env, s, k, bits)
    case Register(id, domain, pattern) => Set(s, id, Session(domain, pattern, Registered, false, [], {}))
    case List(id) =>
      var x := s.sessions[id];
      Set(s, id, x.(phase := Copying(Listed(env, s, x), None, None)))
    case Snapshot(id, item) => Set(s, id, WithCopy(WithOpen(s.sessions[id], item), item))
    case Choose(id, item) => Set(s, id, WithChoice(s.sessions[id], item))
    case Open(id, item) => Set(s, id, WithOpen(s.sessions[id], item))
    case Skip(id, k) => Set(s, id, WithSkip(s.sessions[id], k))
    case Copy(id) => Set(s, id, WithCopy(s.sessions[id], s.sessions[id].phase.open.value))
    case Finish(id) => Set(s, id, s.sessions[id].(phase := Serving))
    case Close(id) => Set(s, id, s.sessions[id].(closed := true))
  }

  function Set(s: State, id: nat, x: Session): State {
    s.(sessions := s.sessions[id := x])
  }

  /** The first file of a directory was listed. */
  function WithChoice(x: Session, item: Item): Session
    requires x.phase.Copying?
  {
    x.(phase := x.phase.(chosen := Some(item)))
  }

  /** A file was opened: what was uploaded before is in it. */
  function WithOpen(x: Session, item: Item): Session
    requires x.phase.Copying?
  {
    x.(phase := x.phase.(chosen := None, open := Some(item)), outdated := x.outdated - {item.key})
  }

  /** A file was copied to the stream; its directory is done. */
  function WithCopy(x: Session, item: Item): Session
    requires x.phase.Copying?
  {
    x.(phase := Copying(x.phase.todo - {item.key}, None, None), sent := x.sent + [item])
  }

  /** The chosen file is gone; its directory is passed over. */
  function WithSkip(x: Session, k: Key): Session
    requires x.phase.Copying?
  {
    x.(phase := Copying(x.phase.todo - {k}, None, None))
  }

  function Start(): State {
    State(map[], map[], 0)
  }

  /** The state after a run, or None when one of its steps was not possible. */
  function Exec(env: Env, steps: seq<Step>): Option<State> {
    if steps == [] then Some(Start())
    else
      var s :- Exec(env, steps[..|steps| - 1]);
      if Enabled(s, steps[|steps| - 1]) then Some(Apply(env, s, steps[|steps| - 1])) else None
  }

  // ----- What a subscriber has seen -------------------------------------------------------

  function LastFor(sent: seq<Item>, k: Key): Option<Item> {
    if sent == [] then None
    else if sent[|sent| - 1].key == k then Some(sent[|sent| - 1])
    else LastFor(sent[..|sent| - 1], k)
  }

  function CountFor(sent: seq<Item>, k: Key): nat {
    if sent == [] then 0
    else CountFor(sent[..|sent| - 1], k) + if sent[|sent| - 1].key == k then 1 else 0
  }

  predicate Pending(x: Session, k: Key) {
    x.phase.Registered? || (x.phase.Copying? && k in x.phase.todo)
  }

  // ----- The invariant ------------------------------------------------------------------

  ghost predicate WellStored(s: State) {
    forall k :: k in s.files ==>
      && (k.kind == PARTITION ==> |s.files[k]| == 1)
      && forall i :: 0 <= i < |s.files[k]| ==> s.files[k][i].key == k && s.files[k][i].version < s.next
  }

  ghost predicate SessionFine(env: Env, s: State, x: Session) {
    && (x.phase.Copying? && x.phase.open.Some? ==>
         x.phase.chosen.None? && x.phase.open.value.key in x.phase.todo && x.phase.open.value.version < s.next)
    && (x.phase.Copying? && x.phase.chosen.Some? ==>
         x.phase.chosen.value.key in x.phase.todo && x.phase.chosen.value.version < s.next)
    && (x.phase.Copying? ==> forall k :: k in x.phase.todo ==> k in s.files && Covered(env, x, k))
    && (forall i :: 0 <= i < |x.sent| ==> x.sent[i].version < s.next)
  }

  /** The chosen file of k is no longer the stored one, so an upload was made since. */
  predicate LostChoice(x: Session, k: Key, stored: Item) {
    x.phase.Copying? && x.phase.chosen.Some? && x.phase.chosen.value.key == k && x.phase.chosen.value != stored
  }

  /** What is kept for every partition directory a live session covers. */
  ghost predicate PartitionFine(s: State, x: Session, k: Key)
    requires k in s.files && |s.files[k]| == 1
  {
    if HasOpen(x, k) then x.phase.open.value == s.files[k][0] <==> k !in x.outdated
    else (Pending(x, k) && !LostChoice(x, k, s.files[k][0])) ||
         (LastFor(x.sent, k) == Some(s.files[k][0]) <==> k !in x.outdated)
  }

  /** What holds of every session. */
  ghost predicate Good(env: Env, s: State, x: Session) {
    && SessionFine(env, s, x)
    && (!x.closed ==> forall k :: k in s.files && k.kind == PARTITION && Covered(env, x, k) ==>
         |s.files[k]| == 1 && PartitionFine(s, x, k))
  }

  ghost predicate Inv(env: Env, s: State) {
    WellStored(s) && forall id :: id in s.sessions ==> Good(env, s, s.sessions[id])
  }

  lemma StartsFine(env: Env)
    ensures Inv(env, Start())
  {
  }

  lemma AppendedFor(sent: seq<Item>, item: Item, k: Key)
    ensures LastFor(sent + [item], k) == if item.key == k then Some(item) else LastFor(sent, k)
    ensures CountFor(sent + [item], k) == CountFor(sent, k) + if item.key == k then 1 else 0
  {
    assert (sent + [item])[..|sent|] == sent;
  }

  lemma SetKeeps(env: Env, s: State, id: nat, x: Session)
    requires Inv(env, s) && Good(env, s, x)
    ensures Inv(env, Set(s, id, x))
  {
    hide LastFor;
    var s' := Set(s, id, x);
    forall j | j in s'.sessions
      ensures Good(env, s', s'.sessions[j])
    {
      if j != id {
        assert Good(env, s, s.sessions[j]);
      }
    }
  }

  lemma CopyKeeps(env: Env, s: State, x: Session, item: Item)
    requires WellStored(s) && Good(env, s, x) && x.phase.Copying? && x.phase.open == Some(item)
    ensures Good(env, s, WithCopy(x, item))
  {
    hide LastFor;
    var y := WithCopy(x, item);
    forall k: Key
      ensures !y.closed && k in s.files && k.kind == PARTITION && Covered(env, y, k) ==> PartitionFine(s, y, k)
    {
      AppendedFor(x.sent, item, k);
    }
  }

  lemma UploadStored(s: State, k: Key, bits: Bitmap)
    requires WellStored(s)
    ensures WellStored(State(s.files[k := FilesAfter(s, k, bits)], s.sessions, s.next + 1))
  {
    var files := FilesAfter(s, k, bits);
    var before := if k in s.files then s.files[k] else [];
    if k.kind != PARTITION {
      assert forall i :: 0 <= i < |files| ==> files[i] == if i < |before| then before[i] else Item(k, s.next, bits);
    }
  }

  lemma PartitionUploadKeeps(env: Env, s: State, x: Session, k: Key, bits: Bitmap)
    requires WellStored(s) && Good(env, s, x) && k.kind == PARTITION
    ensures Good(env, Uploaded(env, s, k, bits), Told(env, x, FilesAfter(s, k, bits)[0]))
  {
    hide LastFor, CountFor, Merge;
    var item := FilesAfter(s, k, bits)[0];
    var s', y := Uploaded(env, s, k, bits), Told(env, x, item);
    UploadStored(s, k, bits);
    forall j: Key
      ensures !y.closed && j in s'.files && j.kind == PARTITION && Covered(env, y, j) ==>
        |s'.files[j]| == 1 && PartitionFine(s', y, j)
    {
      AppendedFor(x.sent, item, j);
      NotYetSent(s, x.sent, item, j);
      if j != k && j in s.files {
        assert s'.files[j] == s.files[j];
      }
    }
  }

  /** A new item is not the last one sent before. */
  lemma {:induction false} NotYetSent(s: State, sent: seq<Item>, item: Item, k: Key)
    requires item.version == s.next && forall i :: 0 <= i < |sent| ==> sent[i].version < s.next
    ensures LastFor(sent, k) != Some(item)
  {
    if sent != [] && sent[|sent| - 1].key != k {
      NotYetSent(s, sent[..|sent| - 1], item, k);
    }
  }

  lemma OtherUploadKeeps(env: Env, s: State, x: Session, k: Key, bits: Bitmap)
    requires WellStored(s) && Good(env, s, x) && k.kind != PARTITION
    ensures Good(env, Uploaded(env, s, k, bits), x)
  {
    hide LastFor;
  }

  lemma StepKeeps(env: Env, s: State, step: Step)
    requires Inv(env, s) && Enabled(s, step)
    ensures Inv(env, Apply(env, s, step))
  {
    hide Covered, LastFor, PartitionFine, Good, WellStored, FilesAfter, Told, Set;
    match step
    case Upload(k, bits) =>
      UploadStored(s, k, bits);
      var s' := Uploaded(env, s, k, bits);
      forall id | id in s'.sessions
        ensures Good(env, s', s'.sessions[id])
      {
        if k.kind == PARTITION {
          PartitionUploadKeeps(env, s, s.sessions[id], k, bits);
        } else {
          OtherUploadKeeps(env, s, s.sessions[id], k, bits);
        }
      }
      FilesOnly(env, s, k, bits);
    case Register(id, domain, pattern) =>
      NewSessionGood(env, s, domain, pattern);
      SetKeeps(env, s, id, Session(domain, pattern, Registered, false, [], {}));
    case List(id) =>
      ListKeeps(env, s, s.sessions[id]);
      SetKeeps(env, s, id, s.sessions[id].(phase := Copying(Listed(env, s, s.sessions[id]), None, None)));
    case Choose(id, item) =>
      ChooseKeeps(env, s, id, item);
      SetKeeps(env, s, id, WithChoice(s.sessions[id], item));
    case Skip(id, k) =>
      SkipKeeps(env, s, id, k);
      SetKeeps(env, s, id, WithSkip(s.sessions[id], k));
    case Snapshot(id, item) =>
      OpenKeeps(env, s, id, item);
      CopyKeeps(env, s, WithOpen(s.sessions[id], item), item);
      SetKeeps(env, s, id, WithCopy(WithOpen(s.sessions[id], item), item));
    case Open(id, item) =>
      OpenKeeps(env, s, id, item);
      SetKeeps(env, s, id, WithOpen(s.sessions[id], item));
    case Copy(id) =>
      CopyKeeps(env, s, s.sessions[id], s.sessions[id].phase.open.value);
      SetKeeps(env, s, id, WithCopy(s.sessions[id], s.sessions[id].phase.open.value));
    case Finish(id) =>
      FinishKeeps(env, s, s.sessions[id]);
      SetKeeps(env, s, id, s.sessions[id].(phase := Serving));
    case Close(id) =>
      CloseKeeps(env, s, s.sessions[id]);
      SetKeeps(env, s, id, s.sessions[id].(closed := true));
  }

  lemma FilesOnly(env: Env, s: State, k: Key, bits: Bitmap)
    requires WellStored(State(s.files[k := FilesAfter(s, k, bits)], s.sessions, s.next + 1))
    ensures WellStored(Uploaded(env, s, k, bits))
  {
    hide FilesAfter, Told;
  }

  lemma NewSessionGood(env: Env, s: State, domain: Buffer, pattern: string)
    requires WellStored(s)
    ensures Good(env, s, Session(domain, pattern, Registered, false, [], {}))
  {
    hide Covered;
  }

  lemma ListKeeps(env: Env, s: State, x: Session)
    requires WellStored(s) && Good(env, s, x) && x.phase.Registered?
    ensures Good(env, s, x.(phase := Copying(Listed(env, s, x), None, None)))
  {
    hide LastFor;
  }

  lemma ChooseKeeps(env: Env, s: State, id: nat, item: Item)
    requires Inv(env, s) && CanChoose(s, id, item)
    ensures Good(env, s, WithChoice(s.sessions[id], item))
  {
    hide LastFor;
    var i :| 0 <= i < |s.files[item.key]| && s.files[item.key][i] == item;
    assert Good(env, s, s.sessions[id]);
  }

  lemma SkipKeeps(env: Env, s: State, id: nat, k: Key)
    requires Inv(env, s) && Enabled(s, Skip(id, k))
    ensures Good(env, s, WithSkip(s.sessions[id], k))
  {
    hide LastFor;
    assert Good(env, s, s.sessions[id]);
  }

  lemma OpenKeeps(env: Env, s: State, id: nat, item: Item)
    requires Inv(env, s) && (CanChoose(s, id, item) || CanOpen(s, id, item))
    ensures Good(env, s, WithOpen(s.sessions[id], item))
  {
    hide LastFor;
    var i :| 0 <= i < |s.files[item.key]| && s.files[item.key][i] == item;
    assert Good(env, s, s.sessions[id]);
  }

  lemma FinishKeeps(env: Env, s: State, x: Session)
    requires Good(env, s, x) && x.phase.Copying? && x.phase.todo == {}
    ensures Good(env, s, x.(phase := Serving))
  {
    hide LastFor;
  }

  lemma CloseKeeps(env: Env, s: State, x: Session)
    requires Good(env, s, x)
    ensures Good(env, s, x.(closed := true))
  {
    hide LastFor;
  }

  lemma {:induction false} ReachableFine(env: Env, steps: seq<Step>)
    requires Exec(env, steps).Some?
    ensures Inv(env, Exec(env, steps).value)
  {
    hide Apply, Enabled, Inv;
    if steps == [] {
      StartsFine(env);
    } else {
      var init := steps[..|steps| - 1];
      ReachableFine(env, init);
      StepKeeps(env, Exec(env, init).value, steps[|steps| - 1]);
    }
  }

  // ----- Main results -------------------------------------------------------------------

  function Stored(s: State, k: Key): Item
    requires k in s.files && s.files[k] != []
  {
    s.files[k][0]
  }

  /** Session id is live in s and looks for the partition directory k, which exists. */
  ghost predicate Watches(env: Env, s: State, id: nat, k: Key) {
    && id in s.sessions && !s.sessions[id].closed
    && k in s.files && k.kind == PARTITION && Covered(env, s.sessions[id], k)
  }

  /**
   * The last upload to k went past session id: it was not pushed, or it came between the
   * opening of a file of k and its copy, and k was not opened again since.
   */
  ghost predicate LastUploadMissed(env: Env, steps: seq<Step>, id: nat, k: Key) {
    steps != [] &&
    var init, last := steps[..|steps| - 1], steps[|steps| - 1];
    match last
    case Upload(j, _) =>
      if j == k then
        && Exec(env, init).Some? && id in Exec(env, init).value.sessions
        && !Reaches(env, Exec(env, init).value.sessions[id], k)
      else LastUploadMissed(env, init, id, k)
    case Snapshot(i, item) => !(i == id && item.key == k) && LastUploadMissed(env, init, id, k)
    case Open(i, item) => !(i == id && item.key == k) && LastUploadMissed(env, init, id, k)
    case _ => LastUploadMissed(env, init, id, k)
  }

  lemma {:induction false} OutdatedByHistory(env: Env, steps: seq<Step>, id: nat, k: Key)
    requires k.kind == PARTITION && Exec(env, steps).Some?
    ensures var s := Exec(env, steps).value;
      id in s.sessions ==> (k in s.sessions[id].outdated <==> LastUploadMissed(env, steps, id, k))
    ensures id !in Exec(env, steps).value.sessions ==> !LastUploadMissed(env, steps, id, k)
  {
    hide Apply, Enabled, Reaches;
    if steps != [] {
      var init, last := steps[..|steps| - 1], steps[|steps| - 1];
      OutdatedByHistory(env, init, id, k);
      OutdatedStep(env, Exec(env, init).value, last, id, k);
    }
  }

  lemma OutdatedStep(env: Env, s: State, step: Step, id: nat, k: Key)
    requires k.kind == PARTITION && Enabled(s, step)
    ensures var s' := Apply(env, s, step);
      && (id in s.sessions ==> id in s'.sessions)
      && (id in s'.sessions && id !in s.sessions ==>
           step == Register(id, s'.sessions[id].domain, s'.sessions[id].pattern))
      && (id in s'.sessions ==> (k in s'.sessions[id].outdated <==>
           id in s.sessions &&
           match step
           case Upload(j, _) => if j == k then !Reaches(env, s.sessions[id], k) else k in s.sessions[id].outdated
           case Snapshot(i, item) => !(i == id && item.key == k) && k in s.sessions[id].outdated
           case Open(i, item) => !(i == id && item.key == k) && k in s.sessions[id].outdated
           case _ => k in s.sessions[id].outdated))
      && ((step.Snapshot? || step.Open?) && step.id == id ==> id in s.sessions)
  {
    hide Addressed, Covered, FilesAfter, Reaches;
  }

  /**
   * In every run, for every partition directory a live session looks for: it is still
   * to be copied, or the last frame the session got for it is the stored one, unless
   * the last upload was not pushed or slipped in between opening and copying the file.
   * In that case, and only then, the session is left with a frame that is out of date.
   */
  lemma MissedExactlyWhenOvertaken(env: Env, steps: seq<Step>, s: State, id: nat, k: Key)
    requires Exec(env, steps) == Some(s) && Watches(env, s, id, k)
    ensures var x := s.sessions[id];
      s.files[k] != [] &&
      (Pending(x, k) || (LastFor(x.sent, k) == Some(Stored(s, k)) <==> !LastUploadMissed(env, steps, id, k)))
  {
    hide Covered, LastFor, Exec, LastUploadMissed;
    ReachableFine(env, steps);
    OutdatedByHistory(env, steps, id, k);
    assert Good(env, s, s.sessions[id]) && PartitionFine(s, s.sessions[id], k);
  }

  /** Each directory is listed, opened and copied in one step. */
  predicate Atomic(steps: seq<Step>) {
    forall i :: 0 <= i < |steps| ==> !steps[i].Choose?
  }

  /** A session keeps its domain and pattern, and a closed one stays closed. */
  lemma SessionStays(env: Env, s: State, step: Step, id: nat)
    requires Enabled(s, step) && id in s.sessions
    ensures var s' := Apply(env, s, step);
      && id in s'.sessions && s'.sessions[id].domain == s.sessions[id].domain
      && s'.sessions[id].pattern == s.sessions[id].pattern && (s.sessions[id].closed ==> s'.sessions[id].closed)
  {
    hide Addressed, Covered, FilesAfter;
  }

  /** No file is chosen or open. */
  predicate NothingHeld(x: Session) {
    x.phase.Copying? ==> x.phase.chosen.None? && x.phase.open.None?
  }

  lemma NothingOpened(env: Env, s: State, step: Step, id: nat)
    requires Enabled(s, step) && !step.Choose? && id in Apply(env, s, step).sessions
    requires id in s.sessions ==> NothingHeld(s.sessions[id])
    ensures NothingHeld(Apply(env, s, step).sessions[id])
  {
    hide Addressed, Covered, FilesAfter;
  }

  /** With atomic copies, no upload goes past a live session whose pattern matches the path. */
  lemma {:induction false} AtomicReaches(env: Env, steps: seq<Step>, id: nat, k: Key)
    requires Atomic(steps) && Exec(env, steps).Some? && id in Exec(env, steps).value.sessions
    ensures var x := Exec(env, steps).value.sessions[id];
      && NothingHeld(x)
      && (!x.closed && env.matches(x.pattern, env.dirText(k)) ==> !LastUploadMissed(env, steps, id, k))
  {
    hide Apply, Enabled;
    if steps != [] {
      var init, last := steps[..|steps| - 1], steps[|steps| - 1];
      var s := Exec(env, init).value;
      if id in s.sessions {
        AtomicReaches(env, init, id, k);
        SessionStays(env, s, last, id);
      } else {
        UnknownMissesNothing(env, init, id, k);
        NewSessionSteps(env, s, last, id);
      }
      NothingOpened(env, s, last, id);
    }
  }

  lemma NewSessionSteps(env: Env, s: State, step: Step, id: nat)
    requires Enabled(s, step) && id !in s.sessions && id in Apply(env, s, step).sessions
    ensures step.Register?
  {
    hide Addressed, Covered, FilesAfter;
  }

  lemma {:induction false} UnknownMissesNothing(env: Env, steps: seq<Step>, id: nat, k: Key)
    requires Exec(env, steps).Some? && id !in Exec(env, steps).value.sessions
    ensures !LastUploadMissed(env, steps, id, k)
  {
    hide Apply, Enabled;
    if steps != [] {
      var init, last := steps[..|steps| - 1], steps[|steps| - 1];
      if id in Exec(env, init).value.sessions {
        SessionStays(env, Exec(env, init).value, last, id);
      }
      UnknownMissesNothing(env, init, id, k);
    }
  }

  /**
   * No missed update. When listing, copying a directory and uploading are atomic and the
   * session's pattern matches the path of k as it does its name, k is still to be copied
   * or the session's last frame for it is the stored one. This includes directories
   * created after the listing. Nothing is asked of other patterns or other keys.
   */
  lemma NoMissedUpdate(env: Env, steps: seq<Step>, s: State, id: nat, k: Key)
    requires Atomic(steps) && Exec(env, steps) == Some(s) && Watches(env, s, id, k)
    requires env.matches(s.sessions[id].pattern, env.dirText(k))
    ensures var x := s.sessions[id];
      s.files[k] != [] && (Pending(x, k) || LastFor(x.sent, k) == Some(Stored(s, k)))
  {
    hide Covered, LastFor, Exec, LastUploadMissed;
    MissedExactlyWhenOvertaken(env, steps, s, id, k);
    AtomicReaches(env, steps, id, k);
  }

  function UploadsIn(steps: seq<Step>, k: Key): seq<Bitmap> {
    if steps == [] then []
    else
      var last := steps[|steps| - 1];
      UploadsIn(steps[..|steps| - 1], k) + if last.Upload? && last.key == k then [last.bits] else []
  }

  lemma FilesStep(env: Env, s: State, step: Step, k: Key)
    requires Enabled(s, step)
    ensures var s' := Apply(env, s, step);
      if step.Upload? && step.key == k then k in s'.files && s'.files[k] == FilesAfter(s, k, step.bits)
      else (k in s'.files <==> k in s.files) && (k in s.files ==> s'.files[k] == s.files[k])
  {
    hide Addressed, Covered, FilesAfter, Told;
  }

  /** The stored bitmap is the run of the uploads to its directory. */
  lemma {:induction false} StoredIsRun(env: Env, steps: seq<Step>, k: Key)
    requires k.kind == PARTITION && Exec(env, steps).Some?
    ensures var s := Exec(env, steps).value; var us := UploadsIn(steps, k);
      && (k in s.files <==> us != [])
      && (us != [] ==> |s.files[k]| == 1 && [s.files[k][0].bits] == Run(us))
  {
    hide Apply, Enabled, Merge;
    if steps != [] {
      var init, last := steps[..|steps| - 1], steps[|steps| - 1];
      StoredIsRun(env, init, k);
      FilesStep(env, Exec(env, init).value, last, k);
      var us := UploadsIn(init, k);
      if last.Upload? && last.key == k {
        assert (us + [last.bits])[..|us|] == us;
      } else {
        assert us + [] == us;
      }
    }
  }

  /**
   * What a subscriber is left with: once a directory has been copied, the last frame for
   * it decodes to the OR of the longest suffix of uploads of one length.
   */
  lemma SubscriberSeesSuffixOr(env: Env, steps: seq<Step>, s: State, id: nat, k: Key, j: nat)
    requires Atomic(steps) && Exec(env, steps) == Some(s) && Watches(env, s, id, k)
    requires env.matches(s.sessions[id].pattern, env.dirText(k)) && !Pending(s.sessions[id], k)
    requires var us := UploadsIn(steps, k); us != [] ==> IsLongestSuffix(us, j)
    ensures var us := UploadsIn(steps, k); var last := LastFor(s.sessions[id].sent, k);
      us != [] && last.Some? && IsOr(last.value.bits, us[j..], |us[|us| - 1]|)
  {
    hide Covered, LastFor, Exec, UploadsIn;
    NoMissedUpdate(env, steps, s, id, k);
    StoredIsRun(env, steps, k);
    SuffixLaw(UploadsIn(steps, k), j);
  }

  /** item was a stored file at some point of the run. */
  ghost predicate EverStored(env: Env, steps: seq<Step>, item: Item) {
    Exec(env, steps).Some? &&
    ((item.key in Exec(env, steps).value.files && item in Exec(env, steps).value.files[item.key])
     || (steps != [] && EverStored(env, steps[..|steps| - 1], item)))
  }

  predicate Holds(x: Session, item: Item) {
    item in x.sent || (x.phase.Copying? && (x.phase.chosen == Some(item) || x.phase.open == Some(item)))
  }

  /** The directory name or the whole path of the item matches what the session asked for. */
  predicate AskedFor(env: Env, x: Session, item: Item) {
    Covered(env, x, item.key) || env.matches(x.pattern, env.dirText(item.key))
  }

  lemma ToldHolds(env: Env, x: Session, told: Item, item: Item)
    requires Holds(Told(env, x, told), item)
    ensures var y := Told(env, x, told); y.domain == x.domain && y.pattern == x.pattern
    ensures Holds(x, item) || (item == told && env.matches(x.pattern, env.dirText(told.key)))
  {
  }

  lemma HoldsStep(env: Env, s: State, step: Step, id: nat, item: Item)
    requires Inv(env, s) && Enabled(s, step)
    requires id in Apply(env, s, step).sessions && Holds(Apply(env, s, step).sessions[id], item)
    ensures var s' := Apply(env, s, step);
      || (id in s.sessions && Holds(s.sessions[id], item)
          && s'.sessions[id].domain == s.sessions[id].domain && s'.sessions[id].pattern == s.sessions[id].pattern)
      || (InFiles(s', item) && AskedFor(env, s'.sessions[id], item))
  {
    hide WellStored, PartitionFine, FilesAfter, Told;
    var s' := Apply(env, s, step);
    if step.Upload? {
      if step.key.kind == PARTITION {
        ToldHolds(env, s.sessions[id], FilesAfter(s, step.key, step.bits)[0], item);
        assert InFiles(s', FilesAfter(s, step.key, step.bits)[0]);
      }
    } else if id in s.sessions {
      assert Good(env, s, s.sessions[id]);
      assert s'.files == s.files;
    }
  }

  /**
   * A session is sent nothing but files that were really stored, and only from
   * directories whose name matches in its own domain or whose path matches.
   */
  lemma {:induction false} NothingInvented(env: Env, steps: seq<Step>, id: nat, item: Item)
    requires Exec(env, steps).Some? && id in Exec(env, steps).value.sessions
    requires Holds(Exec(env, steps).value.sessions[id], item)
    ensures EverStored(env, steps, item) && AskedFor(env, Exec(env, steps).value.sessions[id], item)
  {
    hide Apply, Enabled, Holds, Inv;
    if steps != [] {
      var init := steps[..|steps| - 1];
      var s := Exec(env, init).value;
      ReachableFine(env, init);
      HoldsStep(env, s, steps[|steps| - 1], id, item);
      if id in s.sessions && Holds(s.sessions[id], item) {
        NothingInvented(env, init, id, item);
      }
    }
  }

  /** Uploads that are no partitions pile up, one file each. */
  lemma {:induction false} OtherFilesPile(env: Env, steps: seq<Step>, k: Key)
    requires k.kind != PARTITION && Exec(env, steps).Some?
    ensures var s := Exec(env, steps).value;
      |UploadsIn(steps, k)| == if k in s.files then |s.files[k]| else 0
  {
    hide Addressed, Covered, Told;
    if steps != [] {
      OtherFilesPile(env, steps[..|steps| - 1], k);
    }
  }

  // ----- How many frames a session gets --------------------------------------------------

  /** k was there and covered when session id listed its domain. */
  ghost predicate WasListed(env: Env, steps: seq<Step>, id: nat, k: Key) {
    steps != [] &&
    var init, last := steps[..|steps| - 1], steps[|steps| - 1];
    if last == List(id) then
      && Exec(env, init).Some? && id in Exec(env, init).value.sessions
      && k in Listed(env, Exec(env, init).value, Exec(env, init).value.sessions[id])
    else WasListed(env, init, id, k)
  }

  /** Session id passed over k because the file it had listed was gone. */
  ghost predicate WasSkipped(steps: seq<Step>, id: nat, k: Key) {
    steps != [] && (steps[|steps| - 1] == Skip(id, k) || WasSkipped(steps[..|steps| - 1], id, k))
  }

  /** Session id has listed k and copied it. */
  ghost predicate WasCopied(env: Env, steps: seq<Step>, s: State, id: nat, k: Key) {
    id in s.sessions && WasListed(env, steps, id, k) && !Pending(s.sessions[id], k) && !WasSkipped(steps, id, k)
  }

  /** The partition uploads to k made while session id was live, by the match of the path alone. */
  ghost function PushesTo(env: Env, steps: seq<Step>, id: nat, k: Key): nat {
    if steps == [] then 0
    else
      var init, last := steps[..|steps| - 1], steps[|steps| - 1];
      PushesTo(env, init, id, k) +
      if last.Upload? && last.key == k && k.kind == PARTITION && Exec(env, init).Some?
         && id in Exec(env, init).value.sessions && Addressed(env, Exec(env, init).value.sessions[id], k) then 1 else 0
  }

  /** How a step changes a session, as far as counting frames for k goes. */
  lemma CountStep(env: Env, s: State, step: Step, id: nat, k: Key)
    requires Inv(env, s) && Enabled(s, step) && id in s.sessions
    ensures var x, y := s.sessions[id], Apply(env, s, step).sessions[id];
      var copied := !Pending(y, k) && Pending(x, k) && !x.phase.Registered?;
      && (x.phase.Registered? <==> y.phase.Registered? || step == List(id))
      && (step == List(id) ==>
           !y.phase.Registered? && (Pending(y, k) <==> k in Listed(env, s, x)) && y.sent == x.sent)
      && (step != List(id) ==>
           CountFor(y.sent, k) == CountFor(x.sent, k) + (if copied && step != Skip(id, k) then 1 else 0) +
             if step.Upload? && step.key == k && k.kind == PARTITION && Addressed(env, x, k) then 1 else 0)
      && (!x.phase.Registered? && Pending(y, k) ==> Pending(x, k))
      && (step == Skip(id, k) ==> copied)
  {
    hide Covered, WellStored, PartitionFine, CountFor;
    var x := s.sessions[id];
    assert Good(env, s, x);
    match step
    case Upload(j, bits) =>
      if j.kind == PARTITION {
        AppendedFor(x.sent, FilesAfter(s, j, bits)[0], k);
      }
    case Snapshot(_, item) => AppendedFor(x.sent, item, k);
    case Copy(i) =>
      if i == id {
        AppendedFor(x.sent, x.phase.open.value, k);
      }
    case _ =>
  }

  /**
   * The exact number of frames a session has got for any key: one for every push, and
   * one more if the key was listed and copied, not passed over.
   */
  lemma {:induction false} FramesReceived(env: Env, steps: seq<Step>, s: State, id: nat, k: Key)
    requires Exec(env, steps) == Some(s)
    ensures id in s.sessions ==>
      CountFor(s.sessions[id].sent, k) == PushesTo(env, steps, id, k) + if WasCopied(env, steps, s, id, k) then 1 else 0
    ensures id in s.sessions && s.sessions[id].phase.Registered? ==> !WasListed(env, steps, id, k)
    ensures id in s.sessions && !s.sessions[id].phase.Registered? && Pending(s.sessions[id], k) ==>
      WasListed(env, steps, id, k) && !WasSkipped(steps, id, k)
    ensures id in s.sessions && s.sessions[id].phase.Registered? ==> !WasSkipped(steps, id, k)
    ensures id !in s.sessions ==>
      PushesTo(env, steps, id, k) == 0 && !WasListed(env, steps, id, k) && !WasSkipped(steps, id, k)
  {
    hide Apply, Enabled, Addressed, Listed, CountFor, Pending, Inv;
    if steps != [] {
      var init, last := steps[..|steps| - 1], steps[|steps| - 1];
      var before := Exec(env, init).value;
      FramesReceived(env, init, before, id, k);
      ReachableFine(env, init);
      if id in before.sessions {
        SessionStays(env, before, last, id);
        CountStep(env, before, last, id, k);
        PendingWhileRegistered(before.sessions[id], k);
        PendingWhileRegistered(s.sessions[id], k);
      } else {
        ListNeedsSession(before, last, id);
        if id in s.sessions {
          FreshSession(env, before, last, id, k);
        }
      }
    }
  }

  lemma PendingWhileRegistered(x: Session, k: Key)
    ensures x.phase.Registered? ==> Pending(x, k)
  {
  }

  lemma ListNeedsSession(s: State, step: Step, id: nat)
    requires Enabled(s, step) && id !in s.sessions
    ensures step != List(id) && !(step.Skip? && step.id == id)
  {
  }

  lemma FreshSession(env: Env, s: State, step: Step, id: nat, k: Key)
    requires Enabled(s, step) && id !in s.sessions && id in Apply(env, s, step).sessions
    ensures var x := Apply(env, s, step).sessions[id];
      x.phase.Registered? && CountFor(x.sent, k) == 0 && Pending(x, k)
  {
    hide Addressed, Covered, FilesAfter;
  }

  lemma {:induction false} NoPushes(env: Env, steps: seq<Step>, s: State, id: nat, k: Key)
    requires Exec(env, steps) == Some(s) && id in s.sessions
    requires k.kind != PARTITION || !env.matches(s.sessions[id].pattern, env.dirText(k))
    ensures PushesTo(env, steps, id, k) == 0
  {
    hide Apply, Enabled;
    if steps != [] {
      var init, last := steps[..|steps| - 1], steps[|steps| - 1];
      var before := Exec(env, init).value;
      if id in before.sessions {
        SessionStays(env, before, last, id);
        NoPushes(env, init, before, id, k);
      } else {
        FramesReceived(env, init, before, id, k);
      }
    }
  }

  /**
   * Messages that are not partitions are never pushed. Of all uploads to such a key a
   * session gets one, if the key was listed and its copy is done, and otherwise none:
   * their files stay, so a listed one is never found gone.
   */
  lemma OtherKindsMissed(env: Env, steps: seq<Step>, s: State, id: nat, k: Key)
    requires k.kind != PARTITION && Exec(env, steps) == Some(s) && id in s.sessions
    ensures CountFor(s.sessions[id].sent, k) ==
      if WasListed(env, steps, id, k) && !Pending(s.sessions[id], k) then 1 else 0
    ensures k in s.files ==> |s.files[k]| == |UploadsIn(steps, k)|
  {
    hide CountFor, Exec, WasListed, WasSkipped, PushesTo, UploadsIn;
    OtherNeverSkipped(env, steps, s, id, k);
    FramesReceived(env, steps, s, id, k);
    NoPushes(env, steps, s, id, k);
    OtherFilesPile(env, steps, k);
  }

  /** A file of a key that is no partition stays. */
  lemma {:induction false} OtherNeverSkipped(env: Env, steps: seq<Step>, s: State, id: nat, k: Key)
    requires k.kind != PARTITION && Exec(env, steps) == Some(s)
    ensures !WasSkipped(steps, id, k)
    ensures id in s.sessions ==> var x := s.sessions[id];
      x.phase.Copying? && x.phase.chosen.Some? && x.phase.chosen.value.key == k ==> InFiles(s, x.phase.chosen.value)
  {
    hide Apply, Enabled;
    if steps != [] {
      var init, last := steps[..|steps| - 1], steps[|steps| - 1];
      OtherNeverSkipped(env, init, Exec(env, init).value, id, k);
      ChoiceStays(env, Exec(env, init).value, last, id, k);
    }
  }

  lemma ChoiceStays(env: Env, s: State, step: Step, id: nat, k: Key)
    requires Enabled(s, step) && k.kind != PARTITION
    requires id in s.sessions ==> var x := s.sessions[id];
      x.phase.Copying? && x.phase.chosen.Some? && x.phase.chosen.value.key == k ==> InFiles(s, x.phase.chosen.value)
    ensures step != Skip(id, k)
    ensures var s' := Apply(env, s, step); id in s'.sessions ==> var x := s'.sessions[id];
      x.phase.Copying? && x.phase.chosen.Some? && x.phase.chosen.value.key == k ==> InFiles(s', x.phase.chosen.value)
  {
    hide Addressed, Covered;
  }

  /**
   * A directory is passed over only when an upload replaced the listed file before it
   * was opened. Nothing is lost by that for a session whose pattern matches the path: it
   * has been pushed what is stored now. Any other session has got nothing at all for it.
   */
  lemma SkippedHoldsPushes(env: Env, steps: seq<Step>, s: State, id: nat, k: Key)
    requires Exec(env, steps) == Some(s) && Watches(env, s, id, k) && WasSkipped(steps, id, k)
    ensures var x := s.sessions[id];
      s.files[k] != [] &&
      if env.matches(x.pattern, env.dirText(k)) then LastFor(x.sent, k) == Some(Stored(s, k))
      else CountFor(x.sent, k) == 0
  {
    hide Covered, LastFor, CountFor, Exec, PushesTo, LastUploadMissed, WasListed, WasSkipped;
    FramesReceived(env, steps, s, id, k);
    MissedExactlyWhenOvertaken(env, steps, s, id, k);
    if env.matches(s.sessions[id].pattern, env.dirText(k)) {
      SkippedReached(env, steps, s, id, k);
    } else {
      NoPushes(env, steps, s, id, k);
    }
  }

  /** After a directory was passed over, and since the upload that caused it, every upload was pushed. */
  lemma {:induction false} SkippedReached(env: Env, steps: seq<Step>, s: State, id: nat, k: Key)
    requires Exec(env, steps) == Some(s) && id in s.sessions && !s.sessions[id].closed && k.kind == PARTITION
    requires env.matches(s.sessions[id].pattern, env.dirText(k))
    ensures var x := s.sessions[id];
      (x.phase.Copying? && k in x.phase.todo && !HasOpen(x, k)) || x.phase.Registered? || WasSkipped(steps, id, k) ==>
        !LastUploadMissed(env, steps, id, k)
  {
    hide Apply, Enabled;
    if steps != [] {
      var init, last := steps[..|steps| - 1], steps[|steps| - 1];
      var before := Exec(env, init).value;
      ReachableFine(env, init);
      FramesReceived(env, init, before, id, k);
      if id in before.sessions {
        SessionStays(env, before, last, id);
        SkippedReached(env, init, before, id, k);
        BackToTodo(env, before, last, id, k);
      } else {
        UnknownMissesNothing(env, init, id, k);
        NewSessionSteps(env, before, last, id);
      }
    }
  }

  /** What a step can do to the list of a session, as far as k goes. */
  lemma BackToTodo(env: Env, s: State, step: Step, id: nat, k: Key)
    requires Inv(env, s) && Enabled(s, step) && id in s.sessions
    ensures var x, y := s.sessions[id], Apply(env, s, step).sessions[id];
      && (y.phase.Registered? ==> x.phase.Registered?)
      && (y.phase.Copying? && k in y.phase.todo && !HasOpen(y, k) ==>
           x.phase.Registered? || (x.phase.Copying? && k in x.phase.todo && !HasOpen(x, k)))
      && (step == Skip(id, k) ==> x.phase.Copying? && k in x.phase.todo && !HasOpen(x, k))
      && (HasOpen(x, k) ==> x.phase.Copying? && k in x.phase.todo)
  {
    hide Addressed, Covered, FilesAfter, PartitionFine, WellStored;
    assert Good(env, s, s.sessions[id]);
  }

  /**
   * A pattern that matches the name of a directory but not its path, such as one with an
   * anchor, gets the one copy and no push: its frame is up to date exactly as long as
   * nothing is uploaded after the file was opened.
   */
  lemma AnchoredGetsCopyOnly(env: Env, steps: seq<Step>, s: State, id: nat, k: Key)
    requires Exec(env, steps) == Some(s) && Watches(env, s, id, k) && !Pending(s.sessions[id], k)
    requires !env.matches(s.sessions[id].pattern, env.dirText(k))
    ensures CountFor(s.sessions[id].sent, k) == if WasCopied(env, steps, s, id, k) then 1 else 0
    ensures s.files[k] != [] &&
      (LastFor(s.sessions[id].sent, k) == Some(Stored(s, k)) <==> !UploadedSinceOpened(env, steps, id, k))
  {
    hide Covered, CountFor, LastFor, Exec, WasListed, WasSkipped, PushesTo, LastUploadMissed, UploadedSinceOpened;
    FramesReceived(env, steps, s, id, k);
    NoPushes(env, steps, s, id, k);
    MissedExactlyWhenOvertaken(env, steps, s, id, k);
    NeverReached(env, steps, s, id, k);
  }

  /** An upload to k was made with session id there, and no file of k was opened for it since. */
  ghost predicate UploadedSinceOpened(env: Env, steps: seq<Step>, id: nat, k: Key) {
    steps != [] &&
    var init, last := steps[..|steps| - 1], steps[|steps| - 1];
    match last
    case Upload(j, _) =>
      if j == k then Exec(env, init).Some? && id in Exec(env, init).value.sessions
      else UploadedSinceOpened(env, init, id, k)
    case Snapshot(i, item) => !(i == id && item.key == k) && UploadedSinceOpened(env, init, id, k)
    case Open(i, item) => !(i == id && item.key == k) && UploadedSinceOpened(env, init, id, k)
    case _ => UploadedSinceOpened(env, init, id, k)
  }

  lemma {:induction false} NeverReached(env: Env, steps: seq<Step>, s: State, id: nat, k: Key)
    requires Exec(env, steps) == Some(s)
    requires id in s.sessions ==> !env.matches(s.sessions[id].pattern, env.dirText(k))
    ensures LastUploadMissed(env, steps, id, k) <==> UploadedSinceOpened(env, steps, id, k)
  {
    hide Apply, Enabled;
    if steps != [] {
      var init, last := steps[..|steps| - 1], steps[|steps| - 1];
      var before := Exec(env, init).value;
      if id in before.sessions {
        SessionStays(env, before, last, id);
      }
      NeverReached(env, init, before, id, k);
    }
  }

  /**
   * Pushing does not look at the domain a session asked for. Over a whole run, a session
   * gets from a domain it did not ask for exactly the uploads made to matching paths
   * while it was live.
   */
  lemma OtherDomainsArePushed(env: Env, steps: seq<Step>, s: State, id: nat, k: Key)
    requires Exec(env, steps) == Some(s) && id in s.sessions && !env.lists(s.sessions[id].domain, k)
    ensures CountFor(s.sessions[id].sent, k) == PushesTo(env, steps, id, k)
  {
    hide CountFor, Exec, WasListed, WasSkipped, PushesTo;
    FramesReceived(env, steps, s, id, k);
    ListedInDomain(env, steps, s, id, k);
  }

  lemma {:induction false} ListedInDomain(env: Env, steps: seq<Step>, s: State, id: nat, k: Key)
    requires Exec(env, steps) == Some(s) && id in s.sessions
    ensures WasListed(env, steps, id, k) ==> env.lists(s.sessions[id].domain, k)
  {
    hide Apply, Enabled;
    if steps != [] {
      var init, last := steps[..|steps| - 1], steps[|steps| - 1];
      var before := Exec(env, init).value;
      if id in before.sessions {
        SessionStays(env, before, last, id);
        ListedInDomain(env, init, before, id, k);
      } else {
        FramesReceived(env, init, before, id, k);
      }
    }
  }

  // ----- Runs that show the conditions are needed ---------------------------------------------

  lemma ExecMore(env: Env, steps: seq<Step>, s: State, step: Step)
    requires Exec(env, steps) == Some(s) && Enabled(s, step)
    ensures Exec(env, steps + [step]) == Some(Apply(env, s, step))
  {
    hide Apply, Enabled;
    assert (steps + [step])[..|steps|] == steps;
  }

  lemma ExecMoreOrNot(env: Env, steps: seq<Step>, s: State, step: Step)
    requires Exec(env, steps) == Some(s)
    ensures Exec(env, steps + [step]) == if Enabled(s, step) then Some(Apply(env, s, step)) else None
  {
    hide Apply, Enabled;
    assert (steps + [step])[..|steps|] == steps;
  }

  lemma {:induction false} StaysNone(env: Env, steps: seq<Step>, more: seq<Step>)
    requires Exec(env, steps).None?
    ensures Exec(env, steps + more).None?
    decreases |more|
  {
    hide Apply, Enabled;
    if more == [] {
      assert steps + more == steps;
    } else {
      assert (steps + more)[..|steps + more| - 1] == steps + more[..|more| - 1];
      StaysNone(env, steps, more[..|more| - 1]);
    }
  }

  /** The run leaves a live session, done with copying, with an out-of-date last frame for k. */
  ghost predicate LeavesStale(env: Env, steps: seq<Step>, id: nat, k: Key, pattern: string) {
    && Exec(env, steps).Some? && Watches(env, Exec(env, steps).value, id, k) && k.kind == PARTITION
    && var s := Exec(env, steps).value;
      && s.sessions[id].pattern == pattern && s.sessions[id].phase.Serving?
      && s.files[k] != [] && LastFor(s.sessions[id].sent, k) != Some(Stored(s, k))
  }

  /** One file stored, opened by session 0 and not yet copied. */
  function HalfCopied(k: Key, pattern: string, bits: Bitmap): State {
    var item := Item(k, 0, bits);
    State(map[k := [item]], map[0 := Session(k.domain, pattern, Copying({k}, None, Some(item)), false, [], {})], 1)
  }

  /** One file stored, and session 0 about to copy it. */
  function AboutToCopy(k: Key, pattern: string, bits: Bitmap): State {
    State(map[k := [Item(k, 0, bits)]],
          map[0 := Session(k.domain, pattern, Copying({k}, None, None), false, [], {})], 1)
  }

  lemma ListedReached(env: Env, k: Key, pattern: string, bits: Bitmap) returns (steps: seq<Step>)
    requires k.kind == PARTITION && env.lists(k.domain, k) && env.matches(pattern, env.dirName(k))
    ensures Exec(env, steps) == Some(AboutToCopy(k, pattern, bits)) && Atomic(steps)
  {
    hide Exec;
    var s1 := State(map[k := [Item(k, 0, bits)]], map[], 1);
    var s2 := Set(s1, 0, Session(k.domain, pattern, Registered, false, [], {}));
    StartReached(env);
    ExecMore(env, [], Start(), Step.Upload(k, bits));
    assert Apply(env, Start(), Step.Upload(k, bits)) == s1;
    ExecMore(env, [] + [Step.Upload(k, bits)], s1, Register(0, k.domain, pattern));
    steps := [] + [Step.Upload(k, bits)] + [Register(0, k.domain, pattern)];
    assert Listed(env, s2, s2.sessions[0]) == {k};
    ExecMore(env, steps, s2, List(0));
    steps := steps + [List(0)];
    assert Apply(env, s2, List(0)).sessions == AboutToCopy(k, pattern, bits).sessions;
  }

  /** One file stored and listed by session 0, which is about to open it. */
  function HalfChosen(k: Key, pattern: string, bits: Bitmap): State {
    var item := Item(k, 0, bits);
    State(map[k := [item]], map[0 := Session(k.domain, pattern, Copying({k}, Some(item), None), false, [], {})], 1)
  }

  lemma ChosenReached(env: Env, k: Key, pattern: string, bits: Bitmap) returns (steps: seq<Step>)
    requires k.kind == PARTITION && env.lists(k.domain, k) && env.matches(pattern, env.dirName(k))
    ensures Exec(env, steps) == Some(HalfChosen(k, pattern, bits))
  {
    hide Exec;
    var item, s3 := Item(k, 0, bits), AboutToCopy(k, pattern, bits);
    steps := ListedReached(env, k, pattern, bits);
    ExecMore(env, steps, s3, Choose(0, item));
    steps := steps + [Choose(0, item)];
    assert Apply(env, s3, Choose(0, item)).sessions == HalfChosen(k, pattern, bits).sessions;
  }

  lemma HalfCopiedReached(env: Env, k: Key, pattern: string, bits: Bitmap) returns (steps: seq<Step>)
    requires k.kind == PARTITION && env.lists(k.domain, k) && env.matches(pattern, env.dirName(k))
    ensures Exec(env, steps) == Some(HalfCopied(k, pattern, bits))
  {
    hide Exec;
    var item := Item(k, 0, bits);
    var s4 := HalfChosen(k, pattern, bits);
    steps := ChosenReached(env, k, pattern, bits);
    ExecMore(env, steps, s4, Open(0, item));
    steps := steps + [Open(0, item)];
    CopiedAll(k);
    assert Apply(env, s4, Open(0, item)).sessions == HalfCopied(k, pattern, bits).sessions;
  }

  lemma StartReached(env: Env)
    ensures Exec(env, []) == Some(Start())
  {
  }

  /** The open file of session 0 was overtaken by an upload that it was told of. */
  function Overtaken(k: Key, pattern: string, bits: Bitmap, more: Bitmap): State {
    var item, newer := Item(k, 0, bits), Item(k, 1, Merge(more, bits));
    State(map[k := [newer]],
          map[0 := Session(k.domain, pattern, Copying({k}, None, Some(item)), false, [newer], {k})], 2)
  }

  lemma OvertakenReached(env: Env, k: Key, pattern: string, bits: Bitmap, more: Bitmap) returns (steps: seq<Step>)
    requires k.kind == PARTITION && env.lists(k.domain, k)
    requires env.matches(pattern, env.dirName(k)) && env.matches(pattern, env.dirText(k))
    ensures Exec(env, steps) == Some(Overtaken(k, pattern, bits, more))
  {
    hide Exec, Merge;
    var s4, s5 := HalfCopied(k, pattern, bits), Overtaken(k, pattern, bits, more);
    steps := HalfCopiedReached(env, k, pattern, bits);
    ExecMore(env, steps, s4, Step.Upload(k, more));
    assert Told(env, s4.sessions[0], s5.files[k][0]) == s5.sessions[0];
    assert Apply(env, s4, Step.Upload(k, more)) == s5;
    steps := steps + [Step.Upload(k, more)];
  }

  /**
   * For every key and every pattern that matches it: a file opened, overtaken by an
   * upload that is pushed, and only then copied.
   */
  lemma StaleCopyHappens(env: Env, k: Key, pattern: string, bits: Bitmap, more: Bitmap)
    requires k.kind == PARTITION && env.lists(k.domain, k)
    requires env.matches(pattern, env.dirName(k)) && env.matches(pattern, env.dirText(k))
    ensures exists steps: seq<Step> :: LeavesStale(env, steps, 0, k, pattern)
  {
    hide Exec, Merge;
    var item, newer := Item(k, 0, bits), Item(k, 1, Merge(more, bits));
    var s5 := Overtaken(k, pattern, bits, more);
    var steps := OvertakenReached(env, k, pattern, bits, more);
    var s6 := Set(s5, 0, Session(k.domain, pattern, Copying({}, None, None), false, [newer, item], {k}));
    ExecMore(env, steps, s5, Copy(0));
    CopiedAll(k);
    assert [newer] + [item] == [newer, item];
    assert Apply(env, s5, Copy(0)).sessions == s6.sessions;
    ExecMore(env, steps + [Copy(0)], s6, Finish(0));
    assert LeavesStale(env, steps + [Copy(0)] + [Finish(0)], 0, k, pattern);
  }

  /** One file stored and copied by session 0, which now waits. */
  function CopiedOnce(k: Key, pattern: string, bits: Bitmap): State {
    var item := Item(k, 0, bits);
    State(map[k := [item]], map[0 := Session(k.domain, pattern, Serving, false, [item], {})], 1)
  }

  lemma CopiedReached(env: Env, k: Key, pattern: string, bits: Bitmap) returns (steps: seq<Step>)
    requires k.kind == PARTITION && env.lists(k.domain, k) && env.matches(pattern, env.dirName(k))
    ensures Exec(env, steps) == Some(CopiedOnce(k, pattern, bits)) && Atomic(steps)
  {
    hide Exec;
    var item, s3 := Item(k, 0, bits), AboutToCopy(k, pattern, bits);
    steps := ListedReached(env, k, pattern, bits);
    var s4 := Set(s3, 0, Session(k.domain, pattern, Copying({}, None, None), false, [item], {}));
    CopiedAll(k);
    ExecMore(env, steps, s3, Snapshot(0, item));
    assert [] + [item] == [item];
    assert Apply(env, s3, Snapshot(0, item)).sessions == s4.sessions;
    ExecMore(env, steps + [Snapshot(0, item)], s4, Finish(0));
    assert Apply(env, s4, Finish(0)).sessions == CopiedOnce(k, pattern, bits).sessions;
    steps := steps + [Snapshot(0, item)] + [Finish(0)];
  }

  /**
   * The match of the path is needed even with atomic copies: a pattern that matches the
   * name only is not told of an upload made after the copy.
   */
  lemma AnchoredMisses(env: Env, k: Key, pattern: string, bits: Bitmap, more: Bitmap)
    requires k.kind == PARTITION && env.lists(k.domain, k)
    requires env.matches(pattern, env.dirName(k)) && !env.matches(pattern, env.dirText(k))
    ensures exists steps: seq<Step> :: Atomic(steps) && LeavesStale(env, steps, 0, k, pattern)
  {
    hide Exec, Merge;
    var item, newer := Item(k, 0, bits), Item(k, 1, Merge(more, bits));
    var s5 := CopiedOnce(k, pattern, bits);
    var steps := CopiedReached(env, k, pattern, bits);
    var s6 := State(map[k := [newer]], map[0 := Session(k.domain, pattern, Serving, false, [item], {k})], 2);
    assert Told(env, s5.sessions[0], newer) == s6.sessions[0];
    assert Apply(env, s5, Step.Upload(k, more)) == s6;
    ExecMore(env, steps, s5, Step.Upload(k, more));
    assert LeavesStale(env, steps + [Step.Upload(k, more)], 0, k, pattern);
  }

  /** The run leaves a live session, done with copying, that passed k over. */
  ghost predicate PassesOver(env: Env, steps: seq<Step>, id: nat, k: Key, pattern: string) {
    && Exec(env, steps).Some? && Watches(env, Exec(env, steps).value, id, k) && WasSkipped(steps, id, k)
    && Exec(env, steps).value.sessions[id].phase.Serving? && Exec(env, steps).value.sessions[id].pattern == pattern
  }

  /** The file chosen by session 0 was replaced by an upload. */
  function Replaced(env: Env, k: Key, pattern: string, bits: Bitmap, more: Bitmap): State {
    var newer := Item(k, 1, Merge(more, bits));
    State(map[k := [newer]], map[0 := Told(env, HalfChosen(k, pattern, bits).sessions[0], newer)], 2)
  }

  lemma ReplacedReached(env: Env, k: Key, pattern: string, bits: Bitmap, more: Bitmap) returns (steps: seq<Step>)
    requires k.kind == PARTITION && env.lists(k.domain, k) && env.matches(pattern, env.dirName(k))
    ensures Exec(env, steps) == Some(Replaced(env, k, pattern, bits, more))
  {
    hide Exec, Merge, Told;
    var s4 := HalfChosen(k, pattern, bits);
    steps := ChosenReached(env, k, pattern, bits);
    assert Apply(env, s4, Step.Upload(k, more)) == Replaced(env, k, pattern, bits, more);
    ExecMore(env, steps, s4, Step.Upload(k, more));
    steps := steps + [Step.Upload(k, more)];
  }

  /** For every key and every pattern that matches its name: a file listed, replaced, and not found. */
  lemma SkipHappens(env: Env, k: Key, pattern: string, bits: Bitmap, more: Bitmap)
    requires k.kind == PARTITION && env.lists(k.domain, k) && env.matches(pattern, env.dirName(k))
    ensures exists steps: seq<Step> :: PassesOver(env, steps, 0, k, pattern)
  {
    hide Exec, Merge, Addressed, Reaches;
    var s5 := Replaced(env, k, pattern, bits, more);
    var steps := ReplacedReached(env, k, pattern, bits, more);
    ExecMore(env, steps, s5, Skip(0, k));
    var s6 := Apply(env, s5, Skip(0, k));
    CopiedAll(k);
    var skipped := steps + [Skip(0, k)];
    ExecMore(env, skipped, s6, Finish(0));
    assert (skipped + [Finish(0)])[..|skipped|] == skipped && skipped[|skipped| - 1] == Skip(0, k);
    assert WasSkipped(skipped, 0, k);
    assert PassesOver(env, skipped + [Finish(0)], 0, k, pattern);
  }

  lemma CopiedAll(k: Key)
    ensures var none: set<Key> := {}; {k} - {k} == none && none - {k} == none
  {
  }
}
