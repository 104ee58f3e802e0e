/** From uploads on the data node to rows in the app: what a subscriber's screen shows. */
module EndToEnd {
  import opened Wrappers
  import opened LittleEndian
  import opened DomainDataWire
  import opened Bitmaps
  import opened PartitionStore
  import opened SnapshotProtocol
  import opened Framing
  import opened AppView

  // ----- The bytes a session is sent -------------------------------------------------------

  /** The merged frame of an item, with the version string the node drew for it. */
  function WireOf(uuids: nat -> Buffer, x: Item): Buffer {
    DomainDataWire.Frame(x.key.domain, x.key.name, Some(uuids(x.version)), BytesOf(x.bits))
  }

  function WiresOf(uuids: nat -> Buffer, xs: seq<Item>): (fs: seq<Buffer>)
    ensures |fs| == |xs| && forall i :: 0 <= i < |xs| ==> fs[i] == WireOf(uuids, xs[i])
  {
    seq(|xs|, i requires 0 <= i < |xs| => WireOf(uuids, xs[i]))
  }

  /** A partition small enough to be encoded. */
  predicate Sendable(uuids: nat -> Buffer, x: Item) {
    x.key.kind == PARTITION && Encodable(x.key.domain, x.key.name, Some(uuids(x.version)), BytesOf(x.bits))
  }

  predicate AllSendable(uuids: nat -> Buffer, xs: seq<Item>) {
    forall i :: 0 <= i < |xs| ==> Sendable(uuids, xs[i])
  }

  /** ms are the messages of xs, one by one. */
  ghost predicate Shows(ms: seq<DomainData>, xs: seq<Item>) {
    |ms| == |xs| && forall i :: 0 <= i < |xs| ==> ms[i].name == xs[i].key.name && ms[i].bits == Some(xs[i].bits)
  }

  lemma WireDecodes(uuids: nat -> Buffer, x: Item)
    requires Sendable(uuids, x)
    ensures var f := WireOf(uuids, x);
      && IsFrame(f) && ParseBody(f[4..]).Some?
      && ParseBody(f[4..]).value.name == x.key.name && ParseBody(f[4..]).value.bits == Some(x.bits)
  {
    hide DomainDataWire.Frame, Parse;
    FrameRoundTrip(x.key.domain, x.key.name, Some(uuids(x.version)), BytesOf(x.bits));
    assert BitsOf(BytesOf(x.bits)) == x.bits;
  }

  /** However the stream is cut up on its way, the app decodes the items it was sent. */
  lemma StreamDecodes(uuids: nat -> Buffer, xs: seq<Item>, chunks: seq<Buffer>)
    requires AllSendable(uuids, xs) && Concat(chunks) == Concat(WiresOf(uuids, xs))
    ensures var s := ParseStream(Concat(chunks));
      s.end == End && AllDecode(s.frames) && Shows(Decoded(s.frames), xs)
  {
    hide WireOf, ParseBody, Sendable;
    var fs := WiresOf(uuids, xs);
    forall i | 0 <= i < |xs|
      ensures IsFrame(fs[i]) && ParseBody(fs[i][4..]).Some?
      ensures ParseBody(fs[i][4..]).value.name == xs[i].key.name && ParseBody(fs[i][4..]).value.bits == Some(xs[i].bits)
    {
      WireDecodes(uuids, xs[i]);
    }
    assert Concat(fs) + [] == Concat(fs);
    ParseConcat(fs, []);
  }

  // ----- Rows as a function of the items -------------------------------------------------------

  function RowFor(k: Key): int {
    ParseInt(Text(k.name))
  }

  predicate OnScreen(xs: seq<Item>) {
    forall i :: 0 <= i < |xs| ==> 0 <= RowFor(xs[i].key) < ROWS
  }

  /** The last item for row r. */
  function LastInRow(xs: seq<Item>, r: int): Option<Item> {
    if xs == [] then None
    else if RowFor(xs[|xs| - 1].key) == r then Some(xs[|xs| - 1])
    else LastInRow(xs[..|xs| - 1], r)
  }

  lemma {:induction false} ShowAllButLast(rows: seq<Row>, ms: seq<DomainData>)
    requires |rows| == ROWS && ms != []
    ensures var init := ShowAll(rows, ms[..|ms| - 1]);
      ShowAll(rows, ms) == if init.Shown? then ShowOne(init.rows, ms[|ms| - 1]) else init
    decreases |ms|
  {
    hide ShowOne;
    if |ms| == 1 {
      assert ms[1..] == [] && ms[..0] == [];
    } else {
      var next := ShowOne(rows, ms[0]);
      var rest := ms[1..];
      assert ms[..|ms| - 1][0] == ms[0] && ms[..|ms| - 1][1..] == rest[..|rest| - 1];
      if next.Shown? {
        ShowRows(rows, ms[0]);
        ShowAllButLast(next.rows, rest);
      }
    }
  }

  lemma ShowRows(rows: seq<Row>, m: DomainData)
    requires |rows| == ROWS
    ensures |ShowOne(rows, m).rows| == ROWS
  {
    hide ParseInt;
  }

  /** Every row shows the bits of the last item sent for it. */
  lemma {:induction false} RowsShowLast(ms: seq<DomainData>, xs: seq<Item>)
    requires Shows(ms, xs) && OnScreen(xs)
    ensures var shown := ShowAll(Blank(), ms);
      shown.Shown? && forall r :: 0 <= r < ROWS ==>
        shown.rows[r] == match LastInRow(xs, r) { case None => [] case Some(x) => BytesOf(x.bits) }
    decreases |xs|
  {
    hide ParseInt, BytesOf;
    if xs != [] {
      RowsShowLast(ms[..|ms| - 1], xs[..|xs| - 1]);
      ShowAllButLast(Blank(), ms);
    }
  }

  // ----- One key per row -----------------------------------------------------------------------

  /** No other key among xs is shown in the row of k. */
  predicate OwnRow(xs: seq<Item>, k: Key) {
    forall i :: 0 <= i < |xs| && RowFor(xs[i].key) == RowFor(k) ==> xs[i].key == k
  }

  lemma {:induction false} OwnRowLast(xs: seq<Item>, k: Key)
    requires OwnRow(xs, k)
    ensures LastInRow(xs, RowFor(k)) == LastFor(xs, k)
  {
    hide ParseInt;
    if xs != [] {
      OwnRowLast(xs[..|xs| - 1], k);
    }
  }

  /** The run leads to s, in which session id exists. */
  ghost predicate Subscribed(env: Env, steps: seq<Step>, s: State, id: nat) {
    Exec(env, steps) == Some(s) && id in s.sessions
  }

  /** What the rows show of the messages a session was sent, once k has been copied. */
  lemma RowsMatchItems(env: Env, steps: seq<Step>, s: State, id: nat, k: Key, ms: seq<DomainData>)
    requires Subscribed(env, steps, s, id) && Atomic(steps) && Watches(env, s, id, k) && !Pending(s.sessions[id], k)
    requires env.matches(s.sessions[id].pattern, env.dirText(k))
    requires Shows(ms, s.sessions[id].sent) && OnScreen(s.sessions[id].sent) && OwnRow(s.sessions[id].sent, k)
    ensures var shown := ShowAll(Blank(), ms);
      && s.files[k] != [] && shown.Shown? && 0 <= RowFor(k) < ROWS
      && shown.rows[RowFor(k)] == BytesOf(s.files[k][0].bits)
  {
    hide Exec, ParseInt, BytesOf;
    var sent := s.sessions[id].sent;
    NoMissedUpdate(env, steps, s, id, k);
    RowsShowLast(ms, sent);
    OwnRowLast(sent, k);
    LastIsSent(sent, k);
  }

  /**
   * End to end. After any run, decoding all bytes a subscriber was sent, in whatever
   * chunks they arrive, leaves the row of every directory it watches equal to the
   * bitmap the data node stores, once that directory has been copied. The app needs one
   * row per key; a run needs atomic copies.
   */
  lemma RowsMatchStore(env: Env, steps: seq<Step>, s: State, id: nat, k: Key, uuids: nat -> Buffer, chunks: seq<Buffer>)
    requires Subscribed(env, steps, s, id) && Atomic(steps) && Watches(env, s, id, k) && !Pending(s.sessions[id], k)
    requires env.matches(s.sessions[id].pattern, env.dirText(k))
    requires var sent := s.sessions[id].sent;
      && AllSendable(uuids, sent) && OnScreen(sent) && OwnRow(sent, k)
      && Concat(chunks) == Concat(WiresOf(uuids, sent))
    ensures var received := ParseStream(Concat(chunks));
      && AllDecode(received.frames) && received.end == End && s.files[k] != []
      && var shown := ShowAll(Blank(), Decoded(received.frames));
         shown.Shown? && 0 <= RowFor(k) < ROWS && shown.rows[RowFor(k)] == BytesOf(s.files[k][0].bits)
  {
    hide Exec, Watches, Pending, ParseInt, WireOf, ParseStream, Sendable, BytesOf, Shows, OnScreen, OwnRow;
    StreamDecodes(uuids, s.sessions[id].sent, chunks);
    RowsMatchItems(env, steps, s, id, k, Decoded(ParseStream(Concat(chunks)).frames));
  }

  lemma {:induction false} LastIsSent(xs: seq<Item>, k: Key)
    requires LastFor(xs, k).Some?
    ensures LastFor(xs, k).value in xs && LastFor(xs, k).value.key == k
  {
    if xs[|xs| - 1].key != k {
      LastIsSent(xs[..|xs| - 1], k);
    }
  }

  // ----- No bit ever clears -----------------------------------------------------------------------

  predicate Within(a: Bitmap, b: Bitmap) {
    |a| == |b| && forall i :: 0 <= i < |a| && a[i] ==> b[i]
  }

  /** What is sent for k only grows, up to what is stored. */
  ghost predicate Growing(s: State, k: Key, xs: seq<Item>, n: nat) {
    && (forall i :: 0 <= i < |xs| && xs[i].key == k ==>
         k in s.files && s.files[k] != [] && Within(xs[i].bits, s.files[k][0].bits))
    && (forall i, j :: 0 <= i <= j < |xs| && xs[i].key == k && xs[j].key == k ==> Within(xs[i].bits, xs[j].bits))
    && (k in s.files ==> |s.files[k]| == 1 && |s.files[k][0].bits| == n)
  }

  lemma GrowingMore(s: State, s': State, k: Key, xs: seq<Item>, more: seq<Item>, n: nat)
    requires Growing(s, k, xs, n) && |more| <= 1
    requires |more| == 1 && more[0].key == k ==> k in s'.files && s'.files[k] != [] && more[0] == s'.files[k][0]
    requires k in s.files ==> k in s'.files && s'.files[k] != [] && Within(s.files[k][0].bits, s'.files[k][0].bits)
    requires k in s'.files ==> |s'.files[k]| == 1 && |s'.files[k][0].bits| == n
    ensures Growing(s', k, xs + more, n)
  {
    var ys := xs + more;
    assert forall i :: 0 <= i < |ys| ==> ys[i] == if i < |xs| then xs[i] else more[0];
  }

  /** What a step adds to what a session was sent: nothing, or one item, which for k is the stored one. */
  ghost predicate Adds(s': State, k: Key, xs: seq<Item>, xs': seq<Item>, more: seq<Item>) {
    xs' == xs + more && |more| <= 1 &&
    (|more| == 1 && more[0].key == k ==> k in s'.files && s'.files[k] != [] && more[0] == s'.files[k][0])
  }

  lemma SentStep(env: Env, s: State, step: Step, id: nat, k: Key) returns (more: seq<Item>)
    requires Inv(env, s) && Enabled(s, step) && k.kind == PARTITION
    requires id in s.sessions && !HasOpen(s.sessions[id], k)
    ensures id in Apply(env, s, step).sessions
    ensures Adds(Apply(env, s, step), k, s.sessions[id].sent, Apply(env, s, step).sessions[id].sent, more)
  {
    hide Addressed, Covered, FilesAfter, Good;
    var xs := s.sessions[id].sent;
    more := [];
    assert xs + [] == xs;
    match step
    case Upload(j, bits) =>
      if j.kind == PARTITION && Addressed(env, s.sessions[id], j) {
        more := [FilesAfter(s, j, bits)[0]];
      }
    case Snapshot(i, item) =>
      if i == id {
        more := [item];
      }
    case Copy(i) =>
      if i == id {
        more := [s.sessions[id].phase.open.value];
      }
    case _ =>
  }

  /** Every upload to k is a bitmap of length n. */
  predicate SameSize(steps: seq<Step>, k: Key, n: nat) {
    forall i :: 0 <= i < |steps| && steps[i].Upload? && steps[i].key == k ==> |steps[i].bits| == n
  }

  lemma StoredGrows(env: Env, s: State, step: Step, k: Key, n: nat)
    requires WellStored(s) && Enabled(s, step) && k.kind == PARTITION
    requires step.Upload? && step.key == k ==> |step.bits| == n
    requires k in s.files ==> |s.files[k][0].bits| == n
    ensures var s' := Apply(env, s, step);
      && (k in s.files ==> k in s'.files && s'.files[k] != [] && Within(s.files[k][0].bits, s'.files[k][0].bits))
      && (k in s'.files ==> |s'.files[k]| == 1 && |s'.files[k][0].bits| == n)
  {
    hide Apply, Enabled;
    FilesStep(env, s, step, k);
  }

  function SentIn(s: State, id: nat): seq<Item> {
    if id in s.sessions then s.sessions[id].sent else []
  }

  /** What a subscriber has been sent for k grows from item to item, while the length stays the same. */
  lemma {:induction false} SentGrows(env: Env, steps: seq<Step>, s: State, id: nat, k: Key, n: nat)
    requires Exec(env, steps) == Some(s) && Atomic(steps) && SameSize(steps, k, n) && k.kind == PARTITION
    ensures Growing(s, k, SentIn(s, id), n)
  {
    hide Apply, Enabled, Growing, Inv;
    if steps == [] {
      NothingGrows(k, n);
    } else {
      var init, last := steps[..|steps| - 1], steps[|steps| - 1];
      var before := Exec(env, init).value;
      SentGrows(env, init, before, id, k, n);
      ReachableFine(env, init);
      if id in before.sessions {
        AtomicReaches(env, init, id, k);
      }
      GrowsOnce(env, before, last, id, k, n);
    }
  }

  lemma NothingGrows(k: Key, n: nat)
    ensures Growing(Start(), k, [], n)
  {
  }

  lemma GrowsOnce(env: Env, s: State, step: Step, id: nat, k: Key, n: nat)
    requires Inv(env, s) && Enabled(s, step) && k.kind == PARTITION
    requires step.Upload? && step.key == k ==> |step.bits| == n
    requires id in s.sessions ==> !HasOpen(s.sessions[id], k)
    requires Growing(s, k, SentIn(s, id), n)
    ensures Growing(Apply(env, s, step), k, SentIn(Apply(env, s, step), id), n)
  {
    hide Apply, Enabled, WellStored;
    StoredGrows(env, s, step, k, n);
    var s' := Apply(env, s, step);
    if id in s.sessions {
      var more := SentStep(env, s, step, id, k);
      GrowingMore(s, s', k, SentIn(s, id), more, n);
    } else {
      NewSessionEmpty(env, s, step, id);
      GrowingMore(s, s', k, [], [], n);
    }
  }

  lemma NewSessionEmpty(env: Env, s: State, step: Step, id: nat)
    requires Enabled(s, step) && id !in s.sessions
    ensures SentIn(Apply(env, s, step), id) == []
  {
    hide Addressed, Covered, FilesAfter;
  }

  /** The row of k after the first m items. */
  function RowAfter(xs: seq<Item>, m: nat, k: Key): Option<Item>
    requires m <= |xs|
  {
    LastInRow(xs[..m], RowFor(k))
  }

  /**
   * While all uploads to a key have the same length, no bit in its row ever clears: at
   * any two moments of the stream the row only gains bits.
   */
  lemma RowsNeverClear(env: Env, steps: seq<Step>, s: State, id: nat, k: Key, n: nat, a: nat, b: nat)
    requires Subscribed(env, steps, s, id) && Atomic(steps) && SameSize(steps, k, n) && k.kind == PARTITION
    requires OwnRow(s.sessions[id].sent, k) && a <= b <= |s.sessions[id].sent|
    requires RowAfter(s.sessions[id].sent, a, k).Some?
    ensures var xs := s.sessions[id].sent;
      RowAfter(xs, b, k).Some? && Within(RowAfter(xs, a, k).value.bits, RowAfter(xs, b, k).value.bits)
  {
    hide Exec, ParseInt;
    var xs := s.sessions[id].sent;
    SentGrows(env, steps, s, id, k, n);
    OwnRowLast(xs[..a], k);
    OwnRowLast(xs[..b], k);
    LastPositions(xs, a, b, k);
    var i, j :| 0 <= i <= j < |xs| && xs[i] == LastFor(xs[..a], k).value && xs[j] == LastFor(xs[..b], k).value
                && xs[i].key == k && xs[j].key == k;
  }

  /** The last items for k of two prefixes are in the order of the prefixes. */
  lemma {:induction false} LastPositions(xs: seq<Item>, a: nat, b: nat, k: Key)
    requires a <= b <= |xs| && LastFor(xs[..a], k).Some?
    ensures LastFor(xs[..b], k).Some?
    ensures exists i, j ::
      && 0 <= i <= j < |xs| && xs[i].key == k && xs[j].key == k
      && xs[i] == LastFor(xs[..a], k).value && xs[j] == LastFor(xs[..b], k).value
  {
    var i := LastPosition(xs, a, k);
    if b > a {
      assert xs[..b][..b - 1] == xs[..b - 1];
      if xs[b - 1].key == k {
        assert xs[b - 1] == LastFor(xs[..b], k).value;
      } else {
        LastPositions(xs, a, b - 1, k);
      }
    }
  }

  lemma {:induction false} LastPosition(xs: seq<Item>, a: nat, k: Key) returns (i: nat)
    requires a <= |xs| && LastFor(xs[..a], k).Some?
    ensures i < a && xs[i] == LastFor(xs[..a], k).value && xs[i].key == k
  {
    assert xs[..a][..a - 1] == xs[..a - 1];
    if xs[a - 1].key == k {
      i := a - 1;
    } else {
      i := LastPosition(xs, a - 1, k);
    }
  }
}
