/** From the files of the data node to the rows of the app, through the bytes of one stream. */
module NodeView {
  import opened Wrappers
  import opened LittleEndian
  import opened DomainDataWire
  import opened DirectoryKeys
  import opened PartitionStore
  import opened DataNode
  import opened Refinement
  import F = Framing
  import A = AppView
  import E = EndToEnd
  import P = SnapshotProtocol

  /** Every frame is a partition that the app shows, and only those of k in the row of k. */
  ghost predicate Displayable(frames: seq<Buffer>, k: P.Key) {
    forall i :: 0 <= i < |frames| && ParseFrame(frames[i]).Some? ==>
      var m := ParseFrame(frames[i]).value;
      m.dataType == PARTITION && 0 <= A.RowOf(m) < A.ROWS && (A.RowOf(m) == E.RowFor(k) ==> KeyOf(m) == k)
  }

  lemma FrameShows(frames: seq<Buffer>, xs: seq<P.Item>, i: nat, k: P.Key)
    requires SentMatches(frames, xs) && Displayable(frames, k) && i < |frames|
    ensures F.IsFrame(frames[i]) && ParseBody(frames[i][4..]).Some?
    ensures ParseBody(frames[i][4..]).value.name == xs[i].key.name
    ensures ParseBody(frames[i][4..]).value.bits == Some(xs[i].bits)
    ensures 0 <= E.RowFor(xs[i].key) < A.ROWS && (E.RowFor(xs[i].key) == E.RowFor(k) ==> xs[i].key == k)
  {
    hide ParseFrame, ParseBody, A.ParseInt, Text;
    assert Carries(frames[i], xs[i]);
  }

  /** Whole frames that carry the items are decoded by the app as those items. */
  lemma FramesShow(frames: seq<Buffer>, xs: seq<P.Item>, chunks: seq<Buffer>, k: P.Key)
    requires SentMatches(frames, xs) && Displayable(frames, k) && F.Concat(chunks) == F.Concat(frames)
    ensures var s := F.ParseStream(F.Concat(chunks));
      && s.end == F.End && s.frames == frames && A.AllDecode(s.frames) && E.Shows(A.Decoded(s.frames), xs)
    ensures E.OnScreen(xs) && E.OwnRow(xs, k)
  {
    hide ParseFrame, ParseBody, A.ParseInt, Text, Carries, Displayable, F.ParseStream, Decode, BitsOf, F.Concat;
    forall i | 0 <= i < |frames|
      ensures F.IsFrame(frames[i]) && ParseBody(frames[i][4..]).Some?
      ensures ParseBody(frames[i][4..]).value.name == xs[i].key.name
      ensures ParseBody(frames[i][4..]).value.bits == Some(xs[i].bits)
      ensures 0 <= E.RowFor(xs[i].key) < A.ROWS && (E.RowFor(xs[i].key) == E.RowFor(k) ==> xs[i].key == k)
    {
      FrameShows(frames, xs, i, k);
    }
    assert F.Concat(frames) + [] == F.Concat(frames);
    F.ParseConcat(frames, []);
  }

  /**
   * End to end. After any run of the node, decoding all bytes written to a subscriber, in
   * whatever chunks they arrive, leaves the row of every directory it looks for and that
   * has been copied equal to the bitmap stored in that directory, provided the last
   * upload to it was not missed.
   */
  lemma RowsMatchNode(node: Node, steps: seq<P.Step>, s: P.State, id: nat, k: P.Key, chunks: seq<Buffer>)
    requires Represents(node, s) && P.Exec(EnvOf(node), steps) == Some(s)
    requires P.Watches(EnvOf(node), s, id, k) && !P.Pending(s.sessions[id], k)
    requires !P.LastUploadMissed(EnvOf(node), steps, id, k)
    requires id in node.streams && Displayable(node.streams[id].sent, k)
    requires F.Concat(chunks) == F.Concat(node.streams[id].sent)
    ensures KeyPath(node.basePath, k) in node.dirs && Settled(node.dirs[KeyPath(node.basePath, k)])
    ensures var received := F.ParseStream(F.Concat(chunks));
      && received.frames == node.streams[id].sent && received.end == F.End && A.AllDecode(received.frames)
      && var shown := A.ShowAll(A.Blank(), A.Decoded(received.frames));
         shown.Shown? && 0 <= E.RowFor(k) < A.ROWS &&
         shown.rows[E.RowFor(k)] == BytesOf(StoredBits(node.dirs[KeyPath(node.basePath, k)]))
  {
    hide KeyPath, SentMatches, FilesMatch, Registered, P.Exec, P.Covered, P.LastUploadMissed, P.Good, Settled,
      StoredBits,
      A.ParseInt, F.ParseStream, Displayable, E.Shows, E.OnScreen, E.OwnRow, P.LastFor, E.LastInRow;
    var xs := s.sessions[id].sent;
    assert SessionMatches(node.Pushing(true).streams, id, s.sessions[id]);
    FramesShow(node.streams[id].sent, xs, chunks, k);
    P.MissedExactlyWhenOvertaken(EnvOf(node), steps, s, id, k);
    P.ReachableFine(EnvOf(node), steps);
    FilesKnown(node.basePath, node.dirs, s, k);
    PartitionSettled(node.basePath, node.dirs, s, k);
    SettledCarries(node.basePath, node.dirs, s, k);
    E.RowsShowLast(A.Decoded(F.ParseStream(F.Concat(chunks)).frames), xs);
    E.OwnRowLast(xs, k);
    E.LastIsSent(xs, k);
    RowInRange(xs, k);
  }

  lemma FilesKnown(base: Path, dirs: Directories, s: P.State, k: P.Key)
    requires FilesMatch(base, dirs, s) && k in s.files
    ensures KeyPath(base, k) in dirs
  {
    hide KeyPath, PlainKey, DirMatches;
  }

  lemma RowInRange(xs: seq<P.Item>, k: P.Key)
    requires E.OnScreen(xs) && P.LastFor(xs, k).Some? && P.LastFor(xs, k).value in xs && P.LastFor(xs, k).value.key == k
    ensures 0 <= E.RowFor(k) < A.ROWS
  {
    hide A.ParseInt;
  }
}
