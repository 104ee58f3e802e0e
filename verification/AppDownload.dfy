/** From the app's download request to the rows it shows, with no assumption about its pattern. */
module AppDownload {
  import opened Wrappers
  import opened LittleEndian
  import opened DomainDataWire
  import opened Bitmaps
  import opened DirectoryKeys
  import opened PartitionStore
  import opened DataNode
  import opened Download
  import opened Refinement
  import opened Patterns
  import opened RequestMatching
  import opened NodeRuns
  import opened NodeView
  import F = Framing
  import Q = RequestWire
  import S = Subscribers
  import P = SnapshotProtocol

  /** What the handler makes of the bytes of a request. */
  function AskedIn(body: Buffer): Option<Action> {
    var r :- Q.ParseBody(body);
    Some(Ask(r.domainId, Text(r.name), r.kind))
  }

  /** The app's request is for a domain, any name and any type. */
  lemma AppAsksForAll(domain: Buffer)
    requires Q.Encodable(domain)
    ensures AskedIn(Q.RequestFrame(domain)[4..]) == Some(Ask(domain, "", 0)) && PatternOf("", 0) == ".*_.*"
  {
    hide Q.RequestFrame, Q.ParseBody;
    Q.RequestRoundTrip(domain);
    PatternsAre("x");
    assert Text([]) == "";
  }

  /** The pattern of the app's request finds every directory by its name and by its path. */
  lemma FindsAll(matches: (S.Pattern, string) -> bool, base: Path, k: P.Key)
    requires LikeRegexp(matches) && CleanPath(base) && PlainKey(k)
    ensures matches(PatternOf("", 0), P.DirName(k)) && matches(PatternOf("", 0), P.DirText(base, k))
  {
    hide LikeRegexp, P.DirText, PatternOf;
    NamelessRequest(matches, 0, Text(k.name), k.kind);
    PathToo(matches, base, k, "", 0);
  }

  /**
   * Whatever was uploaded before and after it asked: an app that asked for a domain with
   * its own request and has not left shows, for every partition key of that domain, the
   * OR of the longest equal-length suffix of all that was uploaded for the key.
   */
  lemma AppSeesDomain(node: Node, hs: Handlers, asked: seq<S.Stream>, actions: seq<Action>, steps: seq<P.Step>,
                      s: P.State, i: nat, k: P.Key, j: nat, chunks: seq<Buffer>)
    requires Explains(node, hs, actions, steps, s) && Answered(hs, asked, actions) && Uninterrupted(actions)
    requires LikeRegexp(node.matches) && i < |asked| && Requests(actions)[i] == Ask(k.domain, "", 0)
    requires asked[i] in node.streams && !node.streams[asked[i]].closed && PlainKey(k) && k.kind == PARTITION
    requires var us := ReceivedFor(actions, k); us != [] && IsLongestSuffix(us, j)
    requires Displayable(node.streams[asked[i]].sent, k)
    requires F.Concat(chunks) == F.Concat(node.streams[asked[i]].sent)
    ensures RowIsRight(node, node.streams[asked[i]].sent, chunks, k, ReceivedFor(actions, k), j)
  {
    hide LikeRegexp, PatternOf, KeyPath, FilesMatch, SessionsMatch, HandlersMatch, AllRecorded, ReceivedFor, P.Exec,
      PlainKey, Displayable, RowIsRight, P.DirName, PathText, IsLongestSuffix, F.Concat, AllSettled, P.Atomic;
    var id := asked[i];
    FindsAll(node.matches, node.basePath, k);
    TextOfPath(node.basePath, k);
    HandlerOf(node, hs, s, id);
    RowsWhenUninterrupted(node, hs, actions, steps, s, id, k, j, chunks);
  }
}
