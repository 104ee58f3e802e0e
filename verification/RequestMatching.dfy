/** Which directories a download request is about, by its name and type. */
module RequestMatching {
  import opened Wrappers
  import opened LittleEndian
  import opened DirectoryKeys
  import opened PartitionStore
  import opened Patterns
  import opened DataNode
  import opened Download
  import opened Bitmaps
  import opened Refinement
  import S = Subscribers
  import P = SnapshotProtocol

  // ----- The patterns -------------------------------------------------------------------------

  /** With and without a name, with and without a type. */
  lemma PatternsAre(name: string)
    requires name != ""
    ensures PatternOf("", 0) == ".*_.*" && PatternOf(name, 0) == name + "_.*"
    ensures PatternOf("", 2) == ".*_Partition" && PatternOf(name, 2) == name + "_Partition"
    ensures PatternOf("", 1) == ".*_GenericDomainData" && PatternOf("", 3) == ".*_Pose"
  {
    TypeNamesAre();
    assert name + "_" + ".*" == name + "_.*";
  }

  /** A type with a name of its own. */
  predicate Known(kind: nat) {
    1 <= kind <= 3
  }

  /** An occurrence of a type's suffix is at the end, or inside the name. */
  lemma SuffixOccurs(n: string, u: nat, kind: nat)
    requires Known(kind)
    ensures Occurs("_" + TypeName(kind), LastSegment(n, u)) <==> u == kind || Occurs("_" + TypeName(kind), n)
  {
    hide TypeName;
    var q, s := "_" + TypeName(kind), LastSegment(n, u);
    LastUnderscore(n, u);
    TypeNamePlain(kind);
    if u == kind {
      assert s[|n|..|n| + |q|] == q;
      assert At(q, s, |n|);
    }
    if i: nat :| At(q, n, i) {
      assert s[i..i + |q|] == n[i..i + |q|];
      assert At(q, s, i);
    }
    if i: nat :| At(q, s, i) {
      SuffixAt(n, u, kind, i);
    }
  }

  lemma SuffixAt(n: string, u: nat, kind: nat, i: nat)
    requires Known(kind) && At("_" + TypeName(kind), LastSegment(n, u), i)
    ensures u == kind || At("_" + TypeName(kind), n, i)
  {
    hide TypeName;
    var q, s := "_" + TypeName(kind), LastSegment(n, u);
    LastUnderscore(n, u);
    TypeNamePlain(kind);
    assert s[i] == q[0] == '_';
    forall k | i < k < i + |q|
      ensures s[k] != '_'
    {
      assert q[k - i] == TypeName(kind)[k - i - 1] && q[k - i] == s[i..i + |q|][k - i];
    }
    if i == |n| {
      var m := |TypeName(kind)|;
      assert q[1..] == TypeName(kind) && s[i..i + |q|][1..] == s[|n| + 1..|n| + 1 + m];
      assert s[|n| + 1..][..m] == s[|n| + 1..|n| + 1 + m];
      assert TypeName(u)[..m] == TypeName(kind);
      NoPrefix(u, kind);
    } else {
      assert n[i..i + |q|] == s[i..i + |q|];
    }
  }

  /** No known type's name starts another type's name. */
  lemma NoPrefix(u: nat, kind: nat)
    requires Known(kind) && TypeName(kind) <= TypeName(u)
    ensures u == kind
  {
    hide TypeName;
    TypeNamesAre();
    FirstLetter(u);
    FirstLetter(kind);
    var a, b := TypeName(kind), TypeName(u);
    assert b[0] == a[0];
    if u == 2 || u == 3 {
      assert kind == 2 || kind == 3;
      assert b[1] == a[1];
    }
  }

  lemma LiteralType(kind: nat)
    requires Known(kind)
    ensures Literal("_" + TypeName(kind)) && Literal(TypeName(kind))
  {
    TypeNamesAre();
    LiteralNames();
    LiteralAll("_", TypeName(kind));
  }

  predicate Wordlike(q: string) {
    forall c :: c in q ==> c == '_' || 'a' <= c <= 'z' || 'A' <= c <= 'Z' || '0' <= c <= '9'
  }

  lemma WordsLiteral(q: string)
    requires Wordlike(q)
    ensures Literal(q)
  {
  }

  lemma LiteralNames()
    ensures Literal("_") && Literal("Partition") && Literal("Pose") && Literal("GenericDomainData")
  {
    hide Literal;
    WordsLiteral("_");
    WordsLiteral("Partition");
    WordsLiteral("Pose");
    WordsLiteral("GenericDomainData");
  }

  lemma LiteralAll(a: string, b: string)
    requires Literal(a) && Literal(b)
    ensures Literal(a + b)
  {
  }

  /**
   * What a request matches among the directory names. Without a name and a type it is
   * every directory. With a type only, it is those of that type, and those in whose name
   * the type's suffix occurs, because the search is not anchored at the end.
   */
  lemma NamelessRequest(matches: (S.Pattern, string) -> bool, kind: nat, n: string, u: nat)
    requires LikeRegexp(matches)
    ensures matches(PatternOf("", 0), LastSegment(n, u))
    ensures Known(kind) ==>
      (matches(PatternOf("", kind), LastSegment(n, u)) <==> u == kind || Occurs("_" + TypeName(kind), n))
  {
    hide LikeRegexp, TypeName, Occurs;
    PatternsAre("x");
    var s := LastSegment(n, u);
    RequestShapes(matches, "_", s);
    assert ".*" + "_" + ".*" == ".*_.*";
    UnderscoreOccurs(n, u);
    if Known(kind) {
      LiteralType(kind);
      RequestShapes(matches, "_" + TypeName(kind), s);
      assert ".*" + ("_" + TypeName(kind)) == ".*" + "_" + TypeName(kind);
      SuffixOccurs(n, u, kind);
    }
  }

  lemma UnderscoreOccurs(n: string, u: nat)
    ensures Occurs("_", LastSegment(n, u))
  {
    hide TypeName;
    var s := LastSegment(n, u);
    assert s[|n|..|n| + 1] == "_";
    assert At("_", s, |n|);
  }

  /** With a name of letters and digits, say, the directory name must contain it before a separator. */
  lemma NamedRequest(matches: (S.Pattern, string) -> bool, name: string, kind: nat, s: string)
    requires LikeRegexp(matches) && name != "" && Literal(name)
    ensures matches(PatternOf(name, 0), s) <==> Occurs(name + "_", s)
    ensures Known(kind) ==> (matches(PatternOf(name, kind), s) <==> Occurs(name + "_" + TypeName(kind), s))
  {
    hide LikeRegexp, TypeName, Occurs;
    LiteralAll(name, "_");
    RequestShapes(matches, name + "_", s);
    if Known(kind) {
      LiteralType(kind);
      LiteralAll(name + "_", TypeName(kind));
      RequestShapes(matches, name + "_" + TypeName(kind), s);
    }
  }

  /** Asking for partitions also finds a directory of poses whose name ends like one of partitions. */
  lemma TypeInName(matches: (S.Pattern, string) -> bool)
    requires LikeRegexp(matches)
    ensures LastSegment("0_Partition", 3) == "0_Partition_Pose"
    ensures matches(PatternOf("", 2), "0_Partition_Pose")
  {
    hide LikeRegexp;
    TypeNamesAre();
    assert "_" + TypeName(2) == "_Partition";
    assert At("_Partition", "0_Partition", 1);
    NamelessRequest(matches, 2, "0_Partition", 3);
  }

  // ----- The directories wanted -------------------------------------------------------------------

  /** Every directory is one of a key. */
  ghost predicate KeyDirectories(dirs: Directories) {
    forall p :: p in dirs ==> p != [] && exists n, u :: p[|p| - 1] == LastSegment(n, u)
  }

  /** A request without name and type is about the whole domain. */
  lemma WantsDomain(dirs: Directories, root: Path, matches: (S.Pattern, string) -> bool)
    requires LikeRegexp(matches) && KeyDirectories(dirs)
    ensures forall p :: p in Wanted(dirs, root, matches, PatternOf("", 0)) <==>
      p in dirs && p != [] && p[..|p| - 1] == root
  {
    hide LikeRegexp, PatternOf, LastSegment;
    forall p | p in dirs
      ensures p != [] && matches(PatternOf("", 0), p[|p| - 1])
    {
      var n, u :| p[|p| - 1] == LastSegment(n, u);
      NamelessRequest(matches, 0, n, u);
    }
  }

  /** A request with a type is about that type's directories, and those that have it in their name. */
  lemma WantsType(dirs: Directories, root: Path, matches: (S.Pattern, string) -> bool, kind: nat, n: string, u: nat)
    requires LikeRegexp(matches) && Known(kind) && root + [LastSegment(n, u)] in dirs
    ensures root + [LastSegment(n, u)] in Wanted(dirs, root, matches, PatternOf("", kind)) <==>
      u == kind || Occurs("_" + TypeName(kind), n)
  {
    hide LikeRegexp, PatternOf, LastSegment, Occurs, TypeName;
    var p := root + [LastSegment(n, u)];
    assert p[..|p| - 1] == root && p[|p| - 1] == LastSegment(n, u);
    NamelessRequest(matches, kind, n, u);
  }

  // ----- Paths -----------------------------------------------------------------------------------

  lemma OccursMore(q: string, front: string, s: string)
    requires Occurs(q, s)
    ensures Occurs(q, front + s)
  {
    var i: nat :| At(q, s, i);
    assert (front + s)[|front| + i..|front| + i + |q|] == s[i..i + |q|];
    assert At(q, front + s, |front| + i);
  }

  /** What finds a directory by its name is also found in its path, unless it is anchored. */
  lemma PathToo(matches: (S.Pattern, string) -> bool, base: Path, k: P.Key, name: string, kind: nat)
    requires LikeRegexp(matches) && CleanPath(base) && '/' !in Text(k.domain) && '/' !in Text(k.name)
    requires Literal(name) && (kind == 0 || Known(kind)) && matches(PatternOf(name, kind), P.DirName(k))
    ensures matches(PatternOf(name, kind), P.DirText(base, k))
  {
    hide LikeRegexp, TypeName, Occurs, P.DirText, P.DirName, Literal;
    P.TextEndsInName(base, k);
    var front: string :| P.DirText(base, k) == front + P.DirName(k);
    var q := RequestCore(matches, name, kind, P.DirName(k));
    var q' := RequestCore(matches, name, kind, P.DirText(base, k));
    OccursMore(q, front, P.DirName(k));
  }

  /** The text that must occur, whatever the string. */
  lemma RequestCore(matches: (S.Pattern, string) -> bool, name: string, kind: nat, s: string) returns (q: string)
    requires LikeRegexp(matches) && Literal(name) && (kind == 0 || Known(kind))
    ensures q == name + (if kind == 0 then "_" else "_" + TypeName(kind))
    ensures matches(PatternOf(name, kind), s) <==> Occurs(q, s)
  {
    hide LikeRegexp, TypeName, Occurs, Literal, Known;
    q := name + (if kind == 0 then "_" else "_" + TypeName(kind));
    if name != "" {
      NamedRequest(matches, name, kind, s);
      assert name + "_" + TypeName(kind) == name + ("_" + TypeName(kind));
    } else {
      q := NamelessCore(matches, kind, s);
    }
  }

  lemma NamelessCore(matches: (S.Pattern, string) -> bool, kind: nat, s: string) returns (q: string)
    requires LikeRegexp(matches) && (kind == 0 || Known(kind))
    ensures q == if kind == 0 then "_" else "_" + TypeName(kind)
    ensures matches(PatternOf("", kind), s) <==> Occurs(q, s)
  {
    hide LikeRegexp, TypeName, Occurs, Literal;
    q := if kind == 0 then "_" else "_" + TypeName(kind);
    LiteralNames();
    if kind == 0 {
      PatternsAre("x");
    } else {
      LiteralType(kind);
      assert ".*" + ("_" + TypeName(kind)) == ".*" + "_" + TypeName(kind);
    }
    RequestShapes(matches, q, s);
    assert ".*" + "_" + ".*" == ".*_.*";
  }

  // ----- Two families of runs -----------------------------------------------------------------------

  lemma StartsWith(q: string, s: string)
    requires |q| <= |s| && s[..|q|] == q
    ensures At(q, s, 0) && Occurs(q, s)
  {
    assert At(q, s, 0);
  }

  /** The path of a node's directory starts with "..", which no literal text does. */
  lemma PathStart(base: Path, k: P.Key, q: string)
    requires CleanPath(base) && base != [] && base[0] == ".." && Plain(Text(k.domain)) && '/' !in Text(k.name)
    requires Literal(q) && q != ""
    ensures !At(q, P.DirText(base, k), 0)
  {
    DirTextIs(base, Text(k.domain), Text(k.name), k.kind);
    var s := P.DirText(base, k);
    assert PathText(base)[0] == '.';
    assert s[0] == '.' && q[0] in q;
  }

  /**
   * A request for a name with an anchor in front finds the directory but is not told of
   * later uploads, on every node that is started with a base path above its own.
   */
  lemma AnchoredRequestMisses(base: Path, matches: (S.Pattern, string) -> bool, k: P.Key, bits: Bitmap, more: Bitmap)
    requires LikeRegexp(matches) && CleanPath(base) && base != [] && base[0] == ".."
    requires Plain(Text(k.domain)) && '/' !in Text(k.name) && Literal(Text(k.name)) && k.kind == 2
    ensures PatternOf("^" + Text(k.name), 2) == "^" + Text(k.name) + "_Partition"
    ensures exists steps: seq<P.Step> ::
      P.Atomic(steps) && P.LeavesStale(P.NodeEnv(base, matches), steps, 0, k, PatternOf("^" + Text(k.name), 2))
  {
    hide LikeRegexp, Occurs, P.DirText, P.LeavesStale, P.Atomic;
    var q := Text(k.name) + "_Partition";
    PatternsAre("^" + Text(k.name));
    assert "^" + Text(k.name) + "_Partition" == "^" + q;
    PartitionSegment(Text(k.name));
    LiteralNames();
    LiteralAll(Text(k.name), "_");
    LiteralAll(Text(k.name) + "_", "Partition");
    assert Text(k.name) + "_" + "Partition" == q;
    RequestShapes(matches, q, P.DirName(k));
    RequestShapes(matches, q, P.DirText(base, k));
    StartsWith(q, q);
    PathStart(base, k, q);
    P.AnchoredMisses(P.NodeEnv(base, matches), k, "^" + q, bits, more);
  }

  /** After the run session 0 has asked for domain by the pattern, and got one frame for k. */
  ghost predicate GetsOne(env: P.Env, steps: seq<P.Step>, domain: Buffer, pattern: S.Pattern, k: P.Key) {
    P.Exec(env, steps).Some? &&
    var s := P.Exec(env, steps).value;
    && 0 in s.sessions && s.sessions[0].domain == domain && s.sessions[0].pattern == pattern
    && P.CountFor(s.sessions[0].sent, k) == 1
  }

  /** A request for a name in one domain is pushed an upload under that name in any other. */
  lemma ForeignUploadArrives(base: Path, matches: (S.Pattern, string) -> bool, k: P.Key, domain: Buffer, bits: Bitmap)
    requires LikeRegexp(matches) && CleanPath(base) && Plain(Text(k.domain)) && '/' !in Text(k.name)
    requires Literal(Text(k.name)) && k.kind == 2 && '/' !in Text(domain) && domain != k.domain
    ensures !P.NodeEnv(base, matches).lists(domain, k)
    ensures exists steps: seq<P.Step> ::
      GetsOne(P.NodeEnv(base, matches), steps, domain, PatternOf(Text(k.name), 2), k)
  {
    hide LikeRegexp, Occurs, P.DirText, P.Exec, PatternOf, DomainRoot, P.DirName;
    var env, pattern := P.NodeEnv(base, matches), PatternOf(Text(k.name), 2);
    ListsOwn(base, domain, k);
    NamesItself(matches, k);
    PathToo(matches, base, k, Text(k.name), 2);
    var x := P.Session(domain, pattern, P.Registered, false, [], {});
    var s1 := P.Set(P.Start(), 0, x);
    P.StartReached(env);
    P.ExecMore(env, [], P.Start(), P.Register(0, domain, pattern));
    var steps := [] + [P.Register(0, domain, pattern)];
    P.ExecMore(env, steps, s1, P.Step.Upload(k, bits));
    var s2 := P.Apply(env, s1, P.Step.Upload(k, bits));
    var item := P.FilesAfter(s1, k, bits)[0];
    assert s2.sessions[0].sent == [] + [item];
    P.AppendedFor([], item, k);
    assert GetsOne(env, steps + [P.Step.Upload(k, bits)], domain, pattern, k);
  }

  lemma NamesItself(matches: (S.Pattern, string) -> bool, k: P.Key)
    requires LikeRegexp(matches) && Literal(Text(k.name)) && k.kind == 2
    ensures matches(PatternOf(Text(k.name), 2), P.DirName(k))
  {
    hide LikeRegexp, Occurs;
    var q := RequestCore(matches, Text(k.name), 2, P.DirName(k));
    TypeNamesAre();
    assert q == P.DirName(k);
    StartsWith(q, q);
  }
}
