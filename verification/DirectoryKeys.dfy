/** The directory a message is stored in, as a list of path segments. */
module DirectoryKeys {

  type Path = seq<string>

  // ----- AnyDomainData.String -----------------------------------------------------------

  function Digit(n: nat): char
    requires n < 10
  {
    "0123456789"[n]
  }

  function Decimal(n: nat): string {
    if n < 10 then [Digit(n)] else Decimal(n / 10) + [Digit(n % 10)]
  }

  function TypeName(t: nat): string {
    if t == 0 then "NONE"
    else if t == 1 then "GenericDomainData"
    else if t == 2 then "Partition"
    else if t == 3 then "Pose"
    else "AnyDomainData(" + Decimal(t) + ")"
  }

  lemma {:induction false} DecimalInjective(m: nat, n: nat)
    requires Decimal(m) == Decimal(n)
    ensures m == n
    decreases m
  {
    var s, t := Decimal(m), Decimal(n);
    assert s[|s| - 1] == Digit(m % 10) && t[|t| - 1] == Digit(n % 10);
    DecimalNonEmpty(m / 10);
    DecimalNonEmpty(n / 10);
    if m >= 10 && n >= 10 {
      assert Decimal(m / 10) == s[..|s| - 1] && Decimal(n / 10) == t[..|t| - 1];
      DecimalInjective(m / 10, n / 10);
    }
  }

  lemma DecimalNonEmpty(n: nat)
    ensures |Decimal(n)| > 0
  {
  }

  lemma {:induction false} DecimalDigits(n: nat)
    ensures forall c :: c in Decimal(n) ==> '0' <= c <= '9'
  {
    if n >= 10 {
      DecimalDigits(n / 10);
    }
  }

  lemma FirstLetter(t: nat)
    ensures |TypeName(t)| > 0
    ensures TypeName(t)[0] == if t == 0 then 'N' else if t == 1 then 'G' else if t <= 3 then 'P' else 'A'
    ensures t == 2 ==> |TypeName(t)| == 9
    ensures t == 3 ==> |TypeName(t)| == 4
    ensures t > 3 ==> TypeName(t)[14..|TypeName(t)| - 1] == Decimal(t)
  {
  }

  /** The names of the known types, and of the first unknown one. */
  lemma TypeNamesAre()
    ensures TypeName(0) == "NONE" && TypeName(1) == "GenericDomainData" && TypeName(2) == "Partition"
    ensures TypeName(3) == "Pose" && TypeName(4) == "AnyDomainData(4)"
  {
    assert Decimal(4) == "4";
  }

  /** Distinct types have distinct names, unknown type bytes included. */
  lemma TypeNamesDistinct(t: nat, u: nat)
    requires TypeName(t) == TypeName(u)
    ensures t == u
  {
    FirstLetter(t);
    FirstLetter(u);
    if t > 3 && u > 3 {
      DecimalInjective(t, u);
    }
  }

  /** No type name has an underscore or a slash in it. */
  lemma TypeNamePlain(t: nat)
    ensures '_' !in TypeName(t) && '/' !in TypeName(t)
  {
    if t > 3 {
      DecimalDigits(t);
      var head := "AnyDomainData(";
      assert '_' !in head && '/' !in head;
      assert TypeName(t) == head + Decimal(t) + ")";
    }
  }

  // ----- path.Join ----------------------------------------------------------------------

  function Split(s: string): (r: seq<string>)
    ensures |r| > 0
  {
    if s == [] then [""]
    else if s[0] == '/' then [""] + Split(s[1..])
    else var rest := Split(s[1..]); [[s[0]] + rest[0]] + rest[1..]
  }

  /** path.Clean of a relative path: done is clean already, rest still to be looked at. */
  function Clean(done: Path, rest: seq<string>): Path
    decreases |rest|
  {
    if rest == [] then done
    else if rest[0] == "" || rest[0] == "." then Clean(done, rest[1..])
    else if rest[0] == ".." && done != [] && done[|done| - 1] != ".." then
      Clean(done[..|done| - 1], rest[1..])
    else Clean(done + [rest[0]], rest[1..])
  }

  function Join(base: Path, elems: seq<string>): Path {
    Clean([], base + SplitAll(elems))
  }

  function SplitAll(elems: seq<string>): seq<string> {
    if elems == [] then [] else Split(elems[0]) + SplitAll(elems[1..])
  }

  predicate Plain(s: string) {
    s != "" && s != "." && s != ".." && '/' !in s
  }

  /** A path that path.Clean leaves alone: ".." segments in front, then plain ones. */
  predicate CleanPath(p: Path) {
    forall i :: 0 <= i < |p| ==> Plain(p[i]) || (p[i] == ".." && forall j :: 0 <= j < i ==> p[j] == "..")
  }

  function LastSegment(name: string, t: nat): string {
    name + "_" + TypeName(t)
  }

  /** The last segment of every partition key. */
  lemma PartitionSegment(name: string)
    ensures LastSegment(name, 2) == name + "_Partition"
  {
    TypeNamesAre();
  }

  /** The directory both ReceiveDomainData and classifyDomainData compute. */
  function DirPath(base: Path, domain: string, name: string, t: nat): Path {
    Join(base, ["domaindata", domain, LastSegment(name, t)])
  }

  lemma {:induction false} SplitPlain(s: string)
    requires '/' !in s
    ensures Split(s) == [s]
  {
    if s != [] {
      SplitPlain(s[1..]);
      assert [s[0]] + s[1..] == s;
    }
  }

  lemma {:induction false} CleanKeeps(done: Path, p: Path, rest: seq<string>)
    requires CleanPath(done + p)
    ensures Clean(done, p + rest) == Clean(done + p, rest)
    decreases |p|
  {
    if p == [] {
      assert p + rest == rest && done + p == done;
    } else {
      assert (p + rest)[1..] == p[1..] + rest;
      assert done + [p[0]] + p[1..] == done + p;
      assert (done + p)[|done|] == p[0];
      if p[0] == ".." && done != [] {
        assert (done + p)[|done| - 1] == done[|done| - 1];
      }
      CleanKeeps(done + [p[0]], p[1..], rest);
    }
  }

  lemma LastSegmentPlain(name: string, t: nat)
    requires '/' !in name
    ensures Plain(LastSegment(name, t))
  {
    TypeNamePlain(t);
    var s := LastSegment(name, t);
    assert s[|name|] == '_';
  }

  /** How the middle segment, the domain id, comes out of path.Join. */
  function DomainSegments(base: Path, domain: string): Path {
    if domain == "" || domain == "." then base + ["domaindata"]
    else if domain == ".." then base
    else base + ["domaindata", domain]
  }

  lemma DirPathShape(base: Path, domain: string, name: string, t: nat)
    requires CleanPath(base) && '/' !in domain && '/' !in name
    ensures DirPath(base, domain, name, t) == DomainSegments(base, domain) + [LastSegment(name, t)]
  {
    var last := LastSegment(name, t);
    LastSegmentPlain(name, t);
    SplitPlain("domaindata");
    SplitPlain(domain);
    SplitPlain(last);
    assert SplitAll([last]) == [last];
    assert ["domaindata", domain, last][1..] == [domain, last] && [domain, last][1..] == [last];
    assert SplitAll([domain, last]) == [domain, last];
    assert SplitAll(["domaindata", domain, last]) == ["domaindata", domain, last];
    var head := base + ["domaindata"];
    assert base + ["domaindata", domain, last] == head + [domain, last];
    assert [] + head == head;
    CleanHead(base);
    CleanKeeps([], head, [domain, last]);
    CleanTail(base, domain, last);
  }

  lemma CleanHead(base: Path)
    requires CleanPath(base)
    ensures CleanPath(base + ["domaindata"])
  {
    var head := base + ["domaindata"];
    forall i | 0 <= i < |head|
      ensures Plain(head[i]) || (head[i] == ".." && forall j :: 0 <= j < i ==> head[j] == "..")
    {
      if i < |base| {
        assert head[i] == base[i] && forall j :: 0 <= j < i ==> head[j] == base[j];
      }
    }
  }

  lemma CleanTail(base: Path, domain: string, last: string)
    requires Plain(last) && '/' !in domain
    ensures Clean(base + ["domaindata"], [domain, last]) == DomainSegments(base, domain) + [last]
  {
    var head := base + ["domaindata"];
    assert [domain, last][1..] == [last] && [last][1..] == [];
    if domain == ".." {
      assert head[..|head| - 1] == base;
    } else if domain != "" && domain != "." {
      assert head + [domain] == base + ["domaindata", domain];
    }
    var d := DomainSegments(base, domain);
    assert Clean(d + [last], []) == d + [last];
  }

  lemma LastUnderscore(name: string, t: nat)
    ensures var s := LastSegment(name, t);
      && s[|name|] == '_' && s[..|name|] == name && s[|name| + 1..] == TypeName(t)
      && forall i :: |name| < i < |s| ==> s[i] != '_'
  {
    hide TypeName;
    TypeNamePlain(t);
    var s := LastSegment(name, t);
    assert forall i :: |name| < i < |s| ==> s[i] == TypeName(t)[i - |name| - 1];
  }

  lemma LastSegmentInjective(n1: string, t1: nat, n2: string, t2: nat)
    requires LastSegment(n1, t1) == LastSegment(n2, t2)
    ensures n1 == n2 && t1 == t2
  {
    LastUnderscore(n1, t1);
    LastUnderscore(n2, t2);
    assert |n1| == |n2|;
    TypeNamesDistinct(t1, t2);
  }

  /**
   * Exactly when two messages share a directory, for ids and names without a slash:
   * same name, same type, and same domain id, except that path.Join makes the ids ""
   * and "." indistinguishable.
   */
  lemma DirPathsEqual(base: Path, d1: string, n1: string, t1: nat, d2: string, n2: string, t2: nat)
    requires CleanPath(base) && '/' !in d1 && '/' !in n1 && '/' !in d2 && '/' !in n2
    ensures DirPath(base, d1, n1, t1) == DirPath(base, d2, n2, t2) <==>
      n1 == n2 && t1 == t2 && (d1 == d2 || (d1 in ["", "."] && d2 in ["", "."]))
  {
    DirPathShape(base, d1, n1, t1);
    DirPathShape(base, d2, n2, t2);
    var p, q := DirPath(base, d1, n1, t1), DirPath(base, d2, n2, t2);
    var s1, s2 := DomainSegments(base, d1), DomainSegments(base, d2);
    if p == q {
      assert p[|p| - 1] == LastSegment(n1, t1) && q[|q| - 1] == LastSegment(n2, t2);
      LastSegmentInjective(n1, t1, n2, t2);
      assert s1 == p[..|p| - 1] && s2 == q[..|q| - 1];
      if |s1| == |base| + 2 {
        assert s1[|base| + 1] == d1 && s2[|base| + 1] == d2;
      }
    }
  }

  /** Injectivity for plain ids: the corollary the store relies on. */
  lemma DirPathInjective(base: Path, d1: string, n1: string, t1: nat, d2: string, n2: string, t2: nat)
    requires CleanPath(base) && Plain(d1) && '/' !in n1 && Plain(d2) && '/' !in n2
    requires DirPath(base, d1, n1, t1) == DirPath(base, d2, n2, t2)
    ensures d1 == d2 && n1 == n2 && t1 == t2
  {
    DirPathsEqual(base, d1, n1, t1, d2, n2, t2);
  }

  // ----- Requested domains ----------------------------------------------------------------

  /** path.Join of the directory that holds the domain directories and the requested id. */
  function DomainRoot(base: Path, domain: string): Path {
    Join(base + ["domaindata"], [domain])
  }

  lemma RootShape(base: Path, domain: string)
    requires CleanPath(base) && '/' !in domain
    ensures DomainRoot(base, domain) == DomainSegments(base, domain)
  {
    var head := base + ["domaindata"];
    SplitPlain(domain);
    assert SplitAll([domain]) == [domain];
    CleanHead(base);
    assert [] + head == head;
    CleanKeeps([], head, [domain]);
    assert [domain][1..] == [];
    if domain == ".." {
      assert head[..|head| - 1] == base;
    } else if domain != "" && domain != "." {
      assert head + [domain] == base + ["domaindata", domain];
    }
  }

  // ----- Ids and names with slashes ---------------------------------------------------------

  /** ".." segments come first. */
  predicate Tidy(p: Path) {
    forall i, j :: 0 <= i < j < |p| && p[j] == ".." ==> p[i] == ".."
  }

  /** How many ".." segments p starts with. */
  function Climb(p: Path): (n: nat)
    ensures n <= |p| && (forall i :: 0 <= i < n ==> p[i] == "..") && (n < |p| ==> p[n] != "..")
  {
    if p != [] && p[0] == ".." then 1 + Climb(p[1..]) else 0
  }

  /** One level up, as path.Clean does it for "..". */
  function Parent(p: Path): Path {
    if p != [] && p[|p| - 1] != ".." then p[..|p| - 1] else p + [".."]
  }

  function Up(p: Path, n: nat): Path {
    if n == 0 then p else Parent(Up(p, n - 1))
  }

  /** Where the clean path r leads from h. */
  function Onto(h: Path, r: Path): Path {
    Up(h, Climb(r)) + r[Climb(r)..]
  }

  lemma ClimbIs(p: Path, n: nat)
    requires n <= |p| && (forall i :: 0 <= i < n ==> p[i] == "..") && (n < |p| ==> p[n] != "..")
    ensures Climb(p) == n
  {
  }

  lemma NothingAbove(p: Path)
    requires Tidy(p)
    ensures forall i :: Climb(p) <= i < |p| ==> p[i] != ".."
  {
  }

  /** Up, spelled out: segments go first, then ".." is added. */
  lemma {:induction false} UpShape(h: Path, n: nat)
    requires Tidy(h)
    ensures var depth := |h| - Climb(h);
      if n <= depth then Up(h, n) == h[..|h| - n]
      else |Up(h, n)| == Climb(h) + n - depth && forall i :: 0 <= i < |Up(h, n)| ==> Up(h, n)[i] == ".."
  {
    hide Tidy, Climb;
    NothingAbove(h);
    if n > 0 {
      UpShape(h, n - 1);
    }
  }

  /** One more segment below r. */
  lemma OntoBelow(h: Path, r: Path, x: string)
    requires Tidy(r) && x != ".."
    ensures Tidy(r + [x]) && Onto(h, r + [x]) == Onto(h, r) + [x]
  {
    hide Up;
    var n := Climb(r);
    ClimbIs(r + [x], n);
    assert (r + [x])[n..] == r[n..] + [x];
    assert Onto(h, r) + [x] == Up(h, n) + (r[n..] + [x]);
  }

  /** One level up from r. */
  lemma OntoParent(h: Path, r: Path)
    requires Tidy(r)
    ensures Tidy(Parent(r)) && Onto(h, Parent(r)) == Parent(Onto(h, r))
  {
    hide Tidy;
    NothingAbove(r);
    ParentTidy(r);
    var n := Climb(r);
    if n == |r| {
      ClimbIs(r + [".."], n + 1);
      assert (r + [".."])[n + 1..] == [] && r[n..] == [];
      assert Up(h, n) + [] == Up(h, n) && Up(h, n + 1) + [] == Up(h, n + 1);
    } else {
      ClimbIs(r[..|r| - 1], n);
      assert Onto(h, r)[..|Onto(h, r)| - 1] == Up(h, n) + r[..|r| - 1][n..];
    }
  }

  lemma ParentTidy(r: Path)
    requires Tidy(r)
    ensures Tidy(Parent(r))
  {
  }

  /** One more element to clean does the same to r as to where r leads. */
  lemma OntoStep(h: Path, r: Path, x: string)
    requires Tidy(r)
    ensures Tidy(Clean(r, [x])) && Clean(Onto(h, r), [x]) == Onto(h, Clean(r, [x]))
  {
    hide Onto, Tidy;
    CleanStep(r, x);
    CleanStep(Onto(h, r), x);
    if x == ".." {
      OntoParent(h, r);
    } else if x != "" && x != "." {
      OntoBelow(h, r, x);
    }
  }

  lemma CleanStep(done: Path, x: string)
    ensures Clean(done, [x]) == if x == "" || x == "." then done else if x == ".." then Parent(done) else done + [x]
  {
    assert [x][1..] == [];
  }

  lemma CleanOne(done: Path, rest: seq<string>)
    requires rest != []
    ensures Clean(done, rest) == Clean(Clean(done, [rest[0]]), rest[1..])
  {
    assert [rest[0]][1..] == [];
  }

  /** Cleaning after h is cleaning on its own and then going there from h. */
  lemma {:induction false} CleanOnto(h: Path, r: Path, rest: seq<string>)
    requires Tidy(r)
    ensures Tidy(Clean(r, rest)) && Clean(Onto(h, r), rest) == Onto(h, Clean(r, rest))
    decreases |rest|
  {
    hide Onto, Tidy;
    if rest == [] {
      Cleaned(r);
      Cleaned(Onto(h, r));
    } else {
      CleanOne(r, rest);
      CleanOne(Onto(h, r), rest);
      OntoStep(h, r, rest[0]);
      CleanOnto(h, Clean(r, [rest[0]]), rest[1..]);
    }
  }

  lemma Cleaned(done: Path)
    ensures Clean(done, []) == done
  {
  }

  /**
   * The clean paths r and q lead to one directory from h: they are equal, or one of them
   * climbs further and comes down again through the directories of h.
   */
  predicate SameTarget(h: Path, r: Path, q: Path) {
    r == q || ComesBack(h, r, q) || ComesBack(h, q, r)
  }

  predicate ComesBack(h: Path, r: Path, q: Path) {
    && Climb(r) < Climb(q) <= |h| - Climb(h)
    && q[Climb(q)..] == h[|h| - Climb(q)..|h| - Climb(r)] + r[Climb(r)..]
  }

  lemma TargetsEqual(h: Path, r: Path, q: Path)
    requires Tidy(h) && Tidy(r) && Tidy(q)
    ensures Onto(h, r) == Onto(h, q) <==> SameTarget(h, r, q)
  {
    hide Up, Tidy;
    if Climb(r) == Climb(q) {
      var n := Climb(r);
      assert r == r[..n] + r[n..] && q == q[..n] + q[n..] && r[..n] == q[..n];
      assert Onto(h, r)[|Up(h, n)|..] == r[n..] && Onto(h, q)[|Up(h, n)|..] == q[n..];
    } else if Climb(r) < Climb(q) {
      TargetsDiffer(h, r, q);
    } else {
      TargetsDiffer(h, q, r);
    }
  }

  lemma TargetsDiffer(h: Path, r: Path, q: Path)
    requires Tidy(h) && Tidy(r) && Tidy(q) && Climb(r) < Climb(q)
    ensures Onto(h, r) == Onto(h, q) <==> ComesBack(h, r, q)
  {
    hide Onto, Tidy, Climb;
    if Climb(q) <= |h| - Climb(h) {
      TargetsWithin(h, r, q);
    } else {
      TargetsAbove(h, r, q);
    }
  }

  lemma TargetsWithin(h: Path, r: Path, q: Path)
    requires Tidy(h) && Climb(r) < Climb(q) <= |h| - Climb(h)
    ensures Onto(h, r) == Onto(h, q) <==> ComesBack(h, r, q)
  {
    hide Up, Tidy, Climb;
    var m, n := Climb(r), Climb(q);
    UpShape(h, m);
    UpShape(h, n);
    var between := h[|h| - n..|h| - m];
    assert h[..|h| - m] == h[..|h| - n] + between;
    assert Onto(h, r) == h[..|h| - n] + (between + r[m..]);
    assert Onto(h, r)[|h| - n..] == between + r[m..] && Onto(h, q)[|h| - n..] == q[n..];
  }

  /** The last ".." of one path stands where the other has none. */
  lemma TargetsAbove(h: Path, r: Path, q: Path)
    requires Tidy(h) && Tidy(r) && Climb(r) < Climb(q) && |h| - Climb(h) < Climb(q)
    ensures Onto(h, r) != Onto(h, q)
  {
    hide Up, Tidy, Climb;
    UpShape(h, Climb(r));
    UpShape(h, Climb(q));
    NothingAbove(h);
    NothingAbove(r);
    var i := |Up(h, Climb(q))| - 1;
    assert Onto(h, q)[i] == "..";
    assert i < |Onto(h, r)| ==> Onto(h, r)[i] != "..";
  }

  lemma CleanTargets(h: Path, xs: seq<string>, ys: seq<string>)
    requires Tidy(h)
    ensures Clean(h, xs) == Clean(h, ys) <==> SameTarget(h, Clean([], xs), Clean([], ys))
  {
    hide Onto, SameTarget;
    FromHere(h);
    CleanOnto(h, [], xs);
    CleanOnto(h, [], ys);
    TargetsEqual(h, Clean([], xs), Clean([], ys));
  }

  lemma FromHere(h: Path)
    ensures Onto(h, []) == h && Tidy([])
  {
  }

  /** The path of a key below the directory of all domains. */
  function RelativeKey(domain: string, name: string, t: nat): Path {
    Clean([], Split(domain) + Split(LastSegment(name, t)))
  }

  lemma BelowHead(base: Path, rest: seq<string>)
    requires CleanPath(base)
    ensures var head := base + ["domaindata"]; Tidy(head) && Clean([], head + rest) == Clean(head, rest)
  {
    var head := base + ["domaindata"];
    CleanHead(base);
    assert [] + head == head;
    CleanKeeps([], head, rest);
  }

  /**
   * Exactly when two messages share a directory, for all ids and names: their paths,
   * cleaned on their own, lead to one directory.
   */
  lemma DirPathsMeet(base: Path, d1: string, n1: string, t1: nat, d2: string, n2: string, t2: nat)
    requires CleanPath(base)
    ensures DirPath(base, d1, n1, t1) == DirPath(base, d2, n2, t2) <==>
      SameTarget(base + ["domaindata"], RelativeKey(d1, n1, t1), RelativeKey(d2, n2, t2))
  {
    hide LastSegment, SameTarget;
    var xs, ys := Split(d1) + Split(LastSegment(n1, t1)), Split(d2) + Split(LastSegment(n2, t2));
    KeySegments(base, d1, LastSegment(n1, t1));
    KeySegments(base, d2, LastSegment(n2, t2));
    BelowHead(base, xs);
    BelowHead(base, ys);
    CleanTargets(base + ["domaindata"], xs, ys);
  }

  lemma KeySegments(base: Path, domain: string, last: string)
    ensures base + SplitAll(["domaindata", domain, last]) == base + ["domaindata"] + (Split(domain) + Split(last))
  {
    hide Split;
    SplitPlain("domaindata");
    SplitAllOne(last);
    assert ["domaindata", domain, last][1..] == [domain, last] && [domain, last][1..] == [last];
    assert SplitAll([domain, last]) == Split(domain) + Split(last);
  }

  lemma SplitAllOne(s: string)
    ensures SplitAll([s]) == Split(s)
  {
    hide Split;
    assert [s][1..] == [] && Split(s) + [] == Split(s);
  }

  /** Exactly when a request for one id lists the directory of another. */
  lemma RootsMeet(base: Path, a: string, b: string)
    requires CleanPath(base)
    ensures DomainRoot(base, a) == DomainRoot(base, b) <==>
      SameTarget(base + ["domaindata"], Clean([], Split(a)), Clean([], Split(b)))
  {
    hide SameTarget, Split, Clean, CleanPath, SplitAll;
    SplitAllOne(a);
    SplitAllOne(b);
    BelowHead(base, Split(a));
    BelowHead(base, Split(b));
    CleanTargets(base + ["domaindata"], Split(a), Split(b));
  }

  lemma {:induction false} SplitJoined(a: string, b: string)
    ensures Split(a + "/" + b) == Split(a) + Split(b)
  {
    if a == [] {
      assert (a + "/" + b)[1..] == b && [""] + Split(b) == Split(a) + Split(b);
    } else {
      assert (a + "/" + b)[1..] == a[1..] + "/" + b;
      SplitJoined(a[1..], b);
    }
  }

  /** With slashes the keys are not injective: a slash can belong to the id or to the name. */
  lemma SlashMoves(base: Path, a: string, b: string, c: string, t: nat)
    requires CleanPath(base)
    ensures DirPath(base, a, b + "/" + c, t) == DirPath(base, a + "/" + b, c, t)
  {
    hide SameTarget, Split;
    SplitJoined(b, LastSegment(c, t));
    assert LastSegment(b + "/" + c, t) == b + "/" + LastSegment(c, t);
    SplitJoined(a, b);
    assert Split(a) + (Split(b) + Split(LastSegment(c, t))) == Split(a) + Split(b) + Split(LastSegment(c, t));
    DirPathsMeet(base, a, b + "/" + c, t, a + "/" + b, c, t);
    Itself(base + ["domaindata"], RelativeKey(a, b + "/" + c, t));
  }

  lemma Itself(h: Path, r: Path)
    ensures SameTarget(h, r, r)
  {
  }
}
