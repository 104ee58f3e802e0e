/**
 * DomainDataSubscribers: a map from pattern to a slice of streams, updated in place.
 * A slice is a backing array and a length; removal shifts elements inside the array.
 */
module Subscribers {

  type Stream = nat
  type Pattern = string
  type Registry = map<Pattern, seq<Stream>>

  // ----- The registry as a value ---------------------------------------------------------

  function Get(r: Registry, p: Pattern): seq<Stream> {
    if p in r then r[p] else []
  }

  function Added(r: Registry, p: Pattern, s: Stream): Registry {
    r[p := Get(r, p) + [s]]
  }

  /** xs without the first s; the others keep their order. */
  function WithoutFirst(xs: seq<Stream>, s: Stream): seq<Stream> {
    if xs == [] then []
    else if xs[0] == s then xs[1..]
    else [xs[0]] + WithoutFirst(xs[1..], s)
  }

  function Removed(r: Registry, p: Pattern, s: Stream): Registry {
    if p in r then r[p := WithoutFirst(r[p], s)] else r
  }

  function Flatten(r: Registry, order: seq<Pattern>): seq<Stream> {
    if order == [] then [] else Get(r, order[0]) + Flatten(r, order[1..])
  }

  /** order lists the patterns that match, each once. */
  ghost predicate Enumerates(order: seq<Pattern>, matching: set<Pattern>) {
    && (forall p :: p in order <==> p in matching)
    && forall i, j :: 0 <= i < j < |order| ==> order[i] != order[j]
  }

  lemma {:induction false} WithoutFirstCounts(xs: seq<Stream>, s: Stream)
    ensures multiset(WithoutFirst(xs, s)) == multiset(xs) - multiset{s}
  {
    if xs != [] {
      var rest := xs[1..];
      assert xs == [xs[0]] + rest;
      if xs[0] != s {
        WithoutFirstCounts(rest, s);
      }
    }
  }

  lemma {:induction false} WithoutFirstAt(xs: seq<Stream>, s: Stream, i: nat)
    requires i < |xs| && xs[i] == s && s !in xs[..i]
    ensures WithoutFirst(xs, s) == xs[..i] + xs[i + 1..]
  {
    if i > 0 {
      assert xs[0] == xs[..i][0];
      assert xs[1..][..i - 1] == xs[..i][1..];
      WithoutFirstAt(xs[1..], s, i - 1);
    }
  }

  lemma {:induction false} WithoutFirstAbsent(xs: seq<Stream>, s: Stream)
    requires s !in xs
    ensures WithoutFirst(xs, s) == xs
  {
    if xs != [] {
      assert xs[0] in xs && forall x :: x in xs[1..] ==> x in xs;
      WithoutFirstAbsent(xs[1..], s);
    }
  }

  // ----- Runs ----------------------------------------------------------------------------

  datatype Operation = Add(pattern: Pattern, stream: Stream) | Remove(pattern: Pattern, stream: Stream)

  function Apply(r: Registry, op: Operation): Registry {
    match op
    case Add(p, s) => Added(r, p, s)
    case Remove(p, s) => Removed(r, p, s)
  }

  function Run(ops: seq<Operation>): Registry {
    if ops == [] then map[] else Apply(Run(ops[..|ops| - 1]), ops[|ops| - 1])
  }

  /** The registrations that count: adding a pair, and taking one copy of it away. */
  function Pairs(ops: seq<Operation>): multiset<(Pattern, Stream)> {
    if ops == [] then multiset{}
    else
      var before, op := Pairs(ops[..|ops| - 1]), ops[|ops| - 1];
      if op.Add? then before + multiset{(op.pattern, op.stream)} else before - multiset{(op.pattern, op.stream)}
  }

  lemma ApplyCounts(r: Registry, op: Operation, p: Pattern, s: Stream)
    ensures var n, n' := multiset(Get(r, p))[s], multiset(Get(Apply(r, op), p))[s];
      if op.pattern != p || op.stream != s then n' == n
      else if op.Add? then n' == n + 1
      else n' == if n == 0 then 0 else n - 1
  {
    if op.pattern == p {
      if op.Remove? {
        WithoutFirstCounts(Get(r, p), op.stream);
      } else {
        assert multiset(Get(r, p) + [op.stream]) == multiset(Get(r, p)) + multiset{op.stream};
      }
    }
  }

  /** Any run of Add and Remove keeps the registry equal to a multiset of (pattern, stream) pairs. */
  lemma {:induction false} RegistryRefinesPairs(ops: seq<Operation>, p: Pattern, s: Stream)
    ensures multiset(Get(Run(ops), p))[s] == Pairs(ops)[(p, s)]
  {
    hide Apply;
    if ops != [] {
      RegistryRefinesPairs(ops[..|ops| - 1], p, s);
      ApplyCounts(Run(ops[..|ops| - 1]), ops[|ops| - 1], p, s);
    }
  }

  // ----- What FindSubscribers returns does not depend on map order -----------------------

  lemma {:induction false} FlattenAppend(r: Registry, a: seq<Pattern>, b: seq<Pattern>)
    ensures Flatten(r, a + b) == Flatten(r, a) + Flatten(r, b)
  {
    if a == [] {
      assert a + b == b;
    } else {
      assert (a + b)[1..] == a[1..] + b;
      FlattenAppend(r, a[1..], b);
    }
  }

  lemma TakenOut(r: Registry, b: seq<Pattern>, i: nat)
    requires i < |b|
    ensures multiset(Flatten(r, b)) == multiset(Get(r, b[i])) + multiset(Flatten(r, b[..i] + b[i + 1..]))
  {
    var front, back, one := b[..i], b[i + 1..], [b[i]];
    assert b == front + (one + back);
    FlattenAppend(r, front, one + back);
    FlattenAppend(r, front, back);
    assert (one + back)[1..] == back;
    var x, y, z := Flatten(r, front), Get(r, b[i]), Flatten(r, back);
    assert Flatten(r, b) == x + (y + z);
    assert Flatten(r, front + back) == x + z;
  }

  /** Whatever order Go iterates the map in, the streams found are the same multiset. */
  lemma {:induction false} OrderIrrelevant(r: Registry, a: seq<Pattern>, b: seq<Pattern>, matching: set<Pattern>)
    requires Enumerates(a, matching) && Enumerates(b, matching)
    ensures multiset(Flatten(r, a)) == multiset(Flatten(r, b))
    decreases |a|
  {
    hide Flatten, Get;
    EnumeratesSize(a, matching);
    EnumeratesSize(b, matching);
    if a == [] {
      assert b == [];
    } else {
      assert a[0] in b;
      var i :| 0 <= i < |b| && b[i] == a[0];
      TakenOut(r, a, 0);
      TakenOut(r, b, i);
      RestEnumerates(a, 0, matching);
      RestEnumerates(b, i, matching);
      OrderIrrelevant(r, a[..0] + a[1..], b[..i] + b[i + 1..], matching - {a[0]});
    }
  }

  ghost function Matching(patterns: set<Pattern>, matches: (Pattern, string) -> bool, key: string): set<Pattern> {
    set p | p in patterns && matches(p, key)
  }

  lemma MatchingOneMore(seen: set<Pattern>, matches: (Pattern, string) -> bool, key: string, p: Pattern)
    ensures Matching(seen + {p}, matches, key) ==
      if matches(p, key) then Matching(seen, matches, key) + {p} else Matching(seen, matches, key)
  {
  }

  lemma MatchingSeen(seen: set<Pattern>, matches: (Pattern, string) -> bool, key: string, p: Pattern)
    ensures p in Matching(seen, matches, key) ==> p in seen
  {
  }

  lemma NothingEnumerated(r: Registry, matches: (Pattern, string) -> bool, key: string)
    ensures Enumerates([], Matching({}, matches, key)) && Flatten(r, []) == []
  {
  }

  lemma EnumeratesOneMore(order: seq<Pattern>, matching: set<Pattern>, p: Pattern)
    requires Enumerates(order, matching) && p !in matching
    ensures Enumerates(order + [p], matching + {p})
  {
    assert p !in order;
  }

  lemma FlattenOneMore(r: Registry, order: seq<Pattern>, p: Pattern)
    ensures Flatten(r, order + [p]) == Flatten(r, order) + Get(r, p)
  {
    FlattenAppend(r, order, [p]);
    assert [p][1..] == [];
  }

  lemma {:induction false} EnumeratesSize(a: seq<Pattern>, matching: set<Pattern>)
    requires Enumerates(a, matching)
    ensures |a| == |matching|
    decreases |a|
  {
    if a == [] {
      assert matching == {};
    } else {
      assert a[0] in matching;
      RestEnumerates(a, 0, matching);
      EnumeratesSize(a[..0] + a[1..], matching - {a[0]});
    }
  }

  lemma RestEnumerates(a: seq<Pattern>, i: nat, matching: set<Pattern>)
    requires i < |a| && Enumerates(a, matching)
    ensures Enumerates(a[..i] + a[i + 1..], matching - {a[i]})
  {
    var rest := a[..i] + a[i + 1..];
    assert forall k :: 0 <= k < |rest| ==> rest[k] == if k < i then a[k] else a[k + 1];
    forall p
      ensures p in rest <==> p in matching - {a[i]}
    {
      if p in matching - {a[i]} {
        var k :| 0 <= k < |a| && a[k] == p;
        assert rest[if k < i then k else k - 1] == p;
      }
    }
  }

  // ----- The object ------------------------------------------------------------------------

  datatype Slice = Slice(data: array<Stream>, len: nat)

  class DomainDataSubscribers {
    var subscribers: map<Pattern, Slice>
    ghost var Repr: set<object>
    // Which pattern a backing array belongs to.
    ghost var owner: map<array<Stream>, Pattern>

    ghost predicate Valid()
      reads this, Repr
      ensures Valid() ==> this in Repr
    {
      && this in Repr
      && (forall p :: p in subscribers ==>
           subscribers[p].data in Repr && subscribers[p].len <= subscribers[p].data.Length)
      && (forall p :: p in subscribers ==> subscribers[p].data in owner && owner[subscribers[p].data] == p)
      && (forall a :: a in owner ==> a in Repr)
    }

    ghost function Contents(): Registry
      requires Valid()
      reads this, Repr
    {
      map p | p in subscribers :: subscribers[p].data[..subscribers[p].len]
    }

    constructor ()
      ensures Valid() && fresh(Repr) && Contents() == map[]
    {
      subscribers, owner := map[], map[];
      Repr := {this};
    }

    /** A larger backing array with the elements of slice in front. */
    static method Grown(slice: Slice) returns (data: array<Stream>)
      requires slice.len <= slice.data.Length
      ensures fresh(data) && data.Length == 2 * slice.len + 1
      ensures data[..slice.len] == slice.data[..slice.len]
    {
      data := new Stream[2 * slice.len + 1];
      var i := 0;
      while i < slice.len
        invariant 0 <= i <= slice.len && data[..i] == slice.data[..i]
      {
        data[i] := slice.data[i];
        i := i + 1;
      }
    }

    /** slice may stand for pattern: no other pattern uses its backing array. */
    ghost predicate Owned(pattern: Pattern, slice: Slice)
      reads this
    {
      && slice.data in Repr && slice.len <= slice.data.Length
      && (slice.data in owner ==> owner[slice.data] == pattern)
    }

    /** The map entry of pattern becomes slice. */
    method Put(pattern: Pattern, slice: Slice)
      requires Valid() && Owned(pattern, slice)
      modifies `subscribers, `owner
      ensures Valid() && subscribers == old(subscribers)[pattern := slice]
      ensures Contents() == old(Contents())[pattern := slice.data[..slice.len]]
    {
      subscribers := subscribers[pattern := slice];
      owner := owner[slice.data := pattern];
    }

    /** The slice of pattern, with room for one more element. */
    method Reserve(pattern: Pattern) returns (slice: Slice)
      requires Valid()
      modifies `Repr
      ensures Valid() && fresh(Repr - old(Repr)) && old(Repr) <= Repr && Owned(pattern, slice)
      ensures Contents() == old(Contents())
      ensures slice.len < slice.data.Length && slice.data[..slice.len] == Get(Contents(), pattern)
    {
      if pattern in subscribers {
        slice := subscribers[pattern];
      } else {
        var none := new Stream[0];
        slice := Slice(none, 0);
      }
      if slice.len == slice.data.Length {
        var data := Grown(slice);
        slice := Slice(data, slice.len);
        Repr := Repr + {data};
      }
    }

    /** The element goes behind those of slice, where no entry of the map looks. */
    method StoreNext(pattern: Pattern, slice: Slice, s: Stream)
      requires Valid() && Owned(pattern, slice) && slice.len < slice.data.Length
      requires slice.data[..slice.len] == Get(Contents(), pattern)
      modifies slice.data
      ensures Valid() && Owned(pattern, slice) && Contents() == old(Contents())
      ensures slice.data[..slice.len + 1] == old(slice.data[..slice.len]) + [s]
    {
      slice.data[slice.len] := s;
      forall p | p in subscribers
        ensures subscribers[p].data[..subscribers[p].len] == old(subscribers[p].data[..subscribers[p].len])
      {
        if subscribers[p].data == slice.data {
          assert p == pattern && |Get(old(Contents()), p)| == subscribers[p].len;
        }
      }
    }

    /** append: in place while the backing array has room, else into a larger copy. */
    method AddSubscriber(pattern: Pattern, s: Stream)
      requires Valid()
      modifies Repr
      ensures Valid() && fresh(Repr - old(Repr))
      ensures Contents() == Added(old(Contents()), pattern, s)
    {
      var slice := Reserve(pattern);
      StoreNext(pattern, slice, s);
      Put(pattern, Slice(slice.data, slice.len + 1));
    }

    /** The position of the first s, or the length when there is none. */
    static method IndexOf(slice: Slice, s: Stream) returns (i: nat)
      requires slice.len <= slice.data.Length
      ensures i <= slice.len && s !in slice.data[..i]
      ensures i < slice.len ==> slice.data[i] == s
    {
      i := 0;
      while i < slice.len && slice.data[i] != s
        invariant 0 <= i <= slice.len && s !in slice.data[..i]
      {
        assert slice.data[..i + 1] == slice.data[..i] + [slice.data[i]];
        i := i + 1;
      }
    }

    /** append(x[:i], x[i+1:]...) on the backing array; its last element stays behind, unused. */
    static method ShiftDown(slice: Slice, i: nat)
      requires i < slice.len <= slice.data.Length
      modifies slice.data
      ensures slice.data[..slice.len - 1] == old(slice.data[..i] + slice.data[i + 1..slice.len])
    {
      var k := i;
      while k < slice.len - 1
        invariant i <= k < slice.len
        invariant forall j :: 0 <= j < slice.data.Length && !(i <= j < k) ==> slice.data[j] == old(slice.data[j])
        invariant forall j :: i <= j < k ==> slice.data[j] == old(slice.data[j + 1])
      {
        slice.data[k] := slice.data[k + 1];
        k := k + 1;
      }
    }

    /** The first occurrence is cut out by shifting the rest of the backing array down. */
    method RemoveSubscriber(pattern: Pattern, s: Stream)
      requires Valid()
      modifies Repr
      ensures Valid() && Repr == old(Repr)
      ensures Contents() == Removed(old(Contents()), pattern, s)
    {
      hide WithoutFirst;
      if pattern in subscribers {
        var slice := subscribers[pattern];
        ghost var xs := slice.data[..slice.len];
        var i := IndexOf(slice, s);
        assert xs[..i] == slice.data[..i] && xs[i..] == slice.data[i..slice.len];
        if i < slice.len {
          WithoutFirstAt(xs, s, i);
          CutOut(pattern, slice, i, WithoutFirst(xs, s));
        } else {
          WithoutFirstAbsent(xs, s);
          assert Contents() == Contents()[pattern := xs];
        }
      }
    }

    method CutOut(pattern: Pattern, slice: Slice, i: nat, ghost rest: seq<Stream>)
      requires Valid() && pattern in subscribers && slice == subscribers[pattern] && i < slice.len
      requires rest == slice.data[..i] + slice.data[i + 1..slice.len]
      modifies this`subscribers, slice.data
      ensures Valid() && Contents() == old(Contents())[pattern := rest]
    {
      ShiftDown(slice, i);
      subscribers := subscribers[pattern := Slice(slice.data, slice.len - 1)];
    }

    /** A new slice with the streams of every matching pattern, in the order the map is visited. */
    method FindSubscribers(key: string, matches: (Pattern, string) -> bool)
      returns (streams: array<Stream>, ghost order: seq<Pattern>)
      requires Valid()
      ensures fresh(streams)
      ensures Enumerates(order, Matching(Contents().Keys, matches, key))
      ensures streams[..] == Flatten(Contents(), order)
    {
      hide Enumerates, Flatten, Matching;
      ghost var r := Contents();
      var found: seq<Stream> := [];
      order := [];
      NothingEnumerated(r, matches, key);
      var todo := subscribers.Keys;
      ghost var seen: set<Pattern> := {};
      while todo != {}
        invariant todo + seen == r.Keys && todo !! seen
        invariant Enumerates(order, Matching(seen, matches, key))
        invariant found == Flatten(r, order)
        decreases todo
      {
        var p :| p in todo;
        todo := todo - {p};
        if matches(p, key) {
          assert subscribers[p].data[..subscribers[p].len] == Get(r, p);
          MatchingSeen(seen, matches, key, p);
          EnumeratesOneMore(order, Matching(seen, matches, key), p);
          FlattenOneMore(r, order, p);
          found := found + subscribers[p].data[..subscribers[p].len];
          order := order + [p];
        }
        MatchingOneMore(seen, matches, key, p);
        seen := seen + {p};
      }
      assert seen == r.Keys;
      streams := new Stream[|found|](i requires 0 <= i < |found| => found[i]);
      assert streams[..] == found;
    }
  }

  function ApplyAll(r: Registry, ops: seq<Operation>): Registry {
    if ops == [] then r else Apply(ApplyAll(r, ops[..|ops| - 1]), ops[|ops| - 1])
  }

  /** A result already returned is a snapshot: whatever is added and removed later leaves it alone. */
  method FoundStreamsAreKept(d: DomainDataSubscribers, key: string, matches: (Pattern, string) -> bool,
                             ops: seq<Operation>)
    returns (streams: array<Stream>)
    requires d.Valid()
    modifies d.Repr
    ensures exists order :: Enumerates(order, Matching(old(d.Contents()).Keys, matches, key))
                       && streams[..] == Flatten(old(d.Contents()), order)
    ensures d.Valid() && d.Contents() == ApplyAll(old(d.Contents()), ops)
  {
    hide Added, Removed;
    ghost var order;
    streams, order := d.FindSubscribers(key, matches);
    ghost var found, start := streams[..], d.Contents();
    var i := 0;
    while i < |ops|
      invariant 0 <= i <= |ops| && d.Valid() && streams !in d.Repr && fresh(d.Repr - old(d.Repr))
      invariant streams[..] == found && d.Contents() == ApplyAll(start, ops[..i])
    {
      assert ops[..i + 1][..i] == ops[..i];
      match ops[i] {
        case Add(p, s) => d.AddSubscriber(p, s);
        case Remove(p, s) => d.RemoveSubscriber(p, s);
      }
      i := i + 1;
    }
    assert ops[..i] == ops;
  }
}
