/**
 * The event loop of the Rust node: a count of discovered peers, a gate that lets one
 * announcement out, and the announcements heard from others.
 */
module PublishGate {
  import opened Wrappers
  import opened LittleEndian

  type PeerId = nat
  type Address = nat
  type Pair = (PeerId, Address)

  datatype Node = Node(id: PeerId, name: string, nodeTypes: seq<string>, capabilities: seq<string>)

  /** Tick carries the result publishing would have; Other is any event the loop ignores. */
  datatype Event =
    | Tick(accepted: bool)
    | Discovered(list: seq<Pair>)
    | Expired(list: seq<Pair>)
    | Message(data: Buffer)
    | Other

  type Decoder = Buffer -> Option<Node>

  datatype State = State(connectedPeers: int, published: bool, explicitPeers: set<PeerId>, nodes: map<PeerId, Node>)

  function PeersOf(list: seq<Pair>): set<PeerId> {
    set x | x in list :: x.0
  }

  function Next(dec: Decoder, st: State, e: Event): State {
    match e
    case Tick(accepted) => if st.connectedPeers >= 1 && !st.published && accepted then st.(published := true) else st
    case Discovered(list) =>
      st.(connectedPeers := st.connectedPeers + |list|, explicitPeers := st.explicitPeers + PeersOf(list))
    case Expired(list) =>
      st.(connectedPeers := st.connectedPeers - |list|, explicitPeers := st.explicitPeers - PeersOf(list))
    case Message(data) =>
      if dec(data).Some? then st.(nodes := st.nodes[dec(data).value.id := dec(data).value]) else st
    case Other => st
  }

  function Run(dec: Decoder, events: seq<Event>): State {
    if events == [] then State(0, false, {}, map[])
    else Next(dec, Run(dec, events[..|events| - 1]), events[|events| - 1])
  }

  class EventLoop {
    const dec: Decoder
    var connectedPeers: int
    var published: bool
    var explicitPeers: set<PeerId>
    var nodes: map<PeerId, Node>

    constructor (dec: Decoder)
      ensures this.dec == dec && Now() == Run(dec, [])
    {
      this.dec, connectedPeers, published, explicitPeers, nodes := dec, 0, false, {}, map[];
    }

    function Now(): State
      reads this
    {
      State(connectedPeers, published, explicitPeers, nodes)
    }

    /** One round of the select loop; sent tells whether an announcement went out. */
    method OnEvent(e: Event) returns (sent: bool)
      modifies this
      ensures Now() == Next(dec, old(Now()), e)
      ensures sent == (e.Tick? && e.accepted && old(connectedPeers) >= 1 && !old(published))
    {
      sent := false;
      match e {
        case Tick(accepted) =>
          if connectedPeers >= 1 && !published {
            if accepted {
              published := true;
              sent := true;
            }
          }
        case Discovered(list) =>
          var i := 0;
          while i < |list|
            invariant 0 <= i <= |list|
            invariant Now() == Next(dec, old(Now()), Discovered(list[..i]))
          {
            assert list[..i + 1] == list[..i] + [list[i]];
            explicitPeers := explicitPeers + {list[i].0};
            connectedPeers := connectedPeers + 1;
            i := i + 1;
          }
          assert list[..i] == list;
        case Expired(list) =>
          var i := 0;
          while i < |list|
            invariant 0 <= i <= |list|
            invariant Now() == Next(dec, old(Now()), Expired(list[..i]))
          {
            assert list[..i + 1] == list[..i] + [list[i]];
            explicitPeers := explicitPeers - {list[i].0};
            connectedPeers := connectedPeers - 1;
            i := i + 1;
          }
          assert list[..i] == list;
        case Message(data) =>
          var node := dec(data);
          if node.Some? {
            nodes := nodes[node.value.id := node.value];
          }
        case Other =>
      }
    }

    /** The loop over a finite stretch of events. */
    method Handle(events: seq<Event>) returns (sends: seq<nat>)
      requires Now() == Run(dec, [])
      modifies this
      ensures Now() == Run(dec, events)
      ensures forall i: nat :: i in sends <==> i < |events| && Sends(dec, events, i)
    {
      sends := [];
      var i := 0;
      while i < |events|
        invariant 0 <= i <= |events| && Now() == Run(dec, events[..i])
        invariant forall k: nat :: k in sends <==> k < i && Sends(dec, events, k)
      {
        assert events[..i + 1][..i] == events[..i];
        var sent := OnEvent(events[i]);
        if sent {
          sends := sends + [i];
        }
        i := i + 1;
      }
      assert events[..i] == events;
    }
  }

  // ----- The peer count ---------------------------------------------------------------------

  /** The (peer, address) pairs mDNS has reported and not withdrawn. */
  function Live(events: seq<Event>): set<Pair> {
    if events == [] then {}
    else
      var before, e := Live(events[..|events| - 1]), events[|events| - 1];
      if e.Discovered? then before + (set x | x in e.list)
      else if e.Expired? then before - (set x | x in e.list)
      else before
  }

  predicate Distinct(list: seq<Pair>) {
    forall i, j :: 0 <= i < j < |list| ==> list[i] != list[j]
  }

  /** mDNS reports absent pairs as discovered and present ones as expired, each once. */
  predicate HonestEvent(live: set<Pair>, e: Event) {
    && (e.Discovered? ==> Distinct(e.list) && forall x :: x in e.list ==> x !in live)
    && (e.Expired? ==> Distinct(e.list) && forall x :: x in e.list ==> x in live)
  }

  /** Every event so far was honest about the pairs live before it. */
  predicate Honest(events: seq<Event>) {
    events == [] ||
    var init := events[..|events| - 1];
    Honest(init) && HonestEvent(Live(init), events[|events| - 1])
  }

  /** The count is right now and was at every earlier event boundary. */
  predicate CountRight(dec: Decoder, events: seq<Event>) {
    && Run(dec, events).connectedPeers == |Live(events)|
    && (events != [] ==> CountRight(dec, events[..|events| - 1]))
  }

  lemma {:induction false} SetSize(list: seq<Pair>)
    ensures var s := set x | x in list; |s| <= |list| && (|s| == |list| <==> Distinct(list))
  {
    if list != [] {
      var init, last := list[..|list| - 1], list[|list| - 1];
      SetSize(init);
      var s := set x | x in init;
      assert list == init + [last];
      assert (set x | x in list) == s + {last};
      if last in s {
        var i :| 0 <= i < |init| && init[i] == last;
        assert list[i] == list[|list| - 1];
      } else if Distinct(init) {
        forall i, j | 0 <= i < j < |list|
          ensures list[i] != list[j]
        {
          assert list[i] in s;
          assert j < |init| ==> list[j] == init[j] && list[i] == init[i];
        }
      }
    }
  }

  lemma UnionSize(a: set<Pair>, b: set<Pair>)
    ensures |a + b| == |a| + |b| <==> a !! b
    ensures |a + b| <= |a| + |b|
  {
    assert a + b == a + (b - a);
    assert |a + b| == |a| + |b - a|;
    assert |b| == |b - a| + |a * b| by {
      assert b == (b - a) + a * b;
    }
  }

  lemma DifferenceSize(a: set<Pair>, b: set<Pair>)
    ensures |a - b| == |a| - |b| <==> b <= a
    ensures |a - b| >= |a| - |b|
  {
    assert a == (a - b) + a * b;
    assert |a| == |a - b| + |a * b|;
    assert b == (b - a) + a * b;
    assert |b| == |b - a| + |a * b|;
    if |b - a| == 0 {
      assert b - a == {};
      assert b <= a;
    }
  }

  /** From a right count, an event leaves a right count exactly when it is honest. */
  lemma CountStep(live: set<Pair>, e: Event)
    ensures var size := |if e.Discovered? then live + (set x | x in e.list)
                         else if e.Expired? then live - (set x | x in e.list) else live|;
      HonestEvent(live, e) <==>
        size == if e.Discovered? then |live| + |e.list| else if e.Expired? then |live| - |e.list| else |live|
  {
    if e.Discovered? || e.Expired? {
      var s := set x | x in e.list;
      SetSize(e.list);
      UnionSize(live, s);
      DifferenceSize(live, s);
      assert (forall x :: x in e.list ==> x !in live) <==> live !! s;
      assert (forall x :: x in e.list ==> x in live) <==> s <= live;
    }
  }

  /**
   * connected_peers is the number of live pairs at every event boundary exactly when
   * mDNS is honest throughout.
   */
  lemma {:induction false} CountRightIffHonest(dec: Decoder, events: seq<Event>)
    ensures CountRight(dec, events) <==> Honest(events)
  {
    hide HonestEvent;
    if events != [] {
      var init := events[..|events| - 1];
      CountRightIffHonest(dec, init);
      CountStep(Live(init), events[|events| - 1]);
    }
  }

  // ----- Explicit peers ------------------------------------------------------------------------

  /** The last event that names p is a discovery. */
  predicate LastSeen(events: seq<Event>, p: PeerId) {
    events != [] &&
    var e := events[|events| - 1];
    if e.Discovered? && p in PeersOf(e.list) then true
    else if e.Expired? && p in PeersOf(e.list) then false
    else LastSeen(events[..|events| - 1], p)
  }

  lemma {:induction false} ExplicitIffLastSeen(dec: Decoder, events: seq<Event>, p: PeerId)
    ensures p in Run(dec, events).explicitPeers <==> LastSeen(events, p)
  {
    if events != [] {
      ExplicitIffLastSeen(dec, events[..|events| - 1], p);
    }
  }

  lemma Named(list: seq<Pair>, x: Pair)
    ensures x in list ==> x.0 in PeersOf(list)
  {
  }

  /** Every explicit peer has a live address: dropping a pair drops its whole peer. */
  lemma {:induction false} ExplicitPeersLive(dec: Decoder, events: seq<Event>, p: PeerId)
    requires p in Run(dec, events).explicitPeers
    ensures exists a :: (p, a) in Live(events)
  {
    var init, e := events[..|events| - 1], events[|events| - 1];
    if e.Discovered? && p in PeersOf(e.list) {
      var x :| x in e.list && x.0 == p;
      assert (p, x.1) in Live(events);
    } else {
      ExplicitPeersLive(dec, init, p);
      var a :| (p, a) in Live(init);
      if e.Expired? {
        Named(e.list, (p, a));
      }
      assert (p, a) in Live(events);
    }
  }

  lemma {:induction false} PeersNoMoreThanPairs(peers: set<PeerId>, pairs: set<Pair>)
    requires forall p :: p in peers ==> exists a :: (p, a) in pairs
    ensures |peers| <= |pairs|
  {
    if peers != {} {
      var p :| p in peers;
      var a :| (p, a) in pairs;
      forall q | q in peers - {p}
        ensures exists b :: (q, b) in pairs - {(p, a)}
      {
        var b :| (q, b) in pairs;
        assert (q, b) in pairs - {(p, a)};
      }
      PeersNoMoreThanPairs(peers - {p}, pairs - {(p, a)});
    }
  }

  /** Under an honest mDNS the count is at least the number of explicit peers. */
  lemma CountCoversExplicit(dec: Decoder, events: seq<Event>)
    requires Honest(events)
    ensures Run(dec, events).connectedPeers >= |Run(dec, events).explicitPeers|
  {
    CountRightIffHonest(dec, events);
    forall p | p in Run(dec, events).explicitPeers
      ensures exists a :: (p, a) in Live(events)
    {
      ExplicitPeersLive(dec, events, p);
    }
    PeersNoMoreThanPairs(Run(dec, events).explicitPeers, Live(events));
  }

  /** The two can differ: one of two addresses expires, and the peer is no longer explicit. */
  lemma ExplicitMayLag(dec: Decoder)
    ensures exists events :: Honest(events) && |Live(events)| == 1 && Run(dec, events).explicitPeers == {}
  {
    hide Run, Live, PeersOf;
    var a, b: Pair := (0, 0), (0, 1);
    var first := [Discovered([a, b])];
    var both := first + [Expired([a])];
    NoneLive();
    LiveOf(a, b);
    PeersGone(dec, a, b);
    assert first[..0] == [] && both[..1] == first;
    assert Honest([]) && Honest(first) && Honest(both);
  }

  lemma NoneLive()
    ensures Live([]) == {}
  {
  }

  lemma PeersGone(dec: Decoder, a: Pair, b: Pair)
    requires a.0 == b.0
    ensures Run(dec, [Discovered([a, b])] + [Expired([a])]).explicitPeers == {}
  {
    var first := [Discovered([a, b])];
    assert (first + [Expired([a])])[..1] == first && first[..0] == [];
    Named([a], a);
    Named([a, b], a);
    assert PeersOf([a]) == {a.0} && PeersOf([a, b]) == {a.0};
    assert Run(dec, []).explicitPeers == {};
    assert Run(dec, first).explicitPeers == {a.0};
  }

  lemma LiveOf(a: Pair, b: Pair)
    requires a != b
    ensures var first := [Discovered([a, b])]; Live(first) == {a, b} && Live(first + [Expired([a])]) == {b}
  {
    var first := [Discovered([a, b])];
    var both := first + [Expired([a])];
    assert both[..1] == first && first[..0] == [];
    assert (set x | x in [a, b]) == {a, b} && (set x | x in [a]) == {a};
    assert {a, b} - {a} == {b};
  }

  // ----- The gate ---------------------------------------------------------------------------------

  /** Event i makes the loop publish successfully. */
  predicate Sends(dec: Decoder, events: seq<Event>, i: nat)
    requires i < |events|
  {
    var st := Run(dec, events[..i]);
    events[i].Tick? && events[i].accepted && st.connectedPeers >= 1 && !st.published
  }

  lemma SendsEarlier(dec: Decoder, events: seq<Event>, m: nat, i: nat)
    requires i < m <= |events|
    ensures Sends(dec, events[..m], i) <==> Sends(dec, events, i)
  {
    hide Run;
    assert events[..m][..i] == events[..i];
  }

  /** The gate is shut exactly when an announcement has gone out. */
  lemma {:induction false} PublishedIffSent(dec: Decoder, events: seq<Event>)
    ensures Run(dec, events).published <==> exists i :: 0 <= i < |events| && Sends(dec, events, i)
  {
    if events != [] {
      var n := |events| - 1;
      var init := events[..n];
      PublishedIffSent(dec, init);
      assert Run(dec, events).published <==> Run(dec, init).published || Sends(dec, events, n);
      PublishedBySplit(dec, events);
    }
  }

  lemma PublishedBySplit(dec: Decoder, events: seq<Event>)
    requires events != []
    ensures var n := |events| - 1;
      (exists i :: 0 <= i < |events| && Sends(dec, events, i)) <==>
        Sends(dec, events, n) || exists i :: 0 <= i < n && Sends(dec, events[..n], i)
  {
    hide Run, Sends;
    var n := |events| - 1;
    forall i: nat | i < n
      ensures Sends(dec, events[..n], i) <==> Sends(dec, events, i)
    {
      SendsEarlier(dec, events, n, i);
    }
  }

  /**
   * At most one announcement ever goes out: on the first tick that finds a positive
   * count and is accepted. Ticks before it found no peer or were refused.
   */
  lemma SentOnce(dec: Decoder, events: seq<Event>, i: nat, j: nat)
    requires i < |events| && j < |events| && Sends(dec, events, i)
    ensures Sends(dec, events, j) ==> j == i
    ensures j < i && events[j].Tick? ==> Run(dec, events[..j]).connectedPeers < 1 || !events[j].accepted
  {
    var k, m := if i < j then i else j, if i < j then j else i;
    assert events[..m][..k] == events[..k];
    if k < m && events[k].Tick? && events[k].accepted && Run(dec, events[..k]).connectedPeers >= 1 {
      PublishedIffSent(dec, events[..k]);
      PublishedIffSent(dec, events[..m]);
      assert events[..k + 1][..k] == events[..k];
      assert Run(dec, events[..k + 1]).published;
      ShutStays(dec, events, k + 1, m);
    }
  }

  lemma {:induction false} ShutStays(dec: Decoder, events: seq<Event>, i: nat, j: nat)
    requires i <= j <= |events| && Run(dec, events[..i]).published
    ensures Run(dec, events[..j]).published
    decreases j
  {
    if i < j {
      ShutStays(dec, events, i, j - 1);
      assert events[..j][..j - 1] == events[..j - 1];
    }
  }

  // ----- Announcements heard -------------------------------------------------------------------------

  /** The last valid announcement of p. */
  function LastHeard(dec: Decoder, events: seq<Event>, p: PeerId): Option<Node> {
    if events == [] then None
    else
      var e := events[|events| - 1];
      if e.Message? && dec(e.data).Some? && dec(e.data).value.id == p then dec(e.data)
      else LastHeard(dec, events[..|events| - 1], p)
  }

  lemma {:induction false} NodesHoldLastHeard(dec: Decoder, events: seq<Event>, p: PeerId)
    ensures var nodes := Run(dec, events).nodes;
      LastHeard(dec, events, p) == if p in nodes then Some(nodes[p]) else None
  {
    if events != [] {
      NodesHoldLastHeard(dec, events[..|events| - 1], p);
    }
  }
}
