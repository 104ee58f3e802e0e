/** The neighbour table of a node: announcements add, leaves delete, self is never added. */
module Neighbours {
  import opened Wrappers
  import opened LittleEndian

  type PeerId = nat

  datatype NodeInfo = NodeInfo(id: PeerId, name: string, types: seq<string>)

  type Table = map<PeerId, NodeInfo>
  type Decoder = Buffer -> Option<NodeInfo>

  datatype Event = Announced(data: Buffer) | Left(peer: PeerId) | OtherPeerEvent

  /** AddNode keeps what is there. */
  function Added(t: Table, n: NodeInfo): Table {
    if n.id in t then t else t[n.id := n]
  }

  function Next(dec: Decoder, self: PeerId, t: Table, e: Event): Table {
    match e
    case Announced(data) => if dec(data).Some? && dec(data).value.id != self then Added(t, dec(data).value) else t
    case Left(p) => t - {p}
    case OtherPeerEvent => t
  }

  function Run(dec: Decoder, self: PeerId, events: seq<Event>): Table {
    if events == [] then map[]
    else Next(dec, self, Run(dec, self, events[..|events| - 1]), events[|events| - 1])
  }

  // ----- History ------------------------------------------------------------------------

  /** Event e announces p to a node that is not p. */
  predicate Announces(dec: Decoder, self: PeerId, e: Event, p: PeerId) {
    e.Announced? && dec(e.data).Some? && dec(e.data).value.id == p && p != self
  }

  /** Event i is the first announcement of p after the last time p left. */
  predicate FirstSinceLeft(dec: Decoder, self: PeerId, events: seq<Event>, p: PeerId, i: nat) {
    && i < |events| && Announces(dec, self, events[i], p)
    && (forall j :: i < j < |events| ==> events[j] != Left(p))
    && (forall j :: 0 <= j < i && Announces(dec, self, events[j], p) ==> exists k :: j < k < i && events[k] == Left(p))
  }

  /** The same event, found by going through the history once. */
  function FirstKept(dec: Decoder, self: PeerId, events: seq<Event>, p: PeerId): (r: Option<nat>)
    ensures r.Some? ==> r.value < |events| && Announces(dec, self, events[r.value], p)
  {
    if events == [] then None
    else
      var n := |events| - 1;
      var before := FirstKept(dec, self, events[..n], p);
      if events[n] == Left(p) then None
      else if before.Some? then before
      else if Announces(dec, self, events[n], p) then Some(n)
      else None
  }

  lemma {:induction false} TableIsFirstKept(dec: Decoder, self: PeerId, events: seq<Event>, p: PeerId)
    ensures var t, first := Run(dec, self, events), FirstKept(dec, self, events, p);
      (p in t <==> first.Some?) && (p in t ==> Some(t[p]) == dec(events[first.value].data))
  {
    if events != [] {
      TableIsFirstKept(dec, self, events[..|events| - 1], p);
    }
  }

  predicate StillThere(events: seq<Event>, p: PeerId, i: nat) {
    forall j :: i < j < |events| ==> events[j] != Left(p)
  }

  lemma {:induction false} SomeFirst(dec: Decoder, self: PeerId, events: seq<Event>, p: PeerId, i: nat)
    requires i < |events| && Announces(dec, self, events[i], p) && StillThere(events, p, i)
    ensures exists k: nat :: FirstSinceLeft(dec, self, events, p, k)
    decreases i
  {
    if j: nat :| j < i && Announces(dec, self, events[j], p) && forall k :: j < k < i ==> events[k] != Left(p) {
      SomeFirst(dec, self, events, p, j);
    } else {
      assert FirstSinceLeft(dec, self, events, p, i);
    }
  }

  lemma EarlierFirst(dec: Decoder, self: PeerId, events: seq<Event>, p: PeerId, i: nat)
    requires events != [] && events[|events| - 1] != Left(p) && i < |events| - 1
    ensures FirstSinceLeft(dec, self, events, p, i) <==> FirstSinceLeft(dec, self, events[..|events| - 1], p, i)
  {
    var init := events[..|events| - 1];
    assert forall j :: 0 <= j < |init| ==> init[j] == events[j];
    if FirstSinceLeft(dec, self, events, p, i) {
      forall j | 0 <= j < i && Announces(dec, self, init[j], p)
        ensures exists k :: j < k < i && init[k] == Left(p)
      {
        var k :| j < k < i && events[k] == Left(p);
        assert init[k] == Left(p);
      }
    }
    if FirstSinceLeft(dec, self, init, p, i) {
      forall j | 0 <= j < i && Announces(dec, self, events[j], p)
        ensures exists k :: j < k < i && events[k] == Left(p)
      {
        assert Announces(dec, self, init[j], p);
        var k :| j < k < i && init[k] == Left(p);
        assert events[k] == Left(p);
      }
    }
  }

  lemma LatestFirst(dec: Decoder, self: PeerId, events: seq<Event>, init: seq<Event>, p: PeerId)
    requires events != [] && init == events[..|events| - 1] && Announces(dec, self, events[|events| - 1], p)
    requires forall k: nat :: !FirstSinceLeft(dec, self, init, p, k)
    ensures FirstSinceLeft(dec, self, events, p, |events| - 1)
  {
    var n := |events| - 1;
    forall j | 0 <= j < n && Announces(dec, self, events[j], p)
      ensures exists k :: j < k < n && events[k] == Left(p)
    {
      if StillThere(init, p, j) {
        assert Announces(dec, self, init[j], p);
        SomeFirst(dec, self, init, p, j);
      } else {
        var k :| j < k < |init| && init[k] == Left(p);
        assert events[k] == Left(p);
      }
    }
  }

  lemma {:induction false} FirstKeptIsFirstSinceLeft(dec: Decoder, self: PeerId, events: seq<Event>, p: PeerId)
    ensures forall i: nat :: FirstSinceLeft(dec, self, events, p, i) <==> FirstKept(dec, self, events, p) == Some(i)
  {
    if events != [] {
      var n := |events| - 1;
      var init := events[..n];
      FirstKeptIsFirstSinceLeft(dec, self, init, p);
      forall i: nat
        ensures FirstSinceLeft(dec, self, events, p, i) <==> FirstKept(dec, self, events, p) == Some(i)
      {
        if events[n] == Left(p) {
          assert i < n ==> !StillThere(events, p, i);
        } else if i < n {
          EarlierFirst(dec, self, events, p, i);
        } else if i == n && Announces(dec, self, events[n], p) {
          var before := FirstKept(dec, self, init, p);
          if before.Some? {
            assert FirstSinceLeft(dec, self, init, p, before.value);
            assert Announces(dec, self, events[before.value], p);
            assert forall k :: before.value < k < n ==> init[k] == events[k];
          } else {
            LatestFirst(dec, self, events, init, p);
          }
        }
      }
    }
  }

  /**
   * After any history, p is in the table exactly when it was announced since it last
   * left, and then with the first of those announcements. The node itself never is.
   */
  lemma TableIsFirstSinceLeft(dec: Decoder, self: PeerId, events: seq<Event>, p: PeerId)
    ensures var t := Run(dec, self, events);
      && (p in t <==> exists i: nat :: FirstSinceLeft(dec, self, events, p, i))
      && (forall i: nat :: FirstSinceLeft(dec, self, events, p, i) ==> Some(t[p]) == dec(events[i].data))
    ensures self !in Run(dec, self, events)
  {
    hide FirstSinceLeft;
    TableIsFirstKept(dec, self, events, p);
    FirstKeptIsFirstSinceLeft(dec, self, events, p);
    TableIsFirstKept(dec, self, events, self);
  }

  // ----- FindNodes -----------------------------------------------------------------------

  function Times(types: seq<string>, t: string): nat {
    if types == [] then 0 else (if types[0] == t then 1 else 0) + Times(types[1..], t)
  }

  lemma {:induction false} TimesMore(types: seq<string>, more: string, t: string)
    ensures Times(types + [more], t) == Times(types, t) + if more == t then 1 else 0
  {
    if types == [] {
      assert types + [more] == [more] && [more][1..] == [];
    } else {
      assert (types + [more])[1..] == types[1..] + [more];
      TimesMore(types[1..], more, t);
    }
  }

  /** Every entry is under its own id. */
  predicate OwnIds(t: Table) {
    forall p :: p in t ==> t[p].id == p
  }

  class Node {
    const id: PeerId
    const dec: Decoder
    var neighbors: Table

    constructor (id: PeerId, dec: Decoder)
      ensures this.id == id && this.dec == dec && neighbors == Run(dec, id, [])
    {
      this.id, this.dec, neighbors := id, dec, map[];
    }

    method AddNode(node: NodeInfo)
      modifies this
      ensures neighbors == Added(old(neighbors), node)
    {
      if node.id !in neighbors {
        neighbors := neighbors[node.id := node];
      }
    }

    /** One round of the leave loop or of the receive loop. */
    method OnEvent(e: Event)
      modifies this
      ensures neighbors == Next(dec, id, old(neighbors), e)
    {
      match e {
        case Announced(data) =>
          var neighbour := dec(data);
          if neighbour.Some? && neighbour.value.id != id {
            AddNode(neighbour.value);
          }
        case Left(p) =>
          neighbors := neighbors - {p};
        case OtherPeerEvent =>
      }
    }

    /** Every id as often as the type occurs among its types, whatever order the map is visited in. */
    method FindNodes(nodeType: string) returns (nodes: seq<PeerId>)
      requires OwnIds(neighbors)
      ensures forall p :: multiset(nodes)[p] == if p in neighbors then Times(neighbors[p].types, nodeType) else 0
    {
      nodes := [];
      var todo := neighbors.Keys;
      ghost var done: set<PeerId> := {};
      while todo != {}
        invariant done + todo == neighbors.Keys && done !! todo
        invariant forall p :: multiset(nodes)[p] == if p in done then Times(neighbors[p].types, nodeType) else 0
      {
        var k :| k in todo;
        todo := todo - {k};
        var node := neighbors[k];
        ghost var found := nodes;
        var i := 0;
        while i < |node.types|
          invariant 0 <= i <= |node.types|
          invariant forall p ::
            multiset(nodes)[p] == multiset(found)[p] + if p == k then Times(node.types[..i], nodeType) else 0
        {
          assert node.types[..i + 1] == node.types[..i] + [node.types[i]];
          TimesMore(node.types[..i], node.types[i], nodeType);
          if node.types[i] == nodeType {
            nodes := nodes + [node.id];
          }
          i := i + 1;
        }
        assert node.types[..i] == node.types;
        done := done + {k};
      }
    }
  }

  /** What FindNodes relies on holds after any history. */
  lemma {:induction false} IdsStayOwn(dec: Decoder, self: PeerId, events: seq<Event>)
    ensures OwnIds(Run(dec, self, events))
  {
    if events != [] {
      IdsStayOwn(dec, self, events[..|events| - 1]);
    }
  }
}
