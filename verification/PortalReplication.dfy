/** Portals on discovery nodes: created on one, gossiped to the others, saved to files. */
module PortalReplication {
  import opened Wrappers
  import opened LittleEndian
  import opened PortalWire

  type NodeId = nat

  /** How portals are written and read: the frame body an app sends, and the frame that is gossiped. */
  datatype Codec = Codec(created: Portal -> Buffer, body: Buffer -> Option<Portal>,
                         published: Portal -> Buffer, frame: Buffer -> Option<Portal>)

  ghost predicate Faithful(c: Codec) {
    forall p: Portal :: Encodable(p) ==>
      c.body(c.created(p)) == Some(Normal(p)) && c.frame(c.published(p)) == Some(Normal(p))
  }

  /** The writers and accessors of the repository. */
  function WireCodec(): Codec {
    Codec(p => if Encodable(p) then CreatedFrame(p)[4..] else [], ParseBody,
          p => if Encodable(p) then PublishedFrame(p) else [], ParseFrame)
  }

  lemma WireCodecFaithful()
    ensures Faithful(WireCodec())
  {
    hide ParseBody, ParseFrame, CreatedFrame, PublishedFrame;
    forall p: Portal | Encodable(p)
      ensures ParseBody(CreatedFrame(p)[4..]) == Some(Normal(p)) && ParseFrame(PublishedFrame(p)) == Some(Normal(p))
    {
      PortalRoundTrip(p);
    }
  }

  datatype Message = Message(from: NodeId, data: Buffer)

  /** What one node has in memory and on disk, by portal id. */
  datatype NodeState = NodeState(portals: map<Buffer, Portal>, files: map<Buffer, Buffer>)

  /** Creation replaces whatever was there under that id. */
  function Created(st: NodeState, p: Portal): NodeState {
    st.(portals := st.portals[p.shortId := p])
  }

  /** A message from another node counts only for an id that is not in memory yet; saving it may fail. */
  function Received(c: Codec, st: NodeState, self: NodeId, msg: Message, saved: bool): NodeState
    requires c.frame(msg.data).Some?
  {
    var p := c.frame(msg.data).value;
    if msg.from == self || p.shortId in st.portals then st
    else
      NodeState(st.portals[p.shortId := p], if saved then st.files[p.shortId := msg.data] else st.files)
  }

  // ----- One node ------------------------------------------------------------------------

  class DiscoveryNode {
    const id: NodeId
    var portalList: map<Buffer, Portal>
    var files: map<Buffer, Buffer>

    constructor (id: NodeId, files: map<Buffer, Buffer>)
      ensures this.id == id && State() == NodeState(map[], files)
    {
      this.id, portalList, this.files := id, map[], files;
    }

    function State(): NodeState
      reads this
    {
      NodeState(portalList, files)
    }

    /** createPortalStreamHandler: store the portal, then hand its frame to the topic. */
    method OnCreatePortal(body: Buffer) returns (frame: Buffer)
      requires ParseBody(body).Some? && Encodable(ParseBody(body).value)
      modifies this
      ensures State() == Created(old(State()), ParseBody(body).value)
      ensures ParseBody(body).value.shortId in portalList
      ensures portalList[ParseBody(body).value.shortId] == ParseBody(body).value
      ensures forall k :: k in old(portalList) && k != ParseBody(body).value.shortId ==>
        k in portalList && portalList[k] == old(portalList[k])
      ensures frame == PublishedFrame(ParseBody(body).value)
      ensures ParseFrame(frame) == Some(Normal(ParseBody(body).value))
    {
      hide ParseBody, ParseFrame;
      var portal := ParseBody(body).value;
      portalList := portalList[portal.shortId := portal];
      frame := PublishPortal(portal);
    }

    /** One round of receivePortals; dirMade and fileMade are the results of MkdirAll and Create. */
    method OnPortalMessage(msg: Message, dirMade: bool, fileMade: bool)
      requires ParseFrame(msg.data).Some?
      modifies this
      ensures State() == Received(WireCodec(), old(State()), id, msg, dirMade && fileMade)
      ensures var p := ParseFrame(msg.data).value; var taken := msg.from != id && p.shortId !in old(portalList);
        && portalList == (if taken then old(portalList)[p.shortId := p] else old(portalList))
        && files == if taken && dirMade && fileMade then old(files)[p.shortId := msg.data] else old(files)
    {
      hide ParseFrame;
      if msg.from != id {
        var portal := ParseFrame(msg.data).value;
        if portal.shortId !in portalList {
          portalList := portalList[portal.shortId := portal];
          if !dirMade {
            return;
          }
          if !fileMade {
            return;
          }
          files := files[portal.shortId := msg.data];
        }
      }
    }
  }

  // ----- Many nodes -----------------------------------------------------------------------

  /**
   * Messages stay in net, so that a delivery may be late, repeated or missing and may
   * overtake others. origin records what each id was created with.
   */
  datatype World = World(nodes: map<NodeId, NodeState>, net: set<Message>, origin: map<Buffer, Portal>)

  datatype Step =
    | Create(node: NodeId, portal: Portal, published: bool)
    | Receive(node: NodeId, msg: Message, saved: bool)
    | Republish(node: NodeId, id: Buffer)
    | Restart(node: NodeId)

  /** An app creates portals with fresh ids and sends them as createPortal writes them. */
  predicate Enabled(w: World, step: Step) {
    && step.node in w.nodes
    && match step
       case Create(_, p, _) => Encodable(p) && p.shortId !in w.origin
       case Receive(_, msg, _) => msg in w.net
       case Republish(n, id) => id in w.nodes[n].portals && Encodable(w.nodes[n].portals[id])
       case Restart(_) => true
  }

  /** Bytes that do not decode would be a panic; a faithful codec never lets any arrive. */
  function Apply(c: Codec, w: World, step: Step): World
    requires Enabled(w, step)
  {
    match step
    case Create(n, p, published) =>
      if c.body(c.created(p)).None? then w
      else
        var q := c.body(c.created(p)).value;
        var sent := if published then {Message(n, c.published(q))} else {};
        World(w.nodes[n := Created(w.nodes[n], q)], w.net + sent, w.origin[p.shortId := p])
    case Receive(n, msg, saved) =>
      if c.frame(msg.data).None? then w
      else w.(nodes := w.nodes[n := Received(c, w.nodes[n], n, msg, saved)])
    case Republish(n, id) => w.(net := w.net + {Message(n, c.published(w.nodes[n].portals[id]))})
    case Restart(n) => w.(nodes := w.nodes[n := w.nodes[n].(portals := map[])])
  }

  ghost predicate Starts(w: World) {
    w.net == {} && w.origin == map[] && forall n :: n in w.nodes ==> w.nodes[n] == NodeState(map[], map[])
  }

  /** The world after a run from start, or None when a step was not possible. */
  function Exec(c: Codec, start: World, steps: seq<Step>): Option<World> {
    if steps == [] then Some(start)
    else
      var w :- Exec(c, start, steps[..|steps| - 1]);
      if Enabled(w, steps[|steps| - 1]) then Some(Apply(c, w, steps[|steps| - 1])) else None
  }

  // ----- What is kept -----------------------------------------------------------------------

  /** q is the portal created under id, as every reader decodes it. */
  ghost predicate Genuine(origin: map<Buffer, Portal>, id: Buffer, q: Portal) {
    id in origin && origin[id].shortId == id && Encodable(origin[id]) && q == Normal(origin[id])
  }

  ghost predicate NodeFine(c: Codec, origin: map<Buffer, Portal>, st: NodeState) {
    && (forall id :: id in st.portals ==> Genuine(origin, id, st.portals[id]))
    && (forall id :: id in st.files ==> c.frame(st.files[id]).Some? && Genuine(origin, id, c.frame(st.files[id]).value))
  }

  ghost predicate MessageFine(c: Codec, origin: map<Buffer, Portal>, m: Message) {
    c.frame(m.data).Some? && Genuine(origin, c.frame(m.data).value.shortId, c.frame(m.data).value)
  }

  ghost predicate Inv(c: Codec, w: World) {
    && (forall n :: n in w.nodes ==> NodeFine(c, w.origin, w.nodes[n]))
    && (forall m :: m in w.net ==> MessageFine(c, w.origin, m))
  }

  lemma NormalEncodable(p: Portal)
    requires Encodable(p)
    ensures Encodable(Normal(p)) && Normal(Normal(p)) == Normal(p) && Normal(p).shortId == p.shortId
  {
  }

  lemma FreshOrigin(c: Codec, origin: map<Buffer, Portal>, p: Portal, st: NodeState)
    requires NodeFine(c, origin, st) && p.shortId !in origin
    ensures NodeFine(c, origin[p.shortId := p], st)
  {
  }

  lemma CreateKeeps(c: Codec, w: World, n: NodeId, p: Portal, published: bool)
    requires Faithful(c) && Inv(c, w) && Enabled(w, Create(n, p, published))
    ensures Inv(c, Apply(c, w, Create(n, p, published)))
  {
    hide NodeFine;
    NormalEncodable(p);
    var w' := Apply(c, w, Create(n, p, published));
    forall k | k in w'.nodes
      ensures NodeFine(c, w'.origin, w'.nodes[k])
    {
      FreshOrigin(c, w.origin, p, w.nodes[k]);
      if k == n {
        NodeGains(c, w'.origin, w.nodes[n], Normal(p));
      }
    }
  }

  lemma NodeGains(c: Codec, origin: map<Buffer, Portal>, st: NodeState, q: Portal)
    requires NodeFine(c, origin, st) && Genuine(origin, q.shortId, q)
    ensures NodeFine(c, origin, Created(st, q))
  {
  }

  lemma ReceiveKeeps(c: Codec, w: World, n: NodeId, msg: Message, saved: bool)
    requires Faithful(c) && Inv(c, w) && Enabled(w, Receive(n, msg, saved))
    ensures Inv(c, Apply(c, w, Receive(n, msg, saved)))
  {
  }

  lemma RepublishKeeps(c: Codec, w: World, n: NodeId, id: Buffer)
    requires Faithful(c) && Inv(c, w) && Enabled(w, Republish(n, id))
    ensures Inv(c, Apply(c, w, Republish(n, id)))
  {
    assert NodeFine(c, w.origin, w.nodes[n]) && Genuine(w.origin, id, w.nodes[n].portals[id]);
    NormalEncodable(w.origin[id]);
  }

  lemma {:induction false} RunKeeps(c: Codec, start: World, steps: seq<Step>)
    requires Faithful(c) && Starts(start) && Exec(c, start, steps).Some?
    ensures Inv(c, Exec(c, start, steps).value)
  {
    hide Apply, Enabled, NodeFine, MessageFine;
    if steps == [] {
      StartFine(c, start);
    } else {
      var init := steps[..|steps| - 1];
      RunKeeps(c, start, init);
      StepKeeps(c, Exec(c, start, init).value, steps[|steps| - 1]);
    }
  }

  lemma StartFine(c: Codec, start: World)
    requires Faithful(c) && Starts(start)
    ensures Inv(c, start)
  {
  }

  lemma StepKeeps(c: Codec, w: World, step: Step)
    requires Faithful(c) && Inv(c, w) && Enabled(w, step)
    ensures Inv(c, Apply(c, w, step))
  {
    hide MessageFine, Genuine;
    match step
    case Create(n, p, published) => CreateKeeps(c, w, n, p, published);
    case Receive(n, msg, saved) => ReceiveKeeps(c, w, n, msg, saved);
    case Republish(n, id) => RepublishKeeps(c, w, n, id);
    case Restart(n) =>
      assert NodeFine(c, w.origin, w.nodes[n].(portals := map[]));
  }

  // ----- Main results --------------------------------------------------------------------------

  ghost predicate HeldBy(w: World, n: NodeId, id: Buffer) {
    n in w.nodes && id in w.nodes[n].portals
  }

  /**
   * Agreement. Whatever the network drops, repeats or reorders, and however often nodes
   * restart, any two nodes that hold an id hold the same portal: the one it was created
   * with, up to the sign of a zero size.
   */
  lemma PortalAgreement(c: Codec, start: World, steps: seq<Step>, w: World, a: NodeId, b: NodeId, id: Buffer)
    requires Faithful(c) && Starts(start) && Exec(c, start, steps) == Some(w)
    requires HeldBy(w, a, id) && HeldBy(w, b, id)
    ensures w.nodes[a].portals[id] == w.nodes[b].portals[id]
    ensures id in w.origin && w.nodes[a].portals[id] == Normal(w.origin[id])
    ensures w.nodes[a].portals[id] == w.origin[id] <==> w.origin[id].size != NEGATIVE_ZERO
  {
    hide Exec;
    RunKeeps(c, start, steps);
    assert NodeFine(c, w.origin, w.nodes[a]) && NodeFine(c, w.origin, w.nodes[b]);
  }

  /** Every saved file decodes to the portal that any node has in memory under its name. */
  lemma FilesMatchMemory(c: Codec, start: World, steps: seq<Step>, w: World, a: NodeId, b: NodeId, id: Buffer)
    requires Faithful(c) && Starts(start) && Exec(c, start, steps) == Some(w)
    requires a in w.nodes && id in w.nodes[a].files && HeldBy(w, b, id)
    ensures c.frame(w.nodes[a].files[id]) == Some(w.nodes[b].portals[id])
  {
    hide Exec;
    RunKeeps(c, start, steps);
    assert NodeFine(c, w.origin, w.nodes[a]) && NodeFine(c, w.origin, w.nodes[b]);
  }

  predicate NoRestart(steps: seq<Step>, n: NodeId) {
    forall i :: 0 <= i < |steps| ==> steps[i] != Restart(n)
  }

  /** Between restarts of a node an entry never leaves its memory and never changes. */
  lemma {:induction false} NeverLost(c: Codec, start: World, before: seq<Step>, after: seq<Step>, w': World,
                                       n: NodeId, id: Buffer)
    requires Faithful(c) && Starts(start) && Exec(c, start, before + after) == Some(w') && NoRestart(after, n)
    ensures Exec(c, start, before).Some?
    ensures var w := Exec(c, start, before).value;
      HeldBy(w, n, id) ==> HeldBy(w', n, id) && w'.nodes[n].portals[id] == w.nodes[n].portals[id]
    decreases |after|
  {
    hide Apply, Enabled;
    if after == [] {
      assert before + after == before;
    } else {
      var init := after[..|after| - 1];
      assert (before + after)[..|before + after| - 1] == before + init;
      var w := Exec(c, start, before + init).value;
      NeverLost(c, start, before, init, w, n, id);
      assert (before + after)[|before + after| - 1] == after[|after| - 1];
      RunKeeps(c, start, before + init);
      if HeldBy(w, n, id) {
        StepHolds(c, w, after[|after| - 1], n, id);
      }
    }
  }

  lemma StepHolds(c: Codec, w: World, step: Step, n: NodeId, id: Buffer)
    requires Faithful(c) && Inv(c, w) && Enabled(w, step) && step != Restart(n) && HeldBy(w, n, id)
    ensures HeldBy(Apply(c, w, step), n, id) && Apply(c, w, step).nodes[n].portals[id] == w.nodes[n].portals[id]
  {
    hide MessageFine, Encodable;
    assert NodeFine(c, w.origin, w.nodes[n]) && Genuine(w.origin, id, w.nodes[n].portals[id]);
    if step.Create? {
      }
  }

  /** One delivery of a message is enough: from then on the receiver holds its id. */
  lemma DeliveredIsHeld(c: Codec, start: World, steps: seq<Step>, n: NodeId, msg: Message, saved: bool)
    requires Faithful(c) && Starts(start) && Exec(c, start, steps + [Receive(n, msg, saved)]).Some? && msg.from != n
    ensures var w := Exec(c, start, steps + [Receive(n, msg, saved)]).value;
      c.frame(msg.data).Some? && HeldBy(w, n, c.frame(msg.data).value.shortId)
  {
    assert (steps + [Receive(n, msg, saved)])[..|steps|] == steps;
    RunKeeps(c, start, steps);
    assert MessageFine(c, Exec(c, start, steps).value.origin, msg);
  }

  // ----- Who holds what ------------------------------------------------------------------------

  /** The message is from another node and decodes to a portal of this id. */
  predicate TellsOf(c: Codec, msg: Message, n: NodeId, id: Buffer) {
    msg.from != n && c.frame(msg.data).Some? && c.frame(msg.data).value.shortId == id
  }

  /** Since its last restart n created id, or a message of another node about it was delivered. */
  predicate KnowsOf(c: Codec, steps: seq<Step>, n: NodeId, id: Buffer) {
    steps != [] &&
    var init, last := steps[..|steps| - 1], steps[|steps| - 1];
    match last
    case Create(m, p, _) => (m == n && p.shortId == id) || KnowsOf(c, init, n, id)
    case Receive(m, msg, _) => (m == n && TellsOf(c, msg, n, id)) || KnowsOf(c, init, n, id)
    case Republish(_, _) => KnowsOf(c, init, n, id)
    case Restart(m) => m != n && KnowsOf(c, init, n, id)
  }

  lemma KnowsStep(c: Codec, w: World, step: Step, n: NodeId, id: Buffer)
    requires Faithful(c) && Inv(c, w) && Enabled(w, step) && n in w.nodes
    ensures n in Apply(c, w, step).nodes && Apply(c, w, step).nodes.Keys == w.nodes.Keys
    ensures HeldBy(Apply(c, w, step), n, id) <==>
      match step
      case Create(m, p, _) => (m == n && p.shortId == id) || HeldBy(w, n, id)
      case Receive(m, msg, _) => (m == n && TellsOf(c, msg, n, id)) || HeldBy(w, n, id)
      case Republish(_, _) => HeldBy(w, n, id)
      case Restart(m) => m != n && HeldBy(w, n, id)
  {
    hide NodeFine;
    if step.Create? {
      NormalEncodable(step.portal);
    } else if step.Receive? {
      assert MessageFine(c, w.origin, step.msg);
    }
  }

  /** A node holds exactly the ids it created or was told of since its last restart. */
  lemma {:induction false} HeldIffKnown(c: Codec, start: World, steps: seq<Step>, w: World, n: NodeId, id: Buffer)
    requires Faithful(c) && Starts(start) && Exec(c, start, steps) == Some(w) && n in w.nodes
    ensures n in start.nodes && (HeldBy(w, n, id) <==> KnowsOf(c, steps, n, id))
  {
    hide Apply, Enabled, Inv, TellsOf;
    if steps != [] {
      var init, last := steps[..|steps| - 1], steps[|steps| - 1];
      var before := Exec(c, start, init).value;
      RunKeeps(c, start, init);
      SameNodes(c, before, last);
      HeldIffKnown(c, start, init, before, n, id);
      KnowsStep(c, before, last, n, id);
    }
  }

  lemma SameNodes(c: Codec, w: World, step: Step)
    requires Enabled(w, step)
    ensures Apply(c, w, step).nodes.Keys == w.nodes.Keys
  {
  }

  /** The last message about id that n saved: one delivered when it did not hold id. */
  function LastSaved(c: Codec, steps: seq<Step>, n: NodeId, id: Buffer): Option<Buffer> {
    if steps == [] then None
    else
      var init, last := steps[..|steps| - 1], steps[|steps| - 1];
      if last.Receive? && last.node == n && last.saved && TellsOf(c, last.msg, n, id) && !KnowsOf(c, init, n, id)
      then Some(last.msg.data)
      else LastSaved(c, init, n, id)
  }

  lemma SavedStep(c: Codec, w: World, step: Step, n: NodeId, id: Buffer)
    requires Faithful(c) && Inv(c, w) && Enabled(w, step) && n in w.nodes
    ensures var files, files' := w.nodes[n].files, Apply(c, w, step).nodes[n].files;
      if step.Receive? && step.node == n && step.saved && TellsOf(c, step.msg, n, id) && !HeldBy(w, n, id)
      then id in files' && files'[id] == step.msg.data
      else (id in files' <==> id in files) && (id in files ==> files'[id] == files[id])
  {
    hide NodeFine, Genuine;
    if step.Create? {
      NormalEncodable(step.portal);
    }
  }

  /** Files are exactly what was saved, and stay over restarts. */
  lemma {:induction false} FilesAreSaved(c: Codec, start: World, steps: seq<Step>, w: World, n: NodeId, id: Buffer)
    requires Faithful(c) && Starts(start) && Exec(c, start, steps) == Some(w) && n in w.nodes
    ensures LastSaved(c, steps, n, id) == if id in w.nodes[n].files then Some(w.nodes[n].files[id]) else None
  {
    hide Apply, Enabled, Inv, TellsOf, KnowsOf, HeldBy;
    if steps != [] {
      var init, last := steps[..|steps| - 1], steps[|steps| - 1];
      var before := Exec(c, start, init).value;
      RunKeeps(c, start, init);
      SameNodes(c, before, last);
      FilesAreSaved(c, start, init, before, n, id);
      HeldIffKnown(c, start, init, before, n, id);
      SavedStep(c, before, last, n, id);
    }
  }

  /** n has put a message on the topic that every reader decodes to q. */
  ghost predicate Told(c: Codec, w: World, n: NodeId, q: Portal) {
    exists m :: m in w.net && m.from == n && c.frame(m.data) == Some(q)
  }

  /** The creator holds its portal, and the others can hear of it if it could be published. */
  lemma CreatedIsHeld(c: Codec, start: World, steps: seq<Step>, n: NodeId, p: Portal, published: bool, w: World)
    requires Faithful(c) && Starts(start) && Exec(c, start, steps + [Create(n, p, published)]) == Some(w)
    ensures HeldBy(w, n, p.shortId) && w.nodes[n].portals[p.shortId] == Normal(p)
    ensures published ==> Told(c, w, n, Normal(p))
  {
    assert (steps + [Create(n, p, published)])[..|steps|] == steps;
    NormalEncodable(p);
    if published {
      assert Message(n, c.published(Normal(p))) in w.net;
    }
  }

  /** So can they after it was republished, which a node does with all it holds. */
  lemma RepublishedIsTold(c: Codec, start: World, steps: seq<Step>, n: NodeId, id: Buffer, w: World)
    requires Faithful(c) && Starts(start) && Exec(c, start, steps + [Republish(n, id)]) == Some(w)
    ensures HeldBy(w, n, id) && Told(c, w, n, w.nodes[n].portals[id])
  {
    assert (steps + [Republish(n, id)])[..|steps|] == steps;
    RunKeeps(c, start, steps);
    var before := Exec(c, start, steps).value;
    assert NodeFine(c, before.origin, before.nodes[n]) && Genuine(before.origin, id, before.nodes[n].portals[id]);
    NormalEncodable(before.origin[id]);
    assert Message(n, c.published(before.nodes[n].portals[id])) in w.net;
  }
}
