/**
 * Domains: created on a discovery node under a persisted key, joined by the members of
 * their cluster, gossiped to the other discovery nodes and reloaded after a restart.
 */
module DomainReplication {
  import opened Wrappers
  import opened LittleEndian

  type NodeId = nat
  type Secret = nat

  datatype Domain = Domain(id: string, name: string, secret: Buffer, writer: NodeId, readers: seq<NodeId>,
                           others: seq<NodeId>)

  /** Keys, identities and JSON as the libraries provide them. */
  datatype Env = Env(idOf: Secret -> string, marshal: Secret -> Buffer, unmarshal: Buffer -> Option<Secret>,
                     encode: Domain -> Buffer, decode: Buffer -> Option<Domain>)

  ghost predicate Lawful(e: Env) {
    && (forall k: Secret :: e.unmarshal(e.marshal(k)) == Some(k))
    && (forall d :: e.decode(e.encode(d)) == Some(d))
    && (forall j: Secret, k: Secret :: e.idOf(j) == e.idOf(k) ==> j == k)
  }

  // ----- One discovery node ------------------------------------------------------------------

  /** keys: domains/<name>/secret/peer.key. metas: domains/<id>/meta.json. */
  datatype Discovery = Discovery(keys: map<string, Buffer>, metas: map<string, Buffer>, domainList: map<string, Domain>)

  /** InitPeerIdentity: the key on disk, or a new one that is then on disk. None is a panic. */
  function IdentityFor(e: Env, st: Discovery, name: string, drawn: Secret): Option<Secret> {
    if name in st.keys then e.unmarshal(st.keys[name]) else Some(drawn)
  }

  function WithIdentity(e: Env, st: Discovery, name: string, drawn: Secret): Discovery {
    if name in st.keys then st else st.(keys := st.keys[name := e.marshal(drawn)])
  }

  /** The domain InitializeDomainCluster makes of a request. */
  function Initialized(e: Env, req: Domain, k: Secret): Domain {
    req.(id := e.idOf(k), secret := e.marshal(k))
  }

  /** A domain that could not be published is not listed. */
  function CreatedDomain(e: Env, st: Discovery, req: Domain, drawn: Secret, published: bool): Discovery
    requires IdentityFor(e, st, req.name, drawn).Some?
  {
    var d := Initialized(e, req, IdentityFor(e, st, req.name, drawn).value);
    var kept := WithIdentity(e, st, req.name, drawn);
    if published then kept.(domainList := kept.domainList[d.id := d]) else kept
  }

  /** receiveDomains writes the message to a file and nothing else. */
  function Gossiped(e: Env, st: Discovery, self: NodeId, from: NodeId, data: Buffer): Discovery {
    if from == self || e.decode(data).None? then st
    else st.(metas := st.metas[e.decode(data).value.id := data])
  }

  /** The startup loop over the directories in a given order. */
  function LoadInOrder(e: Env, list: map<string, Domain>, metas: map<string, Buffer>,
                       order: seq<string>): map<string, Domain>
    decreases |order|
  {
    if order == [] then list
    else
      var next := if order[0] in metas && e.decode(metas[order[0]]).Some? then
                    list[e.decode(metas[order[0]]).value.id := e.decode(metas[order[0]]).value]
                  else list;
      LoadInOrder(e, next, metas, order[1..])
  }

  /** Every readable meta file is in the directory of its own id. */
  ghost predicate OwnDirectories(e: Env, metas: map<string, Buffer>) {
    forall n :: n in metas && e.decode(metas[n]).Some? ==> e.decode(metas[n]).value.id == n
  }

  function Loaded(e: Env, metas: map<string, Buffer>): map<string, Domain> {
    map n | n in metas && e.decode(metas[n]).Some? :: e.decode(metas[n]).value
  }

  lemma {:induction false} LoadOne(e: Env, list: map<string, Domain>, metas: map<string, Buffer>,
                                   order: seq<string>, n: string)
    requires OwnDirectories(e, metas)
    ensures var r := LoadInOrder(e, list, metas, order);
      if n in order && n in metas && e.decode(metas[n]).Some? then n in r && r[n] == e.decode(metas[n]).value
      else (n in r <==> n in list) && (n in list ==> r[n] == list[n])
    decreases |order|
  {
    if order != [] {
      var next := if order[0] in metas && e.decode(metas[order[0]]).Some? then
                    list[e.decode(metas[order[0]]).value.id := e.decode(metas[order[0]]).value]
                  else list;
      LoadOne(e, next, metas, order[1..], n);
      assert n in order <==> n == order[0] || n in order[1..];
    }
  }

  /** The order of the directories does not matter, and those without a meta file contribute nothing. */
  lemma LoadOrderIrrelevant(e: Env, metas: map<string, Buffer>, order: seq<string>)
    requires OwnDirectories(e, metas) && forall n :: n in metas ==> n in order
    ensures LoadInOrder(e, map[], metas, order) == Loaded(e, metas)
  {
    forall n
      ensures var r := LoadInOrder(e, map[], metas, order);
        (n in r <==> n in Loaded(e, metas)) && (n in r ==> r[n] == Loaded(e, metas)[n])
    {
      LoadOne(e, map[], metas, order, n);
    }
  }

  class DiscoveryNode {
    const id: NodeId
    const env: Env
    var keys: map<string, Buffer>
    var metas: map<string, Buffer>
    var domainList: map<string, Domain>

    /** A process starting on what is on disk, before the startup loop. */
    constructor (id: NodeId, env: Env, keys: map<string, Buffer>, metas: map<string, Buffer>)
      ensures this.id == id && this.env == env && State() == Discovery(keys, metas, map[])
    {
      this.id, this.env, this.keys, this.metas, domainList := id, env, keys, metas, map[];
    }

    function State(): Discovery
      reads this
    {
      Discovery(keys, metas, domainList)
    }

    /** drawn is the key GenerateKeyPair would return. */
    method InitPeerIdentity(name: string, drawn: Secret) returns (priv: Secret)
      requires IdentityFor(env, State(), name, drawn).Some?
      modifies `keys
      ensures Some(priv) == old(IdentityFor(env, State(), name, drawn))
      ensures State() == WithIdentity(env, old(State()), name, drawn)
    {
      if name !in keys {
        priv := drawn;
        keys := keys[name := env.marshal(priv)];
      } else {
        priv := env.unmarshal(keys[name]).value;
      }
    }

    /** The create handler; published is the result of the topic's Publish. */
    method OnCreateDomain(req: Domain, drawn: Secret, published: bool) returns (d: Domain)
      requires IdentityFor(env, State(), req.name, drawn).Some?
      modifies this
      ensures d == old(Initialized(env, req, IdentityFor(env, State(), req.name, drawn).value))
      ensures State() == CreatedDomain(env, old(State()), req, drawn, published)
      ensures domainList == if published then old(domainList)[d.id := d] else old(domainList)
      ensures d.name == req.name && d.writer == req.writer && d.readers == req.readers && d.others == req.others
    {
      var priv := InitPeerIdentity(req.name, drawn);
      d := req.(id := env.idOf(priv));
      d := d.(secret := env.marshal(priv));
      if !published {
        return;
      }
      domainList := domainList[d.id := d];
    }

    method OnDomainMessage(from: NodeId, data: Buffer)
      modifies this
      ensures State() == Gossiped(env, old(State()), id, from, data)
    {
      if from != id {
        var d := env.decode(data);
        if d.None? {
          return;
        }
        metas := metas[d.value.id := data];
      }
    }

    /** The loop over the domains directory, which holds the directories of keys and of metas. */
    method LoadDomains() returns (ghost order: seq<string>)
      modifies `domainList
      ensures forall n :: n in order <==> n in keys || n in metas
      ensures domainList == LoadInOrder(env, old(domainList), metas, order)
      ensures old(domainList) == map[] && OwnDirectories(env, metas) ==> domainList == Loaded(env, metas)
    {
      order := [];
      var todo := keys.Keys + metas.Keys;
      while todo != {}
        invariant forall n :: n in keys || n in metas <==> n in order || n in todo
        invariant domainList == LoadInOrder(env, old(domainList), metas, order)
      {
        var n :| n in todo;
        todo := todo - {n};
        LoadLast(env, old(domainList), metas, order, n);
        order := order + [n];
        if n in metas {
          var d := env.decode(metas[n]);
          if d.Some? {
            domainList := domainList[d.value.id := d.value];
          }
        }
      }
      if OwnDirectories(env, metas) {
        LoadOrderIrrelevant(env, metas, order);
      }
    }
  }

  lemma {:induction false} LoadLast(e: Env, list: map<string, Domain>, metas: map<string, Buffer>,
                                    order: seq<string>, n: string)
    ensures LoadInOrder(e, list, metas, order + [n]) == LoadInOrder(e, LoadInOrder(e, list, metas, order), metas, [n])
    decreases |order|
  {
    if order == [] {
      assert order + [n] == [n];
    } else {
      assert (order + [n])[1..] == order[1..] + [n];
      var next := if order[0] in metas && e.decode(metas[order[0]]).Some? then
                    list[e.decode(metas[order[0]]).value.id := e.decode(metas[order[0]]).value]
                  else list;
      LoadLast(e, next, metas, order[1..], n);
    }
  }

  // ----- One cluster member ---------------------------------------------------------------------

  /** secrets: domains/<name>/secret. metas: domains/<name>/meta.json. */
  datatype Member = Member(secrets: map<string, Buffer>, metas: map<string, Buffer>, domainList: map<string, Domain>)

  /** The join handler. A secret that is no key leaves an empty secret file behind. */
  function Joined(e: Env, st: Member, d: Domain): Member {
    if e.unmarshal(d.secret).None? then st.(secrets := st.secrets[d.name := []])
    else
      Member(st.secrets[d.name := d.secret], st.metas[d.name := e.encode(d)], st.domainList[d.id := d])
  }

  class MemberNode {
    const env: Env
    var secrets: map<string, Buffer>
    var metas: map<string, Buffer>
    var domainList: map<string, Domain>

    constructor (env: Env)
      ensures this.env == env && State() == Member(map[], map[], map[])
    {
      this.env, secrets, metas, domainList := env, map[], map[], map[];
    }

    function State(): Member
      reads this
    {
      Member(secrets, metas, domainList)
    }

    method OnJoin(d: Domain)
      modifies this
      ensures State() == Joined(env, old(State()), d)
      ensures if env.unmarshal(d.secret).Some? then
          && secrets == old(secrets)[d.name := d.secret] && metas == old(metas)[d.name := env.encode(d)]
          && domainList == old(domainList)[d.id := d]
        else secrets == old(secrets)[d.name := []] && metas == old(metas) && domainList == old(domainList)
    {
      secrets := secrets[d.name := []];
      var pk := env.unmarshal(d.secret);
      if pk.None? {
        return;
      }
      secrets := secrets[d.name := d.secret];
      domainList := domainList[d.id := d];
      metas := metas[d.name := env.encode(d)];
    }
  }

  // ----- The network ------------------------------------------------------------------------------

  datatype Message = Message(from: NodeId, data: Buffer)

  /** A domain on its way to a member. */
  datatype Invitation = Invitation(to: NodeId, domain: Domain)

  /** used holds the keys drawn so far. Messages stay, so delivery may drop, repeat and reorder them. */
  datatype World = World(discovery: map<NodeId, Discovery>, members: map<NodeId, Member>,
                         invitations: set<Invitation>, gossip: set<Message>, used: set<Secret>)

  datatype Step =
    | Create(node: NodeId, req: Domain, drawn: Secret, reached: set<NodeId>, published: bool)
    | Join(member: NodeId, invitation: Invitation)
    | Gossip(node: NodeId, msg: Message)
    | Restart(node: NodeId)

  function Cluster(d: Domain): set<NodeId> {
    (set m | m in d.others) + {d.writer}
  }

  predicate Enabled(e: Env, w: World, step: Step) {
    match step
    case Create(n, req, drawn, reached, _) =>
      && n in w.discovery && drawn !in w.used && reached <= Cluster(req)
      && IdentityFor(e, w.discovery[n], req.name, drawn).Some?
    case Join(m, i) => m in w.members && i in w.invitations && i.to == m
    case Gossip(n, msg) => n in w.discovery && msg in w.gossip
    case Restart(n) => n in w.discovery
  }

  /** The domain a creation makes. */
  function Made(e: Env, w: World, n: NodeId, req: Domain, drawn: Secret): Domain
    requires n in w.discovery && IdentityFor(e, w.discovery[n], req.name, drawn).Some?
  {
    Initialized(e, req, IdentityFor(e, w.discovery[n], req.name, drawn).value)
  }

  function Apply(e: Env, w: World, step: Step): World
    requires Enabled(e, w, step)
  {
    match step
    case Create(n, req, drawn, reached, published) =>
      var d := Made(e, w, n, req, drawn);
      w.(discovery := w.discovery[n := CreatedDomain(e, w.discovery[n], req, drawn, published)],
         invitations := w.invitations + (set m | m in reached :: Invitation(m, d)),
         gossip := if published then w.gossip + {Message(n, e.encode(d))} else w.gossip,
         used := w.used + {drawn})
    case Join(m, i) => w.(members := w.members[m := Joined(e, w.members[m], i.domain)])
    case Gossip(n, msg) => w.(discovery := w.discovery[n := Gossiped(e, w.discovery[n], n, msg.from, msg.data)])
    case Restart(n) =>
      var list := Loaded(e, w.discovery[n].metas);
      w.(discovery := w.discovery[n := w.discovery[n].(domainList := list)],
         gossip := w.gossip + set id | id in list :: Message(n, e.encode(list[id])))
  }

  ghost predicate Starts(w: World) {
    && w.invitations == {} && w.gossip == {} && w.used == {}
    && (forall n :: n in w.discovery ==> w.discovery[n] == Discovery(map[], map[], map[]))
    && (forall m :: m in w.members ==> w.members[m] == Member(map[], map[], map[]))
  }

  function Exec(e: Env, start: World, steps: seq<Step>): Option<World> {
    if steps == [] then Some(start)
    else
      var w :- Exec(e, start, steps[..|steps| - 1]);
      if Enabled(e, w, steps[|steps| - 1]) then Some(Apply(e, w, steps[|steps| - 1])) else None
  }

  // ----- Identity -----------------------------------------------------------------------------------

  /** The id of d is derived from the secret it carries. */
  predicate Derived(e: Env, d: Domain) {
    e.unmarshal(d.secret).Some? && e.idOf(e.unmarshal(d.secret).value) == d.id
  }

  ghost predicate ListFine(e: Env, list: map<string, Domain>) {
    forall id :: id in list ==> list[id].id == id && Derived(e, list[id])
  }

  ghost predicate DiscoveryFine(e: Env, st: Discovery, used: set<Secret>) {
    && ListFine(e, st.domainList)
    && (forall n :: n in st.keys ==> exists k :: k in used && st.keys[n] == e.marshal(k))
    && (forall id :: id in st.metas ==>
         var d := e.decode(st.metas[id]); d.Some? && d.value.id == id && Derived(e, d.value))
  }

  /** A member's two files under a name are of one domain of that name. */
  ghost predicate MemberFine(e: Env, st: Member) {
    && ListFine(e, st.domainList) && st.secrets.Keys == st.metas.Keys
    && (forall n :: n in st.metas ==>
         e.decode(st.metas[n]).Some?
         && var d := e.decode(st.metas[n]).value; d.name == n && Derived(e, d) && st.secrets[n] == d.secret)
  }

  ghost predicate Inv(e: Env, w: World) {
    && (forall n :: n in w.discovery ==> DiscoveryFine(e, w.discovery[n], w.used))
    && (forall m :: m in w.members ==> MemberFine(e, w.members[m]))
    && (forall i :: i in w.invitations ==> Derived(e, i.domain))
    && (forall msg :: msg in w.gossip ==> e.decode(msg.data).Some? && Derived(e, e.decode(msg.data).value))
  }

  lemma MadeDerived(e: Env, w: World, n: NodeId, req: Domain, drawn: Secret)
    requires Lawful(e) && n in w.discovery && IdentityFor(e, w.discovery[n], req.name, drawn).Some?
    ensures Derived(e, Made(e, w, n, req, drawn))
  {
  }

  lemma CreateFine(e: Env, st: Discovery, used: set<Secret>, req: Domain, drawn: Secret, published: bool)
    requires Lawful(e) && DiscoveryFine(e, st, used) && IdentityFor(e, st, req.name, drawn).Some?
    ensures DiscoveryFine(e, CreatedDomain(e, st, req, drawn, published), used + {drawn})
  {
    var st' := CreatedDomain(e, st, req, drawn, published);
    forall n | n in st'.keys
      ensures exists k :: k in used + {drawn} && st'.keys[n] == e.marshal(k)
    {
      if n in st.keys {
        var k :| k in used && st.keys[n] == e.marshal(k);
        assert k in used + {drawn};
      } else {
        assert drawn in used + {drawn};
      }
    }
  }

  lemma MoreUsed(e: Env, st: Discovery, used: set<Secret>, drawn: Secret)
    requires DiscoveryFine(e, st, used)
    ensures DiscoveryFine(e, st, used + {drawn})
  {
    forall n | n in st.keys
      ensures exists k :: k in used + {drawn} && st.keys[n] == e.marshal(k)
    {
      var k :| k in used && st.keys[n] == e.marshal(k);
      assert k in used + {drawn};
    }
  }

  lemma JoinFine(e: Env, st: Member, d: Domain)
    requires Lawful(e) && MemberFine(e, st) && Derived(e, d)
    ensures MemberFine(e, Joined(e, st, d))
  {
  }

  lemma StepKeeps(e: Env, w: World, step: Step)
    requires Lawful(e) && Inv(e, w) && Enabled(e, w, step)
    ensures Inv(e, Apply(e, w, step))
  {
    hide DiscoveryFine, MemberFine, Derived, CreatedDomain, Joined, Gossiped, Lawful;
    var w' := Apply(e, w, step);
    match step
    case Create(n, req, drawn, reached, published) =>
      MadeDerived(e, w, n, req, drawn);
      CreateFine(e, w.discovery[n], w.used, req, drawn, published);
      RoundTrip(e, Made(e, w, n, req, drawn));
      forall k | k in w'.discovery
        ensures DiscoveryFine(e, w'.discovery[k], w'.used)
      {
        MoreUsed(e, w.discovery[k], w.used, drawn);
      }
    case Join(m, i) =>
      JoinFine(e, w.members[m], i.domain);
    case Gossip(n, msg) =>
      GossipFine(e, w.discovery[n], w.used, n, msg);
    case Restart(n) =>
      RestartFine(e, w.discovery[n], w.used);
      forall msg | msg in w'.gossip
        ensures e.decode(msg.data).Some? && Derived(e, e.decode(msg.data).value)
      {
        if msg !in w.gossip {
          var list := Loaded(e, w.discovery[n].metas);
          var id :| id in list && msg == Message(n, e.encode(list[id]));
          RoundTrip(e, list[id]);
        }
      }
  }

  lemma RoundTrip(e: Env, d: Domain)
    requires Lawful(e)
    ensures e.decode(e.encode(d)) == Some(d)
  {
  }

  lemma GossipFine(e: Env, st: Discovery, used: set<Secret>, self: NodeId, msg: Message)
    requires DiscoveryFine(e, st, used) && e.decode(msg.data).Some? && Derived(e, e.decode(msg.data).value)
    ensures DiscoveryFine(e, Gossiped(e, st, self, msg.from, msg.data), used)
  {
  }

  lemma RestartFine(e: Env, st: Discovery, used: set<Secret>)
    requires DiscoveryFine(e, st, used)
    ensures DiscoveryFine(e, st.(domainList := Loaded(e, st.metas)), used) && ListFine(e, Loaded(e, st.metas))
    ensures forall id :: id in Loaded(e, st.metas) ==> Derived(e, Loaded(e, st.metas)[id])
  {
  }

  /**
   * Identity. In every reachable state every copy of a domain, in memory, on disk or on
   * its way, has its id derived from the secret it carries, and lists keep it under it.
   */
  lemma {:induction false} DomainIdentity(e: Env, start: World, steps: seq<Step>)
    requires Lawful(e) && Starts(start) && Exec(e, start, steps).Some?
    ensures Inv(e, Exec(e, start, steps).value)
  {
    hide Apply, Enabled, Lawful;
    if steps != [] {
      DomainIdentity(e, start, steps[..|steps| - 1]);
      StepKeeps(e, Exec(e, start, steps[..|steps| - 1]).value, steps[|steps| - 1]);
    }
  }

  // ----- Repeated creation -----------------------------------------------------------------------

  lemma KeyKept(e: Env, w: World, step: Step, n: NodeId, name: string)
    requires Enabled(e, w, step) && n in w.discovery && name in w.discovery[n].keys
    ensures var w' := Apply(e, w, step);
      n in w'.discovery && name in w'.discovery[n].keys && w'.discovery[n].keys[name] == w.discovery[n].keys[name]
  {
    hide Loaded;
  }

  lemma {:induction false} KeyKeptAlong(e: Env, start: World, before: seq<Step>, after: seq<Step>, n: NodeId,
                                        name: string)
    requires Exec(e, start, before + after).Some?
    ensures Exec(e, start, before).Some?
    ensures var w, w' := Exec(e, start, before).value, Exec(e, start, before + after).value;
      n in w.discovery && name in w.discovery[n].keys ==>
        n in w'.discovery && name in w'.discovery[n].keys && w'.discovery[n].keys[name] == w.discovery[n].keys[name]
    decreases |after|
  {
    hide Apply, Enabled;
    if after == [] {
      assert before + after == before;
    } else {
      var init := after[..|after| - 1];
      assert (before + after)[..|before + after| - 1] == before + init;
      KeyKeptAlong(e, start, before, init, n, name);
      var w, v := Exec(e, start, before).value, Exec(e, start, before + init).value;
      assert (before + after)[|before + after| - 1] == after[|after| - 1];
      if n in w.discovery && name in w.discovery[n].keys {
        KeyKept(e, v, after[|after| - 1], n, name);
      }
    }
  }

  /** The run can go on with the creation c. */
  predicate CanCreate(e: Env, start: World, steps: seq<Step>, c: Step) {
    c.Create? && Exec(e, start, steps).Some? && Enabled(e, Exec(e, start, steps).value, c)
  }

  function MadeBy(e: Env, start: World, steps: seq<Step>, c: Step): Domain
    requires CanCreate(e, start, steps, c)
  {
    Made(e, Exec(e, start, steps).value, c.node, c.req, c.drawn)
  }

  lemma MadeUnderKey(e: Env, start: World, steps: seq<Step>, c: Step)
    requires Lawful(e) && CanCreate(e, start, steps, c)
    ensures Exec(e, start, steps + [c]).Some?
    ensures var w := Exec(e, start, steps + [c]).value;
      && c.node in w.discovery && c.req.name in w.discovery[c.node].keys
      && var k := e.unmarshal(w.discovery[c.node].keys[c.req.name]);
         var d := MadeBy(e, start, steps, c);
         k.Some? && d.id == e.idOf(k.value) && d.secret == e.marshal(k.value)
  {
    assert (steps + [c])[..|steps|] == steps;
  }

  /**
   * Creating a name again on the same node gives the same id and secret, whatever
   * happened in between: restarts, failed publishing, other creations.
   */
  lemma SameNameSameDomain(e: Env, start: World, before: seq<Step>, c: Step, between: seq<Step>, c': Step)
    requires Lawful(e) && CanCreate(e, start, before, c) && CanCreate(e, start, before + [c] + between, c')
    requires c.node == c'.node && c.req.name == c'.req.name
    ensures MadeBy(e, start, before, c).id == MadeBy(e, start, before + [c] + between, c').id
    ensures MadeBy(e, start, before, c).secret == MadeBy(e, start, before + [c] + between, c').secret
  {
    hide Exec, Lawful;
    MadeUnderKey(e, start, before, c);
    KeyKeptAlong(e, start, before + [c], between, c.node, c.req.name);
  }

  function KeyAt(w: World, n: NodeId, name: string): Option<Buffer> {
    if n in w.discovery && name in w.discovery[n].keys then Some(w.discovery[n].keys[name]) else None
  }

  predicate DrawnKey(e: Env, used: set<Secret>, key: Buffer) {
    exists k :: k in used && key == e.marshal(k)
  }

  /** Keys on disk were drawn, and each is in one place only. */
  ghost predicate KeysApart(e: Env, w: World) {
    && (forall n, name :: KeyAt(w, n, name).Some? ==> DrawnKey(e, w.used, KeyAt(w, n, name).value))
    && (forall n, name, n', name' :: KeyAt(w, n, name).Some? && KeyAt(w, n, name) == KeyAt(w, n', name') ==>
         n == n' && name == name')
  }

  /** A creation puts at most one key somewhere, and it is a new one. */
  lemma CreatePutsKey(e: Env, w: World, c: Step, n: NodeId, name: string)
    requires c.Create? && Enabled(e, w, c)
    ensures KeyAt(Apply(e, w, c), n, name) ==
      if n == c.node && name == c.req.name && KeyAt(w, n, name).None? then Some(e.marshal(c.drawn))
      else KeyAt(w, n, name)
  {
  }

  lemma DrawnIsNew(e: Env, used: set<Secret>, drawn: Secret, key: Buffer)
    requires Lawful(e) && DrawnKey(e, used, key) && drawn !in used
    ensures key != e.marshal(drawn) && DrawnKey(e, used + {drawn}, key)
  {
    var k :| k in used && key == e.marshal(k);
    assert e.unmarshal(e.marshal(k)) == Some(k) && e.unmarshal(e.marshal(drawn)) == Some(drawn);
    assert k in used + {drawn};
  }

  lemma CreateKeepsApart(e: Env, w: World, c: Step)
    requires Lawful(e) && KeysApart(e, w) && c.Create? && Enabled(e, w, c)
    ensures KeysApart(e, Apply(e, w, c))
  {
    hide Lawful, KeyAt, DrawnKey, CreatedDomain;
    var w' := Apply(e, w, c);
    assert w'.used == w.used + {c.drawn};
    forall n, name
      ensures KeyAt(w', n, name) ==
        if n == c.node && name == c.req.name && KeyAt(w, n, name).None? then Some(e.marshal(c.drawn))
      else KeyAt(w, n, name)
      ensures KeyAt(w, n, name).Some? ==> KeyAt(w, n, name) != Some(e.marshal(c.drawn))
      ensures KeyAt(w', n, name).Some? ==> DrawnKey(e, w'.used, KeyAt(w', n, name).value)
    {
      CreatePutsKey(e, w, c, n, name);
      if KeyAt(w, n, name).Some? {
        DrawnIsNew(e, w.used, c.drawn, KeyAt(w, n, name).value);
      }
      DrawnIsDrawn(e, w.used, c.drawn);
    }
  }

  lemma DrawnIsDrawn(e: Env, used: set<Secret>, drawn: Secret)
    ensures DrawnKey(e, used + {drawn}, e.marshal(drawn))
  {
    assert drawn in used + {drawn};
  }

  lemma NoKeys(e: Env, start: World)
    requires Starts(start)
    ensures KeysApart(e, start)
  {
  }

  lemma {:induction false} KeysStayApart(e: Env, start: World, steps: seq<Step>)
    requires Lawful(e) && Starts(start) && Exec(e, start, steps).Some?
    ensures KeysApart(e, Exec(e, start, steps).value)
  {
    hide Enabled, Lawful, Apply, KeysApart;
    if steps == [] {
      NoKeys(e, start);
    } else {
      var init, last := steps[..|steps| - 1], steps[|steps| - 1];
      KeysStayApart(e, start, init);
      if last.Create? {
        CreateKeepsApart(e, Exec(e, start, init).value, last);
      } else {
        OthersKeepKeys(e, Exec(e, start, init).value, last);
      }
    }
  }

  lemma OthersKeepKeys(e: Env, w: World, step: Step)
    requires KeysApart(e, w) && Enabled(e, w, step) && !step.Create?
    ensures KeysApart(e, Apply(e, w, step))
  {
    hide Loaded, Joined, DrawnKey;
    var w' := Apply(e, w, step);
    assert w'.used == w.used && w'.discovery.Keys == w.discovery.Keys;
    assert forall n :: n in w.discovery ==> w'.discovery[n].keys == w.discovery[n].keys;
    assert forall n, name :: KeyAt(w', n, name) == KeyAt(w, n, name);
  }

  /** Different names, or one name on different nodes, never share an id. */
  lemma DistinctNamesDistinctIds(e: Env, start: World, before: seq<Step>, c: Step, between: seq<Step>, c': Step)
    requires Lawful(e) && Starts(start)
    requires CanCreate(e, start, before, c) && CanCreate(e, start, before + [c] + between, c')
    requires c.node != c'.node || c.req.name != c'.req.name
    ensures MadeBy(e, start, before, c).id != MadeBy(e, start, before + [c] + between, c').id
  {
    hide Exec, Lawful, Enabled, Apply, MadeBy;
    var middle := before + [c] + between;
    MadeUnderKey(e, start, before, c);
    KeyKeptAlong(e, start, before + [c], between, c.node, c.req.name);
    MadeUnderKey(e, start, middle, c');
    KeyKeptAlong(e, start, middle, [c'], c.node, c.req.name);
    KeysStayApart(e, start, middle + [c']);
    var w := Exec(e, start, middle + [c']).value;
    DistinctKeys(e, w, c.node, c.req.name, c'.node, c'.req.name);
  }

  lemma DistinctKeys(e: Env, w: World, n: NodeId, name: string, n': NodeId, name': string)
    requires Lawful(e) && KeysApart(e, w) && (n != n' || name != name')
    requires n in w.discovery && name in w.discovery[n].keys && n' in w.discovery && name' in w.discovery[n'].keys
    ensures var a, b := e.unmarshal(w.discovery[n].keys[name]), e.unmarshal(w.discovery[n'].keys[name']);
      a.Some? && b.Some? && e.idOf(a.value) != e.idOf(b.value)
  {
    var a, b := KeyAt(w, n, name).value, KeyAt(w, n', name').value;
    assert a != b;
    var j: Secret :| j in w.used && a == e.marshal(j);
    var k: Secret :| k in w.used && b == e.marshal(k);
    assert e.unmarshal(e.marshal(j)) == Some(j) && e.unmarshal(e.marshal(k)) == Some(k);
  }

  // ----- Restart --------------------------------------------------------------------------------------

  /** The last record of id that n got from another node. */
  function LastReceived(e: Env, steps: seq<Step>, n: NodeId, id: string): Option<Buffer> {
    if steps == [] then None
    else
      var last := steps[|steps| - 1];
      if last.Gossip? && last.node == n && last.msg.from != n
         && e.decode(last.msg.data).Some? && e.decode(last.msg.data).value.id == id then Some(last.msg.data)
      else LastReceived(e, steps[..|steps| - 1], n, id)
  }

  lemma {:induction false} MetasAreLastReceived(e: Env, start: World, steps: seq<Step>, n: NodeId, id: string)
    requires Starts(start) && Exec(e, start, steps).Some? && n in Exec(e, start, steps).value.discovery
    ensures var metas := Exec(e, start, steps).value.discovery[n].metas;
      LastReceived(e, steps, n, id) == if id in metas then Some(metas[id]) else None
  {
    hide Loaded, Joined;
    if steps != [] {
      MetasAreLastReceived(e, start, steps[..|steps| - 1], n, id);
    }
  }

  /**
   * Restart recovery. After a restart the list holds exactly the ids received from other
   * nodes, each with its last received record. A node's own domains are among them only
   * if another node sent them back.
   */
  lemma RestartRecovery(e: Env, start: World, steps: seq<Step>, w: World, n: NodeId, id: string)
    requires Lawful(e) && Starts(start) && Exec(e, start, steps + [Restart(n)]) == Some(w)
    ensures var record := LastReceived(e, steps, n, id);
      && n in w.discovery
      && (id in w.discovery[n].domainList <==> record.Some?)
      && (record.Some? ==> e.decode(record.value) == Some(w.discovery[n].domainList[id]))
  {
    hide Lawful;
    assert (steps + [Restart(n)])[..|steps|] == steps;
    MetasAreLastReceived(e, start, steps, n, id);
    DomainIdentity(e, start, steps);
    assert DiscoveryFine(e, Exec(e, start, steps).value.discovery[n], Exec(e, start, steps).value.used);
  }

  // ----- What is listed ------------------------------------------------------------------------------

  /** A new domain is the request with an id and a secret that belong together. */
  lemma MadeOfRequest(e: Env, w: World, n: NodeId, req: Domain, drawn: Secret)
    requires n in w.discovery && IdentityFor(e, w.discovery[n], req.name, drawn).Some?
    ensures var d := Made(e, w, n, req, drawn); var k := IdentityFor(e, w.discovery[n], req.name, drawn).value;
      && d.name == req.name && d.writer == req.writer && d.readers == req.readers && d.others == req.others
      && d.id == e.idOf(k) && d.secret == e.marshal(k)
      && k == if req.name in w.discovery[n].keys then e.unmarshal(w.discovery[n].keys[req.name]).value else drawn
  {
  }

  /** The domain n lists under id: made there with success since its last restart, or read from disk then. */
  ghost function ListedRecord(e: Env, start: World, steps: seq<Step>, n: NodeId, id: string): Option<Domain> {
    if steps == [] then None
    else
      var init, last := steps[..|steps| - 1], steps[|steps| - 1];
      match last
      case Create(m, req, drawn, _, published) =>
        if m == n && published && CanCreate(e, start, init, last) && MadeBy(e, start, init, last).id == id
        then Some(MadeBy(e, start, init, last))
        else ListedRecord(e, start, init, n, id)
      case Restart(m) =>
        if m != n then ListedRecord(e, start, init, n, id)
        else if LastReceived(e, init, n, id).Some? then e.decode(LastReceived(e, init, n, id).value)
        else None
      case _ => ListedRecord(e, start, init, n, id)
  }

  function ListAt(w: World, n: NodeId, id: string): Option<Domain> {
    if n in w.discovery && id in w.discovery[n].domainList then Some(w.discovery[n].domainList[id]) else None
  }

  lemma ListStep(e: Env, w: World, step: Step, n: NodeId, id: string)
    requires Enabled(e, w, step) && n in w.discovery && !(step.Restart? && step.node == n)
    ensures ListAt(Apply(e, w, step), n, id) ==
      if step.Create? && step.node == n && step.published && Made(e, w, n, step.req, step.drawn).id == id
      then Some(Made(e, w, n, step.req, step.drawn))
      else ListAt(w, n, id)
  {
    hide Loaded, Joined, Gossiped, Initialized;
    if step.Gossip? {
      GossipKeepsList(e, w.discovery[step.node], step.node, step.msg.from, step.msg.data);
    }
  }

  lemma GossipKeepsList(e: Env, st: Discovery, self: NodeId, from: NodeId, data: Buffer)
    ensures Gossiped(e, st, self, from, data).domainList == st.domainList
  {
  }

  lemma SameNodes(e: Env, w: World, step: Step)
    requires Enabled(e, w, step)
    ensures Apply(e, w, step).discovery.Keys == w.discovery.Keys
    ensures Apply(e, w, step).members.Keys == w.members.Keys
  {
    hide Loaded, Joined, Gossiped;
  }

  /**
   * A discovery node lists exactly the domains it created and published since its last
   * restart, and those it had received from others before that restart.
   */
  lemma {:induction false} ListedExactly(e: Env, start: World, steps: seq<Step>, w: World, n: NodeId, id: string)
    requires Lawful(e) && Starts(start) && Exec(e, start, steps) == Some(w) && n in w.discovery
    ensures ListAt(w, n, id) == ListedRecord(e, start, steps, n, id)
  {
    hide Lawful, Apply, Enabled, Made, LastReceived;
    if steps != [] {
      var init, last := steps[..|steps| - 1], steps[|steps| - 1];
      var before := Exec(e, start, init).value;
      SameNodes(e, before, last);
      ListedExactly(e, start, init, before, n, id);
      if last.Restart? && last.node == n {
        assert steps == init + [Restart(n)];
        RestartRecovery(e, start, init, w, n, id);
      } else {
        ListStep(e, before, last, n, id);
      }
    }
  }

  /** One creation: listed if it was published, otherwise nothing changes in the list. */
  lemma CreatedIsListed(e: Env, start: World, steps: seq<Step>, c: Step, id: string)
    requires CanCreate(e, start, steps, c)
    ensures Exec(e, start, steps + [c]).Some?
    ensures var w, w' := Exec(e, start, steps).value, Exec(e, start, steps + [c]).value;
      var d := MadeBy(e, start, steps, c);
      ListAt(w', c.node, id) == if c.published && id == d.id then Some(d) else ListAt(w, c.node, id)
  {
    hide Apply, Made;
    assert (steps + [c])[..|steps|] == steps;
    ListStep(e, Exec(e, start, steps).value, c, c.node, id);
  }

  /** A published domain can reach any other discovery node, which lists it after its next restart. */
  lemma PublishedReachesOthers(e: Env, start: World, steps: seq<Step>, c: Step, m: NodeId)
    requires Lawful(e) && Starts(start) && CanCreate(e, start, steps, c) && c.published && m != c.node
    requires m in Exec(e, start, steps).value.discovery
    ensures var d := MadeBy(e, start, steps, c);
      var w := Exec(e, start, steps + [c] + [Gossip(m, Message(c.node, e.encode(d)))] + [Restart(m)]);
      w.Some? && ListAt(w.value, m, d.id) == Some(d)
  {
    hide Lawful, Apply, Enabled, Made;
    var d := MadeBy(e, start, steps, c);
    var msg := Message(c.node, e.encode(d));
    var one := steps + [c];
    var two := one + [Gossip(m, msg)];
    assert one[..|steps|] == steps && two[..|one|] == one && (two + [Restart(m)])[..|two|] == two;
    CreateGossips(e, Exec(e, start, steps).value, c);
    SameNodes(e, Exec(e, start, steps).value, c);
    GossipEnabled(e, Exec(e, start, one).value, m, msg);
    SameNodes(e, Exec(e, start, one).value, Gossip(m, msg));
    RoundTrip(e, d);
    RestartEnabled(e, Exec(e, start, two).value, m);
    RestartRecovery(e, start, two, Exec(e, start, two + [Restart(m)]).value, m, d.id);
  }

  lemma CreateGossips(e: Env, w: World, c: Step)
    requires c.Create? && Enabled(e, w, c) && c.published
    ensures Message(c.node, e.encode(Made(e, w, c.node, c.req, c.drawn))) in Apply(e, w, c).gossip
  {
  }

  lemma GossipEnabled(e: Env, w: World, m: NodeId, msg: Message)
    requires m in w.discovery && msg in w.gossip
    ensures Enabled(e, w, Gossip(m, msg))
  {
  }

  lemma RestartEnabled(e: Env, w: World, m: NodeId)
    requires m in w.discovery
    ensures Enabled(e, w, Restart(m))
  {
  }

  /** At startup a node publishes again whatever it has on disk. */
  lemma RestartPublishes(e: Env, start: World, steps: seq<Step>, w: World, n: NodeId, id: string)
    requires Lawful(e) && Starts(start) && Exec(e, start, steps + [Restart(n)]) == Some(w)
    requires LastReceived(e, steps, n, id).Some?
    ensures exists msg :: msg in w.gossip && msg.from == n && e.decode(msg.data) == ListAt(w, n, id)
  {
    assert (steps + [Restart(n)])[..|steps|] == steps;
    RestartRecovery(e, start, steps, w, n, id);
    var d := w.discovery[n].domainList[id];
    RoundTrip(e, d);
    assert Message(n, e.encode(d)) in w.gossip;
  }

  // ----- Invitations and members ---------------------------------------------------------------------

  /** Some creation made the domain and reached the member. */
  ghost predicate WasInvited(e: Env, start: World, steps: seq<Step>, i: Invitation) {
    steps != [] &&
    var init, last := steps[..|steps| - 1], steps[|steps| - 1];
    || WasInvited(e, start, init, i)
    || (CanCreate(e, start, init, last) && i.domain == MadeBy(e, start, init, last) && i.to in last.reached)
  }

  /** Invited are the writer and the others of a domain, as far as they could be reached; not its readers. */
  lemma {:induction false} InvitedIff(e: Env, start: World, steps: seq<Step>, w: World, i: Invitation)
    requires Starts(start) && Exec(e, start, steps) == Some(w)
    ensures i in w.invitations <==> WasInvited(e, start, steps, i)
    ensures i in w.invitations ==> i.to == i.domain.writer || i.to in i.domain.others
  {
    hide Apply, Enabled, Made;
    if steps != [] {
      var init, last := steps[..|steps| - 1], steps[|steps| - 1];
      InvitedIff(e, start, init, Exec(e, start, init).value, i);
      InviteStep(e, Exec(e, start, init).value, last, i);
    }
  }

  lemma InviteStep(e: Env, w: World, step: Step, i: Invitation)
    requires Enabled(e, w, step)
    ensures i in Apply(e, w, step).invitations <==>
      || i in w.invitations
      || (step.Create? && i.domain == Made(e, w, step.node, step.req, step.drawn) && i.to in step.reached)
    ensures step.Create? && i.domain == Made(e, w, step.node, step.req, step.drawn) && i.to in step.reached ==>
      i.to == i.domain.writer || i.to in i.domain.others
  {
    hide Loaded, Joined, Gossiped, CreatedDomain;
  }

  /** The last domain with this id that m joined. */
  function LastJoined(steps: seq<Step>, m: NodeId, id: string): Option<Domain> {
    if steps == [] then None
    else
      var last := steps[|steps| - 1];
      if last.Join? && last.member == m && last.invitation.domain.id == id then Some(last.invitation.domain)
      else LastJoined(steps[..|steps| - 1], m, id)
  }

  /** The last domain of this name that m joined. */
  function LastNamed(steps: seq<Step>, m: NodeId, name: string): Option<Domain> {
    if steps == [] then None
    else
      var last := steps[|steps| - 1];
      if last.Join? && last.member == m && last.invitation.domain.name == name then Some(last.invitation.domain)
      else LastNamed(steps[..|steps| - 1], m, name)
  }

  ghost predicate MemberHas(e: Env, st: Member, byId: Option<Domain>, byName: Option<Domain>,
                            id: string, name: string) {
    && byId == (if id in st.domainList then Some(st.domainList[id]) else None)
    && (byName.Some? <==> name in st.metas) && (byName.Some? <==> name in st.secrets)
    && (byName.Some? ==> st.secrets[name] == byName.value.secret && e.decode(st.metas[name]) == byName)
  }

  /** A member lists what it joined, and has its secret and record on disk under its name. */
  lemma {:induction false} MembersHaveJoined(e: Env, start: World, steps: seq<Step>, w: World, m: NodeId,
                                             id: string, name: string)
    requires Lawful(e) && Starts(start) && Exec(e, start, steps) == Some(w) && m in w.members
    ensures MemberHas(e, w.members[m], LastJoined(steps, m, id), LastNamed(steps, m, name), id, name)
  {
    hide Lawful, Apply, Enabled;
    if steps != [] {
      var init, last := steps[..|steps| - 1], steps[|steps| - 1];
      var before := Exec(e, start, init).value;
      SameNodes(e, before, last);
      MembersHaveJoined(e, start, init, before, m, id, name);
      DomainIdentity(e, start, init);
      MemberStep(e, before, last, m, LastJoined(init, m, id), LastNamed(init, m, name), id, name);
    }
  }

  lemma MemberStep(e: Env, w: World, step: Step, m: NodeId, byId: Option<Domain>, byName: Option<Domain>,
                   id: string, name: string)
    requires Lawful(e) && Inv(e, w) && Enabled(e, w, step) && m in w.members
    requires MemberHas(e, w.members[m], byId, byName, id, name)
    ensures m in Apply(e, w, step).members
    ensures if step.Join? && step.member == m then
        var d := step.invitation.domain;
        MemberHas(e, Apply(e, w, step).members[m], if d.id == id then Some(d) else byId,
                  if d.name == name then Some(d) else byName, id, name)
      else MemberHas(e, Apply(e, w, step).members[m], byId, byName, id, name)
  {
    hide Lawful, DiscoveryFine, MemberFine, CreatedDomain, Gossiped, Loaded;
    if step.Join? {
      RoundTrip(e, step.invitation.domain);
    }
  }
}
