/**
 From nothing to an election, by the nodes' own actions: they join the group,
 find each other, take each other's HELLO and contest; all of them, or all but
 one that joins last.
 */
module NodeAssembly {
  import opened Basics
  import opened Runs
  import opened NodeRules
  import opened NodeSteps
  import opened NodeElections
  import opened NodeNetwork
  import opened NodeNetworkRuns
  import opened NodeNewcomer
  import Net = ElectionNetwork
  import ElectionProgress

  datatype Deed =
    | Does(who: Id, action: Action)    // anything but receiving
    | Hears(src: Id, dst: Id)          // the next packet from `src` reaches `dst`

  ghost predicate DeedOk(k: Company, c: Cluster, d: Deed, c': Cluster) {
    match d
    case Does(v, a) =>
      && v in k.selves && v in c.nodes && !a.Receives?
      && c' == c.(nodes := c.nodes[v := Act(k.selves[v], c.nodes[v], a)])
    case Hears(u, v) => MoveOk(k, c, Takes(u, v), c')
  }

  /** New nodes, and nothing sent. */
  ghost function Empty(k: Company): Cluster {
    Cluster(map v | v in k.cfg.members :: NEW_NODE, map p | p in Pairs(k.cfg.members) :: 0)
  }

  ghost predicate Reached(k: Company, c: Cluster) {
    exists states, deeds ::
      IsTrace((c, d, c') => DeedOk(k, c, d, c'), states, deeds) && states[0] == Empty(k) && states[|deeds|] == c
  }

  lemma ReachedMore(k: Company, c: Cluster, d: Deed, c': Cluster)
    requires Reached(k, c) && DeedOk(k, c, d, c')
    ensures Reached(k, c')
  {
    var step := (c, d, c') => DeedOk(k, c, d, c');
    var states, deeds :| IsTrace(step, states, deeds) && states[0] == Empty(k) && states[|deeds|] == c;
    TraceGrows(step, states, deeds, d, c');
    var states', deeds' := states + [c'], deeds + [d];
    assert states'[0] == Empty(k) && states'[|deeds'|] == c';
  }

  // ---- one node on the way ----

  /** The company, those who joined before they found anybody, and those who contest so far. */
  datatype Plan = Plan(k: Company, early: set<Id>, contesting: set<Id>)

  /** Every node has its own endpoint, and tells it. */
  ghost predicate ValidPlan(s: Plan) {
    && ValidCompany(s.k)
    && (forall x :: x in s.k.selves ==> s.k.selves[x] == Self(x, x, x, false))
  }

  function Own(s: Plan, v: Id): seq<Name> {
    if v in s.early then [s.k.g] else []
  }

  function StatusOf(s: Plan, v: Id): byte {
    if v in s.early then 1 else 0
  }

  function Greeting(s: Plan, v: Id): Packet {
    Packet(1, Hello(v, Own(s, v), StatusOf(s, v)))
  }

  function PeerBuilt(s: Plan, x: Id, heard: bool): PeerView {
    if heard then PeerView(x, true, true, StatusOf(s, x), 1, 1) else PeerView(x, true, false, 0, 1, 0)
  }

  /** Node `v` when it has found these peers and heard of those among them. */
  ghost function Builts(s: Plan, v: Id, found: set<Id>, heard: set<Id>): iset<NodeView> {
    iset n: NodeView |
      && n.peers == (map x | x in found :: PeerBuilt(s, x, x in heard))
      && n.wire == (map x | x in found :: [Greeting(s, v)])
      && n.own == Own(s, v) && n.status == StatusOf(s, v) && !n.failed
      && GroupOf(n, s.k.g) == GroupView(heard * s.early, v in s.contesting, None, None)
      && VerdictsIn(n.outbox, s.k.g) == []
  }

  lemma NewIsBuilt(s: Plan, v: Id)
    requires v !in s.early && v !in s.contesting
    ensures NEW_NODE in Builts(s, v, {}, {})
  {
  }

  lemma JoinBuilds(s: Plan, v: Id, n: NodeView)
    requires ValidPlan(s) && v in s.k.selves && v !in s.early && n in Builts(s, v, {}, {})
    ensures Act(s.k.selves[v], n, Joins(s.k.g)) in Builts(s.(early := s.early + {v}), v, {}, {})
  {
    assert NodeRules.Reached(n, n.peers.Keys) == {};
  }

  /** Peers on other endpoints are not purged. */
  lemma NothingPurged(s: Plan, v: Id, n: NodeView, found: set<Id>, x: Id)
    requires x !in found && n in Builts(s, v, found, {})
    ensures Purge(n, x) == n
  {
    assert Purge(n, x).peers == n.peers;
  }

  lemma DiscoverBuilds(s: Plan, v: Id, n: NodeView, found: set<Id>, x: Id)
    requires ValidPlan(s) && v in s.k.selves && x !in found && n in Builts(s, v, found, {})
    ensures Act(s.k.selves[v], n, Discovers(x, x, true)) in Builts(s, v, found + {x}, {})
  {
    NothingPurged(s, v, n, found, x);
    DiscoverSends(s, s.k.selves[v], v, n, x, n.(peers := n.peers[x := Connected(NEW_PEER, x)]));
    GreetedIsBuilt(s, v, n, found, x);
  }

  lemma GreetedIsBuilt(s: Plan, v: Id, n: NodeView, found: set<Id>, x: Id)
    requires x !in found && n in Builts(s, v, found, {})
    ensures SendAll(n.(peers := n.peers[x := Connected(NEW_PEER, x)]), {x}, Greeting(s, v).body) in Builts(s, v, found + {x}, {})
  {
    SendOneView(n.(peers := n.peers[x := Connected(NEW_PEER, x)]), x, Greeting(s, v).body);
    Appended(s, v, n, found, x);
  }

  lemma DiscoverSends(s: Plan, me: Self, v: Id, n: NodeView, x: Id, n2: NodeView)
    requires me == Self(v, v, v, false) && !n.failed && x !in n.peers && Purge(n, x) == n
    requires n.own == Own(s, v) && n.status == StatusOf(s, v) && n2 == n.(peers := n.peers[x := Connected(NEW_PEER, x)])
    ensures Act(me, n, Discovers(x, x, true)) == SendAll(n2, {x}, Greeting(s, v).body)
  {
  }

  lemma Appended(s: Plan, v: Id, n: NodeView, found: set<Id>, x: Id)
    requires x !in found && n in Builts(s, v, found, {})
    ensures n.peers[x := PeerBuilt(s, x, false)] == map y | y in found + {x} :: PeerBuilt(s, y, y in {})
    ensures PostedTo(n.wire, x, Connected(NEW_PEER, x), Greeting(s, v).body) == map y | y in found + {x} :: [Greeting(s, v)]
  {
    assert PacketsTo(n.wire, x) + [Greeting(s, v)] == [Greeting(s, v)];
  }

  /** A HELLO numbered 1 of a peer that is not ready is taken, and makes it ready. */
  lemma HelloTaken(me: Self, n: NodeView, u: Id, p: Packet)
    requires !n.failed && u in n.peers && !n.peers[u].ready && Endpoint(n.peers[u]) != me.endpoint
    requires p.body.Hello? && p.sequence == 1
    ensures Act(me, n, Receives(u, p, true))
         == OnHello(me, n.(peers := n.peers[u := n.peers[u].(ready := true, want := 1)]), u, p.body.groups, p.body.status)
  {
    var p1 := n.peers[u].(ready := true);
    assert n.peers[u := p1][u := p1.(want := 1)] == n.peers[u := p1.(want := 1)];
  }

  lemma HearBuilds(s: Plan, v: Id, n: NodeView, found: set<Id>, heard: set<Id>, u: Id)
    requires ValidPlan(s) && v in s.k.selves && u != v && s.contesting == {}
    requires u in found && u !in heard && n in Builts(s, v, found, heard)
    ensures Act(s.k.selves[v], n, Receives(u, Greeting(s, u), true)) in Builts(s, v, found, heard + {u})
  {
    HelloTaken(s.k.selves[v], n, u, Greeting(s, u));
    HelloBuilds(s, s.k.selves[v], v, n, found, heard, u);
  }

  lemma HelloBuilds(s: Plan, me: Self, v: Id, n: NodeView, found: set<Id>, heard: set<Id>, u: Id)
    requires s.contesting == {} && u in found && u !in heard && n in Builts(s, v, found, heard)
    ensures OnHello(me, n.(peers := n.peers[u := n.peers[u].(ready := true, want := 1)]), u, Own(s, u), StatusOf(s, u))
         in Builts(s, v, found, heard + {u})
  {
    var n1 := n.(peers := n.peers[u := n.peers[u].(ready := true, want := 1)]);
    HelloJoins(s, me, n1, u);
    HeardMore(s, n, found, heard, u);
  }

  lemma HeardMore(s: Plan, n: NodeView, found: set<Id>, heard: set<Id>, u: Id)
    requires u in found && n.peers == map x | x in found :: PeerBuilt(s, x, x in heard)
    ensures n.peers[u := PeerBuilt(s, u, true)] == map x | x in found :: PeerBuilt(s, x, x in heard + {u})
    ensures (heard + {u}) * s.early == heard * s.early + if u in s.early then {u} else {}
  {
  }

  lemma EntersTellNothing(events: seq<Event>, id: Id, g: Name)
    ensures VerdictsIn(events + [Enter(id)], g) == VerdictsIn(events, g)
  {
    assert (events + [Enter(id)])[..|events|] == events;
  }

  /** A HELLO that lists our group, or none. */
  lemma HelloJoins(s: Plan, me: Self, n: NodeView, u: Id)
    requires u in n.peers && !GroupOf(n, s.k.g).contest
    ensures var w := OnHello(me, n, u, Own(s, u), StatusOf(s, u));
            && w.peers == n.peers[u := n.peers[u].(status := StatusOf(s, u))]
            && w.wire == n.wire && w.own == n.own && w.status == n.status && w.failed == n.failed
            && GroupOf(w, s.k.g) == GroupOf(n, s.k.g).(members := GroupOf(n, s.k.g).members + if u in s.early then {u} else {})
            && VerdictsIn(w.outbox, s.k.g) == VerdictsIn(n.outbox, s.k.g)
  {
    var n1 := Tell(n, Enter(u));
    EntersTellNothing(n.outbox, u, s.k.g);
    if u in s.early {
      var names: seq<Name> := [s.k.g];
      var rest: seq<Name> := [];
      assert names[1..] == rest;
      assert JoinAll(me, n1, u, names) == JoinPeerGroup(n1, u, s.k.g);
      JoinedTellsNothing(n1.outbox, u, s.k.g);
    }
  }

  lemma ContestBuilds(s: Plan, v: Id, n: NodeView, found: set<Id>, heard: set<Id>)
    requires ValidPlan(s) && v in s.k.selves && n in Builts(s, v, found, heard)
    ensures Act(s.k.selves[v], n, Contests(s.k.g)) in Builts(s.(contesting := s.contesting + {v}), v, found, heard)
  {
  }

  // ---- all nodes on the way ----

  ghost predicate NodeBuilt(s: Plan, c: Cluster, found: set<(Id, Id)>, heard: set<(Id, Id)>, v: Id) {
    v in s.k.cfg.members ==> v in c.nodes && c.nodes[v] in Builts(s, v, FoundBy(found, v), HeardBy(heard, v))
  }

  function FoundBy(found: set<(Id, Id)>, v: Id): set<Id> {
    set p | p in found && p.0 == v :: p.1
  }

  function HeardBy(heard: set<(Id, Id)>, v: Id): set<Id> {
    set p | p in heard && p.1 == v :: p.0
  }

  ghost function TakenBy(k: Company, heard: set<(Id, Id)>): map<(Id, Id), nat> {
    map p | p in Pairs(k.cfg.members) :: if p in heard then 1 else 0
  }

  /** The cluster can come about, and its nodes have found and heard just these others. */
  ghost predicate Built(s: Plan, c: Cluster, found: set<(Id, Id)>, heard: set<(Id, Id)>) {
    c in BuiltClusters(s, found, heard)
  }

  ghost function BuiltClusters(s: Plan, found: set<(Id, Id)>, heard: set<(Id, Id)>): iset<Cluster> {
    iset c: Cluster |
      && ValidPlan(s) && Reached(s.k, c) && c.nodes.Keys == s.k.cfg.members && c.taken == TakenBy(s.k, heard)
      && AllBuilt(s, c, found, heard)
  }

  ghost predicate AllBuilt(s: Plan, c: Cluster, found: set<(Id, Id)>, heard: set<(Id, Id)>) {
    forall v :: NodeBuilt(s, c, found, heard, v)
  }

  lemma EmptyIsBuilt(s: Plan)
    requires ValidPlan(s) && s.early == {} && s.contesting == {}
    ensures Built(s, Empty(s.k), {}, {})
  {
    var c := Empty(s.k);
    var deeds: seq<Deed> := [];
    assert IsTrace((c, d, c') => DeedOk(s.k, c, d, c'), [c], deeds) && [c][0] == c && [c][|deeds|] == c;
    forall v ensures NodeBuilt(s, c, {}, {}, v) {
      NewIsBuilt(s, v);
      assert FoundBy({}, v) == {} && HeardBy({}, v) == {};
    }
  }

  lemma FoundByMore(found: set<(Id, Id)>, v: Id, x: Id, y: Id)
    ensures FoundBy(found + {(v, x)}, y) == FoundBy(found, y) + if y == v then {x} else {}
  {
    assert y == v ==> (v, x) in found + {(v, x)};
  }

  lemma HeardByMore(heard: set<(Id, Id)>, u: Id, v: Id, y: Id)
    ensures HeardBy(heard + {(u, v)}, y) == HeardBy(heard, y) + if y == v then {u} else {}
  {
    assert y == v ==> (u, v) in heard + {(u, v)};
  }

  /** Node `y` is as it was, and counts as built by the second plan if it did by the first. */
  ghost predicate StaysBuilt(s: Plan, c: Cluster, found: set<(Id, Id)>, heard: set<(Id, Id)>,
      s': Plan, found': set<(Id, Id)>, heard': set<(Id, Id)>, y: Id)
  {
    y in c.nodes && c.nodes[y] in Builts(s, y, FoundBy(found, y), HeardBy(heard, y)) ==>
      c.nodes[y] in Builts(s', y, FoundBy(found', y), HeardBy(heard', y))
  }

  /** One node does or hears something. */
  lemma OneMore(s: Plan, c: Cluster, found: set<(Id, Id)>, heard: set<(Id, Id)>, v: Id, w: NodeView, c': Cluster,
      s': Plan, found': set<(Id, Id)>, heard': set<(Id, Id)>)
    requires Built(s, c, found, heard) && s'.k == s.k && Reached(s.k, c')
    requires v in s.k.cfg.members && c'.nodes == c.nodes[v := w] && c'.taken == TakenBy(s.k, heard')
    requires w in Builts(s', v, FoundBy(found', v), HeardBy(heard', v))
    requires forall y :: y != v ==> StaysBuilt(s, c, found, heard, s', found', heard', y)
    ensures Built(s', c', found', heard')
  {
    OthersStayBuilt(s, c, found, heard, v, w, c', s', found', heard');
  }

  lemma OthersStayBuilt(s: Plan, c: Cluster, found: set<(Id, Id)>, heard: set<(Id, Id)>, v: Id, w: NodeView, c': Cluster,
      s': Plan, found': set<(Id, Id)>, heard': set<(Id, Id)>)
    requires AllBuilt(s, c, found, heard) && s'.k == s.k && c'.nodes == c.nodes[v := w]
    requires w in Builts(s', v, FoundBy(found', v), HeardBy(heard', v))
    requires forall y :: y != v ==> StaysBuilt(s, c, found, heard, s', found', heard', y)
    ensures AllBuilt(s', c', found', heard')
  {
    forall y ensures NodeBuilt(s', c', found', heard', y) {
      assert NodeBuilt(s, c, found, heard, y);
      assert y != v ==> StaysBuilt(s, c, found, heard, s', found', heard', y);
    }
  }

  lemma NodeIsBuilt(s: Plan, c: Cluster, found: set<(Id, Id)>, heard: set<(Id, Id)>, v: Id)
    requires Built(s, c, found, heard) && v in s.k.cfg.members
    ensures ValidPlan(s) && v in s.k.selves && v in c.nodes && c.taken == TakenBy(s.k, heard)
    ensures c.nodes[v] in Builts(s, v, FoundBy(found, v), HeardBy(heard, v))
  {
    assert NodeBuilt(s, c, found, heard, v);
  }

  /** One more node joins the group; what others have joined does not matter to a node that knows nobody. */
  lemma OneMoreJoins(s: Plan, c: Cluster, v: Id) returns (c': Cluster)
    requires Built(s, c, {}, {}) && v in s.k.cfg.members && v !in s.early
    ensures Built(s.(early := s.early + {v}), c', {}, {})
  {
    var s' := s.(early := s.early + {v});
    NodeIsBuilt(s, c, {}, {}, v);
    forall y ensures FoundBy({}, y) == {} && HeardBy({}, y) == {} {}
    JoinBuilds(s, v, c.nodes[v]);
    var w := Act(s.k.selves[v], c.nodes[v], Joins(s.k.g));
    c' := c.(nodes := c.nodes[v := w]);
    forall y | y != v ensures StaysBuilt(s, c, {}, {}, s', {}, {}, y) {
      if y in c.nodes && c.nodes[y] in Builts(s, y, {}, {}) {
        EarlyAlike(s, s', y, c.nodes[y], v);
      }
    }
    ReachedMore(s.k, c, Does(v, Joins(s.k.g)), c');
    OneMore(s, c, {}, {}, v, w, c', s', {}, {});
  }

  lemma EarlyAlike(s: Plan, s': Plan, y: Id, n: NodeView, v: Id)
    requires s' == s.(early := s.early + {v}) && y != v && n in Builts(s, y, {}, {})
    ensures n in Builts(s', y, {}, {})
  {
    assert (map x | x in {} :: PeerBuilt(s', x, false)) == (map x | x in {} :: PeerBuilt(s, x, false));
  }

  /** One more node finds another. */
  lemma OneMoreFinds(s: Plan, c: Cluster, found: set<(Id, Id)>, v: Id, x: Id) returns (c': Cluster)
    requires Built(s, c, found, {}) && (v, x) in Pairs(s.k.cfg.members) && (v, x) !in found
    ensures Built(s, c', found + {(v, x)}, {})
  {
    NodeIsBuilt(s, c, found, {}, v);
    assert HeardBy({}, v) == {};
    DiscoverBuilds(s, v, c.nodes[v], FoundBy(found, v), x);
    var w := Act(s.k.selves[v], c.nodes[v], Discovers(x, x, true));
    c' := c.(nodes := c.nodes[v := w]);
    FoundByMore(found, v, x, v);
    FindingKeeps(s, c, found, {}, v, x);
    ReachedMore(s.k, c, Does(v, Discovers(x, x, true)), c');
    OneMore(s, c, found, {}, v, w, c', s, found + {(v, x)}, {});
  }

  lemma FindingKeeps(s: Plan, c: Cluster, found: set<(Id, Id)>, heard: set<(Id, Id)>, v: Id, x: Id)
    ensures forall y :: y != v ==> StaysBuilt(s, c, found, heard, s, found + {(v, x)}, heard, y)
  {
    forall y | y != v ensures StaysBuilt(s, c, found, heard, s, found + {(v, x)}, heard, y) {
      FoundByMore(found, v, x, y);
    }
  }

  /** What is on its way to a node that has not heard from `u`. */
  lemma GreetingComes(s: Plan, c: Cluster, heard: set<(Id, Id)>, u: Id, v: Id)
    requires Built(s, c, Pairs(s.k.cfg.members), heard) && (u, v) in Pairs(s.k.cfg.members)
    ensures u in c.nodes && (u, v) in c.taken && Sent(c.nodes[u], v) == [Greeting(s, u)]
    ensures u in FoundBy(Pairs(s.k.cfg.members), v)
  {
    var all := Pairs(s.k.cfg.members);
    NodeIsBuilt(s, c, all, heard, u);
    assert v in FoundBy(all, u) && (v, u) in all;
  }

  lemma FirstIsHeard(k: Company, c: Cluster, u: Id, v: Id, p: Packet, c': Cluster)
    requires Reached(k, c) && Between(k, u, v) && u in c.nodes && v in k.selves && v in c.nodes
    requires (u, v) in c.taken && c.taken[(u, v)] == 0 && Sent(c.nodes[u], v) == [p]
    requires c' == Cluster(c.nodes[v := Act(k.selves[v], c.nodes[v], Receives(u, p, true))], c.taken[(u, v) := 1])
    ensures Reached(k, c')
  {
    assert MoveOk(k, c, Takes(u, v), c');
    ReachedMore(k, c, Hears(u, v), c');
  }

  lemma NodeHears(s: Plan, c: Cluster, heard: set<(Id, Id)>, u: Id, v: Id) returns (w: NodeView, c': Cluster)
    requires Built(s, c, Pairs(s.k.cfg.members), heard) && s.contesting == {}
    requires (u, v) in Pairs(s.k.cfg.members) && (u, v) !in heard
    ensures Reached(s.k, c') && v in c.nodes && c'.nodes == c.nodes[v := w] && c'.taken == TakenBy(s.k, heard + {(u, v)})
    ensures w in Builts(s, v, FoundBy(Pairs(s.k.cfg.members), v), HeardBy(heard, v) + {u})
  {
    var all := Pairs(s.k.cfg.members);
    NodeIsBuilt(s, c, all, heard, v);
    GreetingComes(s, c, heard, u, v);
    HearBuilds(s, v, c.nodes[v], FoundBy(all, v), HeardBy(heard, v), u);
    w := Act(s.k.selves[v], c.nodes[v], Receives(u, Greeting(s, u), true));
    c' := Cluster(c.nodes[v := w], c.taken[(u, v) := 1]);
    TakenMore(s.k, heard, u, v);
    FirstIsHeard(s.k, c, u, v, Greeting(s, u), c');
  }

  /** One more node hears another. */
  lemma OneMoreHears(s: Plan, c: Cluster, heard: set<(Id, Id)>, u: Id, v: Id) returns (c': Cluster)
    requires Built(s, c, Pairs(s.k.cfg.members), heard) && s.contesting == {}
    requires (u, v) in Pairs(s.k.cfg.members) && (u, v) !in heard
    ensures Built(s, c', Pairs(s.k.cfg.members), heard + {(u, v)})
  {
    var w;
    w, c' := NodeHears(s, c, heard, u, v);
    HearingKeeps(s, c, Pairs(s.k.cfg.members), heard, u, v);
    HeardByMore(heard, u, v, v);
    OneMore(s, c, Pairs(s.k.cfg.members), heard, v, w, c', s, Pairs(s.k.cfg.members), heard + {(u, v)});
  }

  lemma HearingKeeps(s: Plan, c: Cluster, found: set<(Id, Id)>, heard: set<(Id, Id)>, u: Id, v: Id)
    ensures forall y :: y != v ==> StaysBuilt(s, c, found, heard, s, found, heard + {(u, v)}, y)
  {
    forall y | y != v ensures StaysBuilt(s, c, found, heard, s, found, heard + {(u, v)}, y) {
      HeardByMore(heard, u, v, y);
    }
  }

  lemma TakenMore(k: Company, heard: set<(Id, Id)>, u: Id, v: Id)
    requires (u, v) in Pairs(k.cfg.members)
    ensures TakenBy(k, heard)[(u, v) := 1] == TakenBy(k, heard + {(u, v)})
  {
  }

  /** One more node contests. */
  lemma OneMoreContests(s: Plan, c: Cluster, found: set<(Id, Id)>, heard: set<(Id, Id)>, v: Id) returns (c': Cluster)
    requires Built(s, c, found, heard) && v in s.k.cfg.members
    ensures Built(s.(contesting := s.contesting + {v}), c', found, heard)
  {
    var s' := s.(contesting := s.contesting + {v});
    NodeIsBuilt(s, c, found, heard, v);
    ContestBuilds(s, v, c.nodes[v], FoundBy(found, v), HeardBy(heard, v));
    var w := Act(s.k.selves[v], c.nodes[v], Contests(s.k.g));
    c' := c.(nodes := c.nodes[v := w]);
    forall y | y != v ensures StaysBuilt(s, c, found, heard, s', found, heard, y) {
      if y in c.nodes && c.nodes[y] in Builts(s, y, FoundBy(found, y), HeardBy(heard, y)) {
        ContestAlike(s, s', y, c.nodes[y], FoundBy(found, y), HeardBy(heard, y), v);
      }
    }
    ReachedMore(s.k, c, Does(v, Contests(s.k.g)), c');
    OneMore(s, c, found, heard, v, w, c', s', found, heard);
  }

  lemma ContestAlike(s: Plan, s': Plan, y: Id, n: NodeView, found: set<Id>, heard: set<Id>, v: Id)
    requires s' == s.(contesting := s.contesting + {v}) && y != v && n in Builts(s, y, found, heard)
    ensures n in Builts(s', y, found, heard)
  {
    assert (map x | x in found :: PeerBuilt(s', x, x in heard)) == (map x | x in found :: PeerBuilt(s, x, x in heard));
  }

  // ---- one after the other ----

  lemma OneFewer<T>(done: set<T>, todo: set<T>, x: T)
    requires x in todo && todo !! done
    ensures done + {x} + (todo - {x}) == done + todo && (todo - {x}) !! (done + {x}) && |todo - {x}| < |todo|
  {
    assert todo == todo - {x} + {x};
  }

  lemma NoneLeft<T>(done: set<T>, todo: set<T>)
    requires forall x :: x !in todo
    ensures done + todo == done
  {
  }

  lemma {:induction false} AllJoin(s: Plan, c: Cluster, todo: set<Id>) returns (c': Cluster)
    requires Built(s, c, {}, {}) && todo <= s.k.cfg.members && todo !! s.early
    ensures Built(s.(early := s.early + todo), c', {}, {})
    decreases |todo|
  {
    if v :| v in todo {
      OneFewer(s.early, todo, v);
      c' := OneMoreJoins(s, c, v);
      c' := AllJoin(s.(early := s.early + {v}), c', todo - {v});
    } else {
      c' := c;
      NoneLeft(s.early, todo);
    }
  }

  lemma {:induction false} AllFind(s: Plan, c: Cluster, found: set<(Id, Id)>, todo: set<(Id, Id)>) returns (c': Cluster)
    requires Built(s, c, found, {}) && todo <= Pairs(s.k.cfg.members) && todo !! found
    ensures Built(s, c', found + todo, {})
    decreases |todo|
  {
    if p :| p in todo {
      OneFewer(found, todo, p);
      c' := OneMoreFinds(s, c, found, p.0, p.1);
      c' := AllFind(s, c', found + {p}, todo - {p});
    } else {
      c' := c;
      NoneLeft(found, todo);
    }
  }

  lemma {:induction false} AllHear(s: Plan, c: Cluster, heard: set<(Id, Id)>, todo: set<(Id, Id)>) returns (c': Cluster)
    requires Built(s, c, Pairs(s.k.cfg.members), heard) && s.contesting == {}
    requires todo <= Pairs(s.k.cfg.members) && todo !! heard
    ensures Built(s, c', Pairs(s.k.cfg.members), heard + todo)
    decreases |todo|
  {
    if p :| p in todo {
      OneFewer(heard, todo, p);
      c' := OneMoreHears(s, c, heard, p.0, p.1);
      c' := AllHear(s, c', heard + {p}, todo - {p});
    } else {
      c' := c;
      NoneLeft(heard, todo);
    }
  }

  lemma {:induction false} AllContest(s: Plan, c: Cluster, todo: set<Id>) returns (c': Cluster)
    requires var all := Pairs(s.k.cfg.members); Built(s, c, all, all) && todo <= s.k.cfg.members && todo !! s.contesting
    ensures var all := Pairs(s.k.cfg.members); Built(s.(contesting := s.contesting + todo), c', all, all)
    decreases |todo|
  {
    var all := Pairs(s.k.cfg.members);
    if v :| v in todo {
      OneFewer(s.contesting, todo, v);
      c' := OneMoreContests(s, c, all, all, v);
      c' := AllContest(s.(contesting := s.contesting + {v}), c', todo - {v});
    } else {
      c' := c;
      NoneLeft(s.contesting, todo);
    }
  }

  /** All nodes have met, with these in the group and the contesting ones contesting. */
  ghost predicate Met(k: Company, early: set<Id>, c: Cluster) {
    Built(Plan(k, early, k.cfg.contest), c, Pairs(k.cfg.members), Pairs(k.cfg.members))
  }

  lemma Meet(g: Name, members: set<Id>, contest: set<Id>, early: set<Id>) returns (k: Company, c: Cluster)
    requires 2 <= |members| <= 0x1_0000_0000 && contest <= members && early <= members && |g| <= 255
    ensures Met(k, early, c) && k in Companies(g, members, contest)
  {
    var cfg := ElectionProgress.StrcmpEpoch(members, contest);
    k := Company(g, map x | x in members :: Self(x, x, x, false), cfg);
    assert Fixed(g) == g;
    var all := Pairs(members);
    var s := Plan(k, {}, {});
    EmptyIsBuilt(s);
    var c1 := AllJoin(s, Empty(k), early);
    s := s.(early := {} + early);
    var c2 := AllFind(s, c1, {}, all);
    assert {} + all == all;
    var c3 := AllHear(s, c2, {}, all);
    c := AllContest(s, c3, contest);
    assert {} + early == early && {} + contest == contest;
  }

  // ---- where the election runs start from ----

  lemma Everybody(cfg: Net.Config<Id>, v: Id)
    requires v in cfg.members
    ensures FoundBy(Pairs(cfg.members), v) == Net.Others(cfg, v) && HeardBy(Pairs(cfg.members), v) == Net.Others(cfg, v)
  {
    forall y | y in Net.Others(cfg, v) ensures y in FoundBy(Pairs(cfg.members), v) && y in HeardBy(Pairs(cfg.members), v) {
      assert (v, y) in Pairs(cfg.members) && (y, v) in Pairs(cfg.members);
    }
  }

  lemma MetNode(k: Company, early: set<Id>, c: Cluster, v: Id)
    requires Met(k, early, c) && v in k.cfg.members
    ensures ValidPlan(Plan(k, early, k.cfg.contest)) && Reached(k, c) && v in k.selves
    ensures c.nodes.Keys == k.cfg.members && c.taken == TakenBy(k, Pairs(k.cfg.members))
    ensures c.nodes[v] in Builts(Plan(k, early, k.cfg.contest), v, Net.Others(k.cfg, v), Net.Others(k.cfg, v))
  {
    NodeIsBuilt(Plan(k, early, k.cfg.contest), c, Pairs(k.cfg.members), Pairs(k.cfg.members), v);
    Everybody(k.cfg, v);
  }

  lemma MetIsSeated(k: Company, c: Cluster, v: Id)
    requires Met(k, k.cfg.members, c)
    ensures Seated(k, c, v)
  {
    if v in k.cfg.members {
      MetNode(k, k.cfg.members, c, v);
      assert Net.Others(k.cfg, v) * k.cfg.members == Net.Others(k.cfg, v);
    }
  }

  lemma MetIsSettled(k: Company, c: Cluster, u: Id, v: Id)
    requires Met(k, k.cfg.members, c)
    ensures NodeNetwork.Settled(k, c, u, v)
  {
    if Between(k, u, v) {
      MetNode(k, k.cfg.members, c, u);
      MetNode(k, k.cfg.members, c, v);
      assert (u, v) in Pairs(k.cfg.members);
    }
  }

  /** Any members can be assembled by their own actions, whatever their order of identities and whoever contests. */
  lemma Assembles(g: Name, members: set<Id>, contest: set<Id>) returns (k: Company, c: Cluster)
    requires 2 <= |members| <= 0x1_0000_0000 && contest <= members && |g| <= 255
    ensures Reached(k, c) && Assembled(k, c) && k in Companies(g, members, contest)
  {
    k, c := Meet(g, members, contest, members);
    var v :| v in members;
    MetNode(k, members, c, v);
    forall v ensures Seated(k, c, v) {
      MetIsSeated(k, c, v);
    }
    forall u, v ensures NodeNetwork.Settled(k, c, u, v) {
      MetIsSettled(k, c, u, v);
    }
  }

  /** The last member's node before and after it joins. */
  lemma LastJoins(s: Plan, x: Id, n: NodeView, others: set<Id>)
    requires ValidPlan(s) && x in s.k.selves && x !in s.early && n in Builts(s, x, others, others)
    ensures var w := Act(s.k.selves[x], n, Joins(s.k.g));
            && w.peers == (map y | y in others :: PeerBuilt(s, y, true).(sent := 2))
            && (forall y :: y in others ==> Sent(w, y) == [Greeting(s, x), Packet(2, Join(s.k.g, 1))])
            && !w.failed && GroupOf(w, s.k.g) == GroupOf(n, s.k.g) && VerdictsIn(w.outbox, s.k.g) == []
  {
    assert NodeRules.Reached(n, n.peers.Keys) == others;
  }

  /** A node that joined early awaits the last member's JOIN. */
  lemma EarlyExpects(s: Plan, v: Id, n: NodeView, x: Id)
    requires ValidPlan(s) && s.contesting == s.k.cfg.contest && s.early == s.k.cfg.members - {x}
    requires v in s.early && x in s.k.cfg.members && n in Builts(s, v, Net.Others(s.k.cfg, v), Net.Others(s.k.cfg, v))
    ensures Expects(s.k, n, v, x) && n.peers[x].want == 1 && JoinOf(n, s.k.g, x) == Join(s.k.g, 1)
  {
    assert Net.Others(s.k.cfg, v) * s.early == Net.Others(s.k.cfg, v) - {x};
  }

  /** It has sent as many packets to each other node as it has taken from it, two from `x` or to all as node `x`. */
  ghost predicate Counts(k: Company, w: NodeView, v: Id, x: Id) {
    forall y :: y in Net.Others(k.cfg, v) ==> CountsOf(w, v, x, y)
  }

  predicate CountsOf(w: NodeView, v: Id, x: Id, y: Id) {
    && y in w.peers && w.peers[y].want == (if y == x then 2 else 1)
    && w.peers[y].sent == |Sent(w, y)| == if v == x then 2 else 1
  }

  /** What such a node is once it has that JOIN. */
  ghost function Arrivals(k: Company, v: Id, x: Id): iset<NodeView> {
    iset w: NodeView |
      && Linked(w, Net.Others(k.cfg, v), k.g) && Unaware(w, k.g)
      && GroupOf(w, k.g).leader.None? && (GroupOf(w, k.g).contest <==> v in k.cfg.contest)
      && Counts(k, w, v, x)
  }

  lemma EarlyArrives(s: Plan, v: Id, n: NodeView, x: Id)
    requires Expects(s.k, n, v, x) && x in Net.Others(s.k.cfg, v) && Counts(s.k, Arrived(n, s.k.g, x), v, x)
    ensures Arrived(n, s.k.g, x) in Arrivals(s.k, v, x)
  {
    ArrivedIsUnaware(s.k, n, v, x);
    ArrivedIsLinked(n, Net.Others(s.k.cfg, v) - {x}, s.k.g, x);
    assert Net.Others(s.k.cfg, v) - {x} + {x} == Net.Others(s.k.cfg, v);
  }

  lemma ArrivedIsLinked(n: NodeView, members: set<Id>, g: Name, x: Id)
    requires Linked(n, members, g) && LinkedTo(n, x)
    ensures Linked(Arrived(n, g, x), members + {x}, g) && GroupOf(Arrived(n, g, x), g).leader == GroupOf(n, g).leader
  {
  }

  lemma EarlyCounts(s: Plan, v: Id, n: NodeView, x: Id)
    requires x in Net.Others(s.k.cfg, v) && n in Builts(s, v, Net.Others(s.k.cfg, v), Net.Others(s.k.cfg, v))
    ensures x in n.peers && Counts(s.k, Arrived(n, s.k.g, x), v, x)
  {
    forall y | y in Net.Others(s.k.cfg, v) ensures CountsOf(Arrived(n, s.k.g, x), v, x, y) {
      assert n.wire[y] == [Greeting(s, v)];
    }
  }

  /** The last member's JOIN is on its way to all others. */
  ghost function JoinLeaves(k: Company, c: Cluster, x: Id, last: NodeView): Gathering {
    Gathering(c.(nodes := c.nodes[x := last]), Net.Others(k.cfg, x))
  }

  /** And has reached them. */
  ghost function JoinArrives(k: Company, c: Cluster, x: Id, last: NodeView): Cluster {
    Cluster(map v | v in c.nodes :: if v != x && x in c.nodes[v].peers then Arrived(c.nodes[v], k.g, x) else last,
            map p | p in c.taken :: c.taken[p] + if p.0 == x then 1 else 0)
  }

  /** All have met, all but `x` are in the group, and `last` is the node of `x` after it has joined. */
  ghost predicate LastOf(k: Company, c: Cluster, x: Id, last: NodeView) {
    Met(k, k.cfg.members - {x}, c) && x in k.cfg.members && last in Lasts(k, x)
  }

  ghost function Lasts(k: Company, x: Id): iset<NodeView> {
    var s := Plan(k, k.cfg.members - {x}, k.cfg.contest);
    iset w: NodeView |
      && w.peers == (map y | y in Net.Others(k.cfg, x) :: PeerBuilt(s, y, true).(sent := 2))
      && (forall y :: y in Net.Others(k.cfg, x) ==> Sent(w, y) == [Greeting(s, x), Packet(2, Join(k.g, 1))])
      && Linked(w, Net.Others(k.cfg, x), k.g) && Unaware(w, k.g)
      && GroupOf(w, k.g).leader.None? && (GroupOf(w, k.g).contest <==> x in k.cfg.contest)
  }

  lemma LastNode(k: Company, c: Cluster, x: Id) returns (last: NodeView)
    requires Met(k, k.cfg.members - {x}, c) && x in k.cfg.members
    ensures LastOf(k, c, x, last) && DeedOk(k, c, Does(x, Joins(k.g)), c.(nodes := c.nodes[x := last]))
  {
    var s := Plan(k, k.cfg.members - {x}, k.cfg.contest);
    MetNode(k, s.early, c, x);
    LastJoins(s, x, c.nodes[x], Net.Others(k.cfg, x));
    last := Act(k.selves[x], c.nodes[x], Joins(k.g));
    assert Net.Others(k.cfg, x) * s.early == Net.Others(k.cfg, x);
  }

  lemma EarlyNode(k: Company, c: Cluster, x: Id, v: Id)
    requires Met(k, k.cfg.members - {x}, c) && x in k.cfg.members && v in Net.Others(k.cfg, x)
    ensures v in c.nodes && c.taken == TakenBy(k, Pairs(k.cfg.members))
    ensures var s := Plan(k, k.cfg.members - {x}, k.cfg.contest);
            ValidPlan(s) && c.nodes[v] in Builts(s, v, Net.Others(k.cfg, v), Net.Others(k.cfg, v))
    ensures Expects(k, c.nodes[v], v, x) && c.nodes[v].peers[x].want == 1 && JoinOf(c.nodes[v], k.g, x) == Join(k.g, 1)
  {
    var s := Plan(k, k.cfg.members - {x}, k.cfg.contest);
    MetNode(k, s.early, c, v);
    EarlyExpects(s, v, c.nodes[v], x);
  }

  lemma LastTells(k: Company, x: Id, last: NodeView, v: Id)
    requires last in Lasts(k, x) && v in Net.Others(k.cfg, x)
    ensures |Sent(last, v)| == 2 && Sent(last, v)[1] == Packet(2, Join(k.g, 1))
  {
  }

  /** Node `v` expects the JOIN of `x`, of which it has taken one packet. */
  ghost function Awaitings(k: Company, x: Id, v: Id): iset<Cluster> {
    iset c: Cluster |
      && v in c.nodes && x in c.nodes && (x, v) in c.taken && c.taken[(x, v)] == 1
      && Expects(k, c.nodes[v], v, x) && c.nodes[v].peers[x].want == 1 && JoinOf(c.nodes[v], k.g, x) == Join(k.g, 1)
  }

  lemma EarlyAwaits(k: Company, c: Cluster, x: Id, v: Id)
    requires Met(k, k.cfg.members - {x}, c) && x in k.cfg.members && v in Net.Others(k.cfg, x)
    ensures c in Awaitings(k, x, v)
  {
    MetNode(k, k.cfg.members - {x}, c, x);
    EarlyNode(k, c, x, v);
    assert (x, v) in Pairs(k.cfg.members);
  }

  lemma EarlyWaits(k: Company, c: Cluster, x: Id, last: NodeView, v: Id)
    requires LastOf(k, c, x, last)
    ensures LateWaits(k, x, JoinLeaves(k, c, x, last), v)
  {
    if v in Net.Others(k.cfg, x) {
      EarlyAwaits(k, c, x, v);
      LastTells(k, x, last, v);
      JoinIsNext(k, c, x, last, v);
    }
  }

  lemma JoinIsNext(k: Company, c: Cluster, x: Id, last: NodeView, v: Id)
    requires v in Net.Others(k.cfg, x) && c in Awaitings(k, x, v)
    requires |Sent(last, v)| == 2 && Sent(last, v)[1] == Packet(2, Join(k.g, 1))
    ensures JoinComes(k, JoinLeaves(k, c, x, last).cluster, v, x)
  {
  }

  lemma EarlyArrived(k: Company, c: Cluster, x: Id, v: Id)
    requires Met(k, k.cfg.members - {x}, c) && x in k.cfg.members && v in Net.Others(k.cfg, x)
    ensures v in c.nodes && x in c.nodes[v].peers && Arrived(c.nodes[v], k.g, x) in Arrivals(k, v, x)
  {
    EarlyNode(k, c, x, v);
    EarlyCounts(Plan(k, k.cfg.members - {x}, k.cfg.contest), v, c.nodes[v], x);
    EarlyArrives(Plan(k, k.cfg.members - {x}, k.cfg.contest), v, c.nodes[v], x);
  }

  /** All but `x` are in the group, and the JOIN of `x` would seat each of them. */
  ghost predicate Around(k: Company, c: Cluster, x: Id) {
    && c.nodes.Keys == k.cfg.members && c.taken == TakenBy(k, Pairs(k.cfg.members)) && x in k.cfg.members && ValidCompany(k)
    && (forall v :: v in Net.Others(k.cfg, x) ==> ArrivesAt(k, c, x, v))
  }

  ghost predicate ArrivesAt(k: Company, c: Cluster, x: Id, v: Id) {
    v in c.nodes && x in c.nodes[v].peers && Arrived(c.nodes[v], k.g, x) in Arrivals(k, v, x)
  }

  lemma MetIsAround(k: Company, c: Cluster, x: Id)
    requires Met(k, k.cfg.members - {x}, c) && x in k.cfg.members
    ensures Around(k, c, x)
  {
    MetNode(k, k.cfg.members - {x}, c, x);
    forall v | v in Net.Others(k.cfg, x) ensures ArrivesAt(k, c, x, v) {
      EarlyArrived(k, c, x, v);
    }
  }

  lemma AllInSeated(k: Company, c: Cluster, x: Id, last: NodeView, v: Id)
    requires Around(k, c, x) && last in Lasts(k, x)
    ensures Seated(k, JoinArrives(k, c, x, last), v)
  {
    if v == x {
      LastSits(k, x, last, JoinArrives(k, c, x, last));
    } else if v in k.cfg.members {
      assert ArrivesAt(k, c, x, v);
      ArrivalSits(k, v, x, Arrived(c.nodes[v], k.g, x), JoinArrives(k, c, x, last));
    }
  }

  lemma ArrivalSits(k: Company, v: Id, x: Id, n: NodeView, f: Cluster)
    requires n in Arrivals(k, v, x) && v in f.nodes && f.nodes[v] == n
    ensures f in Seatings(k, v)
  {
  }

  lemma LastSits(k: Company, x: Id, last: NodeView, f: Cluster)
    requires last in Lasts(k, x) && x in f.nodes && f.nodes[x] == last
    ensures f in Seatings(k, x)
  {
  }

  lemma LastCounts(k: Company, x: Id, last: NodeView)
    requires last in Lasts(k, x)
    ensures Counts(k, last, x, x)
  {
    forall y | y in Net.Others(k.cfg, x) ensures CountsOf(last, x, x, y) {
      LastTells(k, x, last, y);
    }
  }

  lemma AllInCount(k: Company, c: Cluster, x: Id, last: NodeView, v: Id, y: Id)
    requires Around(k, c, x) && last in Lasts(k, x) && Between(k, v, y)
    ensures v in JoinArrives(k, c, x, last).nodes && CountsOf(JoinArrives(k, c, x, last).nodes[v], v, x, y)
  {
    if v == x {
      LastCounts(k, x, last);
    } else {
      assert ArrivesAt(k, c, x, v);
    }
  }

  lemma AllInSettled(k: Company, c: Cluster, x: Id, last: NodeView, u: Id, v: Id)
    requires Around(k, c, x) && last in Lasts(k, x)
    ensures NodeNetwork.Settled(k, JoinArrives(k, c, x, last), u, v)
  {
    if Between(k, u, v) {
      assert (u, v) in Pairs(k.cfg.members);
      AllInCount(k, c, x, last, u, v);
      AllInCount(k, c, x, last, v, u);
    }
  }

  lemma AllInAssembled(k: Company, c: Cluster, x: Id, last: NodeView)
    requires Around(k, c, x) && last in Lasts(k, x)
    ensures Assembled(k, JoinArrives(k, c, x, last))
  {
    var f := JoinArrives(k, c, x, last);
    forall v ensures Seated(k, f, v) {
      AllInSeated(k, c, x, last, v);
    }
    forall u, v ensures NodeNetwork.Settled(k, f, u, v) {
      AllInSettled(k, c, x, last, u, v);
    }
  }

  lemma AllInForeseen(k: Company, c: Cluster, x: Id, last: NodeView)
    requires Around(k, c, x)
    ensures Foreseen(k, x, JoinLeaves(k, c, x, last), JoinArrives(k, c, x, last))
  {
    NodesForeseen(k, c, x, last);
    PacketsForeseen(k, c, x, last);
  }

  lemma NodesForeseen(k: Company, c: Cluster, x: Id, last: NodeView)
    requires Around(k, c, x)
    ensures forall v :: NodeForeseen(k, x, JoinLeaves(k, c, x, last), JoinArrives(k, c, x, last), v)
  {
    forall v ensures NodeForeseen(k, x, JoinLeaves(k, c, x, last), JoinArrives(k, c, x, last), v) {
      assert v in Net.Others(k.cfg, x) ==> ArrivesAt(k, c, x, v);
    }
  }

  lemma PacketsForeseen(k: Company, c: Cluster, x: Id, last: NodeView)
    requires Around(k, c, x)
    ensures forall u, v :: TakenForeseen(x, JoinLeaves(k, c, x, last), JoinArrives(k, c, x, last), u, v)
  {
    forall u, v ensures TakenForeseen(x, JoinLeaves(k, c, x, last), JoinArrives(k, c, x, last), u, v) {
      assert (x, v) in Pairs(k.cfg.members) ==> v in Net.Others(k.cfg, x);
    }
  }

  /** Any members, all but the last in the group and each knowing all others, can come to await the last one's JOIN. */
  lemma GatheringIsReached(g: Name, members: set<Id>, contest: set<Id>, x: Id) returns (k: Company, w: Gathering)
    requires 2 <= |members| <= 0x1_0000_0000 && contest <= members && x in members && |g| <= 255
    ensures Reached(k, w.cluster) && Expecting(k, x, w) && k in Companies(g, members, contest)
  {
    var c;
    k, c := Meet(g, members, contest, members - {x});
    var last := LastNode(k, c, x);
    w := JoinLeaves(k, c, x, last);
    MetNode(k, members - {x}, c, x);
    ReachedMore(k, c, Does(x, Joins(k.g)), w.cluster);
    JoinIsExpected(k, c, x, last);
  }

  lemma JoinIsExpected(k: Company, c: Cluster, x: Id, last: NodeView)
    requires LastOf(k, c, x, last)
    ensures Expecting(k, x, JoinLeaves(k, c, x, last))
  {
    var w := JoinLeaves(k, c, x, last);
    MetIsAround(k, c, x);
    forall v ensures LateWaits(k, x, w, v) {
      EarlyWaits(k, c, x, last, v);
    }
    AllInAssembled(k, c, x, last);
    AllInForeseen(k, c, x, last);
  }
}
