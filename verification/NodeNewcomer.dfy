/**
 How an election begins: the last member's JOIN.  All nodes but the last list
 each other; its JOIN is on the way to each of them, and each that contests
 starts a challenge when it comes.  Where every node takes that JOIN before any
 other packet, what follows is a run of the election among all of them.
 */
module NodeNewcomer {
  import opened Basics
  import opened CStrings
  import opened Runs
  import opened NodeRules
  import opened NodeStreams
  import opened NodeElections
  import opened NodeNetwork
  import opened NodeNetworkRuns
  import Net = ElectionNetwork

  /** The nodes, and those that the last member's JOIN has not reached. */
  datatype Gathering = Gathering(cluster: Cluster, late: set<Id>)

  /** The JOIN that a node awaits of peer `x`: its status is the next one counted. */
  function JoinOf(n: NodeView, g: Name, x: Id): Body
    requires x in n.peers
  {
    Join(g, NextByte(n.peers[x].status))
  }

  /** The node, which lists all others, is in the group itself and waits for the JOIN of `x`. */
  ghost predicate Expects(k: Company, n: NodeView, v: Id, x: Id) {
    && Linked(n, Net.Others(k.cfg, v) - {x}, k.g) && LinkedTo(n, x) && Unaware(n, k.g) && k.g in n.own
    && GroupOf(n, k.g).leader.None? && (GroupOf(n, k.g).contest <==> v in k.cfg.contest)
  }

  /** The JOIN is the next packet on its way from `x` to `v`. */
  ghost predicate JoinComes(k: Company, c: Cluster, v: Id, x: Id) {
    && Comes(c, x, v) && v in c.nodes && x in c.nodes[v].peers
    && Sent(c.nodes[x], v)[c.taken[(x, v)]]
       == Packet(NextSequence(c.nodes[v].peers[x].want), JoinOf(c.nodes[v], k.g, x))
  }

  ghost function Waitings(k: Company, x: Id, v: Id): iset<Cluster> {
    iset c: Cluster | v in c.nodes && Expects(k, c.nodes[v], v, x) && JoinComes(k, c, v, x)
  }

  /** The node once it has counted the JOIN and listed `x`, and before it starts anything. */
  function Arrived(n: NodeView, g: Name, x: Id): NodeView
    requires x in n.peers
  {
    JoinPeerGroup(Checked(n, x, JoinOf(n, g, x)), x, g)
  }

  ghost predicate NodeForeseen(k: Company, x: Id, w: Gathering, f: Cluster, v: Id) {
    v in w.cluster.nodes ==>
      && v in f.nodes
      && var n := w.cluster.nodes[v];
         f.nodes[v] == if v in w.late && x in n.peers then Arrived(n, k.g, x) else n
  }

  ghost predicate TakenForeseen(x: Id, w: Gathering, f: Cluster, u: Id, v: Id) {
    (u, v) in w.cluster.taken ==>
      && (u, v) in f.taken
      && f.taken[(u, v)] == w.cluster.taken[(u, v)] + if u == x && v in w.late then 1 else 0
  }

  /** `f` is the cluster as it would be if the JOIN had reached everybody. */
  ghost predicate Foreseen(k: Company, x: Id, w: Gathering, f: Cluster) {
    f in Foresights(k, x, w)
  }

  ghost function Foresights(k: Company, x: Id, w: Gathering): iset<Cluster> {
    iset f: Cluster |
      && f.nodes.Keys == w.cluster.nodes.Keys && f.taken.Keys == w.cluster.taken.Keys
      && AllForeseen(k, x, w, f)
  }

  ghost predicate AllForeseen(k: Company, x: Id, w: Gathering, f: Cluster) {
    && (forall v :: NodeForeseen(k, x, w, f, v))
    && (forall u, v :: TakenForeseen(x, w, f, u, v))
  }

  ghost predicate Gathered(k: Company, x: Id, w: Gathering) {
    w in Gatherings(k, x)
  }

  /** The late nodes wait for the JOIN of `x`. */
  ghost function Gatherings(k: Company, x: Id): iset<Gathering> {
    iset w: Gathering | ValidCompany(k) && x in k.cfg.members && w.late <= Net.Others(k.cfg, x) && AllWait(k, x, w)
  }

  ghost predicate AllWait(k: Company, x: Id, w: Gathering) {
    forall v :: LateWaits(k, x, w, v)
  }

  ghost predicate LateWaits(k: Company, x: Id, w: Gathering, v: Id) {
    v in w.late ==> w.cluster in Waitings(k, x, v)
  }

  /** Nobody has taken the JOIN; and when all have, they are assembled. */
  ghost predicate Expecting(k: Company, x: Id, w: Gathering) {
    Gathered(k, x, w) && w.late == Net.Others(k.cfg, x) && exists f :: Foreseen(k, x, w, f) && Assembled(k, f)
  }

  /** Node `v` takes the next packet from `u`, and first of all the JOIN. */
  ghost predicate GatherOk(k: Company, x: Id, w: Gathering, pair: (Id, Id), w': Gathering) {
    && MoveOk(k, w.cluster, Takes(pair.0, pair.1), w'.cluster)
    && (pair.1 in w.late ==> pair.0 == x)
    && w'.late == w.late - {pair.1}
  }

  ghost predicate IsGathering(k: Company, x: Id, states: seq<Gathering>, pairs: seq<(Id, Id)>) {
    && IsTrace((w, pair, w') => GatherOk(k, x, w, pair, w'), states, pairs)
    && Expecting(k, x, states[0])
  }

  // ---- the JOIN comes ----

  lemma JoinedTellsNothing(events: seq<Event>, id: Id, g: Name)
    ensures VerdictsIn(events + [Joined(id, g)], g) == VerdictsIn(events, g)
  {
    assert (events + [Joined(id, g)])[..|events|] == events;
  }

  lemma ArrivedIsUnaware(k: Company, n: NodeView, v: Id, x: Id)
    requires Expects(k, n, v, x)
    ensures Unaware(Arrived(n, k.g, x), k.g) && (GroupOf(Arrived(n, k.g, x), k.g).contest <==> v in k.cfg.contest)
  {
    JoinedTellsNothing(n.outbox, x, k.g);
  }

  /** The node after it has handled the JOIN. */
  function AfterJoin(k: Company, me: Self, n: NodeView, v: Id, x: Id): NodeView
    requires x in n.peers
  {
    if v in k.cfg.contest then StartElection(me, Arrived(n, k.g, x), k.g) else Arrived(n, k.g, x)
  }

  /** A node that takes the JOIN it expects lists `x`, and starts a challenge if it contests. */
  lemma JoinStarts(k: Company, me: Self, n: NodeView, v: Id, x: Id)
    requires Expects(k, n, v, x)
    ensures Act(me, n, Receives(x, Packet(NextSequence(n.peers[x].want), JoinOf(n, k.g, x)), true)) == AfterJoin(k, me, n, v, x)
  {
  }

  // ---- each step is one of the foreseen cluster, or none ----

  /** What comes next from `u` to `v` is the same in the two clusters. */
  ghost predicate ComesAlike(c: Cluster, f: Cluster, u: Id, v: Id) {
    && u in c.nodes && v in c.nodes && (u, v) in c.taken && u in f.nodes && v in f.nodes && (u, v) in f.taken
    && f.nodes[v] == c.nodes[v] && Sent(f.nodes[u], v) == Sent(c.nodes[u], v) && f.taken[(u, v)] == c.taken[(u, v)]
  }

  lemma OtherComesAlike(k: Company, x: Id, w: Gathering, f: Cluster, u: Id, v: Id)
    requires Foreseen(k, x, w, f) && v !in w.late
    requires u in w.cluster.nodes && v in w.cluster.nodes && (u, v) in w.cluster.taken
    ensures ComesAlike(w.cluster, f, u, v)
  {
    assert NodeForeseen(k, x, w, f, u) && NodeForeseen(k, x, w, f, v) && TakenForeseen(x, w, f, u, v);
  }

  lemma TakesAlike(k: Company, c: Cluster, f: Cluster, u: Id, v: Id, c': Cluster, f': Cluster)
    requires MoveOk(k, c, Takes(u, v), c') && ComesAlike(c, f, u, v)
    requires f' == Cluster(f.nodes[v := c'.nodes[v]], f.taken[(u, v) := f.taken[(u, v)] + 1])
    ensures MoveOk(k, f, Takes(u, v), f')
  {
  }

  /** A packet taken by a node that is not late. */
  lemma OtherTakes(k: Company, x: Id, w: Gathering, f: Cluster, u: Id, v: Id, w': Gathering) returns (f': Cluster)
    requires Gathered(k, x, w) && Foreseen(k, x, w, f) && GatherOk(k, x, w, (u, v), w') && v !in w.late
    ensures Foreseen(k, x, w', f') && MoveOk(k, f, Takes(u, v), f')
  {
    OtherComesAlike(k, x, w, f, u, v);
    f' := Cluster(f.nodes[v := w'.cluster.nodes[v]], f.taken[(u, v) := f.taken[(u, v)] + 1]);
    TakesAlike(k, w.cluster, f, u, v, w'.cluster, f');
    OtherForeseen(k, x, w, f, u, v, w', f');
  }

  lemma OtherForeseen(k: Company, x: Id, w: Gathering, f: Cluster, u: Id, v: Id, w': Gathering, f': Cluster)
    requires Foreseen(k, x, w, f) && GatherOk(k, x, w, (u, v), w') && v !in w.late && v in f.nodes && (u, v) in f.taken
    requires f' == Cluster(f.nodes[v := w'.cluster.nodes[v]], f.taken[(u, v) := f.taken[(u, v)] + 1])
    ensures Foreseen(k, x, w', f')
  {
    forall y ensures NodeForeseen(k, x, w', f', y) {
      assert NodeForeseen(k, x, w, f, y);
    }
    forall a, b ensures TakenForeseen(x, w', f', a, b) {
      assert TakenForeseen(x, w, f, a, b);
    }
  }

  /** What the late nodes wait for is still the next packet. */
  lemma OtherTakesStill(k: Company, x: Id, w: Gathering, u: Id, v: Id, w': Gathering)
    requires Gathered(k, x, w) && GatherOk(k, x, w, (u, v), w') && v !in w.late
    ensures Gathered(k, x, w')
  {
    forall y ensures LateWaits(k, x, w', y) {
      assert LateWaits(k, x, w, y) && w'.late == w.late;
      if y in w.late {
        StillWaits(k, x, w.cluster, u, v, w'.cluster, y);
      }
    }
  }

  lemma StillWaits(k: Company, x: Id, c: Cluster, u: Id, v: Id, c': Cluster, y: Id)
    requires c in Waitings(k, x, y) && MoveOk(k, c, Takes(u, v), c') && v != y
    ensures c' in Waitings(k, x, y)
  {
    if v == x {
      var p := Sent(c.nodes[u], v)[c.taken[(u, v)]];
      ActAdvances(k.selves[v], c.nodes[v], Receives(u, p, true), y);
    }
    StillComes(k, x, c, c', y);
  }

  lemma StillComes(k: Company, x: Id, c: Cluster, c': Cluster, y: Id)
    requires JoinComes(k, c, y, x) && y in c'.nodes && c'.nodes[y] == c.nodes[y]
    requires (x, y) in c'.taken && c'.taken[(x, y)] == c.taken[(x, y)]
    requires x in c'.nodes && Sent(c.nodes[x], y) <= Sent(c'.nodes[x], y)
    ensures JoinComes(k, c', y, x)
  {
  }

  /** The JOIN taken by a late node. */
  lemma JoinMoves(k: Company, x: Id, w: Gathering, v: Id, w': Gathering)
    requires Gathered(k, x, w) && GatherOk(k, x, w, (x, v), w') && v in w.late
    ensures v in w.cluster.nodes && v in k.selves && Expects(k, w.cluster.nodes[v], v, x) && (x, v) in w.cluster.taken
    ensures w'.cluster.nodes == w.cluster.nodes[v := AfterJoin(k, k.selves[v], w.cluster.nodes[v], v, x)]
    ensures w'.cluster.taken == w.cluster.taken[(x, v) := w.cluster.taken[(x, v)] + 1]
  {
    assert LateWaits(k, x, w, v);
    JoinStarts(k, k.selves[v], w.cluster.nodes[v], v, x);
  }

  /** In the foreseen cluster the node then starts its challenge, or does nothing. */
  lemma JoinMoved(k: Company, x: Id, n: NodeView, f: Cluster, v: Id, f': Cluster)
    requires v in k.selves && v in f.nodes && Expects(k, n, v, x) && f.nodes[v] == Arrived(n, k.g, x)
    requires f' == f.(nodes := f.nodes[v := AfterJoin(k, k.selves[v], n, v, x)])
    ensures if v in k.cfg.contest then MoveOk(k, f, Contends(v), f') else f' == f
  {
    ArrivedIsUnaware(k, n, v, x);
    if v !in k.cfg.contest {
      assert f'.nodes == f.nodes;
    }
  }

  lemma JoinTaken(k: Company, x: Id, w: Gathering, f: Cluster, v: Id, w': Gathering) returns (f': Cluster)
    requires Foreseen(k, x, w, f) && v in w.late && w'.late == w.late - {v}
    requires v in w.cluster.nodes && v in k.selves && Expects(k, w.cluster.nodes[v], v, x) && (x, v) in w.cluster.taken
    requires w'.cluster.nodes == w.cluster.nodes[v := AfterJoin(k, k.selves[v], w.cluster.nodes[v], v, x)]
    requires w'.cluster.taken == w.cluster.taken[(x, v) := w.cluster.taken[(x, v)] + 1]
    ensures Foreseen(k, x, w', f')
    ensures if v in k.cfg.contest then MoveOk(k, f, Contends(v), f') else f' == f
  {
    assert NodeForeseen(k, x, w, f, v);
    f' := f.(nodes := f.nodes[v := w'.cluster.nodes[v]]);
    JoinMoved(k, x, w.cluster.nodes[v], f, v, f');
    JoinTakenForeseen(k, x, w, f, v, w', f');
  }

  lemma JoinTakenForeseen(k: Company, x: Id, w: Gathering, f: Cluster, v: Id, w': Gathering, f': Cluster)
    requires Foreseen(k, x, w, f) && v in w.late && w'.late == w.late - {v} && v in w.cluster.nodes && (x, v) in w.cluster.taken
    requires v in w'.cluster.nodes && w'.cluster.nodes == w.cluster.nodes[v := w'.cluster.nodes[v]]
    requires w'.cluster.taken == w.cluster.taken[(x, v) := w.cluster.taken[(x, v)] + 1]
    requires f' == f.(nodes := f.nodes[v := w'.cluster.nodes[v]])
    ensures Foreseen(k, x, w', f')
  {
    forall y ensures NodeForeseen(k, x, w', f', y) {
      assert NodeForeseen(k, x, w, f, y);
    }
    forall a, b ensures TakenForeseen(x, w', f', a, b) {
      assert TakenForeseen(x, w, f, a, b);
    }
  }

  lemma JoinTakenStill(k: Company, x: Id, w: Gathering, v: Id, w': Gathering)
    requires Gathered(k, x, w) && GatherOk(k, x, w, (x, v), w') && v in w.late
    ensures Gathered(k, x, w')
  {
    forall y ensures LateWaits(k, x, w', y) {
      assert LateWaits(k, x, w, y);
    }
  }

  /** The members that contest and that the JOIN has reached. */
  function Started(k: Company, x: Id, late: set<Id>): set<Id> {
    k.cfg.contest - {x} - late
  }

  /** The JOIN makes a node that does not contest do nothing. */
  predicate Passes(k: Company, late: set<Id>, v: Id) {
    v in late && v !in k.cfg.contest
  }

  function MoveOf(late: set<Id>, u: Id, v: Id): Move {
    if v in late then Contends(v) else Takes(u, v)
  }

  lemma StepForeseen(k: Company, x: Id, w: Gathering, f: Cluster, u: Id, v: Id, w': Gathering) returns (f': Cluster)
    requires Gathered(k, x, w) && Foreseen(k, x, w, f) && GatherOk(k, x, w, (u, v), w')
    ensures Gathered(k, x, w') && Foreseen(k, x, w', f') && w'.late == w.late - {v}
    ensures if Passes(k, w.late, v) then f' == f else MoveOk(k, f, MoveOf(w.late, u, v), f')
  {
    if v in w.late {
      JoinMoves(k, x, w, v, w');
      f' := JoinTaken(k, x, w, f, v, w');
      JoinTakenStill(k, x, w, v, w');
    } else {
      f' := OtherTakes(k, x, w, f, u, v, w');
      OtherTakesStill(k, x, w, u, v, w');
    }
  }

  /**
   This is a run to the foreseen cluster, in which just those have contended that
   contest and have taken the JOIN; it stands for `n` packets taken.
   */
  ghost predicate StandsFor(k: Company, x: Id, w: Gathering, n: nat, clusters: seq<Cluster>, moves: seq<Move>) {
    w in Ends(k, x, n, clusters, moves)
  }

  ghost function Ends(k: Company, x: Id, n: nat, clusters: seq<Cluster>, moves: seq<Move>): iset<Gathering> {
    iset w: Gathering |
      && IsClusterRun(k, clusters, moves) && Gathered(k, x, w) && Foreseen(k, x, w, clusters[|moves|])
      && Contenders(moves) == Started(k, x, w.late)
      && n <= |moves| + |Net.Others(k.cfg, x)| - |w.late|
  }

  lemma StandsByMove(k: Company, x: Id, w: Gathering, n: nat, clusters: seq<Cluster>, moves: seq<Move>, m: Move, f: Cluster)
    requires IsClusterRun(k, clusters, moves) && MoveOk(k, clusters[|moves|], m, f) && Gathered(k, x, w) && Foreseen(k, x, w, f)
    requires Contenders(moves) + Contender(m) == Started(k, x, w.late)
    requires n <= |moves| + 1 + |Net.Others(k.cfg, x)| - |w.late|
    ensures StandsFor(k, x, w, n, clusters + [f], moves + [m])
  {
    RunGoesOn(k, clusters, moves, m, f);
  }

  lemma LateShrinks(late: set<Id>, v: Id)
    ensures |late - {v}| == |late| - if v in late then 1 else 0
  {
    assert v !in late ==> late - {v} == late;
  }

  lemma StandsForMore(k: Company, x: Id, w: Gathering, n: nat, clusters: seq<Cluster>, moves: seq<Move>,
      u: Id, v: Id, w': Gathering)
      returns (clusters': seq<Cluster>, moves': seq<Move>)
    requires StandsFor(k, x, w, n, clusters, moves) && GatherOk(k, x, w, (u, v), w')
    ensures StandsFor(k, x, w', n + 1, clusters', moves')
  {
    var f' := StepForeseen(k, x, w, clusters[|moves|], u, v, w');
    LateShrinks(w.late, v);
    if Passes(k, w.late, v) {
      assert Started(k, x, w.late - {v}) == Started(k, x, w.late);
      clusters', moves' := clusters, moves;
    } else {
      StartedMore(k, x, w.late, u, v);
      StandsByMove(k, x, w', n + 1, clusters, moves, MoveOf(w.late, u, v), f');
      clusters', moves' := clusters + [f'], moves + [MoveOf(w.late, u, v)];
    }
  }

  /** Every run of the nodes is a run of the foreseen cluster. */
  lemma {:induction false} Foresees(k: Company, x: Id, states: seq<Gathering>, pairs: seq<(Id, Id)>, n: nat)
      returns (clusters: seq<Cluster>, moves: seq<Move>)
    requires IsGathering(k, x, states, pairs) && n < |states|
    ensures StandsFor(k, x, states[n], n, clusters, moves)
  {
    if n == 0 {
      clusters, moves := FirstForeseen(k, x, states[0]);
    } else {
      clusters, moves := Foresees(k, x, states, pairs, n - 1);
      assert StepAt((w, pair, w') => GatherOk(k, x, w, pair, w'), states, pairs, n - 1);
      var (u, v) := pairs[n - 1];
      clusters, moves := StandsForMore(k, x, states[n - 1], n - 1, clusters, moves, u, v, states[n]);
    }
  }

  lemma StartedMore(k: Company, x: Id, late: set<Id>, u: Id, v: Id)
    requires !Passes(k, late, v) && x !in late
    ensures Started(k, x, late - {v}) == Started(k, x, late) + Contender(MoveOf(late, u, v))
  {
  }

  lemma FirstForeseen(k: Company, x: Id, w: Gathering) returns (clusters: seq<Cluster>, moves: seq<Move>)
    requires Expecting(k, x, w)
    ensures StandsFor(k, x, w, 0, clusters, moves)
  {
    var f :| Foreseen(k, x, w, f) && Assembled(k, f);
    clusters, moves := [f], [];
    assert Started(k, x, w.late) == {};
  }

  lemma RunGoesOn(k: Company, clusters: seq<Cluster>, moves: seq<Move>, m: Move, f: Cluster)
    requires IsClusterRun(k, clusters, moves) && MoveOk(k, clusters[|moves|], m, f)
    ensures IsClusterRun(k, clusters + [f], moves + [m])
    ensures Contenders(moves + [m]) == Contenders(moves) + Contender(m)
  {
    TraceGrows((c, m, c') => MoveOk(k, c, m, c'), clusters, moves, m, f);
    assert (moves + [m])[..|moves|] == moves;
  }

  // ---- what they reach ----

  lemma SameVerdicts(k: Company, x: Id, w: Gathering, f: Cluster, v: Id)
    requires Gathered(k, x, w) && Foreseen(k, x, w, f)
    ensures Verdicts(k, f, v) == Verdicts(k, w.cluster, v)
  {
    assert NodeForeseen(k, x, w, f, v);
    if v in w.late {
      assert LateWaits(k, x, w, v);
      JoinedTellsNothing(w.cluster.nodes[v].outbox, x, k.g);
    }
  }

  /**
   At any time each node has announced at most one leader, all the same one: a
   node that contests, and lowest among all that do and have taken the JOIN.
   */
  lemma NodesElect(k: Company, x: Id, states: seq<Gathering>, pairs: seq<(Id, Id)>, n: nat, v: Id, w: Id)
    requires IsGathering(k, x, states, pairs) && n < |states| && v in k.cfg.members && w in k.cfg.members
    ensures |Verdicts(k, states[n].cluster, v)| <= 1
    ensures Verdicts(k, states[n].cluster, v) != [] && Verdicts(k, states[n].cluster, w) != [] ==>
      Verdicts(k, states[n].cluster, v) == Verdicts(k, states[n].cluster, w)
    ensures Verdicts(k, states[n].cluster, v) != [] ==>
      var d := Verdicts(k, states[n].cluster, v)[0];
      && d in Started(k, x, states[n].late)
      && (forall y :: y in Started(k, x, states[n].late) && y != d ==> Precedes(d, y))
  {
    var clusters, moves := Foresees(k, x, states, pairs, n);
    SameVerdicts(k, x, states[n], clusters[|moves|], v);
    SameVerdicts(k, x, states[n], clusters[|moves|], w);
    assert moves[..|moves|] == moves;
    NodesAgree(k, clusters, moves, |moves|, v, w);
  }

  lemma LateIsBehind(k: Company, x: Id, w: Gathering, v: Id)
    requires Gathered(k, x, w) && v in w.late
    ensures Between(k, x, v) && !TakenUp(w.cluster, x, v)
  {
    assert LateWaits(k, x, w, v);
  }

  lemma NobodyLate(k: Company, x: Id, w: Gathering, f: Cluster)
    requires Gathered(k, x, w) && Foreseen(k, x, w, f) && AllTaken(k, w.cluster)
    ensures w.late == {} && f == w.cluster
  {
    forall v ensures v !in w.late {
      if v in w.late {
        LateIsBehind(k, x, w, v);
        assert false;
      }
    }
    SameWhenNobodyLate(k, x, w, f);
  }

  lemma SameWhenNobodyLate(k: Company, x: Id, w: Gathering, f: Cluster)
    requires Foreseen(k, x, w, f) && w.late == {}
    ensures f == w.cluster
  {
    forall v | v in f.nodes ensures f.nodes[v] == w.cluster.nodes[v] {
      assert NodeForeseen(k, x, w, f, v);
    }
    forall p | p in f.taken ensures f.taken[p] == w.cluster.taken[p] {
      assert TakenForeseen(x, w, f, p.0, p.1);
    }
  }

  /**
   When everything sent has been taken, and some member other than the last one
   contests, every node has announced the lowest of those that do, has dropped
   its election, and its group names that leader.
   */
  lemma LowestIsElected(k: Company, x: Id, states: seq<Gathering>, pairs: seq<(Id, Id)>, n: nat) returns (d: Id)
    requires IsGathering(k, x, states, pairs) && n < |states|
    requires AllTaken(k, states[n].cluster) && k.cfg.contest - {x} != {}
    ensures d in k.cfg.contest - {x} && forall y :: y in k.cfg.contest - {x} && y != d ==> Precedes(d, y)
    ensures forall v :: v in k.cfg.members ==>
      && Verdicts(k, states[n].cluster, v) == [d] && Follows(k, states[n].cluster, v)
      && GroupOf(states[n].cluster.nodes[v], k.g).election.None?
  {
    var clusters, moves := Foresees(k, x, states, pairs, n);
    NobodyLate(k, x, states[n], clusters[|moves|]);
    assert moves[..|moves|] == moves && Started(k, x, {}) == k.cfg.contest - {x};
    d := NodesFinish(k, clusters, moves, |moves|);
    NodesAgree(k, clusters, moves, |moves|, x, x);
  }

  /** Until everything sent has been taken, some node can take a packet, and one that is late the JOIN. */
  lemma GatheringGoesOn(k: Company, x: Id, states: seq<Gathering>, pairs: seq<(Id, Id)>, n: nat)
      returns (u: Id, v: Id, w: Gathering)
    requires IsGathering(k, x, states, pairs) && n < |states| && !AllTaken(k, states[n].cluster)
    ensures GatherOk(k, x, states[n], (u, v), w)
  {
    var clusters, moves := Foresees(k, x, states, pairs, n);
    if late :| late in states[n].late {
      u, v := x, late;
      w := JoinTakes(k, x, states[n], late);
    } else {
      assert states[n].late == {};
      SameWhenNobodyLate(k, x, states[n], clusters[|moves|]);
      var c;
      u, v, c := NodesGoOn(k, clusters, moves, |moves|);
      w := Gathering(c, {});
    }
  }

  lemma JoinTakes(k: Company, x: Id, w: Gathering, v: Id) returns (w': Gathering)
    requires Gathered(k, x, w) && v in w.late
    ensures GatherOk(k, x, w, (x, v), w')
  {
    assert LateWaits(k, x, w, v);
    var c := TakenNext(k, w.cluster, x, v);
    w' := Gathering(c, w.late - {v});
  }

  /** And that comes about, for there are no more packets to take than those that have started allow. */
  lemma GatheringStops(k: Company, x: Id, states: seq<Gathering>, pairs: seq<(Id, Id)>)
    requires IsGathering(k, x, states, pairs)
    ensures |pairs| <= Moves(|Started(k, x, states[|pairs|].late)|, |k.cfg.members|) + |k.cfg.members|
  {
    var clusters, moves := Foresees(k, x, states, pairs, |pairs|);
    NodesStop(k, clusters, moves);
    assert |Net.Others(k.cfg, x)| == |k.cfg.members| - 1;
  }
}
