/** What nodes that hold an election reach together, in every run. */
module NodeNetworkRuns {
  import opened Basics
  import opened CStrings
  import opened Runs
  import opened NodeRules
  import opened NodeElections
  import opened NodeNetwork
  import Net = ElectionNetwork
  import ElectionInvariant
  import ElectionLeader
  import ElectionRuns
  import ElectionBounds
  import ElectionProgress

  // ---- each run of the nodes is a run of the epoch ----

  function StepOf(m: Move): Net.Step<Id> {
    match m
    case Contends(v) => Net.Start(v)
    case Takes(u, v) => Net.Deliver(u, v)
  }

  function Contender(m: Move): set<Id> {
    match m
    case Contends(v) => {v}
    case Takes(_, _) => {}
  }

  /** The nodes that have started a challenge. */
  function Contenders(moves: seq<Move>): set<Id> {
    if moves == [] then {} else Contenders(moves[..|moves| - 1]) + Contender(moves[|moves| - 1])
  }

  ghost function Pairs(members: set<Id>): set<(Id, Id)> {
    set u, v | u in members && v in members - {u} :: (u, v)
  }

  ghost function Beginning(cfg: Net.Config<Id>): Net.State<Id> {
    Net.State(map v | v in cfg.members :: None, map p | p in Pairs(cfg.members) :: [], map v | v in cfg.members :: [],
              Net.History({}, map[], map[], map[], {}, {}, {}, None, {}, {}, 0, 0))
  }

  ghost function Companies(g: Name, members: set<Id>, contest: set<Id>): iset<Company> {
    iset k: Company | k.g == g && k.cfg.members == members && k.cfg.contest == contest
  }

  lemma AssembledReflects(k: Company, c: Cluster)
    requires Assembled(k, c)
    ensures Net.Init(k.cfg, Beginning(k.cfg)) && Reflects(k, Beginning(k.cfg), c)
  {
    var s := Beginning(k.cfg);
    forall v ensures MirrorsAt(k, s, c, v) {
      assert Seated(k, c, v);
    }
    forall u, v ensures Wired(k, s, c, u, v) {
      assert Settled(k, c, u, v);
    }
  }

  lemma ElectStartsNobody<I>(cfg: Net.Config<I>, s: Net.State<I>, u: I, v: I, c: I)
    requires v in s.election
    ensures Net.ElectHistory(cfg, s, u, v, c).started == s.h.started
  {
    var h0 := s.h.(heard := s.h.heard + {(u, v, c)});
    var h1 := if Net.Joins(cfg, s, v, c) then Net.JoinHistory(cfg, h0, u, v, c) else h0;
    assert h1.started == s.h.started;
    assert Net.CompleteHistory(cfg, h1, v, c).started == h1.started;
  }

  lemma StartedGrows<I(!new)>(cfg: Net.Config<I>, s: Net.State<I>, step: Net.Step<I>, s': Net.State<I>)
    requires ElectionRuns.StepOk(cfg, s, step, s')
    ensures s'.h.started == s.h.started + if step.Start? then {step.who} else {}
  {
    if step.Deliver? && s.chan[(step.src, step.dst)][0].Elect? {
      ElectStartsNobody(cfg, s, step.src, step.dst, s.chan[(step.src, step.dst)][0].challenger);
    }
  }

  /** A LEADER under way names a member, and reaches one that has announced nothing. */
  lemma LeaderComes(cfg: Net.Config<Id>, s: Net.State<Id>, u: Id, v: Id)
    requires ElectionInvariant.Inv(cfg, s) && (u, v) in s.chan && s.chan[(u, v)] != [] && s.chan[(u, v)][0].Leader?
    ensures v in s.events && s.events[v] == [] && s.chan[(u, v)][0].leader in cfg.members
  {
    var l := s.chan[(u, v)][0].leader;
    ElectionLeader.LeaderInFlight(cfg, s, u, v, l);
    assert ElectionInvariant.MemberAt(cfg, s, v);
    assert ElectionInvariant.ChannelOk(s.h, u, v, s.chan[(u, v)]);
  }

  lemma MoveRefines(k: Company, s: Net.State<Id>, c: Cluster, m: Move, c': Cluster) returns (s': Net.State<Id>)
    requires ElectionInvariant.Inv(k.cfg, s) && Reflects(k, s, c) && MoveOk(k, c, m, c')
    ensures ElectionRuns.StepOk(k.cfg, s, StepOf(m), s') && Reflects(k, s', c')
  {
    match m
    case Contends(v) =>
      ContendsReflects(k, s, c, v, c');
      assert ElectionInvariant.MemberAt(k.cfg, s, v);
      s' := Net.Next(k.cfg, s, Net.Start(v));
    case Takes(u, v) =>
      var w := TakenToken(k, s, c, u, v, c');
      if s.chan[(u, v)][0].Leader? {
        LeaderComes(k.cfg, s, u, v);
      }
      TakesReflects(k, s, c, u, v, w, c');
      s' := Net.Next(k.cfg, s, Net.Deliver(u, v));
  }

  /** A run of the epoch goes on as the nodes do. */
  lemma RefinesOneMore(k: Company, epoch: seq<Net.State<Id>>, steps: seq<Net.Step<Id>>, c: Cluster, m: Move, c': Cluster)
      returns (s': Net.State<Id>)
    requires ElectionRuns.IsRun(k.cfg, epoch, steps) && Reflects(k, epoch[|steps|], c) && MoveOk(k, c, m, c')
    ensures ElectionRuns.IsRun(k.cfg, epoch + [s'], steps + [StepOf(m)]) && Reflects(k, s', c')
    ensures s'.h.started == epoch[|steps|].h.started + Contender(m)
  {
    ElectionRuns.RunInv(k.cfg, epoch, steps, |steps|);
    s' := MoveRefines(k, epoch[|steps|], c, m, c');
    StartedGrows(k.cfg, epoch[|steps|], StepOf(m), s');
    EpochGoesOn(k.cfg, epoch, steps, StepOf(m), s');
  }

  lemma EpochGoesOn<I(!new)>(
      cfg: Net.Config<I>, epoch: seq<Net.State<I>>, steps: seq<Net.Step<I>>, step: Net.Step<I>, s': Net.State<I>)
    requires ElectionRuns.IsRun(cfg, epoch, steps) && ElectionRuns.StepOk(cfg, epoch[|steps|], step, s')
    ensures ElectionRuns.IsRun(cfg, epoch + [s'], steps + [step])
  {
    TraceGrows((s, step, s') => ElectionRuns.StepOk(cfg, s, step, s'), epoch, steps, step, s');
  }

  lemma ContendersMore(moves: seq<Move>, n: nat)
    requires 0 < n <= |moves|
    ensures Contenders(moves[..n]) == Contenders(moves[..n - 1]) + Contender(moves[n - 1])
  {
    assert moves[..n][..n - 1] == moves[..n - 1];
  }

  /** The run of the epoch that the nodes take. */
  lemma {:induction false} Refines(k: Company, states: seq<Cluster>, moves: seq<Move>, n: nat)
      returns (epoch: seq<Net.State<Id>>, steps: seq<Net.Step<Id>>)
    requires IsClusterRun(k, states, moves) && n < |states|
    ensures ElectionRuns.IsRun(k.cfg, epoch, steps) && |steps| == n
    ensures Reflects(k, epoch[n], states[n]) && epoch[n].h.started == Contenders(moves[..n])
  {
    if n == 0 {
      AssembledReflects(k, states[0]);
      epoch, steps := [Beginning(k.cfg)], [];
    } else {
      epoch, steps := Refines(k, states, moves, n - 1);
      assert StepAt((c, m, c') => MoveOk(k, c, m, c'), states, moves, n - 1);
      var s' := RefinesOneMore(k, epoch, steps, states[n - 1], moves[n - 1], states[n]);
      ContendersMore(moves, n);
      epoch, steps := epoch + [s'], steps + [StepOf(moves[n - 1])];
    }
  }

  // ---- agreement ----

  /** The leaders that node `v` has announced for the group. */
  function Verdicts(k: Company, c: Cluster, v: Id): seq<Id> {
    if v in c.nodes then VerdictsIn(c.nodes[v].outbox, k.g) else []
  }

  /** No status assertion has fired, and the group names as leader whom the node has announced, if not itself. */
  ghost predicate Follows(k: Company, c: Cluster, v: Id) {
    && v in c.nodes && !c.nodes[v].failed
    && GroupOf(c.nodes[v], k.g).leader == LeaderSeen(Verdicts(k, c, v), v)
  }

  /**
   In every run: each node announces at most one leader, all announce the same
   one, and it is a node that contests, has contended, and is below every other
   node that has.
   */
  lemma NodesAgree(k: Company, states: seq<Cluster>, moves: seq<Move>, n: nat, v: Id, w: Id)
    requires IsClusterRun(k, states, moves) && n < |states| && v in k.cfg.members && w in k.cfg.members
    ensures Follows(k, states[n], v) && |Verdicts(k, states[n], v)| <= 1
    ensures Verdicts(k, states[n], v) != [] && Verdicts(k, states[n], w) != [] ==>
      Verdicts(k, states[n], v) == Verdicts(k, states[n], w)
    ensures Verdicts(k, states[n], v) != [] ==>
      var d := Verdicts(k, states[n], v)[0];
      && d in k.cfg.contest && d in Contenders(moves[..n])
      && (forall x :: x in Contenders(moves[..n]) && x != d ==> Precedes(d, x))
  {
    var epoch, steps := Refines(k, states, moves, n);
    assert MirrorsAt(k, epoch[n], states[n], v) && MirrorsAt(k, epoch[n], states[n], w);
    ElectionRuns.Agreement(k.cfg, epoch, steps, n, v, w, v);
    if Verdicts(k, states[n], v) != [] {
      var d := Verdicts(k, states[n], v)[0];
      forall x | x in Contenders(moves[..n]) && x != d ensures Precedes(d, x) {
        ElectionRuns.Agreement(k.cfg, epoch, steps, n, v, w, x);
        StrLessIff(d, x);
      }
    }
  }

  // ---- progress ----

  /** Everything sent has been taken. */
  ghost predicate AllTaken(k: Company, c: Cluster) {
    forall u, v :: Between(k, u, v) ==> TakenUp(c, u, v)
  }

  predicate TakenUp(c: Cluster, u: Id, v: Id) {
    u in c.nodes && (u, v) in c.taken && c.taken[(u, v)] == |Sent(c.nodes[u], v)|
  }

  lemma TakenIsQuiet(k: Company, s: Net.State<Id>, c: Cluster)
    requires Reflects(k, s, c) && AllTaken(k, c) && ElectionInvariant.Inv(k.cfg, s)
    ensures ElectionProgress.Quiet(s)
  {
    forall p | p in s.chan ensures s.chan[p] == [] {
      assert Between(k, p.0, p.1) && TakenUp(c, p.0, p.1) && Wired(k, s, c, p.0, p.1);
      assert |Numbered(c.nodes[p.1].peers[p.0].want, k.g, s.chan[p])| == 0;
    }
  }

  /**
   Once a node has contended and everything sent has been taken, every node has
   announced one and the same leader, has dropped its election, and its group
   names that leader.
   */
  lemma NodesFinish(k: Company, states: seq<Cluster>, moves: seq<Move>, n: nat) returns (d: Id)
    requires IsClusterRun(k, states, moves) && n < |states|
    requires Contenders(moves[..n]) != {} && AllTaken(k, states[n])
    ensures d in Contenders(moves[..n])
    ensures forall v :: v in k.cfg.members ==>
      && Verdicts(k, states[n], v) == [d] && Follows(k, states[n], v)
      && GroupOf(states[n].nodes[v], k.g).election.None?
  {
    var epoch, steps := Refines(k, states, moves, n);
    ElectionRuns.RunInv(k.cfg, epoch, steps, n);
    TakenIsQuiet(k, epoch[n], states[n]);
    d := ElectionProgress.Progress(k.cfg, epoch, steps, n);
    forall v | v in k.cfg.members
      ensures && Verdicts(k, states[n], v) == [d] && Follows(k, states[n], v)
              && GroupOf(states[n].nodes[v], k.g).election.None?
    {
      assert MirrorsAt(k, epoch[n], states[n], v) && ElectionProgress.Closed(epoch[n], v, d);
    }
  }

  /** The most moves that so many contenders among `n` nodes can make. */
  function Moves(contenders: nat, n: nat): int {
    contenders + contenders * (n * (n - 1)) + n * (n - 1)
  }

  /** Until everything sent has been taken, there is a packet that its addressee can take. */
  lemma NodesGoOn(k: Company, states: seq<Cluster>, moves: seq<Move>, n: nat) returns (u: Id, v: Id, c: Cluster)
    requires IsClusterRun(k, states, moves) && n < |states| && !AllTaken(k, states[n])
    ensures MoveOk(k, states[n], Takes(u, v), c)
  {
    var epoch, steps := Refines(k, states, moves, n);
    u, v :| Between(k, u, v) && !TakenUp(states[n], u, v);
    PacketComes(k, epoch[n], states[n], u, v);
    c := TakenNext(k, states[n], u, v);
  }

  lemma PacketComes(k: Company, s: Net.State<Id>, c: Cluster, u: Id, v: Id)
    requires Reflects(k, s, c) && Between(k, u, v) && !TakenUp(c, u, v)
    ensures Comes(c, u, v) && v in k.selves && v in c.nodes
  {
    assert Wired(k, s, c, u, v);
  }

  lemma TakenNext(k: Company, c: Cluster, u: Id, v: Id) returns (c': Cluster)
    requires Between(k, u, v) && Comes(c, u, v) && v in k.selves && v in c.nodes
    ensures MoveOk(k, c, Takes(u, v), c')
  {
    var p := Sent(c.nodes[u], v)[c.taken[(u, v)]];
    c' := Cluster(c.nodes[v := Act(k.selves[v], c.nodes[v], Receives(u, p, true))], c.taken[(u, v) := c.taken[(u, v)] + 1]);
  }

  /** And every run comes to that, for it has no more moves than its contenders allow. */
  lemma NodesStop(k: Company, states: seq<Cluster>, moves: seq<Move>)
    requires IsClusterRun(k, states, moves)
    ensures |Contenders(moves)| <= |k.cfg.contest| && |moves| <= Moves(|Contenders(moves)|, |k.cfg.members|)
  {
    var epoch, steps := Refines(k, states, moves, |moves|);
    assert moves[..|moves|] == moves;
    EpochStops(k.cfg, epoch, steps);
  }

  lemma EpochStops<I(!new)>(cfg: Net.Config<I>, states: seq<Net.State<I>>, steps: seq<Net.Step<I>>)
    requires ElectionRuns.IsRun(cfg, states, steps)
    ensures var started := states[|steps|].h.started;
            |started| <= |cfg.contest| && |steps| <= Moves(|started|, |cfg.members|)
  {
    ElectionBounds.Termination(cfg, states, steps);
  }
}
