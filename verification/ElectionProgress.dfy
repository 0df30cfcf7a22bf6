/** Every epoch that starts ends with every member knowing the leader. */
module ElectionProgress {
  import opened Basics
  import opened CStrings
  import opened ElectionRules
  import opened ElectionNetwork
  import opened ElectionInvariant
  import opened ElectionElect
  import opened ElectionLeader
  import opened ElectionRuns
  import opened ElectionBounds

  /** No ELECT or LEADER is in flight. */
  ghost predicate Quiet<I(!new)>(s: State<I>) {
    forall p :: p in s.chan ==> s.chan[p] == []
  }

  /** The member has told its application of one leader and dropped its election. */
  ghost predicate Closed<I(!new)>(s: State<I>, v: I, d: I) {
    s in ClosedStates(v, d)
  }

  ghost function ClosedStates<I(!new)>(v: I, d: I): iset<State<I>> {
    iset s: State<I> | v in s.election && s.election[v].None? && v in s.events && s.events[v] == [d]
  }

  // ---- what quiet channels imply ----

  lemma QuietHeard<I(!new)>(cfg: Config<I>, s: State<I>, u: I, v: I, c: I)
    requires Structure(cfg, s.h) && Shape(cfg, s) && Channels(s) && Quiet(s)
    requires Owes(cfg, s.h, u, v, c)
    ensures (u, v, c) in s.h.heard
  {
    assert TokenOk(cfg, s.h, u, v, c);
    assert (u, v) in s.chan && ChannelOk(s.h, u, v, s.chan[(u, v)]);
  }

  lemma QuietLeaderHeard<I(!new)>(cfg: Config<I>, s: State<I>, u: I, v: I)
    requires Shape(cfg, s) && Channels(s) && Quiet(s)
    requires s.h.boss.Some? && u in s.h.lsent && v in cfg.members && u != v
    ensures (u, v) in s.h.lheard
  {
    assert (u, v) in s.chan && ChannelOk(s.h, u, v, s.chan[(u, v)]);
    assert Leader(s.h.boss.value) !in s.chan[(u, v)];
  }

  // ---- the lowest wave reaches everybody ----

  lemma {:induction false} Lowest<I(!new)>(cfg: Config<I>, cs: set<I>) returns (m: I)
    requires cs != {} && cs <= cfg.rank.Keys
    ensures m in cs && forall c :: c in cs ==> cfg.rank[m] <= cfg.rank[c]
  {
    m :| m in cs;
    if cs != {m} {
      var n := Lowest(cfg, cs - {m});
      if cfg.rank[n] < cfg.rank[m] {
        m := n;
      }
    }
  }

  /** `m` is a lowest challenger. */
  ghost predicate IsLowest<I>(cfg: Config<I>, h: History<I>, m: I)
    requires h.started <= cfg.rank.Keys
  {
    m in h.started && forall c :: c in h.started ==> cfg.rank[m] <= cfg.rank[c]
  }

  lemma LowestReaches<I(!new)>(cfg: Config<I>, s: State<I>, m: I, v: I)
    requires Structure(cfg, s.h) && Shape(cfg, s) && Channels(s) && Quiet(s)
    requires IsLowest(cfg, s.h, m) && v in cfg.members
    ensures v in s.h.wave && s.h.wave[v] == m && In(s.h, v, m)
  {
    assert LastOk(s.h, m) && FatherOk(cfg, s.h, m, m) && WaveOk(cfg, s.h, m, m);
    if v != m {
      QuietHeard(cfg, s, m, v, m);
      assert TokenOk(cfg, s.h, m, v, m);
    }
    assert LastOk(s.h, v) && WaveOk(cfg, s.h, v, s.h.wave[v]);
    assert RankedAlike(cfg, m, s.h.wave[v]);
  }

  // ---- and is echoed by everybody ----

  lemma {:induction false} DepthBound<I(!new)>(depth: map<(I, I), nat>, keys: set<(I, I)>) returns (bound: nat)
    requires keys <= depth.Keys
    ensures forall p :: p in keys ==> depth[p] <= bound
  {
    bound := 0;
    if p :| p in keys {
      var rest := DepthBound(depth, keys - {p});
      bound := if rest < depth[p] then depth[p] else rest;
    }
  }

  lemma {:induction false} LowestEchoed<I(!new)>(cfg: Config<I>, s: State<I>, m: I, v: I, bound: nat)
    requires Structure(cfg, s.h) && Shape(cfg, s) && Channels(s) && Quiet(s)
    requires IsLowest(cfg, s.h, m) && v in cfg.members && v != m
    requires forall p :: p in s.h.depth ==> s.h.depth[p] <= bound
    ensures (v, m) in s.h.full
    decreases bound - if (v, m) in s.h.depth then s.h.depth[(v, m)] else 0
  {
    LowestReaches(cfg, s, m, v);
    forall x | x in cfg.members && x != v ensures (x, v, m) in s.h.heard {
      LowestReaches(cfg, s, m, x);
      assert FatherOk(cfg, s.h, x, m);
      if s.h.father[(x, m)] == v {
        LowestEchoed(cfg, s, m, x, bound);
      }
      QuietHeard(cfg, s, x, v, m);
    }
    assert DoneOk(cfg, s.h, v);
  }

  lemma LowestDecides<I(!new)>(cfg: Config<I>, s: State<I>, m: I)
    requires Structure(cfg, s.h) && Shape(cfg, s) && Channels(s) && Quiet(s)
    requires IsLowest(cfg, s.h, m)
    ensures s.h.boss == Some(m)
  {
    var bound := DepthBound(s.h.depth, s.h.depth.Keys);
    LowestReaches(cfg, s, m, m);
    forall x | x in cfg.members && x != m ensures (x, m, m) in s.h.heard {
      LowestReaches(cfg, s, m, x);
      LowestEchoed(cfg, s, m, x, bound);
      QuietHeard(cfg, s, x, m, m);
    }
    assert DoneOk(cfg, s.h, m) && FullOk(cfg, s.h, m, m);
  }

  // ---- and then everybody closes ----

  lemma EveryoneRelays<I(!new)>(cfg: Config<I>, s: State<I>, v: I)
    requires ValidConfig(cfg) && Shape(cfg, s) && Leadership(cfg, s.h) && Channels(s) && Quiet(s)
    requires s.h.boss.Some? && v in cfg.members
    ensures v in s.h.lsent
  {
    var d := s.h.boss.value;
    if v != d {
      QuietLeaderHeard(cfg, s, d, v);
      assert LeaderHeardOk(s.h, d, v);
    }
  }

  lemma EveryoneCloses<I(!new)>(cfg: Config<I>, s: State<I>, v: I)
    requires Inv(cfg, s) && Quiet(s) && s.h.boss.Some? && v in cfg.members
    ensures Closed(s, v, s.h.boss.value)
  {
    forall u | u in Others(cfg, v) ensures u in LeaderVoices(cfg, s.h, v) {
      EveryoneRelays(cfg, s, u);
      QuietLeaderHeard(cfg, s, u, v);
    }
    assert MemberAt(cfg, s, v);
  }

  /**
   A reachable state of an epoch that has started, with nothing in flight, is one
   where every member has announced the same leader, once, and dropped its
   election: no interleaving deadlocks.
   */
  lemma Progress<I(!new)>(cfg: Config<I>, states: seq<State<I>>, steps: seq<Step<I>>, n: nat) returns (d: I)
    requires IsRun(cfg, states, steps) && n < |states|
    requires states[n].h.started != {} && Quiet(states[n])
    ensures forall v :: v in cfg.members ==> Closed(states[n], v, d)
    ensures d in states[n].h.started
  {
    var s := states[n];
    RunInv(cfg, states, steps, n);
    d := Lowest(cfg, s.h.started);
    LowestDecides(cfg, s, d);
    forall v | v in cfg.members ensures Closed(s, v, d) {
      EveryoneCloses(cfg, s, v);
    }
  }

  lemma QuietLeaders<I(!new)>(cfg: Config<I>, s: State<I>)
    requires Inv(cfg, s) && Quiet(s) && s.h.started != {}
    ensures s.h.leaders == |cfg.members| * (|cfg.members| - 1)
  {
    var d := Lowest(cfg, s.h.started);
    LowestDecides(cfg, s, d);
    forall v | v in cfg.members ensures v in s.h.lsent {
      EveryoneRelays(cfg, s, v);
    }
    assert s.h.lsent == cfg.members;
  }

  /** A complete epoch of N members has sent exactly N*(N-1) LEADER messages. */
  lemma LeaderTotal<I(!new)>(cfg: Config<I>, states: seq<State<I>>, steps: seq<Step<I>>, n: nat)
    requires IsRun(cfg, states, steps) && n <= |steps|
    requires states[n].h.started != {} && Quiet(states[n])
    ensures TotalSent(cfg, states, steps, n, false) == |cfg.members| * (|cfg.members| - 1)
  {
    RunInv(cfg, states, steps, n);
    QuietLeaders(cfg, states[n]);
    CountersCount(cfg, states, steps, n);
  }

  // ---- coherence and clean close ----

  /**
   A LEADER is only ever received by a live election whose wave is the leader
   announced, so the relay carries the right id and the reset warning is
   unreachable.
   */
  lemma LeaderCoherent<I(!new)>(cfg: Config<I>, states: seq<State<I>>, steps: seq<Step<I>>, n: nat, u: I, v: I, l: I)
    requires IsRun(cfg, states, steps) && n < |states|
    requires Heads(states[n], u, v, Leader(l))
    ensures v in states[n].election && states[n].election[v].Some? && states[n].election[v].value.caw == Some(l)
  {
    RunInv(cfg, states, steps, n);
    LeaderInFlight(cfg, states[n], u, v, l);
  }

  /** Once a member has closed its election, nothing is in flight to it, now or later. */
  lemma NothingAfterClose<I(!new)>(cfg: Config<I>, states: seq<State<I>>, steps: seq<Step<I>>, n: nat, u: I, v: I, d: I)
    requires IsRun(cfg, states, steps) && n < |states|
    requires (u, v) in states[n].chan && Closed(states[n], v, d)
    ensures states[n].chan[(u, v)] == []
  {
    RunInv(cfg, states, steps, n);
    ClosedIsQuiet(cfg, states[n], u, v, d);
  }

  lemma ClosedIsQuiet<I(!new)>(cfg: Config<I>, s: State<I>, u: I, v: I, d: I)
    requires Inv(cfg, s) && (u, v) in s.chan && Closed(s, v, d)
    ensures s.chan[(u, v)] == []
  {
    assert MemberAt(cfg, s, v);
    assert u in Others(cfg, v);
    assert ChannelOk(s.h, u, v, s.chan[(u, v)]);
  }

  lemma ClosedStep<I(!new)>(cfg: Config<I>, s: State<I>, step: Step<I>, s': State<I>, v: I, d: I)
    requires Shape(cfg, s) && Members(cfg, s) && StepIs(cfg, s, step, s') && Closed(s, v, d)
    ensures Closed(s', v, d)
  {
    assert MemberAt(cfg, s, v);
    assert forall u :: u in LeaderVoices(cfg, s.h, v) <==> u in Others(cfg, v);
    match step
    case Start(x) =>
    case Deliver(u, x) =>
  }

  lemma RunClosedStep<I(!new)>(cfg: Config<I>, states: seq<State<I>>, steps: seq<Step<I>>, n: nat, v: I, d: I)
    requires IsRun(cfg, states, steps) && n < |steps|
    requires Closed(states[n], v, d)
    ensures Closed(states[n + 1], v, d)
  {
    RunStepIs(cfg, states, steps, n);
    ClosedStep(cfg, states[n], steps[n], states[n + 1], v, d);
  }

  /** No later message revives a closed election. */
  lemma {:induction false} ClosedForever<I(!new)>(cfg: Config<I>, states: seq<State<I>>, steps: seq<Step<I>>, m: nat, n: nat, v: I, d: I)
    requires IsRun(cfg, states, steps) && m <= n < |states|
    requires Closed(states[m], v, d)
    ensures Closed(states[n], v, d)
    decreases n
  {
    if m < n {
      ClosedForever(cfg, states, steps, m, n - 1, v, d);
      RunClosedStep(cfg, states, steps, n - 1, v, d);
    }
  }

  // ---- the epochs of the source ----

  /** Any members and any contesting subset, ordered by `strcmp`, make a valid epoch. */
  lemma StrcmpEpoch(members: set<Octets>, contest: set<Octets>) returns (cfg: Config<Octets>)
    requires 2 <= |members| <= 0x1_0000_0000 && contest <= members
    ensures ValidConfig(cfg) && cfg.members == members && cfg.contest == contest && cfg.less == StrLess
    ensures Ranks(members, cfg.rank)
  {
    var rank := RanksExist(members);
    cfg := Config(members, contest, StrLess, rank);
    forall a, b ensures RankedAlike(cfg, a, b) {
      assert RanksAgree(rank, a, b);
      StrLessIff(a, b);
    }
  }
}
