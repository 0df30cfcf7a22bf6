/** Safety and cost of every run of an election epoch. */
module ElectionRuns {
  import opened Basics
  import opened Runs
  import opened ElectionRules
  import opened ElectionNetwork
  import opened ElectionInvariant
  import opened ElectionHistory
  import opened ElectionElect
  import opened ElectionLeader

  ghost predicate StepOk<I(!new)>(cfg: Config<I>, s: State<I>, step: Step<I>, s': State<I>) {
    && Enabled(cfg, s, step)
    && (match step
        case Start(v) => v in s.election
        case Deliver(u, v) => u != v && v in s.election && v in s.events)
    && s' == Next(cfg, s, step)
  }

  /** A run of the epoch. */
  ghost predicate IsRun<I(!new)>(cfg: Config<I>, states: seq<State<I>>, steps: seq<Step<I>>) {
    && ValidConfig(cfg)
    && IsTrace((s, step, s') => StepOk(cfg, s, step, s'), states, steps)
    && Init(cfg, states[0])
  }

  lemma StepKeepsInv<I(!new)>(cfg: Config<I>, s: State<I>, step: Step<I>, s': State<I>)
    requires Inv(cfg, s) && StepOk(cfg, s, step, s')
    ensures Inv(cfg, s')
  {
    match step
    case Start(v) => StartKeepsInv(cfg, s, v);
    case Deliver(u, v) =>
      match s.chan[(u, v)][0]
      case Elect(c) => ElectKeepsInv(cfg, s, u, v, c);
      case Leader(l) => LeaderKeepsInv(cfg, s, u, v, l);
  }

  /** Every state of every run satisfies the invariant. */
  lemma RunInv<I(!new)>(cfg: Config<I>, states: seq<State<I>>, steps: seq<Step<I>>, n: nat)
    requires IsRun(cfg, states, steps) && n < |states|
    ensures Inv(cfg, states[n])
  {
    var inv: State<I> -> bool := s => Inv(cfg, s);
    InitInv(cfg, states[0]);
    forall s, step, s' | Inv(cfg, s) && StepOk(cfg, s, step, s') ensures Inv(cfg, s') {
      StepKeepsInv(cfg, s, step, s');
    }
    Induction(inv, (s, step, s') => StepOk(cfg, s, step, s'), states, steps, 0, n);
    assert inv(states[n]);
  }

  // ---- agreement and validity ----

  lemma EventsNameBoss<I(!new)>(cfg: Config<I>, s: State<I>, v: I)
    requires Shape(cfg, s) && Members(cfg, s) && v in cfg.members
    ensures v in s.events && (s.events[v] == [] || (s.h.boss.Some? && s.events[v] == [s.h.boss.value]))
  {
    assert MemberAt(cfg, s, v);
  }

  lemma BossIsLowest<I(!new)>(cfg: Config<I>, h: History<I>, c: I)
    requires ValidConfig(cfg) && Sets(cfg, h) && BossOk(cfg, h) && h.boss.Some?
    ensures h.boss.value in h.started && h.boss.value in cfg.contest
    ensures c in h.started && c != h.boss.value ==> cfg.less(h.boss.value, c)
  {
    assert RankedAlike(cfg, h.boss.value, c);
  }

  /**
   All LEADER events of all members name one node; each member has at most one;
   the node named started, contests, and no member that started is below it.
   */
  lemma Agreement<I(!new)>(cfg: Config<I>, states: seq<State<I>>, steps: seq<Step<I>>, n: nat, v: I, w: I, c: I)
    requires IsRun(cfg, states, steps) && n < |states|
    requires v in cfg.members && w in cfg.members
    ensures v in states[n].events && w in states[n].events
    ensures |states[n].events[v]| <= 1
    ensures states[n].events[v] != [] && states[n].events[w] != [] ==> states[n].events[v] == states[n].events[w]
    ensures states[n].events[v] != [] ==>
      var d := states[n].events[v][0];
      d in cfg.contest && d in states[n].h.started && (c in states[n].h.started && c != d ==> cfg.less(d, c))
  {
    RunInv(cfg, states, steps, n);
    EventsNameBoss(cfg, states[n], v);
    EventsNameBoss(cfg, states[n], w);
    if states[n].events[v] != [] {
      BossIsLowest(cfg, states[n].h, c);
    }
  }

  // ---- what a step sends ----

  ghost function Sends<I>(cfg: Config<I>, s: State<I>, step: Step<I>): seq<Cast<I>> {
    match step
    case Start(v) => [Cast(Others(cfg, v), Elect(v))]
    case Deliver(u, v) =>
      if (u, v) !in s.chan || s.chan[(u, v)] == [] || v !in s.election then []
      else match s.chan[(u, v)][0]
        case Elect(c) => OnElect(cfg.less, v, Others(cfg, v), s.election[v], u, c).casts
        case Leader(l) => OnLeader(v, Others(cfg, v), s.election[v], l).casts
  }

  ghost function Sender<I>(step: Step<I>): I {
    match step
    case Start(v) => v
    case Deliver(_, v) => v
  }

  /** In this step `u` sends `t` to `v`. */
  ghost predicate SendsTo<I>(cfg: Config<I>, s: State<I>, step: Step<I>, u: I, v: I, t: Token<I>) {
    Sender(step) == u && v in Others(cfg, u) && t in Mail(Sends(cfg, s, step), v)
  }

  ghost predicate ReceivesElect<I>(s: State<I>, step: Step<I>, c: I) {
    step.Deliver? && Heads(s, step.src, step.dst, Elect(c))
  }

  /** The LEADER decision: in answer to an ELECT, LEADER goes to every neighbour. */
  ghost predicate Decision<I>(cfg: Config<I>, s: State<I>, step: Step<I>, d: I) {
    && ReceivesElect(s, step, d) && step.dst in s.election
    && Cast(Others(cfg, step.dst), Leader(d)) in Sends(cfg, s, step)
  }

  lemma DecisionIs<I>(cfg: Config<I>, s: State<I>, step: Step<I>, d: I)
    requires Decision(cfg, s, step, d)
    ensures step.dst == d && Completes(cfg, s, step.src, d, d)
  {
  }

  /** A step from a reachable state, in terms of what it does. */
  ghost predicate StepIs<I(!new)>(cfg: Config<I>, s: State<I>, step: Step<I>, s': State<I>) {
    match step
    case Start(v) => MayStart(cfg, s.h, v) && StartStep(cfg, s, v, s')
    case Deliver(u, v) =>
      && (u, v) in s.chan && s.chan[(u, v)] != [] && v in s.election && v in s.events
      && match s.chan[(u, v)][0]
         case Elect(c) => Unheard(cfg, s.h, u, v, c) && ElectStep(cfg, s, u, v, c, s')
         case Leader(l) => LeaderArrives(cfg, s, u, v, l) && LeaderStep(cfg, s, u, v, l, s')
  }

  lemma StepCases<I(!new)>(cfg: Config<I>, s: State<I>, step: Step<I>, s': State<I>)
    requires Inv(cfg, s) && StepOk(cfg, s, step, s')
    ensures StepIs(cfg, s, step, s')
  {
    match step
    case Start(v) => NextStart(cfg, s, v);
    case Deliver(u, v) =>
      match s.chan[(u, v)][0]
      case Elect(c) =>
        ElectInFlight(cfg, s, u, v, c);
        NextElect(cfg, s, u, v, c);
      case Leader(l) =>
        LeaderInFlight(cfg, s, u, v, l);
        NextLeader(cfg, s, u, v, l);
  }

  /** A decision makes the boss known; it was not known before. */
  lemma DecisionStep<I(!new)>(cfg: Config<I>, s: State<I>, step: Step<I>, s': State<I>, d: I)
    requires History0(cfg, s) && StepIs(cfg, s, step, s') && Decision(cfg, s, step, d)
    ensures s.h.boss.None? && s'.h.boss == Some(d) && s'.h.lsent == {d}
  {
    DecisionIs(cfg, s, step, d);
    CompleteFacts(cfg, s, step.src, d, d);
    JoinFacts(cfg, s, step.src, d, d);
    ElectRest(cfg, s, step.src, d, d);
    NoLeaderYet(cfg, s.h, d);
  }

  // ---- what only grows ----

  ghost predicate Grows<I(!new)>(h: History<I>, h': History<I>) {
    h' in Growths(h)
  }

  ghost function Growths<I(!new)>(h: History<I>): iset<History<I>> {
    iset h': History<I> |
      && h.sent <= h'.sent && h.full <= h'.full && h.started <= h'.started
      && (h.boss.Some? ==> h'.boss == h.boss)
  }

  lemma CompletionGrows<I(!new)>(cfg: Config<I>, h: History<I>, v: I, c: I)
    ensures h.boss.None? ==> Grows(h, CompleteHistory(cfg, h, v, c))
  {
  }

  lemma ElectGrows<I(!new)>(cfg: Config<I>, s: State<I>, u: I, v: I, c: I)
    requires History0(cfg, s) && Unheard(cfg, s.h, u, v, c)
    ensures Grows(s.h, ElectHistory(cfg, s, u, v, c))
  {
    CompleteFacts(cfg, s, u, v, c);
    JoinFacts(cfg, s, u, v, c);
    var h := Met(cfg, s, u, v, c);
    assert Grows(s.h, h);
    CompletionGrows(cfg, h, v, c);
  }

  lemma StepGrows<I(!new)>(cfg: Config<I>, s: State<I>, step: Step<I>, s': State<I>)
    requires History0(cfg, s) && StepIs(cfg, s, step, s')
    ensures Grows(s.h, s'.h)
  {
    match step
    case Start(v) =>
    case Deliver(u, v) =>
      match s.chan[(u, v)][0]
      case Elect(c) => ElectGrows(cfg, s, u, v, c);
      case Leader(l) =>
  }

  lemma RunStepIs<I(!new)>(cfg: Config<I>, states: seq<State<I>>, steps: seq<Step<I>>, n: nat)
    requires IsRun(cfg, states, steps) && n < |steps|
    ensures History0(cfg, states[n]) && StepIs(cfg, states[n], steps[n], states[n + 1])
  {
    RunInv(cfg, states, steps, n);
    assert StepAt((s: State<I>, t: Step<I>, s': State<I>) => StepOk(cfg, s, t, s'), states, steps, n);
    StepCases(cfg, states[n], steps[n], states[n + 1]);
  }

  lemma RunStepGrows<I(!new)>(cfg: Config<I>, states: seq<State<I>>, steps: seq<Step<I>>, n: nat)
    requires IsRun(cfg, states, steps) && n < |steps|
    ensures Grows(states[n].h, states[n + 1].h)
  {
    RunStepIs(cfg, states, steps, n);
    StepGrows(cfg, states[n], steps[n], states[n + 1]);
  }

  lemma {:induction false} RunGrows<I(!new)>(cfg: Config<I>, states: seq<State<I>>, steps: seq<Step<I>>, m: nat, n: nat)
    requires IsRun(cfg, states, steps) && m <= n < |states|
    ensures Grows(states[m].h, states[n].h)
    decreases n
  {
    if m < n {
      RunGrows(cfg, states, steps, m, n - 1);
      RunStepGrows(cfg, states, steps, n - 1);
    }
  }

  lemma RunDecision<I(!new)>(cfg: Config<I>, states: seq<State<I>>, steps: seq<Step<I>>, i: nat, d: I)
    requires IsRun(cfg, states, steps) && i < |steps| && Decision(cfg, states[i], steps[i], d)
    ensures states[i].h.boss.None? && states[i + 1].h.boss == Some(d) && states[i + 1].h.lsent == {d}
  {
    RunStepIs(cfg, states, steps, i);
    DecisionStep(cfg, states[i], steps[i], states[i + 1], d);
  }

  /** In every run at most one LEADER decision is made, by a single node. */
  lemma OneDecision<I(!new)>(cfg: Config<I>, states: seq<State<I>>, steps: seq<Step<I>>, i: nat, j: nat, d: I, e: I)
    requires IsRun(cfg, states, steps) && i < j < |steps|
    ensures !(Decision(cfg, states[i], steps[i], d) && Decision(cfg, states[j], steps[j], e))
  {
    if Decision(cfg, states[i], steps[i], d) && Decision(cfg, states[j], steps[j], e) {
      RunDecision(cfg, states, steps, i, d);
      RunGrows(cfg, states, steps, i + 1, j);
      RunDecision(cfg, states, steps, j, e);
    }
  }

  // ---- wave completeness ----

  /** Following the fathers of their records, `x` reaches `d` in `n` links. */
  ghost predicate Reaches<I(!new)>(election: map<I, Option<Record<I>>>, x: I, d: I, n: nat) {
    if n == 0 then x == d
    else
      && x in election && election[x].Some? && election[x].value.father.Some?
      && Reaches(election, election[x].value.father.value, d, n - 1)
  }

  /** `x` is in wave `d` with its ELECT count complete, and its fathers lead to `d`. */
  ghost predicate HasEchoed<I(!new)>(cfg: Config<I>, s: State<I>, d: I, x: I) {
    && x in s.election && s.election[x].Some?
    && s.election[x].value.caw == Some(d)
    && s.election[x].value.erec == |cfg.members| - 1
    && (exists n :: Reaches(s.election, x, d, n))
  }

  ghost function DepthIn<I>(h: History<I>, d: I, x: I): nat {
    if (x, d) in h.depth then h.depth[(x, d)] else 0
  }

  lemma FatherLink<I(!new)>(cfg: Config<I>, s: State<I>, d: I, x: I) returns (p: I)
    requires Structure(cfg, s.h) && Shape(cfg, s) && Members(cfg, s) && BossOk(cfg, s.h)
    requires s.h.boss == Some(d) && x in cfg.members && x != d && s.election[x].Some?
    ensures p in cfg.members && s.election[x].value.father == Some(p)
    ensures DepthIn(s.h, d, p) < DepthIn(s.h, d, x)
  {
    assert MemberAt(cfg, s, x);
    assert FullOk(cfg, s.h, x, d) && FatherOk(cfg, s.h, x, d);
    p := s.h.father[(x, d)];
  }

  lemma {:induction false} FathersLead<I(!new)>(cfg: Config<I>, s: State<I>, d: I, x: I) returns (n: nat)
    requires Structure(cfg, s.h) && Shape(cfg, s) && Members(cfg, s) && BossOk(cfg, s.h)
    requires s.h.boss == Some(d) && (forall y :: y in cfg.members ==> s.election[y].Some?)
    requires x in cfg.members
    ensures Reaches(s.election, x, d, n)
    decreases DepthIn(s.h, d, x)
  {
    if x == d {
      n := 0;
    } else {
      var p := FatherLink(cfg, s, d, x);
      var m := FathersLead(cfg, s, d, p);
      n := m + 1;
    }
  }

  lemma CompleteCount<I(!new)>(cfg: Config<I>, s: State<I>, d: I, x: I)
    requires Structure(cfg, s.h) && Shape(cfg, s) && Members(cfg, s) && BossOk(cfg, s.h)
    requires s.h.boss == Some(d) && x in cfg.members && s.election[x].Some?
    ensures s.election[x].value.caw == Some(d) && s.election[x].value.erec == |cfg.members| - 1
  {
    assert MemberAt(cfg, s, x);
    assert FullOk(cfg, s.h, x, d);
    VoicesDecide(cfg, s.h, x, d);
  }

  lemma NobodyClosed<I(!new)>(cfg: Config<I>, s: State<I>, d: I, x: I)
    requires ValidConfig(cfg) && Shape(cfg, s) && Members(cfg, s) && Leadership(cfg, s.h)
    requires s.h.boss == Some(d) && s.h.lsent == {d} && x in cfg.members
    ensures s.election[x].Some?
  {
    assert MemberAt(cfg, s, x);
    var a := OtherMember(cfg, x);
    assert LeaderHeardOk(s.h, a, x);
  }

  /**
   At the decision every member is in the decider's wave with its count
   complete; the fathers of all members form a tree rooted at the decider.
   */
  lemma WaveCompleteness<I(!new)>(cfg: Config<I>, states: seq<State<I>>, steps: seq<Step<I>>, i: nat, d: I, x: I)
    requires IsRun(cfg, states, steps) && i < |steps| && Decision(cfg, states[i], steps[i], d)
    requires x in cfg.members
    ensures HasEchoed(cfg, states[i + 1], d, x)
  {
    RunDecision(cfg, states, steps, i, d);
    RunInv(cfg, states, steps, i + 1);
    DecisionEchoes(cfg, states[i + 1], d, x);
  }

  lemma DecisionEchoes<I(!new)>(cfg: Config<I>, s: State<I>, d: I, x: I)
    requires Inv(cfg, s) && s.h.boss == Some(d) && s.h.lsent == {d} && x in cfg.members
    ensures HasEchoed(cfg, s, d, x)
  {
    forall y | y in cfg.members ensures s.election[y].Some? {
      NobodyClosed(cfg, s, d, y);
    }
    CompleteCount(cfg, s, d, x);
    var n := FathersLead(cfg, s, d, x);
  }

  /** A node whose wave is not its own has a father to echo to, a neighbour in the same wave. */
  lemma FatherToEchoTo<I(!new)>(cfg: Config<I>, states: seq<State<I>>, steps: seq<Step<I>>, n: nat, v: I)
    requires IsRun(cfg, states, steps) && n < |states| && v in cfg.members
    ensures v in states[n].election
    ensures states[n].election[v].Some? && states[n].election[v].value.caw != Some(v) ==>
      states[n].election[v].value.father.Some? && states[n].election[v].value.father.value in Others(cfg, v)
  {
    RunInv(cfg, states, steps, n);
    FatherIsNeighbour(cfg, states[n], v);
  }

  lemma FatherIsNeighbour<I(!new)>(cfg: Config<I>, s: State<I>, v: I)
    requires Structure(cfg, s.h) && Shape(cfg, s) && Members(cfg, s) && v in cfg.members
    ensures s.election[v].Some? && s.election[v].value.caw != Some(v) ==>
      s.election[v].value.father.Some? && s.election[v].value.father.value in Others(cfg, v)
  {
    assert MemberAt(cfg, s, v);
    if s.election[v].Some? {
      assert FatherOk(cfg, s.h, v, s.h.wave[v]);
    }
  }
}
