/** Token accounting, message bounds and termination of an election epoch. */
module ElectionCost {
  import opened Basics
  import opened ElectionRules
  import opened ElectionNetwork
  import opened ElectionInvariant
  import opened ElectionHistory
  import opened ElectionChannel
  import opened ElectionElect
  import opened ElectionLeader
  import opened ElectionRuns

  // ---- one ELECT per channel and challenger ----

  lemma StartSends<I(!new)>(cfg: Config<I>, s: State<I>, x: I, v: I, c: I)
    requires Structure(cfg, s.h) && x !in s.h.wave
    requires SendsTo(cfg, s, Start(x), x, v, Elect(c))
    ensures (x, v, c) !in s.h.sent && (x, v, c) in StartHistory(cfg, s.h, x).sent
  {
    MailOne(Cast(Others(cfg, x), Elect(x)), v);
    assert TokenOk(cfg, s.h, x, v, c) && WaveOk(cfg, s.h, x, c);
  }

  lemma ElectSends<I(!new)>(cfg: Config<I>, s: State<I>, u: I, x: I, k: I, v: I, c: I)
    requires History0(cfg, s) && Unheard(cfg, s.h, u, x, k) && v in Others(cfg, x)
    requires Elect(c) in Mail(Casts(cfg, s, u, x, k), v)
    ensures (x, v, c) !in s.h.sent && (x, v, c) in ElectHistory(cfg, s, u, x, k).sent
  {
    ElectMailIs(cfg, s, u, x, k, v);
    ForwardIsNew(cfg, s, u, x, k, v);
    ElectSent(cfg, s, u, x, k, v, c);
  }

  lemma LeaderSendsNoElect<I>(cfg: Config<I>, s: State<I>, x: I, l: I, v: I, c: I)
    requires x in s.election
    ensures Elect(c) !in Mail(LeaderResult(cfg, s, x, l).casts, v)
  {
    var r := RequireRecord(s.election[x]);
    if r.caw.Some? {
      MailOne(Cast(Others(cfg, x), Leader(r.caw.value)), v);
    }
  }

  lemma SentIsNew<I(!new)>(cfg: Config<I>, s: State<I>, step: Step<I>, s': State<I>, u: I, v: I, c: I)
    requires History0(cfg, s) && StepIs(cfg, s, step, s')
    requires SendsTo(cfg, s, step, u, v, Elect(c))
    ensures (u, v, c) !in s.h.sent && (u, v, c) in s'.h.sent
  {
    match step
    case Start(x) => StartSends(cfg, s, x, v, c);
    case Deliver(a, x) =>
      match s.chan[(a, x)][0]
      case Elect(k) => ElectSends(cfg, s, a, x, k, v, c);
      case Leader(l) => LeaderSendsNoElect(cfg, s, x, l, v, c);
  }

  lemma RunSentIsNew<I(!new)>(cfg: Config<I>, states: seq<State<I>>, steps: seq<Step<I>>, i: nat, u: I, v: I, c: I)
    requires IsRun(cfg, states, steps) && i < |steps| && SendsTo(cfg, states[i], steps[i], u, v, Elect(c))
    ensures (u, v, c) !in states[i].h.sent && (u, v, c) in states[i + 1].h.sent
  {
    RunStepIs(cfg, states, steps, i);
    SentIsNew(cfg, states[i], steps[i], states[i + 1], u, v, c);
  }

  /** In a whole run, a member sends ELECT for a given challenger to a given neighbour at most once. */
  lemma OneElectPerChannel<I(!new)>(cfg: Config<I>, states: seq<State<I>>, steps: seq<Step<I>>, i: nat, j: nat, u: I, v: I, c: I)
    requires IsRun(cfg, states, steps) && i < j < |steps|
    ensures !(SendsTo(cfg, states[i], steps[i], u, v, Elect(c)) && SendsTo(cfg, states[j], steps[j], u, v, Elect(c)))
  {
    if SendsTo(cfg, states[i], steps[i], u, v, Elect(c)) && SendsTo(cfg, states[j], steps[j], u, v, Elect(c)) {
      RunSentIsNew(cfg, states, steps, i, u, v, c);
      RunGrows(cfg, states, steps, i + 1, j);
      RunSentIsNew(cfg, states, steps, j, u, v, c);
    }
  }

  // ---- the wave of a node only decreases ----

  ghost function CawOf<I>(s: State<I>, v: I): Option<I> {
    if v in s.election && s.election[v].Some? then s.election[v].value.caw else None
  }

  lemma ElectCaw<I(!new)>(cfg: Config<I>, s: State<I>, u: I, v: I, c: I)
    requires History0(cfg, s) && Unheard(cfg, s.h, u, v, c)
    ensures
      var caw := NewRecordOf(cfg, s, u, v, c).caw;
      CawOf(s, v).Some? ==> caw == CawOf(s, v) || (caw.Some? && cfg.less(caw.value, CawOf(s, v).value))
  {
    NewRecordIs(cfg, s, u, v, c);
  }

  lemma LeaderCaw<I>(cfg: Config<I>, s: State<I>, v: I, l: I)
    requires v in s.election
    ensures LeaderResult(cfg, s, v, l).election.Some? && CawOf(s, v).Some? ==>
      LeaderResult(cfg, s, v, l).election.value.caw == CawOf(s, v)
  {
  }

  /** While a node's election lives, each step keeps its wave or lowers it. */
  lemma CawDecreases<I(!new)>(cfg: Config<I>, states: seq<State<I>>, steps: seq<Step<I>>, i: nat, v: I)
    requires IsRun(cfg, states, steps) && i < |steps|
    requires CawOf(states[i], v).Some? && CawOf(states[i + 1], v).Some?
    ensures CawOf(states[i + 1], v) == CawOf(states[i], v)
      || cfg.less(CawOf(states[i + 1], v).value, CawOf(states[i], v).value)
  {
    RunStepIs(cfg, states, steps, i);
    CawStep(cfg, states[i], steps[i], states[i + 1], v);
  }

  lemma CawStep<I(!new)>(cfg: Config<I>, s: State<I>, step: Step<I>, s': State<I>, v: I)
    requires History0(cfg, s) && StepIs(cfg, s, step, s')
    requires CawOf(s, v).Some? && CawOf(s', v).Some?
    ensures CawOf(s', v) == CawOf(s, v) || cfg.less(CawOf(s', v).value, CawOf(s, v).value)
  {
    match step
    case Start(x) =>
      assert MemberAt(cfg, s, x);
    case Deliver(u, x) =>
      match s.chan[(u, x)][0]
      case Elect(c) => ElectCaw(cfg, s, u, x, c);
      case Leader(l) => LeaderCaw(cfg, s, x, l);
  }

  // ---- the ELECT counter ----

  /** `v` has received ELECT(`c`) from `u` in one of the first `n` steps. */
  ghost predicate Received<I(!new)>(states: seq<State<I>>, steps: seq<Step<I>>, n: nat, u: I, v: I, c: I)
    requires n <= |steps| < |states|
  {
    exists j :: 0 <= j < n && steps[j] == Deliver(u, v) && ReceivesElect(states[j], steps[j], c)
  }

  lemma HeardStep<I(!new)>(cfg: Config<I>, s: State<I>, step: Step<I>, s': State<I>, u: I, v: I, c: I)
    requires StepIs(cfg, s, step, s')
    ensures (u, v, c) in s'.h.heard <==> (u, v, c) in s.h.heard || (step == Deliver(u, v) && ReceivesElect(s, step, c))
  {
    match step
    case Start(x) =>
    case Deliver(a, x) =>
      match s.chan[(a, x)][0]
      case Elect(k) => ElectRest(cfg, s, a, x, k);
      case Leader(l) =>
  }

  lemma ReceivedStep<I(!new)>(states: seq<State<I>>, steps: seq<Step<I>>, n: nat, u: I, v: I, c: I)
    requires n < |steps| < |states|
    ensures Received(states, steps, n + 1, u, v, c) <==>
      Received(states, steps, n, u, v, c) || (steps[n] == Deliver(u, v) && ReceivesElect(states[n], steps[n], c))
  {
    if Received(states, steps, n, u, v, c) {
      var j :| 0 <= j < n && steps[j] == Deliver(u, v) && ReceivesElect(states[j], steps[j], c);
      assert Received(states, steps, n + 1, u, v, c);
    }
  }

  lemma {:induction false} HeardIsReceived<I(!new)>(cfg: Config<I>, states: seq<State<I>>, steps: seq<Step<I>>, n: nat, u: I, v: I, c: I)
    requires IsRun(cfg, states, steps) && n <= |steps|
    ensures (u, v, c) in states[n].h.heard <==> Received(states, steps, n, u, v, c)
  {
    if n > 0 {
      HeardIsReceived(cfg, states, steps, n - 1, u, v, c);
      ReceivedStep(states, steps, n - 1, u, v, c);
      RunHeard(cfg, states, steps, n - 1, u, v, c);
    }
  }

  lemma RunHeard<I(!new)>(cfg: Config<I>, states: seq<State<I>>, steps: seq<Step<I>>, n: nat, u: I, v: I, c: I)
    requires IsRun(cfg, states, steps) && n < |steps|
    ensures (u, v, c) in states[n + 1].h.heard <==>
      (u, v, c) in states[n].h.heard || (steps[n] == Deliver(u, v) && ReceivesElect(states[n], steps[n], c))
  {
    RunStepIs(cfg, states, steps, n);
    HeardStep(cfg, states[n], steps[n], states[n + 1], u, v, c);
  }

  /** The ELECT counter of a live election is the number of distinct neighbours heard in its wave. */
  lemma CounterIsDistinctSenders<I(!new)>(cfg: Config<I>, states: seq<State<I>>, steps: seq<Step<I>>, n: nat, v: I)
    requires IsRun(cfg, states, steps) && n <= |steps| && CawOf(states[n], v).Some?
    ensures
      var c := CawOf(states[n], v).value;
      states[n].election[v].value.erec ==
        |set u | u in Others(cfg, v) && Received(states, steps, n, u, v, c)| <= |Others(cfg, v)|
  {
    var c := CawOf(states[n], v).value;
    RunInv(cfg, states, steps, n);
    CounterIsVoices(cfg, states[n], v, c);
    var senders := set u | u in Others(cfg, v) && Received(states, steps, n, u, v, c);
    forall u ensures u in senders <==> u in Voices(cfg, states[n].h, v, c) {
      HeardIsReceived(cfg, states, steps, n, u, v, c);
    }
    assert senders == Voices(cfg, states[n].h, v, c);
    SubsetCard(senders, Others(cfg, v));
  }

  lemma CounterIsVoices<I(!new)>(cfg: Config<I>, s: State<I>, v: I, c: I)
    requires Structure(cfg, s.h) && Shape(cfg, s) && Members(cfg, s) && CawOf(s, v) == Some(c)
    ensures s.election[v].value.erec == |Voices(cfg, s.h, v, c)|
    ensures Voices(cfg, s.h, v, c) <= Others(cfg, v)
  {
    assert MemberAt(cfg, s, v);
    forall u | u in Voices(cfg, s.h, v, c) ensures u in Others(cfg, v) {
      assert TokenOk(cfg, s.h, u, v, c);
    }
  }

  /** The equality test on the counter succeeds at most once per node and wave. */
  lemma OneCompletionPerWave<I(!new)>(cfg: Config<I>, states: seq<State<I>>, steps: seq<Step<I>>, i: nat, j: nat, v: I, c: I)
    requires IsRun(cfg, states, steps) && i < j < |steps|
    ensures !(CompletionAt(cfg, states[i], steps[i], v, c) && CompletionAt(cfg, states[j], steps[j], v, c))
  {
    if CompletionAt(cfg, states[i], steps[i], v, c) && CompletionAt(cfg, states[j], steps[j], v, c) {
      RunCompletionIsNew(cfg, states, steps, i, v, c);
      RunGrows(cfg, states, steps, i + 1, j);
      RunCompletionIsNew(cfg, states, steps, j, v, c);
    }
  }

  lemma RunCompletionIsNew<I(!new)>(cfg: Config<I>, states: seq<State<I>>, steps: seq<Step<I>>, i: nat, v: I, c: I)
    requires IsRun(cfg, states, steps) && i < |steps| && CompletionAt(cfg, states[i], steps[i], v, c)
    ensures (v, c) !in states[i].h.full && (v, c) in states[i + 1].h.full
  {
    RunStepIs(cfg, states, steps, i);
    CompletionIsNew(cfg, states[i], steps[i], states[i + 1], v, c);
  }

  ghost predicate CompletionAt<I>(cfg: Config<I>, s: State<I>, step: Step<I>, v: I, c: I) {
    ReceivesElect(s, step, c) && step.dst == v && v in s.election && Completes(cfg, s, step.src, v, c)
  }

  lemma CompletionIsNew<I(!new)>(cfg: Config<I>, s: State<I>, step: Step<I>, s': State<I>, v: I, c: I)
    requires History0(cfg, s) && StepIs(cfg, s, step, s') && CompletionAt(cfg, s, step, v, c)
    ensures (v, c) !in s.h.full && (v, c) in s'.h.full
  {
    CompleteIsNew(cfg, s, step.src, v, c);
  }
}
