/** How many messages and steps an epoch takes. */
module ElectionBounds {
  import opened ElectionRules
  import opened ElectionNetwork
  import opened ElectionInvariant
  import opened ElectionHistory
  import opened ElectionElect
  import opened ElectionLeader
  import opened ElectionRuns

  // ---- counting what is sent ----

  /** How many ELECT (or else LEADER) messages these casts are. */
  ghost function Tokens<I>(casts: seq<Cast<I>>, elect: bool): nat {
    if casts == [] then 0
    else (if casts[0].token.Elect? == elect then |casts[0].to| else 0) + Tokens(casts[1..], elect)
  }

  ghost function SentAt<I>(cfg: Config<I>, states: seq<State<I>>, steps: seq<Step<I>>, i: nat, elect: bool): nat
    requires i < |steps| < |states|
  {
    Tokens(Sends(cfg, states[i], steps[i]), elect)
  }

  /** The messages of that kind sent in the first `n` steps of a run. */
  ghost function TotalSent<I>(cfg: Config<I>, states: seq<State<I>>, steps: seq<Step<I>>, n: nat, elect: bool): nat
    requires n <= |steps| < |states|
  {
    if n == 0 then 0
    else TotalSent(cfg, states, steps, n - 1, elect) + SentAt(cfg, states, steps, n - 1, elect)
  }

  lemma TokensOne<I>(x: Cast<I>, elect: bool)
    ensures Tokens([x], elect) == if x.token.Elect? == elect then |x.to| else 0
  {
  }

  lemma TokensTwo<I>(x: Cast<I>, y: Cast<I>, elect: bool)
    ensures Tokens([x] + [y], elect) == Tokens([x], elect) + Tokens([y], elect)
  {
    assert ([x] + [y])[1..] == [y];
  }

  lemma ElectTokens<I>(cfg: Config<I>, s: State<I>, u: I, v: I, c: I, elect: bool)
    requires v in s.election
    ensures
      var r := Supporting(cfg.less, RequireRecord(s.election[v]), u, c);
      Tokens(Casts(cfg, s, u, v, c), elect) ==
        (if Joins(cfg, s, v, c) && elect then |Others(cfg, v) - {u}| else 0) +
        (if !Completes(cfg, s, u, v, c) then 0
         else if v == c then (if elect then 0 else |Others(cfg, v)|)
         else if elect then |FatherOf(r)| else 0)
  {
    var r := Supporting(cfg.less, RequireRecord(s.election[v]), u, c);
    var fwd := Cast(Others(cfg, v) - {u}, Elect(c));
    var fin := if v == c then Cast(Others(cfg, v), Leader(c)) else Cast(FatherOf(r), Elect(c));
    TokensOne(fwd, elect);
    TokensOne(fin, elect);
    TokensTwo(fwd, fin, elect);
    var none: seq<Cast<I>> := [];
    assert none + [fin] == [fin];
  }

  lemma ElectCounted<I(!new)>(cfg: Config<I>, s: State<I>, u: I, v: I, c: I)
    requires History0(cfg, s) && Unheard(cfg, s.h, u, v, c)
    ensures
      var h' := ElectHistory(cfg, s, u, v, c);
      && h'.elects == s.h.elects + Tokens(Casts(cfg, s, u, v, c), true)
      && h'.leaders == s.h.leaders + Tokens(Casts(cfg, s, u, v, c), false)
  {
    ElectTokens(cfg, s, u, v, c, true);
    ElectTokens(cfg, s, u, v, c, false);
    CompleteFacts(cfg, s, u, v, c);
    if Supports(cfg, s, v, c) && v != c {
      FatherFacts(cfg, s, u, v, c);
    }
  }

  lemma LeaderCounted<I(!new)>(cfg: Config<I>, s: State<I>, u: I, v: I, l: I)
    requires v in s.election
    ensures
      var out := LeaderResult(cfg, s, v, l);
      && Tokens(out.casts, true) == 0
      && Tokens(out.casts, false) == if out.casts != [] then |Others(cfg, v)| else 0
  {
    var r := RequireRecord(s.election[v]);
    if r.caw.Some? {
      TokensOne(Cast(Others(cfg, v), Leader(r.caw.value)), true);
      TokensOne(Cast(Others(cfg, v), Leader(r.caw.value)), false);
    }
  }

  lemma StepCounted<I(!new)>(cfg: Config<I>, s: State<I>, step: Step<I>, s': State<I>)
    requires History0(cfg, s) && StepIs(cfg, s, step, s')
    ensures s'.h.elects == s.h.elects + Tokens(Sends(cfg, s, step), true)
    ensures s'.h.leaders == s.h.leaders + Tokens(Sends(cfg, s, step), false)
  {
    match step
    case Start(v) =>
      TokensOne(Cast(Others(cfg, v), Elect(v)), true);
      TokensOne(Cast(Others(cfg, v), Elect(v)), false);
    case Deliver(u, v) =>
      match s.chan[(u, v)][0]
      case Elect(c) => ElectCounted(cfg, s, u, v, c);
      case Leader(l) => LeaderCounted(cfg, s, u, v, l);
  }

  lemma RunStepCounted<I(!new)>(cfg: Config<I>, states: seq<State<I>>, steps: seq<Step<I>>, n: nat)
    requires IsRun(cfg, states, steps) && n < |steps|
    ensures states[n + 1].h.elects == states[n].h.elects + SentAt(cfg, states, steps, n, true)
    ensures states[n + 1].h.leaders == states[n].h.leaders + SentAt(cfg, states, steps, n, false)
  {
    RunStepIs(cfg, states, steps, n);
    StepCounted(cfg, states[n], steps[n], states[n + 1]);
  }

  lemma {:induction false} CountersCount<I(!new)>(cfg: Config<I>, states: seq<State<I>>, steps: seq<Step<I>>, n: nat)
    requires IsRun(cfg, states, steps) && n <= |steps|
    ensures states[n].h.elects == TotalSent(cfg, states, steps, n, true)
    ensures states[n].h.leaders == TotalSent(cfg, states, steps, n, false)
  {
    if n > 0 {
      CountersCount(cfg, states, steps, n - 1);
      RunStepCounted(cfg, states, steps, n - 1);
    }
  }

  // ---- sizes ----

  ghost function Fiber<T, K>(ts: set<T>, key: T -> K, k: K): set<T> {
    set t | t in ts && key(t) == k
  }

  /** A set whose every fiber over `keys` has at most `m` elements has at most |keys|*m. */
  lemma {:induction false} Fibers<T, K>(ts: set<T>, keys: set<K>, key: T -> K, m: nat)
    requires forall t :: t in ts ==> key(t) in keys
    requires forall k :: k in keys ==> |Fiber(ts, key, k)| <= m
    ensures |ts| <= |keys| * m
  {
    if keys == {} {
      assert ts == {};
    } else {
      var k :| k in keys;
      var fiber := Fiber(ts, key, k);
      var rest := ts - fiber;
      forall j | j in keys - {k} ensures |Fiber(rest, key, j)| <= m {
        assert Fiber(rest, key, j) == Fiber(ts, key, j);
      }
      Fibers(rest, keys - {k}, key, m);
      assert |ts| == |rest| + |fiber| by {
        assert ts == rest + fiber;
      }
      assert |keys - {k}| == |keys| - 1;
      OneMoreFiber(|keys|, m);
    }
  }

  lemma OneMoreFiber(n: nat, m: nat)
    requires n > 0
    ensures (n - 1) * m + m == n * m
  {
  }

  lemma AtMostOne<T>(ts: set<T>)
    requires forall a, b :: a in ts && b in ts ==> a == b
    ensures |ts| <= 1
  {
    if a :| a in ts {
      assert ts == {a};
    }
  }

  // ---- the bounds ----

  lemma SentInLayer<I(!new)>(cfg: Config<I>, h: History<I>, c: I)
    requires Structure(cfg, h)
    ensures |Fiber(h.sent, (t: (I, I, I)) => t.2, c)| <= |cfg.members| * (|cfg.members| - 1)
  {
    var layer := Fiber(h.sent, (t: (I, I, I)) => t.2, c);
    forall t | t in layer ensures t.0 in cfg.members && t.1 in Others(cfg, t.0) {
      assert TokenOk(cfg, h, t.0, t.1, t.2);
    }
    forall u | u in cfg.members ensures |Fiber(layer, (t: (I, I, I)) => t.0, u)| <= |cfg.members| - 1 {
      var row := Fiber(layer, (t: (I, I, I)) => t.0, u);
      forall v | v in Others(cfg, u) ensures |Fiber(row, (t: (I, I, I)) => t.1, v)| <= 1 {
        AtMostOne(Fiber(row, (t: (I, I, I)) => t.1, v));
      }
      Fibers(row, Others(cfg, u), (t: (I, I, I)) => t.1, 1);
    }
    Fibers(layer, cfg.members, (t: (I, I, I)) => t.0, |cfg.members| - 1);
  }

  lemma SentBound<I(!new)>(cfg: Config<I>, h: History<I>)
    requires Structure(cfg, h)
    ensures |h.sent| <= |h.started| * (|cfg.members| * (|cfg.members| - 1))
  {
    forall t | t in h.sent ensures t.2 in h.started {
      assert TokenOk(cfg, h, t.0, t.1, t.2) && WaveOk(cfg, h, t.0, t.2);
    }
    forall c | c in h.started
      ensures |Fiber(h.sent, (t: (I, I, I)) => t.2, c)| <= |cfg.members| * (|cfg.members| - 1)
    {
      SentInLayer(cfg, h, c);
    }
    Fibers(h.sent, h.started, (t: (I, I, I)) => t.2, |cfg.members| * (|cfg.members| - 1));
  }

  lemma HeardBound<I(!new)>(cfg: Config<I>, h: History<I>)
    requires Structure(cfg, h)
    ensures |h.heard| <= |h.sent|
  {
    forall t | t in h.heard ensures t in h.sent {
      assert TokenOk(cfg, h, t.0, t.1, t.2);
    }
    SubsetCard(h.heard, h.sent);
  }

  lemma LeaderHeardBound<I(!new)>(cfg: Config<I>, h: History<I>)
    requires ValidConfig(cfg) && Sets(cfg, h) && Leadership(cfg, h)
    ensures |h.lheard| <= |cfg.members| * (|cfg.members| - 1)
  {
    forall p | p in h.lheard ensures p.0 in cfg.members && p.1 in Others(cfg, p.0) {
      assert LeaderHeardOk(h, p.0, p.1);
    }
    forall u | u in cfg.members ensures |Fiber(h.lheard, (p: (I, I)) => p.0, u)| <= |cfg.members| - 1 {
      var row := Fiber(h.lheard, (p: (I, I)) => p.0, u);
      forall v | v in Others(cfg, u) ensures |Fiber(row, (p: (I, I)) => p.1, v)| <= 1 {
        AtMostOne(Fiber(row, (p: (I, I)) => p.1, v));
      }
      Fibers(row, Others(cfg, u), (p: (I, I)) => p.1, 1);
    }
    Fibers(h.lheard, cfg.members, (p: (I, I)) => p.0, |cfg.members| - 1);
  }

  /** With k members that started, an epoch of N members sends at most k*N*(N-1) ELECT messages. */
  lemma ElectBound<I(!new)>(cfg: Config<I>, states: seq<State<I>>, steps: seq<Step<I>>, n: nat)
    requires IsRun(cfg, states, steps) && n <= |steps|
    ensures TotalSent(cfg, states, steps, n, true)
      <= |states[n].h.started| * (|cfg.members| * (|cfg.members| - 1))
  {
    RunInv(cfg, states, steps, n);
    CountersCount(cfg, states, steps, n);
    SentBound(cfg, states[n].h);
  }

  ghost function Work<I>(h: History<I>): nat {
    |h.started| + |h.heard| + |h.lheard|
  }

  lemma AddOne<T>(s: set<T>, x: T)
    requires x !in s
    ensures |s + {x}| == |s| + 1
  {
  }

  lemma StepWorks<I(!new)>(cfg: Config<I>, s: State<I>, step: Step<I>, s': State<I>)
    requires History0(cfg, s) && StepIs(cfg, s, step, s')
    ensures Work(s'.h) == Work(s.h) + 1
  {
    match step
    case Start(v) =>
      assert LastOk(s.h, v) && WaveOk(cfg, s.h, v, v);
      AddOne(s.h.started, v);
    case Deliver(u, v) =>
      match s.chan[(u, v)][0]
      case Elect(c) =>
        ElectRest(cfg, s, u, v, c);
        AddOne(s.h.heard, (u, v, c));
        assert s'.h.started == s.h.started;
      case Leader(l) =>
        AddOne(s.h.lheard, (u, v));
  }

  lemma RunStepWorks<I(!new)>(cfg: Config<I>, states: seq<State<I>>, steps: seq<Step<I>>, n: nat)
    requires IsRun(cfg, states, steps) && n < |steps|
    ensures Work(states[n + 1].h) == Work(states[n].h) + 1
  {
    RunStepIs(cfg, states, steps, n);
    StepWorks(cfg, states[n], steps[n], states[n + 1]);
  }

  lemma {:induction false} StepsAreWork<I(!new)>(cfg: Config<I>, states: seq<State<I>>, steps: seq<Step<I>>, n: nat)
    requires IsRun(cfg, states, steps) && n <= |steps|
    ensures Work(states[n].h) == n
  {
    if n > 0 {
      StepsAreWork(cfg, states, steps, n - 1);
      RunStepWorks(cfg, states, steps, n - 1);
    }
  }

  /** No run is infinite: with k members that started it takes at most k + k*N*(N-1) + N*(N-1) steps. */
  lemma Termination<I(!new)>(cfg: Config<I>, states: seq<State<I>>, steps: seq<Step<I>>)
    requires IsRun(cfg, states, steps)
    ensures
      var k := |states[|steps|].h.started|;
      var channels := |cfg.members| * (|cfg.members| - 1);
      k <= |cfg.contest| && |steps| <= k + k * channels + channels
  {
    var n := |steps|;
    RunInv(cfg, states, steps, n);
    StepsAreWork(cfg, states, steps, n);
    SentBound(cfg, states[n].h);
    HeardBound(cfg, states[n].h);
    LeaderHeardBound(cfg, states[n].h);
    SubsetCard(states[n].h.started, cfg.contest);
  }
}
