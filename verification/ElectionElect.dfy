/** Receiving an ELECT keeps the invariant. */
module ElectionElect {
  import opened Basics
  import opened ElectionRules
  import opened ElectionNetwork
  import opened ElectionInvariant
  import opened ElectionHistory
  import opened ElectionDecision
  import opened ElectionChannel

  ghost predicate Heads<I>(s: State<I>, u: I, v: I, m: Token<I>) {
    (u, v) in s.chan && s.chan[(u, v)] != [] && s.chan[(u, v)][0] == m
  }

  lemma ElectInFlight<I(!new)>(cfg: Config<I>, s: State<I>, u: I, v: I, c: I)
    requires Structure(cfg, s.h) && Shape(cfg, s) && Channels(s)
    requires Heads(s, u, v, Elect(c))
    ensures Unheard(cfg, s.h, u, v, c)
  {
    assert ChannelOk(s.h, u, v, s.chan[(u, v)]);
    assert Elect(c) in s.chan[(u, v)];
    assert TokenOk(cfg, s.h, u, v, c) && WaveOk(cfg, s.h, u, c);
  }

  /** After the decision an ELECT can only belong to a beaten wave. */
  lemma ElectAfterDecision<I(!new)>(cfg: Config<I>, h: History<I>, u: I, v: I, c: I)
    requires Structure(cfg, h) && BossOk(cfg, h) && h.boss.Some?
    requires Unheard(cfg, h, u, v, c)
    ensures v in h.wave && cfg.rank[h.wave[v]] < cfg.rank[c]
  {
    assert FullOk(cfg, h, v, h.boss.value) && RankedAlike(cfg, h.boss.value, c);
  }

  lemma SubsetCard<T>(a: set<T>, b: set<T>)
    requires a <= b
    ensures |a| <= |b| && (|a| == |b| ==> a == b)
  {
    if a != b {
      assert b == a + (b - a);
    }
  }

  /** The token is counted: it belongs to the wave the node is in once it has met the challenger. */
  ghost predicate Supports<I>(cfg: Config<I>, s: State<I>, v: I, c: I)
    requires v in s.election
  {
    Joins(cfg, s, v, c) || (v in s.h.wave && s.h.wave[v] == c)
  }

  /** The node joins exactly when this wave is new to it and below its own. */
  lemma JoinFacts<I(!new)>(cfg: Config<I>, s: State<I>, u: I, v: I, c: I)
    requires Structure(cfg, s.h) && Shape(cfg, s) && Members(cfg, s) && BossOk(cfg, s.h)
    requires Unheard(cfg, s.h, u, v, c)
    ensures Joins(cfg, s, v, c) <==> v !in s.h.wave || cfg.rank[c] < cfg.rank[s.h.wave[v]]
    ensures Joins(cfg, s, v, c) ==> !In(s.h, v, c) && v != c && Voices(cfg, s.h, v, c) == {} && s.h.boss.None?
    ensures !Joins(cfg, s, v, c) ==>
      v in s.h.wave && s.election[v].Some? && RecordOk(cfg, s.h, v, s.election[v].value)
    ensures
      var r := Supporting(cfg.less, RequireRecord(s.election[v]), u, c);
      && (r.caw == Some(c) <==> Supports(cfg, s, v, c))
      && (Supports(cfg, s, v, c) ==> s.h.boss.None? && r.erec == |Voices(cfg, s.h, v, c)|)
  {
    assert MemberAt(cfg, s, v);
    if v in s.h.wave {
      assert RankedAlike(cfg, c, s.h.wave[v]);
    }
    assert WaveOk(cfg, s.h, v, c) && LastOk(s.h, v) && WaveOk(cfg, s.h, v, v);
    if s.h.boss.Some? {
      ElectAfterDecision(cfg, s.h, u, v, c);
    }
    if s.election[v].None? {
      assert u in Others(cfg, v);
      assert v !in s.h.wave;
    }
    forall x | x in Voices(cfg, s.h, v, c)
      ensures v in s.h.wave && cfg.rank[s.h.wave[v]] <= cfg.rank[c]
    {
      assert TokenOk(cfg, s.h, x, v, c);
    }
  }

  lemma VoicesAreOthers<I(!new)>(cfg: Config<I>, h: History<I>, u: I, v: I, c: I)
    requires Structure(cfg, h) && Unheard(cfg, h, u, v, c)
    ensures
      var voices := Voices(cfg, h, v, c) + {u};
      && voices <= Others(cfg, v)
      && |voices| == |Voices(cfg, h, v, c)| + 1 <= |Others(cfg, v)| == |cfg.members| - 1
      && (|voices| == |Others(cfg, v)| <==> voices == Others(cfg, v))
  {
    forall x | x in Voices(cfg, h, v, c) ensures x in Others(cfg, v) {
      assert TokenOk(cfg, h, x, v, c);
    }
    SubsetCard(Voices(cfg, h, v, c) + {u}, Others(cfg, v));
  }

  lemma CountIsExact<I>(cfg: Config<I>, s: State<I>, u: I, v: I, c: I, voices: set<I>)
    requires v in s.election
    requires
      var r := Supporting(cfg.less, RequireRecord(s.election[v]), u, c);
      && (r.caw == Some(c) <==> Supports(cfg, s, v, c))
      && (Supports(cfg, s, v, c) ==> r.erec + 1 == |voices| <= |Others(cfg, v)| < 0x1_0000_0000)
    requires |voices| == |Others(cfg, v)| <==> voices == Others(cfg, v)
    ensures Completes(cfg, s, u, v, c) <==> Supports(cfg, s, v, c) && voices == Others(cfg, v)
    ensures Supports(cfg, s, v, c) ==>
      Increment(Supporting(cfg.less, RequireRecord(s.election[v]), u, c).erec) == |voices|
  {
  }

  /** The counter is complete exactly when every neighbour has been heard in this wave. */
  lemma CompleteFacts<I(!new)>(cfg: Config<I>, s: State<I>, u: I, v: I, c: I)
    requires Structure(cfg, s.h) && Shape(cfg, s) && Members(cfg, s) && BossOk(cfg, s.h)
    requires Unheard(cfg, s.h, u, v, c)
    ensures Completes(cfg, s, u, v, c) <==> Supports(cfg, s, v, c) && Voices(cfg, s.h, v, c) + {u} == Others(cfg, v)
    ensures Supports(cfg, s, v, c) ==>
      Increment(Supporting(cfg.less, RequireRecord(s.election[v]), u, c).erec) == |Voices(cfg, s.h, v, c) + {u}|
  {
    JoinFacts(cfg, s, u, v, c);
    VoicesAreOthers(cfg, s.h, u, v, c);
    CountIsExact(cfg, s, u, v, c, Voices(cfg, s.h, v, c) + {u});
  }

  // ---- the history ----

  ghost function Met<I>(cfg: Config<I>, s: State<I>, u: I, v: I, c: I): History<I>
    requires v in s.election
  {
    if Joins(cfg, s, v, c) then Join(cfg, s.h, u, v, c) else Hear(s.h, u, v, c)
  }

  ghost predicate History0<I(!new)>(cfg: Config<I>, s: State<I>) {
    s in Histories(cfg)
  }

  ghost function Histories<I(!new)>(cfg: Config<I>): iset<State<I>> {
    iset s: State<I> |
      Structure(cfg, s.h) && Shape(cfg, s) && Members(cfg, s) && Leadership(cfg, s.h) && Counts(cfg, s.h)
  }

  lemma MetVoices<I>(cfg: Config<I>, s: State<I>, u: I, v: I, c: I)
    requires v in s.election && u in cfg.members
    ensures
      var h := Met(cfg, s, u, v, c);
      && Voices(cfg, h, v, c) == Voices(cfg, s.h, v, c) + {u}
      && h.boss == s.h.boss && h.lsent == s.h.lsent && h.lheard == s.h.lheard && h.started == s.h.started
      && h.full == s.h.full && h.leaders == s.h.leaders
      && (Supports(cfg, s, v, c) ==> v in h.wave && h.wave[v] == c)
  {
  }

  lemma MetStructure<I(!new)>(cfg: Config<I>, s: State<I>, u: I, v: I, c: I)
    requires History0(cfg, s) && Unheard(cfg, s.h, u, v, c)
    ensures StructureBut(cfg, Met(cfg, s, u, v, c), {v})
    ensures !Supports(cfg, s, v, c) ==> Structure(cfg, Met(cfg, s, u, v, c))
  {
    JoinFacts(cfg, s, u, v, c);
    if Joins(cfg, s, v, c) {
      JoinStructure(cfg, s.h, u, v, c);
    } else {
      HearStructure(cfg, s.h, u, v, c);
    }
  }

  lemma NoLeaderYet<I(!new)>(cfg: Config<I>, h: History<I>, x: I)
    requires ValidConfig(cfg) && Sets(cfg, h) && Leadership(cfg, h) && h.boss.None?
    ensures h.lsent == {} && LeaderVoices(cfg, h, x) == {}
  {
    assert forall a :: a in LeaderVoices(cfg, h, x) ==> LeaderHeardOk(h, a, x);
  }

  lemma VoicesDecide<I(!new)>(cfg: Config<I>, h: History<I>, v: I, c: I)
    requires StructureBut(cfg, h, {v}) && v in cfg.members
    ensures HeardAll(cfg, h, v, c) <==> Voices(cfg, h, v, c) == Others(cfg, v)
  {
    assert TokenOk(cfg, h, v, v, c);
    if HeardAll(cfg, h, v, c) {
      forall x | x in cfg.members ensures x in Voices(cfg, h, v, c) <==> x in Others(cfg, v) {
      }
    }
    if Voices(cfg, h, v, c) == Others(cfg, v) {
      forall x | x in cfg.members && x != v ensures (x, v, c) in h.heard {
        assert x in Others(cfg, v);
      }
    }
  }

  /** Completion happens once per wave and node: the count was not complete before. */
  lemma CompleteIsNew<I(!new)>(cfg: Config<I>, s: State<I>, u: I, v: I, c: I)
    requires History0(cfg, s) && Unheard(cfg, s.h, u, v, c)
    requires Completes(cfg, s, u, v, c)
    ensures MayComplete(cfg, Met(cfg, s, u, v, c), v, c) && (v, c) !in s.h.full
  {
    CompleteFacts(cfg, s, u, v, c);
    MetVoices(cfg, s, u, v, c);
    MetStructure(cfg, s, u, v, c);
    JoinFacts(cfg, s, u, v, c);
    VoicesDecide(cfg, Met(cfg, s, u, v, c), v, c);
    assert FullOk(cfg, s.h, v, c);
  }

  lemma ElectStructure<I(!new)>(cfg: Config<I>, s: State<I>, u: I, v: I, c: I)
    requires History0(cfg, s) && Unheard(cfg, s.h, u, v, c)
    ensures Structure(cfg, ElectHistory(cfg, s, u, v, c))
  {
    var h := Met(cfg, s, u, v, c);
    CompleteFacts(cfg, s, u, v, c);
    MetVoices(cfg, s, u, v, c);
    MetStructure(cfg, s, u, v, c);
    if Completes(cfg, s, u, v, c) {
      CompleteIsNew(cfg, s, u, v, c);
      CompleteStructure(cfg, h, v, c);
    } else if Supports(cfg, s, v, c) {
      VoicesDecide(cfg, h, v, c);
      NotBusy(cfg, h, v);
    }
  }

  lemma NotBusy<I(!new)>(cfg: Config<I>, h: History<I>, v: I)
    requires StructureBut(cfg, h, {v}) && DoneOk(cfg, h, v)
    ensures Structure(cfg, h)
  {
    forall x ensures DoneOk(cfg, h, x) {}
  }

  lemma LeadershipFrame<I(!new)>(cfg: Config<I>, h: History<I>, h': History<I>)
    requires ValidConfig(cfg) && Sets(cfg, h) && Sets(cfg, h') && Leadership(cfg, h)
    requires h'.boss == h.boss && h'.lsent == h.lsent && h'.lheard == h.lheard
    requires h.boss.Some? ==> h'.wave == h.wave && h'.full == h.full && h'.started == h.started
    ensures Leadership(cfg, h')
  {
    forall x ensures LeaderSentOk(cfg, h', x) {
      assert LeaderSentOk(cfg, h, x);
      assert LeaderVoices(cfg, h', x) == LeaderVoices(cfg, h, x);
    }
    forall a, b ensures LeaderHeardOk(h', a, b) {
      assert LeaderHeardOk(h, a, b);
    }
  }

  lemma DecisionLeadership<I(!new)>(cfg: Config<I>, h: History<I>, d: I)
    requires MayComplete(cfg, h, d, d) && Leadership(cfg, h)
    ensures var h' := CompleteHistory(cfg, h, d, d);
      Sets(cfg, h') && Leadership(cfg, h')
  {
    DecisionBoss(cfg, h, d);
    var h' := CompleteHistory(cfg, h, d, d);
    forall x ensures LeaderSentOk(cfg, h', x) {
      NoLeaderYet(cfg, h, x);
    }
    forall a, b ensures LeaderHeardOk(h', a, b) {
      assert LeaderHeardOk(h, a, b);
    }
  }

  lemma ElectLeadership<I(!new)>(cfg: Config<I>, s: State<I>, u: I, v: I, c: I)
    requires History0(cfg, s) && Unheard(cfg, s.h, u, v, c)
    ensures var h' := ElectHistory(cfg, s, u, v, c);
      Sets(cfg, h') && Leadership(cfg, h')
  {
    ElectStructure(cfg, s, u, v, c);
    MetVoices(cfg, s, u, v, c);
    JoinFacts(cfg, s, u, v, c);
    CompleteFacts(cfg, s, u, v, c);
    if Completes(cfg, s, u, v, c) && v == c {
      CompleteIsNew(cfg, s, u, v, c);
      LeadershipFrame(cfg, s.h, Met(cfg, s, u, v, c));
      DecisionLeadership(cfg, Met(cfg, s, u, v, c), v);
    } else {
      LeadershipFrame(cfg, s.h, ElectHistory(cfg, s, u, v, c));
    }
  }

  // ---- the records ----

  lemma ElectOther<I(!new)>(cfg: Config<I>, s: State<I>, u: I, v: I, c: I, x: I)
    requires History0(cfg, s) && Unheard(cfg, s.h, u, v, c) && x in cfg.members && x != v
    ensures MemberOk(cfg, ElectHistory(cfg, s, u, v, c), x, s.election[x], s.events[x])
  {
    var h' := ElectHistory(cfg, s, u, v, c);
    assert MemberAt(cfg, s, x);
    CompleteFacts(cfg, s, u, v, c);
    JoinFacts(cfg, s, u, v, c);
    if Supports(cfg, s, v, c) {
      NoLeaderYet(cfg, s.h, x);
    }
    MemberFrame(cfg, s.h, h', x, s.election[x], s.events[x]);
  }

  lemma MemberFrame<I(!new)>(cfg: Config<I>, h: History<I>, h': History<I>, x: I, election: Option<Record<I>>, events: seq<I>)
    requires MemberOk(cfg, h, x, election, events)
    requires x in h.wave <==> x in h'.wave
    requires x in h.wave ==> h'.wave[x] == h.wave[x]
    requires forall k :: In(h, x, k) ==> In(h', x, k) && h'.father[(x, k)] == h.father[(x, k)]
    requires forall a, k :: (a, x, k) in h'.heard <==> (a, x, k) in h.heard
    requires h'.lheard == h.lheard
    requires h'.boss == h.boss || (h.boss.None? && LeaderVoices(cfg, h, x) == {})
    ensures MemberOk(cfg, h', x, election, events)
  {
    assert LeaderVoices(cfg, h', x) == LeaderVoices(cfg, h, x);
    if x in h.wave {
      assert Voices(cfg, h', x, h.wave[x]) == Voices(cfg, h, x, h.wave[x]);
    }
  }

  ghost function NewRecordOf<I>(cfg: Config<I>, s: State<I>, u: I, v: I, c: I): Record<I>
    requires v in s.election
  {
    OnElect(cfg.less, v, Others(cfg, v), s.election[v], u, c).record
  }

  lemma NewRecordIs<I>(cfg: Config<I>, s: State<I>, u: I, v: I, c: I)
    requires v in s.election
    ensures
      var r := Supporting(cfg.less, RequireRecord(s.election[v]), u, c);
      NewRecordOf(cfg, s, u, v, c) == if r.caw == Some(c) then r.(erec := Increment(r.erec)) else r
  {
  }

  lemma IgnoredRecord<I(!new)>(cfg: Config<I>, s: State<I>, u: I, v: I, c: I)
    requires History0(cfg, s) && Unheard(cfg, s.h, u, v, c) && !Supports(cfg, s, v, c)
    ensures MemberOk(cfg, Hear(s.h, u, v, c), v, Some(NewRecordOf(cfg, s, u, v, c)), s.events[v])
  {
    var h' := Hear(s.h, u, v, c);
    assert MemberAt(cfg, s, v);
    JoinFacts(cfg, s, u, v, c);
    NewRecordIs(cfg, s, u, v, c);
    assert Voices(cfg, h', v, s.h.wave[v]) == Voices(cfg, s.h, v, s.h.wave[v]);
    assert LeaderVoices(cfg, h', v) == LeaderVoices(cfg, s.h, v);
  }

  lemma CountedRecord<I(!new)>(cfg: Config<I>, s: State<I>, u: I, v: I, c: I)
    requires History0(cfg, s) && Unheard(cfg, s.h, u, v, c) && Supports(cfg, s, v, c)
    ensures MemberOk(cfg, Met(cfg, s, u, v, c), v, Some(NewRecordOf(cfg, s, u, v, c)), s.events[v])
  {
    assert MemberAt(cfg, s, v);
    CompleteFacts(cfg, s, u, v, c);
    JoinFacts(cfg, s, u, v, c);
    NewRecordIs(cfg, s, u, v, c);
    MetVoices(cfg, s, u, v, c);
    NoLeaderYet(cfg, s.h, v);
    assert LeaderVoices(cfg, Met(cfg, s, u, v, c), v) == {};
    assert u in Others(cfg, v);
  }

  lemma ElectRecord<I(!new)>(cfg: Config<I>, s: State<I>, u: I, v: I, c: I)
    requires History0(cfg, s) && Unheard(cfg, s.h, u, v, c)
    ensures MemberOk(cfg, ElectHistory(cfg, s, u, v, c), v, Some(NewRecordOf(cfg, s, u, v, c)), s.events[v])
  {
    CompleteFacts(cfg, s, u, v, c);
    if Supports(cfg, s, v, c) {
      CountedRecord(cfg, s, u, v, c);
      JoinFacts(cfg, s, u, v, c);
      NoLeaderYet(cfg, s.h, v);
      MetVoices(cfg, s, u, v, c);
      assert LeaderVoices(cfg, Met(cfg, s, u, v, c), v) == {};
      MemberFrame(cfg, Met(cfg, s, u, v, c), ElectHistory(cfg, s, u, v, c), v, Some(NewRecordOf(cfg, s, u, v, c)), s.events[v]);
    } else {
      IgnoredRecord(cfg, s, u, v, c);
    }
  }

  // ---- the channels ----

  ghost function Casts<I>(cfg: Config<I>, s: State<I>, u: I, v: I, c: I): seq<Cast<I>>
    requires v in s.election
  {
    OnElect(cfg.less, v, Others(cfg, v), s.election[v], u, c).casts
  }

  /** At most one token to each neighbour: the forward, the echo or the decision. */
  lemma ElectMail<I>(cfg: Config<I>, s: State<I>, u: I, v: I, c: I, b: I)
    requires v in s.election && b in Others(cfg, v)
    ensures
      var r := Supporting(cfg.less, RequireRecord(s.election[v]), u, c);
      Mail(Casts(cfg, s, u, v, c), b) ==
        (if Joins(cfg, s, v, c) && b != u then [Elect(c)] else []) +
        (if !Completes(cfg, s, u, v, c) then []
         else if v == c then [Leader(c)]
         else if b in FatherOf(r) then [Elect(c)] else [])
  {
    var r := Supporting(cfg.less, RequireRecord(s.election[v]), u, c);
    var fwd := Cast(Others(cfg, v) - {u}, Elect(c));
    var fin := if v == c then Cast(Others(cfg, v), Leader(c)) else Cast(FatherOf(r), Elect(c));
    MailOne(fwd, b);
    MailOne(fin, b);
    MailTwo(fwd, fin, b);
    var none: seq<Cast<I>> := [];
    assert none + [fin] == [fin];
  }

  /** `v` forwards ELECT(`c`) to `b`, or echoes it to `b`. */
  ghost predicate Forwards<I>(cfg: Config<I>, s: State<I>, u: I, v: I, c: I, b: I)
    requires v in s.election
  {
    || (Joins(cfg, s, v, c) && b != u)
    || (Completes(cfg, s, u, v, c) && v != c && b in FatherOf(Supporting(cfg.less, RequireRecord(s.election[v]), u, c)))
  }

  ghost predicate Decides<I>(cfg: Config<I>, s: State<I>, u: I, v: I, c: I)
    requires v in s.election
  {
    Completes(cfg, s, u, v, c) && v == c
  }

  lemma FatherFacts<I(!new)>(cfg: Config<I>, s: State<I>, u: I, v: I, c: I)
    requires History0(cfg, s) && Unheard(cfg, s.h, u, v, c)
    requires Supports(cfg, s, v, c) && v != c
    ensures
      var h := Met(cfg, s, u, v, c);
      In(h, v, c) && FatherOf(Supporting(cfg.less, RequireRecord(s.election[v]), u, c)) == {h.father[(v, c)]}
    ensures Joins(cfg, s, v, c) ==> Met(cfg, s, u, v, c).father[(v, c)] == u
  {
    JoinFacts(cfg, s, u, v, c);
  }

  lemma CompleteSent<I(!new)>(cfg: Config<I>, h: History<I>, v: I, c: I, b: I, k: I)
    requires In(h, v, c)
    ensures (v, b, k) in CompleteHistory(cfg, h, v, c).sent <==>
      (v, b, k) in h.sent || (k == c && v != c && b == h.father[(v, c)])
  {
  }

  lemma ElectSent<I(!new)>(cfg: Config<I>, s: State<I>, u: I, v: I, c: I, b: I, k: I)
    requires History0(cfg, s) && Unheard(cfg, s.h, u, v, c)
    requires b in Others(cfg, v)
    ensures (v, b, k) in ElectHistory(cfg, s, u, v, c).sent <==> (v, b, k) in s.h.sent || (k == c && Forwards(cfg, s, u, v, c, b))
  {
    var h := Met(cfg, s, u, v, c);
    assert (v, b, k) in h.sent <==> (v, b, k) in s.h.sent || (k == c && Joins(cfg, s, v, c) && b != u);
    CompleteFacts(cfg, s, u, v, c);
    if Completes(cfg, s, u, v, c) {
      if v != c {
        FatherFacts(cfg, s, u, v, c);
        CompleteSent(cfg, h, v, c, b, k);
      }
    }
  }

  /** Everything sent is sent for the first time on its channel. */
  lemma ForwardIsNew<I(!new)>(cfg: Config<I>, s: State<I>, u: I, v: I, c: I, b: I)
    requires History0(cfg, s) && Unheard(cfg, s.h, u, v, c)
    requires b in Others(cfg, v) && (Forwards(cfg, s, u, v, c, b) || Decides(cfg, s, u, v, c))
    ensures v !in s.h.lsent && (v, b) !in s.h.lheard && s.h.boss.None?
    ensures Forwards(cfg, s, u, v, c, b) ==> (v, b, c) !in s.h.sent && (v, b, c) !in s.h.heard
  {
    JoinFacts(cfg, s, u, v, c);
    CompleteFacts(cfg, s, u, v, c);
    NoLeaderYet(cfg, s.h, v);
    assert LeaderHeardOk(s.h, v, b);
    assert TokenOk(cfg, s.h, v, b, c);
    if Completes(cfg, s, u, v, c) && v != c {
      FatherFacts(cfg, s, u, v, c);
      CompleteIsNew(cfg, s, u, v, c);
    }
  }

  lemma ElectMailIs<I(!new)>(cfg: Config<I>, s: State<I>, u: I, v: I, c: I, b: I)
    requires History0(cfg, s) && Unheard(cfg, s.h, u, v, c)
    requires b in Others(cfg, v)
    ensures Mail(Casts(cfg, s, u, v, c), b) ==
      if Forwards(cfg, s, u, v, c, b) then [Elect(c)] else if Decides(cfg, s, u, v, c) then [Leader(c)] else []
  {
    ElectMail(cfg, s, u, v, c, b);
    JoinFacts(cfg, s, u, v, c);
    if Joins(cfg, s, v, c) {
      FatherFacts(cfg, s, u, v, c);
    }
  }

  lemma CompleteRest<I>(cfg: Config<I>, h: History<I>, v: I, c: I)
    ensures
      var h' := CompleteHistory(cfg, h, v, c);
      && h'.heard == h.heard && h'.lheard == h.lheard
      && h'.lsent == (if v == c then h.lsent + {v} else h.lsent)
      && h'.boss == (if v == c then Some(c) else h.boss)
  {
  }

  lemma ElectRest<I>(cfg: Config<I>, s: State<I>, u: I, v: I, c: I)
    requires v in s.election
    ensures
      var h' := ElectHistory(cfg, s, u, v, c);
      var decides := Decides(cfg, s, u, v, c);
      && h'.heard == s.h.heard + {(u, v, c)} && h'.lheard == s.h.lheard
      && h'.lsent == (if decides then s.h.lsent + {v} else s.h.lsent)
      && h'.boss == (if decides then Some(c) else s.h.boss)
  {
    var h := Met(cfg, s, u, v, c);
    assert h.heard == s.h.heard + {(u, v, c)} && h.lheard == s.h.lheard && h.lsent == s.h.lsent && h.boss == s.h.boss;
    CompleteRest(cfg, h, v, c);
  }

  lemma ElectFromNode<I(!new)>(cfg: Config<I>, s: State<I>, u: I, v: I, c: I, b: I, q: seq<Token<I>>)
    requires History0(cfg, s) && Unheard(cfg, s.h, u, v, c)
    requires b in Others(cfg, v) && ChannelOk(s.h, v, b, q)
    ensures ChannelOk(ElectHistory(cfg, s, u, v, c), v, b, q + Mail(Casts(cfg, s, u, v, c), b))
  {
    var h' := ElectHistory(cfg, s, u, v, c);
    var forwards, decides := Forwards(cfg, s, u, v, c, b), Decides(cfg, s, u, v, c);
    forall k ensures (v, b, k) in h'.sent <==> (v, b, k) in s.h.sent || (k == c && forwards) {
      ElectSent(cfg, s, u, v, c, b, k);
    }
    ElectMailIs(cfg, s, u, v, c, b);
    ElectRest(cfg, s, u, v, c);
    if forwards || decides {
      ForwardIsNew(cfg, s, u, v, c, b);
    }
    JoinFacts(cfg, s, u, v, c);
    FromNode(s.h, h', u, v, c, b, q, forwards, decides);
  }

  lemma CompleteElsewhere<I(!new)>(cfg: Config<I>, h: History<I>, v: I, c: I, a: I, b: I)
    requires a != v && h.lsent == {}
    ensures SameChannel(h, CompleteHistory(cfg, h, v, c), a, b)
  {
  }

  lemma ElectElsewhere<I(!new)>(cfg: Config<I>, s: State<I>, u: I, v: I, c: I, a: I, b: I)
    requires History0(cfg, s) && Unheard(cfg, s.h, u, v, c) && a != v
    ensures SameChannel(Hear(s.h, u, v, c), ElectHistory(cfg, s, u, v, c), a, b)
  {
    assert SameChannel(Hear(s.h, u, v, c), Met(cfg, s, u, v, c), a, b);
    JoinFacts(cfg, s, u, v, c);
    CompleteFacts(cfg, s, u, v, c);
    if Completes(cfg, s, u, v, c) {
      NoLeaderYet(cfg, s.h, v);
      MetVoices(cfg, s, u, v, c);
      CompleteElsewhere(cfg, Met(cfg, s, u, v, c), v, c, a, b);
      SameChannelTrans(Hear(s.h, u, v, c), Met(cfg, s, u, v, c), ElectHistory(cfg, s, u, v, c), a, b);
    }
  }

  ghost function AfterElect<I>(cfg: Config<I>, s: State<I>, u: I, v: I, c: I, a: I, b: I): seq<Token<I>>
    requires v in s.election && (a, b) in s.chan && Heads(s, u, v, Elect(c))
  {
    if a == v then s.chan[(v, b)] + Mail(Casts(cfg, s, u, v, c), b)
    else if (a, b) == (u, v) then s.chan[(u, v)][1..]
    else s.chan[(a, b)]
  }

  ghost predicate ElectStep<I(!new)>(cfg: Config<I>, s: State<I>, u: I, v: I, c: I, s': State<I>)
    requires v in s.election && Heads(s, u, v, Elect(c))
  {
    && s'.election == s.election[v := Some(NewRecordOf(cfg, s, u, v, c))]
    && s'.events == s.events && s'.h == ElectHistory(cfg, s, u, v, c)
    && s'.chan.Keys == s.chan.Keys
    && (forall a, b {:trigger s'.chan[(a, b)]} :: (a, b) in s.chan ==> s'.chan[(a, b)] == AfterElect(cfg, s, u, v, c, a, b))
  }

  lemma NextElect<I(!new)>(cfg: Config<I>, s: State<I>, u: I, v: I, c: I)
    requires v in s.election && v in s.events && u != v && Heads(s, u, v, Elect(c))
    ensures ElectStep(cfg, s, u, v, c, Next(cfg, s, Deliver(u, v)))
  {
  }

  lemma ElectChannel<I(!new)>(cfg: Config<I>, s: State<I>, u: I, v: I, c: I, a: I, b: I)
    requires History0(cfg, s) && Heads(s, u, v, Elect(c)) && Unheard(cfg, s.h, u, v, c)
    requires (a, b) in s.chan && ChannelOk(s.h, a, b, s.chan[(a, b)])
    ensures
      var h' := ElectHistory(cfg, s, u, v, c);
      ChannelOk(h', a, b, AfterElect(cfg, s, u, v, c, a, b))
  {
    if a == v {
      ElectFromNode(cfg, s, u, v, c, b, s.chan[(v, b)]);
    } else {
      ElectElsewhere(cfg, s, u, v, c, a, b);
      if (a, b) == (u, v) {
        PopElect(s.h, ElectHistory(cfg, s, u, v, c), u, v, c, s.chan[(u, v)]);
      } else {
        ChannelFrame(s.h, ElectHistory(cfg, s, u, v, c), a, b, s.chan[(a, b)]);
      }
    }
  }

  // ---- the counts ----

  lemma {:induction false} FanCard<I>(u: I, to: set<I>, c: I)
    ensures |Fan(u, to, c)| == |to|
  {
    if to != {} {
      var x :| x in to;
      FanCard(u, to - {x}, c);
      assert Fan(u, to, c) == Fan(u, to - {x}, c) + {(u, x, c)};
    }
  }

  lemma JoinCounts<I(!new)>(cfg: Config<I>, h: History<I>, u: I, v: I, c: I)
    requires MayJoin(cfg, h, u, v, c) && Counts(cfg, h)
    ensures Counts(cfg, Join(cfg, h, u, v, c))
  {
    var to := Others(cfg, v) - {u};
    FanCard(v, to, c);
    forall b | b in to ensures (v, b, c) !in h.sent {
      assert TokenOk(cfg, h, v, b, c);
    }
    assert Fan(v, to, c) !! h.sent;
  }

  lemma CompleteCounts<I(!new)>(cfg: Config<I>, h: History<I>, v: I, c: I)
    requires MayComplete(cfg, h, v, c) && Counts(cfg, h) && h.lsent == {}
    ensures Counts(cfg, CompleteHistory(cfg, h, v, c))
  {
    assert LastOk(h, v);
    if v != c {
      var p := h.father[(v, c)];
      assert TokenOk(cfg, h, v, p, c);
      assert |h.sent + {(v, p, c)}| == |h.sent| + 1;
    } else {
      assert |Others(cfg, v)| == |cfg.members| - 1;
    }
  }

  lemma ElectCounts<I(!new)>(cfg: Config<I>, s: State<I>, u: I, v: I, c: I)
    requires History0(cfg, s) && Unheard(cfg, s.h, u, v, c)
    ensures Counts(cfg, ElectHistory(cfg, s, u, v, c))
  {
    JoinFacts(cfg, s, u, v, c);
    if Joins(cfg, s, v, c) {
      JoinCounts(cfg, s.h, u, v, c);
    }
    CompleteFacts(cfg, s, u, v, c);
    if Completes(cfg, s, u, v, c) {
      CompleteIsNew(cfg, s, u, v, c);
      NoLeaderYet(cfg, s.h, v);
      MetVoices(cfg, s, u, v, c);
      CompleteCounts(cfg, Met(cfg, s, u, v, c), v, c);
    }
  }

  lemma ElectMembers<I(!new)>(cfg: Config<I>, s: State<I>, u: I, v: I, c: I, s': State<I>)
    requires History0(cfg, s) && Unheard(cfg, s.h, u, v, c) && Heads(s, u, v, Elect(c))
    requires ElectStep(cfg, s, u, v, c, s') && Shape(cfg, s')
    ensures Members(cfg, s')
  {
    forall x | x in cfg.members ensures MemberAt(cfg, s', x) {
      if x == v {
        ElectRecord(cfg, s, u, v, c);
      } else {
        ElectOther(cfg, s, u, v, c, x);
      }
    }
  }

  lemma ElectChannels<I(!new)>(cfg: Config<I>, s: State<I>, u: I, v: I, c: I, s': State<I>)
    requires History0(cfg, s) && Unheard(cfg, s.h, u, v, c) && Heads(s, u, v, Elect(c)) && Channels(s)
    requires ElectStep(cfg, s, u, v, c, s')
    ensures Channels(s')
  {
    forall a, b | (a, b) in s'.chan ensures ChannelOk(s'.h, a, b, s'.chan[(a, b)]) {
      assert ChannelOk(s.h, a, b, s.chan[(a, b)]);
      ElectChannel(cfg, s, u, v, c, a, b);
    }
  }

  lemma ElectStepKeepsInv<I(!new)>(cfg: Config<I>, s: State<I>, u: I, v: I, c: I, s': State<I>)
    requires Inv(cfg, s) && v in s.election && Heads(s, u, v, Elect(c)) && Unheard(cfg, s.h, u, v, c)
    requires ElectStep(cfg, s, u, v, c, s')
    ensures Inv(cfg, s')
  {
    ElectStructure(cfg, s, u, v, c);
    ElectLeadership(cfg, s, u, v, c);
    ElectCounts(cfg, s, u, v, c);
    ElectMembers(cfg, s, u, v, c, s');
    ElectChannels(cfg, s, u, v, c, s');
  }

  /** Receiving an ELECT keeps the invariant. */
  lemma ElectKeepsInv<I(!new)>(cfg: Config<I>, s: State<I>, u: I, v: I, c: I)
    requires Inv(cfg, s) && Heads(s, u, v, Elect(c))
    ensures v in s.election && v in s.events && Inv(cfg, Next(cfg, s, Deliver(u, v)))
  {
    ElectInFlight(cfg, s, u, v, c);
    NextElect(cfg, s, u, v, c);
    ElectStepKeepsInv(cfg, s, u, v, c, Next(cfg, s, Deliver(u, v)));
  }
}
