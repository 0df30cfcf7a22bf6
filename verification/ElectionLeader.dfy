/** Starting a wave, and receiving a LEADER, keep the invariant. */
module ElectionLeader {
  import opened Basics
  import opened ElectionRules
  import opened ElectionNetwork
  import opened ElectionInvariant
  import opened ElectionChannel
  import opened ElectionElect

  // ---- starting ----

  ghost predicate MayStart<I(!new)>(cfg: Config<I>, h: History<I>, v: I) {
    Structure(cfg, h) && v in cfg.contest && v !in h.wave
  }

  lemma StartStructure<I(!new)>(cfg: Config<I>, h: History<I>, v: I)
    requires MayStart(cfg, h, v)
    ensures Structure(cfg, StartHistory(cfg, h, v))
  {
    var h' := StartHistory(cfg, h, v);
    forall x | x in h'.wave ensures h'.wave[x] in cfg.members {
      if x != v {
        assert h.wave[x] in h.wave.Values;
      }
    }
    assert WaveOk(cfg, h, v, v);
    forall x, k ensures WaveOk(cfg, h', x, k) && FatherOk(cfg, h', x, k) && FullOk(cfg, h', x, k) {
      assert WaveOk(cfg, h, x, k) && FatherOk(cfg, h, x, k) && FullOk(cfg, h, x, k);
    }
    forall x ensures LastOk(h', x) {
      assert LastOk(h, x);
    }
    forall a, b, k ensures TokenOk(cfg, h', a, b, k) {
      assert TokenOk(cfg, h, a, b, k) && FullOk(cfg, h, v, v);
    }
    forall x ensures DoneOk(cfg, h', x) {
      assert DoneOk(cfg, h, x);
      if x == v {
        var a := OtherMember(cfg, v);
        assert TokenOk(cfg, h, a, v, v);
      }
    }
  }

  lemma OtherMember<I(!new)>(cfg: Config<I>, v: I) returns (a: I)
    requires ValidConfig(cfg) && v in cfg.members
    ensures a in Others(cfg, v)
  {
    assert |Others(cfg, v)| == |cfg.members| - 1;
    a :| a in Others(cfg, v);
  }

  lemma StartMember<I(!new)>(cfg: Config<I>, s: State<I>, v: I, x: I)
    requires MayStart(cfg, s.h, v) && Shape(cfg, s) && Members(cfg, s) && Leadership(cfg, s.h) && x in cfg.members
    ensures MemberOk(cfg, StartHistory(cfg, s.h, v), x, if x == v then Some(Started(v)) else s.election[x], s.events[x])
  {
    var h' := StartHistory(cfg, s.h, v);
    assert MemberAt(cfg, s, x);
    if x == v {
      NoLeaderYet(cfg, s.h, v);
      assert LeaderVoices(cfg, h', v) == {};
      forall a ensures (a, v, v) !in s.h.heard {
        assert TokenOk(cfg, s.h, a, v, v);
      }
      assert Voices(cfg, h', v, v) == {};
      var a := OtherMember(cfg, v);
    } else {
      MemberFrame(cfg, s.h, h', x, s.election[x], s.events[x]);
    }
  }

  lemma StartChannel<I(!new)>(cfg: Config<I>, s: State<I>, v: I, a: I, b: I)
    requires MayStart(cfg, s.h, v) && Shape(cfg, s) && Leadership(cfg, s.h)
    requires (a, b) in s.chan && ChannelOk(s.h, a, b, s.chan[(a, b)])
    ensures ChannelOk(StartHistory(cfg, s.h, v), a, b, s.chan[(a, b)] + if a == v then [Elect(v)] else [])
  {
    var h' := StartHistory(cfg, s.h, v);
    if a == v {
      NoLeaderYet(cfg, s.h, v);
      assert LeaderHeardOk(s.h, v, b) && TokenOk(cfg, s.h, v, b, v) && WaveOk(cfg, s.h, v, v);
      AppendElect(s.h, h', v, b, v, s.chan[(v, b)]);
    } else {
      ChannelFrame(s.h, h', a, b, s.chan[(a, b)]);
      assert s.chan[(a, b)] + [] == s.chan[(a, b)];
    }
  }

  lemma StartCounts<I(!new)>(cfg: Config<I>, h: History<I>, v: I)
    requires MayStart(cfg, h, v) && Counts(cfg, h)
    ensures Counts(cfg, StartHistory(cfg, h, v))
  {
    FanCard(v, Others(cfg, v), v);
    forall b | b in Others(cfg, v) ensures (v, b, v) !in h.sent {
      assert TokenOk(cfg, h, v, b, v) && WaveOk(cfg, h, v, v);
    }
    assert Fan(v, Others(cfg, v), v) !! h.sent;
  }

  ghost predicate StartStep<I(!new)>(cfg: Config<I>, s: State<I>, v: I, s': State<I>) {
    && s'.election == s.election[v := Some(Started(v))]
    && s'.events == s.events && s'.h == StartHistory(cfg, s.h, v)
    && s'.chan.Keys == s.chan.Keys
    && (forall a, b {:trigger s'.chan[(a, b)]} :: (a, b) in s.chan ==>
         s'.chan[(a, b)] == s.chan[(a, b)] + if a == v && b in Others(cfg, v) then [Elect(v)] else [])
  }

  lemma NextStart<I(!new)>(cfg: Config<I>, s: State<I>, v: I)
    requires v in s.election
    ensures StartStep(cfg, s, v, Next(cfg, s, Start(v)))
  {
    forall b {
      MailOne(Cast(Others(cfg, v), Elect(v)), b);
    }
  }

  lemma StartMembers<I(!new)>(cfg: Config<I>, s: State<I>, v: I, s': State<I>)
    requires MayStart(cfg, s.h, v) && Shape(cfg, s) && Members(cfg, s) && Leadership(cfg, s.h)
    requires StartStep(cfg, s, v, s') && Shape(cfg, s')
    ensures Members(cfg, s')
  {
    forall x | x in cfg.members ensures MemberAt(cfg, s', x) {
      StartMember(cfg, s, v, x);
    }
  }

  lemma StartChannels<I(!new)>(cfg: Config<I>, s: State<I>, v: I, s': State<I>)
    requires MayStart(cfg, s.h, v) && Shape(cfg, s) && Channels(s) && Leadership(cfg, s.h)
    requires StartStep(cfg, s, v, s')
    ensures Channels(s')
  {
    forall a, b | (a, b) in s'.chan ensures ChannelOk(s'.h, a, b, s'.chan[(a, b)]) {
      assert ChannelOk(s.h, a, b, s.chan[(a, b)]);
      StartChannel(cfg, s, v, a, b);
    }
  }

  lemma StartStepKeepsInv<I(!new)>(cfg: Config<I>, s: State<I>, v: I, s': State<I>)
    requires Inv(cfg, s) && MayStart(cfg, s.h, v) && StartStep(cfg, s, v, s')
    ensures Inv(cfg, s')
  {
    StartStructure(cfg, s.h, v);
    LeadershipFrame(cfg, s.h, s'.h);
    StartCounts(cfg, s.h, v);
    StartMembers(cfg, s, v, s');
    StartChannels(cfg, s, v, s');
  }

  /** Starting a wave keeps the invariant. */
  lemma StartKeepsInv<I(!new)>(cfg: Config<I>, s: State<I>, v: I)
    requires Inv(cfg, s) && Enabled(cfg, s, Start(v))
    ensures v in s.election && Inv(cfg, Next(cfg, s, Start(v)))
  {
    NextStart(cfg, s, v);
    StartStepKeepsInv(cfg, s, v, Next(cfg, s, Start(v)));
  }

  // ---- receiving a LEADER ----

  /** What is known when a LEADER(`l`) from `u` reaches `v`: coherence of the LEADER phase. */
  ghost predicate LeaderArrives<I(!new)>(cfg: Config<I>, s: State<I>, u: I, v: I, l: I)
    requires v in s.election && v in s.events
  {
    && u in cfg.members && v in cfg.members && u != v && l in cfg.members
    && s.h.boss == Some(l) && u in s.h.lsent && (u, v) !in s.h.lheard
    && v in s.h.wave && s.h.wave[v] == l
    && s.election[v].Some? && RecordOk(cfg, s.h, v, s.election[v].value) && s.events[v] == []
  }

  /**
   Every LEADER processed finds a live election whose wave is the announced
   leader, and it is the last message of its channel.
   */
  lemma LeaderInFlight<I(!new)>(cfg: Config<I>, s: State<I>, u: I, v: I, l: I)
    requires Inv(cfg, s) && Heads(s, u, v, Leader(l))
    ensures v in s.election && v in s.events && LeaderArrives(cfg, s, u, v, l)
    ensures s.chan[(u, v)] == [Leader(l)]
  {
    assert ChannelOk(s.h, u, v, s.chan[(u, v)]);
    assert Leader(l) in s.chan[(u, v)];
    PopLeader(s.h, s.h.(lheard := s.h.lheard + {(u, v)}), u, v, l, s.chan[(u, v)]);
    assert MemberAt(cfg, s, v);
    assert u in Others(cfg, v);
  }

  /** A node relays LEADER once: on the first it receives, unless it decided itself. */
  ghost predicate Relays<I>(s: State<I>, v: I) {
    v !in s.h.lsent
  }

  lemma RelayFacts<I(!new)>(cfg: Config<I>, s: State<I>, u: I, v: I, l: I)
    requires ValidConfig(cfg) && Sets(cfg, s.h) && Leadership(cfg, s.h) && v in s.election && v in s.events && LeaderArrives(cfg, s, u, v, l)
    ensures v != l && s.election[v].value.lrec == 0 <==> Relays(s, v)
  {
    assert LeaderSentOk(cfg, s.h, v);
    assert forall a :: a in LeaderVoices(cfg, s.h, v) ==> LeaderHeardOk(s.h, a, v);
  }

  ghost function LeaderResult<I>(cfg: Config<I>, s: State<I>, v: I, l: I): LeaderOut<I>
    requires v in s.election
  {
    OnLeader(v, Others(cfg, v), s.election[v], l)
  }

  lemma LeaderVoicesAfter<I>(cfg: Config<I>, h: History<I>, u: I, v: I, relays: bool, x: I)
    requires u in cfg.members
    ensures LeaderVoices(cfg, LeaderHistory(cfg, h, u, v, relays), x) == LeaderVoices(cfg, h, x) + if x == v then {u} else {}
  {
  }

  lemma LeaderResultIs<I(!new)>(cfg: Config<I>, s: State<I>, u: I, v: I, l: I)
    requires ValidConfig(cfg) && Sets(cfg, s.h) && Leadership(cfg, s.h) && v in s.election && v in s.events && LeaderArrives(cfg, s, u, v, l)
    ensures
      var r := s.election[v].value;
      var all := LeaderVoices(cfg, s.h, v) + {u} == Others(cfg, v);
      && LeaderResult(cfg, s, v, l) == LeaderOut(
           if all then None else Some(r.(lrec := Increment(r.lrec), leader := Some(l))),
           if Relays(s, v) then [Cast(Others(cfg, v), Leader(l))] else [],
           if all then Some(l) else None)
      && Increment(r.lrec) == |LeaderVoices(cfg, s.h, v) + {u}|
  {
    RelayFacts(cfg, s, u, v, l);
    assert u !in LeaderVoices(cfg, s.h, v) && u in Others(cfg, v);
    SubsetCard(LeaderVoices(cfg, s.h, v) + {u}, Others(cfg, v));
  }

  lemma LeaderStructure<I(!new)>(cfg: Config<I>, h: History<I>, u: I, v: I, relays: bool)
    requires Structure(cfg, h) && v in cfg.members
    ensures Structure(cfg, LeaderHistory(cfg, h, u, v, relays))
  {
    var h' := LeaderHistory(cfg, h, u, v, relays);
    forall x, k ensures WaveOk(cfg, h', x, k) && FatherOk(cfg, h', x, k) && FullOk(cfg, h', x, k) {
      assert WaveOk(cfg, h, x, k) && FatherOk(cfg, h, x, k) && FullOk(cfg, h, x, k);
    }
    forall x ensures LastOk(h', x) && DoneOk(cfg, h', x) {
      assert LastOk(h, x) && DoneOk(cfg, h, x);
    }
    forall a, b, k ensures TokenOk(cfg, h', a, b, k) {
      assert TokenOk(cfg, h, a, b, k);
    }
  }

  lemma LeaderLeadership<I(!new)>(cfg: Config<I>, s: State<I>, u: I, v: I, l: I)
    requires Structure(cfg, s.h) && Leadership(cfg, s.h) && v in s.election && v in s.events && LeaderArrives(cfg, s, u, v, l)
    ensures Leadership(cfg, LeaderHistory(cfg, s.h, u, v, Relays(s, v)))
  {
    var h' := LeaderHistory(cfg, s.h, u, v, Relays(s, v));
    forall x ensures LeaderSentOk(cfg, h', x) {
      assert LeaderSentOk(cfg, s.h, x);
      LeaderVoicesAfter(cfg, s.h, u, v, Relays(s, v), x);
    }
    forall a, b ensures LeaderHeardOk(h', a, b) {
      assert LeaderHeardOk(s.h, a, b);
    }
  }

  lemma LeaderCounts<I(!new)>(cfg: Config<I>, s: State<I>, u: I, v: I)
    requires Counts(cfg, s.h) && v in cfg.members
    ensures Counts(cfg, LeaderHistory(cfg, s.h, u, v, Relays(s, v)))
  {
    if Relays(s, v) {
      assert |s.h.lsent + {v}| == |s.h.lsent| + 1;
      assert |Others(cfg, v)| == |cfg.members| - 1;
      assert (|s.h.lsent| + 1) * (|cfg.members| - 1) == |s.h.lsent| * (|cfg.members| - 1) + (|cfg.members| - 1);
    }
  }

  lemma LeaderMember<I(!new)>(cfg: Config<I>, s: State<I>, u: I, v: I, l: I)
    requires ValidConfig(cfg) && Sets(cfg, s.h) && Leadership(cfg, s.h) && v in s.election && v in s.events && LeaderArrives(cfg, s, u, v, l)
    ensures
      var out := LeaderResult(cfg, s, v, l);
      MemberOk(cfg, LeaderHistory(cfg, s.h, u, v, Relays(s, v)), v, out.election,
               if out.verdict.Some? then [out.verdict.value] else [])
  {
    LeaderResultIs(cfg, s, u, v, l);
    LeaderVoicesAfter(cfg, s.h, u, v, Relays(s, v), v);
    var h' := LeaderHistory(cfg, s.h, u, v, Relays(s, v));
    assert Voices(cfg, h', v, l) == Voices(cfg, s.h, v, l);
    assert u in Others(cfg, v);
  }

  lemma LeaderOther<I(!new)>(cfg: Config<I>, s: State<I>, u: I, v: I, x: I, election: Option<Record<I>>, events: seq<I>)
    requires MemberOk(cfg, s.h, x, election, events) && x != v && u in cfg.members
    ensures MemberOk(cfg, LeaderHistory(cfg, s.h, u, v, Relays(s, v)), x, election, events)
  {
    var h' := LeaderHistory(cfg, s.h, u, v, Relays(s, v));
    LeaderVoicesAfter(cfg, s.h, u, v, Relays(s, v), x);
    if x in s.h.wave {
      assert Voices(cfg, h', x, s.h.wave[x]) == Voices(cfg, s.h, x, s.h.wave[x]);
    }
  }

  ghost predicate LeaderStep<I(!new)>(cfg: Config<I>, s: State<I>, u: I, v: I, l: I, s': State<I>)
    requires v in s.election && v in s.events
  {
    var out := LeaderResult(cfg, s, v, l);
    && s'.election == s.election[v := out.election]
    && s'.events == Announce(cfg, s.events, v, out.verdict)
    && s'.h == LeaderHistory(cfg, s.h, u, v, out.casts != [])
    && s'.chan.Keys == s.chan.Keys
    && (forall a, b {:trigger s'.chan[(a, b)]} :: (a, b) in s.chan ==> s'.chan[(a, b)] == AfterLeader(cfg, s, u, v, l, a, b))
  }

  ghost function AfterLeader<I>(cfg: Config<I>, s: State<I>, u: I, v: I, l: I, a: I, b: I): seq<Token<I>>
    requires v in s.election && (a, b) in s.chan
  {
    if a == v then s.chan[(v, b)] + Mail(LeaderResult(cfg, s, v, l).casts, b)
    else if (a, b) == (u, v) && s.chan[(u, v)] != [] then s.chan[(u, v)][1..]
    else s.chan[(a, b)]
  }

  lemma NextLeader<I(!new)>(cfg: Config<I>, s: State<I>, u: I, v: I, l: I)
    requires v in s.election && v in s.events && u != v && Heads(s, u, v, Leader(l))
    ensures LeaderStep(cfg, s, u, v, l, Next(cfg, s, Deliver(u, v)))
  {
  }

  lemma LeaderChannel<I(!new)>(cfg: Config<I>, s: State<I>, u: I, v: I, l: I, a: I, b: I)
    requires ValidConfig(cfg) && Shape(cfg, s) && Leadership(cfg, s.h) && v in s.election && v in s.events && LeaderArrives(cfg, s, u, v, l)
    requires Heads(s, u, v, Leader(l)) && (a, b) in s.chan && ChannelOk(s.h, a, b, s.chan[(a, b)])
    ensures ChannelOk(LeaderHistory(cfg, s.h, u, v, Relays(s, v)), a, b, AfterLeader(cfg, s, u, v, l, a, b))
  {
    var h' := LeaderHistory(cfg, s.h, u, v, Relays(s, v));
    LeaderResultIs(cfg, s, u, v, l);
    if a == v {
      assert b in Others(cfg, v);
      MailOne(Cast(Others(cfg, v), Leader(l)), b);
      assert LeaderHeardOk(s.h, v, b);
      if Relays(s, v) {
        AppendLeader(s.h, h', v, b, l, s.chan[(v, b)]);
      } else {
        ChannelFrame(s.h, h', a, b, s.chan[(a, b)]);
        assert s.chan[(a, b)] + [] == s.chan[(a, b)];
      }
    } else if (a, b) == (u, v) {
      PopLeader(s.h, h', u, v, l, s.chan[(u, v)]);
    } else {
      ChannelFrame(s.h, h', a, b, s.chan[(a, b)]);
    }
  }

  lemma LeaderMembers<I(!new)>(cfg: Config<I>, s: State<I>, u: I, v: I, l: I, s': State<I>)
    requires ValidConfig(cfg) && Shape(cfg, s) && Leadership(cfg, s.h) && Members(cfg, s)
    requires v in s.election && v in s.events && LeaderArrives(cfg, s, u, v, l)
    requires LeaderStep(cfg, s, u, v, l, s') && Shape(cfg, s') && s'.h == LeaderHistory(cfg, s.h, u, v, Relays(s, v))
    ensures Members(cfg, s')
  {
    forall x | x in cfg.members ensures MemberAt(cfg, s', x) {
      LeaderMemberAt(cfg, s, u, v, l, s', x);
    }
  }

  lemma LeaderMemberAt<I(!new)>(cfg: Config<I>, s: State<I>, u: I, v: I, l: I, s': State<I>, x: I)
    requires ValidConfig(cfg) && Shape(cfg, s) && Leadership(cfg, s.h) && Members(cfg, s) && x in cfg.members
    requires v in s.election && v in s.events && LeaderArrives(cfg, s, u, v, l)
    requires LeaderStep(cfg, s, u, v, l, s') && s'.h == LeaderHistory(cfg, s.h, u, v, Relays(s, v))
    ensures MemberAt(cfg, s', x)
  {
    LeaderResultIs(cfg, s, u, v, l);
    if x == v {
      LeaderMember(cfg, s, u, v, l);
    } else {
      assert MemberAt(cfg, s, x);
      LeaderOther(cfg, s, u, v, x, s.election[x], s.events[x]);
    }
  }

  lemma LeaderChannels<I(!new)>(cfg: Config<I>, s: State<I>, u: I, v: I, l: I, s': State<I>)
    requires ValidConfig(cfg) && Shape(cfg, s) && Leadership(cfg, s.h) && Channels(s)
    requires v in s.election && v in s.events && LeaderArrives(cfg, s, u, v, l) && Heads(s, u, v, Leader(l))
    requires LeaderStep(cfg, s, u, v, l, s') && s'.h == LeaderHistory(cfg, s.h, u, v, Relays(s, v))
    ensures Channels(s')
  {
    forall a, b | (a, b) in s'.chan ensures ChannelOk(s'.h, a, b, s'.chan[(a, b)]) {
      assert ChannelOk(s.h, a, b, s.chan[(a, b)]);
      LeaderChannel(cfg, s, u, v, l, a, b);
    }
  }

  lemma LeaderStepKeepsInv<I(!new)>(cfg: Config<I>, s: State<I>, u: I, v: I, l: I, s': State<I>)
    requires Inv(cfg, s) && v in s.election && v in s.events && LeaderArrives(cfg, s, u, v, l) && Heads(s, u, v, Leader(l))
    requires LeaderStep(cfg, s, u, v, l, s') && s'.h == LeaderHistory(cfg, s.h, u, v, Relays(s, v))
    requires Shape(cfg, s')
    ensures Inv(cfg, s')
  {
    LeaderStructure(cfg, s.h, u, v, Relays(s, v));
    LeaderLeadership(cfg, s, u, v, l);
    LeaderCounts(cfg, s, u, v);
    LeaderMembers(cfg, s, u, v, l, s');
    LeaderChannels(cfg, s, u, v, l, s');
  }

  lemma LeaderShape<I(!new)>(cfg: Config<I>, s: State<I>, u: I, v: I, l: I, s': State<I>)
    requires ValidConfig(cfg) && Shape(cfg, s) && Leadership(cfg, s.h)
    requires v in s.election && v in s.events && LeaderArrives(cfg, s, u, v, l)
    requires LeaderStep(cfg, s, u, v, l, s')
    ensures s'.h == LeaderHistory(cfg, s.h, u, v, Relays(s, v)) && Shape(cfg, s')
  {
    LeaderResultIs(cfg, s, u, v, l);
  }

  /** Receiving a LEADER keeps the invariant. */
  lemma LeaderKeepsInv<I(!new)>(cfg: Config<I>, s: State<I>, u: I, v: I, l: I)
    requires Inv(cfg, s) && Heads(s, u, v, Leader(l))
    ensures v in s.election && v in s.events && Inv(cfg, Next(cfg, s, Deliver(u, v)))
  {
    LeaderInFlight(cfg, s, u, v, l);
    NextLeader(cfg, s, u, v, l);
    LeaderShape(cfg, s, u, v, l, Next(cfg, s, Deliver(u, v)));
    LeaderStepKeepsInv(cfg, s, u, v, l, Next(cfg, s, Deliver(u, v)));
  }
}
