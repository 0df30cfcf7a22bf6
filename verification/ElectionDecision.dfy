/** Why the node whose count fills for its own wave may decide alone. */
module ElectionDecision {
  import opened ElectionNetwork
  import opened ElectionInvariant
  import opened ElectionHistory

  /**
   A challenger that has heard everybody was echoed by everybody: a neighbour
   sends to its father only when its own count is complete, and so on down the
   tree of fathers.
   */
  lemma {:induction false} EveryoneEchoed<I(!new)>(cfg: Config<I>, h: History<I>, d: I, v: I)
    requires StructureBut(cfg, h, {d}) && HeardAll(cfg, h, d, d)
    requires v in cfg.members && v != d && d in cfg.members
    ensures In(h, v, d) && (v, d) in h.full
    decreases if In(h, v, d) then h.depth[(v, d)] else 0
  {
    assert TokenOk(cfg, h, v, d, d);
    assert FatherOk(cfg, h, v, d);
    var p := h.father[(v, d)];
    if p != d {
      EveryoneEchoed(cfg, h, d, p);
      assert FullOk(cfg, h, p, d);
      assert TokenOk(cfg, h, v, p, d);
    }
  }

  lemma DecisionIsLowest<I(!new)>(cfg: Config<I>, h: History<I>, d: I, s: I)
    requires StructureBut(cfg, h, {d}) && HeardAll(cfg, h, d, d) && d in cfg.members && In(h, d, d)
    requires s in h.started
    ensures cfg.rank[d] <= cfg.rank[s]
  {
    if s != d {
      EveryoneEchoed(cfg, h, d, s);
    }
    assert WaveOk(cfg, h, s, d);
  }

  lemma DecisionIsCurrent<I(!new)>(cfg: Config<I>, h: History<I>, d: I, v: I)
    requires StructureBut(cfg, h, {d}) && HeardAll(cfg, h, d, d) && d in cfg.members && In(h, d, d)
    requires v in cfg.members
    ensures v in h.wave && h.wave[v] == d
  {
    if v != d {
      EveryoneEchoed(cfg, h, d, v);
    }
    assert WaveOk(cfg, h, v, d) && LastOk(h, v);
    assert WaveOk(cfg, h, v, h.wave[v]);
    DecisionIsLowest(cfg, h, d, h.wave[v]);
    assert RankedAlike(cfg, d, h.wave[v]);
  }

  /** The decision: its wave is complete at every member, current everywhere, and the lowest started. */
  lemma DecisionBoss<I(!new)>(cfg: Config<I>, h: History<I>, d: I)
    requires MayComplete(cfg, h, d, d)
    ensures BossOk(cfg, CompleteHistory(cfg, h, d, d))
  {
    var h' := CompleteHistory(cfg, h, d, d);
    assert LastOk(h, d) && WaveOk(cfg, h, d, d);
    forall v | v in cfg.members ensures v in h'.wave && h'.wave[v] == d && (v, d) in h'.full {
      DecisionIsCurrent(cfg, h, d, v);
      if v != d {
        EveryoneEchoed(cfg, h, d, v);
      }
    }
    forall c | c in h'.started ensures cfg.rank[d] <= cfg.rank[c] {
      DecisionIsLowest(cfg, h, d, c);
    }
  }
}
