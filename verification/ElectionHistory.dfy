/** The histories of joining, counting and completing a wave keep its structure. */
module ElectionHistory {
  import opened ElectionNetwork
  import opened ElectionInvariant

  /** What is known of an ELECT(`c`) from `u` that `v` has not received yet. */
  ghost predicate Unheard<I>(cfg: Config<I>, h: History<I>, u: I, v: I, c: I) {
    && u in cfg.members && v in cfg.members && u != v && c in cfg.members
    && (u, v, c) in h.sent && (u, v, c) !in h.heard
    && In(h, u, c) && c in h.started
    && (u, v) !in h.lheard
  }

  ghost function Hear<I>(h: History<I>, u: I, v: I, c: I): History<I> {
    h.(heard := h.heard + {(u, v, c)})
  }

  // ---- counting or ignoring a token ----

  lemma HearStructure<I(!new)>(cfg: Config<I>, h: History<I>, u: I, v: I, c: I)
    requires Structure(cfg, h) && Unheard(cfg, h, u, v, c)
    requires v in h.wave && cfg.rank[h.wave[v]] <= cfg.rank[c]
    ensures StructureBut(cfg, Hear(h, u, v, c), {v})
    ensures h.wave[v] != c ==> Structure(cfg, Hear(h, u, v, c))
  {
    var h' := Hear(h, u, v, c);
    forall x, k ensures WaveOk(cfg, h', x, k) && FatherOk(cfg, h', x, k) && FullOk(cfg, h', x, k) {
      assert WaveOk(cfg, h, x, k) && FatherOk(cfg, h, x, k) && FullOk(cfg, h, x, k);
    }
    forall a, b, k ensures TokenOk(cfg, h', a, b, k) {
      assert TokenOk(cfg, h, a, b, k);
    }
    forall x ensures LastOk(h', x) {
      assert LastOk(h, x);
    }
    forall x | x != v || h.wave[v] != c ensures DoneOk(cfg, h', x) {
      assert DoneOk(cfg, h, x);
      if x in h.wave {
        HeardAllSame(cfg, h, h', x, h.wave[x]);
      }
    }
  }

  lemma HeardAllSame<I(!new)>(cfg: Config<I>, h: History<I>, h': History<I>, x: I, k: I)
    requires forall a :: a in cfg.members && a != x ==> ((a, x, k) in h.heard <==> (a, x, k) in h'.heard)
    ensures HeardAll(cfg, h, x, k) <==> HeardAll(cfg, h', x, k)
  {
  }

  // ---- joining a wave ----

  /** When a node that hears ELECT(`c`) from `u` joins wave `c`. */
  ghost predicate MayJoin<I(!new)>(cfg: Config<I>, h: History<I>, u: I, v: I, c: I) {
    && Structure(cfg, h) && Unheard(cfg, h, u, v, c)
    && (v in h.wave ==> cfg.rank[c] < cfg.rank[h.wave[v]])
    && !In(h, v, c) && v != c
  }

  ghost function Join<I>(cfg: Config<I>, h: History<I>, u: I, v: I, c: I): History<I> {
    JoinHistory(cfg, Hear(h, u, v, c), u, v, c)
  }

  lemma JoinSets<I(!new)>(cfg: Config<I>, h: History<I>, u: I, v: I, c: I)
    requires MayJoin(cfg, h, u, v, c)
    ensures Sets(cfg, Join(cfg, h, u, v, c))
  {
    var h' := Join(cfg, h, u, v, c);
    forall x | x in h'.wave ensures h'.wave[x] in cfg.members {
      if x != v {
        assert h.wave[x] in h.wave.Values;
      }
    }
  }

  lemma JoinWaves<I(!new)>(cfg: Config<I>, h: History<I>, u: I, v: I, c: I, x: I, k: I)
    requires MayJoin(cfg, h, u, v, c) && Sets(cfg, Join(cfg, h, u, v, c))
    ensures WaveOk(cfg, Join(cfg, h, u, v, c), x, k)
    ensures LastOk(Join(cfg, h, u, v, c), x)
    ensures FatherOk(cfg, Join(cfg, h, u, v, c), x, k)
  {
    assert WaveOk(cfg, h, x, k) && LastOk(h, x) && FatherOk(cfg, h, x, k);
    assert WaveOk(cfg, h, v, v) && LastOk(h, v);
  }

  lemma JoinTokens<I(!new)>(cfg: Config<I>, h: History<I>, u: I, v: I, c: I, a: I, b: I, k: I)
    requires MayJoin(cfg, h, u, v, c) && Sets(cfg, Join(cfg, h, u, v, c))
    ensures TokenOk(cfg, Join(cfg, h, u, v, c), a, b, k)
  {
    assert TokenOk(cfg, h, a, b, k) && FullOk(cfg, h, v, c);
  }

  lemma JoinStructure<I(!new)>(cfg: Config<I>, h: History<I>, u: I, v: I, c: I)
    requires MayJoin(cfg, h, u, v, c)
    ensures StructureBut(cfg, Join(cfg, h, u, v, c), {v})
  {
    var h' := Join(cfg, h, u, v, c);
    JoinSets(cfg, h, u, v, c);
    forall x, k ensures WaveOk(cfg, h', x, k) && FatherOk(cfg, h', x, k) && FullOk(cfg, h', x, k) {
      JoinWaves(cfg, h, u, v, c, x, k);
      assert FullOk(cfg, h, x, k);
    }
    forall x ensures LastOk(h', x) {
      JoinWaves(cfg, h, u, v, c, x, c);
    }
    forall a, b, k ensures TokenOk(cfg, h', a, b, k) {
      JoinTokens(cfg, h, u, v, c, a, b, k);
    }
    forall x | x != v ensures DoneOk(cfg, h', x) {
      assert DoneOk(cfg, h, x);
      if x in h.wave {
        HeardAllSame(cfg, h, h', x, h.wave[x]);
      }
    }
  }

  // ---- completing a wave ----

  /** Once the last neighbour is counted: the node echoes, or decides if the wave is its own. */
  ghost predicate MayComplete<I(!new)>(cfg: Config<I>, h: History<I>, v: I, c: I) {
    && StructureBut(cfg, h, {v})
    && v in h.wave && h.wave[v] == c && v in cfg.members
    && HeardAll(cfg, h, v, c)
    && h.boss.None? && (v, c) !in h.full
  }

  lemma CompleteTokens<I(!new)>(cfg: Config<I>, h: History<I>, v: I, c: I, a: I, b: I, k: I)
    requires MayComplete(cfg, h, v, c) && Sets(cfg, CompleteHistory(cfg, h, v, c))
    ensures TokenOk(cfg, CompleteHistory(cfg, h, v, c), a, b, k)
  {
    assert TokenOk(cfg, h, a, b, k) && FatherOk(cfg, h, v, c) && LastOk(h, v);
  }

  lemma CompleteStructure<I(!new)>(cfg: Config<I>, h: History<I>, v: I, c: I)
    requires MayComplete(cfg, h, v, c)
    ensures Structure(cfg, CompleteHistory(cfg, h, v, c))
  {
    var h' := CompleteHistory(cfg, h, v, c);
    assert LastOk(h, v);
    forall x, k ensures WaveOk(cfg, h', x, k) && FatherOk(cfg, h', x, k) && FullOk(cfg, h', x, k) {
      assert WaveOk(cfg, h, x, k) && FatherOk(cfg, h, x, k) && FullOk(cfg, h, x, k);
    }
    forall x ensures LastOk(h', x) {
      assert LastOk(h, x);
    }
    forall a, b, k ensures TokenOk(cfg, h', a, b, k) {
      CompleteTokens(cfg, h, v, c, a, b, k);
    }
    forall x ensures DoneOk(cfg, h', x) {
      if x != v {
        assert DoneOk(cfg, h, x);
      }
    }
  }
}
