/**
 What every step of an election epoch keeps.

 Each clause of the invariant is a predicate about one node, one node and wave,
 or one channel; the invariant says it of all of them.  Proofs name the
 instances they use.
 */
module ElectionInvariant {
  import opened Basics
  import opened ElectionRules
  import opened ElectionNetwork

  /** `v` has joined wave `c`. */
  ghost predicate In<I>(h: History<I>, v: I, c: I) {
    (v, c) in h.father
  }

  ghost predicate Shape<I(!new)>(cfg: Config<I>, s: State<I>) {
    && s.election.Keys == cfg.members
    && s.events.Keys == cfg.members
    && (forall u, v {:trigger (u, v) in s.chan} :: (u, v) in s.chan <==> u in cfg.members && v in cfg.members && u != v)
    && Sets(cfg, s.h)
  }

  ghost predicate Sets<I>(cfg: Config<I>, h: History<I>) {
    && h.wave.Keys <= cfg.members
    && h.wave.Values <= cfg.members
    && h.started <= cfg.contest
    && h.depth.Keys == h.father.Keys
    && h.lsent <= cfg.members
  }

  /** A joined wave was started; it is not below the node's last wave nor above the node's own. */
  ghost predicate WaveOk<I(!new)>(cfg: Config<I>, h: History<I>, v: I, c: I)
    requires ValidConfig(cfg) && Sets(cfg, h)
  {
    In(h, v, c) ==>
      && v in h.wave && c in h.started
      && cfg.rank[h.wave[v]] <= cfg.rank[c]
      && (v in h.started ==> cfg.rank[c] <= cfg.rank[v])
  }

  ghost predicate LastOk<I>(h: History<I>, v: I) {
    && (v in h.wave ==> In(h, v, h.wave[v]))
    && (v in h.started ==> In(h, v, v))
  }

  /** The fathers of a wave form a tree rooted at its challenger, each heard by its child. */
  ghost predicate FatherOk<I>(cfg: Config<I>, h: History<I>, v: I, c: I)
    requires h.depth.Keys == h.father.Keys
  {
    In(h, v, c) ==>
      var p := h.father[(v, c)];
      if v == c then p == c
      else p != v && p in cfg.members && In(h, p, c) && h.depth[(p, c)] < h.depth[(v, c)] && (p, v, c) in h.heard
  }

  /** Who owes an ELECT to whom: all but the father on joining, the father on completion. */
  ghost predicate Owes<I>(cfg: Config<I>, h: History<I>, u: I, v: I, c: I) {
    && u in cfg.members && v in cfg.members && u != v
    && In(h, u, c)
    && (h.father[(u, c)] != v || (u, c) in h.full)
  }

  ghost predicate TokenOk<I(!new)>(cfg: Config<I>, h: History<I>, u: I, v: I, c: I)
    requires ValidConfig(cfg) && Sets(cfg, h)
  {
    h in TokenHistories(cfg, u, v, c)
  }

  ghost function TokenHistories<I(!new)>(cfg: Config<I>, u: I, v: I, c: I): iset<History<I>>
    requires ValidConfig(cfg)
  {
    iset h: History<I> |
      && Sets(cfg, h)
      && ((u, v, c) in h.sent <==> Owes(cfg, h, u, v, c))
      && ((u, v, c) in h.heard ==>
           (u, v, c) in h.sent && c in cfg.members && v in h.wave && cfg.rank[h.wave[v]] <= cfg.rank[c])
  }

  ghost predicate HeardAll<I(!new)>(cfg: Config<I>, h: History<I>, v: I, c: I) {
    forall u :: u in cfg.members && u != v ==> (u, v, c) in h.heard
  }

  ghost predicate FullOk<I(!new)>(cfg: Config<I>, h: History<I>, v: I, c: I) {
    (v, c) in h.full ==> In(h, v, c) && HeardAll(cfg, h, v, c) && (v == c ==> h.boss == Some(c))
  }

  ghost predicate DoneOk<I(!new)>(cfg: Config<I>, h: History<I>, v: I) {
    v in h.wave && HeardAll(cfg, h, v, h.wave[v]) ==> (v, h.wave[v]) in h.full
  }

  ghost function Voices<I>(cfg: Config<I>, h: History<I>, v: I, c: I): set<I> {
    set u | u in cfg.members && (u, v, c) in h.heard
  }

  ghost function LeaderVoices<I>(cfg: Config<I>, h: History<I>, v: I): set<I> {
    set u | u in cfg.members && (u, v) in h.lheard
  }

  /** The record of a live election says what the history says. */
  ghost predicate RecordOk<I(!new)>(cfg: Config<I>, h: History<I>, v: I, r: Record<I>) {
    r in Records(cfg, h, v)
  }

  ghost function Records<I(!new)>(cfg: Config<I>, h: History<I>, v: I): iset<Record<I>> {
    iset r: Record<I> |
      && v in h.wave && In(h, v, h.wave[v])
      && r.caw == Some(h.wave[v])
      && r.father == (if h.wave[v] == v then None else Some(h.father[(v, h.wave[v])]))
      && r.erec == |Voices(cfg, h, v, h.wave[v])|
      && r.lrec == |LeaderVoices(cfg, h, v)|
      && LeaderVoices(cfg, h, v) < Others(cfg, v)
      && (r.lrec > 0 ==> r.leader == h.boss)
  }

  ghost predicate MemberOk<I(!new)>(cfg: Config<I>, h: History<I>, v: I, election: Option<Record<I>>, events: seq<I>) {
    match election
    case Some(r) => RecordOk(cfg, h, v, r) && events == []
    case None =>
      if v in h.wave then
        h.boss.Some? && LeaderVoices(cfg, h, v) == Others(cfg, v) && events == [h.boss.value]
      else events == []
  }

  ghost predicate LeaderSentOk<I>(cfg: Config<I>, h: History<I>, v: I) {
    v in h.lsent ==> h.boss == Some(v) || LeaderVoices(cfg, h, v) != {}
  }

  ghost predicate LeaderHeardOk<I>(h: History<I>, u: I, v: I) {
    (u, v) in h.lheard ==> u in h.lsent && v in h.lsent && u != v
  }

  /** Once the decision is made, its wave is complete everywhere and below every other wave. */
  ghost predicate BossOk<I(!new)>(cfg: Config<I>, h: History<I>)
    requires ValidConfig(cfg) && Sets(cfg, h)
  {
    match h.boss
    case None => h.lsent == {}
    case Some(d) =>
      && d in h.started && d in h.lsent
      && (forall v :: v in cfg.members ==> v in h.wave && h.wave[v] == d && (v, d) in h.full)
      && (forall c :: c in h.started ==> cfg.rank[d] <= cfg.rank[c])
  }

  ghost predicate NoDuplicates<T>(q: seq<T>) {
    forall i, j :: 0 <= i < j < |q| ==> q[i] != q[j]
  }

  /** What is in flight: each token sent and not yet received, once, any LEADER last. */
  ghost predicate ChannelOk<I(!new)>(h: History<I>, u: I, v: I, q: seq<Token<I>>) {
    && NoDuplicates(q)
    && (forall c :: Elect(c) in q <==> (u, v, c) in h.sent && (u, v, c) !in h.heard)
    && (forall l :: Leader(l) in q <==> u in h.lsent && (u, v) !in h.lheard && h.boss == Some(l))
    && (forall i :: 0 <= i < |q| && q[i].Leader? ==> i == |q| - 1)
    && ((u, v) in h.lheard ==> q == [])
  }

  ghost predicate Counts<I(!new)>(cfg: Config<I>, h: History<I>) {
    && h.elects == |h.sent|
    && h.leaders == |h.lsent| * (|cfg.members| - 1)
  }

  /** All clauses about waves and ELECT tokens, but for the completion of the nodes in `busy`. */
  ghost predicate StructureBut<I(!new)>(cfg: Config<I>, h: History<I>, busy: set<I>) {
    h in Structures(cfg, busy)
  }

  ghost function Structures<I(!new)>(cfg: Config<I>, busy: set<I>): iset<History<I>> {
    iset h: History<I> | Structured(cfg, h, busy)
  }

  ghost predicate Structured<I(!new)>(cfg: Config<I>, h: History<I>, busy: set<I>) {
    && ValidConfig(cfg)
    && Sets(cfg, h)
    && (forall v, c :: WaveOk(cfg, h, v, c))
    && (forall v :: LastOk(h, v))
    && (forall v, c :: FatherOk(cfg, h, v, c))
    && (forall u, v, c :: TokenOk(cfg, h, u, v, c))
    && (forall v, c :: FullOk(cfg, h, v, c))
    && (forall v :: v !in busy ==> DoneOk(cfg, h, v))
  }

  ghost predicate Structure<I(!new)>(cfg: Config<I>, h: History<I>) {
    StructureBut(cfg, h, {})
  }

  ghost predicate Leadership<I(!new)>(cfg: Config<I>, h: History<I>)
    requires ValidConfig(cfg) && Sets(cfg, h)
  {
    h in Leaderships(cfg)
  }

  ghost function Leaderships<I(!new)>(cfg: Config<I>): iset<History<I>>
    requires ValidConfig(cfg)
  {
    iset h: History<I> | Sets(cfg, h) && BossOk(cfg, h) && LeaderSent(cfg, h) && LeaderHeard(h)
  }

  ghost predicate LeaderSent<I(!new)>(cfg: Config<I>, h: History<I>) {
    forall v :: LeaderSentOk(cfg, h, v)
  }

  ghost predicate LeaderHeard<I(!new)>(h: History<I>) {
    forall u, v :: LeaderHeardOk(h, u, v)
  }

  ghost predicate MemberAt<I(!new)>(cfg: Config<I>, s: State<I>, v: I)
    requires Shape(cfg, s)
  {
    v in cfg.members ==> MemberOk(cfg, s.h, v, s.election[v], s.events[v])
  }

  ghost predicate Members<I(!new)>(cfg: Config<I>, s: State<I>)
    requires Shape(cfg, s)
  {
    forall v :: MemberAt(cfg, s, v)
  }

  ghost predicate Channels<I(!new)>(s: State<I>) {
    forall u, v :: (u, v) in s.chan ==> ChannelOk(s.h, u, v, s.chan[(u, v)])
  }

  /** The states that satisfy every clause. */
  ghost function Invariant<I(!new)>(cfg: Config<I>): iset<State<I>> {
    iset s: State<I> |
      && Structure(cfg, s.h)
      && Shape(cfg, s)
      && Leadership(cfg, s.h)
      && Members(cfg, s)
      && Channels(s)
      && Counts(cfg, s.h)
  }

  ghost predicate Inv<I(!new)>(cfg: Config<I>, s: State<I>) {
    s in Invariant(cfg)
  }

  lemma InitInv<I(!new)>(cfg: Config<I>, s: State<I>)
    requires ValidConfig(cfg) && Init(cfg, s)
    ensures Inv(cfg, s)
  {
  }
}
