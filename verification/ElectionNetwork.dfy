/**
 One epoch of an election: a fixed set of members that all list each other in
 the group, a FIFO channel for every ordered pair, and arbitrary interleaving
 of starts and deliveries.  A member's reaction is exactly `ElectionRules`.

 `History` holds auxiliary variables: they record what happened and never
 influence a step.
 */
module ElectionNetwork {
  import opened Basics
  import opened ElectionRules

  /** The members, those that contest, the order of the ids, and a numbering of the members in that order. */
  datatype Config<!I> = Config(members: set<I>, contest: set<I>, less: Order<I>, rank: map<I, int>)

  ghost predicate RankedAlike<I>(cfg: Config<I>, a: I, b: I) {
    a in cfg.rank && b in cfg.rank ==>
      && (cfg.less(a, b) <==> cfg.rank[a] < cfg.rank[b])
      && (cfg.rank[a] == cfg.rank[b] ==> a == b)
  }

  /** At least two members, and the 32-bit counters can count a member's neighbours. */
  ghost predicate ValidConfig<I(!new)>(cfg: Config<I>) {
    && 2 <= |cfg.members| <= 0x1_0000_0000
    && cfg.contest <= cfg.members
    && cfg.rank.Keys == cfg.members
    && (forall a, b :: RankedAlike(cfg, a, b))
  }

  datatype History<I> = History(
    started: set<I>,            // members that have started a wave
    wave: map<I, I>,           // last wave joined, for those that have taken part
    father: map<(I, I), I>,   // (v, c): from whom v joined wave c; c itself when v == c
    depth: map<(I, I), nat>,   // (v, c): distance from c along the fathers
    full: set<(I, I)>,         // (v, c): v's ELECT count for wave c was found complete
    sent: set<(I, I, I)>,     // (u, v, c): u has sent ELECT(c) to v
    heard: set<(I, I, I)>,    // (u, v, c): v has received ELECT(c) from u
    boss: Option<I>,            // who has made the LEADER decision
    lsent: set<I>,              // members that have sent LEADER to all their neighbours
    lheard: set<(I, I)>,       // (u, v): v has received LEADER from u
    elects: nat,                 // number of ELECT messages sent
    leaders: nat)                // number of LEADER messages sent

  datatype State<I> = State(
    election: map<I, Option<Record<I>>>,
    chan: map<(I, I), seq<Token<I>>>,
    events: map<I, seq<I>>,    // the LEADER events each member gave its application
    h: History<I>)

  datatype Step<I> = Start(who: I) | Deliver(src: I, dst: I)

  ghost function Others<I>(cfg: Config<I>, v: I): set<I> {
    cfg.members - {v}
  }

  ghost predicate Init<I(!new)>(cfg: Config<I>, s: State<I>) {
    && s.election == (map v | v in cfg.members :: None)
    && s.events == (map v | v in cfg.members :: [])
    && (forall u, v {:trigger (u, v) in s.chan} :: (u, v) in s.chan <==> u in cfg.members && v in Others(cfg, u))
    && (forall p :: p in s.chan ==> s.chan[p] == [])
    && s.h == History({}, map[], map[], map[], {}, {}, {}, None, {}, {}, 0, 0)
  }

  /** What the casts of one step put on the channel to `dst`. */
  ghost function Mail<I>(casts: seq<Cast<I>>, dst: I): seq<Token<I>> {
    if casts == [] then []
    else (if dst in casts[0].to then [casts[0].token] else []) + Mail(casts[1..], dst)
  }

  ghost function Post<I>(chan: map<(I, I), seq<Token<I>>>, src: I, casts: seq<Cast<I>>): map<(I, I), seq<Token<I>>> {
    map p | p in chan :: if p.0 == src then chan[p] + Mail(casts, p.1) else chan[p]
  }

  ghost predicate Enabled<I>(cfg: Config<I>, s: State<I>, step: Step<I>) {
    match step
    case Start(v) => v in cfg.contest && v !in s.h.wave
    case Deliver(u, v) => (u, v) in s.chan && s.chan[(u, v)] != []
  }

  ghost function Fan<I>(u: I, to: set<I>, c: I): set<(I, I, I)> {
    set v | v in to :: (u, v, c)
  }

  ghost function StartHistory<I>(cfg: Config<I>, h: History<I>, v: I): History<I> {
    h.(started := h.started + {v}, wave := h.wave[v := v],
       father := h.father[(v, v) := v], depth := h.depth[(v, v) := 0],
       sent := h.sent + Fan(v, Others(cfg, v), v), elects := h.elects + |Others(cfg, v)|)
  }

  ghost predicate Joins<I>(cfg: Config<I>, s: State<I>, v: I, c: I)
    requires v in s.election
  {
    Superior(cfg.less, RequireRecord(s.election[v]), c)
  }

  /** The ELECT count is complete once this token is counted. */
  ghost predicate Completes<I>(cfg: Config<I>, s: State<I>, u: I, v: I, c: I)
    requires v in s.election
  {
    var r := Supporting(cfg.less, RequireRecord(s.election[v]), u, c);
    r.caw == Some(c) && Increment(r.erec) == |Others(cfg, v)|
  }

  ghost function JoinHistory<I>(cfg: Config<I>, h: History<I>, u: I, v: I, c: I): History<I>
  {
    h.(wave := h.wave[v := c], father := h.father[(v, c) := u],
       depth := h.depth[(v, c) := 1 + if (u, c) in h.depth then h.depth[(u, c)] else 0],
       sent := h.sent + Fan(v, Others(cfg, v) - {u}, c),
       elects := h.elects + |Others(cfg, v) - {u}|)
  }

  ghost function CompleteHistory<I>(cfg: Config<I>, h: History<I>, v: I, c: I): History<I> {
    var h1 := h.(full := h.full + {(v, c)});
    if v == c then
      h1.(boss := Some(v), lsent := h.lsent + {v}, leaders := h.leaders + |Others(cfg, v)|)
    else if (v, c) in h.father then
      h1.(sent := h.sent + {(v, h.father[(v, c)], c)}, elects := h.elects + 1)
    else h1
  }

  ghost function ElectHistory<I>(cfg: Config<I>, s: State<I>, u: I, v: I, c: I): History<I>
    requires v in s.election
  {
    var h0 := s.h.(heard := s.h.heard + {(u, v, c)});
    var h1 := if Joins(cfg, s, v, c) then JoinHistory(cfg, h0, u, v, c) else h0;
    if Completes(cfg, s, u, v, c) then CompleteHistory(cfg, h1, v, c) else h1
  }

  ghost function LeaderHistory<I>(cfg: Config<I>, h: History<I>, u: I, v: I, relays: bool): History<I> {
    var h0 := h.(lheard := h.lheard + {(u, v)});
    if relays then h0.(lsent := h.lsent + {v}, leaders := h.leaders + |Others(cfg, v)|) else h0
  }

  /** A verdict is announced if the leader is the node itself or a peer it knows. */
  ghost function Announce<I>(cfg: Config<I>, events: map<I, seq<I>>, v: I, verdict: Option<I>): map<I, seq<I>>
    requires v in events
  {
    if verdict.Some? && verdict.value in cfg.members then events[v := events[v] + [verdict.value]] else events
  }

  ghost function Next<I>(cfg: Config<I>, s: State<I>, step: Step<I>): State<I>
    requires step.Start? ==> step.who in s.election
    requires step.Deliver? ==> step.dst in s.election && step.dst in s.events
    requires step.Deliver? ==> (step.src, step.dst) in s.chan && s.chan[(step.src, step.dst)] != []
  {
    match step
    case Start(v) =>
      s.(election := s.election[v := Some(Started(v))],
         chan := Post(s.chan, v, [Cast(Others(cfg, v), Elect(v))]),
         h := StartHistory(cfg, s.h, v))
    case Deliver(u, v) =>
      var rest := s.chan[(u, v) := s.chan[(u, v)][1..]];
      match s.chan[(u, v)][0]
      case Elect(c) =>
        var out := OnElect(cfg.less, v, Others(cfg, v), s.election[v], u, c);
        State(s.election[v := Some(out.record)], Post(rest, v, out.casts), s.events, ElectHistory(cfg, s, u, v, c))
      case Leader(l) =>
        var out := OnLeader(v, Others(cfg, v), s.election[v], l);
        State(s.election[v := out.election], Post(rest, v, out.casts),
              Announce(cfg, s.events, v, out.verdict),
              LeaderHistory(cfg, s.h, u, v, out.casts != []))
  }
}
