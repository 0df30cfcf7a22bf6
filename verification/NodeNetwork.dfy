/**
 The election held by the nodes themselves: any number of nodes that are
 connected and list each other in a group, and from every one to every other a
 channel that delivers each packet once and in order.  They take the steps of
 the epoch, so what is proved of the epoch holds of them.
 */
module NodeNetwork {
  import opened Basics
  import opened CStrings
  import opened Runs
  import opened NodeRules
  import opened NodeStreams
  import opened NodeElections
  import Rules = ElectionRules
  import Net = ElectionNetwork
  import ElectionElect

  /** A group, the nodes in it, and the election that they may hold. */
  datatype Company = Company(g: Name, selves: map<Id, Self>, cfg: Net.Config<Id>)

  ghost predicate ValidCompany(k: Company) {
    && Net.ValidConfig(k.cfg) && k.cfg.less == StrLess && Fixed(k.g) == k.g
    && k.selves.Keys == k.cfg.members
    && (forall x :: x in k.selves ==> k.selves[x].id == x)
  }

  /** The nodes; and for every two of them how many packets of the first have reached the second. */
  datatype Cluster = Cluster(nodes: map<Id, NodeView>, taken: map<(Id, Id), nat>)

  datatype Move =
    | Contends(who: Id)          // the node starts a challenge
    | Takes(src: Id, dst: Id)    // the next packet from `src` reaches `dst`

  // ---- what the nodes start from ----

  /** It has heard nothing of an election. */
  ghost predicate Unaware(n: NodeView, g: Name) {
    GroupOf(n, g).election.None? && VerdictsIn(n.outbox, g) == []
  }

  ghost predicate Seated(k: Company, c: Cluster, v: Id) {
    v in k.cfg.members ==> c in Seatings(k, v)
  }

  ghost function Seatings(k: Company, v: Id): iset<Cluster> {
    iset c: Cluster |
      && v in c.nodes
      && Linked(c.nodes[v], Net.Others(k.cfg, v), k.g) && Unaware(c.nodes[v], k.g)
      && GroupOf(c.nodes[v], k.g).leader.None?
      && (GroupOf(c.nodes[v], k.g).contest <==> v in k.cfg.contest)
  }

  ghost predicate Between(k: Company, u: Id, v: Id) {
    u in k.cfg.members && v in Net.Others(k.cfg, u)
  }

  /** Everything `u` sent to `v` has arrived, and `v` waits for what `u` sends next. */
  ghost predicate Settled(k: Company, c: Cluster, u: Id, v: Id) {
    Between(k, u, v) ==> c in Settlings(u, v)
  }

  ghost function Settlings(u: Id, v: Id): iset<Cluster> {
    iset c: Cluster |
      && u in c.nodes && v in c.nodes && v in c.nodes[u].peers && u in c.nodes[v].peers
      && (u, v) in c.taken && c.taken[(u, v)] == |Sent(c.nodes[u], v)|
      && c.nodes[v].peers[u].want == c.nodes[u].peers[v].sent
  }

  /** The nodes have found each other, and no election has begun. */
  ghost predicate Assembled(k: Company, c: Cluster) {
    ValidCompany(k) && c in Assemblies(k)
  }

  ghost function Assemblies(k: Company): iset<Cluster> {
    iset c: Cluster | c.nodes.Keys == k.cfg.members && AllSeated(k, c) && AllSettled(k, c)
  }

  ghost predicate AllSeated(k: Company, c: Cluster) {
    forall v :: Seated(k, c, v)
  }

  ghost predicate AllSettled(k: Company, c: Cluster) {
    forall u, v :: Settled(k, c, u, v)
  }

  // ---- what they do ----

  ghost predicate MoveOk(k: Company, c: Cluster, m: Move, c': Cluster) {
    match m
    case Contends(v) =>
      && v in k.selves && v in c.nodes
      && GroupOf(c.nodes[v], k.g).contest && Unaware(c.nodes[v], k.g)
      && c' == c.(nodes := c.nodes[v := StartElection(k.selves[v], c.nodes[v], k.g)])
    case Takes(u, v) =>
      && Between(k, u, v) && v in k.selves && u in c.nodes && v in c.nodes
      && (u, v) in c.taken && c.taken[(u, v)] < |Sent(c.nodes[u], v)|
      && var p := Sent(c.nodes[u], v)[c.taken[(u, v)]];
         c' == Cluster(c.nodes[v := Act(k.selves[v], c.nodes[v], Receives(u, p, true))],
                       c.taken[(u, v) := c.taken[(u, v)] + 1])
  }

  /** A run of the nodes from where they have found each other. */
  ghost predicate IsClusterRun(k: Company, states: seq<Cluster>, moves: seq<Move>) {
    && IsTrace((c, m, c') => MoveOk(k, c, m, c'), states, moves)
    && Assembled(k, states[0])
  }

  // ---- packets in flight ----

  /**
   The packets of `s` after the first `taken` are these tokens, numbered on
   from `want` up to `sent`.
   */
  predicate InFlight(s: Stream, taken: nat, want: uint16, sent: uint16, g: Name, tokens: Tokens) {
    && taken <= |s| && s[taken..] == Numbered(want, g, tokens)
    && sent == Later(want, |tokens|)
  }

  lemma MoreInFlight(s: Stream, taken: nat, want: uint16, sent: uint16, g: Name, tokens: Tokens, more: Tokens)
    requires InFlight(s, taken, want, sent, g, tokens)
    ensures InFlight(s + Numbered(sent, g, more), taken, want, Later(sent, |more|), g, tokens + more)
  {
    NumberedTwice(want, g, tokens, more);
    LaterTwice(want, |tokens|, |more|);
    assert (s + Numbered(sent, g, more))[taken..] == s[taken..] + Numbered(sent, g, more);
  }

  lemma FirstInFlight(s: Stream, taken: nat, want: uint16, sent: uint16, g: Name, tokens: Tokens)
    requires InFlight(s, taken, want, sent, g, tokens) && taken < |s|
    ensures tokens != [] && s[taken] == Packet(NextSequence(want), TokenBody(g, tokens[0]))
    ensures InFlight(s, taken + 1, NextSequence(want), sent, g, tokens[1..])
  {
    assert |Numbered(want, g, tokens)| == |s| - taken;
    assert s[taken] == s[taken..][0];
    assert tokens == tokens[..1] + tokens[1..];
    NumberedTwice(want, g, tokens[..1], tokens[1..]);
    assert s[taken + 1..] == s[taken..][1..];
    LaterTwice(want, 1, |tokens| - 1);
  }

  // ---- a node and its member of the epoch ----

  /** The leader that a group names after these announcements. */
  function LeaderSeen(verdicts: seq<Id>, self: Id): Option<Id> {
    if verdicts == [] || verdicts[|verdicts| - 1] == self then None else Some(verdicts[|verdicts| - 1])
  }

  /** The node is in the state that the epoch gives its member, and its group names the leader announced. */
  ghost predicate Mirrors(k: Company, s: Net.State<Id>, n: NodeView, v: Id)
    requires ValidCompany(k)
  {
    v in k.cfg.members ==> n in Likenesses(k, s, v)
  }

  ghost function Likenesses(k: Company, s: Net.State<Id>, v: Id): iset<NodeView>
    requires ValidCompany(k) && v in k.cfg.members
  {
    iset n |
      && v in s.election && v in s.events
      && Linked(n, Net.Others(k.cfg, v), k.g)
      && GroupOf(n, k.g).election == s.election[v] && VerdictsIn(n.outbox, k.g) == s.events[v]
      && GroupOf(n, k.g).leader == LeaderSeen(s.events[v], v)
      && (GroupOf(n, k.g).contest <==> v in k.cfg.contest)
  }

  // ---- the cluster and the epoch ----

  ghost predicate MirrorsAt(k: Company, s: Net.State<Id>, c: Cluster, v: Id)
    requires ValidCompany(k)
  {
    v in k.cfg.members ==> v in c.nodes && Mirrors(k, s, c.nodes[v], v)
  }

  /** What is in flight from `u` to `v` is the epoch's channel, as packets. */
  ghost predicate Wired(k: Company, s: Net.State<Id>, c: Cluster, u: Id, v: Id) {
    Between(k, u, v) ==> c in Wirings(k.g, s, u, v)
  }

  ghost function Wirings(g: Name, s: Net.State<Id>, u: Id, v: Id): iset<Cluster> {
    iset c: Cluster |
      && u in c.nodes && v in c.nodes && v in c.nodes[u].peers && u in c.nodes[v].peers
      && (u, v) in c.taken && (u, v) in s.chan
      && InFlight(Sent(c.nodes[u], v), c.taken[(u, v)], c.nodes[v].peers[u].want, c.nodes[u].peers[v].sent, g, s.chan[(u, v)])
  }

  /** The clusters whose nodes and channels are as the epoch has them. */
  ghost function Reflections(k: Company, s: Net.State<Id>): iset<Cluster> {
    iset c: Cluster | ValidCompany(k) && AllMirror(k, s, c) && AllWired(k, s, c)
  }

  ghost predicate AllMirror(k: Company, s: Net.State<Id>, c: Cluster)
    requires ValidCompany(k)
  {
    forall v :: MirrorsAt(k, s, c, v)
  }

  ghost predicate AllWired(k: Company, s: Net.State<Id>, c: Cluster) {
    forall u, v :: Wired(k, s, c, u, v)
  }

  ghost predicate Reflects(k: Company, s: Net.State<Id>, c: Cluster) {
    c in Reflections(k, s)
  }

  ghost predicate ChannelSteps(s: Net.State<Id>, s': Net.State<Id>, v: Id, from: Option<Id>, casts: seq<Rules.Cast<Id>>,
      x: Id, y: Id)
  {
    (x, y) in s.chan ==>
      && (x, y) in s'.chan && (y == v && from == Some(x) ==> s.chan[(x, y)] != [])
      && s'.chan[(x, y)] ==
         if x == v then s.chan[(x, y)] + Net.Mail(casts, y)
         else if y == v && from == Some(x) then s.chan[(x, y)][1..]
         else s.chan[(x, y)]
  }

  /** One member's record and events change, a token from `from` is gone, and the casts are under way. */
  ghost predicate MemberSteps(s: Net.State<Id>, s': Net.State<Id>, v: Id, from: Option<Id>, casts: seq<Rules.Cast<Id>>) {
    && v in s'.election && v in s'.events
    && s'.election == s.election[v := s'.election[v]] && s'.events == s.events[v := s'.events[v]]
    && (forall x, y :: ChannelSteps(s, s', v, from, casts, x, y))
  }

  lemma OthersMirror(k: Company, s: Net.State<Id>, s': Net.State<Id>, n: NodeView, v: Id, x: Id,
      from: Option<Id>, casts: seq<Rules.Cast<Id>>)
    requires ValidCompany(k) && Mirrors(k, s, n, x) && x != v && MemberSteps(s, s', v, from, casts)
    ensures Mirrors(k, s', n, x)
  {
  }

  /** A packet from `u` to `v` is under way. */
  predicate Comes(c: Cluster, u: Id, v: Id) {
    u in c.nodes && (u, v) in c.taken && c.taken[(u, v)] < |Sent(c.nodes[u], v)|
  }

  /** What the channels make of one node's reaction. */
  lemma ReactionWired(k: Company, s: Net.State<Id>, c: Cluster, v: Id, from: Option<Id>, w: NodeView,
      casts: seq<Rules.Cast<Id>>, s': Net.State<Id>, c': Cluster, x: Id, y: Id)
    requires Wired(k, s, c, x, y) && v in k.cfg.members && v in c.nodes && MemberSteps(s, s', v, from, casts)
    requires Reacts(c.nodes[v], w, from, Net.Others(k.cfg, v), k.g, casts)
    requires from.Some? ==> Comes(c, from.value, v)
    requires c'.nodes == c.nodes[v := w]
    requires c'.taken == if from.Some? then c.taken[(from.value, v) := c.taken[(from.value, v)] + 1] else c.taken
    ensures Wired(k, s', c', x, y)
  {
    if Between(k, x, y) {
      var stream, taken, tokens := Sent(c.nodes[x], y), c.taken[(x, y)], s.chan[(x, y)];
      var want, sent := c.nodes[y].peers[x].want, c.nodes[x].peers[y].sent;
      assert ChannelSteps(s, s', v, from, casts, x, y);
      if x == v {
        assert ReactsTo(c.nodes[v], w, from, y, k.g, casts);
        MoreInFlight(stream, taken, want, sent, k.g, tokens, Net.Mail(casts, y));
      } else if y == v {
        assert ReactsTo(c.nodes[v], w, from, x, k.g, casts);
        if from == Some(x) {
          FirstInFlight(stream, taken, want, sent, k.g, tokens);
        }
      }
    }
  }

  lemma ReactionReflects(k: Company, s: Net.State<Id>, c: Cluster, v: Id, from: Option<Id>, w: NodeView,
      casts: seq<Rules.Cast<Id>>, s': Net.State<Id>, c': Cluster)
    requires Reflects(k, s, c) && v in k.cfg.members && v in c.nodes && MemberSteps(s, s', v, from, casts)
    requires Reacts(c.nodes[v], w, from, Net.Others(k.cfg, v), k.g, casts) && Mirrors(k, s', w, v)
    requires from.Some? ==> Comes(c, from.value, v)
    requires c'.nodes == c.nodes[v := w]
    requires c'.taken == if from.Some? then c.taken[(from.value, v) := c.taken[(from.value, v)] + 1] else c.taken
    ensures Reflects(k, s', c')
  {
    forall x ensures MirrorsAt(k, s', c', x) {
      if x in k.cfg.members && x != v {
        assert MirrorsAt(k, s, c, x);
        OthersMirror(k, s, s', c.nodes[x], v, x, from, casts);
      }
    }
    forall x, y ensures Wired(k, s', c', x, y) {
      assert Wired(k, s, c, x, y);
      ReactionWired(k, s, c, v, from, w, casts, s', c', x, y);
    }
  }

  // ---- the epoch's steps ----

  lemma StartSteps(cfg: Net.Config<Id>, s: Net.State<Id>, v: Id)
    requires v in s.election && v in s.events
    ensures var s' := Net.Next(cfg, s, Net.Start(v));
            && MemberSteps(s, s', v, None, [Rules.Cast(Net.Others(cfg, v), Rules.Elect(v))])
            && s'.election[v] == Some(Rules.Started(v)) && s'.events == s.events
  {
  }

  lemma ElectSteps(cfg: Net.Config<Id>, s: Net.State<Id>, u: Id, v: Id, c: Id)
    requires v in s.election && v in s.events && u != v && ElectionElect.Heads(s, u, v, Rules.Elect(c))
    ensures var s' := Net.Next(cfg, s, Net.Deliver(u, v));
            var out := Rules.OnElect(cfg.less, v, Net.Others(cfg, v), s.election[v], u, c);
            && MemberSteps(s, s', v, Some(u), out.casts)
            && s'.election[v] == Some(out.record) && s'.events == s.events
  {
  }

  lemma LeaderSteps(cfg: Net.Config<Id>, s: Net.State<Id>, u: Id, v: Id, l: Id)
    requires v in s.election && v in s.events && u != v && l in cfg.members && ElectionElect.Heads(s, u, v, Rules.Leader(l))
    ensures var s' := Net.Next(cfg, s, Net.Deliver(u, v));
            var out := Rules.OnLeader(v, Net.Others(cfg, v), s.election[v], l);
            && MemberSteps(s, s', v, Some(u), out.casts)
            && s'.election[v] == out.election
            && s'.events[v] == s.events[v] + if out.verdict.Some? then [l] else []
  {
  }

  // ---- what each move does ----

  lemma ContendsReflects(k: Company, s: Net.State<Id>, c: Cluster, v: Id, c': Cluster)
    requires Reflects(k, s, c) && MoveOk(k, c, Contends(v), c')
    ensures v in s.election && v in k.cfg.contest && s.election[v].None? && v in s.events && s.events[v] == []
    ensures Reflects(k, Net.Next(k.cfg, s, Net.Start(v)), c')
  {
    var n, members := c.nodes[v], Net.Others(k.cfg, v);
    assert MirrorsAt(k, s, c, v);
    StartHandled(k.selves[v], n, members, k.g);
    StartSteps(k.cfg, s, v);
    var w, casts := c'.nodes[v], [Rules.Cast(members, Rules.Elect(v))];
    HandledKeepsLinks(n, None, w, members, k.g, casts);
    ReactionReflects(k, s, c, v, None, w, casts, Net.Next(k.cfg, s, Net.Start(v)), c');
  }

  /** The next packet from `u` has reached `v`, which is then `w`. */
  ghost predicate Taken(k: Company, c: Cluster, u: Id, v: Id, w: NodeView, c': Cluster) {
    && Between(k, u, v) && u in c.nodes && v in c.nodes
    && (u, v) in c.taken && c.taken[(u, v)] < |Sent(c.nodes[u], v)|
    && c'.nodes == c.nodes[v := w] && c'.taken == c.taken[(u, v) := c.taken[(u, v)] + 1]
  }

  /** The clusters where the next packet from `u` to `v` is the epoch's token, with the number that `v` wants. */
  ghost function Awaiting(g: Name, s: Net.State<Id>, u: Id, v: Id): iset<Cluster> {
    iset c: Cluster |
      && u in c.nodes && v in c.nodes && LinkedTo(c.nodes[v], u) && !c.nodes[v].failed
      && (u, v) in s.chan && s.chan[(u, v)] != []
      && (u, v) in c.taken && c.taken[(u, v)] < |Sent(c.nodes[u], v)|
      && Sent(c.nodes[u], v)[c.taken[(u, v)]]
         == Packet(NextSequence(c.nodes[v].peers[u].want), TokenBody(g, s.chan[(u, v)][0]))
  }

  lemma NextToken(k: Company, s: Net.State<Id>, c: Cluster, u: Id, v: Id)
    requires Reflects(k, s, c) && Between(k, u, v) && u in c.nodes && v in c.nodes
    requires (u, v) in c.taken && c.taken[(u, v)] < |Sent(c.nodes[u], v)|
    ensures c in Awaiting(k.g, s, u, v)
  {
    assert MirrorsAt(k, s, c, v) && Wired(k, s, c, u, v);
    var n := c.nodes[v];
    FirstInFlight(Sent(c.nodes[u], v), c.taken[(u, v)], n.peers[u].want, c.nodes[u].peers[v].sent, k.g, s.chan[(u, v)]);
    assert LinkedTo(n, u);
  }

  /** The packet taken is the epoch's token, and the node handles it. */
  lemma TakenToken(k: Company, s: Net.State<Id>, c: Cluster, u: Id, v: Id, c': Cluster) returns (w: NodeView)
    requires Reflects(k, s, c) && MoveOk(k, c, Takes(u, v), c')
    ensures (u, v) in s.chan && s.chan[(u, v)] != [] && v in k.selves && Taken(k, c, u, v, w, c')
    ensures u in c.nodes[v].peers && w == Handling(k.selves[v], c.nodes[v], u, k.g, s.chan[(u, v)][0])
  {
    NextToken(k, s, c, u, v);
    TokenAccepted(k.selves[v], c.nodes[v], u, k.g, s.chan[(u, v)][0]);
    w := c'.nodes[v];
  }

  /** The epoch's state as it bears on one member. */
  ghost predicate MemberIs(s: Net.State<Id>, v: Id, election: Option<Record>, events: seq<Id>) {
    v in s.election && v in s.events && s.election[v] == election && s.events[v] == events
  }

  lemma ElectMirrors(k: Company, s: Net.State<Id>, n: NodeView, u: Id, v: Id, c: Id, s': Net.State<Id>)
    requires ValidCompany(k) && Mirrors(k, s, n, v) && Between(k, u, v) && u in n.peers
    requires
      var out := Rules.OnElect(StrLess, v, Net.Others(k.cfg, v), s.election[v], u, c);
      MemberIs(s', v, Some(out.record), s.events[v])
    ensures
      var w := Handling(k.selves[v], n, u, k.g, Rules.Elect(c));
      var out := Rules.OnElect(StrLess, v, Net.Others(k.cfg, v), s.election[v], u, c);
      Reacts(n, w, Some(u), Net.Others(k.cfg, v), k.g, out.casts) && Mirrors(k, s', w, v)
  {
    var members := Net.Others(k.cfg, v);
    ElectHandled(k.selves[v], n, members, k.g, u, c);
    var w := Handling(k.selves[v], n, u, k.g, Rules.Elect(c));
    HandledKeepsLinks(n, Some(u), w, members, k.g, Rules.OnElect(StrLess, v, members, s.election[v], u, c).casts);
  }

  lemma LeaderMirrors(k: Company, s: Net.State<Id>, n: NodeView, u: Id, v: Id, l: Id, s': Net.State<Id>)
    requires ValidCompany(k) && Mirrors(k, s, n, v) && Between(k, u, v) && u in n.peers && l in k.cfg.members
    requires v in s.events && s.events[v] == []
    requires
      var out := Rules.OnLeader(v, Net.Others(k.cfg, v), s.election[v], l);
      MemberIs(s', v, out.election, if out.verdict.Some? then [l] else [])
    ensures
      var w := Handling(k.selves[v], n, u, k.g, Rules.Leader(l));
      var out := Rules.OnLeader(v, Net.Others(k.cfg, v), s.election[v], l);
      Reacts(n, w, Some(u), Net.Others(k.cfg, v), k.g, out.casts) && Mirrors(k, s', w, v)
  {
    var members := Net.Others(k.cfg, v);
    var out := Rules.OnLeader(v, members, s.election[v], l);
    LeaderHandled(k.selves[v], n, members, k.g, u, l);
    var w := Handling(k.selves[v], n, u, k.g, Rules.Leader(l));
    HandledKeepsLinks(n, Some(u), w, members, k.g, out.casts);
    LeaderLikeness(k, s', n, w, v, out.election, if out.verdict.Some? then [l] else [], l);
  }

  lemma LeaderLikeness(k: Company, s': Net.State<Id>, n: NodeView, w: NodeView, v: Id,
      election: Option<Record>, verdicts: seq<Id>, l: Id)
    requires ValidCompany(k) && v in k.cfg.members && MemberIs(s', v, election, verdicts)
    requires (verdicts == [] || verdicts == [l]) && GroupOf(n, k.g).leader.None?
    requires Linked(w, Net.Others(k.cfg, v), k.g) && VerdictsIn(w.outbox, k.g) == verdicts
    requires GroupOf(w, k.g) == GroupOf(n, k.g).(election := election,
                                                 leader := if verdicts != [] && l != v then Some(l) else None)
    requires GroupOf(n, k.g).contest <==> v in k.cfg.contest
    ensures Mirrors(k, s', w, v)
  {
  }

  lemma TakenReflects(k: Company, s: Net.State<Id>, c: Cluster, u: Id, v: Id, w: NodeView, casts: seq<Rules.Cast<Id>>,
      s': Net.State<Id>, c': Cluster)
    requires Reflects(k, s, c) && Taken(k, c, u, v, w, c') && MemberSteps(s, s', v, Some(u), casts)
    requires Reacts(c.nodes[v], w, Some(u), Net.Others(k.cfg, v), k.g, casts) && Mirrors(k, s', w, v)
    ensures Reflects(k, s', c')
  {
    ReactionReflects(k, s, c, v, Some(u), w, casts, s', c');
  }

  lemma TakesReflects(k: Company, s: Net.State<Id>, c: Cluster, u: Id, v: Id, w: NodeView, c': Cluster)
    requires Reflects(k, s, c) && Taken(k, c, u, v, w, c') && v in s.election && v in s.events && v in k.selves
    requires (u, v) in s.chan && s.chan[(u, v)] != []
    requires s.chan[(u, v)][0].Leader? ==> s.chan[(u, v)][0].leader in k.cfg.members && s.events[v] == []
    requires u in c.nodes[v].peers && w == Handling(k.selves[v], c.nodes[v], u, k.g, s.chan[(u, v)][0])
    ensures Reflects(k, Net.Next(k.cfg, s, Net.Deliver(u, v)), c')
  {
    var s', members := Net.Next(k.cfg, s, Net.Deliver(u, v)), Net.Others(k.cfg, v);
    assert MirrorsAt(k, s, c, v);
    match s.chan[(u, v)][0]
    case Elect(x) =>
      ElectSteps(k.cfg, s, u, v, x);
      ElectMirrors(k, s, c.nodes[v], u, v, x, s');
      TakenReflects(k, s, c, u, v, w, Rules.OnElect(StrLess, v, members, s.election[v], u, x).casts, s', c');
    case Leader(l) =>
      LeaderSteps(k.cfg, s, u, v, l);
      LeaderMirrors(k, s, c.nodes[v], u, v, l, s');
      TakenReflects(k, s, c, u, v, w, Rules.OnLeader(v, members, s.election[v], l).casts, s', c');
  }
}
