/**
 The nodes play the election.  A node whose group lists the other members, all
 connected, and that takes an election message from one of them, does what the
 rules of the epoch say: it has their record, makes their announcement, and puts
 their tokens on the wire to each member, numbered on from what it sent before.
 */
module NodeElections {
  import opened Basics
  import opened CStrings
  import opened NodeRules
  import opened NodeStreams
  import opened NodeSteps
  import Rules = ElectionRules
  import Net = ElectionNetwork

  type Tokens = seq<Rules.Token<Id>>

  /** The leaders announced for a group. */
  function VerdictsIn(events: seq<Event>, g: Name): seq<Id> {
    if events == [] then []
    else
      var before := VerdictsIn(events[..|events| - 1], g);
      match events[|events| - 1]
      case Elected(l, h) => if h == g then before + [l] else before
      case _ => before
  }

  lemma VerdictTold(events: seq<Event>, leader: Id, g: Name)
    ensures VerdictsIn(events + [Elected(leader, g)], g) == VerdictsIn(events, g) + [leader]
  {
    assert (events + [Elected(leader, g)])[..|events|] == events;
  }

  // ---- links ----

  predicate LinkedTo(n: NodeView, x: Id) {
    x in n.peers && n.peers[x].connected && n.peers[x].ready
  }

  /** The node lists exactly these peers, and is connected to all of them. */
  ghost predicate Linked(n: NodeView, members: set<Id>, g: Name) {
    && !n.failed && GroupOf(n, g).members == members
    && (forall x :: x in members ==> LinkedTo(n, x))
  }

  // ---- tokens as packets ----

  function Later(n: uint16, count: nat): uint16 {
    (n + count) % 0x1_0000
  }

  /** These tokens as packets, numbered from the one after `n`. */
  function Numbered(n: uint16, g: Name, tokens: Tokens): Stream {
    seq(|tokens|, i requires 0 <= i < |tokens| => Packet(Later(n, i + 1), TokenBody(g, tokens[i])))
  }

  lemma LaterTwice(n: uint16, a: nat, b: nat)
    ensures Later(Later(n, a), b) == Later(n, a + b)
  {
  }

  lemma NumberedTwice(n: uint16, g: Name, a: Tokens, b: Tokens)
    ensures Numbered(n, g, a) + Numbered(Later(n, |a|), g, b) == Numbered(n, g, a + b)
  {
    var both := Numbered(n, g, a) + Numbered(Later(n, |a|), g, b);
    forall i | 0 <= i < |a + b| ensures both[i] == Numbered(n, g, a + b)[i] {
      if i >= |a| {
        LaterTwice(n, |a|, i - |a| + 1);
      }
    }
  }

  lemma AppendTwice<T>(a: seq<T>, b: seq<T>, c: seq<T>)
    ensures (a + b) + c == a + (b + c)
  {
  }

  // ---- one node, seen from a neighbour ----

  /** From `n` to `w` the node sent `x` the mail of these casts, and counted a packet if one came from `x`. */
  ghost predicate ReactsTo(n: NodeView, w: NodeView, from: Option<Id>, x: Id, g: Name, casts: seq<Rules.Cast<Id>>) {
    var mail := Net.Mail(casts, x);
    && x in n.peers && x in w.peers
    && Sent(w, x) == Sent(n, x) + Numbered(n.peers[x].sent, g, mail)
    && w.peers[x] == n.peers[x].(sent := Later(n.peers[x].sent, |mail|),
                                 want := if from == Some(x) then NextSequence(n.peers[x].want) else n.peers[x].want)
  }

  ghost predicate Reacts(n: NodeView, w: NodeView, from: Option<Id>, members: set<Id>, g: Name, casts: seq<Rules.Cast<Id>>) {
    forall x :: x in members ==> ReactsTo(n, w, from, x, g, casts)
  }

  lemma OneMail(cast: Rules.Cast<Id>, x: Id)
    ensures Net.Mail([cast], x) == if x in cast.to then [cast.token] else []
  {
    assert [cast][1..] == [];
  }

  lemma CastNumbered(n: NodeView, g: Name, cast: Rules.Cast<Id>, x: Id)
    requires x in n.peers && n.peers[x].connected
    ensures ReactsTo(n, SendAll(n, cast.to, TokenBody(g, cast.token)), None, x, g, [cast])
  {
    var mail := if x in cast.to then [cast.token] else [];
    OneMail(cast, x);
    SendPosts(n, cast.to, TokenBody(g, cast.token), x);
    assert Numbered(n.peers[x].sent, g, mail)
        == if x in cast.to then [Packet(NextSequence(n.peers[x].sent), TokenBody(g, cast.token))] else [];
  }

  lemma {:induction false} CastsNumbered(n: NodeView, g: Name, casts: seq<Rules.Cast<Id>>, x: Id)
    requires x in n.peers && n.peers[x].connected
    ensures ReactsTo(n, SendCasts(n, g, casts), None, x, g, casts)
    decreases |casts|
  {
    if casts == [] {
      assert Numbered(n.peers[x].sent, g, []) == [];
    } else {
      var n1 := SendAll(n, casts[0].to, TokenBody(g, casts[0].token));
      CastNumbered(n, g, casts[0], x);
      CastsNumbered(n1, g, casts[1..], x);
      ReactsTwice(n, n1, SendCasts(n, g, casts), x, g, casts);
    }
  }

  lemma ReactsTwice(n: NodeView, n1: NodeView, w: NodeView, x: Id, g: Name, casts: seq<Rules.Cast<Id>>)
    requires casts != [] && ReactsTo(n, n1, None, x, g, [casts[0]]) && ReactsTo(n1, w, None, x, g, casts[1..])
    ensures ReactsTo(n, w, None, x, g, casts)
  {
    var head, rest := Net.Mail([casts[0]], x), Net.Mail(casts[1..], x);
    OneMail(casts[0], x);
    assert Net.Mail(casts, x) == head + rest;
    NumberedTwice(n.peers[x].sent, g, head, rest);
    LaterTwice(n.peers[x].sent, |head|, |rest|);
    AppendTwice(Sent(n, x), Numbered(n.peers[x].sent, g, head), Numbered(n1.peers[x].sent, g, rest));
  }

  /** Counting the packet and then casting makes one reaction. */
  lemma ChecksAndCasts(n: NodeView, u: Id, body: Body, n2: NodeView, members: set<Id>, g: Name, casts: seq<Rules.Cast<Id>>)
    requires u in n.peers && Linked(n, members, g) && !body.Hello?
    requires n2.peers == Checked(n, u, body).peers && n2.wire == n.wire
    ensures Reacts(n, SendCasts(n2, g, casts), Some(u), members, g, casts)
  {
    forall x | x in members ensures ReactsTo(n, SendCasts(n2, g, casts), Some(u), x, g, casts) {
      assert LinkedTo(n, x);
      CastsNumbered(n2, g, casts, x);
    }
  }

  // ---- what a message does ----

  /** The node with its group's record and leader as they stand after LEADER. */
  function LeaderNoted(me: Self, v: NodeView, g: Name, l: Id): NodeView {
    var out := Rules.OnLeader(me.id, GroupOf(v, g).members, GroupOf(v, g).election, l);
    var follows := out.verdict.Some? && l != me.id && l in v.peers;
    Regroup(v, g, GroupOf(v, g).(election := out.election, leader := if follows then Some(l) else GroupOf(v, g).leader))
  }

  /** A node that handled an election message: its group and events have changed, and it has sent the casts. */
  ghost predicate Handled(n: NodeView, u: Option<Id>, w: NodeView, members: set<Id>, g: Name, casts: seq<Rules.Cast<Id>>) {
    && Reacts(n, w, u, members, g, casts)
    && w.failed == n.failed && GroupOf(w, g).members == GroupOf(n, g).members && GroupOf(w, g).contest == GroupOf(n, g).contest
  }

  lemma HandledKeepsLinks(n: NodeView, u: Option<Id>, w: NodeView, members: set<Id>, g: Name, casts: seq<Rules.Cast<Id>>)
    requires Handled(n, u, w, members, g, casts) && Linked(n, members, g)
    ensures Linked(w, members, g)
  {
    forall x | x in members ensures LinkedTo(w, x) {
      assert LinkedTo(n, x) && ReactsTo(n, w, u, x, g, casts);
    }
  }

  lemma CastsKeepNode(n: NodeView, g: Name, casts: seq<Rules.Cast<Id>>)
    ensures var w := SendCasts(n, g, casts);
            w.groups == n.groups && w.outbox == n.outbox && w.failed == n.failed
    decreases |casts|
  {
    if casts != [] {
      CastsKeepNode(SendAll(n, casts[0].to, TokenBody(g, casts[0].token)), g, casts[1..]);
    }
  }

  lemma ElectHandled(me: Self, n: NodeView, members: set<Id>, g: Name, u: Id, c: Id)
    requires u in members && Linked(n, members, g) && Fixed(g) == g
    ensures
      var out := Rules.OnElect(StrLess, me.id, members, GroupOf(n, g).election, u, c);
      var w := OnElect(me, Checked(n, u, Elect(g, c)), u, g, c);
      && Handled(n, Some(u), w, members, g, out.casts)
      && GroupOf(w, g) == GroupOf(n, g).(election := Some(out.record)) && w.outbox == n.outbox
  {
    var out := Rules.OnElect(StrLess, me.id, members, GroupOf(n, g).election, u, c);
    assert LinkedTo(n, u);
    var n1 := Checked(n, u, Elect(g, c));
    var n2 := n1.(groups := n1.groups[g := GroupOf(n, g).(election := Some(out.record))]);
    ChecksAndCasts(n, u, Elect(g, c), n2, members, g, out.casts);
    CastsKeepNode(n2, g, out.casts);
  }

  lemma LeaderHandled(me: Self, n: NodeView, members: set<Id>, g: Name, u: Id, l: Id)
    requires u in members && Linked(n, members, g) && Fixed(g) == g && (l == me.id || l in members)
    ensures
      var out := Rules.OnLeader(me.id, members, GroupOf(n, g).election, l);
      var w := OnLeader(me, Checked(n, u, Leader(g, l)), g, l);
      && Handled(n, Some(u), w, members, g, out.casts)
      && GroupOf(w, g) == GroupOf(n, g).(election := out.election,
                                         leader := if out.verdict.Some? && l != me.id then Some(l) else GroupOf(n, g).leader)
      && VerdictsIn(w.outbox, g) == VerdictsIn(n.outbox, g) + if out.verdict.Some? then [l] else []
  {
    var out := Rules.OnLeader(me.id, members, GroupOf(n, g).election, l);
    assert LinkedTo(n, u) && (l != me.id ==> LinkedTo(n, l));
    var n1 := Checked(n, u, Leader(g, l));
    var n2 := LeaderNoted(me, n1, g, l);
    var w2 := SendCasts(n2, g, out.casts);
    ChecksAndCasts(n, u, Leader(g, l), n2, members, g, out.casts);
    CastsKeepNode(n2, g, out.casts);
    assert Handled(n, Some(u), w2, members, g, out.casts);
    LeaderIsNoted(me, n1, g, l, out);
    if out.verdict.Some? {
      TellHandled(n, u, w2, members, g, out.casts, Elected(l, g));
      VerdictTold(n.outbox, l, g);
    }
  }

  lemma LeaderIsNoted(me: Self, n: NodeView, g: Name, l: Id, out: Rules.LeaderOut<Id>)
    requires out == Rules.OnLeader(me.id, GroupOf(n, g).members, GroupOf(n, g).election, l)
    requires l == me.id || l in n.peers
    ensures var w := SendCasts(LeaderNoted(me, n, g, l), g, out.casts);
            OnLeader(me, n, g, l) == if out.verdict.Some? then Tell(w, Elected(l, g)) else w
  {
  }

  lemma TellHandled(n: NodeView, u: Id, w: NodeView, members: set<Id>, g: Name, casts: seq<Rules.Cast<Id>>, e: Event)
    requires Handled(n, Some(u), w, members, g, casts)
    ensures Handled(n, Some(u), Tell(w, e), members, g, casts)
  {
    forall x | x in members ensures ReactsTo(n, Tell(w, e), Some(u), x, g, casts) {
      assert ReactsTo(n, w, Some(u), x, g, casts);
    }
  }

  lemma StartHandled(me: Self, n: NodeView, members: set<Id>, g: Name)
    requires Linked(n, members, g) && Fixed(g) == g
    ensures
      var w := StartElection(me, n, g);
      && Handled(n, None, w, members, g, [Rules.Cast(members, Rules.Elect(me.id))])
      && GroupOf(w, g) == GroupOf(n, g).(election := Some(Rules.Started(me.id)), leader := None) && w.outbox == n.outbox
  {
    var cast := Rules.Cast(members, Rules.Elect(me.id));
    var n1 := n.(groups := n.groups[g := GroupOf(n, g).(election := Some(Rules.Started(me.id)), leader := None)]);
    forall x | x in members ensures ReactsTo(n, StartElection(me, n, g), None, x, g, [cast]) {
      assert LinkedTo(n, x);
      CastNumbered(n1, g, cast, x);
    }
  }

  /** The node after it has counted and handled a token. */
  function Handling(me: Self, n: NodeView, u: Id, g: Name, token: Rules.Token<Id>): NodeView
    requires u in n.peers
  {
    match token
    case Elect(c) => OnElect(me, Checked(n, u, Elect(Fixed(g), c)), u, Fixed(g), c)
    case Leader(l) => OnLeader(me, Checked(n, u, Leader(Fixed(g), l)), Fixed(g), l)
  }

  /** The packet passes the ready check and the sequence check. */
  lemma TokenAccepted(me: Self, n: NodeView, u: Id, g: Name, token: Rules.Token<Id>)
    requires !n.failed && LinkedTo(n, u) && Fixed(g) == g
    ensures var p := Packet(NextSequence(n.peers[u].want), TokenBody(g, token));
            Act(me, n, Receives(u, p, true)) == Handling(me, n, u, g, token)
  {
  }
}
