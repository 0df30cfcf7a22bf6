/**
 What a node tells its application: for everything that can happen to it,
 exactly the events added to the list, in order.
 */
module NodeNews {
  import opened Basics
  import opened CStrings
  import opened NodeRules
  import opened NodeElections
  import opened NodeRestarts
  import Rules = ElectionRules

  // ---- losing a peer ----

  /** The group calls for an election, and nobody but the peer was in it. */
  predicate Inherits(group: GroupView, id: Id) {
    Calls(group, id) && |group.members| == 1
  }

  /** The node announces itself once in each of these groups that it inherits, in turn, leaving out those of `done`. */
  function Heirs(me: Self, v: NodeView, id: Id, names: seq<Name>, done: set<Name>): seq<Event> {
    if names == [] then []
    else
      (if names[0] !in done && Inherits(GroupOf(v, names[0]), id) then [Elected(me.id, names[0])] else [])
      + Heirs(me, v, id, names[1..], done + {names[0]})
  }

  lemma RestartNews(me: Self, v: NodeView, id: Id, h: Name)
    ensures Restart(me, v, id, h).outbox == v.outbox + if Inherits(GroupOf(v, h), id) then [Elected(me.id, h)] else []
    ensures !Inherits(GroupOf(Restart(me, v, id, h), h), id)
  {
    RestartsOne(me, v, id, h, h);
  }

  /** A group that was restarted is not inherited again. */
  lemma {:induction false} RestartKeepsHeirs(me: Self, v: NodeView, id: Id, h: Name, names: seq<Name>, done: set<Name>)
    ensures Heirs(me, Restart(me, v, id, h), id, names, done) == Heirs(me, v, id, names, done + {h})
    decreases |names|
  {
    if names != [] {
      RestartNews(me, v, id, h);
      RestartsOne(me, v, id, h, names[0]);
      RestartKeepsHeirs(me, v, id, h, names[1..], done + {names[0]});
      assert done + {h} + {names[0]} == done + {names[0]} + {h};
    }
  }

  lemma {:induction false} RestartAllNews(me: Self, v: NodeView, id: Id, names: seq<Name>)
    ensures RestartAll(me, v, id, names).outbox == v.outbox + Heirs(me, v, id, names, {})
    decreases |names|
  {
    if names != [] {
      var first := if Inherits(GroupOf(v, names[0]), id) then [Elected(me.id, names[0])] else [];
      RestartNews(me, v, id, names[0]);
      RestartAllNews(me, Restart(me, v, id, names[0]), id, names[1..]);
      RestartKeepsHeirs(me, v, id, names[0], names[1..], {});
      AppendTwice(v.outbox, first, Heirs(me, v, id, names[1..], {} + {names[0]}));
    }
  }

  /** EXIT, and then our own leadership of each group of ours that is left without others. */
  function LossNews(me: Self, v: NodeView, id: Id): seq<Event> {
    [Exit(id)] + Heirs(me, v, id, v.own, {})
  }

  lemma LossTells(me: Self, v: NodeView, id: Id)
    ensures RemovePeer(me, v, id).outbox == v.outbox + LossNews(me, v, id)
  {
    RestartAllNews(me, Tell(v, Exit(id)), id, v.own);
    SameHeirs(me, v, Tell(v, Exit(id)), id, v.own, {});
    AppendTwice(v.outbox, [Exit(id)], Heirs(me, v, id, v.own, {}));
  }

  lemma {:induction false} SameHeirs(me: Self, v: NodeView, w: NodeView, id: Id, names: seq<Name>, done: set<Name>)
    requires w.groups == v.groups
    ensures Heirs(me, w, id, names, done) == Heirs(me, v, id, names, done)
    decreases |names|
  {
    if names != [] {
      SameHeirs(me, v, w, id, names[1..], done + {names[0]});
    }
  }

  // ---- messages of a peer ----

  /** JOIN for each of these groups in turn. */
  function JoinsOf(id: Id, names: seq<Name>): seq<Event> {
    seq(|names|, i requires 0 <= i < |names| => Joined(id, names[i]))
  }

  lemma {:induction false} JoinAllTells(me: Self, v: NodeView, id: Id, names: seq<Name>)
    requires id in v.peers
    ensures JoinAll(me, v, id, names).outbox == v.outbox + JoinsOf(id, names)
    decreases |names|
  {
    if names != [] {
      JoinAllTells(me, JoinAndStart(me, v, id, names[0]), id, names[1..]);
      assert JoinsOf(id, names) == [Joined(id, names[0])] + JoinsOf(id, names[1..]);
      AppendTwice(v.outbox, [Joined(id, names[0])], JoinsOf(id, names[1..]));
    }
  }

  /** The peer leaves as leader of a group of ours that we contest, and nobody else is in it. */
  predicate Succeeds(v: NodeView, id: Id, g: Name, status: byte)
    requires id in v.peers
  {
    && (v.peers[id].status + 1) % 0x100 == status && g in v.own && GroupOf(v, g).contest
    && GroupOf(v, g).leader == Some(id) && GroupOf(v, g).members <= {id}
  }

  /** This LEADER is the last one that the election still lacked. */
  predicate Closes(group: GroupView) {
    match group.election
    case Some(Record(Some(_), _, _, lrec, _)) => Rules.Increment(lrec) == |group.members|
    case _ => false
  }

  /**
   What a message of `id` that was accepted makes the node tell: ENTER and the
   groups for HELLO, one event for WHISPER, SHOUT, JOIN and LEAVE with what they
   carry, and LEADER when an election closes on ourselves or a peer that we know,
   or when we succeed a leader that leaves.
   */
  function ProcessNews(me: Self, v: NodeView, id: Id, body: Body): seq<Event>
    requires id in v.peers
  {
    match body
    case Hello(_, groups, _) => [Enter(id)] + JoinsOf(id, groups)
    case Whisper(content) => [Whispered(id, content)]
    case Shout(g, content) => [Shouted(id, g, content)]
    case Join(g, _) => [Joined(id, g)]
    case Leave(g, status) => [Left(id, g)] + if Succeeds(v, id, g, status) then [Elected(me.id, g)] else []
    case Leader(g, leader) =>
      if Closes(GroupOf(v, g)) && (leader == me.id || leader in v.peers) then [Elected(leader, g)] else []
    case Goodbye => if me.gossip then LossNews(me, v, id) else []
    case _ => []
  }

  lemma ProcessTells(me: Self, v: NodeView, id: Id, body: Body)
    requires id in v.peers
    ensures Process(me, v, id, body).outbox == v.outbox + ProcessNews(me, v, id, body)
  {
    match body
    case Hello(_, groups, status) => HelloTells(me, v, id, groups, status);
    case Whisper(_) =>
    case Shout(_, _) =>
    case Ping =>
    case PingOk =>
    case Join(g, status) =>
    case Leave(g, status) => LeaveTells(me, v, id, g, status);
    case Elect(g, challenger) => ElectTellsNothing(me, v, id, g, challenger);
    case Leader(g, leader) => LeaderTells(me, v, g, leader);
    case Goodbye => LossTells(me, v, id);
  }

  lemma HelloTells(me: Self, v: NodeView, id: Id, groups: seq<Name>, status: byte)
    requires id in v.peers
    ensures OnHello(me, v, id, groups, status).outbox == v.outbox + ([Enter(id)] + JoinsOf(id, groups))
  {
    JoinAllTells(me, Tell(v, Enter(id)), id, groups);
    JoinAllKeepsPeers(me, Tell(v, Enter(id)), id, groups);
    AppendTwice(v.outbox, [Enter(id)], JoinsOf(id, groups));
  }

  lemma LeaveTells(me: Self, v: NodeView, id: Id, g: Name, status: byte)
    requires id in v.peers
    ensures OnLeave(me, v, id, g, status).outbox
         == v.outbox + ([Left(id, g)] + if Succeeds(v, id, g, status) then [Elected(me.id, g)] else [])
  {
    var rest := GroupOf(v, g).members - {id};
    assert |rest| == 0 <==> GroupOf(v, g).members <= {id};
    AppendTwice(v.outbox, [Left(id, g)], if Succeeds(v, id, g, status) then [Elected(me.id, g)] else []);
  }

  lemma {:induction false} CastsTellNothing(v: NodeView, g: Name, casts: seq<Rules.Cast<Id>>)
    ensures SendCasts(v, g, casts).outbox == v.outbox
    decreases |casts|
  {
    if casts != [] {
      CastsTellNothing(SendAll(v, casts[0].to, TokenBody(g, casts[0].token)), g, casts[1..]);
    }
  }

  lemma ElectTellsNothing(me: Self, v: NodeView, id: Id, g: Name, challenger: Id)
    ensures OnElect(me, v, id, g, challenger).outbox == v.outbox
  {
    var group := GroupOf(v, g);
    var out := Rules.OnElect(StrLess, me.id, group.members, group.election, id, challenger);
    CastsTellNothing(v.(groups := v.groups[g := group.(election := Some(out.record))]), g, out.casts);
  }

  lemma LeaderTells(me: Self, v: NodeView, g: Name, leader: Id)
    ensures OnLeader(me, v, g, leader).outbox
         == v.outbox + if Closes(GroupOf(v, g)) && (leader == me.id || leader in v.peers) then [Elected(leader, g)] else []
  {
    var group := GroupOf(v, g);
    var out := Rules.OnLeader(me.id, group.members, group.election, leader);
    var follows := out.verdict.Some? && leader != me.id && leader in v.peers;
    CastsTellNothing(
      v.(groups := v.groups[g := group.(election := out.election, leader := if follows then Some(leader) else group.leader)]),
      g, out.casts);
    assert out.verdict.Some? <==> Closes(group);
  }

  // ---- anything that happens ----

  /** A HELLO from a ready peer first removes it. */
  function GreetNews(me: Self, v: NodeView, id: Id): seq<Event> {
    if id in v.peers && v.peers[id].ready then LossNews(me, v, id) else []
  }

  lemma GreetTells(me: Self, v: NodeView, id: Id, endpoint: Octets, connects: bool)
    ensures Greet(me, v, id, endpoint, connects).outbox == v.outbox + GreetNews(me, v, id)
  {
    if id in v.peers && v.peers[id].ready {
      LossTells(me, v, id);
      FindingTellsNothing(me, RemovePeer(me, v, id), id, endpoint, connects);
    } else {
      FindingTellsNothing(me, v, id, endpoint, connects);
    }
  }

  lemma FindingTellsNothing(me: Self, v: NodeView, id: Id, endpoint: Octets, connects: bool)
    ensures RequirePeer(me, v, id, endpoint, connects).outbox == v.outbox
  {
  }

  /** What a packet makes the node tell: for greeting its sender, and for its message or for the loss that it shows. */
  function ReceiveNews(me: Self, v: NodeView, id: Id, p: Packet, connects: bool): seq<Event> {
    var v1 := Greeted(me, v, id, p, connects);
    (if p.body.Hello? then GreetNews(me, v, id) else [])
    + if id !in v1.peers || !v1.peers[id].ready then []
      else if Accepts(me, v, id, p, connects) then ProcessNews(me, v1, id, p.body)
      else LossNews(me, v1, id)
  }

  lemma ReceiveTells(me: Self, v: NodeView, id: Id, p: Packet, connects: bool)
    ensures Receive(me, v, id, p, connects).outbox == v.outbox + ReceiveNews(me, v, id, p, connects)
  {
    var v1 := Greeted(me, v, id, p, connects);
    var greeting := if p.body.Hello? then GreetNews(me, v, id) else [];
    GreetedTells(me, v, id, p, connects);
    if id in v1.peers && v1.peers[id].ready {
      TakenTells(me, v1, id, p);
      AppendTwice(v.outbox, greeting,
                  if Wanted(v1.peers[id], p.body) == p.sequence then ProcessNews(me, v1, id, p.body) else LossNews(me, v1, id));
    }
  }

  lemma GreetedTells(me: Self, v: NodeView, id: Id, p: Packet, connects: bool)
    ensures Greeted(me, v, id, p, connects).outbox == v.outbox + if p.body.Hello? then GreetNews(me, v, id) else []
  {
    if p.body.Hello? {
      GreetTells(me, v, id, p.body.endpoint, connects);
    }
  }

  lemma TakenTells(me: Self, v: NodeView, id: Id, p: Packet)
    requires id in v.peers
    ensures var v2 := Checked(v, id, p.body);
            (if v2.peers[id].want != p.sequence then RemovePeer(me, v2, id) else Process(me, v2, id, p.body)).outbox
            == v.outbox + if Wanted(v.peers[id], p.body) == p.sequence then ProcessNews(me, v, id, p.body)
                          else LossNews(me, v, id)
  {
    var v2 := Checked(v, id, p.body);
    LossTells(me, v2, id);
    ProcessTells(me, v2, id, p.body);
    CheckedNews(me, v, id, p.body);
  }

  lemma CheckedNews(me: Self, v: NodeView, id: Id, body: Body)
    requires id in v.peers
    ensures ProcessNews(me, Checked(v, id, body), id, body) == ProcessNews(me, v, id, body)
    ensures LossNews(me, Checked(v, id, body), id) == LossNews(me, v, id)
  {
    SameHeirs(me, v, Checked(v, id, body), id, v.own, {});
  }

  /** What anything that happens to a node makes it tell. */
  function ActNews(me: Self, v: NodeView, a: Action): seq<Event> {
    match a
    case Receives(id, p, connects) => ReceiveNews(me, v, id, p, connects)
    case Expires(id) => if id in v.peers then LossNews(me, v, id) else []
    case _ => []
  }

  /** Whatever happens to a node, its events grow by exactly that, and by nothing once the node has aborted. */
  lemma ActTells(me: Self, v: NodeView, a: Action)
    ensures Act(me, v, a).outbox == v.outbox + if v.failed then [] else ActNews(me, v, a)
  {
    if !v.failed {
      match a
      case Receives(id, p, connects) => ReceiveTells(me, v, id, p, connects);
      case Discovers(id, endpoint, connects) => FindingTellsNothing(me, v, id, endpoint, connects);
      case Expires(id) => LossTells(me, v, id);
      case _ =>
    }
  }
}
