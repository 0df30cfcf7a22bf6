/** What losing a peer does to the elections of a node's groups. */
module NodeRestarts {
  import opened Basics
  import opened NodeRules
  import opened NodeStreams
  import opened NodeElections
  import Rules = ElectionRules

  /** We contest the group, and the peer led it or an election in it is unfinished. */
  predicate Calls(group: GroupView, id: Id) {
    && group.contest
    && (group.leader == Some(id) || (group.election.Some? && group.election.value.lrec != |group.members|))
  }

  /** Such a group forgets its leader and starts over, unless only that peer was left in it. */
  function AfterLoss(me: Self, group: GroupView, id: Id): GroupView {
    if !Calls(group, id) then group
    else group.(election := if |group.members| == 1 then None else Some(Rules.Started(me.id)), leader := None)
  }

  lemma AfterLossTwice(me: Self, group: GroupView, id: Id)
    ensures AfterLoss(me, AfterLoss(me, group, id), id) == AfterLoss(me, group, id)
  {
  }

  lemma RestartsOne(me: Self, v: NodeView, id: Id, h: Name, g: Name)
    ensures GroupOf(Restart(me, v, id, h), g) == if g == h then AfterLoss(me, GroupOf(v, g), id) else GroupOf(v, g)
  {
  }

  lemma {:induction false} RestartsListed(me: Self, v: NodeView, id: Id, names: seq<Name>, g: Name)
    ensures GroupOf(RestartAll(me, v, id, names), g) == if g in names then AfterLoss(me, GroupOf(v, g), id) else GroupOf(v, g)
    decreases |names|
  {
    if names != [] {
      RestartsOne(me, v, id, names[0], g);
      RestartsListed(me, Restart(me, v, id, names[0]), id, names[1..], g);
      AfterLossTwice(me, GroupOf(v, g), id);
      assert g in names <==> g == names[0] || g in names[1..];
    }
  }

  /** The group as the node leaves it when it has removed the peer. */
  lemma LossRestarts(me: Self, v: NodeView, id: Id, g: Name)
    ensures var group := if g in v.own then AfterLoss(me, GroupOf(v, g), id) else GroupOf(v, g);
            GroupOf(RemovePeer(me, v, id), g) == group.(members := group.members - {id})
  {
    RestartsListed(me, Tell(v, Exit(id)), id, v.own, g);
  }

  /**
   A group keeps naming a removed peer as its leader if and only if it did
   before, and is not one of our groups or one that we do not contest.
   */
  lemma LeaderForgottenIff(me: Self, v: NodeView, id: Id, g: Name)
    requires GroupOf(v, g).leader == Some(id)
    ensures GroupOf(RemovePeer(me, v, id), g).leader != Some(id) <==> g in v.own && GroupOf(v, g).contest
  {
    LossRestarts(me, v, id, g);
  }

  // ---- what the application and the other members hear ----

  lemma RestartTells(me: Self, v: NodeView, id: Id, h: Name, g: Name)
    ensures VerdictsIn(Restart(me, v, id, h).outbox, g)
            == VerdictsIn(v.outbox, g)
               + if g == h && Calls(GroupOf(v, g), id) && |GroupOf(v, g).members| == 1 then [me.id] else []
  {
    var v1 := RequireGroup(v, h);
    if Calls(GroupOf(v, h), id) {
      if |GroupOf(v, h).members| == 1 {
        AloneTells(me, v1, h, g);
      } else {
        assert StartElection(me, v1, h).outbox == v.outbox;
      }
    }
  }

  lemma AloneTells(me: Self, v: NodeView, h: Name, g: Name)
    ensures VerdictsIn(LeadAlone(me, v, h).outbox, g) == VerdictsIn(v.outbox, g) + if g == h then [me.id] else []
  {
    var told := v.outbox + [Elected(me.id, h)];
    assert told[..|v.outbox|] == v.outbox;
  }

  lemma {:induction false} RestartsTell(me: Self, v: NodeView, id: Id, names: seq<Name>, g: Name)
    ensures VerdictsIn(RestartAll(me, v, id, names).outbox, g)
            == VerdictsIn(v.outbox, g)
               + if g in names && Calls(GroupOf(v, g), id) && |GroupOf(v, g).members| == 1 then [me.id] else []
    decreases |names|
  {
    if names != [] {
      RestartTells(me, v, id, names[0], g);
      RestartsOne(me, v, id, names[0], g);
      RestartsTell(me, Restart(me, v, id, names[0]), id, names[1..], g);
      assert g in names <==> g == names[0] || g in names[1..];
    }
  }

  /** The node announces itself exactly in those of its groups that call for an election and had no other peer. */
  lemma LossAnnounces(me: Self, v: NodeView, id: Id, g: Name)
    ensures VerdictsIn(RemovePeer(me, v, id).outbox, g)
            == VerdictsIn(v.outbox, g)
               + if g in v.own && Calls(GroupOf(v, g), id) && |GroupOf(v, g).members| == 1 then [me.id] else []
  {
    var v1 := Tell(v, Exit(id));
    assert v1.outbox[..|v.outbox|] == v.outbox;
    RestartsTell(me, v1, id, v.own, g);
  }

  predicate Open(v: NodeView, x: Id) {
    x in v.peers && v.peers[x].connected
  }

  function BodiesOf(s: Stream): seq<Body> {
    seq(|s|, i requires 0 <= i < |s| => s[i].body)
  }

  /** Losing `id` makes the node challenge `x` in this group. */
  predicate Challenged(group: GroupView, id: Id, x: Id) {
    Calls(group, id) && |group.members| != 1 && x in group.members
  }

  /** One ELECT with our identity for each of these groups that is challenged. */
  function Challenges(me: Self, v: NodeView, id: Id, x: Id, names: seq<Name>): seq<Body> {
    if names == [] || !Open(v, x) then []
    else
      (if Challenged(GroupOf(v, names[0]), id, x) then [Elect(Fixed(names[0]), me.id)] else [])
      + Challenges(me, v, id, x, names[1..])
  }

  lemma RestartSends(me: Self, v: NodeView, id: Id, h: Name, x: Id)
    ensures Open(Restart(me, v, id, h), x) == Open(v, x)
    ensures BodiesOf(Sent(Restart(me, v, id, h), x)) == BodiesOf(Sent(v, x)) + Challenges(me, v, id, x, [h])
  {
    var v1 := RequireGroup(v, h);
    assert Sent(v1, x) == Sent(v, x) && GroupOf(v1, h) == GroupOf(v, h);
    if Calls(GroupOf(v, h), id) && |GroupOf(v, h).members| != 1 {
      var group := GroupOf(v, h).(election := Some(Rules.Started(me.id)), leader := None);
      SendPosts(v1.(groups := v1.groups[h := group]), group.members, Elect(Fixed(h), me.id), x);
    } else {
      assert Sent(Restart(me, v, id, h), x) == Sent(v, x);
    }
  }

  /** A restart changes neither which groups are challenged nor who hears of them. */
  lemma {:induction false} RestartKeepsChallenges(me: Self, v: NodeView, id: Id, h: Name, x: Id, names: seq<Name>)
    ensures Challenges(me, Restart(me, v, id, h), id, x, names) == Challenges(me, v, id, x, names)
    decreases |names|
  {
    RestartSends(me, v, id, h, x);
    if names != [] {
      RestartsOne(me, v, id, h, names[0]);
      RestartKeepsChallenges(me, v, id, h, x, names[1..]);
    }
  }

  lemma FirstChallenge(me: Self, v: NodeView, id: Id, x: Id, names: seq<Name>)
    requires names != []
    ensures Challenges(me, v, id, x, names) == Challenges(me, v, id, x, [names[0]]) + Challenges(me, v, id, x, names[1..])
  {
    var rest: seq<Name> := [];
    assert [names[0]][1..] == rest;
  }

  lemma {:induction false} RestartsSend(me: Self, v: NodeView, id: Id, names: seq<Name>, x: Id)
    ensures BodiesOf(Sent(RestartAll(me, v, id, names), x)) == BodiesOf(Sent(v, x)) + Challenges(me, v, id, x, names)
    decreases |names|
  {
    if names != [] {
      RestartSends(me, v, id, names[0], x);
      RestartsSend(me, Restart(me, v, id, names[0]), id, names[1..], x);
      RestartKeepsChallenges(me, v, id, names[0], x, names[1..]);
      FirstChallenge(me, v, id, x, names);
      AppendTwice(BodiesOf(Sent(v, x)), Challenges(me, v, id, x, [names[0]]), Challenges(me, v, id, x, names[1..]));
    }
  }

  /**
   For each of our groups that calls for an election and had other peers left,
   in turn, each connected peer in it gets one ELECT with our identity, the
   removed peer included; and nobody gets anything else.
   */
  lemma LossChallenges(me: Self, v: NodeView, id: Id, x: Id)
    ensures BodiesOf(Sent(RemovePeer(me, v, id), x)) == BodiesOf(Sent(v, x)) + Challenges(me, v, id, x, v.own)
  {
    var v1 := Tell(v, Exit(id));
    assert Sent(v1, x) == Sent(v, x);
    SameChallenges(me, v, v1, id, x, v.own);
    RestartsSend(me, v1, id, v.own, x);
  }

  lemma {:induction false} SameChallenges(me: Self, v: NodeView, w: NodeView, id: Id, x: Id, names: seq<Name>)
    requires Open(w, x) == Open(v, x) && w.groups == v.groups
    ensures Challenges(me, w, id, x, names) == Challenges(me, v, id, x, names)
    decreases |names|
  {
    if names != [] {
      SameChallenges(me, v, w, id, x, names[1..]);
    }
  }

  // ---- gaining a peer, and a peer that leaves a group ----

  function WithPeer(me: Self, group: GroupView, id: Id, starts: bool): GroupView {
    var joined := group.(members := group.members + {id});
    if starts then joined.(election := Some(Rules.Started(me.id)), leader := None) else joined
  }

  lemma {:induction false} JoinsListed(me: Self, v: NodeView, id: Id, names: seq<Name>, g: Name)
    requires id in v.peers
    ensures GroupOf(JoinAll(me, v, id, names), g)
            == if g in names then WithPeer(me, GroupOf(v, g), id, GroupOf(v, g).contest) else GroupOf(v, g)
    decreases |names|
  {
    if names != [] {
      var v1 := JoinAndStart(me, v, id, names[0]);
      assert GroupOf(v1, g) == if g == names[0] then WithPeer(me, GroupOf(v, g), id, GroupOf(v, g).contest) else GroupOf(v, g);
      JoinsListed(me, v1, id, names[1..], g);
      assert g in names <==> g == names[0] || g in names[1..];
    }
  }

  /** A HELLO starts an election in every listed group that we contest, whether or not we are in it. */
  lemma HelloRestarts(me: Self, v: NodeView, id: Id, names: seq<Name>, status: byte, g: Name)
    requires id in v.peers
    ensures GroupOf(OnHello(me, v, id, names, status), g)
            == if g in names then WithPeer(me, GroupOf(v, g), id, GroupOf(v, g).contest) else GroupOf(v, g)
  {
    var v1 := Tell(v, Enter(id));
    JoinsListed(me, v1, id, names, g);
    JoinAllKeepsPeers(me, v1, id, names);
  }

  /**
   A helper: what the branches of `OnJoin` come to for one group.  A JOIN starts an
   election only if we contest the group and are in it, and only past the status
   assertion.
   */
  lemma JoinRestarts(me: Self, v: NodeView, id: Id, h: Name, status: byte, g: Name)
    requires id in v.peers
    ensures GroupOf(OnJoin(me, v, id, h, status), g)
            == if g != h then GroupOf(v, g)
               else WithPeer(me, GroupOf(v, g), id,
                             NextByte(v.peers[id].status) == status && g in v.own && GroupOf(v, g).contest)
  {
  }

  /**
   A helper: the same for `OnLeave`.  A LEAVE restarts only a group of ours that we
   contest and that the peer led.
   */
  lemma LeaveRestarts(me: Self, v: NodeView, id: Id, h: Name, status: byte, g: Name)
    requires id in v.peers
    ensures
      var group := GroupOf(v, g);
      var rest := group.(members := group.members - {id});
      var restarts := NextByte(v.peers[id].status) == status && g in v.own && group.contest && group.leader == Some(id);
      GroupOf(OnLeave(me, v, id, h, status), g)
      == if g != h then group
         else if !restarts then rest
         else rest.(election := if rest.members == {} then None else Some(Rules.Started(me.id)), leader := None)
  {
  }
}
