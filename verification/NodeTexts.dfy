/**
 A node that is given C strings by its application, and decoded messages by its
 peers, only ever sends messages that the codec can carry.
 */
module NodeTexts {
  import opened Basics
  import opened CStrings
  import opened Runs
  import opened NodeRules
  import opened NodeRuns
  import opened ZreRoundTrip
  import Rules = ElectionRules

  // ---- what a frame can carry ----

  predicate Spelt(body: Body) {
    match body
    case Hello(endpoint, groups, _) => Text(endpoint) && LongTexts(groups) && |groups| < 0x1_0000_0000
    case Shout(g, _) => Text(g)
    case Join(g, _) => Text(g)
    case Leave(g, _) => Text(g)
    case Elect(g, challenger) => Text(g) && Text(challenger)
    case Leader(g, leader) => Text(g) && Text(leader)
    case _ => true
  }

  /** Identity and endpoint fit the fields of the messages that carry them. */
  predicate SelfSpelt(me: Self) {
    Text(me.id) && Text(me.announced)
  }

  // ---- what a node holds ----

  predicate OwnSpelt(v: NodeView) {
    LongTexts(v.own) && |v.own| < 0x1_0000_0000
  }

  /** An election's wave is passed on in LEADER messages. */
  predicate GroupSpelt(group: GroupView) {
    group.election.Some? && group.election.value.caw.Some? ==> Text(group.election.value.caw.value)
  }

  ghost predicate GroupsSpelt(v: NodeView) {
    forall g :: g in v.groups ==> GroupSpelt(v.groups[g])
  }

  ghost predicate PacketSpelt(v: NodeView, id: Id, i: int) {
    0 <= i < |Sent(v, id)| ==> Spelt(Sent(v, id)[i].body)
  }

  ghost predicate WireSpelt(v: NodeView) {
    forall id, i :: PacketSpelt(v, id, i)
  }

  /** The nodes that hold, and have sent, only what a frame can carry. */
  ghost function CleanNodes(): iset<NodeView> {
    iset v: NodeView | OwnSpelt(v) && GroupsSpelt(v) && WireSpelt(v)
  }

  ghost predicate Clean(v: NodeView) {
    v in CleanNodes()
  }

  lemma SameWire(v: NodeView, w: NodeView)
    requires Clean(v) && w.wire == v.wire && OwnSpelt(w) && GroupsSpelt(w)
    ensures Clean(w)
  {
    forall id, i ensures PacketSpelt(w, id, i) {
      assert PacketSpelt(v, id, i);
    }
  }

  lemma RegroupClean(v: NodeView, g: Name, group: GroupView)
    requires Clean(v) && GroupSpelt(group)
    ensures Clean(v.(groups := v.groups[g := group]))
  {
    SameWire(v, v.(groups := v.groups[g := group]));
  }

  lemma OldGroupSpelt(v: NodeView, g: Name)
    requires Clean(v)
    ensures GroupSpelt(GroupOf(v, g))
  {
  }

  lemma FixedText(g: Name)
    requires LongText(g)
    ensures Text(Fixed(g)) && NoZero(Fixed(g))
  {
  }

  lemma TextIsLong(g: Name)
    requires Text(g)
    ensures LongText(g)
  {
  }

  // ---- what it does ----

  lemma SendClean(v: NodeView, to: set<Id>, body: Body)
    requires Clean(v) && Spelt(body)
    ensures Clean(SendAll(v, to, body))
  {
    var w := SendAll(v, to, body);
    forall id, i ensures PacketSpelt(w, id, i) {
      assert PacketSpelt(v, id, i);
    }
  }

  lemma StartClean(me: Self, v: NodeView, g: Name)
    requires SelfSpelt(me) && Clean(v) && LongText(g)
    ensures Clean(StartElection(me, v, g))
  {
    var group := GroupOf(v, g).(election := Some(Rules.Started(me.id)), leader := None);
    FixedText(g);
    RegroupClean(v, g, group);
    SendClean(v.(groups := v.groups[g := group]), group.members, Elect(Fixed(g), me.id));
  }

  lemma AloneClean(me: Self, v: NodeView, g: Name)
    requires Clean(v)
    ensures Clean(LeadAlone(me, v, g))
  {
    var v1 := v.(groups := v.groups[g := GroupOf(v, g).(election := None, leader := None)]);
    RegroupClean(v, g, GroupOf(v, g).(election := None, leader := None));
    SameWire(v1, LeadAlone(me, v, g));
  }

  lemma RestartClean(me: Self, v: NodeView, id: Id, g: Name)
    requires SelfSpelt(me) && Clean(v) && LongText(g)
    ensures Clean(Restart(me, v, id, g)) && Restart(me, v, id, g).own == v.own
  {
    var v1 := RequireGroup(v, g);
    SameWire(v, v1);
    StartClean(me, v1, g);
    AloneClean(me, v1, g);
  }

  lemma {:induction false} RestartAllClean(me: Self, v: NodeView, id: Id, names: seq<Name>)
    requires SelfSpelt(me) && Clean(v) && LongTexts(names)
    ensures Clean(RestartAll(me, v, id, names))
    decreases |names|
  {
    if names != [] {
      RestartClean(me, v, id, names[0]);
      RestartAllClean(me, Restart(me, v, id, names[0]), id, names[1..]);
    }
  }

  lemma RemoveClean(me: Self, v: NodeView, id: Id)
    requires SelfSpelt(me) && Clean(v)
    ensures Clean(RemovePeer(me, v, id))
  {
    var v1 := Tell(v, Exit(id));
    SameWire(v, v1);
    RestartAllClean(me, v1, id, v.own);
    var v2 := RestartAll(me, v1, id, v.own);
    assert forall g :: g in v2.groups ==> GroupSpelt(v2.groups[g]);
    SameWire(v2, RemovePeer(me, v, id));
  }

  lemma RequireClean(me: Self, v: NodeView, id: Id, endpoint: Octets, connects: bool)
    requires SelfSpelt(me) && Clean(v)
    ensures Clean(RequirePeer(me, v, id, endpoint, connects))
  {
    if id !in v.peers {
      var v1 := Purge(v, endpoint);
      SameWire(v, v1);
      if connects {
        var v2 := v1.(peers := v1.peers[id := Connected(NEW_PEER, endpoint)]);
        SameWire(v1, v2);
        SendClean(v2, {id}, Hello(me.announced, v.own, v.status));
      }
    }
  }

  /** Recording a peer's membership changes no election. */
  lemma MembershipClean(v: NodeView, id: Id, g: Name)
    requires Clean(v) && id in v.peers
    ensures Clean(JoinPeerGroup(v, id, g)) && Clean(LeavePeerGroup(v, id, g))
  {
    OldGroupSpelt(v, g);
    SameWire(v, JoinPeerGroup(v, id, g));
    SameWire(v, LeavePeerGroup(v, id, g));
  }

  lemma {:induction false} JoinAllClean(me: Self, v: NodeView, id: Id, names: seq<Name>)
    requires SelfSpelt(me) && Clean(v) && id in v.peers && LongTexts(names)
    ensures Clean(JoinAll(me, v, id, names))
    decreases |names|
  {
    if names != [] {
      MembershipClean(v, id, names[0]);
      StartClean(me, JoinPeerGroup(v, id, names[0]), names[0]);
      JoinAllClean(me, JoinAndStart(me, v, id, names[0]), id, names[1..]);
    }
  }

  lemma HelloClean(me: Self, v: NodeView, id: Id, groups: seq<Name>, status: byte)
    requires SelfSpelt(me) && Clean(v) && id in v.peers && LongTexts(groups)
    ensures Clean(OnHello(me, v, id, groups, status))
  {
    var v1 := Tell(v, Enter(id));
    SameWire(v, v1);
    JoinAllClean(me, v1, id, groups);
    JoinAllKeepsPeers(me, v1, id, groups);
    SameWire(JoinAll(me, v1, id, groups), OnHello(me, v, id, groups, status));
  }

  lemma OnJoinClean(me: Self, v: NodeView, id: Id, g: Name, status: byte)
    requires SelfSpelt(me) && Clean(v) && id in v.peers && LongText(g)
    ensures Clean(OnJoin(me, v, id, g, status))
  {
    var v1 := JoinPeerGroup(v, id, g);
    MembershipClean(v, id, g);
    StartClean(me, v1, g);
    SameWire(v1, v1.(failed := true));
  }

  lemma OnLeaveClean(me: Self, v: NodeView, id: Id, g: Name, status: byte)
    requires SelfSpelt(me) && Clean(v) && id in v.peers && LongText(g)
    ensures Clean(OnLeave(me, v, id, g, status))
  {
    var v1 := LeavePeerGroup(v, id, g);
    MembershipClean(v, id, g);
    StartClean(me, v1, g);
    AloneClean(me, v1, g);
    SameWire(v1, v1.(failed := true));
  }

  predicate CastSpelt(cast: Rules.Cast<Id>) {
    Text(match cast.token case Elect(c) => c case Leader(l) => l)
  }

  lemma {:induction false} CastsClean(v: NodeView, g: Name, casts: seq<Rules.Cast<Id>>)
    requires Clean(v) && LongText(g) && forall i :: 0 <= i < |casts| ==> CastSpelt(casts[i])
    ensures Clean(SendCasts(v, g, casts))
    decreases |casts|
  {
    if casts != [] {
      FixedText(g);
      assert CastSpelt(casts[0]);
      SendClean(v, casts[0].to, TokenBody(g, casts[0].token));
      CastsClean(SendAll(v, casts[0].to, TokenBody(g, casts[0].token)), g, casts[1..]);
    }
  }

  lemma ElectClean(me: Self, v: NodeView, id: Id, g: Name, challenger: Id)
    requires Clean(v) && LongText(g) && Text(challenger)
    ensures Clean(OnElect(me, v, id, g, challenger))
  {
    var out := Rules.OnElect(StrLess, me.id, GroupOf(v, g).members, GroupOf(v, g).election, id, challenger);
    var group := GroupOf(v, g).(election := Some(out.record));
    OldGroupSpelt(v, g);
    RegroupClean(v, g, group);
    CastsClean(v.(groups := v.groups[g := group]), g, out.casts);
  }

  lemma LeaderClean(me: Self, v: NodeView, g: Name, leader: Id)
    requires Clean(v) && LongText(g) && Text(leader)
    ensures Clean(OnLeader(me, v, g, leader))
  {
    var out := Rules.OnLeader(me.id, GroupOf(v, g).members, GroupOf(v, g).election, leader);
    var follows := out.verdict.Some? && leader != me.id && leader in v.peers;
    var group := GroupOf(v, g).(election := out.election, leader := if follows then Some(leader) else GroupOf(v, g).leader);
    OldGroupSpelt(v, g);
    RegroupClean(v, g, group);
    var v1 := v.(groups := v.groups[g := group]);
    CastsClean(v1, g, out.casts);
    var v2 := SendCasts(v1, g, out.casts);
    SameWire(v2, Tell(v2, Elected(leader, g)));
  }

  lemma ProcessClean(me: Self, v: NodeView, id: Id, body: Body)
    requires SelfSpelt(me) && Clean(v) && id in v.peers && Spelt(body)
    ensures Clean(Process(me, v, id, body))
  {
    match body
    case Hello(_, groups, status) => HelloClean(me, v, id, groups, status);
    case Ping => SendClean(v, {id}, PingOk);
    case Join(g, status) => TextIsLong(g); OnJoinClean(me, v, id, g, status);
    case Leave(g, status) => TextIsLong(g); OnLeaveClean(me, v, id, g, status);
    case Elect(g, challenger) => TextIsLong(g); ElectClean(me, v, id, g, challenger);
    case Leader(g, leader) => TextIsLong(g); LeaderClean(me, v, g, leader);
    case Goodbye => RemoveClean(me, v, id);
    case _ => SameWire(v, Process(me, v, id, body));
  }

  lemma GreetClean(me: Self, v: NodeView, id: Id, endpoint: Octets, connects: bool)
    requires SelfSpelt(me) && Clean(v)
    ensures Clean(Greet(me, v, id, endpoint, connects))
  {
    var v1 := if id in v.peers && v.peers[id].ready then RemovePeer(me, v, id) else v;
    RemoveClean(me, v, id);
    RequireClean(me, v1, id, endpoint, connects);
    var v2 := RequirePeer(me, v1, id, endpoint, connects);
    if id in v2.peers {
      SameWire(v2, v2.(peers := v2.peers[id := v2.peers[id].(ready := true)]));
    }
  }

  lemma ReceiveClean(me: Self, v: NodeView, id: Id, p: Packet, connects: bool)
    requires SelfSpelt(me) && Clean(v) && Spelt(p.body)
    ensures Clean(Receive(me, v, id, p, connects))
  {
    var v1 := Greeted(me, v, id, p, connects);
    if p.body.Hello? {
      GreetClean(me, v, id, p.body.endpoint, connects);
    }
    if id in v1.peers && v1.peers[id].ready {
      var checked := Checked(v1, id, p.body);
      SameWire(v1, checked);
      RemoveClean(me, checked, id);
      ProcessClean(me, checked, id, p.body);
    }
  }

  /** The application gives C strings, and joins fewer groups than a HELLO can count; peers' messages have been decoded. */
  predicate Fed(v: NodeView, a: Action) {
    match a
    case Receives(_, p, _) => Spelt(p.body)
    case Shouts(g, _) => LongText(g)
    case Joins(g) => LongText(g) && |v.own| < 0xffff_ffff
    case Leaves(g) => LongText(g)
    case _ => true
  }

  lemma {:induction false} WithoutSpelt(names: seq<Name>, g: Name)
    requires LongTexts(names)
    ensures LongTexts(Without(names, g)) && |Without(names, g)| <= |names|
    decreases |names|
  {
    if names != [] {
      WithoutSpelt(names[1..], g);
    }
  }

  lemma ActClean(me: Self, v: NodeView, a: Action)
    requires SelfSpelt(me) && Clean(v) && Fed(v, a)
    ensures Clean(Act(me, v, a))
  {
    if !v.failed {
      match a
      case Receives(id, p, connects) => ReceiveClean(me, v, id, p, connects);
      case Discovers(id, endpoint, connects) => RequireClean(me, v, id, endpoint, connects);
      case Expires(id) => RemoveClean(me, v, id);
      case Pokes(id) => SendClean(v, {id}, Ping);
      case Whispers(id, content) => SendClean(v, {id}, Whisper(content));
      case Shouts(g, content) => FixedText(g); SendClean(v, GroupOf(v, g).members, Shout(Fixed(g), content));
      case Joins(g) => ApiJoinClean(v, g);
      case Leaves(g) => ApiLeaveClean(v, g);
      case Contests(g) => SameWire(v, ApiContest(v, g));
      case Stops => SendClean(v, v.peers.Keys, Goodbye);
    }
  }

  lemma ApiJoinClean(v: NodeView, g: Name)
    requires Clean(v) && LongText(g) && |v.own| < 0xffff_ffff
    ensures Clean(ApiJoin(v, g))
  {
    var v1 := v.(own := v.own + [g], status := NextByte(v.status));
    FixedText(g);
    SameWire(v, v1);
    SendClean(v1, v1.peers.Keys, Join(Fixed(g), v1.status));
  }

  lemma ApiLeaveClean(v: NodeView, g: Name)
    requires Clean(v) && LongText(g)
    ensures Clean(ApiLeave(v, g))
  {
    var v1 := v.(status := NextByte(v.status));
    FixedText(g);
    SameWire(v, v1);
    SendClean(v1, v1.peers.Keys, Leave(Fixed(g), v1.status));
    WithoutSpelt(v.own, g);
    if g in v.own {
      SameWire(SendAll(v1, v1.peers.Keys, Leave(Fixed(g), v1.status)), ApiLeave(v, g));
    }
  }

  ghost predicate AlwaysFed(states: seq<NodeView>, actions: seq<Action>) {
    forall i :: 0 <= i < |actions| && i < |states| ==> Fed(states[i], actions[i])
  }

  /** In every run that is fed with C strings and decoded messages, each packet sent is one that a frame can carry. */
  lemma {:induction false} EverythingSentIsSpelt(me: Self, states: seq<NodeView>, actions: seq<Action>, n: nat)
    requires SelfSpelt(me) && IsNodeRun(me, states, actions) && AlwaysFed(states, actions) && n < |states|
    ensures Clean(states[n])
  {
    if n > 0 {
      EverythingSentIsSpelt(me, states, actions, n - 1);
      assert StepAt((v, a, w) => Acts(me, v, a, w), states, actions, n - 1);
      ActClean(me, states[n - 1], actions[n - 1]);
    }
  }
}
