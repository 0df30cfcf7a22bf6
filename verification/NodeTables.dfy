/**
 What a node keeps: for everything that can happen to it, exactly what becomes
 of each group, of the peers that it knows, of its own groups and of its status.
 */
module NodeTables {
  import opened Basics
  import opened CStrings
  import opened Runs
  import opened NodeRules
  import opened NodeRestarts
  import opened NodeMail
  import opened NodeRuns
  import Rules = ElectionRules

  // ---- one group ----

  /** What the group is once the peer has been removed. */
  function AfterRemoval(me: Self, v: NodeView, id: Id, g: Name): GroupView {
    var group := if g in v.own then AfterLoss(me, GroupOf(v, g), id) else GroupOf(v, g);
    group.(members := group.members - {id})
  }

  /** The peer has left, and if it led a group of ours that we contest, there is an election among the rest. */
  function WithoutPeer(me: Self, group: GroupView, id: Id, counts: bool): GroupView {
    var rest := group.(members := group.members - {id});
    if !counts || group.leader != Some(id) then rest
    else rest.(election := if rest.members == {} then None else Some(Rules.Started(me.id)), leader := None)
  }

  /** A superior challenger takes over with its first ELECT, one for our wave is counted, any other changes nothing. */
  ghost function AfterElect(group: GroupView, id: Id, challenger: Id): GroupView {
    var r := Rules.RequireRecord(group.election);
    group.(election := Some(
      if Superior(r, challenger) then Rules.Record(Some(challenger), Some(id), 1, 0, None)
      else if r.caw == Some(challenger) then r.(erec := Rules.Increment(r.erec))
      else r))
  }

  /** LEADER is counted while we are in a wave; the last one closes the election, and another node that we know is noted. */
  function AfterLeader(me: Self, v: NodeView, g: Name, leader: Id): GroupView {
    var group := GroupOf(v, g);
    var r := Rules.RequireRecord(group.election);
    if r.caw.None? then group.(election := Some(r))
    else if Rules.Increment(r.lrec) != |group.members| then
      group.(election := Some(r.(lrec := Rules.Increment(r.lrec), leader := Some(leader))))
    else
      group.(election := None, leader := if leader != me.id && leader in v.peers then Some(leader) else group.leader)
  }

  lemma {:induction false} CastsKeepGroups(v: NodeView, g: Name, casts: seq<Rules.Cast<Id>>)
    ensures SendCasts(v, g, casts).groups == v.groups
    decreases |casts|
  {
    if casts != [] {
      CastsKeepGroups(SendAll(v, casts[0].to, TokenBody(g, casts[0].token)), g, casts[1..]);
    }
  }

  lemma ElectMovesGroup(me: Self, v: NodeView, id: Id, h: Name, challenger: Id, g: Name)
    ensures GroupOf(OnElect(me, v, id, h, challenger), g)
         == if g == h then AfterElect(GroupOf(v, h), id, challenger) else GroupOf(v, g)
  {
    var group := GroupOf(v, h);
    var out := Rules.OnElect(StrLess, me.id, group.members, group.election, id, challenger);
    CastsKeepGroups(v.(groups := v.groups[h := group.(election := Some(out.record))]), h, out.casts);
    if group.election.Some? && group.election.value.caw.Some? {
      StrLessIff(challenger, group.election.value.caw.value);
    }
  }

  lemma LeaderMovesGroup(me: Self, v: NodeView, h: Name, leader: Id, g: Name)
    ensures GroupOf(OnLeader(me, v, h, leader), g) == if g == h then AfterLeader(me, v, h, leader) else GroupOf(v, g)
  {
    var group := GroupOf(v, h);
    var out := Rules.OnLeader(me.id, group.members, group.election, leader);
    var follows := out.verdict.Some? && leader != me.id && leader in v.peers;
    CastsKeepGroups(
      v.(groups := v.groups[h := group.(election := out.election, leader := if follows then Some(leader) else group.leader)]),
      h, out.casts);
  }

  /** What a message of `id` that was accepted makes of group `g`. */
  ghost function ProcessGroup(me: Self, v: NodeView, id: Id, body: Body, g: Name): GroupView
    requires id in v.peers
  {
    var group := GroupOf(v, g);
    match body
    case Hello(_, groups, _) => if g in groups then WithPeer(me, group, id, group.contest) else group
    case Join(h, status) => if g == h then WithPeer(me, group, id, Counts(v, id, g, status)) else group
    case Leave(h, status) => if g == h then WithoutPeer(me, group, id, Counts(v, id, g, status)) else group
    case Elect(h, challenger) => if g == h then AfterElect(group, id, challenger) else group
    case Leader(h, leader) => if g == h then AfterLeader(me, v, g, leader) else group
    case Goodbye => if me.gossip then AfterRemoval(me, v, id, g) else group
    case _ => group
  }

  lemma JoinMovesGroup(me: Self, v: NodeView, id: Id, h: Name, status: byte, g: Name)
    requires id in v.peers
    ensures GroupOf(OnJoin(me, v, id, h, status), g)
         == if g == h then WithPeer(me, GroupOf(v, g), id, Counts(v, id, g, status)) else GroupOf(v, g)
  {
    JoinRestarts(me, v, id, h, status, g);
  }

  lemma LeaveMovesGroup(me: Self, v: NodeView, id: Id, h: Name, status: byte, g: Name)
    requires id in v.peers
    ensures GroupOf(OnLeave(me, v, id, h, status), g)
         == if g == h then WithoutPeer(me, GroupOf(v, g), id, Counts(v, id, g, status)) else GroupOf(v, g)
  {
    LeaveRestarts(me, v, id, h, status, g);
  }

  lemma ProcessMovesGroup(me: Self, v: NodeView, id: Id, body: Body, g: Name)
    requires id in v.peers
    ensures GroupOf(Process(me, v, id, body), g) == ProcessGroup(me, v, id, body, g)
  {
    match body
    case Hello(_, groups, status) => HelloRestarts(me, v, id, groups, status, g);
    case Whisper(_) =>
    case Shout(_, _) =>
    case Ping =>
    case PingOk =>
    case Join(h, status) => JoinMovesGroup(me, v, id, h, status, g);
    case Leave(h, status) => LeaveMovesGroup(me, v, id, h, status, g);
    case Elect(h, challenger) => ElectMovesGroup(me, v, id, h, challenger, g);
    case Leader(h, leader) => LeaderMovesGroup(me, v, h, leader, g);
    case Goodbye => LossRestarts(me, v, id, g);
  }

  lemma FindingKeepsGroups(me: Self, v: NodeView, id: Id, endpoint: Octets, connects: bool)
    ensures RequirePeer(me, v, id, endpoint, connects).groups == v.groups
  {
  }

  /** What greeting the sender of a packet makes of group `g`. */
  function GreetGroup(me: Self, v: NodeView, id: Id, p: Packet, g: Name): GroupView {
    if p.body.Hello? && id in v.peers && v.peers[id].ready then AfterRemoval(me, v, id, g) else GroupOf(v, g)
  }

  lemma GreetedMovesGroup(me: Self, v: NodeView, id: Id, p: Packet, connects: bool, g: Name)
    ensures GroupOf(Greeted(me, v, id, p, connects), g) == GreetGroup(me, v, id, p, g)
  {
    if p.body.Hello? {
      LossRestarts(me, v, id, g);
      var v1 := if id in v.peers && v.peers[id].ready then RemovePeer(me, v, id) else v;
      FindingKeepsGroups(me, v1, id, p.body.endpoint, connects);
    }
  }

  ghost function ReceiveGroup(me: Self, v: NodeView, id: Id, p: Packet, connects: bool, g: Name): GroupView {
    var v1 := Greeted(me, v, id, p, connects);
    if id !in v1.peers || !v1.peers[id].ready then GreetGroup(me, v, id, p, g)
    else if Accepts(me, v, id, p, connects) then ProcessGroup(me, v1, id, p.body, g)
    else AfterRemoval(me, v1, id, g)
  }

  lemma ReceiveMovesGroup(me: Self, v: NodeView, id: Id, p: Packet, connects: bool, g: Name)
    ensures GroupOf(Receive(me, v, id, p, connects), g) == ReceiveGroup(me, v, id, p, connects, g)
  {
    var v1 := Greeted(me, v, id, p, connects);
    GreetedMovesGroup(me, v, id, p, connects, g);
    if id in v1.peers && v1.peers[id].ready {
      TakenMovesGroup(me, v1, id, p, g);
    }
  }

  lemma TakenMovesGroup(me: Self, v: NodeView, id: Id, p: Packet, g: Name)
    requires id in v.peers
    ensures var v2 := Checked(v, id, p.body);
            GroupOf(if v2.peers[id].want != p.sequence then RemovePeer(me, v2, id) else Process(me, v2, id, p.body), g)
            == if Wanted(v.peers[id], p.body) == p.sequence then ProcessGroup(me, v, id, p.body, g)
               else AfterRemoval(me, v, id, g)
  {
    var v2 := Checked(v, id, p.body);
    LossRestarts(me, v2, id, g);
    ProcessMovesGroup(me, v2, id, p.body, g);
    CheckedGroup(me, v, id, p.body, g);
  }

  lemma CheckedGroup(me: Self, v: NodeView, id: Id, body: Body, g: Name)
    requires id in v.peers
    ensures ProcessGroup(me, Checked(v, id, body), id, body, g) == ProcessGroup(me, v, id, body, g)
    ensures AfterRemoval(me, Checked(v, id, body), id, g) == AfterRemoval(me, v, id, g)
  {
    match body
    case Join(_, status) => CheckedCounts(v, id, body, g, status);
    case Leave(_, status) => CheckedCounts(v, id, body, g, status);
    case _ =>
  }

  lemma CheckedCounts(v: NodeView, id: Id, body: Body, g: Name, status: byte)
    requires id in v.peers
    ensures Counts(Checked(v, id, body), id, g, status) == Counts(v, id, g, status)
  {
  }

  /** What anything that happens to a node makes of group `g`. */
  ghost function ActGroup(me: Self, v: NodeView, a: Action, g: Name): GroupView {
    match a
    case Receives(id, p, connects) => ReceiveGroup(me, v, id, p, connects, g)
    case Expires(id) => if id in v.peers then AfterRemoval(me, v, id, g) else GroupOf(v, g)
    case Contests(h) => if g == h then GroupOf(v, g).(contest := true) else GroupOf(v, g)
    case _ => GroupOf(v, g)
  }

  /** Whatever happens to a node, each group becomes exactly that. */
  lemma ActMovesGroup(me: Self, v: NodeView, a: Action, g: Name)
    ensures GroupOf(Act(me, v, a), g) == if v.failed then GroupOf(v, g) else ActGroup(me, v, a, g)
  {
    if !v.failed {
      match a
      case Receives(id, p, connects) => ReceiveMovesGroup(me, v, id, p, connects, g);
      case Discovers(id, endpoint, connects) => FindingKeepsGroups(me, v, id, endpoint, connects);
      case Expires(id) => LossRestarts(me, v, id, g);
      case _ =>
    }
  }

  // ---- the peers that are known ----

  /** Removing the peer, and nothing else that a message does, takes one out of the table. */
  function ProcessKeys(me: Self, known: set<Id>, id: Id, body: Body): set<Id> {
    if body.Goodbye? && me.gossip then known - {id} else known
  }

  lemma {:induction false} RestartKeepsKeys(me: Self, v: NodeView, id: Id, names: seq<Name>)
    ensures RestartAll(me, v, id, names).peers.Keys == v.peers.Keys
    decreases |names|
  {
    if names != [] {
      RestartKeepsKeys(me, Restart(me, v, id, names[0]), id, names[1..]);
    }
  }

  lemma RemovalTakesOut(me: Self, v: NodeView, id: Id)
    ensures RemovePeer(me, v, id).peers.Keys == v.peers.Keys - {id}
  {
    RestartKeepsKeys(me, Tell(v, Exit(id)), id, v.own);
  }

  lemma {:induction false} CastsKeepKeys(v: NodeView, g: Name, casts: seq<Rules.Cast<Id>>)
    ensures SendCasts(v, g, casts).peers.Keys == v.peers.Keys
    decreases |casts|
  {
    if casts != [] {
      CastsKeepKeys(SendAll(v, casts[0].to, TokenBody(g, casts[0].token)), g, casts[1..]);
    }
  }

  lemma ElectKeepsKeys(me: Self, v: NodeView, id: Id, g: Name, challenger: Id)
    ensures OnElect(me, v, id, g, challenger).peers.Keys == v.peers.Keys
  {
    var group := GroupOf(v, g);
    var out := Rules.OnElect(StrLess, me.id, group.members, group.election, id, challenger);
    CastsKeepKeys(v.(groups := v.groups[g := group.(election := Some(out.record))]), g, out.casts);
  }

  lemma LeaderKeepsKeys(me: Self, v: NodeView, g: Name, leader: Id)
    ensures OnLeader(me, v, g, leader).peers.Keys == v.peers.Keys
  {
    var group := GroupOf(v, g);
    var out := Rules.OnLeader(me.id, group.members, group.election, leader);
    var follows := out.verdict.Some? && leader != me.id && leader in v.peers;
    CastsKeepKeys(
      v.(groups := v.groups[g := group.(election := out.election, leader := if follows then Some(leader) else group.leader)]),
      g, out.casts);
  }

  lemma HelloKeepsKeys(me: Self, v: NodeView, id: Id, groups: seq<Name>, status: byte)
    requires id in v.peers
    ensures OnHello(me, v, id, groups, status).peers.Keys == v.peers.Keys
  {
    JoinAllKeepsPeers(me, Tell(v, Enter(id)), id, groups);
  }

  lemma MembershipKeepsKeys(me: Self, v: NodeView, id: Id, g: Name, status: byte)
    requires id in v.peers
    ensures OnJoin(me, v, id, g, status).peers.Keys == v.peers.Keys
    ensures OnLeave(me, v, id, g, status).peers.Keys == v.peers.Keys
  {
  }

  lemma ProcessMovesKeys(me: Self, v: NodeView, id: Id, body: Body)
    requires id in v.peers
    ensures Process(me, v, id, body).peers.Keys == ProcessKeys(me, v.peers.Keys, id, body)
  {
    match body
    case Hello(_, groups, status) => HelloKeepsKeys(me, v, id, groups, status);
    case Join(g, status) => MembershipKeepsKeys(me, v, id, g, status);
    case Leave(g, status) => MembershipKeepsKeys(me, v, id, g, status);
    case Elect(g, challenger) => ElectKeepsKeys(me, v, id, g, challenger);
    case Leader(g, leader) => LeaderKeepsKeys(me, v, g, leader);
    case Goodbye => RemovalTakesOut(me, v, id);
    case _ =>
  }

  /** Greeting takes out a ready sender of a HELLO, and adds one that is then unknown if it can be connected to. */
  function GreetKeys(v: NodeView, id: Id, p: Packet, connects: bool): set<Id> {
    if !p.body.Hello? || (id in v.peers && !v.peers[id].ready) then v.peers.Keys
    else if connects then v.peers.Keys + {id} else v.peers.Keys - {id}
  }

  lemma FindingAdds(me: Self, v: NodeView, id: Id, endpoint: Octets, connects: bool)
    ensures RequirePeer(me, v, id, endpoint, connects).peers.Keys == v.peers.Keys + if connects then {id} else {}
  {
    assert id in v.peers ==> v.peers.Keys + {id} == v.peers.Keys;
  }

  lemma GreetedMovesKeys(me: Self, v: NodeView, id: Id, p: Packet, connects: bool)
    ensures Greeted(me, v, id, p, connects).peers.Keys == GreetKeys(v, id, p, connects)
  {
    if p.body.Hello? {
      RemovalTakesOut(me, v, id);
      FindingAdds(me, if id in v.peers && v.peers[id].ready then RemovePeer(me, v, id) else v, id, p.body.endpoint, connects);
    }
  }

  /** A packet that shows a loss takes its sender out. */
  function ReceiveKeys(me: Self, v: NodeView, id: Id, p: Packet, connects: bool): set<Id> {
    var v1 := Greeted(me, v, id, p, connects);
    if id !in v1.peers || !v1.peers[id].ready then GreetKeys(v, id, p, connects)
    else if Accepts(me, v, id, p, connects) then ProcessKeys(me, GreetKeys(v, id, p, connects), id, p.body)
    else GreetKeys(v, id, p, connects) - {id}
  }

  lemma ReceiveMovesKeys(me: Self, v: NodeView, id: Id, p: Packet, connects: bool)
    ensures Receive(me, v, id, p, connects).peers.Keys == ReceiveKeys(me, v, id, p, connects)
  {
    var v1 := Greeted(me, v, id, p, connects);
    GreetedMovesKeys(me, v, id, p, connects);
    if id in v1.peers {
      CheckedKeys(v1, id, p.body);
      RemovalTakesOut(me, Checked(v1, id, p.body), id);
      ProcessMovesKeys(me, Checked(v1, id, p.body), id, p.body);
    }
  }

  lemma CheckedKeys(v: NodeView, id: Id, body: Body)
    requires id in v.peers
    ensures Checked(v, id, body).peers.Keys == v.peers.Keys
  {
  }

  /** Which peers a node knows after anything that happens to it. */
  function ActKeys(me: Self, v: NodeView, a: Action): set<Id> {
    match a
    case Receives(id, p, connects) => ReceiveKeys(me, v, id, p, connects)
    case Discovers(id, _, connects) => v.peers.Keys + if connects then {id} else {}
    case Expires(id) => v.peers.Keys - {id}
    case _ => v.peers.Keys
  }

  /** Whatever happens to a node, it then knows exactly those peers. */
  lemma ActMovesKeys(me: Self, v: NodeView, a: Action)
    ensures Act(me, v, a).peers.Keys == if v.failed then v.peers.Keys else ActKeys(me, v, a)
  {
    if !v.failed {
      match a
      case Receives(id, p, connects) => ReceiveMovesKeys(me, v, id, p, connects);
      case Discovers(id, endpoint, connects) => FindingAdds(me, v, id, endpoint, connects);
      case Expires(id) => RemovalTakesOut(me, v, id);
      case _ =>
    }
  }

  // ---- our own groups ----

  /** The names are these without the first `g`. */
  ghost predicate FirstGone(names: seq<Name>, g: Name, rest: seq<Name>) {
    exists i :: GoneAt(names, g, rest, i)
  }

  predicate GoneAt(names: seq<Name>, g: Name, rest: seq<Name>, i: nat) {
    i < |names| && names[i] == g && g !in names[..i] && rest == names[..i] + names[i + 1..]
  }

  lemma {:induction false} WithoutIsFirstGone(names: seq<Name>, g: Name)
    requires g in names
    ensures FirstGone(names, g, Without(names, g))
    decreases |names|
  {
    if names[0] == g {
      assert GoneAt(names, g, Without(names, g), 0);
    } else {
      WithoutIsFirstGone(names[1..], g);
      var i: nat :| GoneAt(names[1..], g, Without(names[1..], g), i);
      GoneLater(names, g, Without(names[1..], g), i);
    }
  }

  lemma GoneLater(names: seq<Name>, g: Name, rest: seq<Name>, i: nat)
    requires names != [] && names[0] != g && GoneAt(names[1..], g, rest, i)
    ensures GoneAt(names, g, [names[0]] + rest, i + 1)
  {
    assert names[..i + 1] == [names[0]] + names[1..][..i];
    assert names[i + 2..] == names[1..][i + 1..];
  }

  /**
   Our own groups change only by our own commands: a group that is new to us is
   added last, one that we leave is taken out, and each time the status steps.
   */
  lemma ActMovesOwn(me: Self, v: NodeView, a: Action)
    ensures var w := Act(me, v, a);
            if v.failed then w.own == v.own && w.status == v.status
            else if a.Joins? && a.group !in v.own then w.own == v.own + [a.group] && w.status == (v.status + 1) % 0x100
            else if a.Leaves? && a.group in v.own then FirstGone(v.own, a.group, w.own) && w.status == (v.status + 1) % 0x100
            else w.own == v.own && w.status == v.status
  {
    if !v.failed {
      match a
      case Receives(id, p, connects) => ReceiveKeepsOwn(me, v, id, p, connects);
      case Expires(id) => RemovalKeepsOwn(me, v, id);
      case Leaves(g) =>
        if g in v.own {
          WithoutIsFirstGone(v.own, g);
        }
      case _ =>
    }
  }

  lemma ReceiveKeepsOwn(me: Self, v: NodeView, id: Id, p: Packet, connects: bool)
    ensures Receive(me, v, id, p, connects).own == v.own && Receive(me, v, id, p, connects).status == v.status
  {
    var v1 := Greeted(me, v, id, p, connects);
    GreetedKeepsOwn(me, v, id, p, connects);
    if id in v1.peers {
      RemovalKeepsOwn(me, Checked(v1, id, p.body), id);
      ProcessKeepsOwn(me, Checked(v1, id, p.body), id, p.body);
    }
  }

  lemma FindingKeepsOwn(me: Self, v: NodeView, id: Id, endpoint: Octets, connects: bool)
    ensures RequirePeer(me, v, id, endpoint, connects).own == v.own
    ensures RequirePeer(me, v, id, endpoint, connects).status == v.status
  {
  }

  lemma GreetedKeepsOwn(me: Self, v: NodeView, id: Id, p: Packet, connects: bool)
    ensures Greeted(me, v, id, p, connects).own == v.own && Greeted(me, v, id, p, connects).status == v.status
  {
    if p.body.Hello? {
      RemovalKeepsOwn(me, v, id);
      FindingKeepsOwn(me, if id in v.peers && v.peers[id].ready then RemovePeer(me, v, id) else v, id, p.body.endpoint, connects);
    }
  }

  lemma {:induction false} JoinAllKeepsOwn(me: Self, v: NodeView, id: Id, names: seq<Name>)
    requires id in v.peers
    ensures JoinAll(me, v, id, names).own == v.own && JoinAll(me, v, id, names).status == v.status
    decreases |names|
  {
    if names != [] {
      JoinAllKeepsOwn(me, JoinAndStart(me, v, id, names[0]), id, names[1..]);
    }
  }

  lemma {:induction false} CastsKeepOwn(v: NodeView, g: Name, casts: seq<Rules.Cast<Id>>)
    ensures SendCasts(v, g, casts).own == v.own && SendCasts(v, g, casts).status == v.status
    decreases |casts|
  {
    if casts != [] {
      CastsKeepOwn(SendAll(v, casts[0].to, TokenBody(g, casts[0].token)), g, casts[1..]);
    }
  }

  lemma ElectKeepsOwn(me: Self, v: NodeView, id: Id, g: Name, challenger: Id)
    ensures OnElect(me, v, id, g, challenger).own == v.own && OnElect(me, v, id, g, challenger).status == v.status
  {
    var group := GroupOf(v, g);
    var out := Rules.OnElect(StrLess, me.id, group.members, group.election, id, challenger);
    CastsKeepOwn(v.(groups := v.groups[g := group.(election := Some(out.record))]), g, out.casts);
  }

  lemma LeaderKeepsOwn(me: Self, v: NodeView, g: Name, leader: Id)
    ensures OnLeader(me, v, g, leader).own == v.own && OnLeader(me, v, g, leader).status == v.status
  {
    var group := GroupOf(v, g);
    var out := Rules.OnLeader(me.id, group.members, group.election, leader);
    var follows := out.verdict.Some? && leader != me.id && leader in v.peers;
    CastsKeepOwn(
      v.(groups := v.groups[g := group.(election := out.election, leader := if follows then Some(leader) else group.leader)]),
      g, out.casts);
  }

  lemma HelloKeepsOwn(me: Self, v: NodeView, id: Id, groups: seq<Name>, status: byte)
    requires id in v.peers
    ensures OnHello(me, v, id, groups, status).own == v.own && OnHello(me, v, id, groups, status).status == v.status
  {
    JoinAllKeepsOwn(me, Tell(v, Enter(id)), id, groups);
    JoinAllKeepsPeers(me, Tell(v, Enter(id)), id, groups);
  }

  lemma MembershipKeepsOwn(me: Self, v: NodeView, id: Id, g: Name, status: byte)
    requires id in v.peers
    ensures OnJoin(me, v, id, g, status).own == v.own && OnJoin(me, v, id, g, status).status == v.status
    ensures OnLeave(me, v, id, g, status).own == v.own && OnLeave(me, v, id, g, status).status == v.status
  {
  }

  lemma ProcessKeepsOwn(me: Self, v: NodeView, id: Id, body: Body)
    requires id in v.peers
    ensures Process(me, v, id, body).own == v.own && Process(me, v, id, body).status == v.status
  {
    match body
    case Hello(_, groups, status) => HelloKeepsOwn(me, v, id, groups, status);
    case Join(g, status) => MembershipKeepsOwn(me, v, id, g, status);
    case Leave(g, status) => MembershipKeepsOwn(me, v, id, g, status);
    case Elect(g, challenger) => ElectKeepsOwn(me, v, id, g, challenger);
    case Leader(g, leader) => LeaderKeepsOwn(me, v, g, leader);
    case Goodbye => RemovalKeepsOwn(me, v, id);
    case _ =>
  }

  /** Names that do not repeat. */
  predicate Distinct(names: seq<Name>) {
    forall i, j :: 0 <= i < j < |names| ==> names[i] != names[j]
  }

  /** In every state that a node can reach it lists each of its own groups once. */
  lemma {:induction false} OwnGroupsDistinct(me: Self, states: seq<NodeView>, actions: seq<Action>, n: nat)
    requires IsNodeRun(me, states, actions) && n < |states|
    ensures Distinct(states[n].own)
  {
    if n > 0 {
      OwnGroupsDistinct(me, states, actions, n - 1);
      assert StepAt((v, a, w) => Acts(me, v, a, w), states, actions, n - 1);
      StaysDistinct(me, states[n - 1], actions[n - 1]);
    }
  }

  lemma StaysDistinct(me: Self, v: NodeView, a: Action)
    requires Distinct(v.own)
    ensures Distinct(Act(me, v, a).own)
  {
    ActMovesOwn(me, v, a);
  }

  /** How often our own groups have changed in these states. */
  function Changes(states: seq<NodeView>): nat {
    if |states| < 2 then 0
    else
      var n := |states| - 1;
      Changes(states[..n]) + if states[n].own != states[n - 1].own then 1 else 0
  }

  /** In every state that a node can reach its status is the number of changes so far, in eight bits. */
  lemma {:induction false} StatusCountsChanges(me: Self, states: seq<NodeView>, actions: seq<Action>, n: nat)
    requires IsNodeRun(me, states, actions) && n < |states|
    ensures states[n].status == Changes(states[..n + 1]) % 0x100
  {
    if n > 0 {
      StatusCountsChanges(me, states, actions, n - 1);
      assert StepAt((v, a, w) => Acts(me, v, a, w), states, actions, n - 1);
      OneMoreState(me, states, n, actions[n - 1]);
    }
  }

  lemma OneMoreState(me: Self, states: seq<NodeView>, n: nat, a: Action)
    requires 0 < n < |states| && states[n - 1].status == Changes(states[..n]) % 0x100
    requires states[n] == Act(me, states[n - 1], a)
    ensures states[n].status == Changes(states[..n + 1]) % 0x100
  {
    StatusSteps(me, states[n - 1], a);
    assert states[..n + 1][..n] == states[..n];
    CountsOn(Changes(states[..n]), if states[n].own != states[n - 1].own then 1 else 0);
  }

  lemma CountsOn(changes: nat, more: nat)
    ensures (changes % 0x100 + more) % 0x100 == (changes + more) % 0x100
  {
  }

  lemma StatusSteps(me: Self, v: NodeView, a: Action)
    ensures var w := Act(me, v, a); w.status == (v.status + if w.own != v.own then 1 else 0) % 0x100
  {
    ActMovesOwn(me, v, a);
    if !v.failed && a.Leaves? && a.group in v.own {
      ShorterWithout(v.own, a.group, Act(me, v, a).own);
    }
  }

  lemma ShorterWithout(names: seq<Name>, g: Name, rest: seq<Name>)
    requires FirstGone(names, g, rest)
    ensures |rest| == |names| - 1
  {
  }
}
