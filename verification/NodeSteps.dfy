/**
 The handlers of `NodeRules` cut into the steps that the objects take, each a
 change to one table.  The lemmas put the steps together again.
 */
module NodeSteps {
  import opened Basics
  import opened CStrings
  import opened NodeRules
  import Rules = ElectionRules

  // ---- sending ----

  function PacketsTo(sent: map<Id, seq<Packet>>, id: Id): seq<Packet> {
    if id in sent then sent[id] else []
  }

  function ConnectedOf(views: map<Id, PeerView>): set<Id> {
    set id | id in views && views[id].connected
  }

  /** The wire after one message was sent to each of the peers. */
  function AllPosted(sent: map<Id, seq<Packet>>, views: map<Id, PeerView>, body: Body): map<Id, seq<Packet>> {
    map id | id in sent.Keys + ConnectedOf(views) ::
      if id in ConnectedOf(views) then PacketsTo(sent, id) + [Packet(NextSequence(views[id].sent), body)] else sent[id]
  }

  /** The wire after it was sent to one peer. */
  function PostedTo(sent: map<Id, seq<Packet>>, id: Id, p: PeerView, body: Body): map<Id, seq<Packet>> {
    if p.connected then sent[id := PacketsTo(sent, id) + [Packet(NextSequence(p.sent), body)]] else sent
  }

  lemma NothingPosted(sent: map<Id, seq<Packet>>, views: map<Id, PeerView>, body: Body)
    ensures AllPosted(sent, views - views.Keys, body) == sent
  {
    assert ConnectedOf(views - views.Keys) == {};
  }

  lemma PostOneMore(sent: map<Id, seq<Packet>>, views: map<Id, PeerView>, todo: set<Id>, id: Id, body: Body)
    requires id in views && id in todo
    ensures AllPosted(sent, views - (todo - {id}), body) == PostedTo(AllPosted(sent, views - todo, body), id, views[id], body)
  {
    var more := views - (todo - {id});
    assert ConnectedOf(more) == ConnectedOf(views - todo) + if views[id].connected then {id} else {};
  }

  function Relayed(me: Self, v: NodeView, g: Name, leader: Id): (w: NodeView)
    requires InElection(v, g) && v.groups[g].election.value.caw.Some?
    ensures w.groups == v.groups
  {
    var r := v.groups[g].election.value;
    if me.id != leader && r.lrec == 0 then SendAll(v, v.groups[g].members, Leader(Fixed(g), r.caw.value)) else v
  }

  function LeaderCounted(v: NodeView, g: Name, leader: Id): (w: NodeView)
    requires InElection(v, g)
    ensures InElection(w, g)
  {
    var r := v.groups[g].election.value;
    Regroup(v, g, WithRecord(v.groups[g], r.(lrec := Rules.Increment(r.lrec), leader := Some(leader))))
  }

  function Concluding(me: Self, v: NodeView, group: GroupView, g: Name, leader: Id): NodeView {
    var follows := leader != me.id && leader in v.peers;
    var w := Regroup(v, g, group.(election := None, leader := if follows then Some(leader) else group.leader));
    if leader == me.id || follows then Tell(w, Elected(leader, g)) else w
  }

  lemma RelayInSteps(me: Self, v: NodeView, g: Name, leader: Id, last: GroupView)
    ensures
      var group, e := GroupOf(v, g), Electing(v, g);
      e.groups[g].election.value.caw.Some? ==>
        Regroup(Relayed(me, e, g, leader), g, last)
        == SendCasts(Regroup(v, g, last), g, Rules.OnLeader(me.id, group.members, group.election, leader).casts)
  {
    var group, e := GroupOf(v, g), Electing(v, g);
    var r := Rules.RequireRecord(group.election);
    if r.caw.Some? {
      CastsInSteps(Regroup(v, g, last), g, Rules.OnLeader(me.id, group.members, group.election, leader).casts);
      assert Regroup(e, g, last) == Regroup(v, g, last);
      SendRegroups(e, group.members, Leader(Fixed(g), r.caw.value), g, last);
    }
  }

  lemma RegroupTwice(v: NodeView, g: Name, first: GroupView, second: GroupView)
    ensures Regroup(Regroup(v, g, first), g, second) == Regroup(v, g, second)
  {
  }

  /** The handler's steps come to what `OnLeader` says. */
  lemma LeaderInSteps(me: Self, v: NodeView, g: Name, leader: Id)
    ensures
      var e := Electing(v, g);
      OnLeader(me, v, g, leader) ==
        if e.groups[g].election.value.caw.None? then e
        else
          var c := LeaderCounted(Relayed(me, e, g, leader), g, leader);
          if c.groups[g].election.value.lrec != |c.groups[g].members| then c
          else Concluding(me, c, c.groups[g], g, leader)
  {
    var group := GroupOf(v, g);
    var r := Rules.RequireRecord(group.election);
    var out := Rules.OnLeader(me.id, group.members, group.election, leader);
    var follows := out.verdict.Some? && leader != me.id && leader in v.peers;
    var last := group.(election := out.election, leader := if follows then Some(leader) else group.leader);
    if r.caw.Some? {
      var counted := r.(lrec := Rules.Increment(r.lrec), leader := Some(leader));
      RelayInSteps(me, v, g, leader, last);
      RegroupTwice(Relayed(me, Electing(v, g), g, leader), g, WithRecord(group, counted), last);
    }
  }

  function WithRecord(group: GroupView, r: Record): GroupView {
    group.(election := Some(r))
  }

  predicate InElection(v: NodeView, g: Name) {
    g in v.groups && v.groups[g].election.Some?
  }

  function ElectingGroup(group: GroupView): GroupView {
    WithRecord(group, Rules.RequireRecord(group.election))
  }

  function Electing(v: NodeView, g: Name): NodeView {
    Regroup(v, g, ElectingGroup(GroupOf(v, g)))
  }

  /** A superior challenger has become the wave, and has been passed on. */
  function Weighed(v: NodeView, id: Id, g: Name, challenger: Id): (w: NodeView)
    requires InElection(v, g)
    ensures InElection(w, g)
  {
    var group, r := v.groups[g], v.groups[g].election.value;
    var w := Regroup(v, g, WithRecord(group, Rules.Supporting(StrLess, r, id, challenger)));
    if Rules.Superior(StrLess, r, challenger) then SendAll(w, group.members - {id}, Elect(Fixed(g), challenger)) else w
  }

  function ElectCounted(r: Record): Record {
    r.(erec := Rules.Increment(r.erec))
  }

  function Tallied(me: Self, v: NodeView, g: Name, challenger: Id): NodeView
    requires InElection(v, g)
  {
    var group, joined := v.groups[g], v.groups[g].election.value;
    var counted := ElectCounted(joined);
    if joined.caw != Some(challenger) then v
    else Concluded(me, Regroup(v, g, WithRecord(group, counted)), group.members, counted, g, challenger)
  }

  function Concluded(me: Self, v: NodeView, members: set<Id>, counted: Record, g: Name, challenger: Id): NodeView {
    if counted.erec != |members| then v
    else if challenger == me.id then SendAll(v, members, Leader(Fixed(g), challenger))
    else if counted.father.Some? && counted.father.value in v.peers then
      SendAll(v, {counted.father.value}, Elect(Fixed(g), challenger))
    else v
  }

  function Forwards(group: GroupView, id: Id, challenger: Id): seq<Rules.Cast<Id>> {
    if Rules.Superior(StrLess, Rules.RequireRecord(group.election), challenger) then
      [Rules.Cast(group.members - {id}, Rules.Elect(challenger))]
    else []
  }

  lemma ForwardInSteps(v: NodeView, id: Id, g: Name, challenger: Id, record: Record)
    ensures
      var group, w := GroupOf(v, g), Weighed(Electing(v, g), id, g, challenger);
      && w.groups[g] == WithRecord(group, Rules.Supporting(StrLess, Rules.RequireRecord(group.election), id, challenger))
      && Regroup(w, g, WithRecord(group, record))
         == SendCasts(Regroup(v, g, WithRecord(group, record)), g, Forwards(group, id, challenger))
  {
    var group := GroupOf(v, g);
    var joined := Rules.Supporting(StrLess, Rules.RequireRecord(group.election), id, challenger);
    var joinedOnly, started := Regroup(v, g, WithRecord(group, joined)), Regroup(v, g, WithRecord(group, record));
    assert Regroup(Electing(v, g), g, WithRecord(group, joined)) == joinedOnly;
    SendRegroups(joinedOnly, group.members - {id}, Elect(Fixed(g), challenger), g, WithRecord(group, record));
    assert Regroup(joinedOnly, g, WithRecord(group, record)) == started;
    CastsInSteps(started, g, Forwards(group, id, challenger));
  }

  /** The handler's steps, in the order it takes them, come to what `OnElect` says. */
  lemma ElectInSteps(me: Self, v: NodeView, id: Id, g: Name, challenger: Id)
    ensures OnElect(me, v, id, g, challenger) == Tallied(me, Weighed(Electing(v, g), id, g, challenger), g, challenger)
  {
    var group := GroupOf(v, g);
    var joined := Rules.Supporting(StrLess, Rules.RequireRecord(group.election), id, challenger);
    var out := Rules.OnElect(StrLess, me.id, group.members, group.election, id, challenger);
    var w := Weighed(Electing(v, g), id, g, challenger);
    ForwardInSteps(v, id, g, challenger, out.record);
    if joined.caw == Some(challenger) {
      var started := Regroup(v, g, WithRecord(group, out.record));
      ConcludeInSteps(me, started, group.members, out.record, g, challenger, Forwards(group, id, challenger), out.casts);
    } else {
      assert Regroup(w, g, WithRecord(group, joined)) == w;
    }
  }

  lemma ConcludeInSteps(me: Self, v: NodeView, members: set<Id>, counted: Record, g: Name, challenger: Id,
      forward: seq<Rules.Cast<Id>>, casts: seq<Rules.Cast<Id>>)
    requires |forward| <= 1
    requires casts ==
      if counted.erec != |members| then forward
      else if challenger == me.id then forward + [Rules.Cast(members, Rules.Leader(challenger))]
      else forward + [Rules.Cast(Rules.FatherOf(counted), Rules.Elect(challenger))]
    ensures SendCasts(v, g, casts) == Concluded(me, SendCasts(v, g, forward), members, counted, g, challenger)
  {
    CastsInSteps(v, g, casts);
    CastsInSteps(v, g, forward);
    var w := SendCasts(v, g, forward);
    if Rules.FatherOf(counted) !! v.peers.Keys {
      SendNobody(w, Rules.FatherOf(counted), Elect(Fixed(g), challenger));
    }
  }

  lemma SendRegroups(v: NodeView, to: set<Id>, body: Body, g: Name, group: GroupView)
    ensures Regroup(SendAll(v, to, body), g, group) == SendAll(Regroup(v, g, group), to, body)
  {
    assert Reached(Regroup(v, g, group), to) == Reached(v, to);
  }

  lemma CastsInSteps(v: NodeView, g: Name, casts: seq<Rules.Cast<Id>>)
    requires |casts| <= 2
    ensures SendCasts(v, g, casts) ==
      if |casts| == 0 then v
      else
        var w := SendAll(v, casts[0].to, TokenBody(g, casts[0].token));
        if |casts| == 1 then w else SendAll(w, casts[1].to, TokenBody(g, casts[1].token))
  {
    if |casts| > 0 {
      var w := SendAll(v, casts[0].to, TokenBody(g, casts[0].token));
      assert SendCasts(v, g, casts) == SendCasts(w, g, casts[1..]);
      if |casts| == 2 {
        var last := casts[1..];
        assert last[0] == casts[1] && last[1..] == [];
        assert SendCasts(w, g, last) == SendCasts(SendAll(w, last[0].to, TokenBody(g, last[0].token)), g, last[1..]);
      } else {
        assert casts[1..] == [];
      }
    }
  }

  lemma SendNobody(v: NodeView, to: set<Id>, body: Body)
    requires to !! v.peers.Keys
    ensures SendAll(v, to, body) == v
  {
    assert Reached(v, to) == {};
  }

  function StatusStepped(views: map<Id, PeerView>, id: Id): map<Id, PeerView>
    requires id in views
  {
    views[id := views[id].(status := NextByte(views[id].status))]
  }

  /** One peer's status has stepped, and one group has changed. */
  function Remembered(v: NodeView, id: Id, g: Name, group: GroupView): NodeView
    requires id in v.peers
  {
    v.(peers := StatusStepped(v.peers, id), groups := v.groups[g := group])
  }

  lemma FoundGroup(v: NodeView, g: Name, group: GroupView)
    ensures var w := RequireGroup(v, g);
            g in w.groups && w.groups[g] == GroupOf(v, g) && w.groups[g := group] == v.groups[g := group]
  {
  }

  function AddMember(group: GroupView, id: Id): GroupView {
    group.(members := group.members + {id})
  }

  function Forgotten(v: NodeView, id: Id): NodeView {
    v.(groups := WithoutMember(v.groups, id), peers := v.peers - {id})
  }

  lemma RemoveInSteps(me: Self, v: NodeView, id: Id)
    ensures RemovePeer(me, v, id) == Forgotten(RestartAll(me, Tell(v, Exit(id)), id, v.own), id)
  {
  }

  predicate Unlisted(groups: map<Name, GroupView>, id: Id) {
    forall g :: g in groups ==> id !in groups[g].members
  }

  lemma WithoutMemberUnlists(groups: map<Name, GroupView>, id: Id)
    ensures Unlisted(WithoutMember(groups, id), id)
  {
  }

  function WithoutMember(groups: map<Name, GroupView>, id: Id): map<Name, GroupView> {
    map g | g in groups :: DropMember(groups[g], id)
  }

  function DropMember(group: GroupView, id: Id): GroupView {
    group.(members := group.members - {id})
  }

  /** Every group but those of `todo` has lost the member. */
  ghost predicate DroppedBut(before: map<Name, GroupView>, after: map<Name, GroupView>, id: Id, todo: set<Name>) {
    && after.Keys == before.Keys
    && (forall g :: g in before ==> after[g] == if g in todo then before[g] else DropMember(before[g], id))
  }

  lemma DropOneMore(before: map<Name, GroupView>, after: map<Name, GroupView>, id: Id, todo: set<Name>, g: Name)
    requires DroppedBut(before, after, id, todo) && g in before && g in todo
    ensures DroppedBut(before, after[g := DropMember(after[g], id)], id, todo - {g})
  {
  }

  /** A peer of the table has been connected, or taken out because that failed. */
  function Settled(v: NodeView, id: Id, endpoint: Octets, connects: bool): NodeView
    requires id in v.peers
  {
    v.(peers := if connects then v.peers[id := Connected(v.peers[id], endpoint)] else v.peers - {id})
  }

  lemma AddThenSettle(v: NodeView, id: Id, endpoint: Octets, connects: bool)
    requires id !in v.peers
    ensures Settled(v.(peers := v.peers[id := NEW_PEER]), id, endpoint, connects)
            == if connects then v.(peers := v.peers[id := Connected(NEW_PEER, endpoint)]) else v
  {
    assert v.peers[id := NEW_PEER] - {id} == v.peers;
  }

  function PurgedView(p: PeerView, endpoint: Octets): PeerView {
    if NodeRules.Endpoint(p) == endpoint then Disconnected(p) else p
  }

  function SentViews(views: map<Id, PeerView>, to: set<Id>): map<Id, PeerView> {
    map id | id in views :: if id in to then AfterSend(views[id]) else views[id]
  }

  function Regroup(v: NodeView, g: Name, group: GroupView): NodeView {
    v.(groups := v.groups[g := group])
  }

  function Restrict(views: map<Id, PeerView>, ids: set<Id>): map<Id, PeerView> {
    map id | id in views && id in ids :: views[id]
  }

  lemma SendManyView(v: NodeView, ids: set<Id>, body: Body)
    ensures SendAll(v, ids, body).wire == AllPosted(v.wire, Restrict(v.peers, ids), body)
    ensures SendAll(v, ids, body).peers == SentViews(v.peers, ids)
  {
    assert Reached(v, ids) == ConnectedOf(Restrict(v.peers, ids));
  }

  lemma SendOneView(v: NodeView, id: Id, body: Body)
    requires id in v.peers
    ensures var w := SendAll(v, {id}, body);
            && w.peers == v.peers[id := AfterSend(v.peers[id])]
            && w.wire == PostedTo(v.wire, id, v.peers[id], body)
  {
    assert Reached(v, {id}) == if v.peers[id].connected then {id} else {};
  }
}
