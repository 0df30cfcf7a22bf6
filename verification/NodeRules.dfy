/**
 A node as a value: its peer and group tables, its own groups and status, the
 events it gave the application and the packets it handed to each peer's
 mailbox; and what every API command and received message does to it.  The
 class `Node` keeps the same data in objects and is proved to compute these
 functions.
 */
module NodeRules {
  import opened Basics
  import opened CStrings
  import Rules = ElectionRules

  type Id = Octets
  type Name = Octets
  type Record = Rules.Record<Id>

  /** What the node reads from, or puts into, a ZRE message. */
  datatype Body =
    | Hello(endpoint: Octets, groups: seq<Name>, status: byte)
    | Whisper(content: seq<Octets>)
    | Shout(group: Name, content: seq<Octets>)
    | Join(group: Name, status: byte)
    | Leave(group: Name, status: byte)
    | Ping
    | PingOk
    | Elect(group: Name, challenger: Id)
    | Leader(group: Name, leader: Id)
    | Goodbye

  datatype Packet = Packet(sequence: uint16, body: Body)

  datatype Event =
    | Enter(id: Id)
    | Exit(id: Id)
    | Joined(id: Id, group: Name)
    | Left(id: Id, group: Name)
    | Whispered(id: Id, content: seq<Octets>)
    | Shouted(id: Id, group: Name, content: seq<Octets>)
    | Elected(id: Id, group: Name)

  datatype PeerView = PeerView(endpoint: Octets, connected: bool, ready: bool, status: byte, sent: uint16, want: uint16)

  datatype GroupView = GroupView(members: set<Id>, contest: bool, leader: Option<Id>, election: Option<Record>)

  datatype NodeView = NodeView(
    peers: map<Id, PeerView>,
    groups: map<Name, GroupView>,
    own: seq<Name>,
    status: byte,
    outbox: seq<Event>,
    wire: map<Id, seq<Packet>>,   // everything sent to each peer, over all its mailboxes
    failed: bool)                 // a status assertion has fired

  /** What is fixed once a node has started; `announced` is the endpoint as its HELLO carries it. */
  datatype Self = Self(id: Id, endpoint: Octets, announced: Octets, gossip: bool)

  const NEW_NODE := NodeView(map[], map[], [], 0, [], map[], false)

  function SetOf(names: seq<Name>): set<Name> {
    set g | g in names
  }

  /** Fixed-size string fields keep at most 255 octets. */
  function Fixed(s: Octets): Octets {
    s[..Min(255, |s|)]
  }

  function NextByte(n: byte): byte {
    (n + 1) % 0x100
  }

  function NextSequence(n: uint16): uint16 {
    (n + 1) % 0x1_0000
  }

  // ---- peers ----

  const NEW_PEER := PeerView([], false, false, 0, 0, 0)

  function Endpoint(p: PeerView): Octets {
    if p.connected then p.endpoint else []
  }

  function Connected(p: PeerView, endpoint: Octets): PeerView {
    p.(endpoint := endpoint, connected := true, ready := false)
  }

  function Disconnected(p: PeerView): PeerView {
    if p.connected then p.(endpoint := [], connected := false, ready := false) else p
  }

  function AfterSend(p: PeerView): PeerView {
    if p.connected then p.(sent := NextSequence(p.sent)) else p
  }

  /** The sequence number the next message must carry: a HELLO is always number 1. */
  function Wanted(p: PeerView, body: Body): uint16 {
    if body.Hello? then 1 else NextSequence(p.want)
  }

  // ---- sending ----

  function Sent(v: NodeView, id: Id): seq<Packet> {
    if id in v.wire then v.wire[id] else []
  }

  function Reached(v: NodeView, to: set<Id>): set<Id> {
    set id | id in to && id in v.peers && v.peers[id].connected
  }

  /** The same message to every known peer of `to`; a disconnected one gets nothing. */
  function SendAll(v: NodeView, to: set<Id>, body: Body): NodeView {
    var reached := Reached(v, to);
    v.(peers := map id | id in v.peers :: if id in to then AfterSend(v.peers[id]) else v.peers[id],
       wire := map id | id in v.wire.Keys + reached ::
         if id in reached then Sent(v, id) + [Packet(NextSequence(v.peers[id].sent), body)] else v.wire[id])
  }

  function Tell(v: NodeView, e: Event): NodeView {
    v.(outbox := v.outbox + [e])
  }

  // ---- groups and elections ----

  const NEW_GROUP := GroupView({}, false, None, None)

  function RequireGroup(v: NodeView, g: Name): NodeView {
    if g in v.groups then v else v.(groups := v.groups[g := NEW_GROUP])
  }

  function GroupOf(v: NodeView, g: Name): GroupView {
    if g in v.groups then v.groups[g] else NEW_GROUP
  }

  /** Drop any election of the group and start one with our own id. */
  function StartElection(me: Self, v: NodeView, g: Name): NodeView {
    var group := GroupOf(v, g).(election := Some(Rules.Started(me.id)), leader := None);
    SendAll(v.(groups := v.groups[g := group]), group.members, Elect(Fixed(g), me.id))
  }

  /** Being alone, we are the leader. */
  function LeadAlone(me: Self, v: NodeView, g: Name): NodeView {
    var group := GroupOf(v, g).(election := None, leader := None);
    Tell(v.(groups := v.groups[g := group]), Elected(me.id, g))
  }

  /** What losing peer `id` does to our election in one of our groups. */
  function Restart(me: Self, v: NodeView, id: Id, g: Name): NodeView {
    var v1 := RequireGroup(v, g);
    var group := v1.groups[g];
    var running := group.election.Some? && group.election.value.lrec != |group.members|;
    if !group.contest || !(running || group.leader == Some(id)) then v1
    else if |group.members| == 1 then LeadAlone(me, v1, g)
    else StartElection(me, v1, g)
  }

  function RestartAll(me: Self, v: NodeView, id: Id, names: seq<Name>): NodeView
    decreases |names|
  {
    if names == [] then v else RestartAll(me, Restart(me, v, id, names[0]), id, names[1..])
  }

  // ---- finding and removing peers ----

  /** Disconnect every peer on this endpoint. */
  function Purge(v: NodeView, endpoint: Octets): NodeView {
    v.(peers := map id | id in v.peers ::
         if Endpoint(v.peers[id]) == endpoint then Disconnected(v.peers[id]) else v.peers[id])
  }

  /** Find the peer, or create it, connect to it and greet it; `connects` is the outcome of connecting. */
  function RequirePeer(me: Self, v: NodeView, id: Id, endpoint: Octets, connects: bool): NodeView {
    if id in v.peers then v
    else
      var v1 := Purge(v, endpoint);
      if !connects then v1
      else SendAll(v1.(peers := v1.peers[id := Connected(NEW_PEER, endpoint)]), {id}, Hello(me.announced, v.own, v.status))
  }

  /** Tell the application, restart the elections that need it, and forget the peer everywhere. */
  function RemovePeer(me: Self, v: NodeView, id: Id): NodeView {
    var v1 := RestartAll(me, Tell(v, Exit(id)), id, v.own);
    v1.(groups := map g | g in v1.groups :: v1.groups[g].(members := v1.groups[g].members - {id}),
        peers := v1.peers - {id})
  }

  // ---- membership of peers ----

  function SetStatus(v: NodeView, id: Id, status: byte): NodeView
    requires id in v.peers
  {
    v.(peers := v.peers[id := v.peers[id].(status := status)])
  }

  function JoinPeerGroup(v: NodeView, id: Id, g: Name): NodeView
    requires id in v.peers
  {
    var group := GroupOf(v, g);
    var v1 := v.(groups := v.groups[g := group.(members := group.members + {id})]);
    Tell(SetStatus(v1, id, NextByte(v.peers[id].status)), Joined(id, g))
  }

  function LeavePeerGroup(v: NodeView, id: Id, g: Name): NodeView
    requires id in v.peers
  {
    var group := GroupOf(v, g);
    var v1 := v.(groups := v.groups[g := group.(members := group.members - {id})]);
    Tell(SetStatus(v1, id, NextByte(v.peers[id].status)), Left(id, g))
  }

  // ---- messages ----

  /** Join the peer to a group its HELLO lists, and start our election if we contest. */
  function JoinAndStart(me: Self, v: NodeView, id: Id, g: Name): NodeView
    requires id in v.peers
  {
    var v1 := JoinPeerGroup(v, id, g);
    if v1.groups[g].contest then StartElection(me, v1, g) else v1
  }

  function JoinAll(me: Self, v: NodeView, id: Id, names: seq<Name>): NodeView
    requires id in v.peers
    decreases |names|
  {
    if names == [] then v else JoinAll(me, JoinAndStart(me, v, id, names[0]), id, names[1..])
  }

  function OnHello(me: Self, v: NodeView, id: Id, groups: seq<Name>, status: byte): NodeView
    requires id in v.peers
  {
    var v1 := JoinAll(me, Tell(v, Enter(id)), id, groups);
    JoinAllKeepsPeers(me, Tell(v, Enter(id)), id, groups);
    SetStatus(v1, id, status)
  }

  lemma {:induction false} JoinAllKeepsPeers(me: Self, v: NodeView, id: Id, names: seq<Name>)
    requires id in v.peers
    ensures JoinAll(me, v, id, names).peers.Keys == v.peers.Keys
    decreases |names|
  {
    if names != [] {
      JoinAllKeepsPeers(me, JoinAndStart(me, v, id, names[0]), id, names[1..]);
    }
  }

  function OnJoin(me: Self, v: NodeView, id: Id, g: Name, status: byte): NodeView
    requires id in v.peers
  {
    var v1 := JoinPeerGroup(v, id, g);
    if v1.peers[id].status != status then v1.(failed := true)
    else if g in v1.own && v1.groups[g].contest then StartElection(me, v1, g)
    else v1
  }

  function OnLeave(me: Self, v: NodeView, id: Id, g: Name, status: byte): NodeView
    requires id in v.peers
  {
    var v1 := LeavePeerGroup(v, id, g);
    if v1.peers[id].status != status then v1.(failed := true)
    else if !(g in v1.own && v1.groups[g].contest && v1.groups[g].leader == Some(id)) then v1
    else if |v1.groups[g].members| == 0 then LeadAlone(me, v1, g)
    else StartElection(me, v1, g)
  }

  function TokenBody(g: Name, t: Rules.Token<Id>): Body {
    match t
    case Elect(c) => Elect(Fixed(g), c)
    case Leader(l) => Leader(Fixed(g), l)
  }

  function SendCasts(v: NodeView, g: Name, casts: seq<Rules.Cast<Id>>): NodeView
    decreases |casts|
  {
    if casts == [] then v
    else SendCasts(SendAll(v, casts[0].to, TokenBody(g, casts[0].token)), g, casts[1..])
  }

  function OnElect(me: Self, v: NodeView, id: Id, g: Name, challenger: Id): NodeView {
    var group := GroupOf(v, g);
    var out := Rules.OnElect(StrLess, me.id, group.members, group.election, id, challenger);
    SendCasts(v.(groups := v.groups[g := group.(election := Some(out.record))]), g, out.casts)
  }

  function OnLeader(me: Self, v: NodeView, g: Name, leader: Id): NodeView {
    var group := GroupOf(v, g);
    var out := Rules.OnLeader(me.id, group.members, group.election, leader);
    var follows := out.verdict.Some? && leader != me.id && leader in v.peers;
    var v1 := SendCasts(
      v.(groups := v.groups[g := group.(election := out.election, leader := if follows then Some(leader) else group.leader)]),
      g, out.casts);
    if out.verdict.Some? && (leader == me.id || leader in v.peers) then Tell(v1, Elected(leader, g)) else v1
  }

  function Process(me: Self, v: NodeView, id: Id, body: Body): NodeView
    requires id in v.peers
  {
    match body
    case Hello(_, groups, status) => OnHello(me, v, id, groups, status)
    case Whisper(content) => Tell(v, Whispered(id, content))
    case Shout(g, content) => Tell(v, Shouted(id, g, content))
    case Ping => SendAll(v, {id}, PingOk)
    case PingOk => v
    case Join(g, status) => OnJoin(me, v, id, g, status)
    case Leave(g, status) => OnLeave(me, v, id, g, status)
    case Elect(g, challenger) => OnElect(me, v, id, g, challenger)
    case Leader(g, leader) => OnLeader(me, v, g, leader)
    case Goodbye => if me.gossip then RemovePeer(me, v, id) else v
  }

  /** A HELLO replaces a ready peer, and makes the peer ready; one from our own endpoint is ignored. */
  function Greet(me: Self, v: NodeView, id: Id, endpoint: Octets, connects: bool): NodeView {
    if id in v.peers && !v.peers[id].ready && Endpoint(v.peers[id]) == me.endpoint then v
    else
      var v1 := if id in v.peers && v.peers[id].ready then RemovePeer(me, v, id) else v;
      var v2 := RequirePeer(me, v1, id, endpoint, connects);
      if id in v2.peers then v2.(peers := v2.peers[id := v2.peers[id].(ready := true)]) else v2
  }

  /** The node as it stands when the ready check is made. */
  function Greeted(me: Self, v: NodeView, id: Id, p: Packet, connects: bool): NodeView {
    if p.body.Hello? then Greet(me, v, id, p.body.endpoint, connects) else v
  }

  /** The message passes the ready check and carries the wanted sequence number. */
  predicate Accepts(me: Self, v: NodeView, id: Id, p: Packet, connects: bool) {
    var v1 := Greeted(me, v, id, p, connects);
    id in v1.peers && v1.peers[id].ready && Wanted(v1.peers[id], p.body) == p.sequence
  }

  /** A message with this sequence number has been checked against the peer's counter. */
  function Checked(v: NodeView, id: Id, body: Body): NodeView
    requires id in v.peers
  {
    v.(peers := v.peers[id := v.peers[id].(want := Wanted(v.peers[id], body))])
  }

  function Receive(me: Self, v: NodeView, id: Id, p: Packet, connects: bool): NodeView {
    var v1 := Greeted(me, v, id, p, connects);
    if id !in v1.peers || !v1.peers[id].ready then v1
    else
      var v2 := Checked(v1, id, p.body);
      if v2.peers[id].want != p.sequence then RemovePeer(me, v2, id)
      else Process(me, v2, id, p.body)
  }

  // ---- the application's commands ----

  function ApiWhisper(v: NodeView, id: Id, content: seq<Octets>): NodeView {
    SendAll(v, {id}, Whisper(content))
  }

  function ApiShout(v: NodeView, g: Name, content: seq<Octets>): NodeView {
    if g in v.groups then SendAll(v, v.groups[g].members, Shout(Fixed(g), content)) else v
  }

  function ApiJoin(v: NodeView, g: Name): NodeView {
    if g in v.own then v
    else
      var v1 := v.(own := v.own + [g], status := NextByte(v.status));
      SendAll(v1, v1.peers.Keys, Join(Fixed(g), v1.status))
  }

  function Without(names: seq<Name>, g: Name): seq<Name> {
    if names == [] then []
    else if names[0] == g then names[1..]
    else [names[0]] + Without(names[1..], g)
  }

  function ApiLeave(v: NodeView, g: Name): NodeView {
    if g !in v.own then v
    else
      var v1 := v.(status := NextByte(v.status));
      SendAll(v1, v1.peers.Keys, Leave(Fixed(g), v1.status)).(own := Without(v.own, g))
  }

  function ApiContest(v: NodeView, g: Name): NodeView {
    var v1 := RequireGroup(v, g);
    v1.(groups := v1.groups[g := v1.groups[g].(contest := true)])
  }

  /** Everything that can happen to a node, from the application, the network and the clock. */
  datatype Action =
    | Receives(id: Id, packet: Packet, connects: bool)
    | Discovers(id: Id, endpoint: Octets, connects: bool)   // beacon, gossip or REQUIRE PEER
    | Expires(id: Id)                                       // zero-port beacon, or reaped
    | Pokes(id: Id)                                         // an evasive peer is pinged
    | Whispers(id: Id, content: seq<Octets>)
    | Shouts(group: Name, content: seq<Octets>)
    | Joins(group: Name)
    | Leaves(group: Name)
    | Contests(group: Name)
    | Stops                                                 // a gossip node says goodbye

  /** A node whose status assertion has fired has aborted. */
  function Act(me: Self, v: NodeView, a: Action): NodeView {
    if v.failed then v
    else match a
      case Receives(id, packet, connects) => Receive(me, v, id, packet, connects)
      case Discovers(id, endpoint, connects) => RequirePeer(me, v, id, endpoint, connects)
      case Expires(id) => if id in v.peers then RemovePeer(me, v, id) else v
      case Pokes(id) => SendAll(v, {id}, Ping)
      case Whispers(id, content) => ApiWhisper(v, id, content)
      case Shouts(g, content) => ApiShout(v, g, content)
      case Joins(g) => ApiJoin(v, g)
      case Leaves(g) => ApiLeave(v, g)
      case Contests(g) => ApiContest(v, g)
      case Stops => if me.gossip then SendAll(v, v.peers.Keys, Goodbye) else v
  }
}
