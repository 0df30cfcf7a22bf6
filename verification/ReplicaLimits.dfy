/**
 Where the replica goes wrong: how exactly a cut-off and a long group name
 spoil it, and runs in which a lost HELLO, a mistaken packet, a long name and a
 cut-off do.
 */
module ReplicaLimits {
  import opened Basics
  import opened Runs
  import opened NodeRules
  import opened NodeSessions
  import opened NodeStreams
  import opened Replica
  import NodeRuns
  import ReplicaRuns

  // ---- a cut-off, and the peer's next HELLO ----

  /**
   When a ready peer has been cut off, its next HELLO adds its groups to those in
   which it is still listed.  The list comes out right exactly if the peer has
   left none of them.
   */
  lemma CutOffListIff(me: Self, v: NodeView, a: Action, id: Id, endpoint: Octets, groups: seq<Name>, status: byte, connects: bool)
    requires NodeRuns.CutsOff(v, a, id) && !(a.Receives? && a.id == id)
    requires me.endpoint != [] && !Act(me, v, a).failed
    ensures var w := Act(me, Act(me, v, a), Receives(id, Packet(1, Hello(endpoint, groups, status)), connects));
            Listed(w, id) == SetOf(groups) <==> Listed(v, id) <= SetOf(groups)
  {
    CutOffKeepsGroups(me, v, a, id);
    HelloAddsGroups(me, Act(me, v, a), id, Hello(endpoint, groups, status), connects);
    assert (Listed(v, id) + SetOf(groups) == SetOf(groups)) == (Listed(v, id) <= SetOf(groups));
  }

  lemma CutOffKeepsGroups(me: Self, v: NodeView, a: Action, id: Id)
    requires NodeRuns.CutsOff(v, a, id) && !(a.Receives? && a.id == id)
    ensures var s := SessionOf(Act(me, v, a), id);
            s.peer.Some? && !s.peer.value.connected && !s.peer.value.ready && s.groups == Listed(v, id)
  {
    ActMovesSession(me, v, a, id);
  }

  lemma HelloAddsGroups(me: Self, v: NodeView, id: Id, hello: Body, connects: bool)
    requires hello.Hello? && me.endpoint != [] && !v.failed
    requires id in v.peers && !v.peers[id].connected && !v.peers[id].ready
    ensures Listed(Act(me, v, Receives(id, Packet(1, hello), connects)), id) == Listed(v, id) + SetOf(hello.groups)
  {
    ActMovesSession(me, v, Receives(id, Packet(1, hello), connects), id);
  }

  // ---- a long name ----

  /** Joining a group leaves the reader of an open mailbox knowing the node's groups exactly if the name fits the frame. */
  lemma LongNameToldIff(me: Self, v: NodeView, g: Name, id: Id)
    requires !v.failed && g !in v.own
    requires Serves(MailboxOf(v, id)) && Tells(MailboxOf(v, id)) && MailboxOf(v, id).open
    ensures var w := Act(me, v, Joins(g)); GroupsTold(Sent(w, id)) == SetOf(w.own) <==> |g| <= 255
  {
    ActAdvances(me, v, Joins(g), id);
    JoinIsJoining(v, g, id);
  }

  /** All that A sent has arrived, and B counts A's status and lists it in its own groups. */
  ghost predicate CaughtUp(pair: Pair, w: World) {
    && ReplicaRuns.StatusGood(pair, w) && ReplicaRuns.GroupsGood(pair, w)
    && !w.a.failed && !w.b.failed && w.next == |StreamTo(pair, w)|
    && Ready(At(pair, w)) && MailboxOf(w.a, pair.b.id).open && Tells(MailboxOf(w.a, pair.b.id))
  }

  /** And when the JOIN arrives, B lists A in A's own groups exactly if the name fits. */
  lemma LongNameListedIff(pair: Pair, w: World, g: Name, connects: bool)
    requires CaughtUp(pair, w) && g !in w.a.own
    ensures var w1 := Next(pair, w, Sends(Joins(g)));
            && Enabled(pair, w1, Arrives(w.next, connects))
            && (Listed(Next(pair, w1, Arrives(w.next, connects)).b, pair.a.id) == SetOf(w1.a.own) <==> |g| <= 255)
  {
    var step, s := Sends(Joins(g)), StreamTo(pair, w);
    var w1 := Next(pair, w, step);
    SendIsSound(pair, w, Joins(g));
    JoinIsJoining(w.a, g, pair.b.id);
    LongNameToldIff(pair.a, w.a, g, pair.b.id);
    ReplicaRuns.StepStatusIff(pair, w, step, w1);
    ReplicaRuns.StepGroupsIff(pair, w, step, w1);
    JoinArrives(pair, w1, w.next, connects);
  }

  /** The next packet of A, a JOIN, leaves B listing A in the groups told. */
  lemma JoinArrives(pair: Pair, w: World, at: nat, connects: bool)
    requires ReplicaRuns.StatusGood(pair, w) && ReplicaRuns.GroupsGood(pair, w) && !w.b.failed && Ready(At(pair, w))
    requires at == w.next == |StreamTo(pair, w)| - 1 && StreamTo(pair, w)[at].body.Join?
    ensures Listed(Next(pair, w, Arrives(at, connects)).b, pair.a.id) == GroupsTold(StreamTo(pair, w))
  {
    var s, t := StreamTo(pair, w), At(pair, w);
    ArrivalMoves(pair, w, at, connects);
    PacketFollows(pair.b, s, w.next, w.got, t, at, connects);
    PacketGroupsIff(pair.b, s, w.next, w.got, t, at, connects);
    assert s[..at + 1] == s;
  }

  // ---- runs ----

  const A := Self([1], [1], [1], false)
  const B := Self([2], [2], [2], false)
  const PAIR := Pair(A, B)

  ghost predicate Reachable(w: World) {
    exists states, steps :: IsRun(PAIR, states, steps) && states[|steps|] == w
  }

  lemma Extend(w: World, step: Step)
    requires Reachable(w) && Enabled(PAIR, w, step)
    ensures Reachable(Next(PAIR, w, step))
  {
    var states, steps :| IsRun(PAIR, states, steps) && states[|steps|] == w;
    var states', steps' := states + [Next(PAIR, w, step)], steps + [step];
    TraceGrows((w, step, w') => StepOk(PAIR, w, step, w'), states, steps, step, Next(PAIR, w, step));
    assert IsRun(PAIR, states', steps') && states'[|steps'|] == Next(PAIR, w, step);
  }

  lemma Begin()
    ensures Reachable(START) && Mail(START, false, Mailbox([], false, 0, [], 0)) && At(PAIR, START) == Session(None, {}, Outside)
  {
    var steps: seq<Step> := [];
    assert IsRun(PAIR, [START], steps) && [START][|steps|] == START;
  }

  // ---- what A does, seen from its mailbox for B ----

  /** The reachable states in which A knows B or not, and has this mailbox for it. */
  ghost function Mails(known: bool, m: Mailbox): iset<World> {
    iset w: World | Reachable(w) && !w.a.failed && ([2] in w.a.peers <==> known) && MailboxOf(w.a, [2]) == m
  }

  ghost predicate Mail(w: World, known: bool, m: Mailbox) {
    w in Mails(known, m)
  }

  /** A's own groups are as they were when it sent its last packet. */
  ghost predicate Recorded(w: World) {
    w.owns != [] && w.owns[|w.owns| - 1] == SetOf(w.a.own)
  }

  ghost function Onwards(w: World, known: bool, m: Mailbox): iset<World> {
    iset w': World |
      && w'.b == w.b && w'.next == w.next && w'.got == w.got && w'.fired == w.fired && Mail(w', known, m)
      && (|StreamTo(PAIR, w')| > |StreamTo(PAIR, w)| ==> Recorded(w'))
  }

  /** From `w` A has come so far, and nothing has reached B. */
  ghost predicate Onward(w: World, w': World, known: bool, m: Mailbox) {
    w' in Onwards(w, known, m)
  }

  /** A does something, and its mailbox for B is then `m'`. */
  lemma Does(w: World, action: Action, known: bool, m': Mailbox) returns (w': World)
    requires Reachable(w) && !Act(A, w.a, action).failed
    requires ([2] in Act(A, w.a, action).peers <==> known) && MailboxOf(Act(A, w.a, action), [2]) == m'
    ensures Onward(w, w', known, m')
  {
    w' := Next(PAIR, w, Sends(action));
    Extend(w, Sends(action));
  }

  lemma Discover(w: World, m: Mailbox) returns (w': World)
    requires Mail(w, false, m)
    ensures Onward(w, w', true, Post(Opened(m), Hello([1], m.own, m.status)))
  {
    var v1 := Purge(w.a, [2]);
    var v2 := v1.(peers := v1.peers[[2] := Connected(NEW_PEER, [2])]);
    SendPosts(v2, {[2]}, Hello([1], w.a.own, w.a.status), [2]);
    w' := Does(w, Discovers([2], [2], true), true, Post(Opened(m), Hello([1], m.own, m.status)));
  }

  lemma Expire(w: World, m: Mailbox) returns (w': World)
    requires Mail(w, true, m) && m.own == []
    ensures Onward(w, w', false, Closed(m))
  {
    w' := Does(w, Expires([2]), false, Closed(m));
  }

  lemma Enroll(w: World, known: bool, m: Mailbox, g: Name) returns (w': World)
    requires Mail(w, known, m) && g !in m.own
    ensures Onward(w, w', known, Joining(m, g)) && (|g| <= 255 ==> Fixed(g) == g)
  {
    JoinIsJoining(w.a, g, [2]);
    w' := Does(w, Joins(g), known, Joining(m, g));
  }

  lemma Resign(w: World, known: bool, m: Mailbox, g: Name) returns (w': World)
    requires Mail(w, known, m) && g in m.own
    ensures Onward(w, w', known, Leaving(m, g)) && (|g| <= 255 ==> Fixed(g) == g)
  {
    LeaveIsLeaving(w.a, g, [2]);
    w' := Does(w, Leaves(g), known, Leaving(m, g));
  }

  /** What the packet at this position makes of B's session with A. */
  ghost function Delivered(w: World, at: nat): iset<World>
    requires at < |StreamTo(PAIR, w)|
  {
    iset w': World |
      && Reachable(w') && w'.a == w.a && w'.owns == w.owns && w'.next == at + 1
      && At(PAIR, w') == ReceiveSession(B, At(PAIR, w), StreamTo(PAIR, w)[at], true)
      && w'.b.failed == Fails(B, At(PAIR, w), StreamTo(PAIR, w)[at], true)
      && w'.got == GotAfter(B, At(PAIR, w), w.got, StreamTo(PAIR, w)[at], at, true)
      && w'.fired == (w.fired || w'.b.failed)
      && ([3] in w'.b.peers ==> [3] in w.b.peers)
  }

  lemma Poke(w: World, m: Mailbox) returns (w': World)
    requires Mail(w, true, m)
    ensures Onward(w, w', true, Post(m, Ping))
  {
    SendPosts(w.a, {[2]}, Ping, [2]);
    w' := Does(w, Pokes([2]), true, Post(m, Ping));
  }

  lemma Deliver(w: World, at: nat) returns (w': World)
    requires Reachable(w) && Enabled(PAIR, w, Arrives(at, true)) && !w.b.failed
    ensures w' in Delivered(w, at)
  {
    w' := Next(PAIR, w, Arrives(at, true));
    Extend(w, Arrives(at, true));
    ArrivalMoves(PAIR, w, at, true);
    ActMovesSession(B, w.b, Receives(A.id, StreamTo(PAIR, w)[at], true), [3]);
  }

  /** The reachable states in which B has this session with A, and does not know the third node. */
  ghost function Heard(t: Session): iset<World> {
    iset w: World | Reachable(w) && !w.b.failed && At(PAIR, w) == t && [3] !in w.b.peers
  }

  /** A first HELLO that tells no groups. */
  const FIRST := Packet(1, Hello([1], [], 0))
  const MET := Session(Some(PeerView([1], true, true, 0, 0, 1)), {}, Inside)

  /** A finds B, and B takes A's HELLO. */
  lemma Meet() returns (w: World)
    ensures w in Heard(MET) && w.next == 1 && w.got == [0] && !w.fired
    ensures Mail(w, true, Mailbox([FIRST], true, 1, [], 0))
  {
    Begin();
    var w1 := Discover(START, Mailbox([], false, 0, [], 0));
    assert SetOf([]) == {};
    w := Deliver(w1, 0);
  }

  // ---- a lost HELLO ----

  const SECOND := Packet(1, Hello([1], [[7]], 1))
  const STALE := Packet(2, Join([8], 2))

  /** A drops B, joins a group and finds B again. */
  lemma Return(w2: World) returns (w: World)
    requires Mail(w2, true, Mailbox([FIRST], true, 1, [], 0))
    ensures Onward(w2, w, true, Mailbox([FIRST] + [SECOND], true, 1, [[7]], 1))
  {
    var w3 := Expire(w2, Mailbox([FIRST], true, 1, [], 0));
    var w4 := Enroll(w3, false, Mailbox([FIRST], false, 0, [], 0), [7]);
    assert Joining(Mailbox([FIRST], false, 0, [], 0), [7]) == Mailbox([FIRST], false, 0, [[7]], 1);
    w := Discover(w4, Mailbox([FIRST], false, 0, [[7]], 1));
  }

  /** And joins another group. */
  lemma Rejoin(w2: World) returns (w: World)
    requires Mail(w2, true, Mailbox([FIRST], true, 1, [], 0))
    ensures Onward(w2, w, true, Mailbox([FIRST] + [SECOND] + [STALE], true, 2, [[7]] + [[8]], 2))
  {
    var w5 := Return(w2);
    SecondJoin();
    w := Enroll(w5, true, Mailbox([FIRST] + [SECOND], true, 1, [[7]], 1), [8]);
  }

  lemma SecondJoin()
    ensures [8] !in [[7]]
    ensures Joining(Mailbox([FIRST] + [SECOND], true, 1, [[7]], 1), [8])
         == Mailbox([FIRST] + [SECOND] + [STALE], true, 2, [[7]] + [[8]], 2)
  {
    var g: Name := [8];
    assert Fixed(g) == g;
  }

  lemma StaleFails()
    ensures Fails(B, MET, STALE, true)
  {
    assert Misfits(MET, STALE.body);
  }

  /**
   The HELLO of A's second session with B is lost, but the JOIN after it
   carries number 2, which is what B waits for in the session it still has.
   B's count of A's status is one behind, and the assertion fires.
   */
  lemma LostHelloFiresAssertion() returns (w: World)
    ensures Reachable(w) && w.b.failed && w.fired
  {
    var w2 := Meet();
    var w6 := Rejoin(w2);
    StaleFails();
    assert StreamTo(PAIR, w6)[2] == STALE;
    w := Deliver(w6, 2);
  }

  /**
   The reachable states where all that A sent has arrived and A is ready, and yet B
   lists it in groups that are not its own, now or when A sent its last packet.
   */
  ghost function Misled(): iset<World> {
    iset w: World |
      && Reachable(w) && !w.b.failed && Ready(At(PAIR, w)) && w.next == |StreamTo(PAIR, w)|
      && Listed(w.b, A.id) != SetOf(w.a.own) && Recorded(w)
  }

  lemma MisledIsOutside(w: World)
    requires w in Misled()
    ensures !ReplicaRuns.PrimaryGood(PAIR, w)
  {
  }

  // ---- a mistaken packet ----

  const LATE := Packet(2, Ping)

  /** A returns as before, and pings B. */
  lemma ReturnAndPing(w2: World) returns (w: World)
    requires Mail(w2, true, Mailbox([FIRST], true, 1, [], 0))
    ensures Onward(w2, w, true, Mailbox([FIRST] + [SECOND] + [LATE], true, 2, [[7]], 1))
  {
    var w5 := Return(w2);
    w := Poke(w5, Mailbox([FIRST] + [SECOND], true, 1, [[7]], 1));
  }

  /**
   The HELLO of A's second session is lost again, but the PING after it fires no
   assertion.  B goes on with a gap in what it has processed, with the wrong
   status counted, and with A listed in groups that are not its own.
   */
  lemma MistakenPingMisleads() returns (w: World)
    ensures w in Misled() && !w.fired
    ensures !ReplicaRuns.NoGap(PAIR, w) && !ReplicaRuns.StatusGood(PAIR, w) && !ReplicaRuns.GroupsGood(PAIR, w)
  {
    var w2 := Meet();
    var w6 := ReturnAndPing(w2);
    LateIsTaken();
    assert StreamTo(PAIR, w6)[2] == LATE;
    w := Deliver(w6, 2);
    GapRemains(w);
  }

  const LULLED := Session(Some(PeerView([1], true, true, 0, 0, 2)), {}, Inside)

  lemma LateIsTaken()
    ensures !Fails(B, MET, LATE, true) && ReceiveSession(B, MET, LATE, true) == LULLED
    ensures GotAfter(B, MET, [0], LATE, 2, true) == [0, 2]
  {
    assert [0] + [2] == [0, 2];
  }

  lemma GapRemains(w: World)
    requires StreamTo(PAIR, w) == [FIRST] + [SECOND] + [LATE] && w.next == 3 && w.a.own == [[7]]
    requires w.got == [0, 2] && At(PAIR, w) == LULLED && !w.b.failed
    ensures !ReplicaRuns.NoGap(PAIR, w) && !ReplicaRuns.StatusGood(PAIR, w) && !ReplicaRuns.GroupsGood(PAIR, w)
    ensures Listed(w.b, A.id) != SetOf(w.a.own)
  {
    var s := StreamTo(PAIR, w);
    assert s[..3] == s && StartOf(s, 3) == StartOf(s, 2) == 1;
    assert Positions(1, 3)[0] == 1;
    SecondTold();
    assert w.a.own[0] in SetOf(w.a.own) && [7] !in Listed(w.b, A.id);
  }

  lemma SecondTold()
    ensures var s := [FIRST] + [SECOND] + [LATE]; StatusTold(s) == 1 && [7] in GroupsTold(s)
  {
    var s := [FIRST] + [SECOND] + [LATE];
    PlainTellsNothing([FIRST] + [SECOND], LATE);
    assert [[7]][0] in SetOf([[7]]);
  }

  // ---- a long name ----

  /** A joins a group with a name of 256 octets; with nothing lost, B lists A in groups that are not A's own. */
  lemma LongNameMisleads() returns (w: World)
    ensures w in Misled()
  {
    var g: Name := seq(256, _ => 7);
    var w2 := Meet();
    var w3 := Enroll(w2, true, Mailbox([FIRST], true, 1, [], 0), g);
    w := Deliver(w3, 1);
    assert |Fixed(g)| == 255 && Fixed(g) in Listed(w.b, A.id);
    assert w.a.own == [g];
  }

  // ---- a cut-off ----

  const MEMBER := Packet(1, Hello([1], [[7]], 1))
  const PARTING := Packet(2, Leave([7], 2))
  const ALONE := Packet(1, Hello([1], [], 2))

  /** B lists A, which is ready or cut off, in group [7]. */
  function Enlisted(cut: bool): Session {
    Session(Some(if cut then PeerView([], false, false, 1, 0, 1) else PeerView([1], true, true, 1, 0, 1)), {[7]}, Inside)
  }

  /** A joins a group, finds B, and B takes its HELLO. */
  lemma MeetAsMember() returns (w: World)
    ensures w in Heard(Enlisted(false)) && w.next == 1
    ensures Mail(w, true, Mailbox([MEMBER], true, 1, [[7]], 1))
  {
    Begin();
    var w1 := Enroll(START, false, Mailbox([], false, 0, [], 0), [7]);
    assert Joining(Mailbox([], false, 0, [], 0), [7]) == Mailbox([], false, 0, [[7]], 1);
    var w2 := Discover(w1, Mailbox([], false, 0, [[7]], 1));
    assert SetOf([[7]]) == {[7]};
    w := Deliver(w2, 0);
  }

  ghost function CutOffs(w: World): iset<World> {
    iset w': World |
      && Reachable(w') && w'.a == w.a && w'.next == w.next
      && !w'.b.failed && At(PAIR, w') == Enlisted(true)
  }

  /** A third node claims A's endpoint at B. */
  lemma CutOff(w: World) returns (w': World)
    requires w in Heard(Enlisted(false))
    ensures w' in CutOffs(w)
  {
    var step := Others(Discovers([3], [1], true));
    w' := Next(PAIR, w, step);
    Extend(w, step);
    ActMovesSession(B, w.b, step.action, [1]);
  }

  /** A leaves its group, drops B and finds it again. */
  lemma LeaveAndReturn(w: World) returns (w': World)
    requires Mail(w, true, Mailbox([MEMBER], true, 1, [[7]], 1))
    ensures Onward(w, w', true, Mailbox([MEMBER] + [PARTING] + [ALONE], true, 1, [], 2))
  {
    var w1 := Resign(w, true, Mailbox([MEMBER], true, 1, [[7]], 1), [7]);
    var m1 := Mailbox([MEMBER] + [PARTING], true, 2, [], 2);
    assert Leaving(Mailbox([MEMBER], true, 1, [[7]], 1), [7]) == m1;
    var w2 := Expire(w1, m1);
    w' := Discover(w2, Closed(m1));
  }

  /**
   B cuts A off, and so it ignores it when A leaves its group.  Nothing is lost,
   and A's next HELLO arrives; but B lists A in a group that A is not in, and has
   reported ENTER twice with no EXIT in between.
   */
  lemma CutOffMisleads() returns (w: World)
    ensures w in Misled() && w.a.own == []
    ensures !NodeRuns.Sensible(w.b.outbox, A.id)
  {
    var w3 := MeetAsMember();
    var w4 := CutOff(w3);
    var w5 := LeaveAndReturn(w4);
    var w6 := Deliver(w5, 1);
    assert At(PAIR, w6) == Enlisted(true);
    w := Deliver(w6, 2);
    NodeRuns.PhaseMeaning(w.b.outbox, A.id);
  }
}
