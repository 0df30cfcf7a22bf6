/**
 What a node holds and reports about one peer, as a small session machine.
 The whole node, with its other peers, its groups and its elections, is shown
 to move each peer's session exactly as this machine does.
 */
module NodeSessions {
  import opened Basics
  import opened NodeRules
  import opened CStrings
  import Rules = ElectionRules

  // ---- the application's view of one peer ----

  /** Where the events so far leave the application: between EXIT and ENTER, between ENTER and EXIT, or confused. */
  datatype Phase = Outside | Inside | Broken

  function Observe(phase: Phase, e: Event, id: Id): Phase {
    match e
    case Enter(x) => if x != id then phase else if phase.Outside? then Inside else Broken
    case Exit(x) => if x != id || phase.Broken? then phase else Outside
    case Joined(x, _) => if x != id || phase.Inside? then phase else Broken
    case Left(x, _) => if x != id || phase.Inside? then phase else Broken
    case Whispered(x, _) => if x != id || phase.Inside? then phase else Broken
    case Shouted(x, _, _) => if x != id || phase.Inside? then phase else Broken
    case Elected(_, _) => phase
  }

  function PhaseOf(events: seq<Event>, id: Id): Phase {
    if events == [] then Outside
    else Observe(PhaseOf(events[..|events| - 1], id), events[|events| - 1], id)
  }

  // ---- the session ----

  predicate Lists(v: NodeView, g: Name, id: Id) {
    g in v.groups && id in v.groups[g].members
  }

  /** The groups in which a node lists a peer. */
  function Listed(v: NodeView, id: Id): set<Name> {
    set g | g in v.groups && Lists(v, g, id)
  }

  /** A peer without the counter of what we sent it. */
  function Still(p: PeerView): PeerView {
    p.(sent := 0)
  }

  datatype Session = Session(peer: Option<PeerView>, groups: set<Name>, phase: Phase)

  function SessionOf(v: NodeView, id: Id): Session {
    Session(if id in v.peers then Some(Still(v.peers[id])) else None, Listed(v, id), PhaseOf(v.outbox, id))
  }

  predicate Ready(s: Session) {
    s.peer.Some? && s.peer.value.ready
  }

  /** The peer is gone, from the table, from every group and from the application. */
  function Removed(s: Session): Session {
    Session(None, {}, if s.phase.Broken? then Broken else Outside)
  }

  /** A peer that shares an endpoint with a new one is cut off, and stays in the tables. */
  function Purged(s: Session, endpoint: Octets): Session {
    if s.peer.Some? && Endpoint(s.peer.value) == endpoint then s.(peer := Some(Disconnected(s.peer.value))) else s
  }

  function PurgedBy(s: Session, endpoint: Option<Octets>): Session {
    match endpoint
    case None => s
    case Some(e) => Purged(s, e)
  }

  function Found(s: Session, endpoint: Octets, connects: bool): Session {
    if s.peer.Some? || !connects then s
    else s.(peer := Some(Connected(NEW_PEER, endpoint)))
  }

  function GreetSession(me: Self, s: Session, endpoint: Octets, connects: bool): Session {
    if s.peer.Some? && !s.peer.value.ready && Endpoint(s.peer.value) == me.endpoint then s
    else
      var found := Found(if Ready(s) then Removed(s) else s, endpoint, connects);
      if found.peer.Some? then found.(peer := Some(found.peer.value.(ready := true))) else found
  }

  /** An event of this peer other than ENTER and EXIT. */
  function Talk(phase: Phase): Phase {
    if phase.Inside? then phase else Broken
  }

  function ProcessSession(me: Self, s: Session, body: Body): Session
    requires s.peer.Some?
  {
    match body
    case Hello(_, groups, status) =>
      Session(Some(s.peer.value.(status := status)), s.groups + SetOf(groups), if s.phase.Outside? then Inside else Broken)
    case Whisper(_) => s.(phase := Talk(s.phase))
    case Shout(_, _) => s.(phase := Talk(s.phase))
    case Join(g, _) =>
      Session(Some(s.peer.value.(status := NextByte(s.peer.value.status))), s.groups + {g}, Talk(s.phase))
    case Leave(g, _) =>
      Session(Some(s.peer.value.(status := NextByte(s.peer.value.status))), s.groups - {g}, Talk(s.phase))
    case Goodbye => if me.gossip then Removed(s) else s
    case Ping => s
    case PingOk => s
    case Elect(_, _) => s
    case Leader(_, _) => s
  }

  function GreetedSession(me: Self, s: Session, p: Packet, connects: bool): Session {
    if p.body.Hello? then GreetSession(me, s, p.body.endpoint, connects) else s
  }

  predicate AcceptsSession(me: Self, s: Session, p: Packet, connects: bool) {
    var greeted := GreetedSession(me, s, p, connects);
    Ready(greeted) && Wanted(greeted.peer.value, p.body) == p.sequence
  }

  function CheckedSession(s: Session, body: Body): Session
    requires s.peer.Some?
  {
    s.(peer := Some(s.peer.value.(want := Wanted(s.peer.value, body))))
  }

  /** The machine's step for a message of the peer itself. */
  function ReceiveSession(me: Self, s: Session, p: Packet, connects: bool): Session {
    var greeted := GreetedSession(me, s, p, connects);
    if !Ready(greeted) then greeted
    else
      var checked := CheckedSession(greeted, p.body);
      if checked.peer.value.want != p.sequence then Removed(checked) else ProcessSession(me, checked, p.body)
  }

  /** The accepted message's status differs from the count we keep. */
  predicate Misfits(s: Session, body: Body) {
    && s.peer.Some?
    && ((body.Join? && NextByte(s.peer.value.status) != body.status)
        || (body.Leave? && NextByte(s.peer.value.status) != body.status))
  }

  /** The action makes a new peer, other than `id`, on this endpoint. */
  function NewEndpoint(v: NodeView, a: Action, id: Id): Option<Octets> {
    match a
    case Discovers(x, endpoint, _) => if x != id && x !in v.peers then Some(endpoint) else None
    case Receives(x, p, _) =>
      if x != id && p.body.Hello? && (x in v.peers ==> v.peers[x].ready) then Some(p.body.endpoint) else None
    case _ => None
  }

  /** The machine's step for any action of the node. */
  function StepSession(me: Self, v: NodeView, a: Action, id: Id): Session {
    var s := SessionOf(v, id);
    if v.failed then s
    else if a.Receives? && a.id == id then ReceiveSession(me, s, a.packet, a.connects)
    else if a.Discovers? && a.id == id then Found(s, a.endpoint, a.connects)
    else if a.Expires? && a.id == id then (if s.peer.Some? then Removed(s) else s)
    else
      PurgedBy(s, NewEndpoint(v, a, id))
  }

  // ---- operations that leave every session alone ----

  ghost predicate SameSession(v: NodeView, w: NodeView, id: Id) {
    SessionOf(w, id) == SessionOf(v, id)
  }

  /** What a node may become while every session stays as it is. */
  ghost function Undisturbed(v: NodeView): iset<NodeView> {
    iset w: NodeView | w.own == v.own && w.status == v.status && w.failed == v.failed && forall id :: SameSession(v, w, id)
  }

  ghost predicate Quiet(v: NodeView, w: NodeView) {
    w in Undisturbed(v)
  }

  lemma ListedSame(v: NodeView, w: NodeView, id: Id)
    requires forall g :: Lists(w, g, id) <==> Lists(v, g, id)
    ensures Listed(w, id) == Listed(v, id)
  {
    forall g ensures g in Listed(w, id) <==> g in Listed(v, id) {
      assert Lists(w, g, id) <==> Lists(v, g, id);
    }
  }

  lemma QuietSend(v: NodeView, to: set<Id>, body: Body)
    ensures Quiet(v, SendAll(v, to, body))
  {
    var w := SendAll(v, to, body);
    forall id ensures SameSession(v, w, id) {
      ListedSame(v, w, id);
    }
  }

  lemma TellPhase(events: seq<Event>, e: Event, id: Id)
    ensures PhaseOf(events + [e], id) == Observe(PhaseOf(events, id), e, id)
  {
    assert (events + [e])[..|events|] == events;
  }

  lemma QuietGroup(v: NodeView, g: Name, group: GroupView)
    requires group.members == GroupOf(v, g).members
    ensures Quiet(v, v.(groups := v.groups[g := group]))
  {
    var w := v.(groups := v.groups[g := group]);
    forall id ensures SameSession(v, w, id) {
      ListedSame(v, w, id);
    }
  }

  lemma ElectedSession(v: NodeView, leader: Id, g: Name, id: Id)
    ensures SameSession(v, Tell(v, Elected(leader, g)), id)
  {
    ListedSame(v, Tell(v, Elected(leader, g)), id);
    TellPhase(v.outbox, Elected(leader, g), id);
  }

  lemma QuietElected(v: NodeView, leader: Id, g: Name)
    ensures Quiet(v, Tell(v, Elected(leader, g)))
  {
    forall id ensures SameSession(v, Tell(v, Elected(leader, g)), id) {
      ElectedSession(v, leader, g, id);
    }
  }

  lemma QuietTwice(u: NodeView, v: NodeView, w: NodeView)
    requires Quiet(u, v) && Quiet(v, w)
    ensures Quiet(u, w)
  {
    forall id ensures SameSession(u, w, id) {
      assert SameSession(u, v, id) && SameSession(v, w, id);
    }
  }

  lemma QuietStart(me: Self, v: NodeView, g: Name)
    ensures Quiet(v, StartElection(me, v, g))
  {
    var group := GroupOf(v, g).(election := Some(Rules.Started(me.id)), leader := None);
    var v1 := v.(groups := v.groups[g := group]);
    QuietGroup(v, g, group);
    QuietSend(v1, group.members, Elect(Fixed(g), me.id));
    QuietTwice(v, v1, StartElection(me, v, g));
  }

  lemma QuietAlone(me: Self, v: NodeView, g: Name)
    ensures Quiet(v, LeadAlone(me, v, g))
  {
    var group := GroupOf(v, g).(election := None, leader := None);
    var v1 := v.(groups := v.groups[g := group]);
    QuietGroup(v, g, group);
    QuietElected(v1, me.id, g);
    QuietTwice(v, v1, LeadAlone(me, v, g));
  }

  lemma QuietRestart(me: Self, v: NodeView, id: Id, g: Name)
    ensures Quiet(v, Restart(me, v, id, g))
  {
    var v1 := RequireGroup(v, g);
    QuietGroup(v, g, GroupOf(v, g));
    assert Quiet(v, v1) by {
      if g in v.groups {
        assert v.groups[g := v.groups[g]] == v.groups;
      }
    }
    QuietStart(me, v1, g);
    QuietAlone(me, v1, g);
    QuietTwice(v, v1, Restart(me, v, id, g));
  }

  lemma {:induction false} QuietRestartAll(me: Self, v: NodeView, id: Id, names: seq<Name>)
    ensures Quiet(v, RestartAll(me, v, id, names))
    decreases |names|
  {
    if names != [] {
      var v1 := Restart(me, v, id, names[0]);
      QuietRestart(me, v, id, names[0]);
      QuietRestartAll(me, v1, id, names[1..]);
      QuietTwice(v, v1, RestartAll(me, v, id, names));
    }
  }

  lemma RestartAllKeepsPeer(me: Self, v: NodeView, id: Id, names: seq<Name>, x: Id)
    ensures x in RestartAll(me, v, id, names).peers <==> x in v.peers
  {
    QuietRestartAll(me, v, id, names);
    assert SameSession(v, RestartAll(me, v, id, names), x);
  }

  lemma {:induction false} QuietCasts(v: NodeView, g: Name, casts: seq<Rules.Cast<Id>>)
    ensures Quiet(v, SendCasts(v, g, casts))
    decreases |casts|
  {
    if casts != [] {
      var v1 := SendAll(v, casts[0].to, TokenBody(g, casts[0].token));
      QuietSend(v, casts[0].to, TokenBody(g, casts[0].token));
      QuietCasts(v1, g, casts[1..]);
      QuietTwice(v, v1, SendCasts(v, g, casts));
    }
  }

  lemma QuietElect(me: Self, v: NodeView, id: Id, g: Name, challenger: Id)
    ensures Quiet(v, OnElect(me, v, id, g, challenger))
  {
    var out := Rules.OnElect(StrLess, me.id, GroupOf(v, g).members, GroupOf(v, g).election, id, challenger);
    var group := GroupOf(v, g).(election := Some(out.record));
    var v1 := v.(groups := v.groups[g := group]);
    QuietGroup(v, g, group);
    QuietCasts(v1, g, out.casts);
    QuietTwice(v, v1, SendCasts(v1, g, out.casts));
  }

  lemma QuietLeader(me: Self, v: NodeView, g: Name, leader: Id)
    ensures Quiet(v, OnLeader(me, v, g, leader))
  {
    var out := Rules.OnLeader(me.id, GroupOf(v, g).members, GroupOf(v, g).election, leader);
    var follows := out.verdict.Some? && leader != me.id && leader in v.peers;
    var group := GroupOf(v, g).(election := out.election, leader := if follows then Some(leader) else GroupOf(v, g).leader);
    var v1 := v.(groups := v.groups[g := group]);
    var v2 := SendCasts(v1, g, out.casts);
    QuietGroup(v, g, group);
    QuietCasts(v1, g, out.casts);
    QuietTwice(v, v1, v2);
    QuietElected(v2, leader, g);
    QuietTwice(v, v2, Tell(v2, Elected(leader, g)));
  }

  // ---- operations on one peer ----

  /** `w` differs from `v` in the session of `id` only, which becomes `s`. */
  ghost predicate Moves(v: NodeView, w: NodeView, id: Id, s: Session) {
    && SessionOf(w, id) == s
    && (forall x :: x != id ==> SameSession(v, w, x))
  }

  lemma MovesTwice(u: NodeView, v: NodeView, w: NodeView, id: Id, s: Session, t: Session)
    requires Moves(u, v, id, s) && Moves(v, w, id, t)
    ensures Moves(u, w, id, t)
  {
    forall x | x != id ensures SameSession(u, w, x) {
      assert SameSession(u, v, x) && SameSession(v, w, x);
    }
  }

  lemma QuietMoves(v: NodeView, w: NodeView, id: Id)
    requires Quiet(v, w)
    ensures Moves(v, w, id, SessionOf(v, id))
  {
    assert SameSession(v, w, id);
  }

  lemma PeerMoves(v: NodeView, id: Id, p: PeerView)
    ensures Moves(v, v.(peers := v.peers[id := p]), id, SessionOf(v, id).(peer := Some(Still(p))))
  {
    var w := v.(peers := v.peers[id := p]);
    forall x ensures Listed(w, x) == Listed(v, x) {
      ListedSame(v, w, x);
    }
  }

  lemma TellMoves(v: NodeView, e: Event, id: Id)
    requires forall x :: x != id ==> Observe(PhaseOf(v.outbox, x), e, x) == PhaseOf(v.outbox, x)
    ensures Moves(v, Tell(v, e), id, SessionOf(v, id).(phase := Observe(PhaseOf(v.outbox, id), e, id)))
  {
    var w := Tell(v, e);
    forall x
      ensures Listed(w, x) == Listed(v, x)
      ensures PhaseOf(w.outbox, x) == Observe(PhaseOf(v.outbox, x), e, x)
    {
      ListedSame(v, w, x);
      TellPhase(v.outbox, e, x);
    }
  }

  /** Changing one group's membership of one peer. */
  lemma GroupMoves(v: NodeView, g: Name, group: GroupView, id: Id)
    requires group.members - {id} == GroupOf(v, g).members - {id}
    ensures Moves(v, v.(groups := v.groups[g := group]), id,
                  SessionOf(v, id).(groups := if id in group.members then Listed(v, id) + {g} else Listed(v, id) - {g}))
  {
    var w := v.(groups := v.groups[g := group]);
    forall x | x != id ensures SameSession(v, w, x) {
      assert x in group.members - {id} <==> x in GroupOf(v, g).members - {id};
      ListedSame(v, w, x);
    }
    var listed := if id in group.members then Listed(v, id) + {g} else Listed(v, id) - {g};
    forall h ensures h in Listed(w, id) <==> h in listed {
      assert Lists(w, h, id) <==> h in listed;
    }
  }

  lemma RemoveMoves(me: Self, v: NodeView, id: Id)
    ensures Moves(v, RemovePeer(me, v, id), id, Removed(SessionOf(v, id)))
  {
    var v1 := Tell(v, Exit(id));
    var v2 := RestartAll(me, v1, id, v.own);
    var w := RemovePeer(me, v, id);
    TellMoves(v, Exit(id), id);
    QuietRestartAll(me, v1, id, v.own);
    QuietMoves(v1, v2, id);
    forall x | x != id ensures SameSession(v2, w, x) {
      ListedSame(v2, w, x);
    }
    assert Listed(w, id) == {};
    assert Moves(v2, w, id, Removed(SessionOf(v2, id)));
    MovesTwice(v, v1, v2, id, SessionOf(v1, id), SessionOf(v2, id));
    MovesTwice(v, v2, w, id, SessionOf(v2, id), Removed(SessionOf(v2, id)));
  }

  lemma JoinMoves(v: NodeView, id: Id, g: Name)
    requires id in v.peers
    ensures var s := SessionOf(v, id);
            Moves(v, JoinPeerGroup(v, id, g), id,
                  Session(Some(s.peer.value.(status := NextByte(s.peer.value.status))), s.groups + {g}, Talk(s.phase)))
  {
    var group := GroupOf(v, g).(members := GroupOf(v, g).members + {id});
    var v1 := v.(groups := v.groups[g := group]);
    var v2 := SetStatus(v1, id, NextByte(v.peers[id].status));
    GroupMoves(v, g, group, id);
    PeerMoves(v1, id, v2.peers[id]);
    TellMoves(v2, Joined(id, g), id);
    MovesTwice(v, v1, v2, id, SessionOf(v1, id), SessionOf(v2, id));
    MovesTwice(v, v2, JoinPeerGroup(v, id, g), id, SessionOf(v2, id), SessionOf(JoinPeerGroup(v, id, g), id));
  }

  lemma LeaveMoves(v: NodeView, id: Id, g: Name)
    requires id in v.peers
    ensures var s := SessionOf(v, id);
            Moves(v, LeavePeerGroup(v, id, g), id,
                  Session(Some(s.peer.value.(status := NextByte(s.peer.value.status))), s.groups - {g}, Talk(s.phase)))
  {
    var group := GroupOf(v, g).(members := GroupOf(v, g).members - {id});
    var v1 := v.(groups := v.groups[g := group]);
    var v2 := SetStatus(v1, id, NextByte(v.peers[id].status));
    GroupMoves(v, g, group, id);
    PeerMoves(v1, id, v2.peers[id]);
    TellMoves(v2, Left(id, g), id);
    MovesTwice(v, v1, v2, id, SessionOf(v1, id), SessionOf(v2, id));
    MovesTwice(v, v2, LeavePeerGroup(v, id, g), id, SessionOf(v2, id), SessionOf(LeavePeerGroup(v, id, g), id));
  }

  /** A peer that joined these groups in turn, and has this status then. */
  function JoinedSession(s: Session, names: seq<Name>, status: byte): Session
    requires s.peer.Some?
  {
    Session(Some(s.peer.value.(status := status)), s.groups + SetOf(names), if names == [] then s.phase else Talk(s.phase))
  }

  lemma JoinedOneMore(s: Session, t: Session, names: seq<Name>, status: byte)
    requires names != [] && s.peer.Some? && t.peer.Some?
    requires t == JoinedSession(s, names[..1], t.peer.value.status)
    ensures JoinedSession(t, names[1..], status) == JoinedSession(s, names, status)
  {
    assert names == names[..1] + names[1..];
    assert SetOf(names) == SetOf(names[..1]) + SetOf(names[1..]);
  }

  /** Joining listed groups: the groups are added, and nothing but the status and the phase may change besides. */
  lemma {:induction false} JoinAllMoves(me: Self, v: NodeView, id: Id, names: seq<Name>)
    requires id in v.peers
    ensures var w := JoinAll(me, v, id, names);
            && id in w.peers && w.failed == v.failed
            && Moves(v, w, id, JoinedSession(SessionOf(v, id), names, w.peers[id].status))
    decreases |names|
  {
    var s, w := SessionOf(v, id), JoinAll(me, v, id, names);
    if names == [] {
      assert SetOf(names) == {};
    } else {
      var v1 := JoinPeerGroup(v, id, names[0]);
      var v2 := JoinAndStart(me, v, id, names[0]);
      JoinAndStartMoves(me, v, id, names[0]);
      JoinAllMoves(me, v2, id, names[1..]);
      assert names[..1] == [names[0]];
      JoinedOneMore(s, SessionOf(v2, id), names, w.peers[id].status);
      MovesTwice(v, v2, w, id, SessionOf(v2, id), SessionOf(w, id));
    }
  }

  lemma JoinAndStartMoves(me: Self, v: NodeView, id: Id, g: Name)
    requires id in v.peers
    ensures var w := JoinAndStart(me, v, id, g);
            && id in w.peers && w.failed == v.failed
            && Moves(v, w, id, JoinedSession(SessionOf(v, id), [g], w.peers[id].status))
  {
    var v1, w := JoinPeerGroup(v, id, g), JoinAndStart(me, v, id, g);
    JoinMoves(v, id, g);
    QuietStart(me, v1, g);
    QuietMoves(v1, w, id);
    MovesTwice(v, v1, w, id, SessionOf(v1, id), SessionOf(w, id));
    assert SetOf([g]) == {g};
  }

  lemma HelloMoves(me: Self, v: NodeView, id: Id, endpoint: Octets, groups: seq<Name>, status: byte)
    requires id in v.peers
    ensures Moves(v, OnHello(me, v, id, groups, status), id, ProcessSession(me, SessionOf(v, id), Hello(endpoint, groups, status)))
    ensures OnHello(me, v, id, groups, status).failed == v.failed
  {
    var v1 := Tell(v, Enter(id));
    var v2 := JoinAll(me, v1, id, groups);
    TellMoves(v, Enter(id), id);
    JoinAllMoves(me, v1, id, groups);
    PeerMoves(v2, id, v2.peers[id].(status := status));
    MovesTwice(v, v1, v2, id, SessionOf(v1, id), SessionOf(v2, id));
    var w := OnHello(me, v, id, groups, status);
    MovesTwice(v, v2, w, id, SessionOf(v2, id), SessionOf(w, id));
  }

  lemma ProcessMoves(me: Self, v: NodeView, id: Id, body: Body)
    requires id in v.peers
    ensures var w := Process(me, v, id, body);
            && Moves(v, w, id, ProcessSession(me, SessionOf(v, id), body))
            && w.failed == (v.failed || Misfits(SessionOf(v, id), body))
  {
    match body
    case Hello(endpoint, groups, status) => HelloMoves(me, v, id, endpoint, groups, status);
    case Whisper(content) => TellMoves(v, Whispered(id, content), id);
    case Shout(g, content) => TellMoves(v, Shouted(id, g, content), id);
    case Ping => QuietSend(v, {id}, PingOk); QuietMoves(v, SendAll(v, {id}, PingOk), id);
    case PingOk => QuietSame(v); QuietMoves(v, v, id);
    case Join(g, status) => OnJoinMoves(me, v, id, g, status);
    case Leave(g, status) => OnLeaveMoves(me, v, id, g, status);
    case Elect(g, challenger) => QuietElect(me, v, id, g, challenger); QuietMoves(v, OnElect(me, v, id, g, challenger), id);
    case Leader(g, leader) => QuietLeader(me, v, g, leader); QuietMoves(v, OnLeader(me, v, g, leader), id);
    case Goodbye =>
      QuietSame(v);
      QuietMoves(v, v, id);
      RemoveMoves(me, v, id);
      RemoveKeepsRest(me, v, id);
  }

  lemma QuietSame(v: NodeView)
    ensures Quiet(v, v)
  {
    forall x ensures SameSession(v, v, x) {}
  }

  lemma RemoveKeepsRest(me: Self, v: NodeView, id: Id)
    ensures var w := RemovePeer(me, v, id); w.own == v.own && w.status == v.status && w.failed == v.failed
  {
    QuietRestartAll(me, Tell(v, Exit(id)), id, v.own);
  }

  lemma OnJoinMoves(me: Self, v: NodeView, id: Id, g: Name, status: byte)
    requires id in v.peers
    ensures var w := OnJoin(me, v, id, g, status);
            && Moves(v, w, id, ProcessSession(me, SessionOf(v, id), Join(g, status)))
            && w.failed == (v.failed || Misfits(SessionOf(v, id), Join(g, status)))
  {
    var v1, w := JoinPeerGroup(v, id, g), OnJoin(me, v, id, g, status);
    JoinMoves(v, id, g);
    assert Quiet(v1, w.(failed := v1.failed)) by {
      QuietSame(v1);
      QuietStart(me, v1, g);
    }
    SameButFailed(v1, w, id);
    MovesTwice(v, v1, w, id, SessionOf(v1, id), SessionOf(w, id));
  }

  lemma SameButFailed(v: NodeView, w: NodeView, id: Id)
    requires Quiet(v, w.(failed := v.failed))
    ensures Moves(v, w, id, SessionOf(v, id))
  {
    var u := w.(failed := v.failed);
    forall x ensures SameSession(v, w, x) {
      assert SameSession(v, u, x);
      ListedSame(u, w, x);
    }
    assert SameSession(v, w, id);
  }

  lemma OnLeaveMoves(me: Self, v: NodeView, id: Id, g: Name, status: byte)
    requires id in v.peers
    ensures var w := OnLeave(me, v, id, g, status);
            && Moves(v, w, id, ProcessSession(me, SessionOf(v, id), Leave(g, status)))
            && w.failed == (v.failed || Misfits(SessionOf(v, id), Leave(g, status)))
  {
    var v1, w := LeavePeerGroup(v, id, g), OnLeave(me, v, id, g, status);
    LeaveMoves(v, id, g);
    assert Quiet(v1, w.(failed := v1.failed)) by {
      QuietSame(v1);
      QuietStart(me, v1, g);
      QuietAlone(me, v1, g);
    }
    SameButFailed(v1, w, id);
    MovesTwice(v, v1, w, id, SessionOf(v1, id), SessionOf(w, id));
  }

  // ---- finding peers ----

  /** Another peer `x` is left alone, or purged. */
  ghost predicate Spares(v: NodeView, w: NodeView, x: Id, endpoint: Option<Octets>) {
    SessionOf(w, x) == PurgedBy(SessionOf(v, x), endpoint)
  }

  function EndpointIfNew(v: NodeView, id: Id, endpoint: Octets): Option<Octets> {
    if id in v.peers then None else Some(endpoint)
  }

  lemma RequireMoves(me: Self, v: NodeView, id: Id, endpoint: Octets, connects: bool)
    ensures var w := RequirePeer(me, v, id, endpoint, connects);
            && w.failed == v.failed
            && SessionOf(w, id) == Found(SessionOf(v, id), endpoint, connects)
            && (forall x :: x != id ==> Spares(v, w, x, EndpointIfNew(v, id, endpoint)))
  {
    if id !in v.peers {
      var v1, w := Purge(v, endpoint), RequirePeer(me, v, id, endpoint, connects);
      var p := Connected(NEW_PEER, endpoint);
      var v2 := v1.(peers := v1.peers[id := p]);
      forall x ensures SessionOf(v1, x) == Purged(SessionOf(v, x), endpoint) {
        ListedSame(v, v1, x);
      }
      PeerMoves(v1, id, p);
      QuietSend(v2, {id}, Hello(me.announced, v.own, v.status));
      forall x ensures SessionOf(w, x) == if connects then SessionOf(v2, x) else SessionOf(v1, x) {
        if connects {
          assert SameSession(v2, w, x);
        }
      }
      forall x | x != id ensures Spares(v, w, x, EndpointIfNew(v, id, endpoint)) {
        assert SameSession(v1, v2, x);
      }
    }
  }

  /** Peer `id` is removed if it was ready. */
  ghost predicate Replaced(v: NodeView, w: NodeView, id: Id) {
    && SessionOf(w, id) == (if Ready(SessionOf(v, id)) then Removed(SessionOf(v, id)) else SessionOf(v, id))
    && (forall x :: x != id ==> SameSession(v, w, x))
  }

  /** Peer `id` is found, and is ready if it could be connected. */
  ghost predicate Readied(v: NodeView, w: NodeView, id: Id, endpoint: Octets, connects: bool) {
    var found := Found(SessionOf(v, id), endpoint, connects);
    && SessionOf(w, id) == (if found.peer.Some? then found.(peer := Some(found.peer.value.(ready := true))) else found)
    && (forall x :: x != id ==> Spares(v, w, x, EndpointIfNew(v, id, endpoint)))
  }

  lemma GreetedThrough(me: Self, v: NodeView, v1: NodeView, w: NodeView, id: Id, p: Packet, connects: bool)
    requires p.body.Hello? && !(id in v.peers && !v.peers[id].ready && Endpoint(v.peers[id]) == me.endpoint)
    requires Replaced(v, v1, id) && Readied(v1, w, id, p.body.endpoint, connects)
    ensures SessionOf(w, id) == GreetSession(me, SessionOf(v, id), p.body.endpoint, connects)
    ensures forall x :: x != id ==> Spares(v, w, x, NewEndpoint(v, Receives(id, p, connects), x))
  {
    forall x | x != id ensures Spares(v, w, x, NewEndpoint(v, Receives(id, p, connects), x)) {
      assert SameSession(v, v1, x);
      assert Spares(v1, w, x, EndpointIfNew(v1, id, p.body.endpoint));
    }
  }

  lemma ReplaceMoves(me: Self, v: NodeView, id: Id)
    ensures var w := if id in v.peers && v.peers[id].ready then RemovePeer(me, v, id) else v;
            w.failed == v.failed && Replaced(v, w, id)
  {
    QuietSame(v);
    RemoveMoves(me, v, id);
    RemoveKeepsRest(me, v, id);
  }

  lemma ReadyMoves(me: Self, v: NodeView, id: Id, endpoint: Octets, connects: bool)
    ensures var v1 := RequirePeer(me, v, id, endpoint, connects);
            var w := if id in v1.peers then v1.(peers := v1.peers[id := v1.peers[id].(ready := true)]) else v1;
            w.failed == v.failed && Readied(v, w, id, endpoint, connects)
  {
    var v1 := RequirePeer(me, v, id, endpoint, connects);
    RequireMoves(me, v, id, endpoint, connects);
    if id in v1.peers {
      var w := v1.(peers := v1.peers[id := v1.peers[id].(ready := true)]);
      PeerMoves(v1, id, v1.peers[id].(ready := true));
      forall x | x != id ensures Spares(v, w, x, EndpointIfNew(v, id, endpoint)) {
        assert Spares(v, v1, x, EndpointIfNew(v, id, endpoint)) && SameSession(v1, w, x);
      }
    }
  }

  lemma GreetMoves(me: Self, v: NodeView, id: Id, p: Packet, connects: bool)
    requires p.body.Hello?
    ensures var w := Greet(me, v, id, p.body.endpoint, connects);
            && w.failed == v.failed
            && SessionOf(w, id) == GreetSession(me, SessionOf(v, id), p.body.endpoint, connects)
            && (forall x :: x != id ==> Spares(v, w, x, NewEndpoint(v, Receives(id, p, connects), x)))
  {
    var w := Greet(me, v, id, p.body.endpoint, connects);
    if !(id in v.peers && !v.peers[id].ready && Endpoint(v.peers[id]) == me.endpoint) {
      var v1 := if id in v.peers && v.peers[id].ready then RemovePeer(me, v, id) else v;
      ReplaceMoves(me, v, id);
      ReadyMoves(me, v1, id, p.body.endpoint, connects);
      GreetedThrough(me, v, v1, w, id, p, connects);
    }
  }

  /** The accepted message's status is not the one we count. */
  predicate Fails(me: Self, s: Session, p: Packet, connects: bool) {
    AcceptsSession(me, s, p, connects) && Misfits(GreetedSession(me, s, p, connects), p.body)
  }

  /** The part of receiving that follows the ready check. */
  lemma HandleMoves(me: Self, v: NodeView, id: Id, p: Packet)
    requires id in v.peers
    ensures var s, checked := SessionOf(v, id), Checked(v, id, p.body);
            var w := if checked.peers[id].want != p.sequence then RemovePeer(me, checked, id) else Process(me, checked, id, p.body);
            && Moves(v, w, id,
                     if Wanted(s.peer.value, p.body) != p.sequence then Removed(CheckedSession(s, p.body))
                     else ProcessSession(me, CheckedSession(s, p.body), p.body))
            && w.failed == (v.failed || (Wanted(s.peer.value, p.body) == p.sequence && Misfits(s, p.body)))
  {
    var checked := Checked(v, id, p.body);
    PeerMoves(v, id, checked.peers[id]);
    var t := SessionOf(checked, id);
    if checked.peers[id].want != p.sequence {
      RemoveMoves(me, checked, id);
      RemoveKeepsRest(me, checked, id);
      MovesTwice(v, checked, RemovePeer(me, checked, id), id, t, Removed(t));
    } else {
      ProcessMoves(me, checked, id, p.body);
      MovesTwice(v, checked, Process(me, checked, id, p.body), id, t, ProcessSession(me, t, p.body));
    }
  }

  lemma ReceiveMoves(me: Self, v: NodeView, id: Id, p: Packet, connects: bool)
    ensures var s, w := SessionOf(v, id), Receive(me, v, id, p, connects);
            && SessionOf(w, id) == ReceiveSession(me, s, p, connects)
            && (forall x :: x != id ==> Spares(v, w, x, NewEndpoint(v, Receives(id, p, connects), x)))
            && w.failed == (v.failed || Fails(me, s, p, connects))
  {
    var v1, w := Greeted(me, v, id, p, connects), Receive(me, v, id, p, connects);
    if p.body.Hello? {
      GreetMoves(me, v, id, p, connects);
    } else {
      forall x | x != id ensures Spares(v, v1, x, NewEndpoint(v, Receives(id, p, connects), x)) {}
    }
    if id in v1.peers && v1.peers[id].ready {
      HandleMoves(me, v1, id, p);
      forall x | x != id ensures Spares(v, w, x, NewEndpoint(v, Receives(id, p, connects), x)) {
        assert Spares(v, v1, x, NewEndpoint(v, Receives(id, p, connects), x));
        assert SameSession(v1, w, x);
      }
    }
  }

  /** Whatever the node does, it moves each peer's session as the machine says. */
  lemma ActMovesSession(me: Self, v: NodeView, a: Action, id: Id)
    ensures SessionOf(Act(me, v, a), id) == StepSession(me, v, a, id)
    ensures Act(me, v, a).failed == (v.failed || (a.Receives? && Fails(me, SessionOf(v, a.id), a.packet, a.connects)))
  {
    var w := Act(me, v, a);
    if !v.failed {
      match a
      case Receives(x, p, connects) =>
        ReceiveMoves(me, v, x, p, connects);
        assert x != id ==> Spares(v, w, id, NewEndpoint(v, a, id));
      case Discovers(x, endpoint, connects) =>
        RequireMoves(me, v, x, endpoint, connects);
        assert x != id ==> Spares(v, w, id, EndpointIfNew(v, x, endpoint));
      case Expires(x) =>
        RemoveMoves(me, v, x);
        RemoveKeepsRest(me, v, x);
        assert x in v.peers && x != id ==> SameSession(v, w, id);
      case Contests(g) =>
        QuietContest(v, g);
        assert SameSession(v, w, id);
      case _ =>
        ActSendsOnly(me, v, a, id);
    }
  }

  lemma QuietContest(v: NodeView, g: Name)
    ensures Quiet(v, ApiContest(v, g))
  {
    var group := GroupOf(v, g).(contest := true);
    QuietGroup(v, g, group);
    assert ApiContest(v, g) == v.(groups := v.groups[g := group]) by {
      assert v.groups[g := NEW_GROUP][g := group] == v.groups[g := group];
    }
  }

  lemma ActSendsOnly(me: Self, v: NodeView, a: Action, id: Id)
    requires a.Pokes? || a.Whispers? || a.Shouts? || a.Joins? || a.Leaves? || a.Stops?
    ensures SessionOf(Act(me, v, a), id) == SessionOf(v, id) && Act(me, v, a).failed == v.failed
  {
    var v1 := match a case Joins(g) => v.(own := v.own + [g], status := NextByte(v.status))
                      case Leaves(g) => v.(status := NextByte(v.status))
                      case _ => v;
    var to := match a case Pokes(x) => {x} case Whispers(x, _) => {x}
                      case Shouts(g, _) => GroupOf(v, g).members case _ => v1.peers.Keys;
    var body := match a case Pokes(_) => Ping case Whispers(_, content) => Whisper(content)
                        case Shouts(g, content) => Shout(Fixed(g), content)
                        case Joins(g) => Join(Fixed(g), v1.status)
                        case Leaves(g) => Leave(Fixed(g), v1.status) case _ => Goodbye;
    QuietSend(v1, to, body);
    assert SameSession(v1, SendAll(v1, to, body), id);
    ListedSame(v, v1, id);
    ListedSame(v, Act(me, v, a), id);
  }
}
