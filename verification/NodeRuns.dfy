/** Every run of one node: its tables stay consistent, and its events make sense to the application. */
module NodeRuns {
  import opened Basics
  import opened Runs
  import opened NodeRules
  import opened NodeSessions

  ghost predicate Acts(me: Self, v: NodeView, a: Action, w: NodeView) {
    w == Act(me, v, a)
  }

  /** A run of a node from its start. */
  ghost predicate IsNodeRun(me: Self, states: seq<NodeView>, actions: seq<Action>) {
    && IsTrace((v, a, w) => Acts(me, v, a, w), states, actions)
    && states[0] == NEW_NODE
  }

  // ---- referential integrity ----

  predicate ListedIsKnown(s: Session) {
    s.groups != {} ==> s.peer.Some?
  }

  lemma StaysKnown(me: Self, v: NodeView, a: Action, id: Id)
    requires ListedIsKnown(SessionOf(v, id))
    ensures ListedIsKnown(SessionOf(Act(me, v, a), id))
  {
    ActMovesSession(me, v, a, id);
  }

  /** Every member of every group is in the peer table, in every state the node can reach. */
  lemma MembersAreKnown(me: Self, states: seq<NodeView>, actions: seq<Action>, n: nat, g: Name)
    requires IsNodeRun(me, states, actions) && n < |states|
    ensures GroupOf(states[n], g).members <= states[n].peers.Keys
  {
    forall id | id in GroupOf(states[n], g).members ensures id in states[n].peers {
      var inv: NodeView -> bool := v => ListedIsKnown(SessionOf(v, id));
      assert SessionOf(NEW_NODE, id).groups == {};
      forall v, a, w | inv(v) && Acts(me, v, a, w) ensures inv(w) {
        StaysKnown(me, v, a, id);
      }
      Induction(inv, (v, a, w) => Acts(me, v, a, w), states, actions, 0, n);
      assert inv(states[n]);
      assert g in Listed(states[n], id);
    }
  }

  // ---- session events ----

  /** The application sees the peer between ENTER and EXIT exactly while it is ready. */
  predicate InStep(s: Session) {
    && !s.phase.Broken?
    && (s.phase.Inside? <==> Ready(s))
  }

  /** The action cuts off ready peer `id` because another peer claims its endpoint. */
  predicate CutsOff(v: NodeView, a: Action, id: Id) {
    && !v.failed
    && id in v.peers && v.peers[id].ready && v.peers[id].connected
    && NewEndpoint(v, a, id) == Some(v.peers[id].endpoint)
  }

  /** One action keeps the application in step with the peer exactly when it does not cut it off. */
  lemma StepDiscipline(me: Self, v: NodeView, a: Action, id: Id)
    requires InStep(SessionOf(v, id))
    ensures InStep(SessionOf(Act(me, v, a), id)) <==> !CutsOff(v, a, id)
  {
    ActMovesSession(me, v, a, id);
    SessionDiscipline(me, v, a, id);
  }

  lemma SessionDiscipline(me: Self, v: NodeView, a: Action, id: Id)
    requires InStep(SessionOf(v, id))
    ensures InStep(StepSession(me, v, a, id)) <==> !CutsOff(v, a, id)
  {
    if a.Receives? && a.id == id {
      ReceiveInStep(me, SessionOf(v, id), a.packet, a.connects);
    }
  }

  lemma ReceiveInStep(me: Self, s: Session, p: Packet, connects: bool)
    requires InStep(s)
    ensures InStep(ReceiveSession(me, s, p, connects))
  {
    var greeted := GreetedSession(me, s, p, connects);
    assert p.body.Hello? && greeted != s ==> greeted.phase.Outside?;
  }

  ghost predicate NeverCutOff(states: seq<NodeView>, actions: seq<Action>, id: Id, n: nat) {
    forall i :: 0 <= i < n && i < |actions| && i < |states| ==> !CutsOff(states[i], actions[i], id)
  }

  ghost predicate InStepTo(states: seq<NodeView>, id: Id, n: nat) {
    forall m :: 0 <= m <= n < |states| ==> InStep(SessionOf(states[m], id))
  }

  /** Over a run, the application is in step with the peer in every state so far exactly if no action cut the peer off. */
  lemma {:induction false} Discipline(me: Self, states: seq<NodeView>, actions: seq<Action>, n: nat, id: Id)
    requires IsNodeRun(me, states, actions) && n < |states|
    ensures InStepTo(states, id, n) <==> NeverCutOff(states, actions, id, n)
  {
    if n > 0 {
      Discipline(me, states, actions, n - 1, id);
      assert StepAt((v, a, w) => Acts(me, v, a, w), states, actions, n - 1);
      if InStep(SessionOf(states[n - 1], id)) {
        StepDiscipline(me, states[n - 1], actions[n - 1], id);
      }
    }
  }

  // ---- the events themselves ----

  /** A HELLO takes up a peer that is not ready, while the application has it between ENTER and EXIT. */
  predicate Confuses(me: Self, v: NodeView, a: Action, id: Id) {
    && !v.failed && a.Receives? && a.id == id && a.packet.body.Hello? && a.packet.sequence == 1
    && id in v.peers && !v.peers[id].ready && Endpoint(v.peers[id]) != me.endpoint
    && PhaseOf(v.outbox, id).Inside?
  }

  /** Unless the events are broken, a ready peer is inside, and a peer inside is known and ready, or cut off. */
  predicate Accounted(s: Session) {
    !s.phase.Broken? ==>
      && (Ready(s) ==> s.phase.Inside?)
      && (s.phase.Inside? ==> s.peer.Some? && (s.peer.value.ready || !s.peer.value.connected))
  }

  lemma StepConfuses(me: Self, v: NodeView, a: Action, id: Id)
    requires Accounted(SessionOf(v, id))
    ensures Accounted(SessionOf(Act(me, v, a), id))
    ensures SessionOf(Act(me, v, a), id).phase.Broken? <==> SessionOf(v, id).phase.Broken? || Confuses(me, v, a, id)
  {
    ActMovesSession(me, v, a, id);
    SessionConfuses(me, v, a, id);
  }

  lemma SessionConfuses(me: Self, v: NodeView, a: Action, id: Id)
    requires Accounted(SessionOf(v, id))
    ensures Accounted(StepSession(me, v, a, id))
    ensures StepSession(me, v, a, id).phase.Broken? <==> SessionOf(v, id).phase.Broken? || Confuses(me, v, a, id)
  {
    if !v.failed && a.Receives? && a.id == id {
      ReceiveConfuses(me, v, a, id);
    }
  }

  lemma ReceiveConfuses(me: Self, v: NodeView, a: Action, id: Id)
    requires Accounted(SessionOf(v, id)) && !v.failed && a.Receives? && a.id == id
    ensures var t := ReceiveSession(me, SessionOf(v, id), a.packet, a.connects);
            Accounted(t) && (t.phase.Broken? <==> SessionOf(v, id).phase.Broken? || Confuses(me, v, a, id))
  {
  }

  /** What a cut-off leaves: the peer is known and neither ready nor connected, and the application is inside. */
  lemma CutOffLeaves(me: Self, v: NodeView, a: Action, id: Id)
    requires InStep(SessionOf(v, id)) && CutsOff(v, a, id)
    ensures var w := Act(me, v, a);
            && !w.failed && id in w.peers && !w.peers[id].ready && !w.peers[id].connected
            && PhaseOf(w.outbox, id).Inside?
  {
    ActMovesSession(me, v, a, id);
  }

  ghost predicate NeverConfused(me: Self, states: seq<NodeView>, actions: seq<Action>, id: Id, n: nat) {
    forall i :: 0 <= i < n && i < |actions| && i < |states| ==> !Confuses(me, states[i], actions[i], id)
  }

  // ---- what being in step means for the list of events ----

  predicate Speaks(e: Event, id: Id) {
    match e
    case Joined(x, _) => x == id
    case Left(x, _) => x == id
    case Whispered(x, _) => x == id
    case Shouted(x, _, _) => x == id
    case _ => false
  }

  /** Event `i` is an ENTER of the peer, and there is no EXIT of it from there up to `n`. */
  ghost predicate OpenSince(events: seq<Event>, id: Id, i: nat, n: nat) {
    && i < n <= |events| && events[i] == Enter(id)
    && (forall k :: i < k < n ==> events[k] != Exit(id))
  }

  /** The peer is between ENTER and EXIT at position `n`. */
  ghost predicate Open(events: seq<Event>, id: Id, n: nat) {
    exists i :: OpenSince(events, id, i, n)
  }

  /** At position `j` the peer speaks only between ENTER and EXIT, and enters only outside. */
  ghost predicate SensibleAt(events: seq<Event>, id: Id, j: int) {
    0 <= j < |events| ==>
      && (Speaks(events[j], id) ==> Open(events, id, j))
      && (events[j] == Enter(id) ==> !Open(events, id, j))
  }

  /**
   Every JOIN, LEAVE, WHISPER and SHOUT of the peer comes after an ENTER with no
   EXIT in between, and between two ENTERs there is an EXIT.
   */
  ghost predicate Sensible(events: seq<Event>, id: Id) {
    forall j :: SensibleAt(events, id, j)
  }

  lemma OpenInPrefix(events: seq<Event>, id: Id, m: nat, n: nat)
    requires m <= n <= |events|
    ensures Open(events[..n], id, m) <==> Open(events, id, m)
  {
    if i :| OpenSince(events[..n], id, i, m) {
      assert forall k :: 0 <= k < m ==> events[..n][k] == events[k];
      assert OpenSince(events, id, i, m);
    }
    if i :| OpenSince(events, id, i, m) {
      assert forall k :: 0 <= k < m ==> events[..n][k] == events[k];
      assert OpenSince(events[..n], id, i, m);
    }
  }

  /** One more event. */
  lemma OpenNext(events: seq<Event>, id: Id)
    requires events != []
    ensures var n := |events| - 1;
            Open(events, id, |events|) <==> events[n] == Enter(id) || (events[n] != Exit(id) && Open(events, id, n))
  {
    var n := |events| - 1;
    if events[n] == Enter(id) {
      assert OpenSince(events, id, n, |events|);
    } else if events[n] != Exit(id) {
      if i :| OpenSince(events, id, i, n) {
        assert OpenSince(events, id, i, |events|);
      }
      if i :| OpenSince(events, id, i, |events|) {
        assert OpenSince(events, id, i, n);
      }
    }
  }

  lemma SensiblePrefix(events: seq<Event>, id: Id)
    requires events != []
    ensures var n := |events| - 1; Sensible(events, id) <==> Sensible(events[..n], id) && SensibleAt(events, id, n)
  {
    var n := |events| - 1;
    forall j | 0 <= j < n ensures SensibleAt(events, id, j) <==> SensibleAt(events[..n], id, j) {
      OpenInPrefix(events, id, j, n);
    }
    if Sensible(events, id) {
      forall j ensures SensibleAt(events[..n], id, j) {
        assert SensibleAt(events, id, j);
      }
      assert SensibleAt(events, id, n);
    }
    if Sensible(events[..n], id) && SensibleAt(events, id, n) {
      forall j ensures SensibleAt(events, id, j) {
        assert SensibleAt(events[..n], id, j);
      }
    }
  }

  /** The phase is broken exactly if the list makes no sense; otherwise it tells whether an ENTER is open at its end. */
  lemma {:induction false} PhaseMeaning(events: seq<Event>, id: Id)
    ensures PhaseOf(events, id).Broken? <==> !Sensible(events, id)
    ensures !PhaseOf(events, id).Broken? ==> (PhaseOf(events, id).Inside? <==> Open(events, id, |events|))
    decreases |events|
  {
    if events != [] {
      var n := |events| - 1;
      PhaseMeaning(events[..n], id);
      SensiblePrefix(events, id);
      OpenInPrefix(events, id, n, n);
      OpenNext(events, id);
    }
  }

  /**
   After any run, the events about a peer make sense if and only if no action so
   far confused the application about it.
   */
  lemma EventsMakeSense(me: Self, states: seq<NodeView>, actions: seq<Action>, n: nat, id: Id)
    requires IsNodeRun(me, states, actions) && n < |states|
    ensures Sensible(states[n].outbox, id) <==> NeverConfused(me, states, actions, id, n)
  {
    RunConfuses(me, states, actions, n, id);
    PhaseMeaning(states[n].outbox, id);
  }

  lemma {:induction false} RunConfuses(me: Self, states: seq<NodeView>, actions: seq<Action>, n: nat, id: Id)
    requires IsNodeRun(me, states, actions) && n < |states|
    ensures Accounted(SessionOf(states[n], id))
    ensures !PhaseOf(states[n].outbox, id).Broken? <==> NeverConfused(me, states, actions, id, n)
  {
    if n > 0 {
      RunConfuses(me, states, actions, n - 1, id);
      assert StepAt((v, a, w) => Acts(me, v, a, w), states, actions, n - 1);
      StepConfuses(me, states[n - 1], actions[n - 1], id);
    }
  }

  /** In particular they make sense after every run that never cuts the peer off. */
  lemma UncutEventsMakeSense(me: Self, states: seq<NodeView>, actions: seq<Action>, n: nat, id: Id)
    requires IsNodeRun(me, states, actions) && n < |states| && NeverCutOff(states, actions, id, n)
    ensures Sensible(states[n].outbox, id)
  {
    Discipline(me, states, actions, n, id);
    PhaseMeaning(states[n].outbox, id);
  }

  /** Once a peer in step has been cut off, a HELLO of its own makes the node report a second ENTER with no EXIT before it. */
  lemma CutOffBreaksDiscipline(me: Self, v: NodeView, a: Action, id: Id, p: Packet, connects: bool)
    requires InStep(SessionOf(v, id)) && CutsOff(v, a, id)
    requires me.endpoint != [] && p.body.Hello? && p.sequence == 1
    ensures !Sensible(Act(me, Act(me, v, a), Receives(id, p, connects)).outbox, id)
  {
    var w := Act(me, v, a);
    CutOffLeaves(me, v, a, id);
    StepConfuses(me, w, Receives(id, p, connects), id);
    PhaseMeaning(Act(me, w, Receives(id, p, connects)).outbox, id);
  }

  /** But if the peer expires before that, the application sees EXIT, and is in step again. */
  lemma ExpiryMendsCutOff(me: Self, v: NodeView, a: Action, id: Id)
    requires InStep(SessionOf(v, id)) && CutsOff(v, a, id)
    ensures !InStep(SessionOf(Act(me, v, a), id))
    ensures InStep(SessionOf(Act(me, Act(me, v, a), Expires(id)), id))
    ensures Sensible(Act(me, Act(me, v, a), Expires(id)).outbox, id)
  {
    CutOffLeaves(me, v, a, id);
    ActMovesSession(me, Act(me, v, a), Expires(id), id);
    PhaseMeaning(Act(me, Act(me, v, a), Expires(id)).outbox, id);
  }

  // ---- distinct endpoints ----

  /** Peers only ever name the endpoint the book gives them. */
  predicate ByTheBook(book: Id -> Octets, a: Action) {
    match a
    case Discovers(id, endpoint, _) => endpoint == book(id)
    case Receives(id, p, _) => p.body.Hello? ==> p.body.endpoint == book(id)
    case _ => true
  }

  ghost predicate Distinct(book: Id -> Octets) {
    forall x, y :: x != y ==> book(x) != book(y)
  }

  predicate Housed(book: Id -> Octets, s: Session, id: Id) {
    s.peer.Some? ==> s.peer.value.connected && s.peer.value.endpoint == book(id)
  }

  lemma StaysHoused(book: Id -> Octets, me: Self, v: NodeView, a: Action, id: Id)
    requires Distinct(book) && ByTheBook(book, a) && Housed(book, SessionOf(v, id), id)
    ensures Housed(book, SessionOf(Act(me, v, a), id), id) && !CutsOff(v, a, id)
  {
    ActMovesSession(me, v, a, id);
    if a.Receives? && a.id == id {
      ReceiveHoused(book, me, SessionOf(v, id), a.packet, a.connects, id);
    }
  }

  lemma ReceiveHoused(book: Id -> Octets, me: Self, s: Session, p: Packet, connects: bool, id: Id)
    requires Housed(book, s, id) && (p.body.Hello? ==> p.body.endpoint == book(id))
    ensures Housed(book, ReceiveSession(me, s, p, connects), id)
  {
    assert Housed(book, GreetedSession(me, s, p, connects), id);
  }

  /** Where no two peers share an endpoint, no ready peer is ever cut off. */
  lemma {:induction false} DistinctEndpointsNeverCutOff(
      book: Id -> Octets, me: Self, states: seq<NodeView>, actions: seq<Action>, n: nat, id: Id)
    requires IsNodeRun(me, states, actions) && n < |states|
    requires Distinct(book) && (forall i :: 0 <= i < |actions| ==> ByTheBook(book, actions[i]))
    ensures NeverCutOff(states, actions, id, n) && Housed(book, SessionOf(states[n], id), id)
  {
    if n > 0 {
      DistinctEndpointsNeverCutOff(book, me, states, actions, n - 1, id);
      assert StepAt((v, a, w) => Acts(me, v, a, w), states, actions, n - 1);
      StaysHoused(book, me, states[n - 1], actions[n - 1], id);
    }
  }
}
