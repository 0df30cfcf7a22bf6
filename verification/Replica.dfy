/**
 Two nodes and the channel from one to the other.  Node A serves B; what A sends
 arrives at B in order, but any of it may be lost.  Both nodes do anything else
 besides: A and B hear from other peers, join and leave groups, lose and
 rediscover each other.
 */
module Replica {
  import opened Basics
  import opened Runs
  import opened NodeRules
  import opened NodeSessions
  import opened NodeStreams
  import NodeRuns

  datatype Pair = Pair(a: Self, b: Self)

  /**
   The two nodes; how far into A's stream to B the channel has got; and three
   histories: A's own groups as each packet was sent, the positions of the
   packets that B has processed in the session it has with A, and whether one
   of them has fired B's status assertion.
   */
  datatype World = World(a: NodeView, b: NodeView, next: nat, owns: seq<set<Name>>, got: seq<nat>, fired: bool)

  datatype Step =
    | Sends(action: Action)                  // A does something
    | Arrives(at: nat, connects: bool)       // the packet at this position reaches B; those it passed are lost
    | Others(action: Action)                 // B does something else

  function StreamTo(pair: Pair, w: World): Stream {
    Sent(w.a, pair.b.id)
  }

  /** B's session with A. */
  function At(pair: Pair, w: World): Session {
    SessionOf(w.b, pair.a.id)
  }

  predicate Enabled(pair: Pair, w: World, step: Step) {
    match step
    case Sends(_) => true
    case Arrives(at, _) => w.next <= at < |StreamTo(pair, w)|
    case Others(action) => !(action.Receives? && action.id == pair.a.id)
  }

  function Repeat(n: nat, names: set<Name>): seq<set<Name>> {
    seq(n, _ => names)
  }

  function Next(pair: Pair, w: World, step: Step): World
    requires Enabled(pair, w, step)
  {
    match step
    case Sends(action) =>
      var a := Act(pair.a, w.a, action);
      var more := |Sent(a, pair.b.id)| - |StreamTo(pair, w)|;
      w.(a := a, owns := w.owns + Repeat(if more > 0 then more else 0, SetOf(a.own)))
    case Arrives(at, connects) =>
      var p := StreamTo(pair, w)[at];
      var b := Act(pair.b, w.b, Receives(pair.a.id, p, connects));
      var got :=
        if !Ready(SessionOf(b, pair.a.id)) then []
        else if !Accepts(pair.b, w.b, pair.a.id, p, connects) then w.got
        else if p.body.Hello? then [at]
        else w.got + [at];
      w.(b := b, next := at + 1, got := got, fired := w.fired || (b.failed && !w.b.failed))
    case Others(action) =>
      var b := Act(pair.b, w.b, action);
      w.(b := b, got := if Ready(SessionOf(b, pair.a.id)) then w.got else [])
  }

  ghost predicate StepOk(pair: Pair, w: World, step: Step, w': World) {
    Enabled(pair, w, step) && w' == Next(pair, w, step)
  }

  const START := World(NEW_NODE, NEW_NODE, 0, [], [], false)

  ghost predicate IsRun(pair: Pair, states: seq<World>, steps: seq<Step>) {
    && IsTrace((w, step, w') => StepOk(pair, w, step, w'), states, steps)
    && states[0] == START
  }

  // ---- positions within sessions ----

  /** Where the session of the packet before position `n` starts: at the last HELLO. */
  function StartOf(s: Stream, n: nat): (start: nat)
    requires n <= |s|
    ensures start <= n
    ensures start == n ==> n == 0
    ensures forall i :: start < i < n ==> !s[i].body.Hello?
  {
    if n == 0 then 0
    else if s[n - 1].body.Hello? || n == 1 then n - 1
    else StartOf(s, n - 1)
  }

  lemma {:induction false} StartIsHello(s: Stream, n: nat)
    requires Ordered(s) && 0 < n <= |s|
    ensures s[StartOf(s, n)].body.Hello?
    ensures s[n - 1].sequence == (n - StartOf(s, n)) % 0x1_0000
  {
    assert InOrder(s, n - 1);
    if !s[n - 1].body.Hello? {
      StartIsHello(s, n - 1);
    }
  }

  lemma {:induction false} StartOfPrefix(s: Stream, t: Stream, n: nat)
    requires s <= t && n <= |s|
    ensures StartOf(t, n) == StartOf(s, n)
  {
    if n > 0 {
      StartOfPrefix(s, t, n - 1);
    }
  }

  lemma {:induction false} SameStart(s: Stream, m: nat, n: nat)
    requires 0 < m <= n <= |s| && forall i :: m <= i < n ==> !s[i].body.Hello?
    ensures StartOf(s, n) == StartOf(s, m)
  {
    if m < n {
      SameStart(s, m, n - 1);
    }
  }

  /**
   Packets were lost before this one, and yet it carries the number that
   follows the last packet processed.
   */
  predicate Aliased(s: Stream, next: nat, at: nat)
    requires next <= at < |s|
  {
    && next < at && !s[at].body.Hello?
    && (at - StartOf(s, at + 1)) % 0x1_0000 == (next - StartOf(s, next)) % 0x1_0000
  }

  lemma FollowsIff(s: Stream, next: nat, at: nat)
    requires Ordered(s) && 0 < next <= at < |s| && !s[at].body.Hello?
    ensures s[at].sequence == NextSequence(s[next - 1].sequence) <==> next == at || Aliased(s, next, at)
  {
    StartIsHello(s, next);
    StartIsHello(s, at + 1);
    if next == at {
      SameStart(s, next, at + 1);
    }
    ModuloShift(at - StartOf(s, at + 1), next - StartOf(s, next));
  }

  lemma ModuloShift(x: int, y: int)
    ensures (x + 1) % 0x1_0000 == (y % 0x1_0000 + 1) % 0x1_0000 <==> x % 0x1_0000 == y % 0x1_0000
  {
  }

  // ---- what B can have of A ----

  /** B waits for the packet after the last one that arrived, and has no groups of a peer that it does not know. */
  ghost predicate Follows(s: Stream, next: nat, got: seq<nat>, t: Session) {
    && next <= |s|
    && NodeRuns.ListedIsKnown(t)
    && (if !Ready(t) then got == []
        else
          && next > 0 && got != [] && got[|got| - 1] == next - 1
          && t.peer.value.want == s[next - 1].sequence)
  }

  /** While A is ready, B lists A in its own groups as they were at the last arrival. */
  ghost predicate OwnRight(owns: seq<set<Name>>, next: nat, t: Session) {
    Ready(t) ==> 0 < next <= |owns| && t.groups == owns[next - 1]
  }

  ghost predicate HelloOwned(s: Stream, owns: seq<set<Name>>, i: int) {
    0 <= i < |s| && i < |owns| && s[i].body.Hello? ==> owns[i] == SetOf(s[i].body.groups)
  }

  /** While A is ready, B counts the status that A told. */
  ghost predicate StatusRight(s: Stream, next: nat, t: Session)
    requires next <= |s|
  {
    Ready(t) ==> t.peer.value.status == StatusTold(s[..next])
  }

  /** While A is ready, B lists A in the groups that A told. */
  ghost predicate GroupsRight(s: Stream, next: nat, t: Session)
    requires next <= |s|
  {
    Ready(t) ==> t.groups == GroupsTold(s[..next])
  }

  function Positions(lo: nat, hi: nat): seq<nat>
    requires lo <= hi
  {
    seq(hi - lo, i requires 0 <= i < hi - lo => lo + i)
  }

  /** While A is ready, B has processed every packet of A's session so far. */
  ghost predicate Gapless(s: Stream, next: nat, got: seq<nat>, t: Session)
    requires next <= |s|
  {
    Ready(t) ==> got == Positions(StartOf(s, next), next)
  }

  ghost predicate HellosOwned(s: Stream, owns: seq<set<Name>>) {
    forall i :: HelloOwned(s, owns, i)
  }

  // ---- what one packet does to it ----

  function GotAfter(me: Self, t: Session, got: seq<nat>, p: Packet, at: nat, connects: bool): seq<nat> {
    if !Ready(ReceiveSession(me, t, p, connects)) then []
    else if !AcceptsSession(me, t, p, connects) then got
    else if p.body.Hello? then [at]
    else got + [at]
  }

  /** A later packet passed off as the next one, in a session that stays open. */
  predicate Slips(me: Self, s: Stream, next: nat, t: Session, at: nat)
    requires next <= at < |s|
  {
    Ready(t) && Aliased(s, next, at) && !(me.gossip && s[at].body.Goodbye?)
  }

  /** What was lost on the way changed A's status. */
  predicate StatusMissed(s: Stream, next: nat, at: nat)
    requires next <= at < |s|
  {
    StatusTold(s[..next]) != StatusTold(s[..at])
  }

  /** The group that a packet adds or removes. */
  function Named(body: Body): set<Name> {
    if body.Join? || body.Leave? then {body.group} else {}
  }

  /** What was lost on the way changed A's groups, in more than the group that this packet settles. */
  predicate GroupsMissed(s: Stream, next: nat, at: nat)
    requires next <= at < |s|
  {
    GroupsTold(s[..next]) - Named(s[at].body) != GroupsTold(s[..at]) - Named(s[at].body)
  }

  /** A HELLO takes up a peer that was cut off, which B still lists in a group that the HELLO does not. */
  predicate Revives(me: Self, t: Session, body: Body) {
    && body.Hello? && t.peer.Some? && !t.peer.value.ready && Endpoint(t.peer.value) != me.endpoint
    && !(t.groups <= SetOf(body.groups))
  }

  /** What a packet makes of a list of its sender's groups. */
  function Reckoned(groups: set<Name>, body: Body): set<Name> {
    match body
    case Hello(_, names, _) => SetOf(names)
    case Join(g, _) => groups + {g}
    case Leave(g, _) => groups - {g}
    case _ => groups
  }

  /** The packet goes on with an open session, as the next one or passed off as it. */
  predicate GoesOn(me: Self, s: Stream, next: nat, t: Session, at: nat)
    requires next <= at < |s|
  {
    && Ready(t) && !s[at].body.Hello? && (next == at || Aliased(s, next, at))
    && !(me.gossip && s[at].body.Goodbye?)
  }

  /** The packet does not lead from A's own groups at the last arrival to those at this one. */
  predicate Strays(s: Stream, owns: seq<set<Name>>, next: nat, at: nat)
    requires 0 < next <= at < |s| == |owns|
  {
    Reckoned(owns[next - 1], s[at].body) != owns[at]
  }

  lemma PrefixGrows(s: Stream, at: nat)
    requires at < |s|
    ensures s[..at + 1][..at] == s[..at] && s[..at + 1][at] == s[at]
  {
  }

  lemma PacketFollows(me: Self, s: Stream, next: nat, got: seq<nat>, t: Session, at: nat, connects: bool)
    requires Ordered(s) && Follows(s, next, got, t) && next <= at < |s|
    ensures Follows(s, at + 1, GotAfter(me, t, got, s[at], at, connects), ReceiveSession(me, t, s[at], connects))
    ensures !s[at].body.Hello? && Ready(t) ==> (AcceptsSession(me, t, s[at], connects) <==> next == at || Aliased(s, next, at))
    ensures s[at].body.Hello? ==> s[at].sequence == 1
  {
    assert InOrder(s, at);
    if !s[at].body.Hello? && Ready(t) {
      FollowsIff(s, next, at);
    }
  }

  lemma NextByteInjective(m: byte, n: byte)
    ensures NextByte(m) == NextByte(n) ==> m == n
  {
  }

  /** One packet fires the status assertion, or leaves the counted status wrong, exactly if it slips and a status was missed. */
  lemma PacketStatusIff(me: Self, s: Stream, next: nat, got: seq<nat>, t: Session, at: nat, connects: bool)
    requires Ordered(s) && Follows(s, next, got, t) && StatusRight(s, next, t) && next <= at < |s|
    ensures Fails(me, t, s[at], connects) <==>
      Slips(me, s, next, t, at) && StatusMissed(s, next, at) && (s[at].body.Join? || s[at].body.Leave?)
    ensures StatusRight(s, at + 1, ReceiveSession(me, t, s[at], connects)) <==>
      !(Slips(me, s, next, t, at) && StatusMissed(s, next, at))
  {
    PacketFollows(me, s, next, got, t, at, connects);
    PrefixGrows(s, at);
    assert InOrder(s, at);
    NextByteInjective(StatusTold(s[..next]), StatusTold(s[..at]));
  }

  /** One packet leaves the listed groups wrong exactly if it slips and groups were missed, or revives old ones. */
  lemma PacketGroupsIff(me: Self, s: Stream, next: nat, got: seq<nat>, t: Session, at: nat, connects: bool)
    requires Ordered(s) && Follows(s, next, got, t) && GroupsRight(s, next, t) && next <= at < |s|
    ensures GroupsRight(s, at + 1, ReceiveSession(me, t, s[at], connects)) <==>
      !((Slips(me, s, next, t, at) && GroupsMissed(s, next, at)) || Revives(me, t, s[at].body))
  {
    PacketFollows(me, s, next, got, t, at, connects);
    PrefixGrows(s, at);
    if s[at].body.Hello? {
      assert (t.groups + SetOf(s[at].body.groups) == SetOf(s[at].body.groups)) == (t.groups <= SetOf(s[at].body.groups));
      assert {} + SetOf(s[at].body.groups) == SetOf(s[at].body.groups);
    } else {
      SetsButOne(GroupsTold(s[..next]), GroupsTold(s[..at]), Named(s[at].body));
    }
  }

  /**
   One packet leaves A listed in other groups than its own exactly if it goes on
   with the session and strays, or revives old ones.
   */
  lemma PacketOwnIff(me: Self, s: Stream, owns: seq<set<Name>>, next: nat, got: seq<nat>, t: Session, at: nat, connects: bool)
    requires Ordered(s) && Follows(s, next, got, t) && next <= at < |s| == |owns|
    requires OwnRight(owns, next, t) && HellosOwned(s, owns)
    ensures OwnRight(owns, at + 1, ReceiveSession(me, t, s[at], connects)) <==>
      !((GoesOn(me, s, next, t, at) && Strays(s, owns, next, at)) || Revives(me, t, s[at].body))
  {
    PacketFollows(me, s, next, got, t, at, connects);
    if s[at].body.Hello? {
      assert HelloOwned(s, owns, at);
      assert (t.groups + SetOf(s[at].body.groups) == SetOf(s[at].body.groups)) == (t.groups <= SetOf(s[at].body.groups));
      assert {} + SetOf(s[at].body.groups) == SetOf(s[at].body.groups);
    }
  }

  lemma SetsButOne(a: set<Name>, b: set<Name>, named: set<Name>)
    ensures a - named == b - named <==> a + named == b + named
  {
    forall x ensures a + named == b + named ==> (x in a - named <==> x in b - named) {
      assert x in a + named <==> x in a || x in named;
      assert x in b + named <==> x in b || x in named;
    }
    forall x ensures a - named == b - named ==> (x in a + named <==> x in b + named) {
      assert x in a - named <==> x in a && x !in named;
      assert x in b - named <==> x in b && x !in named;
    }
  }

  /** One packet leaves a gap exactly if it slips. */
  lemma PacketGaplessIff(me: Self, s: Stream, next: nat, got: seq<nat>, t: Session, at: nat, connects: bool)
    requires Ordered(s) && Follows(s, next, got, t) && Gapless(s, next, got, t) && next <= at < |s|
    ensures Gapless(s, at + 1, GotAfter(me, t, got, s[at], at, connects), ReceiveSession(me, t, s[at], connects)) <==>
      !Slips(me, s, next, t, at)
  {
    PacketFollows(me, s, next, got, t, at, connects);
    if s[at].body.Hello? {
      assert [at] == Positions(StartOf(s, at + 1), at + 1);
    } else if Ready(t) && next == at {
      SameStart(s, next, at + 1);
      assert got + [at] == Positions(StartOf(s, at + 1), at + 1);
    } else if Slips(me, s, next, t, at) && StartOf(s, at + 1) < at {
      assert (got + [at])[|got| - 1] == next - 1;
      assert Positions(StartOf(s, at + 1), at + 1)[at - 1 - StartOf(s, at + 1)] == at - 1;
    }
  }

  // ---- the invariant ----

  /** What holds whatever happens, as long as B's assertion has not fired. */
  ghost predicate Sound(pair: Pair, w: World) {
    w in SoundWorlds(pair)
  }

  ghost function SoundWorlds(pair: Pair): iset<World> {
    iset w: World |
      && Serves(MailboxOf(w.a, pair.b.id))
      && |w.owns| == |StreamTo(pair, w)| && w.next <= |StreamTo(pair, w)|
      && HellosOwned(StreamTo(pair, w), w.owns)
      && (w.b.failed || Follows(StreamTo(pair, w), w.next, w.got, At(pair, w)))
  }

  /** What a step does to the two nodes, the histories and A's session. */
  ghost predicate Moved(pair: Pair, w: World, step: Step, w': World) {
    match step
    case Sends(action) =>
      && w' == w.(a := w'.a, owns := w'.owns)
      && StreamTo(pair, w) <= StreamTo(pair, w')
    case Others(_) =>
      && w' == w.(b := w'.b, got := w'.got)
      && (Ready(At(pair, w')) ==> At(pair, w') == At(pair, w) && w'.got == w.got)
      && (w.b.failed ==> w'.b.failed)
    case Arrives(at, connects) =>
      && w' == w.(b := w'.b, next := at + 1, got := w'.got, fired := w'.fired)
      && w.next <= at < |StreamTo(pair, w)|
      && (if w.b.failed then w'.b.failed && w'.fired == w.fired
          else
            var t, p := At(pair, w), StreamTo(pair, w)[at];
            && At(pair, w') == ReceiveSession(pair.b, t, p, connects)
            && w'.got == GotAfter(pair.b, t, w.got, p, at, connects)
            && w'.b.failed == Fails(pair.b, t, p, connects)
            && w'.fired == (w.fired || Fails(pair.b, t, p, connects)))
  }

  lemma ArrivalMoves(pair: Pair, w: World, at: nat, connects: bool)
    requires Enabled(pair, w, Arrives(at, connects))
    ensures Moved(pair, w, Arrives(at, connects), Next(pair, w, Arrives(at, connects)))
  {
    if !w.b.failed {
      var p := StreamTo(pair, w)[at];
      ActMovesSession(pair.b, w.b, Receives(pair.a.id, p, connects), pair.a.id);
      AcceptsIsSession(pair.b, w.b, pair.a.id, p, connects);
    }
  }

  lemma AcceptsIsSession(me: Self, v: NodeView, id: Id, p: Packet, connects: bool)
    ensures Accepts(me, v, id, p, connects) <==> AcceptsSession(me, SessionOf(v, id), p, connects)
  {
    if p.body.Hello? {
      GreetMoves(me, v, id, p, connects);
    }
    var v1 := Greeted(me, v, id, p, connects);
    assert SessionOf(v1, id) == GreetedSession(me, SessionOf(v, id), p, connects);
  }

  lemma SendIsSound(pair: Pair, w: World, action: Action)
    requires Sound(pair, w)
    ensures var w' := Next(pair, w, Sends(action)); Sound(pair, w') && Moved(pair, w, Sends(action), w')
  {
    ActAdvances(pair.a, w.a, action, pair.b.id);
    var w' := Next(pair, w, Sends(action));
    var m, m' := MailboxOf(w.a, pair.b.id), MailboxOf(w'.a, pair.b.id);
    forall i ensures HelloOwned(m'.stream, w'.owns, i) {
      assert HelloOwned(m.stream, w.owns, i);
      assert i >= |m.stream| ==> HelloTells(m', i);
    }
  }

  /** What B does with others leaves A's session as it was, drops it or cuts it off. */
  lemma OthersMove(pair: Pair, w: World, action: Action)
    requires Sound(pair, w) && Enabled(pair, w, Others(action))
    ensures var w' := Next(pair, w, Others(action)); Sound(pair, w') && Moved(pair, w, Others(action), w')
  {
    ActMovesSession(pair.b, w.b, action, pair.a.id);
    if !w.b.failed {
      OtherSessionSteps(pair.b, w.b, action, pair.a.id);
    }
  }

  lemma OtherSessionSteps(me: Self, v: NodeView, a: Action, id: Id)
    requires !(a.Receives? && a.id == id) && NodeRuns.ListedIsKnown(SessionOf(v, id))
    ensures var t := StepSession(me, v, a, id);
            NodeRuns.ListedIsKnown(t) && (Ready(t) ==> t == SessionOf(v, id))
  {
  }

  lemma ArrivalIsSound(pair: Pair, w: World, at: nat, connects: bool, w': World)
    requires Sound(pair, w) && Moved(pair, w, Arrives(at, connects), w')
    ensures Sound(pair, w')
  {
    if !w.b.failed {
      PacketFollows(pair.b, StreamTo(pair, w), w.next, w.got, At(pair, w), at, connects);
    }
  }

  lemma StepIsSound(pair: Pair, w: World, step: Step, w': World)
    requires Sound(pair, w) && StepOk(pair, w, step, w')
    ensures Sound(pair, w') && Moved(pair, w, step, w')
  {
    match step
    case Sends(action) => SendIsSound(pair, w, action);
    case Others(action) => OthersMove(pair, w, action);
    case Arrives(at, connects) =>
      ArrivalMoves(pair, w, at, connects);
      ArrivalIsSound(pair, w, at, connects, w');
  }
}
