/** What holds over every run of a sender, a lossy channel and a receiver, and exactly when. */
module ReplicaRuns {
  import opened Runs
  import opened NodeRules
  import opened NodeSessions
  import opened NodeStreams
  import opened Replica
  import NodeRuns

  ghost predicate Good(n: nat, states: seq<World>, good: World -> bool) {
    forall m :: 0 <= m <= n < |states| ==> good(states[m])
  }

  ghost predicate Never(n: nat, states: seq<World>, steps: seq<Step>, bad: (World, Step) -> bool) {
    forall i :: 0 <= i < n <= |steps| && n < |states| ==> !bad(states[i], steps[i])
  }

  lemma RunIsSound(pair: Pair, states: seq<World>, steps: seq<Step>, n: nat)
    requires IsRun(pair, states, steps) && n < |states|
    ensures Sound(pair, states[n])
  {
    var inv: World -> bool := w => Sound(pair, w);
    StartIsSound(pair);
    forall w, step, w' | inv(w) && StepOk(pair, w, step, w') ensures inv(w') {
      StepIsSound(pair, w, step, w');
    }
    Induction(inv, (w, step, w') => StepOk(pair, w, step, w'), states, steps, 0, n);
    assert inv(states[n]);
  }

  lemma StartIsSound(pair: Pair)
    ensures Sound(pair, START) && Listed(NEW_NODE, pair.a.id) == {}
  {
  }

  // ---- prefix delivery ----

  /** While A is ready, B has processed A's session without a gap. */
  ghost predicate NoGap(pair: Pair, w: World) {
    Sound(pair, w) && (w.b.failed || Gapless(StreamTo(pair, w), w.next, w.got, At(pair, w)))
  }

  /** The step passes off a later packet as the next one. */
  ghost predicate Misdelivers(pair: Pair, w: World, step: Step) {
    && Enabled(pair, w, step) && step.Arrives? && !w.b.failed
    && Slips(pair.b, StreamTo(pair, w), w.next, At(pair, w), step.at)
  }

  /** The arrival does not fire B's status assertion. */
  ghost predicate Passes(pair: Pair, w: World, step: Step) {
    Enabled(pair, w, step) && step.Arrives? ==> !Fails(pair.b, At(pair, w), StreamTo(pair, w)[step.at], step.connects)
  }

  lemma StepGapIff(pair: Pair, w: World, step: Step, w': World)
    requires NoGap(pair, w) && Sound(pair, w') && Enabled(pair, w, step) && Moved(pair, w, step, w')
    ensures NoGap(pair, w') <==> !(Misdelivers(pair, w, step) && Passes(pair, w, step))
  {
    match step
    case Sends(_) => StartOfPrefix(StreamTo(pair, w), StreamTo(pair, w'), w.next);
    case Others(_) =>
    case Arrives(at, connects) =>
      if !w.b.failed {
        PacketGaplessIff(pair.b, StreamTo(pair, w), w.next, w.got, At(pair, w), at, connects);
      }
  }

  /** A run delivers without gaps, up to any state, if and only if no step before it misdelivers. */
  lemma PrefixDeliveryIff(pair: Pair, states: seq<World>, steps: seq<Step>, n: nat)
    requires IsRun(pair, states, steps) && n < |states|
    ensures Good(n, states, w => NoGap(pair, w))
      <==> Never(n, states, steps, (w, step) => Misdelivers(pair, w, step) && Passes(pair, w, step))
  {
    StartIsSound(pair);
    forall w, step, w' | Sound(pair, w) && StepOk(pair, w, step, w')
      ensures Sound(pair, w') && (NoGap(pair, w) ==> (NoGap(pair, w') <==> !(Misdelivers(pair, w, step) && Passes(pair, w, step))))
    {
      StepIsSound(pair, w, step, w');
      if NoGap(pair, w) {
        StepGapIff(pair, w, step, w');
      }
    }
    ExactInduction(w => Sound(pair, w), w => NoGap(pair, w), (w, step) => Misdelivers(pair, w, step) && Passes(pair, w, step),
                   (w, step, w') => StepOk(pair, w, step, w'), states, steps, n);
  }

  /**
   What B has processed in its session with A is then a piece of A's stream
   without gaps, which begins with a HELLO and runs inside one of A's sessions.
   */
  lemma PrefixDelivery(pair: Pair, states: seq<World>, steps: seq<Step>, n: nat, k: nat)
    requires IsRun(pair, states, steps) && n < |states|
    requires Never(n, states, steps, (w, step) => Misdelivers(pair, w, step) && Passes(pair, w, step))
    requires !states[n].b.failed && Ready(At(pair, states[n])) && k < |states[n].got|
    ensures var s, got := StreamTo(pair, states[n]), states[n].got;
            && got[k] == got[0] + k && got[k] < |s|
            && (s[got[k]].body.Hello? <==> k == 0)
  {
    var w := states[n];
    PrefixDeliveryIff(pair, states, steps, n);
    assert ((w: World) => NoGap(pair, w))(states[n]);
    StartIsHello(StreamTo(pair, w), w.next);
  }

  // ---- the status assertion ----

  /** No packet of A has fired B's assertion, and while A is ready B counts the status that A told. */
  ghost predicate StatusGood(pair: Pair, w: World) {
    Sound(pair, w) && !w.fired && (w.b.failed || StatusRight(StreamTo(pair, w), w.next, At(pair, w)))
  }

  /** The step misdelivers a packet after losing a change of status. */
  ghost predicate LosesStatus(pair: Pair, w: World, step: Step) {
    Misdelivers(pair, w, step) && StatusMissed(StreamTo(pair, w), w.next, step.at)
  }

  /** One arrival fires the assertion exactly if it misdelivers a JOIN or LEAVE after losing a change of status. */
  lemma AssertionFiresIff(pair: Pair, w: World, at: nat, connects: bool)
    requires StatusGood(pair, w) && !w.b.failed && Enabled(pair, w, Arrives(at, connects))
    ensures Next(pair, w, Arrives(at, connects)).b.failed <==>
      LosesStatus(pair, w, Arrives(at, connects))
      && (StreamTo(pair, w)[at].body.Join? || StreamTo(pair, w)[at].body.Leave?)
  {
    ArrivalMoves(pair, w, at, connects);
    PacketStatusIff(pair.b, StreamTo(pair, w), w.next, w.got, At(pair, w), at, connects);
  }

  lemma StepStatusIff(pair: Pair, w: World, step: Step, w': World)
    requires StatusGood(pair, w) && Sound(pair, w') && Enabled(pair, w, step) && Moved(pair, w, step, w')
    ensures StatusGood(pair, w') <==> !LosesStatus(pair, w, step)
  {
    match step
    case Sends(_) => assert StreamTo(pair, w')[..w.next] == StreamTo(pair, w)[..w.next];
    case Others(_) =>
    case Arrives(at, connects) =>
      if !w.b.failed {
        PacketStatusIff(pair.b, StreamTo(pair, w), w.next, w.got, At(pair, w), at, connects);
      }
  }

  /**
   Up to any state of a run, no packet of A has fired the assertion and B's
   count was always right, if and only if no step before it misdelivered a
   packet after losing a change of status.
   */
  lemma StatusIff(pair: Pair, states: seq<World>, steps: seq<Step>, n: nat)
    requires IsRun(pair, states, steps) && n < |states|
    ensures Good(n, states, w => StatusGood(pair, w)) <==> Never(n, states, steps, (w, step) => LosesStatus(pair, w, step))
  {
    StartIsSound(pair);
    forall w, step, w' | Sound(pair, w) && StepOk(pair, w, step, w')
      ensures Sound(pair, w') && (StatusGood(pair, w) ==> (StatusGood(pair, w') <==> !LosesStatus(pair, w, step)))
    {
      StepIsSound(pair, w, step, w');
      if StatusGood(pair, w) {
        StepStatusIff(pair, w, step, w');
      }
    }
    ExactInduction(w => Sound(pair, w), w => StatusGood(pair, w), (w, step) => LosesStatus(pair, w, step),
                   (w, step, w') => StepOk(pair, w, step, w'), states, steps, n);
  }

  /** No JOIN or LEAVE of A ever fires B's status assertion in such a run, and B counts the status last told. */
  lemma StatusAssertionNeverFires(pair: Pair, states: seq<World>, steps: seq<Step>, n: nat)
    requires IsRun(pair, states, steps) && n < |states|
    requires Never(n, states, steps, (w, step) => LosesStatus(pair, w, step))
    ensures !states[n].fired
    ensures var w := states[n];
            !w.b.failed && Ready(At(pair, w)) ==>
              && w.got != [] && w.got[|w.got| - 1] < |StreamTo(pair, w)|
              && w.b.peers[pair.a.id].status == StatusTold(StreamTo(pair, w)[..w.got[|w.got| - 1] + 1])
  {
    StatusIff(pair, states, steps, n);
    assert ((w: World) => StatusGood(pair, w))(states[n]);
  }

  /** Once B has processed all that A sent, and A still serves B, B's count is A's own status. */
  lemma StatusCatchesUp(pair: Pair, states: seq<World>, steps: seq<Step>, n: nat)
    requires IsRun(pair, states, steps) && n < |states|
    requires Never(n, states, steps, (w, step) => LosesStatus(pair, w, step))
    requires !states[n].b.failed && Ready(At(pair, states[n]))
    requires states[n].next == |StreamTo(pair, states[n])|
    requires pair.b.id in states[n].a.peers && states[n].a.peers[pair.b.id].connected
    ensures states[n].b.peers[pair.a.id].status == states[n].a.status
  {
    var s := StreamTo(pair, states[n]);
    StatusIff(pair, states, steps, n);
    assert ((w: World) => StatusGood(pair, w))(states[n]);
    assert s[..|s|] == s;
  }

  // ---- the replica ----

  /** While A is ready, B lists A in the groups that A told. */
  ghost predicate GroupsGood(pair: Pair, w: World) {
    Sound(pair, w) && (w.b.failed || GroupsRight(StreamTo(pair, w), w.next, At(pair, w)))
  }

  /**
   The step misdelivers a packet after losing a change of groups that the
   packet itself does not make good, or takes up a peer that was cut off and is
   still listed in other groups.
   */
  ghost predicate LosesGroups(pair: Pair, w: World, step: Step) {
    && Enabled(pair, w, step) && step.Arrives? && !w.b.failed && Passes(pair, w, step)
    && ((Misdelivers(pair, w, step) && GroupsMissed(StreamTo(pair, w), w.next, step.at))
        || Revives(pair.b, At(pair, w), StreamTo(pair, w)[step.at].body))
  }

  lemma StepGroupsIff(pair: Pair, w: World, step: Step, w': World)
    requires GroupsGood(pair, w) && Sound(pair, w') && Enabled(pair, w, step) && Moved(pair, w, step, w')
    ensures GroupsGood(pair, w') <==> !LosesGroups(pair, w, step)
  {
    match step
    case Sends(_) => assert StreamTo(pair, w')[..w.next] == StreamTo(pair, w)[..w.next];
    case Others(_) =>
    case Arrives(at, connects) =>
      if !w.b.failed {
        PacketGroupsIff(pair.b, StreamTo(pair, w), w.next, w.got, At(pair, w), at, connects);
      }
  }

  /** Up to any state of a run, B's list was always what A told, if and only if no step before it lost groups. */
  lemma GroupsIff(pair: Pair, states: seq<World>, steps: seq<Step>, n: nat)
    requires IsRun(pair, states, steps) && n < |states|
    ensures Good(n, states, w => GroupsGood(pair, w)) <==> Never(n, states, steps, (w, step) => LosesGroups(pair, w, step))
  {
    StartIsSound(pair);
    forall w, step, w' | Sound(pair, w) && StepOk(pair, w, step, w')
      ensures Sound(pair, w') && (GroupsGood(pair, w) ==> (GroupsGood(pair, w') <==> !LosesGroups(pair, w, step)))
    {
      StepIsSound(pair, w, step, w');
      if GroupsGood(pair, w) {
        StepGroupsIff(pair, w, step, w');
      }
    }
    ExactInduction(w => Sound(pair, w), w => GroupsGood(pair, w), (w, step) => LosesGroups(pair, w, step),
                   (w, step, w') => StepOk(pair, w, step, w'), states, steps, n);
  }

  ghost predicate OwnsAt(s: Stream, owns: seq<set<Name>>, i: int) {
    0 <= i < |s| && |s| == |owns| ==> owns[i] == GroupsTold(s[..i + 1])
  }

  /** A has told B its own groups, at every packet and, while its mailbox is open, as they are now. */
  ghost predicate ToldGood(pair: Pair, w: World) {
    && Sound(pair, w) && Tells(MailboxOf(w.a, pair.b.id))
    && (forall i :: OwnsAt(StreamTo(pair, w), w.owns, i))
  }

  /** A joins or leaves a group whose name is longer than 255 octets while its mailbox for B is open. */
  ghost predicate TellsWrong(pair: Pair, w: World, step: Step) {
    step.Sends? && Mistells(w.a, step.action, pair.b.id)
  }

  lemma StepToldIff(pair: Pair, w: World, step: Step, w': World)
    requires ToldGood(pair, w) && StepOk(pair, w, step, w')
    ensures ToldGood(pair, w') <==> !TellsWrong(pair, w, step)
  {
    StepIsSound(pair, w, step, w');
    if step.Sends? {
      var m, m' := MailboxOf(w.a, pair.b.id), MailboxOf(w'.a, pair.b.id);
      ActAdvances(pair.a, w.a, step.action, pair.b.id);
      if !TellsWrong(pair, w, step) {
        forall i ensures OwnsAt(m'.stream, w'.owns, i) {
          if 0 <= i < |m.stream| {
            assert OwnsAt(m.stream, w.owns, i);
            assert m'.stream[..i + 1] == m.stream[..i + 1];
          } else {
            assert i >= |m.stream| ==> ToldAt(m', i);
          }
        }
      }
    } else {
      forall i ensures OwnsAt(StreamTo(pair, w'), w'.owns, i) {
        assert OwnsAt(StreamTo(pair, w), w.owns, i);
      }
    }
  }

  /** Up to any state of a run, A always told its own groups, if and only if it never told a name too long. */
  lemma ToldIff(pair: Pair, states: seq<World>, steps: seq<Step>, n: nat)
    requires IsRun(pair, states, steps) && n < |states|
    ensures Good(n, states, w => ToldGood(pair, w)) <==> Never(n, states, steps, (w, step) => TellsWrong(pair, w, step))
  {
    StartIsSound(pair);
    forall w, step, w' | Sound(pair, w) && StepOk(pair, w, step, w')
      ensures Sound(pair, w') && (ToldGood(pair, w) ==> (ToldGood(pair, w') <==> !TellsWrong(pair, w, step)))
    {
      StepIsSound(pair, w, step, w');
      if ToldGood(pair, w) {
        StepToldIff(pair, w, step, w');
      }
    }
    ExactInduction(w => Sound(pair, w), w => ToldGood(pair, w), (w, step) => TellsWrong(pair, w, step),
                   (w, step, w') => StepOk(pair, w, step, w'), states, steps, n);
  }

  /**
   While A is ready at B, the groups in which B lists A are A's own groups as
   they stood when A sent the last packet that B processed.
   */
  lemma ReplicaIsPrimary(pair: Pair, states: seq<World>, steps: seq<Step>, n: nat)
    requires IsRun(pair, states, steps) && n < |states|
    requires Never(n, states, steps, (w, step) => LosesGroups(pair, w, step))
    requires Never(n, states, steps, (w, step) => TellsWrong(pair, w, step))
    requires !states[n].b.failed && Ready(At(pair, states[n]))
    ensures var w := states[n];
            && w.got != [] && w.got[|w.got| - 1] < |w.owns|
            && Listed(w.b, pair.a.id) == w.owns[w.got[|w.got| - 1]]
  {
    var w := states[n];
    GroupsIff(pair, states, steps, n);
    ToldIff(pair, states, steps, n);
    assert ((w: World) => GroupsGood(pair, w))(states[n]) && ((w: World) => ToldGood(pair, w))(states[n]);
    assert OwnsAt(StreamTo(pair, w), w.owns, w.next - 1);
  }

  /** While A is ready, B lists A in A's own groups as they were at the last arrival. */
  ghost predicate PrimaryGood(pair: Pair, w: World) {
    Sound(pair, w) && (w.b.failed || OwnRight(w.owns, w.next, At(pair, w)))
  }

  /**
   The step brings a packet that goes on with the session and yet does not lead
   from A's groups at the last arrival to those at this one; or takes up a peer
   that was cut off and is still listed in other groups.
   */
  ghost predicate LosesPrimary(pair: Pair, w: World, step: Step) {
    && Sound(pair, w) && Enabled(pair, w, step) && step.Arrives? && !w.b.failed && Passes(pair, w, step)
    && ((GoesOn(pair.b, StreamTo(pair, w), w.next, At(pair, w), step.at)
         && Strays(StreamTo(pair, w), w.owns, w.next, step.at))
        || Revives(pair.b, At(pair, w), StreamTo(pair, w)[step.at].body))
  }

  lemma StepPrimaryIff(pair: Pair, w: World, step: Step, w': World)
    requires PrimaryGood(pair, w) && Sound(pair, w') && Enabled(pair, w, step) && Moved(pair, w, step, w')
    requires step.Sends? ==> w.owns <= w'.owns
    ensures PrimaryGood(pair, w') <==> !LosesPrimary(pair, w, step)
  {
    if step.Arrives? && !w.b.failed {
      PacketOwnIff(pair.b, StreamTo(pair, w), w.owns, w.next, w.got, At(pair, w), step.at, step.connects);
    }
  }

  /**
   Up to any state of a run, the groups in which B listed A, while A was ready,
   were always A's own as they stood when A sent the last packet that B
   processed, if and only if no step before it lost them.
   */
  lemma PrimaryIff(pair: Pair, states: seq<World>, steps: seq<Step>, n: nat)
    requires IsRun(pair, states, steps) && n < |states|
    ensures Good(n, states, w => PrimaryGood(pair, w)) <==> Never(n, states, steps, (w, step) => LosesPrimary(pair, w, step))
  {
    StartIsSound(pair);
    forall w, step, w' | Sound(pair, w) && StepOk(pair, w, step, w')
      ensures Sound(pair, w') && (PrimaryGood(pair, w) ==> (PrimaryGood(pair, w') <==> !LosesPrimary(pair, w, step)))
    {
      StepIsSound(pair, w, step, w');
      if PrimaryGood(pair, w) {
        StepPrimaryIff(pair, w, step, w');
      }
    }
    ExactInduction(w => Sound(pair, w), w => PrimaryGood(pair, w), (w, step) => LosesPrimary(pair, w, step),
                   (w, step, w') => StepOk(pair, w, step, w'), states, steps, n);
  }

  /** Once B has processed all that A sent, and A still serves B, the two agree. */
  lemma ReplicaCatchesUp(pair: Pair, states: seq<World>, steps: seq<Step>, n: nat)
    requires IsRun(pair, states, steps) && n < |states|
    requires Never(n, states, steps, (w, step) => LosesGroups(pair, w, step))
    requires Never(n, states, steps, (w, step) => TellsWrong(pair, w, step))
    requires !states[n].b.failed && Ready(At(pair, states[n]))
    requires states[n].next == |StreamTo(pair, states[n])|
    requires pair.b.id in states[n].a.peers && states[n].a.peers[pair.b.id].connected
    ensures Listed(states[n].b, pair.a.id) == SetOf(states[n].a.own)
  {
    var s := StreamTo(pair, states[n]);
    GroupsIff(pair, states, steps, n);
    ToldIff(pair, states, steps, n);
    assert ((w: World) => GroupsGood(pair, w))(states[n]) && ((w: World) => ToldGood(pair, w))(states[n]);
    assert s[..|s|] == s;
  }

  // ---- losses ----

  /** No HELLO among the packets lost just before position `at`. */
  ghost predicate NoHelloLost(s: Stream, next: nat, at: nat) {
    forall i :: next <= i < at && i < |s| ==> !s[i].body.Hello?
  }

  /**
   When `at - next` packets of the session are lost, the next arrival shows it
   unless that number is a multiple of 65536; and B then forgets A.
   */
  lemma GapCaughtIff(pair: Pair, w: World, at: nat, connects: bool)
    requires Sound(pair, w) && !w.b.failed && Ready(At(pair, w))
    requires Enabled(pair, w, Arrives(at, connects))
    requires !StreamTo(pair, w)[at].body.Hello? && NoHelloLost(StreamTo(pair, w), w.next, at)
    ensures var caught := !Accepts(pair.b, w.b, pair.a.id, StreamTo(pair, w)[at], connects);
            && (caught <==> (at - w.next) % 0x1_0000 != 0)
            && (caught ==> pair.a.id !in Next(pair, w, Arrives(at, connects)).b.peers)
  {
    var s, t := StreamTo(pair, w), At(pair, w);
    AcceptsIsSession(pair.b, w.b, pair.a.id, s[at], connects);
    GapFollowsIff(s, w.next, at);
    ActMovesSession(pair.b, w.b, Receives(pair.a.id, s[at], connects), pair.a.id);
  }

  lemma GapFollowsIff(s: Stream, next: nat, at: nat)
    requires Ordered(s) && 0 < next <= at < |s| && !s[at].body.Hello? && NoHelloLost(s, next, at)
    ensures s[at].sequence == NextSequence(s[next - 1].sequence) <==> (at - next) % 0x1_0000 == 0
  {
    FollowsIff(s, next, at);
    SameStart(s, next, at + 1);
    ModuloGap(at - next, next - StartOf(s, next));
  }

  lemma ModuloGap(gap: nat, x: nat)
    ensures (gap + x) % 0x1_0000 == x % 0x1_0000 <==> gap % 0x1_0000 == 0
  {
  }

  /** A channel that loses fewer than 65536 packets in a row, and no HELLO that a later packet of its session survives. */
  ghost predicate Orderly(pair: Pair, w: World, step: Step) {
    Enabled(pair, w, step) && step.Arrives? && !StreamTo(pair, w)[step.at].body.Hello? ==>
      step.at - w.next < 0x1_0000 && NoHelloLost(StreamTo(pair, w), w.next, step.at)
  }

  lemma OrderlyIsFaithful(pair: Pair, w: World, step: Step)
    requires Sound(pair, w) && Orderly(pair, w, step)
    ensures !Misdelivers(pair, w, step)
  {
    if Misdelivers(pair, w, step) {
      var s := StreamTo(pair, w);
      GapFollowsIff(s, w.next, step.at);
      FollowsIff(s, w.next, step.at);
    }
  }

  /** The step does not cut A off at B. */
  ghost predicate Undivided(pair: Pair, w: World, step: Step) {
    step.Others? ==> !NodeRuns.CutsOff(w.b, step.action, pair.a.id)
  }

  /** B lists A nowhere while A is not ready. */
  ghost predicate NoLeftovers(pair: Pair, w: World) {
    Sound(pair, w) && (w.b.failed || Ready(At(pair, w)) || At(pair, w).groups == {})
  }

  lemma StepLeavesNothing(pair: Pair, w: World, step: Step, w': World)
    requires NoLeftovers(pair, w) && StepOk(pair, w, step, w') && Undivided(pair, w, step)
    ensures NoLeftovers(pair, w')
  {
    StepIsSound(pair, w, step, w');
    if step.Others? {
      ActMovesSession(pair.b, w.b, step.action, pair.a.id);
    }
  }

  ghost predicate OrderlyAt(pair: Pair, states: seq<World>, steps: seq<Step>, i: int) {
    0 <= i < |steps| && i < |states| ==> Orderly(pair, states[i], steps[i])
  }

  ghost predicate UndividedAt(pair: Pair, states: seq<World>, steps: seq<Step>, i: int) {
    0 <= i < |steps| && i < |states| ==> Undivided(pair, states[i], steps[i])
  }

  /** Over such a channel nothing is misdelivered; and if B never cuts A off either, no groups are lost. */
  lemma OrderlyRuns(pair: Pair, states: seq<World>, steps: seq<Step>, n: nat)
    requires IsRun(pair, states, steps) && n < |states|
    requires forall i :: OrderlyAt(pair, states, steps, i)
    ensures Never(n, states, steps, (w, step) => Misdelivers(pair, w, step))
    ensures (forall i :: UndividedAt(pair, states, steps, i)) ==>
      Never(n, states, steps, (w, step) => LosesGroups(pair, w, step))
  {
    forall i | 0 <= i < n ensures !Misdelivers(pair, states[i], steps[i]) {
      RunIsSound(pair, states, steps, i);
      assert OrderlyAt(pair, states, steps, i);
      OrderlyIsFaithful(pair, states[i], steps[i]);
    }
    if forall i :: UndividedAt(pair, states, steps, i) {
      forall i | 0 <= i < n ensures !LosesGroups(pair, states[i], steps[i]) {
        UndividedLeavesNothing(pair, states, steps, i);
      }
    }
  }

  lemma {:induction false} UndividedLeavesNothing(pair: Pair, states: seq<World>, steps: seq<Step>, n: nat)
    requires IsRun(pair, states, steps) && n < |states|
    requires forall i :: UndividedAt(pair, states, steps, i)
    ensures NoLeftovers(pair, states[n])
  {
    if n == 0 {
      StartIsSound(pair);
    } else {
      UndividedLeavesNothing(pair, states, steps, n - 1);
      assert StepAt((w, step, w') => StepOk(pair, w, step, w'), states, steps, n - 1);
      assert UndividedAt(pair, states, steps, n - 1);
      StepLeavesNothing(pair, states[n - 1], steps[n - 1], states[n]);
    }
  }

  // ---- after a loss ----

  ghost predicate NoHelloArrives(pair: Pair, w: World, step: Step, w': World) {
    StepOk(pair, w, step, w') && (step.Arrives? ==> !StreamTo(pair, w)[step.at].body.Hello?)
  }

  /** B does not have A as a ready peer, lists it nowhere and has processed nothing of it. */
  predicate Ignores(pair: Pair, w: World) {
    !Ready(At(pair, w)) && Listed(w.b, pair.a.id) == {} && w.got == []
  }

  lemma StaysIgnored(pair: Pair, w: World, step: Step, w': World)
    requires Ignores(pair, w) && NoHelloArrives(pair, w, step, w')
    ensures Ignores(pair, w')
  {
    match step
    case Sends(_) =>
    case Arrives(at, connects) => ActMovesSession(pair.b, w.b, Receives(pair.a.id, StreamTo(pair, w)[at], connects), pair.a.id);
    case Others(action) => ActMovesSession(pair.b, w.b, action, pair.a.id);
  }

  /** Once B has dropped A, it ignores A until a HELLO of A arrives, in runs of any length. */
  lemma IgnoresUntilHello(pair: Pair, states: seq<World>, steps: seq<Step>, m: nat, n: nat)
    requires IsTrace((w, step, w') => NoHelloArrives(pair, w, step, w'), states, steps)
    requires m <= n < |states| && Ignores(pair, states[m])
    ensures Ignores(pair, states[n])
  {
    var inv: World -> bool := w => Ignores(pair, w);
    forall w, step, w' | inv(w) && NoHelloArrives(pair, w, step, w') ensures inv(w') {
      StaysIgnored(pair, w, step, w');
    }
    Induction(inv, (w, step, w') => NoHelloArrives(pair, w, step, w'), states, steps, m, n);
    assert inv(states[n]);
  }
}
