/**
 What a node sends to one peer: the packets, in order, over all the mailboxes
 it opened to that peer.  Whatever the node does, the stream is numbered by
 session and tells the node's status; and it tells the node's own groups, except
 where a group name is too long for the frame.
 */
module NodeStreams {
  import opened Basics
  import opened NodeRules
  import opened CStrings
  import Rules = ElectionRules

  type Stream = seq<Packet>

  // ---- reading a stream ----

  /** The groups that a reader of the whole stream believes the sender is in. */
  function GroupsTold(s: Stream): set<Name> {
    if s == [] then {}
    else
      var before := GroupsTold(s[..|s| - 1]);
      match s[|s| - 1].body
      case Hello(_, groups, _) => SetOf(groups)
      case Join(g, _) => before + {g}
      case Leave(g, _) => before - {g}
      case _ => before
  }

  /** The status that it believes the sender has. */
  function StatusTold(s: Stream): byte {
    if s == [] then 0
    else
      match s[|s| - 1].body
      case Hello(_, _, status) => status
      case Join(_, status) => status
      case Leave(_, status) => status
      case _ => StatusTold(s[..|s| - 1])
  }

  /** A HELLO is number 1; anything else follows the packet before it, and a JOIN or LEAVE steps the status. */
  ghost predicate InOrder(s: Stream, i: int) {
    0 <= i < |s| ==>
      if s[i].body.Hello? then s[i].sequence == 1
      else
        && i > 0 && s[i].sequence == NextSequence(s[i - 1].sequence)
        && (s[i].body.Join? ==> s[i].body.status == NextByte(StatusTold(s[..i])))
        && (s[i].body.Leave? ==> s[i].body.status == NextByte(StatusTold(s[..i])))
  }

  ghost predicate Ordered(s: Stream) {
    forall i :: InOrder(s, i)
  }

  // ---- the sender's side ----

  /** All of a node that bears on what it sends to one peer. */
  datatype Mailbox = Mailbox(stream: Stream, open: bool, sent: uint16, own: seq<Name>, status: byte)

  function MailboxOf(v: NodeView, id: Id): Mailbox {
    var open := id in v.peers && v.peers[id].connected;
    Mailbox(Sent(v, id), open, if open then v.peers[id].sent else 0, v.own, v.status)
  }

  function Post(m: Mailbox, body: Body): Mailbox {
    if !m.open then m
    else m.(stream := m.stream + [Packet(NextSequence(m.sent), body)], sent := NextSequence(m.sent))
  }

  function Closed(m: Mailbox): Mailbox {
    m.(open := false, sent := 0)
  }

  function Opened(m: Mailbox): Mailbox {
    m.(open := true, sent := 0)
  }

  ghost predicate Unrepeated(names: seq<Name>) {
    forall i, j :: 0 <= i < j < |names| ==> names[i] != names[j]
  }

  /** The stream is in order; and while the mailbox is open its reader can follow it, and knows the sender's status. */
  ghost predicate Serves(m: Mailbox) {
    && Unrepeated(m.own) && Ordered(m.stream)
    && (m.open ==>
          && m.stream != [] && m.sent == m.stream[|m.stream| - 1].sequence
          && StatusTold(m.stream) == m.status)
  }

  /** While the mailbox is open, a reader of the whole stream knows the sender's groups. */
  ghost predicate Tells(m: Mailbox) {
    m.open ==> GroupsTold(m.stream) == SetOf(m.own)
  }

  ghost predicate ToldAt(m: Mailbox, i: int) {
    0 <= i < |m.stream| ==> GroupsTold(m.stream[..i + 1]) == SetOf(m.own)
  }

  ghost predicate HelloTells(m: Mailbox, i: int) {
    0 <= i < |m.stream| && m.stream[i].body.Hello? ==> m.stream[i].body.groups == m.own
  }

  /** The stream stays in order, and each HELLO that was added lists the groups as they are then. */
  ghost predicate Grows(m: Mailbox, n: Mailbox) {
    && m.stream <= n.stream && (Serves(m) ==> Serves(n))
    && (forall i :: i >= |m.stream| ==> HelloTells(n, i))
  }

  /** At each packet that was added a reader knows the groups as they are then. */
  ghost predicate TellsMore(m: Mailbox, n: Mailbox) {
    Serves(m) && Tells(m) ==> Tells(n) && forall i :: i >= |m.stream| ==> ToldAt(n, i)
  }

  /** What a mailbox may become without misleading its reader. */
  ghost function Growths(m: Mailbox): iset<Mailbox> {
    iset n: Mailbox | Grows(m, n) && TellsMore(m, n)
  }

  ghost predicate Advances(m: Mailbox, n: Mailbox) {
    n in Growths(m)
  }

  /** The same, with the groups and status left alone. */
  ghost predicate Carries(m: Mailbox, n: Mailbox) {
    n.own == m.own && n.status == m.status && Advances(m, n)
  }

  lemma CarriesTwice(l: Mailbox, m: Mailbox, n: Mailbox)
    requires Carries(l, m) && Carries(m, n)
    ensures Carries(l, n)
  {
    forall i | i >= |l.stream| ensures HelloTells(n, i) {
      if i < |m.stream| {
        assert HelloTells(m, i);
      }
    }
    forall i | i >= |l.stream| && Serves(l) && Tells(l) ensures ToldAt(n, i) {
      if i < |m.stream| {
        assert ToldAt(m, i);
        assert m.stream[..i + 1] == n.stream[..i + 1];
      }
    }
  }

  /** What a mailbox may become if its reader, who knew the groups, is mistold or not. */
  ghost function Sequels(m: Mailbox, mistold: bool): iset<Mailbox> {
    iset n |
      && Grows(m, n)
      && (!mistold ==> TellsMore(m, n))
      && (Serves(m) && Tells(m) ==> (Tells(n) <==> !mistold))
  }

  /** The reader can follow on; and it goes on knowing the groups exactly if it was not mistold. */
  ghost predicate Goes(m: Mailbox, n: Mailbox, mistold: bool) {
    n in Sequels(m, mistold)
  }

  predicate Plain(body: Body) {
    !body.Hello? && !body.Join? && !body.Leave?
  }

  lemma AppendKeepsOrder(s: Stream, p: Packet)
    requires Ordered(s) && InOrder(s + [p], |s|)
    ensures Ordered(s + [p])
  {
    forall i ensures InOrder(s + [p], i) {
      if 0 <= i < |s| {
        assert InOrder(s, i);
        assert (s + [p])[..i] == s[..i];
      }
    }
  }

  lemma AppendGrows(m: Mailbox, n: Mailbox, p: Packet)
    requires n.stream == m.stream + [p] && (p.body.Hello? ==> p.body.groups == n.own)
    requires Serves(m) ==>
      && Unrepeated(n.own) && InOrder(n.stream, |m.stream|)
      && StatusTold(n.stream) == n.status && n.sent == p.sequence
    ensures Grows(m, n)
  {
    if Serves(m) {
      AppendKeepsOrder(m.stream, p);
    }
  }

  /** Adding a packet that leaves the reader knowing `n`'s groups does not mislead it. */
  lemma AppendTells(m: Mailbox, n: Mailbox, p: Packet)
    requires n.stream == m.stream + [p]
    requires Serves(m) && Tells(m) ==> GroupsTold(n.stream) == SetOf(n.own)
    ensures TellsMore(m, n)
  {
    forall i | i >= |m.stream| && Serves(m) && Tells(m) ensures ToldAt(n, i) {
      if i == |m.stream| {
        assert n.stream[..i + 1] == n.stream;
      }
    }
  }

  lemma PlainTellsNothing(s: Stream, p: Packet)
    requires Plain(p.body)
    ensures GroupsTold(s + [p]) == GroupsTold(s) && StatusTold(s + [p]) == StatusTold(s)
  {
    assert (s + [p])[..|s|] == s;
  }

  lemma PostPlain(m: Mailbox, body: Body)
    requires Plain(body)
    ensures Carries(m, Post(m, body))
  {
    if m.open {
      var n, p := Post(m, body), Packet(NextSequence(m.sent), body);
      PlainTellsNothing(m.stream, p);
      assert Serves(m) ==> InOrder(n.stream, |m.stream|);
      AppendGrows(m, n, p);
      AppendTells(m, n, p);
    } else {
      Idle(m);
    }
  }

  lemma Idle(m: Mailbox)
    ensures Carries(m, m) && Carries(m, Closed(m))
  {
  }

  lemma PostHello(m: Mailbox, endpoint: Octets)
    ensures Carries(m, Post(Opened(m), Hello(endpoint, m.own, m.status)))
  {
    var n := Post(Opened(m), Hello(endpoint, m.own, m.status));
    AppendGrows(m, n, n.stream[|m.stream|]);
    AppendTells(m, n, n.stream[|m.stream|]);
  }

  function Joining(m: Mailbox, g: Name): Mailbox {
    Post(m.(own := m.own + [g], status := NextByte(m.status)), Join(Fixed(g), NextByte(m.status)))
  }

  /** A JOIN keeps the reader following; it misleads the reader exactly if the name is too long. */
  lemma PostJoin(m: Mailbox, g: Name)
    requires g !in m.own
    ensures Goes(m, Joining(m, g), m.open && |g| > 255)
  {
    var n := Joining(m, g);
    assert SetOf(n.own) == SetOf(m.own) + {g};
    if m.open {
      assert n.stream[..|m.stream|] == m.stream;
      assert GroupsTold(n.stream) == GroupsTold(m.stream) + {Fixed(g)};
      assert |g| <= 255 ==> Fixed(g) == g;
      AppendGrows(m, n, n.stream[|m.stream|]);
      if |g| <= 255 {
        AppendTells(m, n, n.stream[|m.stream|]);
      } else if Serves(m) && Tells(m) {
        assert g in SetOf(n.own) && g !in GroupsTold(n.stream);
      }
    }
  }

  lemma {:induction false} WithoutRemoves(names: seq<Name>, g: Name)
    requires Unrepeated(names)
    ensures var rest := Without(names, g);
            SetOf(rest) == SetOf(names) - {g} && Unrepeated(rest)
    decreases |names|
  {
    if names != [] {
      assert names == [names[0]] + names[1..];
      assert SetOf(names) == {names[0]} + SetOf(names[1..]);
      assert names[0] !in SetOf(names[1..]);
      if names[0] != g {
        WithoutRemoves(names[1..], g);
        var rest := Without(names[1..], g);
        assert SetOf([names[0]] + rest) == {names[0]} + SetOf(rest);
        forall i | 0 <= i < |rest| ensures rest[i] != names[0] {
          assert rest[i] in SetOf(rest);
        }
      }
    }
  }

  function Leaving(m: Mailbox, g: Name): Mailbox {
    Post(m.(status := NextByte(m.status)), Leave(Fixed(g), NextByte(m.status))).(own := Without(m.own, g))
  }

  /** So does a LEAVE. */
  lemma PostLeave(m: Mailbox, g: Name)
    requires g in m.own
    ensures Goes(m, Leaving(m, g), m.open && |g| > 255)
  {
    var n := Leaving(m, g);
    if Serves(m) {
      WithoutRemoves(m.own, g);
    }
    if m.open {
      assert n.stream[..|m.stream|] == m.stream;
      assert GroupsTold(n.stream) == GroupsTold(m.stream) - {Fixed(g)};
      assert |g| <= 255 ==> Fixed(g) == g;
      AppendGrows(m, n, n.stream[|m.stream|]);
      if |g| <= 255 {
        AppendTells(m, n, n.stream[|m.stream|]);
      } else if Serves(m) && Tells(m) {
        assert g !in SetOf(n.own) && g in GroupsTold(n.stream);
      }
    }
  }

  // ---- what each operation of the node does to the mailbox ----

  lemma SendPosts(v: NodeView, to: set<Id>, body: Body, id: Id)
    ensures MailboxOf(SendAll(v, to, body), id) == if id in to then Post(MailboxOf(v, id), body) else MailboxOf(v, id)
  {
  }

  /** What a mailbox may become while the node's own groups and status stay as they are. */
  ghost function Futures(m: Mailbox): iset<Mailbox> {
    iset n | Carries(m, n)
  }

  /** The node keeps serving the peer. */
  ghost predicate Serving(v: NodeView, w: NodeView, id: Id) {
    MailboxOf(w, id) in Futures(MailboxOf(v, id))
  }

  lemma ServingTwice(u: NodeView, v: NodeView, w: NodeView, id: Id)
    requires Serving(u, v, id) && Serving(v, w, id)
    ensures Serving(u, w, id)
  {
    CarriesTwice(MailboxOf(u, id), MailboxOf(v, id), MailboxOf(w, id));
  }

  lemma SendServes(v: NodeView, to: set<Id>, body: Body, id: Id)
    requires Plain(body)
    ensures Serving(v, SendAll(v, to, body), id)
  {
    SendPosts(v, to, body, id);
    PostPlain(MailboxOf(v, id), body);
    Idle(MailboxOf(v, id));
  }

  lemma SameServes(v: NodeView, w: NodeView, id: Id)
    requires MailboxOf(w, id) == MailboxOf(v, id) || MailboxOf(w, id) == Closed(MailboxOf(v, id))
    ensures Serving(v, w, id)
  {
    Idle(MailboxOf(v, id));
  }

  lemma StartServes(me: Self, v: NodeView, g: Name, id: Id)
    ensures Serving(v, StartElection(me, v, g), id)
  {
    var group := GroupOf(v, g).(election := Some(Rules.Started(me.id)), leader := None);
    var v1 := v.(groups := v.groups[g := group]);
    SendServes(v1, group.members, Elect(Fixed(g), me.id), id);
    assert MailboxOf(v1, id) == MailboxOf(v, id);
  }

  lemma RestartServes(me: Self, v: NodeView, x: Id, g: Name, id: Id)
    ensures Serving(v, Restart(me, v, x, g), id)
  {
    var v1 := RequireGroup(v, g);
    assert MailboxOf(v1, id) == MailboxOf(v, id);
    SameServes(v, v1, id);
    StartServes(me, v1, g, id);
    SameServes(v1, LeadAlone(me, v1, g), id);
  }

  lemma {:induction false} RestartAllServes(me: Self, v: NodeView, x: Id, names: seq<Name>, id: Id)
    ensures Serving(v, RestartAll(me, v, x, names), id)
    decreases |names|
  {
    if names == [] {
      SameServes(v, v, id);
    } else {
      var v1 := Restart(me, v, x, names[0]);
      RestartServes(me, v, x, names[0], id);
      RestartAllServes(me, v1, x, names[1..], id);
      ServingTwice(v, v1, RestartAll(me, v, x, names), id);
    }
  }

  lemma RemoveServes(me: Self, v: NodeView, x: Id, id: Id)
    ensures Serving(v, RemovePeer(me, v, x), id)
  {
    var v1 := Tell(v, Exit(x));
    var v2, w := RestartAll(me, v1, x, v.own), RemovePeer(me, v, x);
    RestartAllServes(me, v1, x, v.own, id);
    assert MailboxOf(v1, id) == MailboxOf(v, id);
    SameServes(v2, w, id);
    ServingTwice(v, v2, w, id);
  }

  lemma RequireServes(me: Self, v: NodeView, x: Id, endpoint: Octets, connects: bool, id: Id)
    ensures Serving(v, RequirePeer(me, v, x, endpoint, connects), id)
  {
    var v1, w := Purge(v, endpoint), RequirePeer(me, v, x, endpoint, connects);
    SameServes(v, v, id);
    SameServes(v, v1, id);
    if x !in v.peers && connects {
      var v2 := v1.(peers := v1.peers[x := Connected(NEW_PEER, endpoint)]);
      SendPosts(v2, {x}, Hello(me.announced, v.own, v.status), id);
      if x == id {
        assert MailboxOf(v2, id) == Opened(MailboxOf(v, id));
        PostHello(MailboxOf(v, id), me.announced);
      } else {
        assert MailboxOf(v2, id) == MailboxOf(v1, id);
      }
    }
  }

  lemma JoinAndStartServes(me: Self, v: NodeView, x: Id, g: Name, id: Id)
    requires x in v.peers
    ensures Serving(v, JoinAndStart(me, v, x, g), id)
  {
    var v1 := JoinPeerGroup(v, x, g);
    assert MailboxOf(v1, id) == MailboxOf(v, id);
    SameServes(v, v1, id);
    StartServes(me, v1, g, id);
  }

  lemma {:induction false} JoinAllServes(me: Self, v: NodeView, x: Id, names: seq<Name>, id: Id)
    requires x in v.peers
    ensures Serving(v, JoinAll(me, v, x, names), id)
    decreases |names|
  {
    if names == [] {
      SameServes(v, v, id);
    } else {
      var v1 := JoinAndStart(me, v, x, names[0]);
      JoinAndStartServes(me, v, x, names[0], id);
      JoinAllServes(me, v1, x, names[1..], id);
      ServingTwice(v, v1, JoinAll(me, v, x, names), id);
    }
  }

  lemma HelloServes(me: Self, v: NodeView, x: Id, groups: seq<Name>, status: byte, id: Id)
    requires x in v.peers
    ensures Serving(v, OnHello(me, v, x, groups, status), id)
  {
    var v1 := Tell(v, Enter(x));
    assert MailboxOf(v1, id) == MailboxOf(v, id);
    JoinAllServes(me, v1, x, groups, id);
    JoinAllKeepsPeers(me, v1, x, groups);
    assert MailboxOf(OnHello(me, v, x, groups, status), id) == MailboxOf(JoinAll(me, v1, x, groups), id);
  }

  lemma OnJoinServes(me: Self, v: NodeView, x: Id, g: Name, status: byte, id: Id)
    requires x in v.peers
    ensures Serving(v, OnJoin(me, v, x, g, status), id)
  {
    var v1, w := JoinPeerGroup(v, x, g), OnJoin(me, v, x, g, status);
    assert MailboxOf(v1, id) == MailboxOf(v, id);
    StartServes(me, v1, g, id);
    if w != StartElection(me, v1, g) {
      SameServes(v, w, id);
    }
  }

  lemma OnLeaveServes(me: Self, v: NodeView, x: Id, g: Name, status: byte, id: Id)
    requires x in v.peers
    ensures Serving(v, OnLeave(me, v, x, g, status), id)
  {
    var v1, w := LeavePeerGroup(v, x, g), OnLeave(me, v, x, g, status);
    assert MailboxOf(v1, id) == MailboxOf(v, id);
    StartServes(me, v1, g, id);
    if w != StartElection(me, v1, g) {
      SameServes(v, w, id);
    }
  }

  lemma {:induction false} CastsServe(v: NodeView, g: Name, casts: seq<Rules.Cast<Id>>, id: Id)
    ensures Serving(v, SendCasts(v, g, casts), id)
    decreases |casts|
  {
    if casts == [] {
      SameServes(v, v, id);
    } else {
      var v1 := SendAll(v, casts[0].to, TokenBody(g, casts[0].token));
      SendServes(v, casts[0].to, TokenBody(g, casts[0].token), id);
      CastsServe(v1, g, casts[1..], id);
      ServingTwice(v, v1, SendCasts(v, g, casts), id);
    }
  }

  lemma ElectServes(me: Self, v: NodeView, x: Id, g: Name, challenger: Id, id: Id)
    ensures Serving(v, OnElect(me, v, x, g, challenger), id)
  {
    var out := Rules.OnElect(StrLess, me.id, GroupOf(v, g).members, GroupOf(v, g).election, x, challenger);
    var v1 := v.(groups := v.groups[g := GroupOf(v, g).(election := Some(out.record))]);
    assert MailboxOf(v1, id) == MailboxOf(v, id);
    CastsServe(v1, g, out.casts, id);
  }

  lemma LeaderServes(me: Self, v: NodeView, g: Name, leader: Id, id: Id)
    ensures Serving(v, OnLeader(me, v, g, leader), id)
  {
    var out := Rules.OnLeader(me.id, GroupOf(v, g).members, GroupOf(v, g).election, leader);
    var follows := out.verdict.Some? && leader != me.id && leader in v.peers;
    var group := GroupOf(v, g).(election := out.election, leader := if follows then Some(leader) else GroupOf(v, g).leader);
    var v1 := v.(groups := v.groups[g := group]);
    assert MailboxOf(v1, id) == MailboxOf(v, id);
    CastsServe(v1, g, out.casts, id);
    var v2 := SendCasts(v1, g, out.casts);
    assert MailboxOf(Tell(v2, Elected(leader, g)), id) == MailboxOf(v2, id);
  }

  lemma ProcessServes(me: Self, v: NodeView, x: Id, body: Body, id: Id)
    requires x in v.peers
    ensures Serving(v, Process(me, v, x, body), id)
  {
    match body
    case Hello(_, groups, status) => HelloServes(me, v, x, groups, status, id);
    case Ping => SendServes(v, {x}, PingOk, id);
    case Join(g, status) => OnJoinServes(me, v, x, g, status, id);
    case Leave(g, status) => OnLeaveServes(me, v, x, g, status, id);
    case Elect(g, challenger) => ElectServes(me, v, x, g, challenger, id);
    case Leader(g, leader) => LeaderServes(me, v, g, leader, id);
    case Goodbye => RemoveServes(me, v, x, id); SameServes(v, v, id);
    case _ => SameServes(v, Process(me, v, x, body), id);
  }

  lemma ReplaceServes(me: Self, v: NodeView, x: Id, id: Id)
    ensures Serving(v, if x in v.peers && v.peers[x].ready then RemovePeer(me, v, x) else v, id)
  {
    SameServes(v, v, id);
    RemoveServes(me, v, x, id);
  }

  lemma ReadyServes(me: Self, v: NodeView, x: Id, endpoint: Octets, connects: bool, id: Id)
    ensures var w := RequirePeer(me, v, x, endpoint, connects);
            Serving(v, if x in w.peers then w.(peers := w.peers[x := w.peers[x].(ready := true)]) else w, id)
  {
    var w := RequirePeer(me, v, x, endpoint, connects);
    RequireServes(me, v, x, endpoint, connects, id);
    if x in w.peers {
      assert MailboxOf(w.(peers := w.peers[x := w.peers[x].(ready := true)]), id) == MailboxOf(w, id);
    }
  }

  lemma GreetServes(me: Self, v: NodeView, x: Id, endpoint: Octets, connects: bool, id: Id)
    ensures Serving(v, Greet(me, v, x, endpoint, connects), id)
  {
    SameServes(v, v, id);
    if !(x in v.peers && !v.peers[x].ready && Endpoint(v.peers[x]) == me.endpoint) {
      var v1 := if x in v.peers && v.peers[x].ready then RemovePeer(me, v, x) else v;
      ReplaceServes(me, v, x, id);
      ReadyServes(me, v1, x, endpoint, connects, id);
      ServingTwice(v, v1, Greet(me, v, x, endpoint, connects), id);
    }
  }

  lemma HandleServes(me: Self, v: NodeView, x: Id, p: Packet, id: Id)
    requires x in v.peers
    ensures var checked := Checked(v, x, p.body);
            Serving(v, if checked.peers[x].want != p.sequence then RemovePeer(me, checked, x) else Process(me, checked, x, p.body), id)
  {
    var checked := Checked(v, x, p.body);
    assert MailboxOf(checked, id) == MailboxOf(v, id);
    RemoveServes(me, checked, x, id);
    ProcessServes(me, checked, x, p.body, id);
  }

  lemma ReceiveServes(me: Self, v: NodeView, x: Id, p: Packet, connects: bool, id: Id)
    ensures Serving(v, Receive(me, v, x, p, connects), id)
  {
    var v1 := Greeted(me, v, x, p, connects);
    SameServes(v, v, id);
    if p.body.Hello? {
      GreetServes(me, v, x, p.body.endpoint, connects, id);
    }
    if x in v1.peers && v1.peers[x].ready {
      HandleServes(me, v1, x, p, id);
      ServingTwice(v, v1, Receive(me, v, x, p, connects), id);
    }
  }

  /** The node tells an open mailbox of a group whose name is longer than 255 octets, what the frame holds of it. */
  predicate Mistells(v: NodeView, a: Action, id: Id) {
    && !v.failed && MailboxOf(v, id).open
    && ((a.Joins? && a.group !in v.own && |a.group| > 255) || (a.Leaves? && a.group in v.own && |a.group| > 255))
  }

  ghost predicate Continues(v: NodeView, w: NodeView, id: Id, mistold: bool) {
    Goes(MailboxOf(v, id), MailboxOf(w, id), mistold)
  }

  lemma ServingContinues(v: NodeView, w: NodeView, id: Id)
    requires Serving(v, w, id)
    ensures Continues(v, w, id, false)
  {
  }

  /**
   Whatever the node does, the reader of its stream can follow; and it goes on
   knowing the node's groups exactly if the node does not mistell them.
   */
  lemma ActAdvances(me: Self, v: NodeView, a: Action, id: Id)
    ensures Continues(v, Act(me, v, a), id, Mistells(v, a, id))
  {
    if a.Joins? && a.group !in v.own && !v.failed {
      JoinIsJoining(v, a.group, id);
      PostJoin(MailboxOf(v, id), a.group);
    } else if a.Leaves? && a.group in v.own && !v.failed {
      LeaveIsLeaving(v, a.group, id);
      PostLeave(MailboxOf(v, id), a.group);
    } else {
      OtherActServes(me, v, a, id);
      ServingContinues(v, Act(me, v, a), id);
    }
  }

  lemma OtherActServes(me: Self, v: NodeView, a: Action, id: Id)
    requires a.Joins? && !v.failed ==> a.group in v.own
    requires a.Leaves? && !v.failed ==> a.group !in v.own
    ensures Serving(v, Act(me, v, a), id)
  {
    SameServes(v, v, id);
    if !v.failed {
      match a
      case Receives(x, p, connects) => ReceiveServes(me, v, x, p, connects, id);
      case Discovers(x, endpoint, connects) => RequireServes(me, v, x, endpoint, connects, id);
      case Expires(x) => RemoveServes(me, v, x, id);
      case Pokes(x) => SendServes(v, {x}, Ping, id);
      case Whispers(x, content) => SendServes(v, {x}, Whisper(content), id);
      case Shouts(g, content) => SendServes(v, GroupOf(v, g).members, Shout(Fixed(g), content), id);
      case Joins(g) =>
      case Leaves(g) =>
      case Contests(g) => SameServes(v, Act(me, v, a), id);
      case Stops => SendServes(v, v.peers.Keys, Goodbye, id);
    }
  }

  lemma JoinIsJoining(v: NodeView, g: Name, id: Id)
    requires g !in v.own
    ensures MailboxOf(ApiJoin(v, g), id) == Joining(MailboxOf(v, id), g)
  {
    var v1 := v.(own := v.own + [g], status := NextByte(v.status));
    SendPosts(v1, v1.peers.Keys, Join(Fixed(g), v1.status), id);
  }

  lemma LeaveIsLeaving(v: NodeView, g: Name, id: Id)
    requires g in v.own
    ensures MailboxOf(ApiLeave(v, g), id) == Leaving(MailboxOf(v, id), g)
  {
    var v1 := v.(status := NextByte(v.status));
    SendPosts(v1, v1.peers.Keys, Leave(Fixed(g), v1.status), id);
  }
}
