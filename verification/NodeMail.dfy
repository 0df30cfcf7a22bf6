/**
 What a node sends: for everything that can happen to it, and for every peer,
 exactly the messages added to that peer's mail, in order.
 */
module NodeMail {
  import opened Basics
  import opened CStrings
  import opened NodeRules
  import opened NodeStreams
  import opened NodeElections
  import opened NodeRestarts
  import Rules = ElectionRules
  import Net = ElectionNetwork

  /** All that the peer has been sent, over all its mailboxes. */
  function MailTo(v: NodeView, x: Id): seq<Body> {
    BodiesOf(Sent(v, x))
  }

  lemma SendMails(v: NodeView, to: set<Id>, body: Body, x: Id)
    ensures Open(SendAll(v, to, body), x) == Open(v, x)
    ensures MailTo(SendAll(v, to, body), x) == MailTo(v, x) + if x in to && Open(v, x) then [body] else []
  {
    SendPosts(v, to, body, x);
  }

  /** Sending counts the message for a connected peer that it goes to, and changes no other. */
  lemma SendCounts(v: NodeView, to: set<Id>, body: Body, x: Id)
    requires x in v.peers
    ensures SendAll(v, to, body).peers.Keys == v.peers.Keys
    ensures SendAll(v, to, body).peers[x]
         == if x in to && Open(v, x) then v.peers[x].(sent := (v.peers[x].sent + 1) % 0x1_0000) else v.peers[x]
  {
  }

  // ---- the application's messages ----

  /** SHOUT reaches the connected members of the group, and nobody else. */
  lemma ShoutMails(me: Self, v: NodeView, g: Name, content: seq<Octets>, x: Id)
    requires !v.failed
    ensures MailTo(Act(me, v, Shouts(g, content)), x)
         == MailTo(v, x) + if x in GroupOf(v, g).members && Open(v, x) then [Shout(Fixed(g), content)] else []
  {
    if g in v.groups {
      SendMails(v, v.groups[g].members, Shout(Fixed(g), content), x);
    }
  }

  /** WHISPER reaches the one peer, if it is connected. */
  lemma WhisperMails(me: Self, v: NodeView, id: Id, content: seq<Octets>, x: Id)
    requires !v.failed
    ensures MailTo(Act(me, v, Whispers(id, content)), x)
         == MailTo(v, x) + if x == id && Open(v, x) then [Whisper(content)] else []
  {
    SendMails(v, {id}, Whisper(content), x);
  }

  /** A group that is new to us is told to every connected peer, with the next status. */
  lemma JoinGroupMails(me: Self, v: NodeView, g: Name, x: Id)
    requires !v.failed
    ensures MailTo(Act(me, v, Joins(g)), x)
         == MailTo(v, x) + if g !in v.own && Open(v, x) then [Join(Fixed(g), (v.status + 1) % 0x100)] else []
  {
    if g !in v.own {
      SendMails(v.(own := v.own + [g], status := NextByte(v.status)), v.peers.Keys, Join(Fixed(g), NextByte(v.status)), x);
    }
  }

  /** So is one that we leave. */
  lemma LeaveGroupMails(me: Self, v: NodeView, g: Name, x: Id)
    requires !v.failed
    ensures MailTo(Act(me, v, Leaves(g)), x)
         == MailTo(v, x) + if g in v.own && Open(v, x) then [Leave(Fixed(g), (v.status + 1) % 0x100)] else []
  {
    if g in v.own {
      SendMails(v.(status := NextByte(v.status)), v.peers.Keys, Leave(Fixed(g), NextByte(v.status)), x);
    }
  }

  // ---- elections that a message starts ----

  /** One ELECT with our identity for each of these groups in turn that we contest and that lists `x` once it lists `id`. */
  function HelloChallenges(me: Self, v: NodeView, id: Id, x: Id, names: seq<Name>): seq<Body> {
    if names == [] || !Open(v, x) then []
    else
      var group := GroupOf(v, names[0]);
      (if group.contest && (x == id || x in group.members) then [Elect(Fixed(names[0]), me.id)] else [])
      + HelloChallenges(me, v, id, x, names[1..])
  }

  lemma StartMails(me: Self, v: NodeView, g: Name, x: Id)
    ensures Open(StartElection(me, v, g), x) == Open(v, x)
    ensures MailTo(StartElection(me, v, g), x)
         == MailTo(v, x) + if x in GroupOf(v, g).members && Open(v, x) then [Elect(Fixed(g), me.id)] else []
  {
    var group := GroupOf(v, g).(election := Some(Rules.Started(me.id)), leader := None);
    SendMails(v.(groups := v.groups[g := group]), group.members, Elect(Fixed(g), me.id), x);
  }

  lemma JoinAndStartMails(me: Self, v: NodeView, id: Id, h: Name, x: Id)
    requires id in v.peers
    ensures Open(JoinAndStart(me, v, id, h), x) == Open(v, x)
    ensures MailTo(JoinAndStart(me, v, id, h), x) == MailTo(v, x) + HelloChallenges(me, v, id, x, [h])
  {
    var v1 := JoinPeerGroup(v, id, h);
    assert Open(v1, x) == Open(v, x) && MailTo(v1, x) == MailTo(v, x);
    StartMails(me, v1, h, x);
  }

  /** Joining one group changes neither which groups are challenged nor who hears of them. */
  lemma {:induction false} JoinKeepsChallenges(me: Self, v: NodeView, id: Id, h: Name, x: Id, names: seq<Name>)
    requires id in v.peers
    ensures HelloChallenges(me, JoinAndStart(me, v, id, h), id, x, names) == HelloChallenges(me, v, id, x, names)
    decreases |names|
  {
    JoinAndStartMails(me, v, id, h, x);
    if names != [] {
      JoinKeepsGroup(me, v, id, h, names[0]);
      JoinKeepsChallenges(me, v, id, h, x, names[1..]);
    }
  }

  lemma JoinKeepsGroup(me: Self, v: NodeView, id: Id, h: Name, g: Name)
    requires id in v.peers
    ensures var group := GroupOf(JoinAndStart(me, v, id, h), g);
            group.contest == GroupOf(v, g).contest && group.members + {id} == GroupOf(v, g).members + {id}
  {
  }

  lemma FirstHelloChallenge(me: Self, v: NodeView, id: Id, x: Id, names: seq<Name>)
    requires names != []
    ensures HelloChallenges(me, v, id, x, names)
         == HelloChallenges(me, v, id, x, [names[0]]) + HelloChallenges(me, v, id, x, names[1..])
  {
    var rest: seq<Name> := [];
    assert [names[0]][1..] == rest;
  }

  lemma {:induction false} JoinAllMails(me: Self, v: NodeView, id: Id, names: seq<Name>, x: Id)
    requires id in v.peers
    ensures MailTo(JoinAll(me, v, id, names), x) == MailTo(v, x) + HelloChallenges(me, v, id, x, names)
    decreases |names|
  {
    if names != [] {
      JoinAndStartMails(me, v, id, names[0], x);
      JoinAllMails(me, JoinAndStart(me, v, id, names[0]), id, names[1..], x);
      JoinKeepsChallenges(me, v, id, names[0], x, names[1..]);
      FirstHelloChallenge(me, v, id, x, names);
      AppendTwice(MailTo(v, x), HelloChallenges(me, v, id, x, [names[0]]), HelloChallenges(me, v, id, x, names[1..]));
    }
  }

  /**
   A HELLO makes the node challenge in each listed group that it contests, in
   turn, every connected peer that is listed there by then, its sender included.
   */
  lemma HelloMails(me: Self, v: NodeView, id: Id, names: seq<Name>, status: byte, x: Id)
    requires id in v.peers
    ensures MailTo(OnHello(me, v, id, names, status), x) == MailTo(v, x) + HelloChallenges(me, v, id, x, names)
  {
    var v1 := Tell(v, Enter(id));
    JoinAllMails(me, v1, id, names, x);
    JoinAllKeepsPeers(me, v1, id, names);
    SameHelloChallenges(me, v, v1, id, x, names);
  }

  lemma {:induction false} SameHelloChallenges(me: Self, v: NodeView, w: NodeView, id: Id, x: Id, names: seq<Name>)
    requires Open(w, x) == Open(v, x) && w.groups == v.groups
    ensures HelloChallenges(me, w, id, x, names) == HelloChallenges(me, v, id, x, names)
    decreases |names|
  {
    if names != [] {
      SameHelloChallenges(me, v, w, id, x, names[1..]);
    }
  }

  /** The status assertion of a JOIN or LEAVE holds, and it concerns a group of ours that we contest. */
  predicate Counts(v: NodeView, id: Id, g: Name, status: byte)
    requires id in v.peers
  {
    (v.peers[id].status + 1) % 0x100 == status && g in v.own && GroupOf(v, g).contest
  }

  /** A JOIN makes the node challenge every connected peer then listed, its sender included. */
  lemma JoinMails(me: Self, v: NodeView, id: Id, g: Name, status: byte, x: Id)
    requires id in v.peers
    ensures MailTo(OnJoin(me, v, id, g, status), x)
         == MailTo(v, x) + if Counts(v, id, g, status) && Open(v, x) && (x == id || x in GroupOf(v, g).members)
                           then [Elect(Fixed(g), me.id)] else []
  {
    JoinedMails(v, id, g, x);
    StartMails(me, JoinPeerGroup(v, id, g), g, x);
  }

  lemma JoinedMails(v: NodeView, id: Id, g: Name, x: Id)
    requires id in v.peers
    ensures var w := JoinPeerGroup(v, id, g);
            && Open(w, x) == Open(v, x) && MailTo(w, x) == MailTo(v, x)
            && GroupOf(w, g).members == GroupOf(v, g).members + {id}
  {
  }

  /** A LEAVE of the leader makes it challenge every connected peer that is left. */
  lemma LeaveMails(me: Self, v: NodeView, id: Id, g: Name, status: byte, x: Id)
    requires id in v.peers
    ensures MailTo(OnLeave(me, v, id, g, status), x)
         == MailTo(v, x) + if Counts(v, id, g, status) && GroupOf(v, g).leader == Some(id)
                              && Open(v, x) && x != id && x in GroupOf(v, g).members
                           then [Elect(Fixed(g), me.id)] else []
  {
    var v1 := LeavePeerGroup(v, id, g);
    assert Open(v1, x) == Open(v, x) && MailTo(v1, x) == MailTo(v, x);
    StartMails(me, v1, g, x);
    assert MailTo(LeadAlone(me, v1, g), x) == MailTo(v, x);
  }

  // ---- the messages of an election ----

  function Spoken(g: Name, tokens: Tokens): seq<Body> {
    seq(|tokens|, i requires 0 <= i < |tokens| => TokenBody(g, tokens[i]))
  }

  lemma CastsMail(v: NodeView, g: Name, casts: seq<Rules.Cast<Id>>, x: Id)
    requires Open(v, x)
    ensures MailTo(SendCasts(v, g, casts), x) == MailTo(v, x) + Spoken(g, Net.Mail(casts, x))
  {
    CastsNumbered(v, g, casts, x);
    assert BodiesOf(Numbered(v.peers[x].sent, g, Net.Mail(casts, x))) == Spoken(g, Net.Mail(casts, x));
    BodiesTwice(Sent(v, x), Numbered(v.peers[x].sent, g, Net.Mail(casts, x)));
  }

  lemma BodiesTwice(s: Stream, t: Stream)
    ensures BodiesOf(s + t) == BodiesOf(s) + BodiesOf(t)
  {
  }

  lemma {:induction false} CastsMailNobody(v: NodeView, g: Name, casts: seq<Rules.Cast<Id>>, x: Id)
    requires !Open(v, x)
    ensures MailTo(SendCasts(v, g, casts), x) == MailTo(v, x)
    decreases |casts|
  {
    if casts != [] {
      SendMails(v, casts[0].to, TokenBody(g, casts[0].token), x);
      CastsMailNobody(SendAll(v, casts[0].to, TokenBody(g, casts[0].token)), g, casts[1..], x);
    }
  }

  /** The challenger comes before our wave, or we have none. */
  ghost predicate Superior(r: Record, challenger: Id) {
    r.caw.None? || Precedes(challenger, r.caw.value)
  }

  /** This ELECT is the last one that the wave still lacked. */
  ghost predicate Completes(group: GroupView, challenger: Id) {
    var r := Rules.RequireRecord(group.election);
    if Superior(r, challenger) then |group.members| == 1
    else r.caw == Some(challenger) && Rules.Increment(r.erec) == |group.members|
  }

  /**
   What ELECT from `id` makes the node send to a connected peer: the challenger
   is passed on to the members but `id` if it is superior; and if that completes
   the wave, it is announced to the members if it is our own, and echoed to the
   father otherwise.
   */
  ghost function ElectMail(me: Self, group: GroupView, id: Id, g: Name, challenger: Id, x: Id): seq<Body> {
    var r := Rules.RequireRecord(group.election);
    var father := if Superior(r, challenger) then Some(id) else r.father;
    (if Superior(r, challenger) && x in group.members && x != id then [Elect(Fixed(g), challenger)] else [])
    + if !Completes(group, challenger) then []
      else if challenger == me.id then if x in group.members then [Leader(Fixed(g), challenger)] else []
      else if father == Some(x) then [Elect(Fixed(g), challenger)] else []
  }

  lemma ElectMails(me: Self, v: NodeView, id: Id, g: Name, challenger: Id, x: Id)
    ensures MailTo(OnElect(me, v, id, g, challenger), x)
         == MailTo(v, x) + if Open(v, x) then ElectMail(me, GroupOf(v, g), id, g, challenger, x) else []
  {
    var group := GroupOf(v, g);
    var out := Rules.OnElect(StrLess, me.id, group.members, group.election, id, challenger);
    var v1 := v.(groups := v.groups[g := group.(election := Some(out.record))]);
    if Open(v, x) {
      CastsMail(v1, g, out.casts, x);
      ElectSpoken(me, group, id, g, challenger, x);
    } else {
      CastsMailNobody(v1, g, out.casts, x);
    }
  }

  lemma ElectSpoken(me: Self, group: GroupView, id: Id, g: Name, challenger: Id, x: Id)
    ensures Spoken(g, Net.Mail(Rules.OnElect(StrLess, me.id, group.members, group.election, id, challenger).casts, x))
         == ElectMail(me, group, id, g, challenger, x)
  {
    var r := Rules.RequireRecord(group.election);
    if r.caw.Some? {
      StrLessIff(challenger, r.caw.value);
    }
    var casts := Rules.OnElect(StrLess, me.id, group.members, group.election, id, challenger).casts;
    SpokenOfTwo(g, casts, x);
  }

  lemma SpokenOfTwo(g: Name, casts: seq<Rules.Cast<Id>>, x: Id)
    requires |casts| <= 2
    ensures Spoken(g, Net.Mail(casts, x))
         == (if |casts| > 0 && x in casts[0].to then [TokenBody(g, casts[0].token)] else [])
            + if |casts| > 1 && x in casts[1].to then [TokenBody(g, casts[1].token)] else []
  {
    MailOfTwo(casts, x);
  }

  lemma MailOfTwo(casts: seq<Rules.Cast<Id>>, x: Id)
    requires |casts| <= 2
    ensures Net.Mail(casts, x)
         == (if |casts| > 0 && x in casts[0].to then [casts[0].token] else [])
            + if |casts| > 1 && x in casts[1].to then [casts[1].token] else []
  {
    if |casts| > 1 {
      assert casts[1..] == [casts[1]];
      OneMail(casts[1], x);
    } else if |casts| > 0 {
      assert casts == [casts[0]];
      OneMail(casts[0], x);
    }
  }

  /** The first LEADER of another node's wave makes the node tell the members the leader of the wave that it is in. */
  function LeaderMail(me: Self, group: GroupView, g: Name, leader: Id, x: Id): seq<Body> {
    match group.election
    case Some(Record(Some(caw), _, _, 0, _)) =>
      if me.id != leader && x in group.members then [Leader(Fixed(g), caw)] else []
    case _ => []
  }

  lemma LeaderSpoken(me: Self, group: GroupView, g: Name, leader: Id, x: Id)
    ensures Spoken(g, Net.Mail(Rules.OnLeader(me.id, group.members, group.election, leader).casts, x))
         == LeaderMail(me, group, g, leader, x)
  {
    SpokenOfTwo(g, Rules.OnLeader(me.id, group.members, group.election, leader).casts, x);
  }

  lemma LeaderMails(me: Self, v: NodeView, g: Name, leader: Id, x: Id)
    ensures MailTo(OnLeader(me, v, g, leader), x)
         == MailTo(v, x) + if Open(v, x) then LeaderMail(me, GroupOf(v, g), g, leader, x) else []
  {
    var group := GroupOf(v, g);
    var out := Rules.OnLeader(me.id, group.members, group.election, leader);
    var follows := out.verdict.Some? && leader != me.id && leader in v.peers;
    var v1 := v.(groups := v.groups[g := group.(election := out.election, leader := if follows then Some(leader) else group.leader)]);
    LeaderWire(me, v, v1, g, leader, out);
    if Open(v, x) {
      CastsMail(v1, g, out.casts, x);
      LeaderSpoken(me, group, g, leader, x);
    } else {
      CastsMailNobody(v1, g, out.casts, x);
    }
  }

  lemma LeaderWire(me: Self, v: NodeView, v1: NodeView, g: Name, leader: Id, out: Rules.LeaderOut<Id>)
    requires out == Rules.OnLeader(me.id, GroupOf(v, g).members, GroupOf(v, g).election, leader)
    requires var follows := out.verdict.Some? && leader != me.id && leader in v.peers;
      v1 == v.(groups := v.groups[g := GroupOf(v, g).(election := out.election,
                                                     leader := if follows then Some(leader) else GroupOf(v, g).leader)])
    ensures OnLeader(me, v, g, leader).wire == SendCasts(v1, g, out.casts).wire
  {
  }

  // ---- any message, and anything else that happens ----

  /** What a message of `id` that was accepted makes the node send to `x`. */
  ghost function ProcessMail(me: Self, v: NodeView, id: Id, body: Body, x: Id): seq<Body>
    requires id in v.peers
  {
    if !Open(v, x) then []
    else match body
      case Hello(_, groups, _) => HelloChallenges(me, v, id, x, groups)
      case Ping => if x == id then [PingOk] else []
      case Join(g, status) =>
        if Counts(v, id, g, status) && (x == id || x in GroupOf(v, g).members) then [Elect(Fixed(g), me.id)] else []
      case Leave(g, status) =>
        if Counts(v, id, g, status) && GroupOf(v, g).leader == Some(id) && x != id && x in GroupOf(v, g).members
        then [Elect(Fixed(g), me.id)] else []
      case Elect(g, challenger) => ElectMail(me, GroupOf(v, g), id, g, challenger, x)
      case Leader(g, leader) => LeaderMail(me, GroupOf(v, g), g, leader, x)
      case Goodbye => if me.gossip then Challenges(me, v, id, x, v.own) else []
      case _ => []
  }

  lemma ProcessMails(me: Self, v: NodeView, id: Id, body: Body, x: Id)
    requires id in v.peers
    ensures MailTo(Process(me, v, id, body), x) == MailTo(v, x) + ProcessMail(me, v, id, body, x)
  {
    match body
    case Hello(_, groups, status) => HelloMails(me, v, id, groups, status, x);
    case Whisper(_) =>
    case Shout(_, _) =>
    case Ping => SendMails(v, {id}, PingOk, x);
    case PingOk =>
    case Join(g, status) => JoinMails(me, v, id, g, status, x);
    case Leave(g, status) => LeaveMails(me, v, id, g, status, x);
    case Elect(g, challenger) => ElectMails(me, v, id, g, challenger, x);
    case Leader(g, leader) => LeaderMails(me, v, g, leader, x);
    case Goodbye => LossChallenges(me, v, id, x);
  }

  /** A peer that is found and connected to is greeted with our endpoint, groups and status. */
  function FindMail(me: Self, v: NodeView, id: Id, connects: bool, x: Id): seq<Body> {
    if id !in v.peers && connects && x == id then [Hello(me.announced, v.own, v.status)] else []
  }

  lemma FindMails(me: Self, v: NodeView, id: Id, endpoint: Octets, connects: bool, x: Id)
    ensures MailTo(RequirePeer(me, v, id, endpoint, connects), x) == MailTo(v, x) + FindMail(me, v, id, connects, x)
  {
    if id !in v.peers && connects {
      var v1 := Purge(v, endpoint);
      SendMails(v1.(peers := v1.peers[id := Connected(NEW_PEER, endpoint)]), {id}, Hello(me.announced, v.own, v.status), x);
    }
  }

  /** A HELLO from a ready peer first removes it; one that comes from our own endpoint does nothing. */
  function GreetMail(me: Self, v: NodeView, id: Id, connects: bool, x: Id): seq<Body> {
    if id in v.peers && v.peers[id].ready then
      Challenges(me, v, id, x, v.own) + if connects && x == id then [Hello(me.announced, v.own, v.status)] else []
    else FindMail(me, v, id, connects, x)
  }

  lemma GreetMails(me: Self, v: NodeView, id: Id, endpoint: Octets, connects: bool, x: Id)
    ensures MailTo(Greet(me, v, id, endpoint, connects), x) == MailTo(v, x) + GreetMail(me, v, id, connects, x)
  {
    if id in v.peers && v.peers[id].ready {
      ReplaceMails(me, v, id, endpoint, connects, x);
    } else {
      FindMails(me, v, id, endpoint, connects, x);
    }
  }

  lemma ReplaceMails(me: Self, v: NodeView, id: Id, endpoint: Octets, connects: bool, x: Id)
    ensures MailTo(RequirePeer(me, RemovePeer(me, v, id), id, endpoint, connects), x)
         == MailTo(v, x) + (Challenges(me, v, id, x, v.own)
                            + if connects && x == id then [Hello(me.announced, v.own, v.status)] else [])
  {
    LossChallenges(me, v, id, x);
    FindMails(me, RemovePeer(me, v, id), id, endpoint, connects, x);
    RemovalKeepsOwn(me, v, id);
    AppendTwice(MailTo(v, x), Challenges(me, v, id, x, v.own),
                if connects && x == id then [Hello(me.announced, v.own, v.status)] else []);
  }

  lemma {:induction false} RestartKeepsOwn(me: Self, v: NodeView, id: Id, names: seq<Name>)
    ensures RestartAll(me, v, id, names).own == v.own && RestartAll(me, v, id, names).status == v.status
    decreases |names|
  {
    if names != [] {
      RestartKeepsOwn(me, Restart(me, v, id, names[0]), id, names[1..]);
    }
  }

  lemma RemovalKeepsOwn(me: Self, v: NodeView, id: Id)
    ensures RemovePeer(me, v, id).own == v.own && RemovePeer(me, v, id).status == v.status
  {
    RestartKeepsOwn(me, Tell(v, Exit(id)), id, v.own);
  }

  /** What a packet makes the node send: for greeting its sender, and for its message or for the loss that it shows. */
  ghost function ReceiveMail(me: Self, v: NodeView, id: Id, p: Packet, connects: bool, x: Id): seq<Body> {
    var v1 := Greeted(me, v, id, p, connects);
    (if p.body.Hello? then GreetMail(me, v, id, connects, x) else [])
    + if id !in v1.peers || !v1.peers[id].ready then []
      else if Accepts(me, v, id, p, connects) then ProcessMail(me, v1, id, p.body, x)
      else Challenges(me, v1, id, x, v1.own)
  }

  lemma ReceiveMails(me: Self, v: NodeView, id: Id, p: Packet, connects: bool, x: Id)
    ensures MailTo(Receive(me, v, id, p, connects), x) == MailTo(v, x) + ReceiveMail(me, v, id, p, connects, x)
  {
    var v1 := Greeted(me, v, id, p, connects);
    var greeting := if p.body.Hello? then GreetMail(me, v, id, connects, x) else [];
    GreetedMails(me, v, id, p, connects, x);
    if id in v1.peers && v1.peers[id].ready {
      TakenMails(me, v1, id, p, x);
      var taken := if Wanted(v1.peers[id], p.body) == p.sequence then ProcessMail(me, v1, id, p.body, x)
                   else Challenges(me, v1, id, x, v1.own);
      AppendTwice(MailTo(v, x), greeting, taken);
    }
  }

  lemma GreetedMails(me: Self, v: NodeView, id: Id, p: Packet, connects: bool, x: Id)
    ensures MailTo(Greeted(me, v, id, p, connects), x)
         == MailTo(v, x) + if p.body.Hello? then GreetMail(me, v, id, connects, x) else []
  {
    if p.body.Hello? {
      GreetMails(me, v, id, p.body.endpoint, connects, x);
    }
  }

  lemma TakenMails(me: Self, v: NodeView, id: Id, p: Packet, x: Id)
    requires id in v.peers
    ensures var v2 := Checked(v, id, p.body);
            MailTo(if v2.peers[id].want != p.sequence then RemovePeer(me, v2, id) else Process(me, v2, id, p.body), x)
            == MailTo(v, x) + if Wanted(v.peers[id], p.body) == p.sequence then ProcessMail(me, v, id, p.body, x)
                              else Challenges(me, v, id, x, v.own)
  {
    var v2 := Checked(v, id, p.body);
    LossChallenges(me, v2, id, x);
    ProcessMails(me, v2, id, p.body, x);
    CheckedMail(me, v, id, p.body, x);
  }

  lemma CheckedMail(me: Self, v: NodeView, id: Id, body: Body, x: Id)
    requires id in v.peers
    ensures var v2 := Checked(v, id, body);
            && Challenges(me, v2, id, x, v2.own) == Challenges(me, v, id, x, v.own)
            && ProcessMail(me, v2, id, body, x) == ProcessMail(me, v, id, body, x)
  {
    var v2 := Checked(v, id, body);
    SameChallenges(me, v, v2, id, x, v.own);
    if body.Hello? {
      SameHelloChallenges(me, v, v2, id, x, body.groups);
    }
  }

  /** What anything that happens to a node makes it send to `x`. */
  ghost function ActMail(me: Self, v: NodeView, a: Action, x: Id): seq<Body> {
    match a
    case Receives(id, p, connects) => ReceiveMail(me, v, id, p, connects, x)
    case Discovers(id, _, connects) => FindMail(me, v, id, connects, x)
    case Expires(id) => if id in v.peers then Challenges(me, v, id, x, v.own) else []
    case Pokes(id) => if x == id && Open(v, x) then [Ping] else []
    case Whispers(id, content) => if x == id && Open(v, x) then [Whisper(content)] else []
    case Shouts(g, content) => if x in GroupOf(v, g).members && Open(v, x) then [Shout(Fixed(g), content)] else []
    case Joins(g) => if g !in v.own && Open(v, x) then [Join(Fixed(g), (v.status + 1) % 0x100)] else []
    case Leaves(g) => if g in v.own && Open(v, x) then [Leave(Fixed(g), (v.status + 1) % 0x100)] else []
    case Contests(_) => []
    case Stops => if me.gossip && Open(v, x) then [Goodbye] else []
  }

  /** Whatever happens to a node, each peer's mail grows by exactly that, and by nothing once the node has aborted. */
  lemma ActMails(me: Self, v: NodeView, a: Action, x: Id)
    ensures MailTo(Act(me, v, a), x) == MailTo(v, x) + if v.failed then [] else ActMail(me, v, a, x)
  {
    if !v.failed {
      match a
      case Receives(id, p, connects) => ReceiveMails(me, v, id, p, connects, x);
      case Discovers(id, endpoint, connects) => FindMails(me, v, id, endpoint, connects, x);
      case Expires(id) => LossChallenges(me, v, id, x);
      case _ => CommandMails(me, v, a, x);
    }
  }

  lemma CommandMails(me: Self, v: NodeView, a: Action, x: Id)
    requires !v.failed && !a.Receives? && !a.Discovers? && !a.Expires?
    ensures MailTo(Act(me, v, a), x) == MailTo(v, x) + ActMail(me, v, a, x)
  {
    match a
    case Pokes(id) => SendMails(v, {id}, Ping, x);
    case Whispers(id, content) => WhisperMails(me, v, id, content, x);
    case Shouts(g, content) => ShoutMails(me, v, g, content, x);
    case Joins(g) => JoinGroupMails(me, v, g, x);
    case Leaves(g) => LeaveGroupMails(me, v, g, x);
    case Contests(g) => assert MailTo(Act(me, v, a), x) == MailTo(v, x);
    case Stops => SendMails(v, v.peers.Keys, Goodbye, x);
  }
}
