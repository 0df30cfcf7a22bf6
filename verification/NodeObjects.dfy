/**
 The node as an object, with its peers, groups and elections.  Each method is
 one of the node's handlers, and is proved to take the node's value where
 `NodeRules` says.
 */
module NodeObjects {
  import opened Basics
  import opened CStrings
  import opened NodeRules
  import opened NodeSessions
  import opened NodeSteps
  import opened PeerObjects
  import opened GroupObjects
  import Rules = ElectionRules

  lemma OneValueMoved<K, V>(before: map<K, V>, after: map<K, V>, k: K, v: V)
    requires after.Keys == before.Keys + {k} && after[k] == v
    requires forall x :: x in after && x != k ==> after[x] == before[x]
    ensures after == before[k := v]
  {
  }

  class Node {
    const me: Self
    const wire: Wire
    var peers: map<Id, Peer>
    var groups: map<Name, Group>
    var own: seq<Name>
    var status: byte
    var outbox: seq<Event>
    var failed: bool
    ghost var Repr: set<object>

    ghost predicate GroupOk(g: Name, group: Group)
      reads this, group
    {
      && group in Repr && group.name == g
      && (group.election != null ==> group.election in Repr && group.election.group == g)
      && (forall id :: id in group.members ==> id in peers && group.members[id] == peers[id])
    }

    /**
     Peers and groups are filed under their own names, and what a group lists
     under an identity is the very object that the peer table holds.
     */
    ghost predicate Valid()
      reads this, Repr
    {
      && this in Repr && wire in Repr
      && (forall id :: id in peers ==> peers[id] in Repr && peers[id].id == id)
      && (forall g :: g in groups ==> groups[g] in Repr && GroupOk(g, groups[g]))
    }

    ghost function PeerViews(): map<Id, PeerView>
      requires Valid()
      reads this, Repr
    {
      map id | id in peers :: peers[id].View()
    }

    ghost function GroupViews(): map<Name, GroupView>
      requires Valid()
      reads this, Repr
    {
      map g | g in groups :: GroupViewOf(g)
    }

    ghost function GroupViewOf(g: Name): GroupView
      requires Valid() && g in groups
      reads this, Repr
    {
      groups[g].View()
    }

    ghost function View(): NodeView
      requires Valid()
      reads this, Repr
    {
      NodeView(PeerViews(), GroupViews(), own, status, outbox, wire.sent, failed)
    }

    constructor (me: Self)
      ensures Valid() && fresh(Repr) && this.me == me && View() == NEW_NODE
    {
      this.me := me;
      wire := new Wire();
      peers, groups := map[], map[];
      own, status, outbox, failed := [], 0, [], false;
      new;
      Repr := {this, wire};
    }

    // ---- what an operation leaves alone ----

    /** Peers outside `ids` are the same objects as before, unchanged. */
    twostate predicate PeersAlone(ids: set<Id>)
      requires old(Valid()) && Valid()
      reads this, Repr
    {
      forall x :: x in peers && x !in ids ==> x in old(peers) && peers[x] == old(peers[x]) && unchanged(peers[x])
    }

    /** So are groups other than `name`, and their elections. */
    twostate predicate GroupsAlone(name: Option<Name>)
      requires old(Valid()) && Valid()
      reads this, Repr
    {
      forall g :: g in groups && name != Some(g) ==>
        && g in old(groups) && groups[g] == old(groups[g]) && unchanged(groups[g])
        && (groups[g].election != null ==> unchanged(groups[g].election))
    }

    twostate lemma OnePeerMoved(id: Id)
      requires old(Valid()) && Valid() && PeersAlone({id})
      requires id in peers && peers.Keys == old(peers.Keys) + {id}
      ensures PeerViews() == old(PeerViews())[id := peers[id].View()]
    {
    }

    twostate lemma NoPeerMoved()
      requires old(Valid()) && Valid() && PeersAlone({}) && peers.Keys == old(peers.Keys)
      ensures PeerViews() == old(PeerViews())
    {
    }

    twostate lemma OneGroupMoved(g: Name)
      requires old(Valid()) && Valid() && GroupsAlone(Some(g))
      requires g in groups && groups.Keys == old(groups.Keys) + {g}
      ensures GroupViews() == old(GroupViews())[g := groups[g].View()]
    {
      forall h | h in groups && h != g ensures GroupViewOf(h) == old(GroupViewOf(h)) {}
      OneValueMoved(old(GroupViews()), GroupViews(), g, groups[g].View());
    }

    twostate lemma NoGroupMoved()
      requires old(Valid()) && Valid() && GroupsAlone(None) && groups.Keys == old(groups.Keys)
      ensures GroupViews() == old(GroupViews())
    {
      forall h | h in groups ensures GroupViewOf(h) == old(GroupViewOf(h)) {}
    }

    /** Nothing but one group, and its election, has changed. */
    twostate lemma GroupMoved(g: Name)
      requires old(Valid()) && Valid() && PeersAlone({}) && peers.Keys == old(peers.Keys)
      requires GroupsAlone(Some(g)) && g in groups && groups.Keys == old(groups.Keys) + {g}
      requires wire.sent == old(wire.sent) && own == old(own) && status == old(status)
      requires outbox == old(outbox) && failed == old(failed)
      ensures View() == Regroup(old(View()), g, groups[g].View())
    {
      NoPeerMoved();
      OneGroupMoved(g);
    }

    /** Nothing but one peer has changed. */
    twostate lemma PeerMoved(id: Id)
      requires old(Valid()) && Valid() && PeersAlone({id}) && id in peers && peers.Keys == old(peers.Keys) + {id}
      requires GroupsAlone(None) && groups.Keys == old(groups.Keys)
      requires wire.sent == old(wire.sent) && own == old(own) && status == old(status)
      requires outbox == old(outbox) && failed == old(failed)
      ensures View() == old(View()).(peers := old(View()).peers[id := peers[id].View()])
    {
      OnePeerMoved(id);
      NoGroupMoved();
    }

    // ---- sending ----

    method SendPeer(id: Id, body: Body)
      requires Valid() && id in peers
      modifies wire, peers[id]
      ensures Valid() && View() == SendAll(old(View()), {id}, body)
    {
      SendOneView(View(), id, body);
      peers[id].Send(wire, body);
      OnePeerMoved(id);
      NoGroupMoved();
    }

    /** These are peers of the table, under their own identities. */
    ghost predicate Targets(targets: map<Id, Peer>)
      reads this
    {
      forall id :: id in targets ==> id in peers && peers[id] == targets[id]
    }

    /** Send to some of the peers, in any order. */
    method SendPeers(targets: map<Id, Peer>, body: Body)
      requires Valid() && Targets(targets)
      modifies wire, targets.Values
      ensures Valid() && View() == SendAll(old(View()), targets.Keys, body)
    {
      ghost var v := View();
      RestrictedViews(targets);
      SendEach(targets, wire, body);
      PeersSent(targets);
      NoGroupMoved();
      SendManyView(v, targets.Keys, body);
    }

    lemma RestrictedViews(targets: map<Id, Peer>)
      requires Valid() && Targets(targets)
      ensures ViewsOf(targets) == Restrict(PeerViews(), targets.Keys)
    {
    }

    twostate lemma PeersSent(targets: map<Id, Peer>)
      requires old(Valid()) && Valid() && PeersAlone(targets.Keys) && peers == old(peers) && Targets(targets)
      requires SentBut(targets, old(ViewsOf(targets)), {})
      ensures PeerViews() == SentViews(old(PeerViews()), targets.Keys)
    {
    }

    method SendGroup(g: Name, body: Body)
      requires Valid() && g in groups
      modifies wire, groups[g].members.Values
      ensures Valid() && View() == SendAll(old(View()), groups[g].members.Keys, body)
    {
      SendPeers(groups[g].members, body);
    }

    // ---- groups and elections ----

    method Announce(e: Event)
      requires Valid()
      modifies this`outbox
      ensures Valid() && View() == Tell(old(View()), e)
    {
      outbox := outbox + [e];
      NoPeerMoved();
      NoGroupMoved();
    }

    method FindGroup(g: Name)
      requires Valid()
      modifies Repr
      ensures Valid() && fresh(Repr - old(Repr)) && View() == RequireGroup(old(View()), g)
      ensures g in groups && peers == old(peers)
    {
      if g !in groups {
        var group := new Group(g);
        groups := groups[g := group];
        Repr := Repr + {group};
        GroupMoved(g);
      }
    }

    method Challenge(g: Name)
      requires Valid() && g in groups
      modifies Repr
      ensures Valid() && fresh(Repr - old(Repr)) && View() == StartElection(me, old(View()), g)
    {
      assert View().groups[g] == GroupViewOf(g);
      StartRecord(g);
      SendGroup(g, Elect(Fixed(g), me.id));
    }

    /** A new election takes the place of any other, with our own wave. */
    method StartRecord(g: Name)
      requires Valid() && g in groups
      modifies Repr
      ensures Valid() && fresh(Repr - old(Repr)) && g in groups && groups[g].members == old(groups[g].members)
      ensures View() == Regroup(old(View()), g, old(groups[g].View()).(election := Some(Rules.Started(me.id)), leader := None))
    {
      var election := groups[g].StartElection(me.id);
      Repr := Repr + {election};
      GroupMoved(g);
    }

    method WinAlone(g: Name)
      requires Valid() && g in groups
      modifies Repr
      ensures Valid() && Repr == old(Repr) && View() == LeadAlone(me, old(View()), g)
    {
      var group := groups[g];
      group.election := null;
      group.leader := None;
      GroupMoved(g);
      Announce(Elected(me.id, g));
    }

    /** What losing a peer does to our election in one of our groups. */
    method RestartGroup(id: Id, g: Name)
      requires Valid()
      modifies Repr
      ensures Valid() && fresh(Repr - old(Repr)) && View() == Restart(me, old(View()), id, g)
    {
      FindGroup(g);
      var group := groups[g];
      assert View().groups[g] == GroupViewOf(g);
      if group.contest {
        var running := group.election != null && group.election.lrec != |group.members|;
        var leaderLeft := group.leader == Some(id);
        if running || leaderLeft {
          if |group.members| == 1 {
            WinAlone(g);
          } else {
            Challenge(g);
          }
        }
      }
    }

    // ---- finding and removing peers ----

    method LeaveOne(g: Name, id: Id)
      requires Valid() && id in peers && g in groups
      modifies groups[g], peers[id]
      ensures Valid() && PeersAlone({id})
      ensures PeerViews() == StatusStepped(old(PeerViews()), id)
      ensures GroupViews() == old(GroupViews())[g := DropMember(old(GroupViews())[g], id)]
    {
      groups[g].Leave(peers[id]);
      OnePeerMoved(id);
      assert groups[g].View() == DropMember(old(GroupViewOf(g)), id);
      OneGroupMoved(g);
    }

    /** Remove the peer from every group. */
    method LeaveEverywhere(id: Id)
      requires Valid() && id in peers
      modifies Repr
      ensures Valid() && Repr == old(Repr) && peers == old(peers) && PeersAlone({id})
      ensures wire.sent == old(wire.sent) && own == old(own) && status == old(status)
      ensures outbox == old(outbox) && failed == old(failed)
      ensures GroupViews() == WithoutMember(old(GroupViews()), id)
    {
      ghost var views := GroupViews();
      var todo := groups.Keys;
      while todo != {}
        invariant Valid() && Repr == old(Repr) && peers == old(peers) && groups == old(groups) && PeersAlone({id})
        invariant wire.sent == old(wire.sent) && own == old(own) && status == old(status)
        invariant outbox == old(outbox) && failed == old(failed)
        invariant todo <= groups.Keys && DroppedBut(views, GroupViews(), id, todo)
      {
        var g :| g in todo;
        DropOneMore(views, GroupViews(), id, todo, g);
        LeaveOne(g, id);
        todo := todo - {g};
      }
    }

    /** Remove the peer from every group, and then from the table. */
    method ForgetPeer(id: Id)
      requires Valid() && id in peers
      modifies Repr
      ensures Valid() && Repr == old(Repr) && View() == Forgotten(old(View()), id)
    {
      WithoutMemberUnlists(GroupViews(), id);
      LeaveEverywhere(id);
      NoPeerButOne(id);
      Unlist(id);
    }

    twostate lemma NoPeerButOne(id: Id)
      requires old(Valid()) && Valid() && PeersAlone({id}) && peers.Keys == old(peers.Keys)
      ensures PeerViews() - {id} == old(PeerViews()) - {id}
    {
    }

    method Unlist(id: Id)
      requires Valid() && id in peers && Unlisted(GroupViews(), id)
      modifies this`peers
      ensures Valid() && PeerViews() == old(PeerViews()) - {id} && GroupViews() == old(GroupViews())
    {
      assert forall g :: g in groups ==> GroupViews()[g] == GroupViewOf(g);
      assert forall g :: g in groups ==> id !in groups[g].members;
      peers := peers - {id};
      NoGroupMoved();
    }

    /** Restart the elections, in our own groups, that losing this peer calls for. */
    method RestartGroups(id: Id)
      requires Valid()
      modifies Repr
      ensures Valid() && fresh(Repr - old(Repr)) && View() == RestartAll(me, old(View()), id, old(own))
    {
      ghost var v := View();
      var names := own;
      for i := 0 to |names|
        invariant Valid() && fresh(Repr - old(Repr))
        invariant RestartAll(me, View(), id, names[i..]) == RestartAll(me, v, id, names)
      {
        assert names[i..][1..] == names[i + 1..];
        RestartGroup(id, names[i]);
      }
    }

    method DropPeer(id: Id)
      requires Valid() && id in peers
      modifies Repr
      ensures Valid() && fresh(Repr - old(Repr)) && View() == RemovePeer(me, old(View()), id)
    {
      RemoveInSteps(me, View(), id);
      Announce(Exit(id));
      RestartAllKeepsPeer(me, View(), id, own, id);
      RestartGroups(id);
      ForgetPeer(id);
    }

    /** Disconnect every peer on this endpoint. */
    method PurgeEndpoint(endpoint: Octets)
      requires Valid()
      modifies Repr
      ensures Valid() && Repr == old(Repr) && peers == old(peers) && View() == Purge(old(View()), endpoint)
    {
      var todo := peers.Keys;
      while todo != {}
        invariant Valid() && Repr == old(Repr) && todo <= peers.Keys
        invariant peers == old(peers) && groups == old(groups) && GroupsAlone(None)
        invariant wire.sent == old(wire.sent) && own == old(own) && status == old(status)
        invariant outbox == old(outbox) && failed == old(failed)
        invariant forall id :: id in peers ==>
          peers[id].View() == if id in todo then old(peers[id].View()) else PurgedView(old(peers[id].View()), endpoint)
      {
        var id :| id in todo;
        if peers[id].Endpoint() == endpoint {
          peers[id].Disconnect();
        }
        todo := todo - {id};
      }
      NoGroupMoved();
      AllPurged(endpoint);
    }

    twostate lemma AllPurged(endpoint: Octets)
      requires old(Valid()) && Valid() && peers == old(peers)
      requires forall id :: id in peers ==> peers[id].View() == PurgedView(old(peers[id].View()), endpoint)
      ensures PeerViews() == Purge(old(View()), endpoint).peers
    {
    }

    method InsertPeer(id: Id)
      requires Valid() && id !in peers
      modifies Repr
      ensures Valid() && fresh(Repr - old(Repr)) && id in peers && peers[id].View() == NEW_PEER
      ensures Unlisted(GroupViews(), id)
      ensures View() == old(View()).(peers := old(View()).peers[id := NEW_PEER])
    {
      StrangerUnlisted(id);
      var peer := new Peer(id);
      peers := peers[id := peer];
      Repr := Repr + {peer};
      PeerMoved(id);
    }

    method ConnectPeer(id: Id, endpoint: Octets, connects: bool) returns (ok: bool)
      requires Valid() && id in peers && !peers[id].connected
      modifies Repr
      ensures Valid() && Repr == old(Repr) && id in peers && ok == connects
      ensures View() ==
        if ok then old(View()).(peers := old(View()).peers[id := Connected(old(peers[id].View()), endpoint)]) else old(View())
    {
      ok := peers[id].Connect(endpoint, connects);
      PeerMoved(id);
    }

    /** A new peer goes in the table and is connected. */
    method AddPeer(id: Id, endpoint: Octets, connects: bool)
      requires Valid() && id !in peers
      modifies Repr
      ensures Valid() && fresh(Repr - old(Repr))
      ensures View() ==
        if connects then old(View()).(peers := old(View()).peers[id := Connected(NEW_PEER, endpoint)]) else old(View())
    {
      AddThenSettle(View(), id, endpoint, connects);
      InsertPeer(id);
      ConnectOrDiscard(id, endpoint, connects);
    }

    /** Connect a new peer; it leaves again if that fails. */
    method ConnectOrDiscard(id: Id, endpoint: Octets, connects: bool)
      requires Valid() && id in peers && !peers[id].connected && Unlisted(GroupViews(), id)
      modifies Repr
      ensures Valid() && Repr == old(Repr) && View() == Settled(old(View()), id, endpoint, connects)
    {
      var ok := ConnectPeer(id, endpoint, connects);
      if !ok {
        Discard(id);
      }
    }

    method Discard(id: Id)
      requires Valid() && id in peers && Unlisted(View().groups, id)
      modifies this`peers
      ensures Valid() && View() == old(View()).(peers := old(View()).peers - {id})
    {
      Unlist(id);
    }

    lemma StrangerUnlisted(id: Id)
      requires Valid() && id !in peers
      ensures Unlisted(GroupViews(), id) && id !in PeerViews()
    {
      forall g | g in groups ensures id !in GroupViewOf(g).members {
        assert GroupOk(g, groups[g]);
      }
    }

    method FindPeer(id: Id, endpoint: Octets, connects: bool)
      requires Valid()
      modifies Repr
      ensures Valid() && fresh(Repr - old(Repr)) && View() == RequirePeer(me, old(View()), id, endpoint, connects)
    {
      if id !in peers {
        PurgeEndpoint(endpoint);
        AddPeer(id, endpoint, connects);
        if id in peers {
          SendPeer(id, Hello(me.announced, own, status));
        }
      }
    }

    // ---- membership of peers ----

    method JoinPeer(id: Id, g: Name)
      requires Valid() && id in peers
      modifies Repr
      ensures Valid() && fresh(Repr - old(Repr)) && g in groups && View() == JoinPeerGroup(old(View()), id, g)
    {
      AddToGroup(id, g);
      Announce(Joined(id, g));
    }

    method AddToGroup(id: Id, g: Name)
      requires Valid() && id in peers
      modifies Repr
      ensures Valid() && fresh(Repr - old(Repr)) && g in groups
      ensures View() == Remembered(old(View()), id, g, AddMember(GroupOf(old(View()), g), id))
    {
      FoundGroup(View(), g, AddMember(GroupOf(View(), g), id));
      FindGroup(g);
      JoinOne(id, g);
    }

    method RemoveFromGroup(id: Id, g: Name)
      requires Valid() && id in peers
      modifies Repr
      ensures Valid() && fresh(Repr - old(Repr)) && g in groups
      ensures View() == Remembered(old(View()), id, g, DropMember(GroupOf(old(View()), g), id))
    {
      FoundGroup(View(), g, DropMember(GroupOf(View(), g), id));
      FindGroup(g);
      LeaveOne(g, id);
    }

    method JoinOne(id: Id, g: Name)
      requires Valid() && id in peers && g in groups
      modifies groups[g], peers[id]
      ensures Valid()
      ensures PeerViews() == StatusStepped(old(PeerViews()), id)
      ensures GroupViews() == old(GroupViews())[g := AddMember(old(GroupViews())[g], id)]
    {
      groups[g].Join(peers[id]);
      OnePeerMoved(id);
      assert groups[g].View() == AddMember(old(GroupViewOf(g)), id);
      OneGroupMoved(g);
    }

    method LeavePeer(id: Id, g: Name)
      requires Valid() && id in peers
      modifies Repr
      ensures Valid() && fresh(Repr - old(Repr)) && g in groups && View() == LeavePeerGroup(old(View()), id, g)
    {
      RemoveFromGroup(id, g);
      Announce(Left(id, g));
    }

    method SetPeerStatus(id: Id, status: byte)
      requires Valid() && id in peers
      modifies peers[id]
      ensures Valid() && View() == SetStatus(old(View()), id, status)
    {
      peers[id].SetStatus(status);
      PeerMoved(id);
    }

    // ---- messages ----

    method HandleHello(id: Id, names: seq<Name>, status: byte)
      requires Valid() && id in peers
      modifies Repr
      ensures Valid() && fresh(Repr - old(Repr)) && View() == OnHello(me, old(View()), id, names, status)
    {
      Announce(Enter(id));
      JoinGroups(id, names);
      SetPeerStatus(id, status);
    }

    /** Join the peer to the groups its HELLO lists, starting our election where we contest. */
    method JoinGroups(id: Id, names: seq<Name>)
      requires Valid() && id in peers
      modifies Repr
      ensures Valid() && fresh(Repr - old(Repr)) && id in peers && View() == JoinAll(me, old(View()), id, names)
    {
      ghost var v := View();
      for i := 0 to |names|
        invariant Valid() && fresh(Repr - old(Repr)) && id in peers
        invariant JoinAll(me, View(), id, names[i..]) == JoinAll(me, v, id, names)
      {
        assert names[i..][1..] == names[i + 1..];
        JoinListed(id, names[i]);
      }
    }

    method JoinListed(id: Id, g: Name)
      requires Valid() && id in peers
      modifies Repr
      ensures Valid() && fresh(Repr - old(Repr)) && id in peers && View() == JoinAndStart(me, old(View()), id, g)
    {
      JoinPeer(id, g);
      assert View().groups[g] == GroupViewOf(g) && id in View().peers;
      if groups[g].contest {
        Challenge(g);
        assert id in View().peers;
      }
    }

    method HandleJoin(id: Id, g: Name, status: byte)
      requires Valid() && id in peers
      modifies Repr
      ensures Valid() && fresh(Repr - old(Repr)) && View() == OnJoin(me, old(View()), id, g, status)
    {
      JoinPeer(id, g);
      assert View().groups[g] == GroupViewOf(g) && View().peers[id] == peers[id].View();
      if peers[id].status != status {
        Abort();
      } else if g in own {
        if groups[g].contest {
          Challenge(g);
        }
      }
    }

    /** A failed assertion. */
    method Abort()
      requires Valid()
      modifies this`failed
      ensures Valid() && View() == old(View()).(failed := true)
    {
      failed := true;
      NoPeerMoved();
      NoGroupMoved();
    }

    method HandleLeave(id: Id, g: Name, status: byte)
      requires Valid() && id in peers
      modifies Repr
      ensures Valid() && fresh(Repr - old(Repr)) && View() == OnLeave(me, old(View()), id, g, status)
    {
      LeavePeer(id, g);
      assert View().groups[g] == GroupViewOf(g) && View().peers[id] == peers[id].View();
      if peers[id].status != status {
        Abort();
      } else if g in own {
        if groups[g].contest {
          if groups[g].leader == Some(id) {
            ReplaceLeader(g);
          }
        }
      }
    }

    /** Lead the group alone, or start an election in it. */
    method ReplaceLeader(g: Name)
      requires Valid() && g in groups
      modifies Repr
      ensures Valid() && fresh(Repr - old(Repr))
      ensures View() == if old(groups[g].members) == map[] then LeadAlone(me, old(View()), g) else StartElection(me, old(View()), g)
    {
      if |groups[g].members| == 0 {
        WinAlone(g);
      } else {
        Challenge(g);
      }
    }

    // ---- election messages ----

    /** Find or make the group's election. */
    method FindElection(g: Name)
      requires Valid()
      modifies Repr
      ensures Valid() && fresh(Repr - old(Repr)) && View() == Electing(old(View()), g)
    {
      FoundGroup(View(), g, ElectingGroup(GroupOf(View(), g)));
      FindGroup(g);
      assert View().groups[g] == GroupViewOf(g);
      MakeElection(g);
    }

    method MakeElection(g: Name)
      requires Valid() && g in groups
      modifies Repr
      ensures Valid() && fresh(Repr - old(Repr))
      ensures View() == Regroup(old(View()), g, ElectingGroup(old(groups[g].View())))
    {
      var election := groups[g].RequireElection();
      Repr := Repr + {election};
      GroupMoved(g);
    }

    /** A superior challenger becomes our wave. */
    method SupportIn(id: Id, g: Name, challenger: Id) returns (superior: bool)
      requires Valid() && g in groups && groups[g].election != null
      modifies groups[g].election
      ensures Valid() && superior == Rules.Superior(StrLess, old(groups[g].election.View()), challenger)
      ensures View() == Regroup(old(View()), g,
                WithRecord(old(groups[g].View()),
                    Rules.Supporting(StrLess, old(groups[g].election.View()), id, challenger)))
    {
      superior := groups[g].election.Support(challenger, id);
      GroupMoved(g);
    }

    /** Weigh the challenger; a superior one is passed on to all but its sender. */
    method Weigh(id: Id, g: Name, challenger: Id)
      requires Valid() && InElection(View(), g)
      modifies Repr
      ensures Valid() && Repr == old(Repr) && View() == Weighed(old(View()), id, g, challenger)
    {
      assert View().groups[g] == GroupViewOf(g);
      var superior := SupportIn(id, g, challenger);
      if superior {
        SendPeers(groups[g].members - {id}, Elect(Fixed(g), challenger));
      }
    }

    /** Count an ELECT of our wave. */
    method CountElect(g: Name)
      requires Valid() && g in groups && groups[g].election != null
      modifies groups[g].election
      ensures Valid() && groups[g].election.View() == ElectCounted(old(groups[g].election.View()))
      ensures View() == Regroup(old(View()), g, groups[g].View())
    {
      groups[g].election.IncrementErec();
      GroupMoved(g);
    }

    /** When all are in, decide, or echo to the father. */
    method Conclude(g: Name, challenger: Id)
      requires Valid() && g in groups && groups[g].election != null
      modifies Repr
      ensures Valid() && Repr == old(Repr)
      ensures View() == Concluded(me, old(View()), old(groups[g].members.Keys), old(groups[g].election.View()), g, challenger)
    {
      var election := groups[g].election;
      if election.erec == |groups[g].members| {
        if challenger == me.id {
          SendGroup(g, Leader(Fixed(g), challenger));
        } else if election.father.Some? && election.father.value in peers {
          SendPeer(election.father.value, Elect(Fixed(g), challenger));
        }
      }
    }

    /** Count the ELECT if it is of our wave, and conclude from that. */
    method Tally(g: Name, challenger: Id)
      requires Valid() && InElection(View(), g)
      modifies Repr
      ensures Valid() && Repr == old(Repr) && View() == Tallied(me, old(View()), g, challenger)
    {
      assert View().groups[g] == GroupViewOf(g);
      var election := groups[g].election;
      if election.caw == Some(challenger) {
        CountElect(g);
        Conclude(g, challenger);
      }
    }

    method HandleElect(id: Id, g: Name, challenger: Id)
      requires Valid()
      modifies Repr
      ensures Valid() && fresh(Repr - old(Repr)) && View() == OnElect(me, old(View()), id, g, challenger)
    {
      ElectInSteps(me, View(), id, g, challenger);
      FindElection(g);
      Weigh(id, g, challenger);
      Tally(g, challenger);
    }

    /** Pass the LEADER on, if it is the first and does not name us. */
    method Relay(g: Name, leader: Id)
      requires Valid() && InElection(View(), g) && View().groups[g].election.value.caw.Some?
      modifies Repr
      ensures Valid() && Repr == old(Repr) && View() == Relayed(me, old(View()), g, leader)
    {
      assert View().groups[g] == GroupViewOf(g);
      var election := groups[g].election;
      if me.id != leader && election.lrec == 0 {
        SendGroup(g, Leader(Fixed(g), election.caw.value));
      }
    }

    method CountLeader(g: Name, leader: Id)
      requires Valid() && InElection(View(), g)
      modifies Repr
      ensures Valid() && Repr == old(Repr) && View() == LeaderCounted(old(View()), g, leader)
    {
      assert View().groups[g] == GroupViewOf(g);
      groups[g].election.CountLeader(leader);
      GroupMoved(g);
    }

    method EndElection(g: Name, leader: Option<Id>)
      requires Valid() && g in groups
      modifies groups[g]
      ensures Valid() && View() == Regroup(old(View()), g, old(groups[g].View()).(election := None, leader := leader))
    {
      groups[g].leader := leader;
      groups[g].election := null;
      GroupMoved(g);
    }

    /** Tell the application who leads, and drop the election. */
    method CloseElection(g: Name, leader: Id)
      requires Valid() && g in groups
      modifies Repr
      ensures Valid() && Repr == old(Repr) && View() == Concluding(me, old(View()), old(groups[g].View()), g, leader)
    {
      var follows := leader != me.id && leader in peers;
      EndElection(g, if follows then Some(leader) else groups[g].leader);
      if leader == me.id || follows {
        Announce(Elected(leader, g));
      }
    }

    method HandleLeader(g: Name, leader: Id)
      requires Valid()
      modifies Repr
      ensures Valid() && fresh(Repr - old(Repr)) && View() == OnLeader(me, old(View()), g, leader)
    {
      LeaderInSteps(me, View(), g, leader);
      FindElection(g);
      assert View().groups[g] == GroupViewOf(g);
      if groups[g].election.caw.Some? {
        Relay(g, leader);
        CountLeader(g, leader);
        assert View().groups[g] == GroupViewOf(g);
        if groups[g].election.lrec == |groups[g].members| {
          CloseElection(g, leader);
        }
      }
    }

    // ---- receiving ----

    /** A HELLO replaces a ready peer and makes the peer ready; one from our own endpoint is ignored. */
    method GreetPeer(id: Id, endpoint: Octets, connects: bool)
      requires Valid()
      modifies Repr
      ensures Valid() && fresh(Repr - old(Repr)) && View() == Greet(me, old(View()), id, endpoint, connects)
    {
      if id in peers {
        assert View().peers[id] == peers[id].View();
        if peers[id].ready {
          DropPeer(id);
        } else if peers[id].Endpoint() == me.endpoint {
          return;
        }
      }
      FindPeer(id, endpoint, connects);
      if id in peers {
        MakeReady(id);
      }
    }

    method MakeReady(id: Id)
      requires Valid() && id in peers
      modifies peers[id]
      ensures Valid() && View() == old(View()).(peers := old(View()).peers[id := old(peers[id].View()).(ready := true)])
    {
      peers[id].SetReady(true);
      PeerMoved(id);
    }

    method CountMessage(id: Id, p: Packet) returns (lost: bool)
      requires Valid() && id in peers
      modifies peers[id]
      ensures Valid() && View() == Checked(old(View()), id, p.body)
      ensures lost <==> View().peers[id].want != p.sequence
    {
      lost := peers[id].MessagesLost(p);
      PeerMoved(id);
    }

    method Dispatch(id: Id, body: Body)
      requires Valid() && id in peers
      modifies Repr
      ensures Valid() && fresh(Repr - old(Repr)) && View() == Process(me, old(View()), id, body)
    {
      match body
      case Hello(_, names, status) => HandleHello(id, names, status);
      case Join(g, status) => HandleJoin(id, g, status);
      case Leave(g, status) => HandleLeave(id, g, status);
      case Elect(g, challenger) => HandleElect(id, g, challenger);
      case Leader(g, leader) => HandleLeader(g, leader);
      case _ => HandleOther(id, body);
    }

    method HandleOther(id: Id, body: Body)
      requires Valid() && id in peers
      requires body.Whisper? || body.Shout? || body.Ping? || body.PingOk? || body.Goodbye?
      modifies Repr
      ensures Valid() && fresh(Repr - old(Repr)) && View() == Process(me, old(View()), id, body)
    {
      match body
      case Whisper(content) => Announce(Whispered(id, content));
      case Shout(g, content) => Announce(Shouted(id, g, content));
      case Ping => SendPeer(id, PingOk);
      case PingOk =>
      case Goodbye =>
        if me.gossip {
          DropPeer(id);
        }
    }

    method ReceivePacket(id: Id, p: Packet, connects: bool)
      requires Valid()
      modifies Repr
      ensures Valid() && fresh(Repr - old(Repr)) && View() == Receive(me, old(View()), id, p, connects)
    {
      if p.body.Hello? {
        GreetPeer(id, p.body.endpoint, connects);
      }
      if id !in peers {
        return;
      }
      assert View().peers[id] == peers[id].View();
      if !peers[id].ready {
        return;
      }
      var lost := CountMessage(id, p);
      if lost {
        DropPeer(id);
      } else {
        Dispatch(id, p.body);
      }
    }

    // ---- the application's commands ----

    method WhisperTo(id: Id, content: seq<Octets>)
      requires Valid()
      modifies Repr
      ensures Valid() && Repr == old(Repr) && View() == ApiWhisper(old(View()), id, content)
    {
      if id in peers {
        SendPeer(id, Whisper(content));
      } else {
        SendNobody(View(), {id}, Whisper(content));
      }
    }

    method ShoutTo(g: Name, content: seq<Octets>)
      requires Valid()
      modifies Repr
      ensures Valid() && Repr == old(Repr) && View() == ApiShout(old(View()), g, content)
    {
      if g in groups {
        assert View().groups[g] == GroupViewOf(g);
        SendGroup(g, Shout(Fixed(g), content));
      }
    }

    method SetOwn(own: seq<Name>, status: byte)
      requires Valid()
      modifies this`own, this`status
      ensures Valid() && View() == old(View()).(own := own, status := status)
    {
      this.own := own;
      this.status := status;
      NoPeerMoved();
      NoGroupMoved();
    }

    method SendEveryone(body: Body)
      requires Valid()
      modifies wire, peers.Values
      ensures Valid() && View() == SendAll(old(View()), old(View()).peers.Keys, body)
    {
      assert View().peers.Keys == peers.Keys;
      SendPeers(peers, body);
    }

    method JoinGroup(g: Name)
      requires Valid()
      modifies Repr
      ensures Valid() && Repr == old(Repr) && View() == ApiJoin(old(View()), g)
    {
      if g !in own {
        SetOwn(own + [g], (status + 1) % 0x100);
        SendEveryone(Join(Fixed(g), status));
      }
    }

    method QuitGroup(g: Name)
      requires Valid()
      modifies Repr
      ensures Valid() && Repr == old(Repr) && View() == ApiLeave(old(View()), g)
    {
      if g in own {
        SetOwn(own, (status + 1) % 0x100);
        SendEveryone(Leave(Fixed(g), status));
        SetOwn(Without(own, g), status);
      }
    }

    method SetContest(g: Name)
      requires Valid()
      modifies Repr
      ensures Valid() && fresh(Repr - old(Repr)) && View() == ApiContest(old(View()), g)
    {
      FindGroup(g);
      assert View().groups[g] == GroupViewOf(g);
      MarkContest(g);
    }

    method MarkContest(g: Name)
      requires Valid() && g in groups
      modifies groups[g]
      ensures Valid() && View() == Regroup(old(View()), g, old(groups[g].View()).(contest := true))
    {
      groups[g].contest := true;
      GroupMoved(g);
    }

    /** Whatever happens to the object, its value takes the step of `Act`. */
    method Perform(a: Action)
      requires Valid()
      modifies Repr
      ensures Valid() && fresh(Repr - old(Repr)) && View() == Act(me, old(View()), a)
    {
      if failed {
        return;
      }
      match a
      case Receives(id, packet, connects) => ReceivePacket(id, packet, connects);
      case Discovers(id, endpoint, connects) => FindPeer(id, endpoint, connects);
      case Expires(id) =>
        if id in peers {
          DropPeer(id);
        }
      case Pokes(id) =>
        if id in peers {
          SendPeer(id, Ping);
        } else {
          SendNobody(View(), {id}, Ping);
        }
      case Whispers(id, content) => WhisperTo(id, content);
      case Shouts(g, content) => ShoutTo(g, content);
      case Joins(g) => JoinGroup(g);
      case Leaves(g) => QuitGroup(g);
      case Contests(g) => SetContest(g);
      case Stops =>
        if me.gossip {
          SendEveryone(Goodbye);
        }
    }
  }
}
