/** A group at a node, and its election, as objects. */
module GroupObjects {
  import opened Basics
  import opened CStrings
  import opened NodeRules
  import opened PeerObjects
  import Rules = ElectionRules

  class Election {
    ghost const group: Name    // the group that owns it
    var caw: Option<Id>
    var father: Option<Id>
    var erec: uint32
    var lrec: uint32
    var leader: Option<Id>

    function View(): Record
      reads this
    {
      Rules.Record(caw, father, erec, lrec, leader)
    }

    constructor (ghost group: Name)
      ensures this.group == group && View() == Rules.NewRecord()
    {
      this.group := group;
      caw, father, leader := None, None, None;
      erec, lrec := 0, 0;
    }

    predicate ChallengerSuperior(challenger: Id)
      reads this
    {
      caw.None? || StrLess(challenger, caw.value)
    }

    method Reset()
      modifies this
      ensures View() == Rules.NewRecord()
    {
      caw, leader, father := None, None, None;
      erec, lrec := 0, 0;
    }

    /** Give up the current wave, if any, for the challenger's. */
    method Support(challenger: Id, from: Id) returns (superior: bool)
      modifies this
      ensures superior <==> old(caw).None? || Precedes(challenger, old(caw).value)
      ensures View() == if superior then Rules.Record(Some(challenger), Some(from), 0, 0, None) else old(View())
      ensures superior == Rules.Superior(StrLess, old(View()), challenger)
      ensures View() == Rules.Supporting(StrLess, old(View()), from, challenger)
    {
      StrLessIff(challenger, if caw.Some? then caw.value else challenger);
      superior := ChallengerSuperior(challenger);
      if superior {
        Reset();
        caw := Some(challenger);
        father := Some(from);
      }
    }

    method IncrementErec()
      modifies this`erec
      ensures View() == old(View()).(erec := Rules.Increment(old(erec)))
    {
      erec := (erec + 1) % 0x1_0000_0000;
    }

    method CountLeader(leader: Id)
      modifies this`lrec, this`leader
      ensures View() == old(View()).(lrec := Rules.Increment(old(lrec)), leader := Some(leader))
    {
      lrec := (lrec + 1) % 0x1_0000_0000;
      this.leader := Some(leader);
    }
  }

  class Group {
    const name: Name
    var members: map<Id, Peer>
    var contest: bool
    var leader: Option<Id>
    var election: Election?

    function View(): GroupView
      reads this, if election == null then {} else {election}
    {
      GroupView(members.Keys, contest, leader, if election == null then None else Some(election.View()))
    }

    constructor (name: Name)
      ensures this.name == name && members == map[] && election == null && View() == NEW_GROUP
    {
      this.name := name;
      members := map[];
      contest := false;
      leader := None;
      election := null;
    }

    /** A peer that is listed already is not listed again; its status steps all the same. */
    method Join(peer: Peer)
      modifies this`members, peer`status
      ensures members == if peer.id in old(members) then old(members) else old(members)[peer.id := peer]
      ensures peer.View() == old(peer.View()).(status := NextByte(old(peer.status)))
    {
      if peer.id !in members {
        members := members[peer.id := peer];
      }
      peer.SetStatus((peer.status + 1) % 0x100);
    }

    method Leave(peer: Peer)
      modifies this`members, peer`status
      ensures members == old(members) - {peer.id}
      ensures peer.View() == old(peer.View()).(status := NextByte(old(peer.status)))
    {
      members := members - {peer.id};
      peer.SetStatus((peer.status + 1) % 0x100);
    }

    /** Drop any election and the leader, and start an election with this wave. */
    method StartElection(caw: Id) returns (e: Election)
      modifies this`election, this`leader
      ensures election == e && fresh(e) && e.group == name
      ensures View() == old(View()).(election := Some(Rules.Started(caw)), leader := None)
    {
      e := new Election(name);
      e.caw := Some(caw);
      election := e;
      leader := None;
    }

    method RequireElection() returns (e: Election)
      modifies this`election
      ensures election == e && (old(election) == null ==> fresh(e) && e.group == name)
      ensures old(election) != null ==> e == old(election)
      ensures old(election) == null ==> e.View() == Rules.NewRecord()
    {
      if election == null {
        election := new Election(name);
      }
      e := election;
    }
  }
}
