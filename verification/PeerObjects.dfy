/** A peer and its mailbox as objects. */
module PeerObjects {
  import opened Basics
  import opened NodeRules
  import opened NodeSteps

  /** What the node has handed to each peer's mailbox, over all the mailboxes it opened. */
  class Wire {
    var sent: map<Id, seq<Packet>>

    constructor ()
      ensures sent == map[]
    {
      sent := map[];
    }
  }

  class Peer {
    const id: Id
    var endpoint: Octets
    var connected: bool
    var ready: bool
    var status: byte
    var sentSequence: uint16
    var wantSequence: uint16

    function View(): PeerView
      reads this
    {
      PeerView(endpoint, connected, ready, status, sentSequence, wantSequence)
    }

    constructor (id: Id)
      ensures this.id == id && View() == NEW_PEER
    {
      this.id := id;
      endpoint := [];
      connected, ready := false, false;
      status, sentSequence, wantSequence := 0, 0, 0;
    }

    /** Connect the mailbox; `connects` is the outcome at the socket. */
    method Connect(endpoint: Octets, connects: bool) returns (ok: bool)
      requires !connected
      modifies this
      ensures ok == connects
      ensures View() == if ok then Connected(old(View()), endpoint) else old(View())
    {
      if !connects {
        return false;
      }
      this.endpoint := endpoint;
      connected := true;
      ready := false;
      return true;
    }

    method Disconnect()
      modifies this
      ensures View() == Disconnected(old(View()))
    {
      if connected {
        endpoint := [];
        connected := false;
        ready := false;
      }
    }

    /** Number the message and hand it to the mailbox; a peer that is not connected gets nothing. */
    method Send(wire: Wire, body: Body)
      modifies this, wire
      ensures View() == AfterSend(old(View()))
      ensures wire.sent ==
        if old(connected) then old(wire.sent)[id := PacketsTo(old(wire.sent), id) + [Packet(NextSequence(old(sentSequence)), body)]]
        else old(wire.sent)
    {
      if connected {
        sentSequence := (sentSequence + 1) % 0x1_0000;
        var packet := Packet(sentSequence, body);
        wire.sent := wire.sent[id := PacketsTo(wire.sent, id) + [packet]];
      }
    }

    function Endpoint(): Octets
      reads this
    {
      if connected then endpoint else []
    }

    /** Count the message, and tell whether its number is another than the count. */
    method MessagesLost(packet: Packet) returns (lost: bool)
      modifies this`wantSequence
      ensures View() == old(View()).(want := Wanted(old(View()), packet.body))
      ensures lost <==> Wanted(old(View()), packet.body) != packet.sequence
    {
      if packet.body.Hello? {
        wantSequence := 1;
      } else {
        wantSequence := (wantSequence + 1) % 0x1_0000;
      }
      lost := wantSequence != packet.sequence;
    }

    method SetStatus(status: byte)
      modifies this`status
      ensures View() == old(View()).(status := status)
    {
      this.status := status;
    }

    method SetReady(ready: bool)
      modifies this`ready
      ensures View() == old(View()).(ready := ready)
    {
      this.ready := ready;
    }
  }

  function ViewsOf(peers: map<Id, Peer>): map<Id, PeerView>
    reads peers.Values
  {
    map id | id in peers :: peers[id].View()
  }

  /** All peers but those still to do have sent once more than the views say. */
  ghost predicate SentBut(peers: map<Id, Peer>, views: map<Id, PeerView>, todo: set<Id>)
    reads peers.Values
  {
    && peers.Keys == views.Keys
    && (forall id :: id in peers ==> peers[id].View() == if id in todo then views[id] else AfterSend(views[id]))
  }

  /** Send a copy of the message to one more of the peers. */
  method SendNext(peers: map<Id, Peer>, ghost views: map<Id, PeerView>, ghost todo: set<Id>, id: Id, wire: Wire, body: Body)
    requires SentBut(peers, views, todo) && id in peers && id in todo
    requires forall id :: id in peers ==> peers[id].id == id
    modifies wire, peers[id]
    ensures SentBut(peers, views, todo - {id})
    ensures wire.sent == PostedTo(old(wire.sent), id, views[id], body)
  {
    peers[id].Send(wire, body);
  }

  /** Send a copy of the message to each of these peers, in whatever order the table gives. */
  method SendEach(peers: map<Id, Peer>, wire: Wire, body: Body)
    requires forall id :: id in peers ==> peers[id].id == id
    modifies wire, peers.Values
    ensures SentBut(peers, old(ViewsOf(peers)), {})
    ensures wire.sent == AllPosted(old(wire.sent), old(ViewsOf(peers)), body)
  {
    ghost var views, sent := ViewsOf(peers), wire.sent;
    var todo := peers.Keys;
    NothingPosted(sent, views, body);
    while todo != {}
      invariant todo <= peers.Keys && SentBut(peers, views, todo)
      invariant wire.sent == AllPosted(sent, views - todo, body)
    {
      var id :| id in todo;
      PostOneMore(sent, views, todo, id, body);
      SendNext(peers, views, todo, id, wire, body);
      todo := todo - {id};
    }
    assert views - {} == views;
  }
}
