/**
 The packets that the node's model exchanges are what the codec carries: a
 packet that is encoded, framed, received and decoded is the packet again.
 */
module NodeWire {
  import opened Basics
  import R = NodeRules
  import G = ZreGrammar
  import opened ZreRoundTrip
  import F = ZreFraming
  import NodeRuns
  import NodeTexts
  import ZreTexts
  import O = ZreOctets

  /** The message for a packet; only a HELLO carries the node's name and headers. */
  function MessageOf(p: R.Packet, name: Octets, headers: G.Headers): G.Message {
    match p.body
    case Hello(endpoint, groups, status) => G.Hello(p.sequence, endpoint, Some(groups), status, name, Some(headers))
    case Whisper(content) => G.Whisper(p.sequence, Some(content))
    case Shout(group, content) => G.Shout(p.sequence, group, Some(content))
    case Join(group, status) => G.Join(p.sequence, group, status)
    case Leave(group, status) => G.Leave(p.sequence, group, status)
    case Ping => G.Ping(p.sequence)
    case PingOk => G.PingOk(p.sequence)
    case Elect(group, challenger) => G.Elect(p.sequence, group, challenger)
    case Leader(group, leader) => G.Leader(p.sequence, group, leader)
    case Goodbye => G.Goodbye(p.sequence)
  }

  /** What the node takes from a message. */
  function PacketOf(m: G.Message): R.Packet {
    match m
    case Hello(sequence, endpoint, groups, status, _, _) => R.Packet(sequence, R.Hello(endpoint, G.ListOf(groups), status))
    case Whisper(sequence, content) => R.Packet(sequence, R.Whisper(G.ListOf(content)))
    case Shout(sequence, group, content) => R.Packet(sequence, R.Shout(group, G.ListOf(content)))
    case Join(sequence, group, status) => R.Packet(sequence, R.Join(group, status))
    case Leave(sequence, group, status) => R.Packet(sequence, R.Leave(group, status))
    case Ping(sequence) => R.Packet(sequence, R.Ping)
    case PingOk(sequence) => R.Packet(sequence, R.PingOk)
    case Elect(sequence, group, challenger) => R.Packet(sequence, R.Elect(group, challenger))
    case Leader(sequence, group, leader) => R.Packet(sequence, R.Leader(group, leader))
    case Goodbye(sequence) => R.Packet(sequence, R.Goodbye)
  }

  lemma PacketSurvives(p: R.Packet, name: Octets, headers: G.Headers, order: seq<Octets>, later: seq<F.Part>)
    requires var m := MessageOf(p, name, headers); Representable(m) && OrderFor(m, order)
    ensures var m := MessageOf(p, name, headers);
            var parts := F.Multipart([G.PutMessage(m, G.HeaderPairs(m, order))] + F.ContentFrames(m));
            var (outcome, rest) := F.Receive(parts + later);
            outcome.Decoded? && PacketOf(outcome.message) == p && rest == later
  {
    F.FramingRoundTrip(MessageOf(p, name, headers), order, later);
    PacketOfReceived(p, name, headers);
  }

  /** The octets of any packet's frame but a HELLO's. */
  function FrameOf(p: R.Packet): Octets
    requires !p.body.Hello?
  {
    match p.body
    case Whisper(_) => O.Preamble(2, p.sequence)
    case Shout(group, _) => O.Preamble(3, p.sequence) + O.ShortText(group)
    case Join(group, status) => O.Preamble(4, p.sequence) + (O.ShortText(group) + [status])
    case Leave(group, status) => O.Preamble(5, p.sequence) + (O.ShortText(group) + [status])
    case Ping => O.Preamble(6, p.sequence)
    case PingOk => O.Preamble(7, p.sequence)
    case Elect(group, challenger) => O.Preamble(8, p.sequence) + (O.ShortText(group) + O.ShortText(challenger))
    case Leader(group, leader) => O.Preamble(9, p.sequence) + (O.ShortText(group) + O.ShortText(leader))
    case Goodbye => O.Preamble(10, p.sequence)
  }

  /**
   Each kind of packet goes out under its number with its own fields in their
   order, and SHOUT and WHISPER with their content.
   */
  lemma PacketFrameIs(p: R.Packet, name: Octets, headers: G.Headers)
    requires !p.body.Hello?
    ensures var m := MessageOf(p, name, headers);
            && G.PutMessage(m, []) == FrameOf(p)
            && F.ContentFrames(m) == if p.body.Whisper? || p.body.Shout? then p.body.content else []
  {
    var m := MessageOf(p, name, headers);
    O.FrameIs(m);
    assert O.Preamble(O.Kind(m), p.sequence) + [] == O.Preamble(O.Kind(m), p.sequence);
  }

  /** A HELLO tells endpoint, groups, status, name and headers, in this order. */
  lemma HelloFrameIs(p: R.Packet, name: Octets, headers: G.Headers, order: seq<Octets>)
      returns (groups: seq<Octets>, g: Octets, items: seq<Octets>, h: Octets)
    requires p.body.Hello? && CardOk(name, headers) && NodeTexts.Spelt(p.body) && G.IsOrder(headers, order)
    ensures var m := MessageOf(p, name, headers);
            && G.PutMessage(m, G.PairsIn(headers, order))
               == O.Preamble(1, p.sequence)
                  + (O.ShortText(p.body.endpoint) + (g + ([p.body.status] + (O.ShortText(name) + h))))
            && F.ContentFrames(m) == []
    ensures O.ListForm(g, groups) && |groups| == |p.body.groups|
    ensures forall i :: 0 <= i < |groups| ==> O.LongForm(groups[i], p.body.groups[i])
    ensures O.ListForm(h, items) && |items| == |order|
    ensures forall i :: 0 <= i < |items| ==> O.PairForm(items[i], order[i], headers[order[i]])
  {
    SpeltIsRepresentable(p, name, headers);
    groups, g, items, h := O.HelloFrameIs(MessageOf(p, name, headers), order);
  }

  lemma PacketOfReceived(p: R.Packet, name: Octets, headers: G.Headers)
    ensures var m := MessageOf(p, name, headers); PacketOf(Received(m, F.ContentFrames(m))) == p
  {
  }

  // ---- every packet of every run ----

  /** A node's name and headers as its HELLO carries them. */
  predicate CardOk(name: Octets, headers: G.Headers) {
    Text(name) && HeadersOk(headers) && |headers| < 0x1_0000_0000
  }

  lemma SpeltIsRepresentable(p: R.Packet, name: Octets, headers: G.Headers)
    requires CardOk(name, headers)
    ensures NodeTexts.Spelt(p.body) <==> Representable(MessageOf(p, name, headers))
  {
  }

  /** What a node takes from any octets that decode is something it can be fed with. */
  lemma DecodedIsSpelt(b: Octets, content: seq<Octets>)
    requires G.GetMessage(b, content).Decoded?
    ensures NodeTexts.Spelt(PacketOf(G.GetMessage(b, content).message).body)
  {
    ZreTexts.DecodedIsRepresentable(b, content);
  }

  /**
   In every run in which the application gives C strings and the peers' messages
   have been decoded, whatever the node has sent to anyone is received as it was
   sent.
   */
  lemma SentSurvives(me: R.Self, states: seq<R.NodeView>, actions: seq<R.Action>, n: nat, id: R.Id, i: nat,
      name: Octets, headers: G.Headers, order: seq<Octets>, later: seq<F.Part>)
    requires NodeTexts.SelfSpelt(me) && NodeRuns.IsNodeRun(me, states, actions) && NodeTexts.AlwaysFed(states, actions)
    requires n < |states| && i < |R.Sent(states[n], id)| && CardOk(name, headers)
    requires OrderFor(MessageOf(R.Sent(states[n], id)[i], name, headers), order)
    ensures var p := R.Sent(states[n], id)[i];
            var m := MessageOf(p, name, headers);
            var parts := F.Multipart([G.PutMessage(m, G.HeaderPairs(m, order))] + F.ContentFrames(m));
            var (outcome, rest) := F.Receive(parts + later);
            outcome.Decoded? && PacketOf(outcome.message) == p && rest == later
  {
    NodeTexts.EverythingSentIsSpelt(me, states, actions, n);
    assert NodeTexts.PacketSpelt(states[n], id, i);
    SpeltIsRepresentable(R.Sent(states[n], id)[i], name, headers);
    PacketSurvives(R.Sent(states[n], id)[i], name, headers, order, later);
  }
}
