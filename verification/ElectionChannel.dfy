/** What one step does to the tokens in flight on one channel. */
module ElectionChannel {
  import opened Basics
  import opened ElectionRules
  import opened ElectionNetwork
  import opened ElectionInvariant

  /** The history says the same of the channel from `a` to `b`. */
  ghost predicate SameChannel<I(!new)>(h: History<I>, h': History<I>, a: I, b: I) {
    && (forall k :: (a, b, k) in h'.sent <==> (a, b, k) in h.sent)
    && (forall k :: (a, b, k) in h'.heard <==> (a, b, k) in h.heard)
    && (a in h'.lsent <==> a in h.lsent)
    && ((a, b) in h'.lheard <==> (a, b) in h.lheard)
    && (a in h.lsent ==> h'.boss == h.boss)
  }

  lemma SameChannelTrans<I(!new)>(h: History<I>, h1: History<I>, h2: History<I>, a: I, b: I)
    requires SameChannel(h, h1, a, b) && SameChannel(h1, h2, a, b)
    ensures SameChannel(h, h2, a, b)
  {
  }

  lemma ChannelFrame<I(!new)>(h: History<I>, h': History<I>, a: I, b: I, q: seq<Token<I>>)
    requires ChannelOk(h, a, b, q) && SameChannel(h, h', a, b)
    ensures ChannelOk(h', a, b, q)
  {
  }

  lemma PopElect<I(!new)>(h: History<I>, h': History<I>, u: I, v: I, c: I, q: seq<Token<I>>)
    requires ChannelOk(h, u, v, q) && q != [] && q[0] == Elect(c)
    requires SameChannel(h.(heard := h.heard + {(u, v, c)}), h', u, v)
    ensures ChannelOk(h', u, v, q[1..])
  {
    assert q == [q[0]] + q[1..];
    assert Elect(c) !in q[1..];
  }

  lemma PopLeader<I(!new)>(h: History<I>, h': History<I>, u: I, v: I, l: I, q: seq<Token<I>>)
    requires ChannelOk(h, u, v, q) && q != [] && q[0] == Leader(l)
    requires SameChannel(h.(lheard := h.lheard + {(u, v)}), h', u, v)
    ensures q == [Leader(l)] && ChannelOk(h', u, v, q[1..])
  {
    assert q[0].Leader?;
    assert forall c :: Elect(c) !in q;
  }

  lemma AppendElect<I(!new)>(h: History<I>, h': History<I>, v: I, b: I, c: I, q: seq<Token<I>>)
    requires ChannelOk(h, v, b, q) && v !in h.lsent
    requires (v, b, c) !in h.sent && (v, b, c) !in h.heard
    requires SameChannel(h.(sent := h.sent + {(v, b, c)}), h', v, b)
    requires (v, b) !in h.lheard
    ensures ChannelOk(h', v, b, q + [Elect(c)])
  {
    assert Elect(c) !in q;
    forall l ensures Leader(l) !in q + [Elect(c)] {
      assert Leader(l) !in q;
    }
    NoLeaderInQueue(h, v, b, q);
  }

  lemma NoLeaderInQueue<I(!new)>(h: History<I>, v: I, b: I, q: seq<Token<I>>)
    requires ChannelOk(h, v, b, q) && v !in h.lsent
    ensures forall i :: 0 <= i < |q| ==> q[i].Elect?
  {
    forall i | 0 <= i < |q| ensures q[i].Elect? {
      assert q[i] in q;
    }
  }

  lemma AppendLeader<I(!new)>(h: History<I>, h': History<I>, v: I, b: I, d: I, q: seq<Token<I>>)
    requires ChannelOk(h, v, b, q) && v !in h.lsent
    requires (forall k :: (v, b, k) in h'.sent <==> (v, b, k) in h.sent)
    requires (forall k :: (v, b, k) in h'.heard <==> (v, b, k) in h.heard)
    requires v in h'.lsent && h'.boss == Some(d) && (v, b) !in h'.lheard && (v, b) !in h.lheard
    ensures ChannelOk(h', v, b, q + [Leader(d)])
  {
    NoLeaderInQueue(h, v, b, q);
    forall l ensures Leader(l) in q + [Leader(d)] <==> l == d {
      assert (q + [Leader(d)])[|q|] == Leader(d);
    }
    forall c ensures Elect(c) in q + [Leader(d)] <==> Elect(c) in q {
    }
  }

  /** A node that has not sent LEADER sends one more token, or none, to `b`. */
  lemma FromNode<I(!new)>(h: History<I>, h': History<I>, u: I, v: I, c: I, b: I, q: seq<Token<I>>, forwards: bool, decides: bool)
    requires ChannelOk(h, v, b, q) && u != v
    requires forall k :: (v, b, k) in h'.sent <==> (v, b, k) in h.sent || (k == c && forwards)
    requires h'.heard == h.heard + {(u, v, c)} && h'.lheard == h.lheard
    requires h'.lsent == (if decides then h.lsent + {v} else h.lsent)
    requires h'.boss == (if decides then Some(c) else h.boss)
    requires forwards || decides ==> v !in h.lsent && (v, b) !in h.lheard
    requires forwards ==> (v, b, c) !in h.sent && (v, b, c) !in h.heard && !decides
    requires b != v
    ensures ChannelOk(h', v, b, q + if forwards then [Elect(c)] else if decides then [Leader(c)] else [])
  {
    if forwards {
      AppendElect(h, h', v, b, c, q);
    } else if decides {
      AppendLeader(h, h', v, b, c, q);
    } else {
      ChannelFrame(h, h', v, b, q);
      assert q + [] == q;
    }
  }

  lemma MailOne<I>(x: Cast<I>, b: I)
    ensures Mail([x], b) == if b in x.to then [x.token] else []
  {
  }

  lemma MailTwo<I>(x: Cast<I>, y: Cast<I>, b: I)
    ensures Mail([x] + [y], b) == (if b in x.to then [x.token] else []) + (if b in y.to then [y.token] else [])
  {
    assert ([x] + [y])[1..] == [y];
    MailOne(y, b);
  }
}
