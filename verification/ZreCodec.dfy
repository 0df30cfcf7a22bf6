/** The encoder and the decoder as they run: a buffer, a needle that moves through it, and a ceiling. */
module ZreCodec {
  import opened Basics
  import G = ZreGrammar
  import opened ZreRoundTrip
  import ZreOctets

  type Message = G.Message
  type Pairs = seq<(Octets, Octets)>

  // ---- the size of a frame, as the encoder computes it before it writes ----

  function GroupsSize(groups: seq<Octets>): nat {
    if groups == [] then 0 else 4 + |groups[0]| + GroupsSize(groups[1..])
  }

  function PairsSize(pairs: Pairs): nat {
    if pairs == [] then 0 else 1 + |pairs[0].0| + 4 + |pairs[0].1| + PairsSize(pairs[1..])
  }

  /** The size of the header table, which is computed only if there is a table, and kept otherwise. */
  function HeadersBytes(m: Message, pairs: Pairs, kept: nat): nat {
    if m.Hello? && m.headers.Some? then PairsSize(pairs) else kept
  }

  function FrameSize(m: Message, pairs: Pairs, kept: nat): nat {
    3 + 1 + 2 +
    match m
    case Hello(_, endpoint, groups, _, name, _) =>
      1 + |endpoint| + 4 + GroupsSize(G.ListOf(groups)) + 1 + 1 + |name| + 4 + HeadersBytes(m, pairs, kept)
    case Shout(_, group, _) => 1 + |group|
    case Join(_, group, _) => 1 + |group| + 1
    case Leave(_, group, _) => 1 + |group| + 1
    case Elect(_, group, challenger) => 1 + |group| + 1 + |challenger|
    case Leader(_, group, leader) => 1 + |group| + 1 + |leader|
    case _ => 0
  }

  lemma {:induction false} GroupsWritten(groups: seq<Octets>)
    ensures |G.PutMany(G.PutLongString, groups)| == GroupsSize(groups)
  {
    if groups != [] {
      GroupsWritten(groups[1..]);
    }
  }

  lemma {:induction false} PairsWritten(pairs: Pairs)
    ensures |G.PutMany(G.PutPair, pairs)| == PairsSize(pairs)
  {
    if pairs != [] {
      PairsWritten(pairs[1..]);
    }
  }

  /**
   The computed size is the number of octets written, except for a HELLO with
   no header table after one that had headers; it is never too small.
   */
  lemma SizeIsExactIff(m: Message, pairs: Pairs, kept: nat)
    requires m.Hello? && m.headers.None? ==> pairs == []
    ensures FrameSize(m, pairs, kept) == |G.PutMessage(m, pairs)| <==> !m.Hello? || m.headers.Some? || kept == 0
    ensures FrameSize(m, pairs, kept) >= |G.PutMessage(m, pairs)|
  {
    if m.Hello? {
      GroupsWritten(G.ListOf(m.groups));
      PairsWritten(pairs);
    }
  }

  // ---- the codec ----

  class Codec {
    var data: array<byte>
    var needle: nat
    var ceiling: nat
    var headersBytes: nat

    predicate Valid()
      reads this
    {
      needle <= ceiling <= data.Length
    }

    /** What has been written so far. */
    function Written(): Octets
      requires Valid()
      reads this, data
    {
      data[..needle]
    }

    /** What is left to read. */
    function Rest(): Octets
      requires Valid()
      reads this, data
    {
      data[needle..ceiling]
    }

    constructor ()
      ensures Valid() && fresh(data) && headersBytes == 0
    {
      data := new byte[0];
      needle, ceiling, headersBytes := 0, 0, 0;
    }

    // ---- writing ----

    method PutOctets(octets: Octets)
      requires Valid() && needle + |octets| <= ceiling
      modifies this`needle, data
      ensures Valid() && Written() == old(Written()) + octets && needle == old(needle) + |octets|
    {
      forall i | 0 <= i < |octets| {
        data[needle + i] := octets[i];
      }
      needle := needle + |octets|;
    }

    method PutNumber1(n: nat)
      requires Valid() && needle + 1 <= ceiling
      modifies this`needle, data
      ensures Valid() && Written() == old(Written()) + G.PutNumber1(n) && needle == old(needle) + 1
    {
      data[needle] := n % 0x100;
      needle := needle + 1;
    }

    method PutNumber2(n: nat)
      requires Valid() && needle + 2 <= ceiling
      modifies this`needle, data
      ensures Valid() && Written() == old(Written()) + G.PutNumber2(n) && needle == old(needle) + 2
    {
      data[needle] := (n / 0x100) % 0x100;
      data[needle + 1] := n % 0x100;
      needle := needle + 2;
    }

    method PutNumber4(n: nat)
      requires Valid() && needle + 4 <= ceiling
      modifies this`needle, data
      ensures Valid() && Written() == old(Written()) + G.PutNumber4(n) && needle == old(needle) + 4
    {
      data[needle] := (n / 0x100_0000) % 0x100;
      data[needle + 1] := (n / 0x1_0000) % 0x100;
      data[needle + 2] := (n / 0x100) % 0x100;
      data[needle + 3] := n % 0x100;
      needle := needle + 4;
    }

    method PutString(s: Octets)
      requires Valid() && needle + 1 + |s| <= ceiling
      modifies this`needle, data
      ensures Valid() && Written() == old(Written()) + G.PutString(s) && needle == old(needle) + 1 + |s|
    {
      PutNumber1(|s|);
      PutOctets(s);
    }

    method PutLongString(s: Octets)
      requires Valid() && needle + 4 + |s| <= ceiling
      modifies this`needle, data
      ensures Valid() && Written() == old(Written()) + G.PutLongString(s) && needle == old(needle) + 4 + |s|
    {
      PutNumber4(|s|);
      PutOctets(s);
    }

    method PutGroups(groups: seq<Octets>)
      requires Valid() && needle + GroupsSize(groups) <= ceiling
      modifies this`needle, data
      ensures Valid() && Written() == old(Written()) + G.PutMany(G.PutLongString, groups)
      ensures needle == old(needle) + GroupsSize(groups)
    {
      ghost var before := Written();
      var i := 0;
      while i < |groups|
        invariant 0 <= i <= |groups| && Valid()
        invariant needle + GroupsSize(groups[i..]) == old(needle) + GroupsSize(groups)
        invariant Written() + G.PutMany(G.PutLongString, groups[i..]) == before + G.PutMany(G.PutLongString, groups)
      {
        assert groups[i..][1..] == groups[i + 1..];
        Assoc(Written(), G.PutLongString(groups[i]), G.PutMany(G.PutLongString, groups[i + 1..]));
        PutLongString(groups[i]);
        i := i + 1;
      }
      assert Written() + [] == Written();
    }

    method PutHeaders(pairs: Pairs)
      requires Valid() && needle + PairsSize(pairs) <= ceiling
      modifies this`needle, data
      ensures Valid() && Written() == old(Written()) + G.PutMany(G.PutPair, pairs)
      ensures needle == old(needle) + PairsSize(pairs)
    {
      ghost var before := Written();
      var i := 0;
      while i < |pairs|
        invariant 0 <= i <= |pairs| && Valid()
        invariant needle + PairsSize(pairs[i..]) == old(needle) + PairsSize(pairs)
        invariant Written() + G.PutMany(G.PutPair, pairs[i..]) == before + G.PutMany(G.PutPair, pairs)
      {
        assert pairs[i..][1..] == pairs[i + 1..];
        Assoc(Written(), G.PutPair(pairs[i]), G.PutMany(G.PutPair, pairs[i + 1..]));
        PutPair(pairs[i]);
        i := i + 1;
      }
      assert Written() + [] == Written();
    }

    method PutPair(pair: (Octets, Octets))
      requires Valid() && needle + 1 + |pair.0| + 4 + |pair.1| <= ceiling
      modifies this`needle, data
      ensures Valid() && Written() == old(Written()) + G.PutPair(pair)
      ensures needle == old(needle) + 1 + |pair.0| + 4 + |pair.1|
    {
      PutString(pair.0);
      PutLongString(pair.1);
    }

    /** The first pass over the message: how many octets its frame takes. */
    method ComputeSize(m: Message, pairs: Pairs) returns (size: nat)
      requires m.Hello? && m.headers.None? ==> pairs == []
      modifies this`headersBytes
      ensures size == FrameSize(m, pairs, old(headersBytes)) && headersBytes == HeadersBytes(m, pairs, old(headersBytes))
    {
      size := 2 + 1 + 1 + 2;
      match m
      case Hello(_, endpoint, groups, _, name, headers) =>
        size := size + 1 + |endpoint| + 4;
        var groupsSize := SizeGroups(G.ListOf(groups));
        size := size + groupsSize + 1 + 1 + |name| + 4;
        if headers.Some? {
          headersBytes := SizePairs(pairs);
        }
        size := size + headersBytes;
      case Shout(_, group, _) => size := size + 1 + |group|;
      case Join(_, group, _) => size := size + 1 + |group| + 1;
      case Leave(_, group, _) => size := size + 1 + |group| + 1;
      case Elect(_, group, challenger) => size := size + 1 + |group| + 1 + |challenger|;
      case Leader(_, group, leader) => size := size + 1 + |group| + 1 + |leader|;
      case _ =>
    }

    method SizeGroups(groups: seq<Octets>) returns (size: nat)
      ensures size == GroupsSize(groups)
    {
      size := 0;
      var i := 0;
      while i < |groups|
        invariant 0 <= i <= |groups| && size + GroupsSize(groups[i..]) == GroupsSize(groups)
      {
        assert groups[i..][1..] == groups[i + 1..];
        size := size + 4 + |groups[i]|;
        i := i + 1;
      }
    }

    method SizePairs(pairs: Pairs) returns (size: nat)
      ensures size == PairsSize(pairs)
    {
      size := 0;
      var i := 0;
      while i < |pairs|
        invariant 0 <= i <= |pairs| && size + PairsSize(pairs[i..]) == PairsSize(pairs)
      {
        assert pairs[i..][1..] == pairs[i + 1..];
        size := size + 1 + |pairs[i].0|;
        size := size + 4 + |pairs[i].1|;
        i := i + 1;
      }
    }

    method PutHello(m: Message, pairs: Pairs)
      requires Valid() && m.Hello? && needle + |G.PutBody(m, pairs)| <= ceiling
      modifies this`needle, data
      ensures Valid() && Written() == old(Written()) + G.PutBody(m, pairs)
    {
      var groups := G.ListOf(m.groups);
      GroupsWritten(groups);
      PairsWritten(pairs);
      ghost var w := Written();
      PutString(m.endpoint);
      PutNumber4(|groups|);
      PutGroups(groups);
      PutNumber1(m.status);
      PutString(m.name);
      PutNumber4(|pairs|);
      PutHeaders(pairs);
      HelloPieces(w, m, pairs);
    }

    method PutBody(m: Message, pairs: Pairs)
      requires Valid() && needle + |G.PutBody(m, pairs)| <= ceiling
      modifies this`needle, data
      ensures Valid() && Written() == old(Written()) + G.PutBody(m, pairs)
    {
      ghost var w := Written();
      match m
      case Hello(_, _, _, _, _, _) => PutHello(m, pairs);
      case Shout(_, group, _) => PutString(group);
      case Join(_, group, status) =>
        PutString(group);
        PutNumber1(status);
        Assoc(w, G.PutString(group), G.PutNumber1(status));
      case Leave(_, group, status) =>
        PutString(group);
        PutNumber1(status);
        Assoc(w, G.PutString(group), G.PutNumber1(status));
      case Elect(_, group, challenger) =>
        PutString(group);
        PutString(challenger);
        Assoc(w, G.PutString(group), G.PutString(challenger));
      case Leader(_, group, leader) =>
        PutString(group);
        PutString(leader);
        Assoc(w, G.PutString(group), G.PutString(leader));
      case _ => assert w + [] == w;
    }

    /**
     Encode the message, whose headers come in this order: compute the size,
     make a buffer of that size, write.
     */
    method Encode(m: Message, order: seq<Octets>)
      requires OrderFor(m, order)
      modifies this
      ensures Valid() && fresh(data) && Written() == G.PutMessage(m, G.HeaderPairs(m, order))
      ensures data.Length == FrameSize(m, G.HeaderPairs(m, order), old(headersBytes))
      ensures headersBytes == HeadersBytes(m, G.HeaderPairs(m, order), old(headersBytes))
    {
      var pairs := G.HeaderPairs(m, order);
      if m.Hello? && m.headers.None? {
        NoHeadersNoPairs(m, order);
      }
      SizeIsExactIff(m, pairs, headersBytes);
      var size := ComputeSize(m, pairs);
      data := new byte[size];
      needle := 0;
      ceiling := size;
      PutNumber2(G.SIGNATURE);
      PutNumber1(G.IdOf(m));
      PutNumber1(G.VERSION);
      PutNumber2(m.sequence);
      PutBody(m, pairs);
      MessagePieces(m, pairs);
    }

    // ---- reading ----

    method GetNumber1() returns (ok: bool, n: byte)
      requires Valid()
      modifies this`needle
      ensures Valid() && ok == G.GetNumber1(old(Rest())).Got?
      ensures ok ==> G.GetNumber1(old(Rest())) == G.Got(n, Rest())
    {
      ok, n := false, 0;
      if needle + 1 <= ceiling {
        ok, n := true, data[needle];
        needle := needle + 1;
      }
    }

    method GetNumber2() returns (ok: bool, n: uint16)
      requires Valid()
      modifies this`needle
      ensures Valid() && ok == G.GetNumber2(old(Rest())).Got?
      ensures ok ==> G.GetNumber2(old(Rest())) == G.Got(n, Rest())
    {
      ok, n := false, 0;
      if needle + 2 <= ceiling {
        ok, n := true, G.Base256(data[needle], data[needle + 1]);
        needle := needle + 2;
      }
    }

    method GetNumber4() returns (ok: bool, n: nat)
      requires Valid()
      modifies this`needle
      ensures Valid() && ok == G.GetNumber4(old(Rest())).Got?
      ensures ok ==> G.GetNumber4(old(Rest())) == G.Got(n, Rest())
    {
      ok, n := false, 0;
      if needle + 4 <= ceiling {
        NumberOfFour(Rest());
        n := G.Base256(G.Base256(G.Base256(data[needle], data[needle + 1]), data[needle + 2]), data[needle + 3]);
        ok := true;
        needle := needle + 4;
      }
    }

    /** Copy octets out of the frame, as a C string. */
    method GetOctets(n: nat) returns (ok: bool, s: Octets)
      requires Valid()
      modifies this`needle
      ensures Valid() && ok == G.GetOctets(old(Rest()), n).Got?
      ensures ok ==> G.GetOctets(old(Rest()), n) == G.Got(s, Rest())
    {
      ok, s := false, [];
      if needle + n <= ceiling {
        assert Rest()[..n] == data[needle..needle + n];
        ok, s := true, G.AsCString(data[needle..needle + n]);
        needle := needle + n;
      }
    }

    method GetString() returns (ok: bool, s: Octets)
      requires Valid()
      modifies this`needle
      ensures Valid() && ok == G.GetString(old(Rest())).Got?
      ensures ok ==> G.GetString(old(Rest())) == G.Got(s, Rest())
    {
      s := [];
      var n;
      ok, n := GetNumber1();
      if ok {
        ok, s := GetOctets(n);
      }
    }

    method GetLongString() returns (ok: bool, s: Octets)
      requires Valid()
      modifies this`needle
      ensures Valid() && ok == G.GetLongString(old(Rest())).Got?
      ensures ok ==> G.GetLongString(old(Rest())) == G.Got(s, Rest())
    {
      s := [];
      var n;
      ok, n := GetNumber4();
      if ok {
        ok, s := GetOctets(n);
      }
    }

    method GetGroup(ghost get: Octets -> G.Got<Octets>) returns (ok: bool, group: Octets)
      requires Valid() && forall b {:trigger G.GetLongString(b)} :: get(b) == G.GetLongString(b)
      modifies this`needle
      ensures Valid() && ok == get(old(Rest())).Got?
      ensures ok ==> get(old(Rest())) == G.Got(group, Rest())
    {
      assert get(Rest()) == G.GetLongString(Rest());
      ok, group := GetLongString();
    }

    /** Read so many groups; `get` is `GetLongString`. */
    method GetGroups(count: nat, ghost get: Octets -> G.Got<Octets>) returns (ok: bool, groups: seq<Octets>)
      requires Valid() && forall b {:trigger G.GetLongString(b)} :: get(b) == G.GetLongString(b)
      modifies this`needle
      ensures Valid() && ok == G.GetMany(get, old(Rest()), count, []).Got?
      ensures ok ==> G.GetMany(get, old(Rest()), count, []) == G.Got(groups, Rest())
    {
      ok, groups := true, [];
      var left: nat := count;
      while left > 0
        invariant Valid() && left <= count
        invariant G.GetMany(get, Rest(), left, groups) == G.GetMany(get, old(Rest()), count, [])
      {
        var group;
        ok, group := GetGroup(get);
        if !ok {
          return;
        }
        groups := groups + [group];
        left := left - 1;
      }
    }

    method GetPair(ghost get: Octets -> G.Got<(Octets, Octets)>) returns (ok: bool, key: Octets, value: Octets)
      requires Valid() && forall b {:trigger G.GetPair(b)} :: get(b) == G.GetPair(b)
      modifies this`needle
      ensures Valid() && ok == get(old(Rest())).Got?
      ensures ok ==> get(old(Rest())) == G.Got((key, value), Rest())
    {
      assert get(Rest()) == G.GetPair(Rest());
      value := [];
      ok, key := GetString();
      if ok {
        ok, value := GetLongString();
      }
    }

    /** Read so many header pairs into a table, in which a repeated key keeps its first value; `get` is `GetPair`. */
    method GetHeaders(count: nat, ghost get: Octets -> G.Got<(Octets, Octets)>) returns (ok: bool, table: G.Headers)
      requires Valid() && forall b {:trigger G.GetPair(b)} :: get(b) == G.GetPair(b)
      modifies this`needle
      ensures Valid() && ok == G.GetMany(get, old(Rest()), count, []).Got?
      ensures ok ==>
        var all := G.GetMany(get, old(Rest()), count, []);
        table == G.InsertAll(all.value) && Rest() == all.rest
    {
      ok, table := true, map[];
      var left: nat := count;
      ghost var pairs: Pairs := [];
      while left > 0
        invariant Valid() && left <= count && table == G.InsertAll(pairs)
        invariant G.GetMany(get, Rest(), left, pairs) == G.GetMany(get, old(Rest()), count, [])
      {
        var key, value;
        ok, key, value := GetPair(get);
        if !ok {
          return;
        }
        InsertOneMore(pairs, key, value);
        if key !in table {
          table := table[key := value];
        }
        pairs := pairs + [(key, value)];
        left := left - 1;
      }
    }

    method GetHello(sequence: uint16) returns (ok: bool, m: Message)
      requires Valid()
      modifies this`needle
      ensures Valid() && ok == G.GetHello(sequence, old(Rest())).Got?
      ensures ok ==> G.GetHello(sequence, old(Rest())) == G.Got(m, Rest())
    {
      m := G.Ping(sequence);
      var endpoint, count, groups, status, name, headers;
      ok, endpoint := GetString();
      if !ok { return; }
      ok, count := GetNumber4();
      if !ok { return; }
      ok, groups := GetGroups(count, G.GetLongString);
      if !ok { return; }
      ok, status := GetNumber1();
      if !ok { return; }
      ok, name := GetString();
      if !ok { return; }
      ok, count := GetNumber4();
      if !ok { return; }
      ok, headers := GetHeaders(count, G.GetPair);
      if !ok { return; }
      m := G.Hello(sequence, endpoint, Some(groups), status, name, Some(headers));
    }

    method GetBody(id: byte, sequence: uint16, content: seq<Octets>) returns (ok: bool, m: Message)
      requires Valid() && 1 <= id <= 10
      modifies this`needle
      ensures Valid() && ok == G.GetBody(id, sequence, old(Rest()), content).Got?
      ensures ok ==> G.GetBody(id, sequence, old(Rest()), content) == G.Got(m, Rest())
    {
      ok, m := true, G.Ping(sequence);
      var s, t, status;
      match id
      case 1 => ok, m := GetHello(sequence);
      case 2 => m := G.Whisper(sequence, Some(content));
      case 3 =>
        ok, s := GetString();
        m := G.Shout(sequence, s, Some(content));
      case 4 =>
        ok, s, status := GetGroupAndStatus();
        m := G.Join(sequence, s, status);
      case 5 =>
        ok, s, status := GetGroupAndStatus();
        m := G.Leave(sequence, s, status);
      case 6 => m := G.Ping(sequence);
      case 7 => m := G.PingOk(sequence);
      case 8 =>
        ok, s, t := GetTwoStrings();
        m := G.Elect(sequence, s, t);
      case 9 =>
        ok, s, t := GetTwoStrings();
        m := G.Leader(sequence, s, t);
      case 10 => m := G.Goodbye(sequence);
    }

    method GetGroupAndStatus() returns (ok: bool, group: Octets, status: byte)
      requires Valid()
      modifies this`needle
      ensures Valid() && ok == G.GetGroupAndStatus(old(Rest())).Got?
      ensures ok ==> G.GetGroupAndStatus(old(Rest())) == G.Got((group, status), Rest())
    {
      status := 0;
      ok, group := GetString();
      if ok {
        ok, status := GetNumber1();
      }
    }

    method GetTwoStrings() returns (ok: bool, s: Octets, t: Octets)
      requires Valid()
      modifies this`needle
      ensures Valid() && ok == G.GetTwoStrings(old(Rest())).Got?
      ensures ok ==> G.GetTwoStrings(old(Rest())) == G.Got((s, t), Rest())
    {
      t := [];
      ok, s := GetString();
      if ok {
        ok, t := GetString();
      }
    }

    /** Decode the frame; `content` is what came in the frames after it. */
    method Decode(frame: array<byte>, content: seq<Octets>) returns (outcome: G.Outcome)
      modifies this
      ensures Valid() && data == frame && ceiling == frame.Length
      ensures outcome == G.GetMessage(frame[..], content)
      ensures outcome.Decoded? ==> outcome.rest == frame[needle..]
      ensures outcome.Malformed? <==> ZreOctets.Foreign(frame[..])
    {
      ZreOctets.MalformedIff(frame[..], content);
      data := frame;
      needle, ceiling := 0, frame.Length;
      assert Rest() == frame[..];
      var ok, signature, id, version, sequence, m;
      ok, signature := GetNumber2();
      if !ok { return G.Underflow; }
      if signature != G.SIGNATURE { return G.Malformed; }
      ok, id := GetNumber1();
      if !ok { return G.Underflow; }
      if !(1 <= id <= 10) { return G.Malformed; }
      ok, version := GetNumber1();
      if !ok { return G.Underflow; }
      if version != G.VERSION { return G.Malformed; }
      ok, sequence := GetNumber2();
      if !ok { return G.Underflow; }
      ok, m := GetBody(id, sequence, content);
      if !ok { return G.Underflow; }
      outcome := G.Decoded(m, frame[needle..]);
      assert Rest() == frame[needle..];
    }
  }

  lemma InsertOneMore(pairs: Pairs, key: Octets, value: Octets)
    ensures G.InsertAll(pairs + [(key, value)]) == G.Insert(G.InsertAll(pairs), key, value)
  {
    assert (pairs + [(key, value)])[..|pairs|] == pairs;
  }

  lemma HelloPieces(w: Octets, m: Message, pairs: Pairs)
    requires m.Hello?
    ensures var groups := G.ListOf(m.groups);
            w + G.PutString(m.endpoint) + G.PutNumber4(|groups|) + G.PutMany(G.PutLongString, groups)
            + G.PutNumber1(m.status) + G.PutString(m.name) + G.PutNumber4(|pairs|) + G.PutMany(G.PutPair, pairs)
            == w + G.PutBody(m, pairs)
  {
    var groups := G.ListOf(m.groups);
    SevenPieces(w, G.PutString(m.endpoint), G.PutNumber4(|groups|), G.PutMany(G.PutLongString, groups),
                G.PutNumber1(m.status), G.PutString(m.name), G.PutNumber4(|pairs|), G.PutMany(G.PutPair, pairs));
  }

  lemma SevenPieces(w: Octets, a: Octets, b: Octets, c: Octets, d: Octets, e: Octets, f: Octets, g: Octets)
    ensures w + a + b + c + d + e + f + g == w + (a + (b + (c + (d + (e + (f + g))))))
  {
    Assoc(w, a, b + (c + (d + (e + (f + g)))));
    Assoc(w + a, b, c + (d + (e + (f + g))));
    Assoc(w + a + b, c, d + (e + (f + g)));
    Assoc(w + a + b + c, d, e + (f + g));
    Assoc(w + a + b + c + d, e, f + g);
    Assoc(w + a + b + c + d + e, f, g);
  }

  lemma NoHeadersNoPairs(m: Message, order: seq<Octets>)
    requires OrderFor(m, order) && m.Hello? && m.headers.None?
    ensures order == []
  {
    OrderSize(G.TableOf(m.headers), order);
  }

  lemma MessagePieces(m: Message, pairs: Pairs)
    ensures [] + G.PutNumber2(G.SIGNATURE) + G.PutNumber1(G.IdOf(m)) + G.PutNumber1(G.VERSION) + G.PutNumber2(m.sequence)
            + G.PutBody(m, pairs)
            == G.PutMessage(m, pairs)
  {
  }

  // ---- a size that is wrong ----

  const PLAIN := G.Hello(1, [], None, 0, [], None)
  const ADORNED := G.Hello(1, [], None, 0, [], Some(map[[1] := [2]]))

  /**
   A codec that has encoded a HELLO with a header, and then encodes one without a
   header table, makes the buffer too large for what it writes.
   */
  method EncodeAdornedThenPlain() returns (codec: Codec)
    ensures fresh(codec) && codec.Valid() && codec.Written() == G.PutMessage(PLAIN, [])
    ensures |codec.Written()| < codec.data.Length
  {
    codec := new Codec();
    codec.Encode(ADORNED, [[1]]);
    assert G.HeaderPairs(ADORNED, [[1]]) == [([1], [2])];
    codec.Encode(PLAIN, []);
    SizeIsExactIff(PLAIN, [], codec.headersBytes);
  }
}
