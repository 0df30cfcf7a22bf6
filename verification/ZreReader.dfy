/** What the decoder does with any octets at all. */
module ZreReader {
  import opened Basics
  import opened ZreGrammar
  import opened ZreRoundTrip

  // ---- more octets never change what was read ----

  lemma OctetsExtend(b: Octets, n: nat, t: Octets)
    ensures GetOctets(b, n).Got? ==> GetOctets(b + t, n) == Got(GetOctets(b, n).value, GetOctets(b, n).rest + t)
  {
    if n <= |b| {
      assert (b + t)[..n] == b[..n] && (b + t)[n..] == b[n..] + t;
    }
  }

  lemma Number1Extend(b: Octets, t: Octets)
    ensures GetNumber1(b).Got? ==> GetNumber1(b + t) == Got(GetNumber1(b).value, GetNumber1(b).rest + t)
  {
    if |b| >= 1 {
      assert (b + t)[1..] == b[1..] + t;
    }
  }

  lemma Number2Extend(b: Octets, t: Octets)
    ensures GetNumber2(b).Got? ==> GetNumber2(b + t) == Got(GetNumber2(b).value, GetNumber2(b).rest + t)
  {
    if |b| >= 2 {
      assert (b + t)[2..] == b[2..] + t;
    }
  }

  lemma Number4Extend(b: Octets, t: Octets)
    ensures GetNumber4(b).Got? ==> GetNumber4(b + t) == Got(GetNumber4(b).value, GetNumber4(b).rest + t)
  {
    if |b| >= 4 {
      NumberOfFour(b);
      NumberOfFour(b + t);
      assert (b + t)[4..] == b[4..] + t;
    }
  }

  lemma StringExtend(b: Octets, t: Octets)
    ensures GetString(b).Got? ==> GetString(b + t) == Got(GetString(b).value, GetString(b).rest + t)
  {
    Number1Extend(b, t);
    if GetNumber1(b).Got? {
      OctetsExtend(GetNumber1(b).rest, GetNumber1(b).value, t);
    }
  }

  lemma LongStringExtend(b: Octets, t: Octets)
    ensures GetLongString(b).Got? ==> GetLongString(b + t) == Got(GetLongString(b).value, GetLongString(b).rest + t)
  {
    Number4Extend(b, t);
    if GetNumber4(b).Got? {
      OctetsExtend(GetNumber4(b).rest, GetNumber4(b).value, t);
    }
  }

  lemma PairExtend(b: Octets, t: Octets)
    ensures GetPair(b).Got? ==> GetPair(b + t) == Got(GetPair(b).value, GetPair(b).rest + t)
  {
    StringExtend(b, t);
    match GetString(b) case Short => case Got(_, b1) =>
    LongStringExtend(b1, t);
  }

  ghost predicate Extends<T(!new)>(get: Octets -> Got<T>, b: Octets, t: Octets) {
    get(b).Got? ==> get(b + t) == Got(get(b).value, get(b).rest + t)
  }

  lemma {:induction false} ManyExtend<T(!new)>(get: Octets -> Got<T>, b: Octets, n: nat, list: seq<T>, t: Octets)
    requires forall b' :: Extends(get, b', t)
    ensures var g := GetMany(get, b, n, list);
            g.Got? ==> GetMany(get, b + t, n, list) == Got(g.value, g.rest + t)
    decreases n
  {
    if n > 0 {
      assert Extends(get, b, t);
      match get(b)
      case Short =>
      case Got(item, rest) => ManyExtend(get, rest, n - 1, list + [item], t);
    }
  }

  lemma HelloExtend(sequence: uint16, b: Octets, t: Octets)
    ensures var g := GetHello(sequence, b);
            g.Got? ==> GetHello(sequence, b + t) == Got(g.value, g.rest + t)
  {
    StringExtend(b, t);
    match GetString(b) case Short => case Got(_, b1) =>
    Number4Extend(b1, t);
    match GetNumber4(b1) case Short => case Got(n, b2) =>
    forall b' ensures Extends(GetLongString, b', t) {
      LongStringExtend(b', t);
    }
    ManyExtend(GetLongString, b2, n, [], t);
    match GetMany(GetLongString, b2, n, []) case Short => case Got(_, b3) =>
    Number1Extend(b3, t);
    match GetNumber1(b3) case Short => case Got(_, b4) =>
    StringExtend(b4, t);
    match GetString(b4) case Short => case Got(_, b5) =>
    Number4Extend(b5, t);
    match GetNumber4(b5) case Short => case Got(k, b6) =>
    forall b' ensures Extends(GetPair, b', t) {
      PairExtend(b', t);
    }
    ManyExtend(GetPair, b6, k, [], t);
  }

  lemma GroupAndStatusExtend(b: Octets, t: Octets)
    ensures var g := GetGroupAndStatus(b); g.Got? ==> GetGroupAndStatus(b + t) == Got(g.value, g.rest + t)
  {
    StringExtend(b, t);
    match GetString(b) case Short => case Got(_, b1) =>
    Number1Extend(b1, t);
  }

  lemma TwoStringsExtend(b: Octets, t: Octets)
    ensures var g := GetTwoStrings(b); g.Got? ==> GetTwoStrings(b + t) == Got(g.value, g.rest + t)
  {
    StringExtend(b, t);
    match GetString(b) case Short => case Got(_, b1) =>
    StringExtend(b1, t);
  }

  lemma BodyExtend(id: byte, sequence: uint16, b: Octets, content: seq<Octets>, t: Octets)
    requires 1 <= id <= 10
    ensures var g := GetBody(id, sequence, b, content);
            g.Got? ==> GetBody(id, sequence, b + t, content) == Got(g.value, g.rest + t)
  {
    if id == 1 {
      HelloExtend(sequence, b, t);
    } else {
      OtherBodyExtend(id, sequence, b, content, t);
    }
  }

  lemma OtherBodyExtend(id: byte, sequence: uint16, b: Octets, content: seq<Octets>, t: Octets)
    requires 2 <= id <= 10
    ensures var g := GetOtherBody(id, sequence, b, content);
            g.Got? ==> GetOtherBody(id, sequence, b + t, content) == Got(g.value, g.rest + t)
  {
    if id == 3 {
      StringExtend(b, t);
    } else if id == 4 || id == 5 {
      GroupAndStatusExtend(b, t);
    } else if id == 8 || id == 9 {
      TwoStringsExtend(b, t);
    }
  }

  /** Once the decoder has decided, octets appended to the frame do not change its mind. */
  lemma MessageExtend(b: Octets, content: seq<Octets>, t: Octets)
    ensures match GetMessage(b, content)
            case Underflow => true
            case Malformed => GetMessage(b + t, content) == Malformed
            case Decoded(m, rest) => GetMessage(b + t, content) == Decoded(m, rest + t)
  {
    Number2Extend(b, t);
    match GetNumber2(b) case Short => case Got(signature, b1) =>
    Number1Extend(b1, t);
    match GetNumber1(b1) case Short => case Got(id, b2) =>
    Number1Extend(b2, t);
    match GetNumber1(b2) case Short => case Got(_, b3) =>
    Number2Extend(b3, t);
    match GetNumber2(b3) case Short => case Got(sequence, b4) =>
    if 1 <= id <= 10 {
      BodyExtend(id, sequence, b4, content, t);
    }
  }

  lemma PrefixUnderflows(b: Octets, content: seq<Octets>, k: nat)
    requires k < |b| && GetMessage(b, content).Decoded? && GetMessage(b, content).rest == []
    ensures GetMessage(b[..k], content) == Underflow
  {
    assert b[..k] + b[k..] == b;
    MessageExtend(b[..k], content, b[k..]);
  }

  /** A frame cut short anywhere is an underflow: never a message, and never called malformed. */
  lemma TruncationUnderflows(m: Message, order: seq<Octets>, k: nat, content: seq<Octets>)
    requires Representable(m) && OrderFor(m, order) && k < |PutMessage(m, HeaderPairs(m, order))|
    ensures GetMessage(PutMessage(m, HeaderPairs(m, order))[..k], content) == Underflow
  {
    var b := PutMessage(m, HeaderPairs(m, order));
    RoundTrip(m, order, [], content);
    assert b + [] == b;
    PrefixUnderflows(b, content, k);
  }

  /** What the caller is told: only a fault other than a short frame is reported. */
  function ReturnCode(outcome: Outcome): int {
    if outcome.Malformed? then -2 else 0
  }

  /** So the code does not tell a frame cut short from a whole one. */
  lemma TruncationGoesUnreported(m: Message, order: seq<Octets>, k: nat, content: seq<Octets>)
    requires Representable(m) && OrderFor(m, order) && k <= |PutMessage(m, HeaderPairs(m, order))|
    ensures ReturnCode(GetMessage(PutMessage(m, HeaderPairs(m, order))[..k], content)) == 0
  {
    var b := PutMessage(m, HeaderPairs(m, order));
    if k < |b| {
      TruncationUnderflows(m, order, k, content);
    } else {
      RoundTrip(m, order, [], content);
      assert b + [] == b && b[..k] == b;
    }
  }

  // ---- the needle ----

  /** The needle has moved forward over octets of the frame, and not past its end. */
  predicate Past(b: Octets, rest: Octets) {
    |rest| <= |b| && forall i :: 0 <= i < |rest| ==> rest[i] == b[|b| - |rest| + i]
  }

  lemma PastTwice(a: Octets, b: Octets, c: Octets)
    requires Past(a, b) && Past(b, c)
    ensures Past(a, c)
  {
  }

  ghost predicate Consumes<T(!new)>(get: Octets -> Got<T>, b: Octets) {
    get(b).Got? ==> Past(b, get(b).rest)
  }

  lemma {:induction false} ManyPast<T(!new)>(get: Octets -> Got<T>, b: Octets, n: nat, list: seq<T>)
    requires forall b' :: Consumes(get, b')
    ensures var g := GetMany(get, b, n, list); g.Got? ==> Past(b, g.rest)
    decreases n
  {
    if n > 0 {
      assert Consumes(get, b);
      match get(b)
      case Short =>
      case Got(item, rest) => ManyPast(get, rest, n - 1, list + [item]);
    }
  }

  lemma StringPast(b: Octets)
    ensures Consumes(GetString, b) && Consumes(GetLongString, b) && Consumes(GetPair, b)
  {
  }

  lemma GroupsPast(b: Octets, n: nat)
    ensures var g := GetMany(GetLongString, b, n, []); g.Got? ==> Past(b, g.rest)
  {
    forall b' ensures Consumes(GetLongString, b') {
      StringPast(b');
    }
    ManyPast(GetLongString, b, n, []);
  }

  lemma PairsPast(b: Octets, n: nat)
    ensures var g := GetMany(GetPair, b, n, []); g.Got? ==> Past(b, g.rest)
  {
    forall b' ensures Consumes(GetPair, b') {
      StringPast(b');
    }
    ManyPast(GetPair, b, n, []);
  }

  lemma NumbersPast(b: Octets)
    ensures Consumes(GetNumber1, b) && Consumes(GetNumber4, b)
  {
  }

  /** Endpoint and groups of a HELLO. */
  lemma GroupsPartPast(b: Octets)
    ensures
      var s := GetString(b); s.Got? ==>
      var k := GetNumber4(s.rest); k.Got? ==>
      var g := GetMany(GetLongString, k.rest, k.value, []); g.Got? ==> Past(b, g.rest)
  {
    StringPast(b);
    match GetString(b) case Short => case Got(_, b1) =>
    NumbersPast(b1);
    match GetNumber4(b1) case Short => case Got(n, b2) =>
    GroupsPast(b2, n);
    match GetMany(GetLongString, b2, n, []) case Short => case Got(_, b3) =>
    PastTwice(b, b1, b2);
    PastTwice(b, b2, b3);
  }

  /** Status, name and headers. */
  lemma HeadersPartPast(b: Octets)
    ensures
      var t := GetNumber1(b); t.Got? ==>
      var s := GetString(t.rest); s.Got? ==>
      var k := GetNumber4(s.rest); k.Got? ==>
      var g := GetMany(GetPair, k.rest, k.value, []); g.Got? ==> Past(b, g.rest)
  {
    NumbersPast(b);
    match GetNumber1(b) case Short => case Got(_, b1) =>
    StringPast(b1);
    match GetString(b1) case Short => case Got(_, b2) =>
    PastTwice(b, b1, b2);
    NumbersPast(b2);
    match GetNumber4(b2) case Short => case Got(k, b3) =>
    PastTwice(b, b2, b3);
    PairsPast(b3, k);
    match GetMany(GetPair, b3, k, []) case Short => case Got(_, b4) =>
    PastTwice(b, b3, b4);
  }

  lemma HelloPast(sequence: uint16, b: Octets)
    ensures var g := GetHello(sequence, b); g.Got? ==> Past(b, g.rest)
  {
    GroupsPartPast(b);
    match GetString(b) case Short => case Got(_, b1) =>
    match GetNumber4(b1) case Short => case Got(n, b2) =>
    match GetMany(GetLongString, b2, n, []) case Short => case Got(_, b3) =>
    HeadersPartPast(b3);
    if GetHello(sequence, b).Got? {
      PastTwice(b, b3, GetHello(sequence, b).rest);
    }
  }

  lemma OtherBodyPast(id: byte, sequence: uint16, b: Octets, content: seq<Octets>)
    requires 2 <= id <= 10
    ensures var g := GetOtherBody(id, sequence, b, content); g.Got? ==> Past(b, g.rest)
  {
    if id == 3 {
      StringPast(b);
    } else if id == 4 || id == 5 {
      GroupAndStatusPast(b);
    } else if id == 8 || id == 9 {
      TwoStringsPast(b);
    }
  }

  lemma GroupAndStatusPast(b: Octets)
    ensures Consumes(GetGroupAndStatus, b)
  {
    StringPast(b);
    match GetString(b) case Short => case Got(group, b1) =>
    OneMorePast(b, b1);
    assert GetGroupAndStatus(b) == if |b1| == 0 then Short else Got((group, b1[0]), b1[1..]);
  }

  lemma OneMorePast(b: Octets, b1: Octets)
    requires Past(b, b1)
    ensures |b1| > 0 ==> Past(b, b1[1..])
  {
    if |b1| > 0 {
      PastTwice(b, b1, b1[1..]);
    }
  }

  lemma TwoStringsPast(b: Octets)
    ensures Consumes(GetTwoStrings, b)
  {
    StringPast(b);
    match GetString(b) case Short => case Got(_, b1) =>
    StringPast(b1);
    match GetString(b1) case Short => case Got(_, b2) =>
    PastTwice(b, b1, b2);
  }

  /** Where a frame decodes, the needle ends past the fixed header and inside the frame. */
  lemma NeedleStaysInside(b: Octets, content: seq<Octets>)
    ensures var r := GetMessage(b, content); r.Decoded? ==> Past(b, r.rest) && |b| - |r.rest| >= 6
  {
    if |b| >= 6 && 1 <= b[2] <= 10 {
      assert b[2..][1..][1..][2..] == b[6..] && b[2..][1..][1..] == b[4..];
      var sequence := Base256(b[4], b[5]);
      if b[2] == 1 {
        HelloPast(sequence, b[6..]);
      } else {
        OtherBodyPast(b[2], sequence, b[6..], content);
      }
      match GetBody(b[2], sequence, b[6..], content) case Short => case Got(_, rest) =>
      PastTwice(b, b[6..], rest);
    }
  }

  // ---- writing again what was read ----

  /** The length-prefixed string at the front has no zero octet in it. */
  predicate Whole(b: Octets) {
    |b| >= 1 && |b| > b[0] ==> NoZero(b[1..1 + b[0]])
  }

  /** None of the strings of this frame has a zero octet in it. */
  predicate NothingCut(b: Octets) {
    |b| >= 6 ==> BodyWhole(b[2], b[6..])
  }

  predicate BothWhole(b: Octets) {
    Whole(b) && (GetString(b).Got? ==> Whole(GetString(b).rest))
  }

  lemma StringAgain(b: Octets)
    ensures var g := GetString(b);
            g.Got? ==>
              && Text(g.value) && |PutString(g.value)| + |g.rest| <= |b|
              && (|PutString(g.value)| + |g.rest| == |b| <==> Whole(b))
              && (Whole(b) ==> PutString(g.value) + g.rest == b)
  {
    if GetString(b).Got? {
      AsCStringIsPrefix(b[1..][..b[0]]);
      assert b[1..][..b[0]] == b[1..1 + b[0]];
    }
  }

  lemma GroupAndStatusAgain(b: Octets)
    ensures var g := GetGroupAndStatus(b);
            g.Got? ==> ((PutString(g.value.0) + PutNumber1(g.value.1)) + g.rest == b <==> Whole(b))
  {
    StringAgain(b);
    match GetString(b) case Short => case Got(group, b1) =>
    if |b1| > 0 {
      assert PutNumber1(b1[0]) + b1[1..] == b1;
      Assoc(PutString(group), PutNumber1(b1[0]), b1[1..]);
    }
  }

  lemma TwoStringsAgain(b: Octets)
    ensures var g := GetTwoStrings(b);
            g.Got? ==> ((PutString(g.value.0) + PutString(g.value.1)) + g.rest == b <==> BothWhole(b))
  {
    StringAgain(b);
    match GetString(b) case Short => case Got(s, b1) =>
    StringAgain(b1);
    match GetString(b1) case Short => case Got(t, b2) =>
    Assoc(PutString(s), PutString(t), b2);
  }

  lemma Number2Again(high: byte, low: byte)
    ensures PutNumber2(Base256(high, low)) == [high, low]
  {
  }

  lemma HeadAgain(b: Octets, id: byte, sequence: uint16, body: Octets)
    requires |b| >= 6 && Base256(b[0], b[1]) == SIGNATURE && b[2] == id && b[3] == VERSION && sequence == Base256(b[4], b[5])
    ensures PutNumber2(SIGNATURE) + (PutNumber1(id) + (PutNumber1(VERSION) + (PutNumber2(sequence) + body))) == b[..6] + body
  {
    Number2Again(b[0], b[1]);
    Number2Again(b[4], b[5]);
    HeadPieces(b, PutNumber2(SIGNATURE), PutNumber1(id), PutNumber1(VERSION), PutNumber2(sequence), body);
  }

  lemma HeadPieces(b: Octets, s: Octets, i: Octets, v: Octets, q: Octets, body: Octets)
    requires |b| >= 6 && s == [b[0], b[1]] && i == [b[2]] && v == [b[3]] && q == [b[4], b[5]]
    ensures s + (i + (v + (q + body))) == b[..6] + body
  {
    assert b[..6] == s + (i + (v + q));
    Assoc(v, q, body);
    Assoc(i, v + q, body);
    Assoc(s, i + (v + q), body);
  }

  /** What `NothingCut` asks of the octets after the sequence number. */
  predicate BodyWhole(id: byte, b: Octets) {
    if id == 3 || id == 4 || id == 5 then Whole(b) else if id == 8 || id == 9 then BothWhole(b) else true
  }

  lemma BodyAgain(id: byte, sequence: uint16, b: Octets, content: seq<Octets>)
    requires 2 <= id <= 10
    ensures var g := GetOtherBody(id, sequence, b, content);
            g.Got? ==>
              && !g.value.Hello? && IdOf(g.value) == id && g.value.sequence == sequence
              && (PutBody(g.value, []) + g.rest == b <==> BodyWhole(id, b))
  {
    if id == 3 {
      StringAgain(b);
    } else if id == 4 || id == 5 {
      MembershipAgain(id, sequence, b, content);
    } else if id == 8 || id == 9 {
      TokenAgain(id, sequence, b, content);
    } else {
      assert [] + b == b;
    }
  }

  lemma MembershipAgain(id: byte, sequence: uint16, b: Octets, content: seq<Octets>)
    requires id == 4 || id == 5
    ensures var g := GetOtherBody(id, sequence, b, content);
            g.Got? ==>
              && !g.value.Hello? && IdOf(g.value) == id && g.value.sequence == sequence
              && (PutBody(g.value, []) + g.rest == b <==> Whole(b))
  {
    GroupAndStatusAgain(b);
  }

  lemma TokenAgain(id: byte, sequence: uint16, b: Octets, content: seq<Octets>)
    requires id == 8 || id == 9
    ensures var g := GetOtherBody(id, sequence, b, content);
            g.Got? ==>
              && !g.value.Hello? && IdOf(g.value) == id && g.value.sequence == sequence
              && (PutBody(g.value, []) + g.rest == b <==> BothWhole(b))
  {
    TwoStringsAgain(b);
  }

  /**
   For every kind but HELLO, encoding a decoded frame again gives exactly the
   octets that the decoder consumed, if and only if no string held a zero octet.
   */
  lemma ReEncodeIff(b: Octets, content: seq<Octets>)
    ensures match GetMessage(b, content)
            case Decoded(m, rest) => !m.Hello? ==> (PutMessage(m, []) + rest == b <==> NothingCut(b))
            case _ => true
  {
    match GetMessage(b, content)
    case Decoded(m, rest) =>
      var id, sequence := b[2], Base256(b[4], b[5]);
      assert b[2..][1..][1..] == b[4..];
      assert b[4..][2..] == b[6..];
      if id != 1 {
        BodyAgain(id, sequence, b[6..], content);
        HeadAgain(b, id, sequence, PutBody(m, []));
        Assoc(b[..6], PutBody(m, []), rest);
        assert b == b[..6] + b[6..];
        SameTail(b[..6], PutBody(m, []) + rest, b[6..]);
      }
    case _ =>
  }

  /** A JOIN frame whose group, by its length octet, is a single zero octet. */
  const ZERO_GROUP: Octets := [0xaa, 0xa1, 4, VERSION, 0, 1, 1, 0, 5]

  /** It is read as a JOIN of the empty group, which is written in one octet less. */
  lemma ZeroGroupIsLost()
    ensures GetMessage(ZERO_GROUP, []) == Decoded(Join(1, [], 5), [])
    ensures PutMessage(Join(1, [], 5), []) != ZERO_GROUP
  {
    var b := ZERO_GROUP;
    assert b[2..][1..][1..][2..] == [1, 0, 5];
    assert AsCString([0]) == [];
    assert |PutMessage(Join(1, [], 5), [])| == 8;
  }

  lemma SameTail(a: Octets, s: Octets, t: Octets)
    ensures a + s == a + t <==> s == t
  {
    assert (a + s)[|a|..] == s && (a + t)[|a|..] == t;
  }
}
