/**
 The decoder undoes the encoder, for every kind of message; and what the
 decoder accepts, the encoder writes again.
 */
module ZreRoundTrip {
  import opened Basics
  import opened ZreGrammar

  // ---- numbers and strings ----

  predicate NoZero(s: Octets) {
    0 !in s
  }

  lemma {:induction false} TerminatorIsFirst(s: Octets, i: nat)
    requires i <= |s|
    ensures forall k :: i <= k < Terminator(s, i) ==> s[k] != 0
    ensures Terminator(s, i) < |s| ==> s[Terminator(s, i)] == 0
    decreases |s| - i
  {
    if i < |s| && s[i] != 0 {
      TerminatorIsFirst(s, i + 1);
    }
  }

  lemma AsCStringIsPrefix(s: Octets)
    ensures AsCString(s) <= s && NoZero(AsCString(s))
    ensures AsCString(s) == s <==> NoZero(s)
    ensures |AsCString(s)| == |s| ==> AsCString(s) == s
  {
    TerminatorIsFirst(s, 0);
    assert s[..|s|] == s;
  }

  lemma Number2Back(n: uint16, t: Octets)
    ensures GetNumber2(PutNumber2(n) + t) == Got(n, t)
  {
    assert (PutNumber2(n) + t)[2..] == t;
  }

  lemma NumberOfFour(b: Octets)
    requires |b| >= 4
    ensures FourOctets(b) == Number(b, 4)
  {
    assert Number(b, 1) == Base256(Number(b, 0), b[0]);
    assert Number(b, 2) == Base256(Number(b, 1), b[1]);
    assert Number(b, 3) == Base256(Number(b, 2), b[2]);
    assert Number(b, 4) == Base256(Number(b, 3), b[3]);
  }

  function FourOctets(b: Octets): nat
    requires |b| >= 4
  {
    Base256(Base256(Base256(b[0], b[1]), b[2]), b[3])
  }

  lemma Number4Back(n: uint32, t: Octets)
    ensures GetNumber4(PutNumber4(n) + t) == Got(n, t)
  {
    var b := PutNumber4(n) + t;
    assert b[4..] == t;
    NumberOfFour(b);
    NumberInOctets(n);
  }

  lemma NumberInOctets(n: uint32)
    ensures var b := PutNumber4(n); Base256(Base256(Base256(b[0], b[1]), b[2]), b[3]) == n
  {
    HighOctet(n);
    MiddleOctet(n);
    LowOctet(n);
  }

  lemma HighOctet(n: uint32)
    ensures Base256(n / 0x100_0000 % 0x100, n / 0x1_0000 % 0x100) == n / 0x1_0000
  {
    var m := n / 0x1_0000;
    assert n / 0x100_0000 == m / 0x100 < 0x100;
  }

  lemma MiddleOctet(n: uint32)
    ensures Base256(n / 0x1_0000, n / 0x100 % 0x100) == n / 0x100
  {
    var m := n / 0x100;
    assert n / 0x1_0000 == m / 0x100;
  }

  lemma LowOctet(n: uint32)
    ensures Base256(n / 0x100, n % 0x100) == n
  {
  }

  lemma Number1Back(n: byte, t: Octets)
    ensures GetNumber1(PutNumber1(n) + t) == Got(n, t)
  {
    assert (PutNumber1(n) + t)[1..] == t;
  }

  lemma OctetsBack(s: Octets, t: Octets)
    requires NoZero(s)
    ensures GetOctets(s + t, |s|) == Got(s, t)
  {
    assert (s + t)[..|s|] == s && (s + t)[|s|..] == t;
    AsCStringIsPrefix(s);
  }

  lemma StringBack(s: Octets, t: Octets)
    requires NoZero(s) && |s| <= 255
    ensures GetString(PutString(s) + t) == Got(s, t)
  {
    assert PutString(s) + t == PutNumber1(|s|) + (s + t);
    Number1Back(|s|, s + t);
    OctetsBack(s, t);
  }

  lemma LongStringBack(s: Octets, t: Octets)
    requires NoZero(s) && |s| < 0x1_0000_0000
    ensures GetLongString(PutLongString(s) + t) == Got(s, t)
  {
    assert PutLongString(s) + t == PutNumber4(|s|) + (s + t);
    Number4Back(|s|, s + t);
    OctetsBack(s, t);
  }

  lemma Assoc(a: Octets, b: Octets, c: Octets)
    ensures (a + b) + c == a + (b + c)
  {
  }

  // ---- lists and tables ----

  ghost predicate ReadsBack<T(!new)>(put: T -> Octets, get: Octets -> Got<T>, item: T) {
    forall t :: get(put(item) + t) == Got(item, t)
  }

  ghost predicate AllReadBack<T(!new)>(put: T -> Octets, get: Octets -> Got<T>, list: seq<T>) {
    forall i :: 0 <= i < |list| ==> ReadsBack(put, get, list[i])
  }

  lemma {:induction false} ManyBack<T(!new)>(put: T -> Octets, get: Octets -> Got<T>, list: seq<T>, before: seq<T>, t: Octets)
    requires AllReadBack(put, get, list)
    ensures GetMany(get, PutMany(put, list) + t, |list|, before) == Got(before + list, t)
    decreases |list|
  {
    if list == [] {
      assert PutMany(put, list) + t == t;
      assert before + list == before;
    } else {
      assert ReadsBack(put, get, list[0]);
      Assoc(put(list[0]), PutMany(put, list[1..]), t);
      ManyBack(put, get, list[1..], before + [list[0]], t);
      assert before + list == (before + [list[0]]) + list[1..];
    }
  }

  lemma ListBack<T(!new)>(put: T -> Octets, get: Octets -> Got<T>, list: seq<T>, t: Octets)
    requires AllReadBack(put, get, list)
    ensures GetMany(get, PutMany(put, list) + t, |list|, []) == Got(list, t)
  {
    ManyBack(put, get, list, [], t);
    assert [] + list == list;
  }

  predicate LongText(s: Octets) {
    NoZero(s) && |s| < 0x1_0000_0000
  }

  predicate LongTexts(list: seq<Octets>) {
    forall i :: 0 <= i < |list| ==> LongText(list[i])
  }

  lemma LongStringsReadBack(list: seq<Octets>)
    requires LongTexts(list)
    ensures AllReadBack(PutLongString, GetLongString, list)
  {
    forall i | 0 <= i < |list| ensures ReadsBack(PutLongString, GetLongString, list[i]) {
      assert LongText(list[i]);
      forall u ensures GetLongString(PutLongString(list[i]) + u) == Got(list[i], u) {
        LongStringBack(list[i], u);
      }
    }
  }

  lemma LongStringsBack(list: seq<Octets>, t: Octets)
    requires LongTexts(list)
    ensures GetMany(GetLongString, PutMany(PutLongString, list) + t, |list|, []) == Got(list, t)
  {
    LongStringsReadBack(list);
    ListBack(PutLongString, GetLongString, list, t);
  }

  /** Header keys have a length octet, values a length word. */
  predicate HeaderOk(key: Octets, value: Octets) {
    NoZero(key) && |key| <= 255 && LongText(value)
  }

  predicate HeadersOk(table: Headers) {
    forall key :: key in table ==> HeaderOk(key, table[key])
  }

  lemma PairBack(pair: (Octets, Octets), t: Octets)
    requires HeaderOk(pair.0, pair.1)
    ensures GetPair(PutPair(pair) + t) == Got(pair, t)
  {
    Assoc(PutString(pair.0), PutLongString(pair.1), t);
    StringBack(pair.0, PutLongString(pair.1) + t);
    LongStringBack(pair.1, t);
  }

  lemma PairsReadBack(pairs: seq<(Octets, Octets)>)
    requires forall i :: 0 <= i < |pairs| ==> HeaderOk(pairs[i].0, pairs[i].1)
    ensures AllReadBack(PutPair, GetPair, pairs)
  {
    forall i | 0 <= i < |pairs| ensures ReadsBack(PutPair, GetPair, pairs[i]) {
      forall u ensures GetPair(PutPair(pairs[i]) + u) == Got(pairs[i], u) {
        PairBack(pairs[i], u);
      }
    }
  }

  lemma PairsBack(pairs: seq<(Octets, Octets)>, t: Octets)
    requires forall i :: 0 <= i < |pairs| ==> HeaderOk(pairs[i].0, pairs[i].1)
    ensures GetMany(GetPair, PutMany(PutPair, pairs) + t, |pairs|, []) == Got(pairs, t)
  {
    PairsReadBack(pairs);
    ListBack(PutPair, GetPair, pairs, t);
  }

  /** Inserting pairs with distinct keys makes the table of just those pairs. */
  lemma {:induction false} InsertAllGives(pairs: seq<(Octets, Octets)>)
    requires forall i, j :: 0 <= i < j < |pairs| ==> pairs[i].0 != pairs[j].0
    ensures forall i :: 0 <= i < |pairs| ==> pairs[i].0 in InsertAll(pairs) && InsertAll(pairs)[pairs[i].0] == pairs[i].1
    ensures forall key :: key in InsertAll(pairs) ==> exists i :: 0 <= i < |pairs| && pairs[i].0 == key
    decreases |pairs|
  {
    if pairs != [] {
      var before := pairs[..|pairs| - 1];
      InsertAllGives(before);
      forall key | key in InsertAll(before) ensures exists i :: 0 <= i < |pairs| && pairs[i].0 == key {
        var i :| 0 <= i < |before| && before[i].0 == key;
        assert pairs[i].0 == key;
      }
    }
  }

  lemma TableBack(table: Headers, order: seq<Octets>)
    requires IsOrder(table, order)
    ensures InsertAll(PairsIn(table, order)) == table
  {
    var pairs := PairsIn(table, order);
    InsertAllGives(pairs);
    forall key | key in table ensures key in InsertAll(pairs) && InsertAll(pairs)[key] == table[key] {
      var i :| 0 <= i < |order| && order[i] == key;
      assert pairs[i] == (key, table[key]);
    }
    assert InsertAll(pairs).Keys == table.Keys;
  }

  lemma HeadersBack(table: Headers, order: seq<Octets>, t: Octets)
    requires HeadersOk(table) && IsOrder(table, order)
    ensures var pairs := PairsIn(table, order);
            GetMany(GetPair, PutMany(PutPair, pairs) + t, |order|, []) == Got(pairs, t)
  {
    var pairs := PairsIn(table, order);
    forall i | 0 <= i < |pairs| ensures HeaderOk(pairs[i].0, pairs[i].1) {
      assert HeaderOk(order[i], table[order[i]]);
    }
    PairsBack(pairs, t);
  }

  // ---- messages ----

  /** A fixed field holds at most 255 octets and ends at its first zero. */
  predicate Text(s: Octets) {
    NoZero(s) && |s| <= 255
  }

  /** What the fields of a message can hold, and the frame can carry. */
  predicate Representable(m: Message) {
    match m
    case Hello(_, endpoint, groups, _, name, headers) =>
      && Text(endpoint) && Text(name)
      && LongTexts(ListOf(groups)) && |ListOf(groups)| < 0x1_0000_0000
      && HeadersOk(TableOf(headers)) && |TableOf(headers)| < 0x1_0000_0000
    case Shout(_, group, _) => Text(group)
    case Join(_, group, _) => Text(group)
    case Leave(_, group, _) => Text(group)
    case Elect(_, group, challenger) => Text(group) && Text(challenger)
    case Leader(_, group, leader) => Text(group) && Text(leader)
    case _ => true
  }

  /** What the receiver gets: missing lists and tables are empty, and the content is what came after the frame. */
  function Received(m: Message, content: seq<Octets>): Message {
    match m
    case Hello(sequence, endpoint, groups, status, name, headers) =>
      Hello(sequence, endpoint, Some(ListOf(groups)), status, name, Some(TableOf(headers)))
    case Whisper(sequence, _) => Whisper(sequence, Some(content))
    case Shout(sequence, group, _) => Shout(sequence, group, Some(content))
    case _ => m
  }

  ghost predicate OrderFor(m: Message, order: seq<Octets>) {
    if m.Hello? then IsOrder(TableOf(m.headers), order) else order == []
  }

  lemma OrderSize(table: Headers, order: seq<Octets>)
    requires IsOrder(table, order)
    ensures |order| == |table|
  {
    OrderSizeOf(table.Keys, order);
    assert |table| == |table.Keys|;
  }

  lemma {:induction false} OrderSizeOf(keys: set<Octets>, order: seq<Octets>)
    requires forall key :: key in keys <==> key in order
    requires forall i, j :: 0 <= i < j < |order| ==> order[i] != order[j]
    ensures |order| == |keys|
    decreases |order|
  {
    if order != [] {
      assert order == [order[0]] + order[1..];
      OrderSizeOf(keys - {order[0]}, order[1..]);
    } else {
      assert keys == {};
    }
  }

  lemma HelloBack(m: Message, order: seq<Octets>, t: Octets)
    requires m.Hello? && Representable(m) && OrderFor(m, order)
    ensures GetHello(m.sequence, PutBody(m, HeaderPairs(m, order)) + t) == Got(Received(m, []), t)
  {
    var groups, table := ListOf(m.groups), TableOf(m.headers);
    var pairs := PairsIn(table, order);
    OrderSize(table, order);
    var t6 := PutMany(PutPair, pairs) + t;
    var t5 := PutNumber4(|pairs|) + t6;
    var t4 := PutString(m.name) + t5;
    var t3 := PutNumber1(m.status) + t4;
    var t2 := PutMany(PutLongString, groups) + t3;
    var t1 := PutNumber4(|groups|) + t2;
    assert PutBody(m, pairs) + t == PutString(m.endpoint) + t1;
    StringBack(m.endpoint, t1);
    Number4Back(|groups|, t2);
    LongStringsBack(groups, t3);
    Number1Back(m.status, t4);
    StringBack(m.name, t5);
    Number4Back(|pairs|, t6);
    HeadersBack(table, order, t);
    TableBack(table, order);
  }

  lemma GroupAndStatusBack(group: Octets, status: byte, t: Octets)
    requires Text(group)
    ensures GetGroupAndStatus((PutString(group) + PutNumber1(status)) + t) == Got((group, status), t)
  {
    assert (PutString(group) + PutNumber1(status)) + t == PutString(group) + (PutNumber1(status) + t);
    StringBack(group, PutNumber1(status) + t);
    Number1Back(status, t);
  }

  lemma TwoStringsBack(r: Octets, s: Octets, t: Octets)
    requires Text(r) && Text(s)
    ensures GetTwoStrings((PutString(r) + PutString(s)) + t) == Got((r, s), t)
  {
    assert (PutString(r) + PutString(s)) + t == PutString(r) + (PutString(s) + t);
    StringBack(r, PutString(s) + t);
    StringBack(s, t);
  }

  lemma BodyBack(m: Message, order: seq<Octets>, t: Octets, content: seq<Octets>)
    requires Representable(m) && OrderFor(m, order)
    ensures GetBody(IdOf(m), m.sequence, PutBody(m, HeaderPairs(m, order)) + t, content) == Got(Received(m, content), t)
  {
    if m.Hello? {
      HelloBack(m, order, t);
    } else {
      OtherBodyBack(m, t, content);
    }
  }

  lemma OtherBodyBack(m: Message, t: Octets, content: seq<Octets>)
    requires Representable(m) && !m.Hello?
    ensures GetOtherBody(IdOf(m), m.sequence, PutBody(m, []) + t, content) == Got(Received(m, content), t)
  {
    if m.Join? || m.Leave? {
      MembershipBack(m, t, content);
    } else if m.Elect? || m.Leader? {
      TokenBack(m, t, content);
    } else if m.Shout? {
      StringBack(m.group, t);
    } else {
      assert [] + t == t;
    }
  }

  lemma MembershipBack(m: Message, t: Octets, content: seq<Octets>)
    requires Representable(m) && (m.Join? || m.Leave?)
    ensures GetOtherBody(IdOf(m), m.sequence, PutBody(m, []) + t, content) == Got(m, t)
  {
    GroupAndStatusBack(m.group, m.status, t);
  }

  lemma ElectBack(sequence: uint16, group: Octets, challenger: Octets, t: Octets, content: seq<Octets>)
    requires Text(group) && Text(challenger)
    ensures GetOtherBody(8, sequence, PutString(group) + PutString(challenger) + t, content) == Got(Elect(sequence, group, challenger), t)
  {
    TwoStringsBack(group, challenger, t);
  }

  lemma LeaderBack(sequence: uint16, group: Octets, leader: Octets, t: Octets, content: seq<Octets>)
    requires Text(group) && Text(leader)
    ensures GetOtherBody(9, sequence, PutString(group) + PutString(leader) + t, content) == Got(Leader(sequence, group, leader), t)
  {
    TwoStringsBack(group, leader, t);
  }

  lemma TokenBack(m: Message, t: Octets, content: seq<Octets>)
    requires Representable(m) && (m.Elect? || m.Leader?)
    ensures GetOtherBody(IdOf(m), m.sequence, PutBody(m, []) + t, content) == Got(m, t)
  {
    match m
    case Elect(sequence, group, challenger) => ElectBack(sequence, group, challenger, t, content);
    case Leader(sequence, group, leader) => LeaderBack(sequence, group, leader, t, content);
  }

  /** The fields before the body. */
  lemma HeaderBack(id: byte, sequence: uint16, body: Octets, t: Octets, content: seq<Octets>)
    requires 1 <= id <= 10
    ensures GetMessage(
              PutNumber2(SIGNATURE) + (PutNumber1(id) + (PutNumber1(VERSION) + (PutNumber2(sequence) + body))) + t, content)
            == Frame(GetBody(id, sequence, body + t, content))
  {
    var x3 := PutNumber2(sequence) + body;
    var x2 := PutNumber1(VERSION) + x3;
    var x1 := PutNumber1(id) + x2;
    Assoc(PutNumber2(SIGNATURE), x1, t);
    Assoc(PutNumber1(id), x2, t);
    Assoc(PutNumber1(VERSION), x3, t);
    Assoc(PutNumber2(sequence), body, t);
    Number2Back(SIGNATURE, x1 + t);
    Number1Back(id, x2 + t);
    Number1Back(VERSION, x3 + t);
    Number2Back(sequence, body + t);
  }

  /**
   Decoding an encoded frame gives the message back, whatever the order of its
   headers and whatever octets follow it.
   */
  lemma RoundTrip(m: Message, order: seq<Octets>, t: Octets, content: seq<Octets>)
    requires Representable(m) && OrderFor(m, order)
    ensures GetMessage(PutMessage(m, HeaderPairs(m, order)) + t, content) == Decoded(Received(m, content), t)
  {
    HeaderBack(IdOf(m), m.sequence, PutBody(m, HeaderPairs(m, order)), t, content);
    BodyBack(m, order, t, content);
  }
}
