/**
 The frames octet by octet, as the protocol lays them out: where each field of a
 message stands, and what the decoder makes of the octets that stand there.
 */
module ZreOctets {
  import opened Basics
  import opened ZreGrammar
  import opened ZreRoundTrip
  import opened ZreReader

  // ---- what the encoder writes ----

  /** These pieces one after the other. */
  function Flat(pieces: seq<Octets>): Octets {
    if pieces == [] then [] else Flat(pieces[..|pieces| - 1]) + pieces[|pieces| - 1]
  }

  lemma {:induction false} FlatFrom(pieces: seq<Octets>)
    requires pieces != []
    ensures Flat(pieces) == pieces[0] + Flat(pieces[1..])
    decreases |pieces|
  {
    if |pieces| == 1 {
      assert pieces[..0] == [] && pieces[1..] == [];
    } else {
      var n := |pieces| - 1;
      FlatFrom(pieces[..n]);
      assert pieces[..n][1..] == pieces[1..][..n - 1];
      Assoc(pieces[0], Flat(pieces[1..][..n - 1]), pieces[n]);
    }
  }

  /** What each item is written as. */
  function Pieces<T>(put: T -> Octets, list: seq<T>): (pieces: seq<Octets>)
    ensures |pieces| == |list| && forall i :: 0 <= i < |pieces| ==> pieces[i] == put(list[i])
  {
    seq(|list|, i requires 0 <= i < |list| => put(list[i]))
  }

  /** A list is written item by item, in order. */
  lemma {:induction false} ManyIsFlat<T>(put: T -> Octets, list: seq<T>)
    ensures PutMany(put, list) == Flat(Pieces(put, list))
    decreases |list|
  {
    if list != [] {
      ManyIsFlat(put, list[1..]);
      FlatFrom(Pieces(put, list));
      assert Pieces(put, list)[1..] == Pieces(put, list[1..]);
    }
  }

  /** The number that four octets make up, the highest first. */
  function Value4(b: Octets): nat
    requires |b| >= 4
  {
    b[0] as int * 0x100_0000 + b[1] as int * 0x1_0000 + b[2] as int * 0x100 + b[3] as int
  }

  predicate BigEndian(b: Octets, n: nat) {
    |b| == 4 && Value4(b) == n
  }

  lemma Number4IsBigEndian(n: uint32)
    ensures BigEndian(PutNumber4(n), n)
  {
    NumberInOctets(n);
  }

  /** Its length in one octet, and the string. */
  function ShortText(s: Octets): Octets {
    [|s| % 0x100] + s
  }

  ghost predicate LongForm(b: Octets, s: Octets) {
    |b| == 4 + |s| && BigEndian(b[..4], |s|) && b[4..] == s
  }

  ghost predicate PairForm(b: Octets, key: Octets, value: Octets) {
    |b| >= 1 + |key| && b[..1 + |key|] == ShortText(key) && LongForm(b[1 + |key|..], value)
  }

  /** The octets are a count, and then as many pieces, each of the form that its item calls for. */
  ghost predicate ListForm(b: Octets, pieces: seq<Octets>) {
    |b| >= 4 && BigEndian(b[..4], |pieces|) && b[4..] == Flat(pieces)
  }

  lemma LongStringForm(s: Octets)
    requires |s| < 0x1_0000_0000
    ensures LongForm(PutLongString(s), s)
  {
    Number4IsBigEndian(|s|);
    assert PutLongString(s)[..4] == PutNumber4(|s|);
  }

  lemma HeaderForm(pair: (Octets, Octets))
    requires |pair.1| < 0x1_0000_0000
    ensures PairForm(PutPair(pair), pair.0, pair.1)
  {
    var b := PutPair(pair);
    LongStringForm(pair.1);
    assert b[..1 + |pair.0|] == ShortText(pair.0) && b[1 + |pair.0|..] == PutLongString(pair.1);
  }

  /** Signature, kind, version, sequence number. */
  function Preamble(kind: byte, sequence: uint16): Octets {
    [0xaa, 0xa1, kind, 2, sequence / 0x100, sequence % 0x100]
  }

  /** What follows the preamble in every kind of frame but HELLO. */
  function Fields(m: Message): Octets
    requires !m.Hello?
  {
    match m
    case Whisper(_, _) => []
    case Shout(_, group, _) => ShortText(group)
    case Join(_, group, status) => ShortText(group) + [status]
    case Leave(_, group, status) => ShortText(group) + [status]
    case Ping(_) => []
    case PingOk(_) => []
    case Elect(_, group, challenger) => ShortText(group) + ShortText(challenger)
    case Leader(_, group, leader) => ShortText(group) + ShortText(leader)
    case Goodbye(_) => []
  }

  /** The number by which the kind is known. */
  function Kind(m: Message): byte {
    if m.Hello? then 1 else if m.Whisper? then 2 else if m.Shout? then 3 else if m.Join? then 4 else if m.Leave? then 5
    else if m.Ping? then 6 else if m.PingOk? then 7 else if m.Elect? then 8 else if m.Leader? then 9 else 10
  }

  lemma SixOctets(a: byte, b: byte, c: byte, d: byte, e: byte, f: byte, rest: Octets)
    ensures [a, b] + ([c] + ([d] + ([e, f] + rest))) == [a, b, c, d, e, f] + rest
  {
  }

  lemma PreambleOf(m: Message, pairs: seq<(Octets, Octets)>)
    ensures PutMessage(m, pairs) == Preamble(Kind(m), m.sequence) + PutBody(m, pairs)
  {
    var high, low := m.sequence / 0x100, m.sequence % 0x100;
    assert PutNumber2(SIGNATURE) == [0xaa, 0xa1] && PutNumber2(m.sequence) == [high, low];
    SixOctets(0xaa, 0xa1, Kind(m), 2, high, low, PutBody(m, pairs));
  }

  lemma FieldsAre(m: Message)
    requires !m.Hello?
    ensures PutBody(m, []) == Fields(m)
  {
  }

  /** Every frame but that of a HELLO is the preamble and these fields. */
  lemma FrameIs(m: Message)
    requires !m.Hello?
    ensures PutMessage(m, []) == Preamble(Kind(m), m.sequence) + Fields(m)
  {
    PreambleOf(m, []);
    FieldsAre(m);
  }

  lemma GroupsForm(list: seq<Octets>) returns (pieces: seq<Octets>)
    requires LongTexts(list) && |list| < 0x1_0000_0000
    ensures ListForm(PutNumber4(|list|) + PutMany(PutLongString, list), pieces) && |pieces| == |list|
    ensures forall i :: 0 <= i < |pieces| ==> LongForm(pieces[i], list[i])
  {
    pieces := Pieces(PutLongString, list);
    Number4IsBigEndian(|list|);
    ManyIsFlat(PutLongString, list);
    ListIs(|list|, pieces);
    forall i | 0 <= i < |pieces| ensures LongForm(pieces[i], list[i]) {
      assert LongText(list[i]);
      LongStringForm(list[i]);
    }
  }

  lemma HeadersForm(pairs: seq<(Octets, Octets)>) returns (pieces: seq<Octets>)
    requires |pairs| < 0x1_0000_0000 && forall i :: 0 <= i < |pairs| ==> HeaderOk(pairs[i].0, pairs[i].1)
    ensures ListForm(PutNumber4(|pairs|) + PutMany(PutPair, pairs), pieces) && |pieces| == |pairs|
    ensures forall i :: 0 <= i < |pieces| ==> PairForm(pieces[i], pairs[i].0, pairs[i].1)
  {
    pieces := Pieces(PutPair, pairs);
    Number4IsBigEndian(|pairs|);
    ManyIsFlat(PutPair, pairs);
    ListIs(|pairs|, pieces);
    forall i | 0 <= i < |pieces| ensures PairForm(pieces[i], pairs[i].0, pairs[i].1) {
      HeaderForm(pairs[i]);
    }
  }

  lemma ListIs(n: uint32, pieces: seq<Octets>)
    requires BigEndian(PutNumber4(n), n) && |pieces| == n
    ensures ListForm(PutNumber4(n) + Flat(pieces), pieces)
  {
    var b := PutNumber4(n) + Flat(pieces);
    assert b[..4] == PutNumber4(n) && b[4..] == Flat(pieces);
  }

  lemma HelloFields(m: Message, pairs: seq<(Octets, Octets)>)
    requires m.Hello?
    ensures PutBody(m, pairs)
         == ShortText(m.endpoint) + ((PutNumber4(|ListOf(m.groups)|) + PutMany(PutLongString, ListOf(m.groups)))
            + ([m.status] + (ShortText(m.name) + (PutNumber4(|pairs|) + PutMany(PutPair, pairs)))))
  {
    ShortTextIs(m.endpoint);
    ShortTextIs(m.name);
    var rest := PutString(m.name) + (PutNumber4(|pairs|) + PutMany(PutPair, pairs));
    Regrouped(m.status, PutNumber4(|ListOf(m.groups)|), PutMany(PutLongString, ListOf(m.groups)), rest);
  }

  lemma ShortTextIs(s: Octets)
    ensures PutString(s) == ShortText(s)
  {
  }

  lemma Regrouped(status: byte, count: Octets, items: Octets, rest: Octets)
    ensures count + (items + (PutNumber1(status) + rest)) == (count + items) + ([status] + rest)
  {
    Assoc(count, items, [status] + rest);
  }

  /**
   The frame of a HELLO: endpoint, groups, status, name and headers, where the
   groups and the headers are lists of long strings and of pairs.
   */
  lemma HelloFrameIs(m: Message, order: seq<Octets>) returns (groups: seq<Octets>, g: Octets, headers: seq<Octets>, h: Octets)
    requires Representable(m) && m.Hello? && OrderFor(m, order)
    ensures PutMessage(m, HeaderPairs(m, order))
         == Preamble(1, m.sequence) + (ShortText(m.endpoint) + (g + ([m.status] + (ShortText(m.name) + h))))
    ensures ListForm(g, groups) && |groups| == |ListOf(m.groups)|
    ensures forall i :: 0 <= i < |groups| ==> LongForm(groups[i], ListOf(m.groups)[i])
    ensures ListForm(h, headers) && |headers| == |order|
    ensures forall i :: 0 <= i < |headers| ==> PairForm(headers[i], order[i], TableOf(m.headers)[order[i]])
  {
    var list, pairs := ListOf(m.groups), HeaderPairs(m, order);
    OrderSize(TableOf(m.headers), order);
    assert forall i :: 0 <= i < |pairs| ==> HeaderOk(pairs[i].0, pairs[i].1);
    groups := GroupsForm(list);
    headers := HeadersForm(pairs);
    g := PutNumber4(|list|) + PutMany(PutLongString, list);
    h := PutNumber4(|pairs|) + PutMany(PutPair, pairs);
    PreambleOf(m, pairs);
    HelloFields(m, pairs);
  }

  // ---- what the decoder reads ----

  /** The string ends before the first zero octet of the field, or fills it. */
  ghost predicate TextOf(s: Octets, field: Octets) {
    s <= field && NoZero(s) && (|s| == |field| || field[|s|] == 0)
  }

  lemma CStringIff(field: Octets, s: Octets)
    ensures AsCString(field) == s <==> TextOf(s, field)
  {
    CStringIsText(field);
    if TextOf(s, field) {
      NotShorter(s, AsCString(field), field);
      NotShorter(AsCString(field), s, field);
    }
  }

  lemma NotShorter(s: Octets, t: Octets, field: Octets)
    requires TextOf(s, field) && TextOf(t, field)
    ensures |t| <= |s|
  {
    NoZeroAt(t, field, |s|);
  }

  lemma NoZeroAt(t: Octets, field: Octets, i: nat)
    requires t <= field && NoZero(t)
    ensures i < |t| ==> field[i] != 0
  {
    if i < |t| {
      assert t[i] == field[i];
    }
  }

  lemma CStringIsText(field: Octets)
    ensures TextOf(AsCString(field), field)
  {
    AsCStringIsPrefix(field);
    TerminatorIsFirst(field, 0);
  }

  /** These octets begin with a length octet and as many others, of which `s` is the text; `rest` is what follows. */
  ghost predicate StringRead(b: Octets, s: Octets, rest: Octets) {
    |b| >= 1 && |b| > b[0] && TextOf(s, b[1..1 + b[0]]) && rest == b[1 + b[0]..]
  }

  /** A string is read exactly if its length octet and as many others are there. */
  lemma StringReadIff(b: Octets, s: Octets, rest: Octets)
    ensures GetString(b) == Got(s, rest) <==> StringRead(b, s, rest)
  {
    if |b| >= 1 && |b| > b[0] {
      assert b[1..][..b[0]] == b[1..1 + b[0]] && b[1..][b[0]..] == b[1 + b[0]..];
      CStringIff(b[1..1 + b[0]], s);
    }
  }

  /** What is left once a string, or a long string, has been read. */
  function AfterString(b: Octets): Octets {
    if |b| >= 1 && |b| > b[0] then b[1 + b[0]..] else []
  }

  function AfterLong(b: Octets): Octets {
    if |b| >= 4 && |b| >= 4 + Value4(b) then b[4 + Value4(b)..] else []
  }

  ghost predicate LongStringRead(b: Octets, s: Octets, rest: Octets) {
    |b| >= 4 && |b| >= 4 + Value4(b) && TextOf(s, b[4..4 + Value4(b)]) && rest == b[4 + Value4(b)..]
  }

  /** A long string likewise, after its length in four octets. */
  lemma LongStringReadIff(b: Octets, s: Octets, rest: Octets)
    ensures GetLongString(b) == Got(s, rest) <==> LongStringRead(b, s, rest)
  {
    if |b| >= 4 {
      NumberOfFour(b);
      var n := Value4(b);
      if |b| >= 4 + n {
        assert b[4..][..n] == b[4..4 + n] && b[4..][n..] == b[4 + n..];
        CStringIff(b[4..4 + n], s);
      }
    }
  }

  lemma {:induction false} KeysCount(pairs: seq<(Octets, Octets)>, key: Octets)
    ensures key in InsertAll(pairs) <==> exists i :: IsFirst(pairs, key, i)
    decreases |pairs|
  {
    if pairs != [] {
      var n := |pairs| - 1;
      KeysCount(pairs[..n], key);
      if i :| IsFirst(pairs[..n], key, i) {
        assert IsFirst(pairs, key, i);
      } else if pairs[n].0 == key {
        FirstAtLast(pairs, pairs[..n], key);
      }
      if i :| IsFirst(pairs, key, i) {
        assert i < n ==> IsFirst(pairs[..n], key, i);
      }
    }
  }

  lemma FirstAtLast(pairs: seq<(Octets, Octets)>, front: seq<(Octets, Octets)>, key: Octets)
    requires pairs != [] && front == pairs[..|pairs| - 1] && pairs[|pairs| - 1].0 == key
    requires forall i :: !IsFirst(front, key, i)
    ensures IsFirst(pairs, key, |pairs| - 1)
  {
    NoneBefore(front, key, |front|);
    forall j | 0 <= j < |front| ensures pairs[j].0 != key {
      assert pairs[j] == front[j];
    }
  }

  lemma {:induction false} NoneBefore(pairs: seq<(Octets, Octets)>, key: Octets, n: nat)
    requires n <= |pairs| && forall i :: !IsFirst(pairs, key, i)
    ensures forall j :: 0 <= j < n ==> pairs[j].0 != key
  {
    if n > 0 {
      NoneBefore(pairs, key, n - 1);
      assert !IsFirst(pairs, key, n - 1);
    }
  }

  lemma NewAtLast(pairs: seq<(Octets, Octets)>, front: seq<(Octets, Octets)>, key: Octets)
    requires pairs != [] && front == pairs[..|pairs| - 1] && IsFirst(pairs, key, |pairs| - 1)
    ensures key !in InsertAll(front)
  {
    KeysCount(front, key);
    forall j ensures !IsFirst(front, key, j) {
      if 0 <= j < |front| {
        assert pairs[j] == front[j];
      }
    }
  }

  /** Of several pairs with one key the first counts. */
  lemma {:induction false} FirstValueCounts(pairs: seq<(Octets, Octets)>, key: Octets, i: nat)
    requires IsFirst(pairs, key, i)
    ensures key in InsertAll(pairs) && InsertAll(pairs)[key] == pairs[i].1
    decreases |pairs|
  {
    var n := |pairs| - 1;
    if i < n {
      FirstValueCounts(pairs[..n], key, i);
    } else {
      NewAtLast(pairs, pairs[..n], key);
    }
  }

  predicate IsFirst(pairs: seq<(Octets, Octets)>, key: Octets, i: int) {
    0 <= i < |pairs| && pairs[i].0 == key && forall j :: 0 <= j < i ==> pairs[j].0 != key
  }

  /** What of it is there shows that the frame is not of this protocol and version. */
  predicate Foreign(b: Octets) {
    && |b| >= 2
    && (b[0] != 0xaa || b[1] != 0xa1
        || (|b| >= 3 && (b[2] < 1 || b[2] > 10
                         || (|b| >= 4 && b[3] != 2))))
  }

  /** A frame is malformed exactly if it is foreign, whatever is missing at its end. */
  lemma MalformedIff(b: Octets, content: seq<Octets>)
    ensures GetMessage(b, content).Malformed? <==> Foreign(b)
  {
  }

  /** So a caller is told of a fault exactly in this case. */
  lemma FaultReportedIff(b: Octets, content: seq<Octets>)
    ensures ReturnCode(GetMessage(b, content)) == -2 <==> Foreign(b)
    ensures ReturnCode(GetMessage(b, content)) == 0 <==> !Foreign(b)
  {
    MalformedIff(b, content);
  }

  // ---- what it makes of a whole frame ----

  /** The frame begins with a whole preamble of this kind. */
  predicate Opens(b: Octets, kind: byte) {
    |b| >= 6 && b[0] == 0xaa && b[1] == 0xa1 && b[2] == kind && b[3] == 2
  }

  /** After the preamble come the fields of this message, and then `rest`. */
  ghost predicate FieldsRead(m: Message, b: Octets, content: seq<Octets>, rest: Octets)
    requires !m.Hello?
  {
    var b1 := AfterString(b);
    match m
    case Whisper(_, frames) => frames == Some(content) && rest == b
    case Shout(_, group, frames) => frames == Some(content) && StringRead(b, group, rest)
    case Join(_, group, status) => StringRead(b, group, b1) && b1 != [] && b1[0] == status && rest == b1[1..]
    case Leave(_, group, status) => StringRead(b, group, b1) && b1 != [] && b1[0] == status && rest == b1[1..]
    case Ping(_) => rest == b
    case PingOk(_) => rest == b
    case Elect(_, group, challenger) => StringRead(b, group, b1) && StringRead(b1, challenger, rest)
    case Leader(_, group, leader) => StringRead(b, group, b1) && StringRead(b1, leader, rest)
    case Goodbye(_) => rest == b
  }

  lemma StringParts(b: Octets)
    ensures match GetString(b)
            case Short => forall s, rest :: !StringRead(b, s, rest)
            case Got(s, rest) => StringRead(b, s, rest) && rest == AfterString(b)
  {
    match GetString(b)
    case Short =>
      forall s, rest ensures !StringRead(b, s, rest) {
        StringReadIff(b, s, rest);
      }
    case Got(s, rest) => StringReadIff(b, s, rest);
  }

  lemma BodyReadIff(m: Message, b: Octets, content: seq<Octets>, rest: Octets)
    requires !m.Hello?
    ensures GetOtherBody(Kind(m), m.sequence, b, content) == Got(m, rest) <==> FieldsRead(m, b, content, rest)
  {
    var b1 := AfterString(b);
    StringParts(b);
    match m
    case Shout(_, group, _) => StringReadIff(b, group, rest);
    case Join(_, group, _) => StringReadIff(b, group, b1);
    case Leave(_, group, _) => StringReadIff(b, group, b1);
    case Elect(_, group, challenger) =>
      StringReadIff(b, group, b1);
      StringReadIff(b1, challenger, rest);
    case Leader(_, group, leader) =>
      StringReadIff(b, group, b1);
      StringReadIff(b1, leader, rest);
    case _ =>
  }

  lemma OpenedFrame(b: Octets, content: seq<Octets>, kind: byte)
    requires Opens(b, kind) && 1 <= kind <= 10
    ensures GetMessage(b, content) == Frame(GetBody(kind, Base256(b[4], b[5]), b[6..], content))
  {
    assert b[2..][1..][1..][2..] == b[6..] && b[2..][1..][1..] == b[4..];
  }

  /** A frame of any kind but HELLO is decoded as a message exactly if it opens as its kind does, and its fields are there. */
  lemma MessageReadIff(b: Octets, content: seq<Octets>, m: Message, rest: Octets)
    requires !m.Hello?
    ensures GetMessage(b, content) == Decoded(m, rest) <==>
      Opens(b, Kind(m)) && m.sequence == b[4] as int * 0x100 + b[5] as int && FieldsRead(m, b[6..], content, rest)
  {
    if Opens(b, Kind(m)) {
      OpenedReadIff(b, content, m, rest);
    } else {
      DecodedOpens(b, content);
    }
  }

  lemma OpenedReadIff(b: Octets, content: seq<Octets>, m: Message, rest: Octets)
    requires !m.Hello? && Opens(b, Kind(m))
    ensures GetMessage(b, content) == Decoded(m, rest) <==>
      m.sequence == Base256(b[4], b[5]) && FieldsRead(m, b[6..], content, rest)
  {
    OpenedFrame(b, content, Kind(m));
    BodyReadIff(m, b[6..], content, rest);
    BodyKeepsKind(Kind(m), Base256(b[4], b[5]), b[6..], content);
  }

  lemma BodyKeepsKind(kind: byte, sequence: uint16, b: Octets, content: seq<Octets>)
    requires 2 <= kind <= 10
    ensures var g := GetOtherBody(kind, sequence, b, content); g.Got? ==> Kind(g.value) == kind && g.value.sequence == sequence
  {
  }

  lemma DecodedOpens(b: Octets, content: seq<Octets>)
    ensures var r := GetMessage(b, content); r.Decoded? ==> Opens(b, Kind(r.message))
  {
    if GetMessage(b, content).Decoded? {
      OpenedFrame(b, content, b[2]);
      if b[2] > 1 {
        BodyKeepsKind(b[2], Base256(b[4], b[5]), b[6..], content);
      }
    }
  }

  // ---- and of a HELLO ----

  /** These long strings stand one after the other, and then `rest`. */
  ghost predicate LongsRead(b: Octets, list: seq<Octets>, rest: Octets)
    decreases |list|
  {
    if list == [] then rest == b
    else LongStringRead(b, list[0], AfterLong(b)) && LongsRead(AfterLong(b), list[1..], rest)
  }

  /** A key as a string, and its value as a long one. */
  ghost predicate PairRead(b: Octets, pair: (Octets, Octets), rest: Octets) {
    StringRead(b, pair.0, AfterString(b)) && LongStringRead(AfterString(b), pair.1, rest)
  }

  function AfterPair(b: Octets): Octets {
    AfterLong(AfterString(b))
  }

  ghost predicate PairsRead(b: Octets, pairs: seq<(Octets, Octets)>, rest: Octets)
    decreases |pairs|
  {
    if pairs == [] then rest == b
    else PairRead(b, pairs[0], AfterPair(b)) && PairsRead(AfterPair(b), pairs[1..], rest)
  }

  lemma LongParts(b: Octets)
    ensures match GetLongString(b)
            case Short => forall s, rest :: !LongStringRead(b, s, rest)
            case Got(s, rest) => LongStringRead(b, s, rest) && rest == AfterLong(b)
  {
    match GetLongString(b)
    case Short =>
      forall s, rest ensures !LongStringRead(b, s, rest) {
        LongStringReadIff(b, s, rest);
      }
    case Got(s, rest) => LongStringReadIff(b, s, rest);
  }

  lemma PairReadIff(b: Octets, pair: (Octets, Octets), rest: Octets)
    ensures GetPair(b) == Got(pair, rest) <==> PairRead(b, pair, rest)
  {
    StringParts(b);
    StringReadIff(b, pair.0, AfterString(b));
    LongStringReadIff(AfterString(b), pair.1, rest);
  }

  lemma PairAfter(b: Octets)
    ensures GetPair(b).Got? ==> GetPair(b).rest == AfterPair(b)
  {
    StringParts(b);
    LongParts(AfterString(b));
  }

  /** `list` is what was there before, and then `more`. */
  lemma {:induction false} LongsReadIff(b: Octets, n: nat, before: seq<Octets>, more: seq<Octets>, rest: Octets)
    ensures GetMany(GetLongString, b, n, before) == Got(before + more, rest) <==> |more| == n && LongsRead(b, more, rest)
    decreases n
  {
    GrowsBy(GetLongString, b, n, before);
    if n == 0 {
      assert before + [] == before;
    } else {
      LongParts(b);
      if more != [] {
        LongStringReadIff(b, more[0], AfterLong(b));
        LongsReadIff(AfterLong(b), n - 1, before + [more[0]], more[1..], rest);
        assert before + [more[0]] + more[1..] == before + more;
        OtherItem(GetLongString, b, n, before, more, rest);
      }
    }
  }

  lemma {:induction false} GrowsBy<T>(get: Octets -> Got<T>, b: Octets, n: nat, before: seq<T>)
    ensures var g := GetMany(get, b, n, before); g.Got? ==> |g.value| == |before| + n && before <= g.value
    decreases n
  {
    if n > 0 && get(b).Got? {
      GrowsBy(get, get(b).rest, n - 1, before + [get(b).value]);
    }
  }

  /** The first item read is the first item there. */
  lemma OtherItem<T>(get: Octets -> Got<T>, b: Octets, n: nat, before: seq<T>, more: seq<T>, rest: Octets)
    requires n > 0 && more != []
    ensures GetMany(get, b, n, before) == Got(before + more, rest) ==> get(b).Got? && get(b).value == more[0]
  {
    if get(b).Got? && GetMany(get, b, n, before) == Got(before + more, rest) {
      GrowsBy(get, get(b).rest, n - 1, before + [get(b).value]);
      assert (before + more)[|before|] == more[0];
    }
  }

  lemma {:induction false} PairsReadIff(b: Octets, n: nat, before: seq<(Octets, Octets)>, more: seq<(Octets, Octets)>, rest: Octets)
    ensures GetMany(GetPair, b, n, before) == Got(before + more, rest) <==> |more| == n && PairsRead(b, more, rest)
    decreases n
  {
    GrowsBy(GetPair, b, n, before);
    if n == 0 {
      assert before + [] == before;
    } else {
      PairAfter(b);
      if more != [] {
        PairReadIff(b, more[0], AfterPair(b));
        PairsReadIff(AfterPair(b), n - 1, before + [more[0]], more[1..], rest);
        assert before + [more[0]] + more[1..] == before + more;
        OtherItem(GetPair, b, n, before, more, rest);
      }
    }
  }

  /** The table has just the keys of these pairs, each with its first value. */
  ghost predicate FirstValues(pairs: seq<(Octets, Octets)>, table: Headers) {
    forall key :: FirstValue(pairs, table, key)
  }

  ghost predicate FirstValue(pairs: seq<(Octets, Octets)>, table: Headers, key: Octets) {
    && (key in table <==> exists i :: IsFirst(pairs, key, i))
    && (forall i :: IsFirst(pairs, key, i) ==> key in table && table[key] == pairs[i].1)
  }

  lemma TableIff(pairs: seq<(Octets, Octets)>, table: Headers)
    ensures InsertAll(pairs) == table <==> FirstValues(pairs, table)
  {
    forall key ensures FirstValue(pairs, InsertAll(pairs), key) {
      KeysCount(pairs, key);
      forall i | IsFirst(pairs, key, i) ensures key in InsertAll(pairs) && InsertAll(pairs)[key] == pairs[i].1 {
        FirstValueCounts(pairs, key, i);
      }
    }
    if FirstValues(pairs, table) {
      SameTable(pairs, InsertAll(pairs), table);
    }
  }

  lemma SameTable(pairs: seq<(Octets, Octets)>, s: Headers, t: Headers)
    requires FirstValues(pairs, s) && FirstValues(pairs, t)
    ensures s == t
  {
    forall key ensures key in s <==> key in t {
      assert FirstValue(pairs, s, key) && FirstValue(pairs, t, key);
    }
    forall key | key in s ensures s[key] == t[key] {
      assert FirstValue(pairs, s, key) && FirstValue(pairs, t, key);
    }
  }

  /** From here on stand endpoint and groups, and then `rest`. */
  ghost predicate GroupsPart(b: Octets, endpoint: Octets, groups: seq<Octets>, rest: Octets) {
    var b1 := AfterString(b);
    StringRead(b, endpoint, b1) && |b1| >= 4 && Value4(b1) == |groups| && LongsRead(b1[4..], groups, rest)
  }

  /** From here on stand name and header pairs, and then `rest`. */
  ghost predicate NamePart(b: Octets, name: Octets, pairs: seq<(Octets, Octets)>, rest: Octets) {
    var b1 := AfterString(b);
    StringRead(b, name, b1) && |b1| >= 4 && Value4(b1) == |pairs| && PairsRead(b1[4..], pairs, rest)
  }

  ghost predicate HeadersPart(b: Octets, status: byte, name: Octets, pairs: seq<(Octets, Octets)>, rest: Octets) {
    |b| >= 1 && b[0] == status && NamePart(b[1..], name, pairs, rest)
  }

  /** The fields of this HELLO, and then `rest`; the headers begin at `middle`. */
  ghost predicate HelloRead(m: Message, b: Octets, middle: Octets, pairs: seq<(Octets, Octets)>, rest: Octets)
    requires m.Hello?
  {
    && m.groups.Some? && m.headers.Some? && GroupsPart(b, m.endpoint, m.groups.value, middle)
    && HeadersPart(middle, m.status, m.name, pairs, rest) && FirstValues(pairs, m.headers.value)
  }

  ghost predicate HelloFieldsRead(m: Message, b: Octets, rest: Octets)
    requires m.Hello?
  {
    exists middle, pairs :: HelloRead(m, b, middle, pairs, rest)
  }

  /** The decoder on endpoint and groups. */
  function GetGroupsPart(b: Octets): Got<(Octets, seq<Octets>)> {
    match GetString(b) case Short => Short case Got(endpoint, b1) =>
    match GetNumber4(b1) case Short => Short case Got(n, b2) =>
    match GetMany(GetLongString, b2, n, []) case Short => Short case Got(groups, b3) =>
      Got((endpoint, groups), b3)
  }

  /** On name and headers. */
  function GetNamePart(b: Octets): Got<(Octets, seq<(Octets, Octets)>)> {
    match GetString(b) case Short => Short case Got(name, b1) =>
    match GetNumber4(b1) case Short => Short case Got(k, b2) =>
    match GetMany(GetPair, b2, k, []) case Short => Short case Got(pairs, b3) =>
      Got((name, pairs), b3)
  }

  /** And on status, name and headers. */
  function GetHeadersPart(b: Octets): Got<(byte, Octets, seq<(Octets, Octets)>)> {
    match GetNumber1(b) case Short => Short case Got(status, b1) =>
    match GetNamePart(b1) case Short => Short case Got(p, b2) =>
      Got((status, p.0, p.1), b2)
  }

  lemma HelloInParts(sequence: uint16, b: Octets)
    ensures GetHello(sequence, b) ==
      match GetGroupsPart(b) case Short => Short case Got(g, b1) =>
      match GetHeadersPart(b1) case Short => Short case Got(h, b2) =>
        Got(Hello(sequence, g.0, Some(g.1), h.0, h.1, Some(InsertAll(h.2))), b2)
  {
  }

  lemma GroupsPartIff(b: Octets, endpoint: Octets, groups: seq<Octets>, rest: Octets)
    ensures GetGroupsPart(b) == Got((endpoint, groups), rest) <==> GroupsPart(b, endpoint, groups, rest)
  {
    var b1 := AfterString(b);
    StringParts(b);
    StringReadIff(b, endpoint, b1);
    if |b1| >= 4 {
      NumberOfFour(b1);
      LongsReadIff(b1[4..], Value4(b1), [], groups, rest);
      assert [] + groups == groups;
    }
  }

  lemma Number4Read(b: Octets)
    ensures GetNumber4(b) == if |b| < 4 then Short else Got(Value4(b), b[4..])
  {
    if |b| >= 4 {
      NumberOfFour(b);
    }
  }

  lemma PairListIff(b: Octets, n: nat, pairs: seq<(Octets, Octets)>, rest: Octets)
    ensures GetMany(GetPair, b, n, []) == Got(pairs, rest) <==> |pairs| == n && PairsRead(b, pairs, rest)
  {
    PairsReadIff(b, n, [], pairs, rest);
    assert [] + pairs == pairs;
  }

  lemma NamePartIff(b: Octets, name: Octets, pairs: seq<(Octets, Octets)>, rest: Octets)
    ensures GetNamePart(b) == Got((name, pairs), rest) <==> NamePart(b, name, pairs, rest)
  {
    var b1 := AfterString(b);
    StringParts(b);
    StringReadIff(b, name, b1);
    Number4Read(b1);
    if |b1| >= 4 {
      PairListIff(b1[4..], Value4(b1), pairs, rest);
    }
  }

  lemma HeadersPartIff(b: Octets, status: byte, name: Octets, pairs: seq<(Octets, Octets)>, rest: Octets)
    ensures GetHeadersPart(b) == Got((status, name, pairs), rest) <==> HeadersPart(b, status, name, pairs, rest)
  {
    if |b| >= 1 {
      NamePartIff(b[1..], name, pairs, rest);
    }
  }

  lemma HelloBodyIff(b: Octets, m: Message, rest: Octets)
    requires m.Hello?
    ensures GetHello(m.sequence, b) == Got(m, rest) <==> HelloFieldsRead(m, b, rest)
  {
    HelloInParts(m.sequence, b);
    if GetHello(m.sequence, b) == Got(m, rest) {
      var middle, pairs := GetGroupsPart(b).rest, GetHeadersPart(GetGroupsPart(b).rest).value.2;
      GroupsPartIff(b, m.endpoint, m.groups.value, middle);
      HeadersPartIff(middle, m.status, m.name, pairs, rest);
      TableIff(pairs, m.headers.value);
      assert HelloRead(m, b, middle, pairs, rest);
    }
    if middle, pairs :| HelloRead(m, b, middle, pairs, rest) {
      GroupsPartIff(b, m.endpoint, m.groups.value, middle);
      HeadersPartIff(middle, m.status, m.name, pairs, rest);
      TableIff(pairs, m.headers.value);
    }
  }

  lemma HelloKeepsSequence(sequence: uint16, b: Octets)
    ensures GetHello(sequence, b).Got? ==> GetHello(sequence, b).value.Hello? && GetHello(sequence, b).value.sequence == sequence
  {
    HelloInParts(sequence, b);
  }

  lemma OpenedHelloIff(b: Octets, content: seq<Octets>, m: Message, rest: Octets)
    requires m.Hello? && Opens(b, 1)
    ensures GetMessage(b, content) == Decoded(m, rest) <==>
      m.sequence == Base256(b[4], b[5]) && GetHello(m.sequence, b[6..]) == Got(m, rest)
  {
    OpenedFrame(b, content, 1);
    HelloKeepsSequence(Base256(b[4], b[5]), b[6..]);
  }

  /** A frame is decoded as a HELLO exactly if it opens as one and its fields are there, with the first value of each header. */
  lemma HelloReadIff(b: Octets, content: seq<Octets>, m: Message, rest: Octets)
    requires m.Hello?
    ensures GetMessage(b, content) == Decoded(m, rest) <==>
      Opens(b, 1) && m.sequence == b[4] as int * 0x100 + b[5] as int && HelloFieldsRead(m, b[6..], rest)
  {
    if Opens(b, 1) {
      OpenedHelloIff(b, content, m, rest);
      HelloBodyIff(b[6..], m, rest);
    } else {
      DecodedOpens(b, content);
    }
  }
}
