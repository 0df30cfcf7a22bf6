/**
 The ZRE message frame: what the encoder writes for a message, and what the
 decoder makes of any octets.
 */
module ZreGrammar {
  import opened Basics

  const SIGNATURE: uint16 := 0xAAA1
  const VERSION: byte := 2

  type Headers = map<Octets, Octets>

  /** A missing list, hash or content is `None`; the encoder accepts it, the decoder never makes it. */
  datatype Message =
    | Hello(sequence: uint16, endpoint: Octets, groups: Option<seq<Octets>>, status: byte, name: Octets, headers: Option<Headers>)
    | Whisper(sequence: uint16, content: Option<seq<Octets>>)
    | Shout(sequence: uint16, group: Octets, content: Option<seq<Octets>>)
    | Join(sequence: uint16, group: Octets, status: byte)
    | Leave(sequence: uint16, group: Octets, status: byte)
    | Ping(sequence: uint16)
    | PingOk(sequence: uint16)
    | Elect(sequence: uint16, group: Octets, challenger: Octets)
    | Leader(sequence: uint16, group: Octets, leader: Octets)
    | Goodbye(sequence: uint16)

  function IdOf(m: Message): byte {
    match m
    case Hello(_, _, _, _, _, _) => 1
    case Whisper(_, _) => 2
    case Shout(_, _, _) => 3
    case Join(_, _, _) => 4
    case Leave(_, _, _) => 5
    case Ping(_) => 6
    case PingOk(_) => 7
    case Elect(_, _, _) => 8
    case Leader(_, _, _) => 9
    case Goodbye(_) => 10
  }

  // ---- writing ----

  function PutNumber1(n: nat): Octets {
    [n % 0x100]
  }

  function PutNumber2(n: nat): Octets {
    [(n / 0x100) % 0x100, n % 0x100]
  }

  function PutNumber4(n: nat): Octets {
    [(n / 0x100_0000) % 0x100, (n / 0x1_0000) % 0x100, (n / 0x100) % 0x100, n % 0x100]
  }

  /** The length octet keeps only eight bits of the length; the octets are all written. */
  function PutString(s: Octets): Octets {
    PutNumber1(|s|) + s
  }

  function PutLongString(s: Octets): Octets {
    PutNumber4(|s|) + s
  }

  function PutPair(pair: (Octets, Octets)): Octets {
    PutString(pair.0) + PutLongString(pair.1)
  }

  function PutMany<T>(put: T -> Octets, list: seq<T>): Octets {
    if list == [] then [] else put(list[0]) + PutMany(put, list[1..])
  }

  function ListOf<T>(list: Option<seq<T>>): seq<T> {
    match list
    case None => []
    case Some(items) => items
  }

  function TableOf(headers: Option<Headers>): Headers {
    match headers
    case None => map[]
    case Some(table) => table
  }

  /** The hash gives its keys in some order. */
  ghost predicate IsOrder(table: Headers, order: seq<Octets>) {
    && (forall i :: 0 <= i < |order| ==> order[i] in table)
    && (forall key :: key in table ==> key in order)
    && (forall i, j :: 0 <= i < j < |order| ==> order[i] != order[j])
  }

  function PairsIn(table: Headers, order: seq<Octets>): (pairs: seq<(Octets, Octets)>)
    requires forall i :: 0 <= i < |order| ==> order[i] in table
    ensures |pairs| == |order| && forall i :: 0 <= i < |order| ==> pairs[i] == (order[i], table[order[i]])
  {
    seq(|order|, i requires 0 <= i < |order| && order[i] in table => (order[i], table[order[i]]))
  }

  /** What follows the sequence number, given the order of the header pairs. */
  function PutBody(m: Message, pairs: seq<(Octets, Octets)>): Octets {
    match m
    case Hello(_, endpoint, groups, status, name, headers) =>
      PutString(endpoint) + (PutNumber4(|ListOf(groups)|) + (PutMany(PutLongString, ListOf(groups))
      + (PutNumber1(status) + (PutString(name) + (PutNumber4(|pairs|) + PutMany(PutPair, pairs))))))
    case Shout(_, group, _) => PutString(group)
    case Join(_, group, status) => PutString(group) + PutNumber1(status)
    case Leave(_, group, status) => PutString(group) + PutNumber1(status)
    case Elect(_, group, challenger) => PutString(group) + PutString(challenger)
    case Leader(_, group, leader) => PutString(group) + PutString(leader)
    case _ => []
  }

  function PutMessage(m: Message, pairs: seq<(Octets, Octets)>): Octets {
    PutNumber2(SIGNATURE) + (PutNumber1(IdOf(m)) + (PutNumber1(VERSION) + (PutNumber2(m.sequence) + PutBody(m, pairs))))
  }

  function HeaderPairs(m: Message, order: seq<Octets>): seq<(Octets, Octets)>
    requires m.Hello? ==> forall i :: 0 <= i < |order| ==> order[i] in TableOf(m.headers)
  {
    if m.Hello? then PairsIn(TableOf(m.headers), order) else []
  }

  // ---- reading ----

  /** A value and the octets after it, or too few octets. */
  datatype Got<+T> = Got(value: T, rest: Octets) | Short

  function Base256(high: nat, low: nat): nat {
    high * 0x100 + low
  }

  function GetNumber1(b: Octets): Got<byte> {
    if |b| < 1 then Short else Got(b[0], b[1..])
  }

  function GetNumber2(b: Octets): Got<uint16> {
    if |b| < 2 then Short else Got(Base256(b[0], b[1]), b[2..])
  }

  /** The number that the first `k` octets spell, high octet first. */
  function Number(b: Octets, k: nat): nat
    requires k <= |b|
    decreases b, k
  {
    if k == 0 then 0 else Base256(Number(b, k - 1), b[k - 1])
  }

  function GetNumber4(b: Octets): Got<nat> {
    if |b| < 4 then Short else Got(Number(b, 4), b[4..])
  }

  /** The position of the first zero octet from `i` on, or the end. */
  function Terminator(b: Octets, i: nat): (end: nat)
    requires i <= |b|
    ensures i <= end <= |b|
    decreases |b| - i
  {
    if i == |b| || b[i] == 0 then i else Terminator(b, i + 1)
  }

  /** What a C program sees of these octets: those before the first zero. */
  function AsCString(b: Octets): Octets {
    b[..Terminator(b, 0)]
  }

  function GetOctets(b: Octets, n: nat): Got<Octets> {
    if |b| < n then Short else Got(AsCString(b[..n]), b[n..])
  }

  function GetString(b: Octets): Got<Octets> {
    match GetNumber1(b)
    case Short => Short
    case Got(n, rest) => GetOctets(rest, n)
  }

  function GetLongString(b: Octets): Got<Octets> {
    match GetNumber4(b)
    case Short => Short
    case Got(n, rest) => GetOctets(rest, n)
  }

  function GetPair(b: Octets): Got<(Octets, Octets)> {
    match GetString(b) case Short => Short case Got(key, b1) =>
    match GetLongString(b1) case Short => Short case Got(value, b2) =>
      Got((key, value), b2)
  }

  /** `n` more items after those of `list`. */
  function GetMany<T>(get: Octets -> Got<T>, b: Octets, n: nat, list: seq<T>): Got<seq<T>>
    decreases n
  {
    if n == 0 then Got(list, b)
    else
      match get(b)
      case Short => Short
      case Got(item, rest) => GetMany(get, rest, n - 1, list + [item])
  }

  /** A key that is in the hash already is not inserted again. */
  function Insert(table: Headers, key: Octets, value: Octets): Headers {
    if key in table then table else table[key := value]
  }

  function InsertAll(pairs: seq<(Octets, Octets)>): Headers {
    if pairs == [] then map[]
    else
      var last := pairs[|pairs| - 1];
      Insert(InsertAll(pairs[..|pairs| - 1]), last.0, last.1)
  }

  function GetHello(sequence: uint16, b: Octets): Got<Message> {
    match GetString(b) case Short => Short case Got(endpoint, b1) =>
    match GetNumber4(b1) case Short => Short case Got(n, b2) =>
    match GetMany(GetLongString, b2, n, []) case Short => Short case Got(groups, b3) =>
    match GetNumber1(b3) case Short => Short case Got(status, b4) =>
    match GetString(b4) case Short => Short case Got(name, b5) =>
    match GetNumber4(b5) case Short => Short case Got(k, b6) =>
    match GetMany(GetPair, b6, k, []) case Short => Short case Got(pairs, b7) =>
      Got(Hello(sequence, endpoint, Some(groups), status, name, Some(InsertAll(pairs))), b7)
  }

  function GetGroupAndStatus(b: Octets): Got<(Octets, byte)> {
    match GetString(b) case Short => Short case Got(group, b1) =>
    match GetNumber1(b1) case Short => Short case Got(status, b2) =>
      Got((group, status), b2)
  }

  function GetTwoStrings(b: Octets): Got<(Octets, Octets)> {
    match GetString(b) case Short => Short case Got(s, b1) =>
    match GetString(b1) case Short => Short case Got(t, b2) =>
      Got((s, t), b2)
  }

  /** `content` is what came in the frames after this one. */
  function GetBody(id: byte, sequence: uint16, b: Octets, content: seq<Octets>): Got<Message>
    requires 1 <= id <= 10
  {
    if id == 1 then GetHello(sequence, b) else GetOtherBody(id, sequence, b, content)
  }

  function GetOtherBody(id: byte, sequence: uint16, b: Octets, content: seq<Octets>): Got<Message>
    requires 2 <= id <= 10
  {
    match id
    case 2 => Got(Whisper(sequence, Some(content)), b)
    case 3 => (match GetString(b) case Short => Short case Got(group, rest) => Got(Shout(sequence, group, Some(content)), rest))
    case 4 => (match GetGroupAndStatus(b) case Short => Short case Got(p, rest) => Got(Join(sequence, p.0, p.1), rest))
    case 5 => (match GetGroupAndStatus(b) case Short => Short case Got(p, rest) => Got(Leave(sequence, p.0, p.1), rest))
    case 6 => Got(Ping(sequence), b)
    case 7 => Got(PingOk(sequence), b)
    case 8 => (match GetTwoStrings(b) case Short => Short case Got(p, rest) => Got(Elect(sequence, p.0, p.1), rest))
    case 9 => (match GetTwoStrings(b) case Short => Short case Got(p, rest) => Got(Leader(sequence, p.0, p.1), rest))
    case 10 => Got(Goodbye(sequence), b)
  }

  /** A frame that ends too soon leaves the return code at zero; only the other faults set it. */
  datatype Outcome = Decoded(message: Message, rest: Octets) | Underflow | Malformed

  function Frame(got: Got<Message>): Outcome {
    match got
    case Short => Underflow
    case Got(m, rest) => Decoded(m, rest)
  }

  function GetMessage(b: Octets, content: seq<Octets>): Outcome {
    match GetNumber2(b) case Short => Underflow case Got(signature, b1) =>
    if signature != SIGNATURE then Malformed else
    match GetNumber1(b1) case Short => Underflow case Got(id, b2) =>
    if !(1 <= id <= 10) then Malformed else
    match GetNumber1(b2) case Short => Underflow case Got(version, b3) =>
    if version != VERSION then Malformed else
    match GetNumber2(b3) case Short => Underflow case Got(sequence, b4) =>
      Frame(GetBody(id, sequence, b4, content))
  }
}
