/** Whatever the decoder accepts it could have been sent: every decoded message is representable. */
module ZreTexts {
  import opened Basics
  import opened ZreGrammar
  import opened ZreRoundTrip

  lemma OctetsAreText(b: Octets, n: nat)
    requires GetOctets(b, n).Got?
    ensures NoZero(GetOctets(b, n).value) && |GetOctets(b, n).value| <= n
  {
    AsCStringIsPrefix(b[..n]);
  }

  lemma StringIsText(b: Octets)
    requires GetString(b).Got?
    ensures Text(GetString(b).value)
  {
    OctetsAreText(b[1..], b[0]);
  }

  lemma LongStringIsText(b: Octets)
    requires GetLongString(b).Got?
    ensures LongText(GetLongString(b).value)
  {
    NumberBound(b);
    OctetsAreText(b[4..], Number(b, 4));
  }

  lemma NumberBound(b: Octets)
    requires |b| >= 4
    ensures Number(b, 4) < 0x1_0000_0000
  {
    assert Number(b, 1) == b[0] && Number(b, 2) == Base256(Number(b, 1), b[1]);
    assert Number(b, 3) == Base256(Number(b, 2), b[2]);
  }

  /** Items read one by one satisfy what each item read satisfies. */
  lemma {:induction false} ManyAre<T(!new)>(get: Octets -> Got<T>, good: T -> bool, b: Octets, n: nat, list: seq<T>)
    requires GetMany(get, b, n, list).Got?
    requires forall rest :: get(rest).Got? ==> good(get(rest).value)
    requires forall i :: 0 <= i < |list| ==> good(list[i])
    ensures var all := GetMany(get, b, n, list).value;
            |all| == |list| + n && forall i :: 0 <= i < |all| ==> good(all[i])
    decreases n
  {
    if n > 0 {
      var got := get(b);
      ManyAre(get, good, got.rest, n - 1, list + [got.value]);
    }
  }

  lemma GroupsAreTexts(b: Octets, n: nat)
    requires GetMany(GetLongString, b, n, []).Got?
    ensures var list := GetMany(GetLongString, b, n, []).value; LongTexts(list) && |list| == n
  {
    forall rest | GetLongString(rest).Got? ensures LongText(GetLongString(rest).value) {
      LongStringIsText(rest);
    }
    ManyAre(GetLongString, LongText, b, n, []);
  }

  predicate PairOk(pair: (Octets, Octets)) {
    HeaderOk(pair.0, pair.1)
  }

  lemma PairsAreTexts(b: Octets, n: nat)
    requires GetMany(GetPair, b, n, []).Got?
    ensures var list := GetMany(GetPair, b, n, []).value;
            |list| == n && forall i :: 0 <= i < |list| ==> PairOk(list[i])
  {
    forall rest | GetPair(rest).Got? ensures PairOk(GetPair(rest).value) {
      StringIsText(rest);
      LongStringIsText(GetString(rest).rest);
    }
    ManyAre(GetPair, PairOk, b, n, []);
  }

  lemma {:induction false} TableIsTexts(pairs: seq<(Octets, Octets)>)
    requires forall i :: 0 <= i < |pairs| ==> PairOk(pairs[i])
    ensures HeadersOk(InsertAll(pairs)) && |InsertAll(pairs)| <= |pairs|
    decreases |pairs|
  {
    if pairs != [] {
      TableIsTexts(pairs[..|pairs| - 1]);
      assert PairOk(pairs[|pairs| - 1]);
    }
  }

  /** A message that can be encoded, in the form in which a receiver has it. */
  predicate AsReceived(m: Message, content: seq<Octets>) {
    Representable(m) && Received(m, content) == m
  }

  lemma HelloIsTexts(sequence: uint16, b: Octets)
    requires GetHello(sequence, b).Got?
    ensures AsReceived(GetHello(sequence, b).value, [])
  {
    var b1 := GetString(b).rest;
    var n, b2 := GetNumber4(b1).value, GetNumber4(b1).rest;
    var b3 := GetMany(GetLongString, b2, n, []).rest;
    var b4 := GetNumber1(b3).rest;
    var b5 := GetString(b4).rest;
    var k, b6 := GetNumber4(b5).value, GetNumber4(b5).rest;
    StringIsText(b);
    NumberBound(b1);
    GroupsAreTexts(b2, n);
    StringIsText(b4);
    NumberBound(b5);
    PairsAreTexts(b6, k);
    TableIsTexts(GetMany(GetPair, b6, k, []).value);
  }

  lemma OtherIsTexts(id: byte, sequence: uint16, b: Octets, content: seq<Octets>)
    requires 2 <= id <= 10 && GetOtherBody(id, sequence, b, content).Got?
    ensures AsReceived(GetOtherBody(id, sequence, b, content).value, content)
  {
    if GetString(b).Got? {
      StringIsText(b);
      if GetString(GetString(b).rest).Got? {
        StringIsText(GetString(b).rest);
      }
    }
  }

  /** Every message the decoder makes of any octets can be encoded. */
  lemma DecodedIsRepresentable(b: Octets, content: seq<Octets>)
    requires GetMessage(b, content).Decoded?
    ensures AsReceived(GetMessage(b, content).message, content)
  {
    var b1 := GetNumber2(b).rest;
    var id, b2 := GetNumber1(b1).value, GetNumber1(b1).rest;
    var b3 := GetNumber1(b2).rest;
    var sequence, b4 := GetNumber2(b3).value, GetNumber2(b3).rest;
    if id == 1 {
      HelloIsTexts(sequence, b4);
    } else {
      OtherIsTexts(id, sequence, b4, content);
    }
  }

  /**
   And it is read as itself: what was decoded, encoded again with its headers in
   any order, decodes to the same message, whatever octets it came from.
   */
  lemma DecodedReadsAsItself(b: Octets, content: seq<Octets>, m: Message, rest: Octets, order: seq<Octets>, t: Octets)
    requires GetMessage(b, content) == Decoded(m, rest) && OrderFor(m, order)
    ensures GetMessage(PutMessage(m, HeaderPairs(m, order)) + t, content) == Decoded(m, t)
  {
    DecodedIsRepresentable(b, content);
    ReceivedReadsAsItself(m, content, order, t);
  }

  lemma ReceivedReadsAsItself(m: Message, content: seq<Octets>, order: seq<Octets>, t: Octets)
    requires AsReceived(m, content) && OrderFor(m, order)
    ensures GetMessage(PutMessage(m, HeaderPairs(m, order)) + t, content) == Decoded(m, t)
  {
    RoundTrip(m, order, t, content);
  }
}
