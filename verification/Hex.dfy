/** Octet strings as text of hexadecimal digits, and back. */
module Hex {
  import opened Basics

  /** The digit `%02x` prints. */
  function Digit(n: nat): byte
    requires n < 16
  {
    if n < 10 then '0' as byte + n else 'a' as byte + (n - 10)
  }

  predicate IsDigit(c: byte) {
    '0' as byte <= c <= '9' as byte || 'a' as byte <= c <= 'f' as byte || 'A' as byte <= c <= 'F' as byte
  }

  /** The value that `%x` reads, in either case. */
  function ValueOf(c: byte): (n: nat)
    requires IsDigit(c)
    ensures n < 16
  {
    if c <= '9' as byte then c - '0' as byte
    else if c <= 'F' as byte then c - 'A' as byte + 10
    else c - 'a' as byte + 10
  }

  function LowerCase(c: byte): byte {
    if 'A' as byte <= c <= 'F' as byte then c + 0x20 else c
  }

  predicate IsHex(text: Octets) {
    forall i :: 0 <= i < |text| ==> IsDigit(text[i])
  }

  ghost predicate Spells(text: Octets, octets: Octets) {
    && |text| == 2 * |octets|
    && (forall i :: 0 <= i < |octets| ==> text[2 * i] == Digit(octets[i] / 16) && text[2 * i + 1] == Digit(octets[i] % 16))
  }

  /** Two digits for each octet. */
  method TextOf(octets: Octets) returns (text: Octets)
    ensures Spells(text, octets) && IsHex(text)
  {
    text := [];
    var i := 0;
    while i != |octets|
      invariant 0 <= i <= |octets| && Spells(text, octets[..i]) && IsHex(text)
    {
      text := text + [Digit(octets[i] / 16), Digit(octets[i] % 16)];
      i := i + 1;
    }
    assert octets[..|octets|] == octets;
  }

  predicate IsSpace(c: byte) {
    c == ' ' as byte || 0x09 <= c <= 0x0d
  }

  /**
   What `%x` makes of two characters: digits, up to the first character that is
   none, after at most one blank or sign; nothing if there is no digit.  A minus
   sign negates the unsigned number.  C libraries differ about a lone `0x`: to
   some it is a zero, to others nothing, which is the choice made here.
   */
  function Scan(a: byte, b: byte): Option<uint32> {
    if IsDigit(a) && IsDigit(b) then Some(ValueOf(a) * 16 + ValueOf(b))
    else if a == '0' as byte && (b == 'x' as byte || b == 'X' as byte) then None
    else if IsDigit(a) then Some(ValueOf(a))
    else if !IsDigit(b) then None
    else if IsSpace(a) || a == '+' as byte then Some(ValueOf(b))
    else if a == '-' as byte then Some((0x1_0000_0000 - ValueOf(b)) % 0x1_0000_0000)
    else None
  }

  /** The number that hexadecimal digits spell. */
  function Number(digits: Octets): nat
    requires IsHex(digits)
  {
    if digits == [] then 0 else Number(digits[..|digits| - 1]) * 16 + ValueOf(digits[|digits| - 1])
  }

  /** Blanks up to `k`, at most one sign up to `i`, and then digits as far as they go, up to `j`. */
  predicate SplitAt(text: Octets, k: nat, i: nat, j: nat) {
    && k <= i < j <= |text|
    && (forall m :: 0 <= m < k ==> IsSpace(text[m]))
    && (i == k || (i == k + 1 && (text[k] == '+' as byte || text[k] == '-' as byte)))
    && (forall m :: i <= m < j ==> IsDigit(text[m])) && (j < |text| ==> !IsDigit(text[j]))
  }

  /** The digits are a lone zero before an `x`. */
  predicate LoneZero(text: Octets, i: nat, j: nat) {
    j == i + 1 && j < |text| && text[i] == '0' as byte && (text[j] == 'x' as byte || text[j] == 'X' as byte)
  }

  /** The text begins with a number so written, which a minus sign negates in 32 bits. */
  ghost predicate ReadsAs(text: Octets, value: uint32) {
    exists k, i, j :: SplitAt(text, k, i, j) && !LoneZero(text, i, j) && Spelt(text, k, i, j, value)
  }

  predicate Spelt(text: Octets, k: nat, i: nat, j: nat, value: uint32)
    requires SplitAt(text, k, i, j)
  {
    value == Signed(i > k && text[k] == '-' as byte, Number(text[i..j]))
  }

  function Signed(negative: bool, n: int): uint32 {
    (if negative then -n else n) % 0x1_0000_0000
  }

  lemma NumberOfOne(a: byte)
    requires IsDigit(a)
    ensures Number([a]) == ValueOf(a)
  {
    assert [a][..0] == [];
  }

  lemma NumberOfTwo(a: byte, b: byte)
    requires IsDigit(a) && IsDigit(b)
    ensures Number([a, b]) == ValueOf(a) * 16 + ValueOf(b)
  {
    assert [a, b][..1] == [a];
    NumberOfOne(a);
  }

  /** The four ways to split two characters. */
  predicate Way(a: byte, b: byte, k: nat, i: nat, j: nat) {
    match (k, i, j)
    case (0, 0, 2) => IsDigit(a) && IsDigit(b)
    case (0, 0, 1) => IsDigit(a) && !IsDigit(b)
    case (1, 1, 2) => IsSpace(a) && IsDigit(b)
    case (0, 1, 2) => (a == '+' as byte || a == '-' as byte) && IsDigit(b)
    case _ => false
  }

  /** The only way there is decides. */
  lemma ReadsOneWay(a: byte, b: byte, k: nat, i: nat, j: nat, value: uint32)
    requires Way(a, b, k, i, j)
    ensures SplitAt([a, b], k, i, j)
    ensures ReadsAs([a, b], value) <==> !LoneZero([a, b], i, j) && Spelt([a, b], k, i, j, value)
  {
    WayIsSplit(a, b, k, i, j);
    if p: nat, q: nat, r: nat :| SplitAt([a, b], p, q, r) && !LoneZero([a, b], q, r) && Spelt([a, b], p, q, r, value) {
      WayIsSplit(a, b, p, q, r);
      assert (p, q, r) == (k, i, j);
    }
  }

  lemma ReadsNoWay(a: byte, b: byte, value: uint32)
    requires forall k: nat, i: nat, j: nat :: !Way(a, b, k, i, j)
    ensures !ReadsAs([a, b], value)
  {
    forall k: nat, i: nat, j: nat ensures !SplitAt([a, b], k, i, j) {
      WayIsSplit(a, b, k, i, j);
    }
  }

  /** What two characters give is the number that such a text begins with. */
  lemma ScanIff(a: byte, b: byte, value: uint32)
    ensures Scan(a, b) == Some(value) <==> ReadsAs([a, b], value)
  {
    if IsDigit(a) {
      DigitFirst(a, b, value);
    } else if IsDigit(b) && (IsSpace(a) || a == '+' as byte || a == '-' as byte) {
      DigitSecond(a, b, value);
    } else {
      ReadsNoWay(a, b, value);
    }
  }

  lemma DigitFirst(a: byte, b: byte, value: uint32)
    requires IsDigit(a)
    ensures Scan(a, b) == Some(value) <==> ReadsAs([a, b], value)
  {
    if IsDigit(b) {
      DigitsBoth(a, b, value);
    } else {
      NumberOfOne(a);
      ReadsOneWay(a, b, 0, 0, 1, value);
      assert [a, b][0..1] == [a];
    }
  }

  lemma DigitsBoth(a: byte, b: byte, value: uint32)
    requires IsDigit(a) && IsDigit(b)
    ensures Scan(a, b) == Some(value) <==> ReadsAs([a, b], value)
  {
    NumberOfTwo(a, b);
    ReadsOneWay(a, b, 0, 0, 2, value);
    assert [a, b][0..2] == [a, b];
    Unsigned(ValueOf(a) * 16 + ValueOf(b));
  }

  lemma Unsigned(n: uint32)
    ensures Signed(false, n) == n
  {
  }

  lemma DigitSecond(a: byte, b: byte, value: uint32)
    requires IsDigit(b) && (IsSpace(a) || a == '+' as byte || a == '-' as byte)
    ensures Scan(a, b) == Some(value) <==> ReadsAs([a, b], value)
  {
    NumberOfOne(b);
    ReadsOneWay(a, b, if IsSpace(a) then 1 else 0, 1, 2, value);
    assert [a, b][1..2] == [b];
  }

  lemma WayIsSplit(a: byte, b: byte, k: nat, i: nat, j: nat)
    ensures SplitAt([a, b], k, i, j) <==> Way(a, b, k, i, j)
  {
    var text: Octets := [a, b];
    assert text[0] == a && text[1] == b;
    if SplitAt(text, k, i, j) {
      assert IsDigit(text[i]) && IsDigit(text[j - 1]);
      assert k > 0 ==> IsSpace(text[0]);
    }
  }

  function ScanAt(text: Octets, k: nat): Option<uint32>
    requires 2 * k + 1 < |text|
  {
    Scan(text[2 * k], text[2 * k + 1])
  }

  /** The pair reads as an octet. */
  predicate ReadsAt(text: Octets, k: nat)
    requires 2 * k + 1 < |text|
  {
    ScanAt(text, k).Some? && ScanAt(text, k).value <= 0xff
  }

  /**
   The octets; a null pointer; an assertion that fails; or, where nothing is
   read, the use of a variable that was never set.
   */
  datatype Reading = Read(octets: Octets) | Null | Abort | Unset

  /** Each octet is what its pair reads as. */
  ghost predicate SpeltBy(octets: Octets, text: Octets) {
    && |text| == 2 * |octets|
    && (forall i :: 0 <= i < |octets| ==> ScanAt(text, i) == Some(octets[i]))
  }

  /** The pairs before pair `k` read as octets, and it does not. */
  ghost predicate FirstFault(text: Octets, k: nat) {
    && 2 * k + 1 < |text| && !ReadsAt(text, k)
    && (forall i :: 0 <= i < k ==> ReadsAt(text, i))
  }

  /** One octet for each pair; nothing from a text of odd length; otherwise the first pair that fails decides. */
  method OctetsOf(text: Octets) returns (r: Reading)
    ensures r.Null? <==> |text| % 2 != 0
    ensures r.Read? ==> SpeltBy(r.octets, text)
    ensures r.Abort? ==> exists k :: FirstFault(text, k) && ScanAt(text, k).Some?
    ensures r.Unset? ==> exists k :: FirstFault(text, k) && ScanAt(text, k).None?
  {
    if |text| % 2 != 0 {
      return Null;
    }
    var length := |text| / 2;
    var read: Octets := [];
    var i := 0;
    while i != length
      invariant 0 <= i <= length && |read| == i
      invariant forall k :: 0 <= k < i ==> ScanAt(text, k) == Some(read[k])
    {
      var scanned := Scan(text[2 * i], text[2 * i + 1]);
      if scanned.None? {
        assert FirstFault(text, i);
        return Unset;
      }
      if scanned.value > 0xff {
        assert FirstFault(text, i);
        return Abort;
      }
      read := read + [scanned.value];
      i := i + 1;
    }
    r := Read(read);
  }

  /** A text of hexadecimal digits, two for each octet, is always read. */
  lemma DigitsAreRead(text: Octets, k: nat)
    requires IsHex(text)
    ensures !FirstFault(text, k)
    ensures 2 * k + 1 < |text| ==> ScanAt(text, k) == Some(ValueOf(text[2 * k]) * 16 + ValueOf(text[2 * k + 1]))
  {
  }

  /** The digits, in the order of their values, and the other case that is read. */
  lemma DigitsInOrder(n: nat)
    requires n < 16
    ensures Digit(n) == "0123456789abcdef"[n] as byte
    ensures ValueOf("0123456789abcdef"[n] as byte) == ValueOf("0123456789ABCDEF"[n] as byte) == n
  {
  }

  lemma DigitValue(n: nat)
    requires n < 16
    ensures IsDigit(Digit(n)) && ValueOf(Digit(n)) == n
  {
  }

  /** Reading back what was printed gives the octets, for every octet string. */
  lemma OctetsBack(octets: Octets, text: Octets, back: Octets)
    requires IsHex(text) && Spells(text, octets) && SpeltBy(back, text)
    ensures back == octets && |text| == 2 * |octets|
  {
    forall i | 0 <= i < |octets| ensures back[i] == octets[i] {
      DigitsAreRead(text, i);
      DigitValue(octets[i] / 16);
      DigitValue(octets[i] % 16);
    }
  }

  /** Printing what was read gives the text in lower case exactly if it was all digits. */
  lemma TextBackIff(text: Octets, octets: Octets, back: Octets)
    requires SpeltBy(octets, text) && Spells(back, octets)
    ensures |back| == |text|
    ensures IsHex(text) <==> forall i :: 0 <= i < |text| ==> back[i] == LowerCase(text[i])
  {
    forall i | 0 <= i < |text| ensures IsDigit(back[i]) && (IsHex(text) ==> back[i] == LowerCase(text[i])) {
      var k := i / 2;
      assert i == 2 * k || i == 2 * k + 1;
      DigitValue(octets[k] / 16);
      DigitValue(octets[k] % 16);
      if IsHex(text) {
        DigitsAreRead(text, k);
        assert octets[k] / 16 == ValueOf(text[2 * k]) && octets[k] % 16 == ValueOf(text[2 * k + 1]);
        DigitOfValue(text[i]);
      }
    }
    forall i | 0 <= i < |text| && back[i] == LowerCase(text[i]) ensures IsDigit(text[i]) {
      assert IsDigit(back[i]);
    }
  }

  lemma DigitOfValue(c: byte)
    requires IsDigit(c)
    ensures Digit(ValueOf(c)) == LowerCase(c)
  {
  }

  /** The two loops in turn. */
  method RoundTrip(octets: Octets) returns (back: Reading)
    ensures back == Read(octets)
  {
    var text := TextOf(octets);
    back := OctetsOf(text);
    ghost var k :| back.Read? || FirstFault(text, k);
    DigitsAreRead(text, k);
    OctetsBack(octets, text, back.octets);
  }
}
