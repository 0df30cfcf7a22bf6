/** Stock types shared by every module. */
module Basics {
  datatype Option<+T> = None | Some(value: T)

  type byte = x: int | 0 <= x < 0x100
  type uint16 = x: int | 0 <= x < 0x1_0000
  type uint32 = x: int | 0 <= x < 0x1_0000_0000

  /** The octets of a C string, without its terminating zero. */
  type Octets = seq<byte>

  function Min(a: nat, b: nat): nat {
    if a < b then a else b
  }
}

/** The order that `strcmp` puts on C strings. */
module CStrings {
  import opened Basics

  /** `strcmp (a, b) < 0`; the terminating zero sorts before every other octet. */
  predicate StrLess(a: Octets, b: Octets) {
    if b == [] then false
    else if a == [] then true
    else if a[0] != b[0] then a[0] < b[0]
    else StrLess(a[1..], b[1..])
  }

  /** The strings agree on their first `k` octets, where `a` ends or goes on with a lower octet than `b`. */
  predicate PartsAt(a: Octets, b: Octets, k: nat) {
    k <= |a| && k < |b| && a[..k] == b[..k] && (k == |a| || a[k] < b[k])
  }

  /** `a` comes before `b` in a dictionary whose letters are octets. */
  ghost predicate Precedes(a: Octets, b: Octets) {
    exists k :: PartsAt(a, b, k)
  }

  /** The comparison octet by octet decides just that. */
  lemma {:induction false} StrLessIff(a: Octets, b: Octets)
    ensures StrLess(a, b) <==> Precedes(a, b)
  {
    if a == [] || b == [] || a[0] != b[0] {
      if StrLess(a, b) {
        assert PartsAt(a, b, 0);
      }
      if k: nat :| PartsAt(a, b, k) {
        PartsFrom(a, b, k);
      }
    } else {
      StrLessIff(a[1..], b[1..]);
      if k: nat :| PartsAt(a[1..], b[1..], k) {
        PartsLater(a, b, k);
      }
      if k: nat :| PartsAt(a, b, k) {
        assert k > 0;
        PartsLater(a, b, k - 1);
      }
    }
  }

  lemma PartsFrom(a: Octets, b: Octets, k: nat)
    requires PartsAt(a, b, k)
    ensures k > 0 ==> a != [] && b != [] && a[0] == b[0]
  {
    if k > 0 {
      assert a[..k][0] == a[0] && b[..k][0] == b[0];
    }
  }

  lemma PartsLater(a: Octets, b: Octets, k: nat)
    requires a != [] && b != [] && a[0] == b[0]
    ensures PartsAt(a, b, k + 1) <==> PartsAt(a[1..], b[1..], k)
  {
    if k < |a| && k < |b| {
      assert a[..k + 1] == [a[0]] + a[1..][..k] && b[..k + 1] == [b[0]] + b[1..][..k];
      assert a[..k + 1][1..] == a[1..][..k] && b[..k + 1][1..] == b[1..][..k];
    }
  }

  lemma {:induction false} StrLessIrreflexive(a: Octets)
    ensures !StrLess(a, a)
  {
    if a != [] {
      StrLessIrreflexive(a[1..]);
    }
  }

  lemma {:induction false} StrLessTransitive(a: Octets, b: Octets, c: Octets)
    requires StrLess(a, b) && StrLess(b, c)
    ensures StrLess(a, c)
  {
    if a != [] && a[0] == b[0] == c[0] {
      StrLessTransitive(a[1..], b[1..], c[1..]);
    }
  }

  lemma {:induction false} StrLessTotal(a: Octets, b: Octets)
    requires a != b
    ensures StrLess(a, b) || StrLess(b, a)
  {
    if a != [] && b != [] && a[0] == b[0] {
      assert a == [a[0]] + a[1..] && b == [b[0]] + b[1..];
      StrLessTotal(a[1..], b[1..]);
    }
  }

  ghost predicate RanksAgree(rank: map<Octets, int>, a: Octets, b: Octets) {
    a in rank && b in rank ==>
      && (Precedes(a, b) <==> rank[a] < rank[b])
      && (rank[a] == rank[b] ==> a == b)
  }

  /** A numbering of `ids` in the order of a dictionary. */
  ghost predicate Ranks(ids: set<Octets>, rank: map<Octets, int>) {
    && rank.Keys == ids
    && (forall a, b :: RanksAgree(rank, a, b))
  }

  ghost function Below(ids: set<Octets>, x: Octets): set<Octets> {
    set y | y in ids && StrLess(y, x)
  }

  /** Every finite set of strings can be so numbered, by counting the smaller ones. */
  lemma RanksExist(ids: set<Octets>) returns (rank: map<Octets, int>)
    ensures Ranks(ids, rank)
  {
    rank := map x | x in ids :: |Below(ids, x)|;
    forall a, b | a in ids && b in ids && StrLess(a, b)
      ensures rank[a] < rank[b]
    {
      forall y | y in Below(ids, a) ensures y in Below(ids, b) {
        StrLessTransitive(y, a, b);
      }
      StrLessIrreflexive(a);
      assert a in Below(ids, b) && a !in Below(ids, a);
      ProperSubsetIsSmaller(Below(ids, a), Below(ids, b));
    }
    forall a, b | a in ids && b in ids && a != b
      ensures rank[a] != rank[b] && (!StrLess(a, b) ==> rank[b] < rank[a])
    {
      StrLessTotal(a, b);
    }
    forall a, b ensures RanksAgree(rank, a, b) {
      StrLessIrreflexive(a);
      StrLessIff(a, b);
    }
  }

  lemma ProperSubsetIsSmaller<T>(a: set<T>, b: set<T>)
    requires a < b
    ensures |a| < |b|
  {
    assert b == a + (b - a);
    assert b - a != {};
  }
}
