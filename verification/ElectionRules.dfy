/**
 The election record of one group at one node, and what the ELECT and LEADER
 branches of the node do to it, as functions on values.  The class `Election`
 holds the same record in fields; the node's handlers are proved to compute
 these functions.

 Identities are of any type `I`, compared by an order `less`; the node uses C
 strings and `strcmp`.
 */
module ElectionRules {
  import opened Basics

  /** Current active wave, father in that wave, ELECT and LEADER counters, leader. */
  datatype Record<I> = Record(caw: Option<I>, father: Option<I>, erec: uint32, lrec: uint32, leader: Option<I>)

  datatype Token<I> = Elect(challenger: I) | Leader(leader: I)

  /** One token sent to each of a set of peers. */
  datatype Cast<I> = Cast(to: set<I>, token: Token<I>)

  type Order<!I> = (I, I) -> bool

  /** `unsigned int` counters wrap around. */
  function Increment(n: uint32): uint32 {
    (n + 1) % 0x1_0000_0000
  }

  function NewRecord<I>(): Record<I> {
    Record(None, None, 0, 0, None)
  }

  function RequireRecord<I>(election: Option<Record<I>>): Record<I> {
    match election
    case None => NewRecord()
    case Some(r) => r
  }

  predicate Superior<I>(less: Order<I>, r: Record<I>, challenger: I) {
    r.caw.None? || less(challenger, r.caw.value)
  }

  /** The record after meeting a challenger: a superior one resets it and becomes the wave. */
  function Supporting<I>(less: Order<I>, r: Record<I>, from: I, challenger: I): Record<I> {
    if Superior(less, r, challenger) then Record(Some(challenger), Some(from), 0, 0, None) else r
  }

  /** A node that starts contesting drops any record it has and takes its own id as wave. */
  function Started<I>(self: I): Record<I> {
    Record(Some(self), None, 0, 0, None)
  }

  function FatherOf<I>(r: Record<I>): set<I> {
    if r.father.Some? then {r.father.value} else {}
  }

  datatype ElectOut<I> = ElectOut(record: Record<I>, casts: seq<Cast<I>>)

  /** Node `self`, in a group listing `members`, receives ELECT(`challenger`) from peer `from`. */
  function OnElect<I(==)>(less: Order<I>, self: I, members: set<I>, election: Option<Record<I>>, from: I, challenger: I): ElectOut<I> {
    var r := RequireRecord(election);
    var joined := Supporting(less, r, from, challenger);
    var forward := if Superior(less, r, challenger) then [Cast(members - {from}, Elect(challenger))] else [];
    if joined.caw != Some(challenger) then
      ElectOut(joined, forward)
    else
      var counted := joined.(erec := Increment(joined.erec));
      if counted.erec != |members| then
        ElectOut(counted, forward)
      else if challenger == self then
        ElectOut(counted, forward + [Cast(members, Leader(challenger))])
      else
        ElectOut(counted, forward + [Cast(FatherOf(counted), Elect(challenger))])
  }

  /** The record left, if any; the tokens to send; the leader to announce, if the election closed. */
  datatype LeaderOut<I> = LeaderOut(election: Option<Record<I>>, casts: seq<Cast<I>>, verdict: Option<I>)

  /** Node `self`, in a group listing `members`, receives LEADER(`leader`). */
  function OnLeader<I(==)>(self: I, members: set<I>, election: Option<Record<I>>, leader: I): LeaderOut<I> {
    var r := RequireRecord(election);
    if r.caw.None? then
      LeaderOut(Some(r), [], None)
    else
      var casts := if self != leader && r.lrec == 0 then [Cast(members, Leader(r.caw.value))] else [];
      var counted := r.(lrec := Increment(r.lrec), leader := Some(leader));
      if counted.lrec == |members| then
        LeaderOut(None, casts, Some(leader))
      else
        LeaderOut(Some(counted), casts, None)
  }
}
