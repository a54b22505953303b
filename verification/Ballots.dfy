/** Ballot numbers and quorums of the replicated state library (message.cpp, legislator.cpp). */
module Ballots {

  /** BallotNumber: the ballot id decides, the member id breaks ties.  Members are numbered from 1
      in the order of their identifiers; member 0 stands for the empty identifier. */
  datatype Ballot = Ballot(id: nat, member: nat)

  /** The default-constructed BallotNumber. */
  const NO_BALLOT := Ballot(0, 0)

  predicate Less(a: Ballot, b: Ballot) {
    if a.id == b.id then a.member < b.member else a.id < b.id
  }

  predicate AtMost(a: Ballot, b: Ballot) {
    a == b || Less(a, b)
  }

  function MaxBallot(a: Ballot, b: Ballot): Ballot {
    if Less(a, b) then b else a
  }

  /** The ballot StartPreparing picks: one above the highest ballot logged, or one above the highest
      ballot seen on the wire when that is larger. */
  function NextBallot(logged: Ballot, seen: Ballot, self: nat): (b: Ballot)
    ensures b.member == self && Less(logged, b) && !Less(b, seen)
  {
    var own := Ballot(logged.id + 1, self);
    if Less(own, seen) then Ballot(seen.id + 1, self) else own
  }

  predicate IsMember(n: nat, i: nat) {
    1 <= i <= n
  }

  function Members(n: nat): set<nat> {
    set i: nat | i <= n && IsMember(n, i)
  }

  /** Legislator::QuorumSize, with the caller included in n. */
  function QuorumSize(n: nat): nat {
    n / 2 + 1
  }

  predicate IsQuorum(n: nat, q: set<nat>) {
    q <= Members(n) && |q| >= QuorumSize(n)
  }

  lemma {:induction false} MembersCount(n: nat)
    ensures |Members(n)| == n
  {
    if n > 0 {
      MembersCount(n - 1);
      assert Members(n) == Members(n - 1) + {n};
    } else {
      assert Members(0) == {};
    }
  }

  lemma SubsetCount(a: set<nat>, b: set<nat>)
    requires a <= b
    ensures |a| <= |b|
  {
    assert b == a + (b - a);
  }

  /** Any two quorums share a member. */
  lemma QuorumsMeet(n: nat, p: set<nat>, q: set<nat>) returns (a: nat)
    requires IsQuorum(n, p) && IsQuorum(n, q)
    ensures a in p && a in q
  {
    if p * q == {} {
      assert |p + q| == |p| + |q|;
      MembersCount(n);
      SubsetCount(p + q, Members(n));
      assert false;
    }
    a :| a in p * q;
  }
}
