/** What the invariant says about a single state: decided commands, promises and logs. */
module ConsensusFacts {
  import opened Ballots
  import opened Legislator
  import opened Consensus

  // ---------------------------------------------------------------- decided commands

  lemma DecidedWasProposed(s: System, d: nat, b: Ballot, c: Command) returns (m: Message)
    requires AcksOk(s, s.acks)
    requires Decided(s, d, b, c)
    ensures m in s.net && m.VoteMsg? && m.vote == Vote(d, b, c) && Choosable(s, d, b, c)
  {
    var q :| DecidedBy(s, q, d, b, c);
    var a :| a in q;
    assert Acked(s, a, d, b, c) && AckOk(s, Ack(a, Vote(d, b, c)));
    m :| m in s.net && m.VoteMsg? && m.vote == Vote(d, b, c);
    assert ChoosableBy(s, q, d, b, c);
  }

  /** A proposal carries whatever is decided for its decree under its ballot or a lower one. */
  lemma DecidedMatches(s: System, b: Ballot, c: Command, m: Message)
    requires AcksOk(s, s.acks) && m in s.net && m.VoteMsg? && MessageOk(s, m)
    requires Decided(s, m.vote.decree, b, c) && AtMost(b, m.vote.ballot)
    ensures c == m.vote.command
  {
    var m0 := DecidedWasProposed(s, m.vote.decree, b, c);
  }

  /** No decree is decided twice with different commands. */
  lemma DecidedUnique(s: System, d: nat, b: Ballot, c: Command, b': Ballot, c': Command)
    requires Inv(s) && Decided(s, d, b, c) && Decided(s, d, b', c')
    ensures c == c'
  {
    hide MessageOk, AckOk, ReplicaOk, ExecutionOk, Decided;
    var m := DecidedWasProposed(s, d, b, c);
    var m' := DecidedWasProposed(s, d, b', c');
    if AtMost(b, b') {
      assert MessageOk(s, m');
      DecidedMatches(s, b, c, m');
    } else {
      assert MessageOk(s, m);
      DecidedMatches(s, b', c', m);
    }
  }

  /** Once the next decree may go ahead under v's ballot, v's command is the decided one. */
  lemma PreviousDecided(s: System, v: Vote)
    requires MessagesOk(s, s.net) && AcksOk(s, s.acks)
    requires VoteOk(s, v) && PrevDecided(s, v.decree + 1, v.ballot)
    ensures Chosen(s, v.decree, v.command)
  {
    assert Settled(s, v.decree, v.ballot);
    var b, c :| Decided(s, v.decree, b, c) && AtMost(b, v.ballot);
    var m := ProposedAs(s, v);
    assert AtMost(b, m.vote.ballot) by { AtMostTrans(b, v.ballot, m.vote.ballot); }
    assert c == v.command by { DecidedMatches(s, b, c, m); }
  }

  lemma ProposedAs(s: System, v: Vote) returns (m: Message)
    requires VoteOk(s, v)
    ensures m in s.net && m.VoteMsg? && m.vote.decree == v.decree && m.vote.command == v.command
      && AtMost(v.ballot, m.vote.ballot)
  {
    m :| m in s.net && m.VoteMsg? && m.vote.decree == v.decree && m.vote.command == v.command
      && AtMost(v.ballot, m.vote.ballot);
  }

  lemma AtMostTrans(a: Ballot, b: Ballot, c: Ballot)
    requires AtMost(a, b) && AtMost(b, c)
    ensures AtMost(a, c)
  {
  }

  // ---------------------------------------------------------------- proposals

  /** Under a ballot r owns, r has accepted everything it ever proposed. */
  lemma OwnProposals(s: System, r: nat, m: Message)
    requires Inv(s) && r in s.replicas && m in s.net && m.VoteMsg? && m.vote.ballot.member == r
    ensures m.from == r && Ack(r, m.vote) in s.acks && AtMost(m.vote.ballot, s.replicas[r].maxBallot)
    ensures m.vote.decree <= s.replicas[r].accepted.decree && Sealed(s, m.vote.decree, m.vote.ballot)
  {
    assert MessageOk(s, m) && IsMember(s.n, r);
    assert AckOk(s, Ack(r, m.vote));
  }

  /** The promises behind a ballot leave only the freshest command they report. */
  ghost predicate PromisedQuorum(s: System, q: set<nat>, b: Ballot, best: Vote) {
    IsQuorum(s.n, q) && forall a <- q :: PromisedFresh(s, a, b, best)
  }

  ghost predicate PromisedFresh(s: System, a: nat, b: Ballot, best: Vote) {
    exists v :: PromisedWith(s, a, b, v) && v.decree <= best.decree
      && (v.decree == best.decree ==> AtMost(v.ballot, best.ballot))
  }

  lemma PromisesSeal(s: System, q: set<nat>, b: Ballot, best: Vote)
    requires PromisedQuorum(s, q, b, best)
    ensures Sealed(s, best.decree, b)
  {
    forall a <- q ensures Promised(s, a, b, best.decree) { assert PromisedFresh(s, a, b, best); }
    assert SealedBy(s, q, best.decree, b);
  }

  /** The first proposal of a new primary: what a majority reported as freshest is safe. */
  lemma FreshestIsSafe(s: System, q: set<nat>, b: Ballot, best: Vote)
    requires Inv(s) && PromisedQuorum(s, q, b, best) && VoteOk(s, best)
    ensures GoodBelow(s, best.decree, b, best.command)
  {
    forall b0: Ballot, c0: Command | Choosable(s, best.decree, b0, c0) && Less(b0, b)
      ensures c0 == best.command
    {
      var q0 :| ChoosableBy(s, q0, best.decree, b0, c0);
      var a := QuorumsMeet(s.n, q, q0);
      AckedIsFresh(s, a, b, best, b0, c0);
    }
  }

  lemma AckedIsFresh(s: System, a: nat, b: Ballot, best: Vote, b0: Ballot, c0: Command)
    requires MessagesOk(s, s.net) && AcksOk(s, s.acks)
    requires PromisedFresh(s, a, b, best) && VoteOk(s, best) && Less(b0, b)
    requires Choosable(s, best.decree, b0, c0)
    requires Acked(s, a, best.decree, b0, c0) || CanAck(s, a, best.decree, b0)
    ensures c0 == best.command
  {
    PromiseCovers(s, a, b, best, b0, c0);
    var m := ProposedAs(s, best);
    var m0 := AckedWasProposed(s, a, Vote(best.decree, b0, c0));
    SafeOrSame(s, m, m0, b0, c0) by { AtMostTrans(b0, best.ballot, m.vote.ballot); }
  }

  lemma PromiseCovers(s: System, a: nat, b: Ballot, best: Vote, b0: Ballot, c0: Command)
    requires PromisedFresh(s, a, b, best) && Less(b0, b)
    requires Acked(s, a, best.decree, b0, c0) || CanAck(s, a, best.decree, b0)
    ensures Acked(s, a, best.decree, b0, c0) && AtMost(b0, best.ballot)
  {
  }

  lemma AckedWasProposed(s: System, a: nat, v: Vote) returns (m: Message)
    requires AcksOk(s, s.acks) && Ack(a, v) in s.acks
    ensures m in s.net && m.VoteMsg? && m.vote == v
  {
    assert AckOk(s, Ack(a, v));
    m :| m in s.net && m.VoteMsg? && m.vote == v;
  }

  lemma SafeOrSame(s: System, m: Message, m0: Message, b0: Ballot, c0: Command)
    requires m in s.net && m.VoteMsg? && MessageOk(s, m) && m0 in s.net && m0.VoteMsg?
    requires m0.vote == Vote(m.vote.decree, b0, c0) && AtMost(b0, m.vote.ballot)
    requires Choosable(s, m.vote.decree, b0, c0)
    ensures c0 == m.vote.command
  {
  }

  /** Later proposals under the same ballot: nothing lower can be chosen above a sealed decree. */
  lemma SealedIsSafe(s: System, d: nat, b: Ballot, d': nat, c: Command)
    requires Sealed(s, d, b) && d < d'
    ensures GoodBelow(s, d', b, c) && Sealed(s, d', b)
  {
    var q :| SealedBy(s, q, d, b);
    forall a <- q ensures Promised(s, a, b, d') { assert Promised(s, a, b, d); }
    assert SealedBy(s, q, d', b);
    forall b0: Ballot, c0: Command | Less(b0, b)
      ensures !Choosable(s, d', b0, c0)
    {
      NotChoosable(s, q, d, b, d', b0, c0);
    }
  }

  lemma NotChoosable(s: System, q: set<nat>, d: nat, b: Ballot, d': nat, b0: Ballot, c0: Command)
    requires SealedBy(s, q, d, b) && d < d' && Less(b0, b)
    ensures !Choosable(s, d', b0, c0)
  {
    if Choosable(s, d', b0, c0) {
      var q0 :| ChoosableBy(s, q0, d', b0, c0);
      var a := QuorumsMeet(s.n, q, q0);
      assert false;
    }
  }

  // ---------------------------------------------------------------- logs

  lemma RestoreAppended(first: nat, log: seq<Record>, rec: Record)
    ensures RestoreState(first, log + [rec]) == RestoreRecord(RestoreState(first, log), rec)
  {
    assert (log + [rec])[..|log|] == log;
  }

  lemma PrepareLogged(s: System, x: Replica, d: nat, b: Ballot)
    requires LogOk(s, x) && d >= x.accepted.decree && AtMost(x.maxBallot, b)
    ensures LogOk(s, LogPrepare(x, d, b))
  {
    RestoreAppended(s.first, x.log, PrepareRecord(d, b));
    if b != x.maxBallot { ReadableAppended(s.first, x.log, PrepareRecord(d, b)); }
  }

  lemma ReadableAppended(first: nat, log: seq<Record>, rec: Record)
    requires AllReadable(first, log) && Readable(RestoreState(first, log), rec)
    ensures AllReadable(first, log + [rec])
  {
    hide Readable, RestoreState;
    var more := log + [rec];
    forall i | 0 <= i < |more| ensures Readable(RestoreState(first, more[..i]), more[i]) {
      assert more[..i] == log[..i];
      if i == |log| { assert log[..i] == log; }
    }
  }

  lemma VotesAppended(s: System, x: Replica, v: Vote)
    requires LogOk(s, x) && VoteOk(s, v) && x.accepted.decree <= v.decree
    ensures forall rec <- x.log + [VoteRecord(v)] ::
      rec.VoteRecord? ==> VoteOk(s, rec.vote) && rec.vote.decree <= v.decree
    ensures Ascending(x.log + [VoteRecord(v)])
  {
  }

  lemma ReplayedMore(s: System, x: Replica)
    requires LogOk(s, x)
    ensures var st := RestoreState(s.first, x.log);
      forall d: nat :: s.first <= d <= st.accepted.decree ==> Replayed(st.passed + {st.accepted}, d)
  {
    var st := RestoreState(s.first, x.log);
    forall d: nat | s.first <= d <= st.accepted.decree ensures Replayed(st.passed + {st.accepted}, d) {
      if d < st.accepted.decree {
        assert Replayed(st.passed, d);
        var v :| v in st.passed && v.decree == d;
        assert v in st.passed + {st.accepted};
      } else {
        assert st.accepted in st.passed + {st.accepted};
      }
    }
  }

  /** What the log gives back. */
  lemma RestoredOk(s: System, x: Replica)
    requires LogOk(s, x)
    ensures var v := RestoreState(s.first, x.log).accepted;
      v.decree == x.accepted.decree && v.ballot == x.accepted.ballot && VoteOk(s, v)
  {
  }

  lemma VoteLogged(s: System, x: Replica, v: Vote)
    requires LogOk(s, x) && VoteOk(s, v) && IsNextDecree(v, x.accepted) && v.ballot != NO_BALLOT
    requires v.decree == x.accepted.decree + 1 ==>
      var a := RestoreState(s.first, x.log).accepted; Chosen(s, a.decree, a.command)
    ensures LogOk(s, LogVote(x, v))
  {
    hide RestoreState, AllReadable, Ascending, VoteOk, Chosen;
    if !IsSameDecree(v.decree, v.ballot, x.accepted.decree, x.accepted.ballot) {
      RestoreAppended(s.first, x.log, VoteRecord(v));
      ReadableAppended(s.first, x.log, VoteRecord(v));
      VotesAppended(s, x, v);
      ReplayedMore(s, x);
    }
  }
}
