/** Becoming primary, proposing and counting votes keep the invariant. */
module ConsensusPrimary {
  import opened Basics
  import opened Ballots
  import opened Legislator
  import opened Consensus
  import opened ConsensusProof
  import opened ConsensusFacts
  import opened ConsensusSteps

  predicate CoreSame(x: Replica, y: Replica) {
    y.accepted == x.accepted && y.maxBallot == x.maxBallot && y.log == x.log && y.stale == x.stale
  }

  // ---------------------------------------------------------------- proposing

  function NextVote(z: Replica, c: Command): Vote {
    Vote(if z.maxBallot == z.accepted.ballot then z.accepted.decree + 1 else z.accepted.decree, z.maxBallot, c)
  }

  /** What a proposal needs: nothing else is choosable below its ballot, and it is the first of its
      decree and ballot. */
  ghost predicate Safe(s: System, v: Vote) {
    && GoodBelow(s, v.decree, v.ballot, v.command) && PrevDecided(s, v.decree, v.ballot)
       && Sealed(s, v.decree, v.ballot)
    && (forall m <- s.net :: m.VoteMsg? ==> m.vote.decree != v.decree || m.vote.ballot != v.ballot)
  }

  lemma ProposalSound(s: System, r: nat, z: Replica, c: Command)
    requires Inv(s) && r in s.replicas && CoreSame(s.replicas[r], z)
    requires z.mode == StablePrimary && z.learning.Idle? && z.outstanding.None? && z.maxBallot.member == r
    requires Safe(s, NextVote(z, c))
    ensures Sound(s, r, SendNextVote(s.n, r, z, c))
  {
    hide MessageOk, AckOk, ReplicaOk, ExecutionOk, VoteOk, LogOk, Safe;
    var v := NextVote(z, c);
    var e := SendNextVote(s.n, r, z, c);
    var s' := Apply(s, r, e);
    Standing(s, r);
    SameCore(s, s.replicas[r], z);
    assert FreshVote(s, r, VoteMsg(r, v)) by { NotYetProposed(s, r, v); }
    Evolved(s, r, e);
    ProposalSent(s, r, s', v);
    ProposerCore(s, r, s', z, v);
    SameCore(s', LogVote(z, v), e.replica);
    if s.n == 1 { AloneDecides(s', r, v); }
    ProposerReplica(s', r);
  }

  lemma NotYetProposed(s: System, r: nat, v: Vote)
    requires Safe(s, v) && v.ballot.member == r
    ensures FreshVote(s, r, VoteMsg(r, v))
  {
  }

  lemma ProposalSent(s: System, r: nat, s': System, v: Vote)
    requires WellFormed(s) && Evolves(s, r, s') && Safe(s, v) && v.ballot.member == r && Ack(r, v) in s'.acks
    requires s'.net == s.net + {VoteMsg(r, v)}
    requires s'.replicas[r].accepted == v && s'.replicas[r].maxBallot == v.ballot
    ensures MessagesOk(s', {VoteMsg(r, v)}) && AcksOk(s', {Ack(r, v)}) && VoteOk(s', v)
  {
    GoodBelowStable(s, r, s', v.decree, v.ballot, v.command);
    PrevDecidedStable(s, r, s', v.decree, v.ballot);
    SealedStable(s, r, s', v.decree, v.ballot);
    assert VoteMsg(r, v) in s'.net;
  }

  lemma ProposerCore(s: System, r: nat, s': System, z: Replica, v: Vote)
    requires MessagesOk(s, s.net) && AcksOk(s, s.acks) && Evolves(s, r, s') && CoreOk(s, z)
    requires VoteOk(s', v) && Safe(s, v) && IsNextDecree(v, z.accepted) && v.ballot != NO_BALLOT
    ensures CoreOk(s', LogVote(z, v))
  {
    hide MessageOk, AckOk, LogOk, VoteOk, PrevDecided, RestoreState;
    CoreStable(s, r, s', z, z);
    if v.decree == z.accepted.decree + 1 {
      var a := RestoreState(s.first, z.log).accepted;
      RestoredOk(s, z);
      PreviousDecided(s, a);
      ChosenStable(s, r, s', a.decree, a.command);
    }
    VoteLogged(s', z, v);
  }

  lemma AloneDecides(s: System, r: nat, v: Vote)
    requires WellFormed(s) && s.n == 1 && r in s.replicas && Ack(r, v) in s.acks
    ensures Decided(s, v.decree, v.ballot, v.command) && ExecutionsOk(s, {Execution(r, v.decree, v.command)})
  {
    assert Acked(s, r, v.decree, v.ballot, v.command);
    assert DecidedBy(s, {r}, v.decree, v.ballot, v.command);
    assert Decided(s, v.decree, v.ballot, v.command);
  }

  lemma ProposerReplica(s: System, r: nat)
    requires r in s.replicas && CoreOk(s, s.replicas[r]) && s.replicas[r].mode == StablePrimary
    requires var x := s.replicas[r];
      && x.learning.Idle? && x.maxBallot.member == r && x.accepted.ballot == x.maxBallot
      && VoteMsg(r, x.accepted) in s.net && x.responses == {}
      && (x.outstanding == Some(x.accepted)
          || (x.outstanding.None? && Decided(s, x.accepted.decree, x.accepted.ballot, x.accepted.command)))
    ensures ReplicasOk(s, {r})
  {
  }

  /** The next decree of a standing primary. */
  lemma ProposeSound(s: System, r: nat, c: Command)
    requires Inv(s) && r in s.replicas && s.replicas[r].mode == StablePrimary && s.replicas[r].outstanding.None?
    ensures Sound(s, r, SendNextVote(s.n, r, s.replicas[r], c))
  {
    PrimaryFacts(s, r);
    NextIsSafe(s, r, c);
    ProposalSound(s, r, s.replicas[r], c) by { hide *; }
  }

  lemma PrimaryFacts(s: System, r: nat)
    requires ReplicasOk(s, s.replicas.Keys) && r in s.replicas && s.replicas[r].mode == StablePrimary
    ensures PrimaryOk(s, r, s.replicas[r])
  {
    assert ReplicaOk(s, r);
  }

  lemma NextIsSafe(s: System, r: nat, c: Command)
    requires Inv(s) && r in s.replicas && PrimaryOk(s, r, s.replicas[r]) && s.replicas[r].outstanding.None?
    ensures Safe(s, NextVote(s.replicas[r], c))
  {
    hide MessageOk, AckOk, ReplicaOk, ExecutionOk;
    var x := s.replicas[r];
    OwnProposals(s, r, VoteMsg(r, x.accepted));
    SealedIsSafe(s, x.accepted.decree, x.maxBallot, x.accepted.decree + 1, c);
    assert Settled(s, x.accepted.decree, x.maxBallot);
    FirstDecree(s, VoteMsg(r, x.accepted));
    forall m <- s.net | m.VoteMsg? && m.vote.ballot == x.maxBallot ensures m.vote.decree != x.accepted.decree + 1 {
      OwnProposals(s, r, m);
    }
  }

  lemma FirstDecree(s: System, m: Message)
    requires MessagesOk(s, s.net) && m in s.net && m.VoteMsg?
    ensures m.vote.decree >= s.first
  {
    assert MessageOk(s, m);
  }

  // ---------------------------------------------------------------- preparing

  /** A new ballot: nobody has proposed under it, and the candidate's own promise goes with it. */
  lemma NewBallotSound(s: System, r: nat, seen: Ballot, sent: set<Message>)
    requires Inv(s) && r in s.replicas && s.replicas[r].learning.Idle?
    requires var y := LogNewBallot(r, s.replicas[r], seen);
      sent == {} || sent == {PrepareMsg(r, y.prepDecree, y.prepBallot)}
    ensures Sound(s, r, Effect(LogNewBallot(r, s.replicas[r], seen), sent, {}, {}))
  {
    hide MessageOk, AckOk, ReplicaOk, ExecutionOk, VoteOk, LogOk;
    var x := s.replicas[r];
    var y := LogNewBallot(r, x, seen);
    var e := Effect(y, sent, {}, {});
    var s' := Apply(s, r, e);
    Standing(s, r);
    CorePrepared(s, x, x.accepted.decree, y.prepBallot);
    SameCore(s, LogPrepare(x, x.accepted.decree, y.prepBallot), y);
    Evolved(s, r, e);
    CoreStable(s, r, s', y, y);
    PreparesSent(s', r, sent);
    NewBallotOk(s, r, seen);
    CandidateReplica(s, r, s');
  }

  lemma PreparesSent(s: System, r: nat, sent: set<Message>)
    requires r in s.replicas
    requires forall m <- sent ::
      m.PrepareMsg? && m.from == r && m.ballot.member == r && m.decree == s.replicas[r].accepted.decree
    ensures MessagesOk(s, sent)
  {
  }

  lemma NewBallotOk(s: System, r: nat, seen: Ballot)
    requires Inv(s) && r in s.replicas
    ensures forall m <- s.net :: m.VoteMsg? ==> m.vote.ballot != NextBallot(s.replicas[r].maxBallot, seen, r)
    ensures forall m <- s.net :: m.PrepareMsg? && m.from == r ==> m.decree <= s.replicas[r].accepted.decree
    ensures forall k <- s.acks :: k.replica == r ==> UpTo(k.vote, s.replicas[r].accepted)
  {
    hide ReplicaOk, ExecutionOk;
    forall m <- s.net | m.VoteMsg? ensures m.vote.ballot != NextBallot(s.replicas[r].maxBallot, seen, r) {
      if m.vote.ballot.member == r { OwnProposals(s, r, m); }
    }
    forall m <- s.net | m.PrepareMsg? && m.from == r ensures m.decree <= s.replicas[r].accepted.decree {
      assert MessageOk(s, m);
    }
    forall k <- s.acks | k.replica == r
      ensures UpTo(k.vote, s.replicas[r].accepted)
    {
      assert AckOk(s, k);
    }
  }

  lemma CandidateReplica(s: System, r: nat, s': System)
    requires Evolves(s, r, s') && s'.acks == s.acks
    requires var x, y := s.replicas[r], s'.replicas[r];
      && CoreOk(s', y) && y.learning.Idle? && y.mode == Preparing && y.responses == {}
         && y.freshest == y.accepted == x.accepted
      && y.prepDecree == x.accepted.decree && y.prepBallot == y.maxBallot && y.prepBallot.member == r
      && (forall m <- s.net :: m.VoteMsg? ==> m.vote.ballot != y.prepBallot)
      && (forall m <- s.net :: m.PrepareMsg? && m.from == r ==> m.decree <= x.accepted.decree)
      && (forall m <- s'.net :: m in s.net || (m.PrepareMsg? && m.decree == x.accepted.decree))
      && (forall k <- s.acks :: k.replica == r ==> UpTo(k.vote, x.accepted))
    ensures ReplicasOk(s', {r})
  {
    assert PreparingOk(s', r, s'.replicas[r]);
  }

  // ---------------------------------------------------------------- becoming primary

  /** The promises counted by a candidate form a quorum for its freshest vote. */
  lemma PromisesCounted(s: System, r: nat, y: Replica) returns (q: set<nat>)
    requires WellFormed(s) && r in s.replicas && MessagesOk(s, s.net) && PreparingOk(s, r, y)
    requires |y.responses| >= QuorumSize(s.n) - 1
    ensures PromisedQuorum(s, q, y.prepBallot, y.freshest)
  {
    hide MessageOk;
    q := y.responses + {r};
    forall a <- y.responses
      ensures a in s.replicas && PromisedFresh(s, a, y.prepBallot, y.freshest)
    {
      PromiseOf(s, r, y, a);
    }
    assert PromisedFresh(s, r, y.prepBallot, y.freshest);
    assert y.responses !! {r};
  }

  lemma PromiseOf(s: System, r: nat, y: Replica, a: nat)
    requires MessagesOk(s, s.net) && PreparingOk(s, r, y) && a in y.responses
    ensures a in s.replicas && PromisedFresh(s, a, y.prepBallot, y.freshest)
  {
    hide VoteOk, GoodBelow, PrevDecided, Sealed, Acked;
    assert Answered(s, a, r, y);
    var m :| m in s.net && m.PrepareAccepted? && m.from == a && m.to == r && m.decree == y.prepDecree
      && m.ballot == y.prepBallot && (m.vote.decree < m.decree || AtMost(m.vote.ballot, y.freshest.ballot));
    assert MessageOk(s, m);
    assert PromisedWith(s, a, y.prepBallot, m.vote);
  }

  lemma PrimarySound(s: System, r: nat, y: Replica)
    requires Inv(s) && r in s.replicas && CoreSame(s.replicas[r], y) && y.learning.Idle? && PreparingOk(s, r, y)
    requires y.accepted.decree == y.prepDecree && y.maxBallot == y.prepBallot && |y.responses| >= QuorumSize(s.n) - 1
    ensures Sound(s, r, StartBeingStablePrimary(s.n, r, y))
  {
    hide MessageOk, AckOk, ReplicaOk, ExecutionOk, Sound;
    var q := PromisesCounted(s, r, y);
    FreshestIsSafe(s, q, y.prepBallot, y.freshest);
    PromisesSeal(s, q, y.prepBallot, y.freshest);
    Standing(s, r);
    FirstIsSafe(s, r, y);
    ProposalSound(s, r, y.(mode := StablePrimary, outstanding := None, responses := {}), y.freshest.command);
  }

  lemma FirstIsSafe(s: System, r: nat, y: Replica)
    requires PreparingOk(s, r, y) && CoreOk(s, y) && y.accepted.decree == y.prepDecree && y.maxBallot == y.prepBallot
    requires GoodBelow(s, y.prepDecree, y.prepBallot, y.freshest.command) && Sealed(s, y.prepDecree, y.prepBallot)
    ensures Safe(s, NextVote(y, y.freshest.command))
  {
    var m :| m in s.net && m.VoteMsg? && m.vote.ballot == y.accepted.ballot;
    assert PrevDecided(s, y.accepted.decree,
      y.maxBallot) by { PrevDecidedUp(s, y.accepted.decree, y.accepted.ballot, y.maxBallot); }
  }

  lemma PrevDecidedUp(s: System, d: nat, b: Ballot, b': Ballot)
    requires PrevDecided(s, d, b) && AtMost(b, b')
    ensures PrevDecided(s, d, b')
  {
    if d > s.first {
      var b0, c0 :| Decided(s, d - 1, b0, c0) && AtMost(b0, b);
      AtMostTrans(b0, b, b');
      assert Settled(s, d - 1, b');
    }
  }

  lemma PrepareAcceptedSound(s: System, r: nat, m: Message)
    requires Inv(s) && m.PrepareAccepted? && Deliverable(s, r, m) && r in s.replicas && s.replicas[r].learning.Idle?
    ensures Sound(s, r, HandlePrepareAcceptedMsg(s.n, r, s.replicas[r], m))
  {
    hide MessageOk, AckOk, ReplicaOk, ExecutionOk, Sound;
    var x := s.replicas[r];
    if x.mode == Preparing && IsSameDecree(m.decree, m.ballot, x.accepted.decree, x.maxBallot)
       && !(m.vote.decree > m.decree || Less(m.ballot, m.vote.ballot)) {
      var y := Counted(x, m);
      PromiseCounted(s, r, m);
      if |y.responses| >= QuorumSize(s.n) - 1 {
        PrimarySound(s, r, y);
      } else {
        CountingSound(s, r, y);
      }
    } else {
      NothingStep(s, r, {});
    }
  }

  function Counted(x: Replica, m: Message): Replica
    requires m.PrepareAccepted?
  {
    x.(freshest := if m.vote.decree == x.freshest.decree
      && Less(x.freshest.ballot, m.vote.ballot) then m.vote else x.freshest,
       responses := x.responses + {m.from})
  }

  /** A promise that is counted answers the current prepare message, and its vote has the decree the
      candidate is preparing or an older one. */
  lemma PromiseCounted(s: System, r: nat, m: Message)
    requires MessagesOk(s, s.net) && ReplicasOk(s, s.replicas.Keys) && r in s.replicas
    requires m.PrepareAccepted? && Deliverable(s, r, m) && s.replicas[r].mode == Preparing
      && s.replicas[r].learning.Idle?
    requires IsSameDecree(m.decree, m.ballot, s.replicas[r].accepted.decree, s.replicas[r].maxBallot)
    ensures var x := s.replicas[r]; x.prepDecree == m.decree && x.prepBallot == m.ballot
    ensures PreparingOk(s, r, Counted(s.replicas[r], m))
  {
    hide MessageOk;
    assert ReplicaOk(s, r);
    MatchesPrepare(s, r, s.replicas[r], m);
    CountedOk(s, r, s.replicas[r], m);
  }

  lemma MatchesPrepare(s: System, r: nat, x: Replica, m: Message)
    requires MessagesOk(s, s.net) && m in s.net && m.PrepareAccepted? && m.to == r && PreparingOk(s, r, x)
    requires IsSameDecree(m.decree, m.ballot, x.accepted.decree, x.maxBallot)
    ensures x.prepDecree == m.decree && x.prepBallot == m.ballot && m.vote.decree <= m.decree
    ensures VoteOk(s, m.vote)
  {
    assert MessageOk(s, m);
    assert MessageOk(s, PrepareMsg(r, m.decree, m.ballot));
  }

  lemma CountedOk(s: System, r: nat, x: Replica, m: Message)
    requires PreparingOk(s, r, x) && m in s.net && m.PrepareAccepted? && m.from != r && m.to == r
    requires x.prepDecree == m.decree && x.prepBallot == m.ballot && m.vote.decree <= m.decree && VoteOk(s, m.vote)
    ensures PreparingOk(s, r, Counted(x, m))
  {
    hide VoteOk;
    var y := Counted(x, m);
    forall a <- y.responses ensures a != r && Answered(s, a, r, y) {
      if a in x.responses { AnsweredUp(s, a, r, x, y); }
    }
    PromisedUp(s, r, x.prepBallot, x.freshest, y.freshest);
  }

  lemma PromisedUp(s: System, a: nat, b: Ballot, v: Vote, w: Vote)
    requires PromisedWith(s, a, b, v) && UpTo(v, w)
    ensures PromisedWith(s, a, b, w)
  {
  }

  lemma AnsweredUp(s: System, a: nat, r: nat, x: Replica, y: Replica)
    requires Answered(s, a, r, x) && y.prepDecree == x.prepDecree && y.prepBallot == x.prepBallot
    requires AtMost(x.freshest.ballot, y.freshest.ballot)
    ensures Answered(s, a, r, y)
  {
    var m :| m in s.net && m.PrepareAccepted? && m.from == a && m.to == r && m.decree == x.prepDecree
      && m.ballot == x.prepBallot && (m.vote.decree < m.decree || AtMost(m.vote.ballot, x.freshest.ballot));
    if m.vote.decree >= m.decree { AtMostTrans(m.vote.ballot, x.freshest.ballot, y.freshest.ballot); }
  }

  lemma CountingSound(s: System, r: nat, y: Replica)
    requires Inv(s) && r in s.replicas && CoreSame(s.replicas[r], y) && y.learning.Idle? && y.mode == Preparing
      && PreparingOk(s, r, y)
    ensures Sound(s, r, Effect(y, {}, {}, {}))
  {
    hide MessageOk, AckOk, ReplicaOk, ExecutionOk;
    var e := Effect(y, {}, {}, {});
    var s' := Apply(s, r, e);
    Standing(s, r);
    Evolved(s, r, e);
    StillCounting(s, r, s');
  }

  lemma StillCounting(s: System, r: nat, s': System)
    requires Evolves(s, r, s') && s'.net == s.net && s'.acks == s.acks && CoreOk(s, s.replicas[r])
    requires var y := s'.replicas[r];
      CoreSame(s.replicas[r], y) && y.learning.Idle? && y.mode == Preparing && PreparingOk(s, r, y)
    ensures ReplicasOk(s', {r})
  {
    CoreStable(s, r, s', s.replicas[r], s'.replicas[r]);
    PreparingKept(s, r, s', s'.replicas[r]);
  }
}
