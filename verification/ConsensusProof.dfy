/** Agreement: the invariant of Consensus holds in every state of every run. */
module ConsensusProof {
  import opened Basics
  import opened Ballots
  import opened Legislator
  import opened Consensus

  /** What every step of replica r keeps. */
  ghost predicate Evolves(s: System, r: nat, s': System) {
    && r in s.replicas && s'.n == s.n && s'.first == s.first && s'.replicas.Keys == s.replicas.Keys
    && s.net <= s'.net && s.acks <= s'.acks
    && (forall q <- s.replicas :: q != r ==> s'.replicas[q] == s.replicas[q])
    && AtMost(s.replicas[r].maxBallot, s'.replicas[r].maxBallot)
    && s.replicas[r].accepted.decree <= s'.replicas[r].accepted.decree
    && (s.replicas[r].accepted.decree == s'.replicas[r].accepted.decree ==>
          AtMost(s.replicas[r].accepted.ballot, s'.replicas[r].accepted.ballot))
    && s.replicas[r].log <= s'.replicas[r].log
    && (forall k <- s'.acks :: k in s.acks ||
          (k.replica == r && AtMost(s.replicas[r].maxBallot, k.vote.ballot)
            && s.replicas[r].accepted.decree <= k.vote.decree))
    && (forall m <- s'.net :: m.VoteMsg? ==> m in s.net || FreshVote(s, r, m))
    && (forall m <- s'.net :: m.PrepareMsg? ==> m in s.net || m.from == r)
  }

  ghost predicate FreshVote(s: System, r: nat, m: Message)
    requires m.VoteMsg?
  {
    m.from == r && m.vote.ballot.member == r
    && forall m0 <- s.net :: m0.VoteMsg? ==> m0.vote.decree != m.vote.decree || m0.vote.ballot != m.vote.ballot
  }

  // ---------------------------------------------------------------- facts that last

  lemma DecidedStable(s: System, r: nat, s': System, d: nat, b: Ballot, c: Command)
    requires Evolves(s, r, s') && Decided(s, d, b, c)
    ensures Decided(s', d, b, c)
  {
    var q :| DecidedBy(s, q, d, b, c);
    assert DecidedBy(s', q, d, b, c);
  }

  lemma ChosenStable(s: System, r: nat, s': System, d: nat, c: Command)
    requires Evolves(s, r, s') && Chosen(s, d, c)
    ensures Chosen(s', d, c)
  {
    var b: Ballot :| Decided(s, d, b, c);
    DecidedStable(s, r, s', d, b, c);
  }

  lemma PrevDecidedStable(s: System, r: nat, s': System, d: nat, b: Ballot)
    requires Evolves(s, r, s') && PrevDecided(s, d, b)
    ensures PrevDecided(s', d, b)
  {
    if d > s.first {
      var b0, c0 :| Decided(s, d - 1, b0, c0) && AtMost(b0, b);
      DecidedStable(s, r, s', d - 1, b0, c0);
    }
  }

  lemma GoodBelowStable(s: System, r: nat, s': System, d: nat, b: Ballot, c: Command)
    requires Evolves(s, r, s') && GoodBelow(s, d, b, c)
    ensures GoodBelow(s', d, b, c)
  {
    forall b0: Ballot, c0: Command | Choosable(s', d, b0, c0) && Less(b0, b)
      ensures c0 == c
    {
      var q :| ChoosableBy(s', q, d, b0, c0);
      assert ChoosableBy(s, q, d, b0, c0);
      assert Choosable(s, d, b0, c0);
    }
  }

  lemma SealedStable(s: System, r: nat, s': System, d: nat, b: Ballot)
    requires Evolves(s, r, s') && Sealed(s, d, b)
    ensures Sealed(s', d, b)
  {
    var q :| SealedBy(s, q, d, b);
    forall a <- q ensures Promised(s', a, b, d) { assert Promised(s, a, b, d); }
    assert SealedBy(s', q, d, b);
  }

  lemma VoteOkStable(s: System, r: nat, s': System, v: Vote)
    requires Evolves(s, r, s') && VoteOk(s, v)
    ensures VoteOk(s', v)
  {
    PrevDecidedStable(s, r, s', v.decree, v.ballot);
  }

  lemma VoteMsgStable(s: System, r: nat, s': System, m: Message)
    requires Evolves(s, r, s') && m in s.net && m.VoteMsg? && MessageOk(s, m)
    ensures MessageOk(s', m)
  {
    var v := m.vote;
    GoodBelowStable(s, r, s', v.decree, v.ballot, v.command);
    PrevDecidedStable(s, r, s', v.decree, v.ballot);
    if m != VoteMsg(0, InitialVote(s.first)) { SealedStable(s, r, s', v.decree, v.ballot); }
    forall m' <- s'.net | m'.VoteMsg? && m'.vote.decree == v.decree && m'.vote.ballot == v.ballot
      ensures m' == m
    {
      assert m' in s.net;
    }
  }

  lemma MessageOkStable(s: System, r: nat, s': System, m: Message)
    requires Evolves(s, r, s') && m in s.net && MessageOk(s, m)
    ensures MessageOk(s', m)
  {
    match m
    case VoteMsg(p, v) => VoteMsgStable(s, r, s', m);
    case VoteAccepted(a, to, d, b) =>
      var c: Command :| Acked(s, a, d, b, c);
      assert Acked(s', a, d, b, c);
    case PrepareMsg(p, d, b) =>
    case PrepareAccepted(a, p, d, b, v) => VoteOkStable(s, r, s', v);
    case NotAccepted(_, _, _, _) =>
  }

  lemma AckOkStable(s: System, r: nat, s': System, k: Ack)
    requires Evolves(s, r, s') && AckOk(s, k)
    ensures AckOk(s', k)
  {
  }

  lemma ExecutionOkStable(s: System, r: nat, s': System, x: Execution)
    requires Evolves(s, r, s') && ExecutionOk(s, x)
    ensures ExecutionOk(s', x)
  {
    ChosenStable(s, r, s', x.decree, x.command);
  }

  lemma LogOkStable(s: System, r: nat, s': System, x: Replica)
    requires Evolves(s, r, s') && LogOk(s, x)
    ensures LogOk(s', x)
  {
    forall rec <- x.log | rec.VoteRecord?
      ensures VoteOk(s', rec.vote) && rec.vote.decree <= x.accepted.decree
    {
      VoteOkStable(s, r, s', rec.vote);
    }
    var st := RestoreState(s.first, x.log);
    VoteOkStable(s, r, s', st.accepted);
    forall v <- st.passed ensures Chosen(s', v.decree, v.command) { ChosenStable(s, r, s', v.decree, v.command); }
  }

  lemma PreparingOkStable(s: System, r: nat, s': System, q: nat, x: Replica)
    requires Evolves(s, r, s') && PreparingOk(s, q, x) && q != r
    ensures PreparingOk(s', q, x)
  {
    VoteOkStable(s, r, s', x.freshest);
    forall a <- x.responses ensures a != q && Answered(s', a, q, x) { assert Answered(s, a, q, x); }
  }

  lemma LearningOkStable(s: System, r: nat, s': System, x: Replica)
    requires Evolves(s, r, s') && LearningOk(s, x)
    ensures LearningOk(s', x)
  {
    if x.learning.Reading? {
      var log, log' := s.replicas[x.learning.peer].log, s'.replicas[x.learning.peer].log;
      assert log <= log';
      assert log'[..x.learning.next] == log[..x.learning.next];
    }
  }

  /** The other replicas stay as they were. */
  lemma ReplicaOkStable(s: System, r: nat, s': System, q: nat)
    requires Evolves(s, r, s') && ReplicaOk(s, q) && q != r
    ensures ReplicaOk(s', q)
  {
    var x := s.replicas[q];
    VoteOkStable(s, r, s', x.accepted);
    LogOkStable(s, r, s', x);
    if x.mode == Preparing && x.learning.Idle? { PreparingOkStable(s, r, s', q, x); }
    if x.mode == StablePrimary && x.outstanding.None? {
      DecidedStable(s, r, s', x.accepted.decree, x.accepted.ballot, x.accepted.command);
    }
    LearningOkStable(s, r, s', x);
  }

  /** What a step of r adds holds in the state it leads to. */
  ghost predicate Sound(s: System, r: nat, e: Effect) {
    var s' := Apply(s, r, e);
    && Evolves(s, r, s')
    && MessagesOk(s', e.sent) && AcksOk(s', e.acked) && ReplicasOk(s', {r}) && ExecutionsOk(s', e.passed)
  }

  /** A step keeps the invariant if what it adds is sound in the new state. */
  lemma Preserved(s: System, r: nat, e: Effect)
    requires Inv(s) && Sound(s, r, e)
    ensures Inv(Apply(s, r, e))
  {
    hide MessageOk, AckOk, ReplicaOk, ExecutionOk;
    var s' := Apply(s, r, e);
    forall m <- s'.net ensures MessageOk(s', m) {
      if m in s.net { MessageOkStable(s, r, s', m); }
    }
    forall k <- s'.acks ensures AckOk(s', k) {
      if k in s.acks { AckOkStable(s, r, s', k); }
    }
    forall q <- s'.replicas.Keys ensures ReplicaOk(s', q) {
      if q != r { ReplicaOkStable(s, r, s', q); }
    }
    forall x <- s'.executed ensures ExecutionOk(s', x) {
      if x in s.executed { ExecutionOkStable(s, r, s', x); }
    }
  }

  lemma ExecutionsStable(s: System, r: nat, s': System, es: set<Execution>)
    requires Evolves(s, r, s') && ExecutionsOk(s, es)
    ensures ExecutionsOk(s', es)
  {
    forall x <- es ensures ExecutionOk(s', x) { ExecutionOkStable(s, r, s', x); }
  }
}
