/** Every handler keeps the invariant. */
module ConsensusSteps {
  import opened Basics
  import opened Ballots
  import opened Legislator
  import opened Consensus
  import opened ConsensusProof
  import opened ConsensusFacts

  /** A replica only moves up, and its log only grows. */
  predicate Grows(x: Replica, y: Replica) {
    && AtMost(x.maxBallot, y.maxBallot) && x.accepted.decree <= y.accepted.decree && x.log <= y.log
    && (x.accepted.decree == y.accepted.decree ==> AtMost(x.accepted.ballot, y.accepted.ballot))
  }

  lemma Evolved(s: System, r: nat, e: Effect)
    requires WellFormed(s) && r in s.replicas && Grows(s.replicas[r], e.replica)
    requires forall k <- e.acked :: k.replica == r && AtMost(s.replicas[r].maxBallot, k.vote.ballot)
                                    && s.replicas[r].accepted.decree <= k.vote.decree
    requires forall m <- e.sent :: m.VoteMsg? ==> FreshVote(s, r, m)
    requires forall m <- e.sent :: m.PrepareMsg? ==> m.from == r
    ensures Evolves(s, r, Apply(s, r, e))
  {
  }

  /** What a replica needs in any mode. */
  ghost predicate CoreOk(s: System, x: Replica) {
    VoteOk(s, x.accepted) && AtMost(x.accepted.ballot, x.maxBallot) && LogOk(s, x)
  }

  lemma CoreStable(s: System, r: nat, s': System, x: Replica, y: Replica)
    requires Evolves(s, r, s') && CoreOk(s, x)
    requires y.accepted == x.accepted && y.maxBallot == x.maxBallot && y.log == x.log && y.stale == x.stale
    ensures CoreOk(s', y)
  {
    VoteOkStable(s, r, s', x.accepted);
    LogOkStable(s, r, s', x);
  }

  lemma SameCore(s: System, x: Replica, y: Replica)
    requires CoreOk(s, x) && y.accepted == x.accepted && y.maxBallot == x.maxBallot && y.log == x.log
      && y.stale == x.stale
    ensures CoreOk(s, y)
  {
  }

  lemma CorePrepared(s: System, x: Replica, d: nat, b: Ballot)
    requires CoreOk(s, x) && x.accepted.decree <= d && AtMost(x.maxBallot, b)
    ensures CoreOk(s, LogPrepare(x, d, b))
  {
    PrepareLogged(s, x, d, b);
  }

  /** A passive replica: no promise counting and no proposal is going on. */
  predicate IsPassive(x: Replica) {
    x.learning.Idle? && x.mode != Preparing && x.mode != StablePrimary
  }

  /** A step that neither proposes nor votes. */
  lemma QuietStep(s: System, r: nat, e: Effect)
    requires Inv(s) && r in s.replicas && Grows(s.replicas[r], e.replica)
    requires e.acked == {} && (forall m <- e.sent :: m.NotAccepted?)
    requires CoreOk(s, e.replica) && IsPassive(e.replica) && ExecutionsOk(s, e.passed)
    ensures Sound(s, r, e)
  {
    hide MessageOk, AckOk, ReplicaOk, ExecutionOk;
    var s' := Apply(s, r, e);
    Evolved(s, r, e);
    RefusalsOk(s', e.sent);
    QuietReplica(s, r, s');
    ExecutionsStable(s, r, s', e.passed);
  }

  lemma RefusalsOk(s: System, sent: set<Message>)
    requires forall m <- sent :: m.NotAccepted?
    ensures MessagesOk(s, sent)
  {
  }

  lemma QuietReplica(s: System, r: nat, s': System)
    requires Evolves(s, r, s') && CoreOk(s, s'.replicas[r]) && IsPassive(s'.replicas[r])
    ensures ReplicasOk(s', {r})
  {
    CoreStable(s, r, s', s'.replicas[r], s'.replicas[r]);
  }

  /** A step that changes nothing but may refuse. */
  lemma NothingStep(s: System, r: nat, sent: set<Message>)
    requires Inv(s) && r in s.replicas && forall m <- sent :: m.NotAccepted?
    ensures Sound(s, r, Effect(s.replicas[r], sent, {}, {}))
  {
    hide MessageOk, AckOk, ReplicaOk, ExecutionOk;
    var e := Effect(s.replicas[r], sent, {}, {});
    var s' := Apply(s, r, e);
    Evolved(s, r, e);
    RefusalsOk(s', sent);
    SameReplica(s, r, s');
  }

  lemma SameReplica(s: System, r: nat, s': System)
    requires Evolves(s, r, s') && ReplicasOk(s, s.replicas.Keys) && s'.replicas[r] == s.replicas[r]
    requires s'.acks == s.acks
    requires forall m <- s'.net :: m in s.net || m.NotAccepted?
    ensures ReplicasOk(s', {r})
  {
    hide VoteOk, LogOk, PreparingOk, LearningOk, Decided;
    var x := s.replicas[r];
    assert ReplicaOk(s, r);
    VoteOkStable(s, r, s', x.accepted);
    LogOkStable(s, r, s', x);
    if x.mode == Preparing && x.learning.Idle? { PreparingKept(s, r, s', x); }
    if x.mode == StablePrimary && x.outstanding.None? {
      DecidedStable(s, r, s', x.accepted.decree, x.accepted.ballot, x.accepted.command);
    }
    LearningOkStable(s, r, s', x);
  }

  lemma PreparingKept(s: System, r: nat, s': System, x: Replica)
    requires Evolves(s, r, s') && PreparingOk(s, r, x)
    requires forall m <- s'.net :: m in s.net || !(m.VoteMsg? || m.PrepareMsg?)
    requires forall k <- s'.acks :: k in s.acks || AtMost(x.prepBallot, k.vote.ballot)
    ensures PreparingOk(s', r, x)
  {
    VoteOkStable(s, r, s', x.freshest);
    forall a <- x.responses ensures a != r && Answered(s', a, r, x) { assert Answered(s, a, r, x); }
  }

  // ---------------------------------------------------------------- restart

  lemma RestartSound(s: System, r: nat, e: Effect)
    requires Inv(s) && r in s.replicas && !PromisesOnly(s.replicas[r])
    requires e.replica == Restart(s.first, s.replicas[r]) && e.acked == {}
    requires forall m <- e.sent :: m.PrepareMsg? && m.from == r
    requires MessagesOk(s, e.sent) && ExecutionsOk(s, e.passed)
    ensures Sound(s, r, e)
  {
    hide MessageOk, AckOk, ReplicaOk, ExecutionOk;
    var s' := Apply(s, r, e);
    RestartedCore(s, r);
    Evolved(s, r, e);
    PreparesStable(s, r, s', e.sent);
    QuietReplica(s, r, s');
    ExecutionsStable(s, r, s', e.passed);
  }

  lemma PreparesStable(s: System, r: nat, s': System, sent: set<Message>)
    requires Evolves(s, r, s') && MessagesOk(s, sent) && forall m <- sent :: m.PrepareMsg?
    ensures MessagesOk(s', sent)
  {
    forall m <- sent ensures MessageOk(s', m) { assert MessageOk(s, m); }
  }

  /** The log file holds promises and no vote. */
  predicate PromisesOnly(x: Replica) {
    Disk(x) != [] && NoVotes(Disk(x))
  }

  lemma DiskIsLog(x: Replica)
    requires x.stale == []
    ensures Disk(x) == x.log
  {
  }

  lemma RestartedCore(s: System, r: nat)
    requires r in s.replicas && ReplicasOk(s, s.replicas.Keys) && !PromisesOnly(s.replicas[r])
    ensures var y := Restart(s.first, s.replicas[r]); CoreOk(s, y) && Grows(s.replicas[r], y)
  {
    hide VoteOk, AllReadable, RestoreState, Ascending, Chosen, Replayed;
    assert ReplicaOk(s, r);
    DiskIsLog(s.replicas[r]);
  }

  lemma RestartedPassed(s: System, r: nat)
    requires r in s.replicas && ReplicasOk(s, s.replicas.Keys)
    ensures ExecutionsOk(s, Restarted(s.first, r, s.replicas[r]).passed)
  {
    assert ReplicaOk(s, r);
    DiskIsLog(s.replicas[r]);
  }

  // ---------------------------------------------------------------- changes of mode

  lemma Standing(s: System, r: nat)
    requires ReplicasOk(s, s.replicas.Keys) && r in s.replicas
    ensures CoreOk(s, s.replicas[r])
  {
    assert ReplicaOk(s, r);
  }

  /** Stepping back to a passive mode. */
  lemma ModeSound(s: System, r: nat, y: Replica)
    requires Inv(s) && r in s.replicas && IsPassive(y)
    requires var x := s.replicas[r];
      y.accepted == x.accepted && y.maxBallot == x.maxBallot && y.log == x.log && y.stale == x.stale
    ensures Sound(s, r, Effect(y, {}, {}, {}))
  {
    hide MessageOk, AckOk, ReplicaOk, ExecutionOk;
    Standing(s, r);
    QuietStep(s, r, Effect(y, {}, {}, {}));
  }

  /** Logging a promise and stepping back. */
  lemma PromiseSound(s: System, r: nat, d: nat, b: Ballot, y: Replica)
    requires Inv(s) && r in s.replicas && IsPassive(y) && s.replicas[r].accepted.decree <= d
      && AtMost(s.replicas[r].maxBallot, b)
    requires var x := LogPrepare(s.replicas[r], d, b);
      y.accepted == x.accepted && y.maxBallot == x.maxBallot && y.log == x.log && y.stale == x.stale
    ensures Sound(s, r, Effect(y, {}, {}, {}))
  {
    hide MessageOk, AckOk, ReplicaOk, ExecutionOk;
    Standing(s, r);
    CorePrepared(s, s.replicas[r], d, b);
    QuietStep(s, r, Effect(y, {}, {}, {}));
  }

  lemma NotAcceptedSound(s: System, r: nat, m: Message)
    requires Inv(s) && r in s.replicas && s.replicas[r].learning.Idle? && m.NotAccepted?
    ensures Sound(s, r, HandleNotAcceptedMsg(s.replicas[r], m))
  {
    hide MessageOk, AckOk, ReplicaOk, ExecutionOk, Sound;
    var x := s.replicas[r];
    if IsLowerDecree(m.decree, m.ballot, x.accepted.decree, x.accepted.ballot) || x.mode == Initializing {
      NothingStep(s, r, {});
    } else if m.decree > x.accepted.decree {
      ModeSound(s, r, StartInitializing(x));
    } else if Less(x.maxBallot, m.ballot) {
      PromiseSound(s, r, m.decree, m.ballot, StartBeingStableSecondary(LogPrepare(x, m.decree, m.ballot)));
    } else {
      NothingStep(s, r, {});
    }
  }

  lemma PrepareSound(s: System, r: nat, m: Message, accept: bool)
    requires Inv(s) && m.PrepareMsg? && Deliverable(s, r, m) && r in s.replicas && s.replicas[r].learning.Idle?
    ensures Sound(s, r, HandlePrepareMsg(r, s.replicas[r], m, accept))
  {
    hide MessageOk, AckOk, ReplicaOk, ExecutionOk, Sound;
    var x := s.replicas[r];
    var e := HandlePrepareMsg(r, x, m, accept);
    if IsLowerDecree(m.decree, m.ballot, x.accepted.decree, x.maxBallot) || x.mode == Initializing {
      NothingStep(s, r, e.sent);
    } else if !accept {
      PromiseSound(s, r, m.decree, m.ballot, e.replica);
    } else {
      AcceptedPrepareSound(s, r, m);
    }
  }

  /** A promise: the reply carries the vote the promise is made with. */
  lemma AcceptedPrepareSound(s: System, r: nat, m: Message)
    requires Inv(s) && m.PrepareMsg? && Deliverable(s, r, m) && r in s.replicas && s.replicas[r].learning.Idle?
    requires s.replicas[r].mode != Initializing
    requires !IsLowerDecree(m.decree, m.ballot, s.replicas[r].accepted.decree, s.replicas[r].maxBallot)
    ensures Sound(s, r, HandlePrepareMsg(r, s.replicas[r], m, true))
  {
    hide MessageOk, AckOk, ReplicaOk, ExecutionOk, Sound, LogOk, VoteOk;
    var x := s.replicas[r];
    var e := HandlePrepareMsg(r, x, m, true);
    Standing(s, r);
    CorePrepared(s, x, m.decree, m.ballot);
    SameCore(s, LogPrepare(x, m.decree, m.ballot), e.replica);
    PromiseStep(s, r, m, e.replica);
  }

  lemma PromiseStep(s: System, r: nat, m: Message, y: Replica)
    requires Inv(s) && m in s.net && m.PrepareMsg? && m.from != r && r in s.replicas && CoreOk(s, s.replicas[r])
    requires s.replicas[r].accepted.decree <= m.decree && AtMost(s.replicas[r].accepted.ballot, m.ballot)
    requires Grows(s.replicas[r], y) && CoreOk(s, y) && IsPassive(y) && AtMost(m.ballot, y.maxBallot)
    ensures Sound(s, r, Effect(y, {PrepareAccepted(r, m.from, m.decree, m.ballot, s.replicas[r].accepted)}, {}, {}))
  {
    hide MessageOk, AckOk, ReplicaOk, ExecutionOk, LogOk, VoteOk;
    var e := Effect(y, {PrepareAccepted(r, m.from, m.decree, m.ballot, s.replicas[r].accepted)}, {}, {});
    var s' := Apply(s, r, e);
    Evolved(s, r, e);
    QuietReplica(s, r, s');
    PromiseReplied(s, r, s', m);
  }

  lemma PromiseReplied(s: System, r: nat, s': System, m: Message)
    requires Evolves(s, r, s') && m in s.net && m.PrepareMsg? && m.from != r
    requires VoteOk(s, s.replicas[r].accepted) && AcksOk(s, s.acks) && s'.acks == s.acks
    requires s.replicas[r].accepted.decree <= m.decree && AtMost(s.replicas[r].accepted.ballot, m.ballot)
    requires AtMost(m.ballot, s'.replicas[r].maxBallot)
    ensures MessagesOk(s', {PrepareAccepted(r, m.from, m.decree, m.ballot, s.replicas[r].accepted)})
  {
    var v := s.replicas[r].accepted;
    VoteOkStable(s, r, s', v);
    forall k <- s'.acks | k.replica == r && Less(k.vote.ballot, m.ballot)
      ensures UpTo(k.vote, v)
    {
      assert AckOk(s, k);
    }
    assert PromisedWith(s', r, m.ballot, v);
  }

  // ---------------------------------------------------------------- votes

  lemma ProposedOk(s: System, m: Message)
    requires MessagesOk(s, s.net) && m in s.net && m.VoteMsg?
    ensures VoteOk(s, m.vote)
    ensures IsMember(s.n, m.from) ==> m.vote.ballot.member == m.from
  {
    assert MessageOk(s, m);
  }

  /** Taking over the next vote: what it confirms is decided, and the log stays sound. */
  lemma CoreVoted(s: System, r: nat, x: Replica, v: Vote)
    requires MessagesOk(s, s.net) && AcksOk(s, s.acks)
    requires CoreOk(s, x) && VoteOk(s, v) && IsNextDecree(v, x.accepted) && v.ballot != NO_BALLOT
    ensures CoreOk(s, LogVote(x, v)) && ExecutionsOk(s, PassedBy(r, x, v))
  {
    hide MessageOk, AckOk;
    if v.decree == x.accepted.decree + 1 {
      PreviousDecided(s, x.accepted);
      PreviousDecided(s, RestoreState(s.first, x.log).accepted);
    }
    VoteLogged(s, x, v);
  }

  /** A primary takes no vote but one under a higher ballot. */
  lemma PrimaryTakesHigher(s: System, r: nat, m: Message)
    requires MessagesOk(s, s.net) && ReplicasOk(s, s.replicas.Keys) && r in s.replicas
    requires m.VoteMsg? && Deliverable(s, r, m) && s.replicas[r].mode == StablePrimary
    requires AtMost(s.replicas[r].accepted.ballot, m.vote.ballot)
    ensures Less(s.replicas[r].maxBallot, m.vote.ballot)
  {
    assert ReplicaOk(s, r);
    ProposedOk(s, m);
  }

  lemma VoteSound(s: System, r: nat, m: Message, reply: bool, relinquish: bool)
    requires Inv(s) && m.VoteMsg? && Deliverable(s, r, m) && r in s.replicas && s.replicas[r].learning.Idle?
    requires s.replicas[r].mode != Initializing
    ensures Sound(s, r, HandleVote(r, s.replicas[r], m, reply, relinquish))
  {
    hide MessageOk, AckOk, ReplicaOk, ExecutionOk, Sound;
    var x := s.replicas[r];
    if IsLowerDecree(m.vote.decree, m.vote.ballot, x.accepted.decree, x.accepted.ballot) {
      NothingStep(s, r, HandleVote(r, x, m, reply, relinquish).sent);
    } else if !IsNextDecree(m.vote, x.accepted) {
      ModeSound(s, r, StartInitializing(x));
    } else {
      TakenSound(s, r, m, reply, relinquish);
    }
  }

  lemma TakenSound(s: System, r: nat, m: Message, reply: bool, relinquish: bool)
    requires Inv(s) && m.VoteMsg? && Deliverable(s, r, m) && r in s.replicas && s.replicas[r].learning.Idle?
    requires s.replicas[r].mode != Initializing && IsNextDecree(m.vote, s.replicas[r].accepted)
    ensures Sound(s, r, HandleVote(r, s.replicas[r], m, reply, relinquish))
  {
    hide MessageOk, AckOk, ReplicaOk, ExecutionOk, VoteOk, LogOk, Sound;
    var x := s.replicas[r];
    var e := HandleVote(r, x, m, reply, relinquish);
    Standing(s, r);
    ProposedOk(s, m);
    CoreVoted(s, r, x, m.vote);
    SameCore(s, LogVote(x, m.vote), e.replica);
    VoteStep(s, r, m, e);
  }

  /** What a replica does with a vote it takes: it refuses or acknowledges it. */
  lemma VoteStep(s: System, r: nat, m: Message, e: Effect)
    requires Inv(s) && m.VoteMsg? && Deliverable(s, r, m) && r in s.replicas && s.replicas[r].learning.Idle?
    requires s.replicas[r].mode != Initializing && AtMost(s.replicas[r].accepted.ballot, m.vote.ballot)
      && m.vote.ballot.member != r
    requires Grows(s.replicas[r], e.replica) && CoreOk(s, e.replica) && ExecutionsOk(s, e.passed)
    requires var x, z := s.replicas[r], e.replica;
      && z.learning.Idle? && (z.mode == StableSecondary || z == LogVote(x, m.vote))
      && (x.mode == StablePrimary && Less(x.maxBallot, m.vote.ballot) ==> z.mode == StableSecondary)
    requires
      || (e.acked == {} && forall m' <- e.sent :: m'.NotAccepted?)
      || (e.acked == {Ack(r, m.vote)} && e.sent == {VoteAccepted(r, m.from, m.vote.decree, m.vote.ballot)}
          && e.replica.accepted == m.vote && e.replica.maxBallot == m.vote.ballot
             && AtMost(s.replicas[r].maxBallot, m.vote.ballot)
          && s.replicas[r].accepted.decree <= m.vote.decree)
    ensures Sound(s, r, e)
  {
    hide MessageOk, AckOk, ReplicaOk, ExecutionOk, VoteOk, LogOk, CoreOk, LogVote;
    var s' := Apply(s, r, e);
    Evolved(s, r, e);
    VotedReplica(s, r, s', m);
    ExecutionsStable(s, r, s', e.passed);
    if e.acked == {} { RefusalsOk(s', e.sent); } else { AckedOk(s', r, m); }
  }

  lemma AckedOk(s: System, r: nat, m: Message)
    requires WellFormed(s) && r in s.replicas && m in s.net && m.VoteMsg? && m.from != 0
    requires Ack(r, m.vote) in s.acks && s.replicas[r].accepted == m.vote && s.replicas[r].maxBallot == m.vote.ballot
    ensures AcksOk(s, {Ack(r, m.vote)})
    ensures MessagesOk(s, {VoteAccepted(r, m.from, m.vote.decree, m.vote.ballot)})
  {
    assert Acked(s, r, m.vote.decree, m.vote.ballot, m.vote.command);
  }

  lemma VotedReplica(s: System, r: nat, s': System, m: Message)
    requires Evolves(s, r, s') && ReplicasOk(s, s.replicas.Keys) && MessagesOk(s, s.net)
    requires m.VoteMsg? && Deliverable(s, r, m) && s.replicas[r].learning.Idle? && s.replicas[r].mode != Initializing
    requires AtMost(s.replicas[r].accepted.ballot, m.vote.ballot) && m.vote.ballot.member != r
    requires forall m' <- s'.net :: m' in s.net || !(m'.VoteMsg? || m'.PrepareMsg?)
    requires var x, z := s.replicas[r], s'.replicas[r];
      && CoreOk(s, z) && z.learning.Idle? && (z.mode == StableSecondary || z == LogVote(x, m.vote))
      && (x.mode == StablePrimary && Less(x.maxBallot, m.vote.ballot) ==> z.mode == StableSecondary)
    ensures ReplicasOk(s', {r})
  {
    hide MessageOk, ReplicaOk, VoteOk, LogOk;
    if s'.replicas[r].mode == StableSecondary {
      QuietReplica(s, r, s');
    } else if s.replicas[r].mode == StablePrimary {
      PrimaryTakesHigher(s, r, m);
      assert false;
    } else {
      KeptMode(s, r, s', m);
    }
  }

  lemma KeptMode(s: System, r: nat, s': System, m: Message)
    requires Evolves(s, r, s') && ReplicasOk(s, {r}) && m.VoteMsg? && m.vote.ballot.member != r
    requires forall m' <- s'.net :: m' in s.net || !(m'.VoteMsg? || m'.PrepareMsg?)
    requires s.replicas[r].learning.Idle? && s.replicas[r].mode != StablePrimary
    requires s'.replicas[r] == LogVote(s.replicas[r], m.vote) && CoreOk(s, s'.replicas[r])
    ensures ReplicasOk(s', {r})
  {
    hide VoteOk, LogOk;
    var x, z := s.replicas[r], s'.replicas[r];
    CoreStable(s, r, s', z, z);
    if z.mode == Preparing {
      assert ReplicaOk(s, r);
      PreparingVoted(s, r, x, m);
      PreparingKept(s, r, s', z);
    }
  }

  /** A candidate that takes over a vote keeps its promises. */
  lemma PreparingVoted(s: System, r: nat, x: Replica, m: Message)
    requires PreparingOk(s, r, x) && m.VoteMsg? && m.vote.ballot.member != r
    requires x.accepted.decree <= m.vote.decree
    ensures PreparingOk(s, r, LogVote(x, m.vote))
  {
    forall a <- x.responses ensures Answered(s, a, r, LogVote(x, m.vote)) { assert Answered(s, a, r, x); }
  }
}
