/** Counting votes and learning from a peer's log keep the invariant. */
module ConsensusLearner {
  import opened Basics
  import opened Ballots
  import opened Legislator
  import opened Consensus
  import opened ConsensusProof
  import opened ConsensusFacts
  import opened ConsensusSteps
  import opened ConsensusPrimary

  // ---------------------------------------------------------------- counting votes

  lemma VoteAcceptedSound(s: System, r: nat, m: Message)
    requires Inv(s) && m.VoteAccepted? && Deliverable(s, r, m) && r in s.replicas && s.replicas[r].learning.Idle?
    ensures Sound(s, r, HandleVoteAcceptedMsg(s.n, r, s.replicas[r], m))
  {
    hide MessageOk, AckOk, ReplicaOk, ExecutionOk, Sound;
    var x := s.replicas[r];
    if x.mode == StablePrimary && x.outstanding.Some?
       && IsSameDecree(m.decree, m.ballot, x.accepted.decree, x.maxBallot)
       && IsSameDecree(x.outstanding.value.decree, x.outstanding.value.ballot, x.accepted.decree, x.maxBallot) {
      PrimaryFacts(s, r);
      var y := x.(responses := x.responses + {m.from});
      if |y.responses| >= QuorumSize(s.n) - 1 {
        QuorumDecides(s, r, y);
        CountedSound(s, r,
          Effect(y.(outstanding := None), {}, {}, {Execution(r, x.accepted.decree, x.accepted.command)}));
      } else {
        CountedSound(s, r, Effect(y, {}, {}, {}));
      }
    } else {
      NothingStep(s, r, {});
    }
  }

  /** The votes counted by the primary, with its own, decide its proposal. */
  lemma QuorumDecides(s: System, r: nat, y: Replica)
    requires WellFormed(s) && r in s.replicas && MessagesOk(s, s.net) && AcksOk(s, s.acks) && PrimaryOk(s, r, y)
    requires |y.responses| >= QuorumSize(s.n) - 1
    ensures Decided(s, y.accepted.decree, y.accepted.ballot, y.accepted.command)
    ensures ExecutionsOk(s, {Execution(r, y.accepted.decree, y.accepted.command)})
  {
    hide MessageOk, AckOk;
    var v := y.accepted;
    var q := y.responses + {r};
    forall a <- y.responses ensures a in s.replicas && Acked(s, a, v.decree, v.ballot, v.command) {
      VoteCounted(s, a, VoteAccepted(a, r, v.decree, v.ballot), VoteMsg(r, v));
    }
    SelfAcked(s, r, v);
    assert y.responses !! {r};
    assert DecidedBy(s, q, v.decree, v.ballot, v.command);
    assert Decided(s, v.decree, v.ballot, v.command);
  }

  lemma VoteCounted(s: System, a: nat, m: Message, p: Message)
    requires WellFormed(s) && MessagesOk(s, s.net) && AcksOk(s, s.acks) && m in s.net && m.VoteAccepted? && m.from == a
    requires p in s.net && p.VoteMsg? && p.vote.decree == m.decree && p.vote.ballot == m.ballot
    ensures a in s.replicas && Acked(s, a, m.decree, m.ballot, p.vote.command)
  {
    assert MessageOk(s, m);
    var c: Command :| Acked(s, a, m.decree, m.ballot, c);
    var p' := AckedWasProposed(s, a, Vote(m.decree, m.ballot, c));
    assert MessageOk(s, p);
  }

  lemma SelfAcked(s: System, r: nat, v: Vote)
    requires MessagesOk(s, s.net) && VoteMsg(r, v) in s.net && v.ballot.member == r && IsMember(s.n, r)
    ensures Ack(r, v) in s.acks
  {
    assert MessageOk(s, VoteMsg(r, v));
  }

  lemma CountedSound(s: System, r: nat, e: Effect)
    requires Inv(s) && r in s.replicas && PrimaryOk(s, r, e.replica) && CoreSame(s.replicas[r], e.replica)
    requires e.sent == {} && e.acked == {} && e.replica.mode == StablePrimary && ExecutionsOk(s, e.passed)
    ensures Sound(s, r, e)
  {
    hide MessageOk, AckOk, ReplicaOk, ExecutionOk, CoreOk, PrimaryOk;
    var s' := Apply(s, r, e);
    Standing(s, r);
    Evolved(s, r, e);
    ExecutionsStable(s, r, s', e.passed);
    PrimaryKept(s, r, s');
  }

  lemma PrimaryKept(s: System, r: nat, s': System)
    requires Evolves(s, r, s') && CoreOk(s, s.replicas[r]) && CoreSame(s.replicas[r], s'.replicas[r])
    requires PrimaryOk(s, r, s'.replicas[r]) && s'.replicas[r].mode == StablePrimary
    ensures ReplicasOk(s', {r})
  {
    var y := s'.replicas[r];
    CoreStable(s, r, s', s.replicas[r], y);
    if y.outstanding.None? { DecidedStable(s, r, s', y.accepted.decree, y.accepted.ballot, y.accepted.command); }
  }

  // ---------------------------------------------------------------- learning

  lemma {:induction false} LatestVoteIs(log: seq<Record>, d: nat)
    ensures match LatestVote(log, d)
      case Some(k) => k < |log| && log[k].VoteRecord? && log[k].vote.decree == d
                      && forall j :: k < j < |log| && log[j].VoteRecord? ==> log[j].vote.decree != d
      case None => forall j :: 0 <= j < |log| && log[j].VoteRecord? ==> log[j].vote.decree != d
  {
    if log != [] { LatestVoteIs(log[..|log| - 1], d); }
  }

  lemma BeginLearningSound(s: System, r: nat, peer: nat)
    requires Inv(s) && Enabled(s, BeginLearning(r, peer))
    ensures Sound(s, r, EffectOf(s, BeginLearning(r, peer)))
  {
    hide MessageOk, AckOk, ReplicaOk, ExecutionOk, Sound, LogOk, VoteOk;
    LatestVoteIs(s.replicas[peer].log, s.replicas[r].accepted.decree);
    Standing(s, r);
    SameCore(s, s.replicas[r], EffectOf(s, BeginLearning(r, peer)).replica);
    LearnedSound(s, r, EffectOf(s, BeginLearning(r, peer)));
  }

  /** A step of a learner that stays one. */
  lemma LearnedSound(s: System, r: nat, e: Effect)
    requires Inv(s) && r in s.replicas && Grows(s.replicas[r], e.replica) && CoreOk(s, e.replica)
    requires e.sent == {} && e.acked == {} && ExecutionsOk(s, e.passed)
    requires e.replica.learning.Reading? && e.replica.mode != StablePrimary && LearningOk(s, e.replica)
    ensures Sound(s, r, e)
  {
    hide MessageOk, AckOk, ReplicaOk, ExecutionOk, CoreOk, LearningOk;
    var s' := Apply(s, r, e);
    Evolved(s, r, e);
    ExecutionsStable(s, r, s', e.passed);
    LearnerReplica(s, r, s');
  }

  lemma LearnerReplica(s: System, r: nat, s': System)
    requires Evolves(s, r, s') && CoreOk(s, s'.replicas[r]) && s'.replicas[r].learning.Reading?
    requires s'.replicas[r].mode != StablePrimary && LearningOk(s, s'.replicas[r])
    ensures ReplicasOk(s', {r})
  {
    CoreStable(s, r, s', s'.replicas[r], s'.replicas[r]);
    LearningOkStable(s, r, s', s'.replicas[r]);
  }

  lemma LearnerFacts(s: System, r: nat)
    requires ReplicasOk(s, s.replicas.Keys) && r in s.replicas && s.replicas[r].learning.Reading?
    ensures CoreOk(s, s.replicas[r]) && LearningOk(s, s.replicas[r]) && s.replicas[r].mode != StablePrimary
  {
    assert ReplicaOk(s, r);
  }

  lemma RecordFacts(s: System, peer: nat, i: nat)
    requires ReplicasOk(s, s.replicas.Keys) && peer in s.replicas && i < |Disk(s.replicas[peer])|
    ensures Disk(s.replicas[peer]) == s.replicas[peer].log && RecordBallot(Disk(s.replicas[peer])[i]) != NO_BALLOT
    ensures var log := s.replicas[peer].log;
      && (log[i].VoteRecord? ==> VoteOk(s, log[i].vote))
      && (forall rec <- log[..i] :: rec.VoteRecord? ==> VoteOk(s, rec.vote) && rec.vote.decree <= RecordDecree(log[i]))
  {
    assert ReplicaOk(s, peer);
    DiskIsLog(s.replicas[peer]);
    var log := s.replicas[peer].log;
    assert AllReadable(s.first, log) && log[i] in log && Readable(RestoreState(s.first, log[..i]), log[i]);
    forall rec <- log[..i] | rec.VoteRecord? ensures VoteOk(s, rec.vote) && rec.vote.decree <= RecordDecree(log[i]) {
      var k :| 0 <= k < i && log[k] == rec;
    }
  }

  /** The vote LearnVotes makes up when its peer's log skips one: its decree was settled below the
      learner's own ballot, so nobody else can have been promised anything different. */
  lemma MissingOk(s: System, accepted: Vote, last: Vote, v: Vote)
    requires VoteOk(s, accepted) && VoteOk(s, last) && VoteOk(s, v) && accepted.decree >= s.first
    requires ReadSoFar(last, accepted) && IsNextDecree(v, last) && v.decree <= accepted.decree + 1
    requires accepted.decree <= v.decree && AtMost(accepted.ballot, v.ballot) && !IsNextDecree(v, accepted)
    ensures v.decree == accepted.decree + 1 && Less(accepted.ballot, v.ballot)
    ensures last.decree == v.decree && Less(last.ballot, accepted.ballot)
    ensures VoteOk(s, Vote(v.decree, accepted.ballot, v.command))
  {
    var m := ProposedAs(s, v);
    AtMostTrans(accepted.ballot, v.ballot, m.vote.ballot);
    PrevDecidedUp(s, v.decree, last.ballot, accepted.ballot);
  }

  lemma LearnSound(s: System, r: nat)
    requires Inv(s) && Enabled(s, Learn(r))
    ensures Sound(s, r, EffectOf(s, Learn(r)))
    ensures ExecutionsOk(s, EffectOf(s, Learn(r)).passed)
  {
    hide MessageOk, AckOk, ReplicaOk, ExecutionOk, Sound, CoreOk, VoteOk, Disk;
    var x := s.replicas[r];
    var l := x.learning;
    var log := s.replicas[l.peer].log;
    LearnerFacts(s, r);
    RecordFacts(s, l.peer, l.next);
    assert log[..l.next + 1] == log[..l.next] + [log[l.next]];
    match log[l.next]
    case PrepareRecord(d, b) => LearnPrepareSound(s, r, d, b, EffectOf(s, Learn(r)));
    case VoteRecord(v) => LearnVoteSound(s, r, v, EffectOf(s, Learn(r)));
  }

  lemma LearnPrepareSound(s: System, r: nat, d: nat, b: Ballot, e: Effect)
    requires WellFormed(s) && Enabled(s, Learn(r)) && e == EffectOf(s, Learn(r))
    requires var l := s.replicas[r].learning; var log := s.replicas[l.peer].log;
      && Disk(s.replicas[l.peer]) == log && log[l.next] == PrepareRecord(d, b)
         && (forall rec <- log[..l.next] :: rec.VoteRecord? ==> rec.vote.decree <= d)
      && log[..l.next + 1] == log[..l.next] + [log[l.next]]
    requires s.replicas[r].mode != StablePrimary && CoreOk(s, s.replicas[r]) && LearningOk(s, s.replicas[r]) && Inv(s)
    ensures Sound(s, r, e)
  {
    hide MessageOk, AckOk, ReplicaOk, ExecutionOk, Sound, CoreOk;
    var x := s.replicas[r];
    assert x.accepted.decree <= d;
    if Less(x.maxBallot, b) { CorePrepared(s, x, d, b); }
    SameCore(s, if Less(x.maxBallot, b) then LogPrepare(x, d, b) else x, e.replica);
    LearnedSound(s, r, e);
  }

  lemma LearnVoteSound(s: System, r: nat, v: Vote, e: Effect)
    requires WellFormed(s) && Enabled(s, Learn(r)) && e == EffectOf(s, Learn(r))
    requires var l := s.replicas[r].learning; var log := s.replicas[l.peer].log;
      && Disk(s.replicas[l.peer]) == log && log[l.next] == VoteRecord(v) && VoteOk(s, v) && v.ballot != NO_BALLOT
      && (forall rec <- log[..l.next] :: rec.VoteRecord? ==> VoteOk(s, rec.vote))
      && log[..l.next + 1] == log[..l.next] + [log[l.next]]
    requires s.replicas[r].mode != StablePrimary && CoreOk(s, s.replicas[r]) && LearningOk(s, s.replicas[r]) && Inv(s)
    ensures Sound(s, r, e) && ExecutionsOk(s, e.passed)
  {
    hide MessageOk, AckOk, ReplicaOk, ExecutionOk, Sound, LogOk, VoteOk;
    var x := s.replicas[r];
    var last := x.learning.last;
    if last.Some?
      && (!IsNextDecree(v, last.value) || v.decree < x.accepted.decree || v.decree > x.accepted.decree + 1) {
      ModeSound(s, r, e.replica);
    } else if last.None? && v.decree != x.accepted.decree {
      ModeSound(s, r, e.replica);
    } else if Less(v.ballot, x.accepted.ballot) {
      SameCore(s, x, e.replica);
      LearnedSound(s, r, e);
    } else {
      var w := if IsNextDecree(v, x.accepted) then v else Vote(v.decree, x.accepted.ballot, v.command);
      if !IsNextDecree(v, x.accepted) {
        assert last.Some?;
        DecreeFromFirst(s, x.accepted);
        MissingOk(s, x.accepted, last.value, v);
      }
      CoreVoted(s, r, x, w);
      SameCore(s, LogVote(x, w), e.replica);
      LearnedSound(s, r, e);
    }
  }

  lemma DecreeFromFirst(s: System, v: Vote)
    requires VoteOk(s, v)
    ensures v.decree >= s.first
  {
  }
}
