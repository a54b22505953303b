/** What every run of a configuration guarantees. */
module ConsensusRuns {
  import opened Basics
  import opened Ballots
  import opened Legislator
  import opened Consensus
  import opened ConsensusProof
  import opened ConsensusFacts
  import opened ConsensusSteps
  import opened ConsensusPrimary
  import opened ConsensusLearner

  // ---------------------------------------------------------------- every step

  lemma ReceiveSound(s: System, r: nat, m: Message, reply: bool, relinquish: bool)
    requires Inv(s) && r in s.replicas && Deliverable(s, r, m) && s.replicas[r].learning.Idle?
    requires m.VoteMsg? ==> s.replicas[r].mode != Initializing
    ensures Sound(s, r, Receiving(s.n, r, s.replicas[r], m, reply, relinquish))
  {
    hide MessageOk, AckOk, ReplicaOk, ExecutionOk, Sound;
    match m
    case VoteMsg(_, _) => VoteSound(s, r, m, reply, relinquish);
    case VoteAccepted(_, _, _, _) => VoteAcceptedSound(s, r, m);
    case PrepareMsg(_, _, _) => PrepareSound(s, r, m, reply);
    case PrepareAccepted(_, _, _, _, _) => PrepareAcceptedSound(s, r, m);
    case NotAccepted(_, _, _, _) => NotAcceptedSound(s, r, m);
  }

  /** A replica on its own prepares and becomes primary in one step. */
  lemma PrepareKeeps(s: System, r: nat, seen: Ballot)
    requires Inv(s) && r in s.replicas && s.replicas[r].learning.Idle?
    ensures Inv(Apply(s, r, StartPreparing(s.n, r, s.replicas[r], seen)))
  {
    hide MessageOk, AckOk, ReplicaOk, ExecutionOk, Sound;
    var y := LogNewBallot(r, s.replicas[r], seen);
    if QuorumSize(s.n) == 1 {
      AloneKeeps(s, r, seen);
    } else {
      NewBallotSound(s, r, seen, {PrepareMsg(r, y.prepDecree, y.prepBallot)});
      Preserved(s, r, StartPreparing(s.n, r, s.replicas[r], seen));
    }
  }

  lemma AloneKeeps(s: System, r: nat, seen: Ballot)
    requires Inv(s) && r in s.replicas && s.replicas[r].learning.Idle? && QuorumSize(s.n) == 1
    ensures Inv(Apply(s, r, StartPreparing(s.n, r, s.replicas[r], seen)))
  {
    hide MessageOk, AckOk, ReplicaOk, ExecutionOk, Sound, LogOk, VoteOk, SendNextVote, LogPrepare, PreparingOk;
    var y := LogNewBallot(r, s.replicas[r], seen);
    var e := Effect(y, {}, {}, {});
    NewBallotSound(s, r, seen, {});
    Preserved(s, r, e);
    var s1 := Apply(s, r, e);
    NewBallotIs(r, s.replicas[r], seen);
    CandidateFacts(s1, r);
    PrimarySound(s1, r, y);
    var e1 := StartBeingStablePrimary(s.n, r, y);
    Preserved(s1, r, e1);
    assert Apply(s1, r, e1) == Apply(s, r, e1);
  }

  lemma NewBallotIs(r: nat, x: Replica, seen: Ballot)
    ensures var y := LogNewBallot(r, x, seen);
      && y.mode == Preparing && y.learning == x.learning && y.responses == {}
      && y.accepted == x.accepted && y.accepted.decree == y.prepDecree && y.maxBallot == y.prepBallot
  {
  }

  lemma CandidateFacts(s: System, r: nat)
    requires ReplicasOk(s, s.replicas.Keys) && r in s.replicas && s.replicas[r].mode == Preparing
      && s.replicas[r].learning.Idle?
    ensures PreparingOk(s, r, s.replicas[r])
  {
    assert ReplicaOk(s, r);
  }

  /** A crash after something has left the replica or its log, but before the log records it. */
  lemma CrashSound(s: System, step: Step)
    requires Inv(s) && Enabled(s, step) && IsCrash(step) && !Forgets(s, step) && AtCrash(s, step) == s.replicas[step.r]
    ensures Sound(s, step.r, EffectOf(s, step))
  {
    hide MessageOk, AckOk, ReplicaOk, ExecutionOk, Sound, Restart;
    var r := step.r;
    var x := s.replicas[r];
    RestartedPassed(s, r);
    match step {
      case PrepareAndCrash(_, seen) =>
        PreparesSent(s, r, EffectOf(s, step).sent);
      case PassAndCrash(_, m) =>
        Standing(s, r);
        ProposedOk(s, m);
        CoreVoted(s, r, x, m.vote);
      case LearnAndCrash(_) =>
        LearnSound(s, r);
      case Crash(_) =>
        PreparesSent(s, r, {});
    }
    RestartSound(s, r, EffectOf(s, step));
  }

  /** A replica on its own crashes between its new ballot and its first vote. */
  lemma AloneCrashKeeps(s: System, r: nat, seen: Ballot)
    requires Inv(s) && Enabled(s, PrepareAndCrash(r, seen)) && QuorumSize(s.n) == 1
      && !Forgets(s, PrepareAndCrash(r, seen))
    ensures Inv(Apply(s, r, EffectOf(s, PrepareAndCrash(r, seen))))
  {
    hide MessageOk, AckOk, ReplicaOk, ExecutionOk, Sound, Restart;
    var y := LogNewBallot(r, s.replicas[r], seen);
    var e := Effect(y, {}, {}, {});
    NewBallotSound(s, r, seen, {});
    Preserved(s, r, e);
    var s1 := Apply(s, r, e);
    var e1 := EffectOf(s, PrepareAndCrash(r, seen));
    RestartedPassed(s1, r);
    PreparesSent(s1, r, {});
    RestartSound(s1, r, e1);
    Preserved(s1, r, e1);
    assert Apply(s1, r, e1) == Apply(s, r, e1);
  }

  lemma StepKeeps(s: System, step: Step, s': System)
    requires Inv(s) && Next(s, step, s') && !Forgets(s, step)
    ensures Inv(s')
  {
    hide MessageOk, AckOk, ReplicaOk, ExecutionOk, Sound;
    var r := step.r;
    match step
    case Prepare(_, seen) => PrepareKeeps(s, r, seen);
    case PrepareAndCrash(_, seen) =>
      if QuorumSize(s.n) == 1 {
        AloneCrashKeeps(s, r, seen);
      } else {
        CrashSound(s, step);
        Preserved(s, r, EffectOf(s, step));
      }
    case Receive(_, m, reply, relinquish) => ReceiveSound(s, r, m, reply, relinquish);
      Preserved(s, r, EffectOf(s, step));
    case PassAndCrash(_, _) => CrashSound(s, step); Preserved(s, r, EffectOf(s, step));
    case Propose(_, command) => ProposeSound(s, r, command); Preserved(s, r, EffectOf(s, step));
    case Initialize(_) => ModeSound(s, r, EffectOf(s, step).replica); Preserved(s, r, EffectOf(s, step));
    case BecomeSecondary(_) => ModeSound(s, r, EffectOf(s, step).replica); Preserved(s, r, EffectOf(s, step));
    case BeginLearning(_, peer) => BeginLearningSound(s, r, peer); Preserved(s, r, EffectOf(s, step));
    case Learn(_) => LearnSound(s, r); Preserved(s, r, EffectOf(s, step));
    case LearnAndCrash(_) => CrashSound(s, step); Preserved(s, r, EffectOf(s, step));
    case EndLearning(_, learnt) => ModeSound(s, r, EffectOf(s, step).replica); Preserved(s, r, EffectOf(s, step));
    case Crash(_) => CrashSound(s, step); Preserved(s, r, EffectOf(s, step));
  }

  // ---------------------------------------------------------------- every run

  lemma InitInv(s: System)
    requires Init(s) && s.first >= 1
    ensures Inv(s)
  {
    var m := VoteMsg(0, InitialVote(s.first));
    assert m in s.net;
    assert VoteOk(s, InitialVote(s.first));
  }

  /** No replica restarts from a log that holds promises and no vote. */
  predicate NeverForgets(states: seq<System>, steps: seq<Step>) {
    forall i :: 0 <= i < |steps| && i < |states| ==> !Forgets(states[i], steps[i])
  }

  /** The runs on which the replicas agree: see Forgetting for the others. */
  predicate IsCareful(states: seq<System>, steps: seq<Step>) {
    IsRun(states, steps) && states[0].first >= 1 && NeverForgets(states, steps)
  }

  lemma {:induction false} RunInv(states: seq<System>, steps: seq<Step>, i: nat)
    requires IsCareful(states, steps) && i <= |steps|
    ensures Inv(states[i])
  {
    hide Inv, Init, Next, Forgets;
    if i == 0 {
      InitInv(states[0]);
    } else {
      RunInv(states, steps, i - 1);
      StepKeeps(states[i - 1], steps[i - 1], states[i]);
    }
  }

  predicate Agrees(s: System) {
    forall e <- s.executed, e' <- s.executed :: e.decree == e'.decree ==> e.command == e'.command
  }

  /** Agreement: on every run, however messages are lost, duplicated or reordered and however
      often replicas crash and restart, no two replicas, nor two incarnations of one replica, ever
      hand different commands to their execution queues for the same decree. */
  lemma ReplicasAgree(states: seq<System>, steps: seq<Step>)
    ensures IsCareful(states, steps) ==> Agrees(states[|steps|])
  {
    if IsCareful(states, steps) {
      RunInv(states, steps, |steps|);
      InvAgrees(states[|steps|]);
    }
  }

  lemma InvAgrees(s: System)
    requires Inv(s)
    ensures Agrees(s)
  {
    hide MessageOk, AckOk, ReplicaOk;
    forall e <- s.executed, e' <- s.executed | e.decree == e'.decree ensures e.command == e'.command {
      assert ExecutionOk(s, e) && ExecutionOk(s, e');
      var b: Ballot :| Decided(s, e.decree, b, e.command);
      var b': Ballot :| Decided(s, e.decree, b', e'.command);
      DecidedUnique(s, e.decree, b, e.command, b', e'.command);
    }
  }

  /** Command c was proposed for decree d by the owner of a ballot. */
  ghost predicate WasProposed(s: System, d: nat, c: Command) {
    exists m <- s.net ::
      m.VoteMsg? && m.vote.decree == d && m.vote.command == c && m.vote.ballot.member == m.from && IsMember(s.n, m.from)
  }

  ghost predicate SomeChosen(s: System, d: nat) {
    exists c: Command :: Chosen(s, d, c)
  }

  /** Validity and order: only proposed commands are executed, and only when the decree before is
      settled, back to the first decree of the configuration. */
  lemma ExecutedWasProposed(states: seq<System>, steps: seq<Step>)
    ensures IsCareful(states, steps) ==>
      var s := states[|steps|];
      forall e <- s.executed :: WasProposed(s, e.decree, e.command) && s.first <= e.decree
        && forall d: nat | s.first <= d <= e.decree :: SomeChosen(s, d)
  {
    if IsCareful(states, steps) {
      var s := states[|steps|];
      RunInv(states, steps, |steps|);
      hide MessageOk, AckOk, ReplicaOk, IsRun;
      forall e <- s.executed
        ensures WasProposed(s, e.decree, e.command) && s.first <= e.decree
        ensures forall d: nat | s.first <= d <= e.decree :: SomeChosen(s, d)
      {
        assert ExecutionOk(s, e);
        ChosenWasProposed(s, e.decree, e.command);
        forall d: nat | s.first <= d <= e.decree ensures SomeChosen(s, d) { ChosenBefore(s, e.decree, e.command, d); }
      }
    }
  }

  lemma ChosenWasProposed(s: System, d: nat, c: Command)
    requires Inv(s) && Chosen(s, d, c)
    ensures WasProposed(s, d, c) && d >= s.first && (d > s.first ==> SomeChosen(s, d - 1))
  {
    hide ReplicaOk, ExecutionOk, MessageOk, AckOk;
    var b: Ballot :| Decided(s, d, b, c);
    var m := DecidedByMember(s, d, b, c);
    MemberProposal(s, m);
  }

  lemma DecidedByMember(s: System, d: nat, b: Ballot, c: Command) returns (m: Message)
    requires AcksOk(s, s.acks) && Decided(s, d, b, c)
    ensures m in s.net && m.VoteMsg? && m.vote == Vote(d, b, c) && m.from != 0
  {
    var q :| DecidedBy(s, q, d, b, c);
    var a :| a in q;
    assert Acked(s, a, d, b, c) && AckOk(s, Ack(a, Vote(d, b, c)));
    m :| m in s.net && m.VoteMsg? && m.vote == Vote(d, b, c) && m.from != 0;
  }

  lemma MemberProposal(s: System, m: Message)
    requires MessagesOk(s, s.net) && m in s.net && m.VoteMsg? && m.from != 0
    ensures WasProposed(s, m.vote.decree, m.vote.command) && m.vote.decree >= s.first
    ensures m.vote.decree > s.first ==> SomeChosen(s, m.vote.decree - 1)
  {
    assert MessageOk(s, m);
    var d := m.vote.decree;
    if d > s.first {
      var b0, c0 :| Decided(s, d - 1, b0, c0) && AtMost(b0, m.vote.ballot);
      assert Chosen(s, d - 1, c0);
    }
  }

  lemma {:induction false} ChosenBefore(s: System, d: nat, c: Command, d0: nat)
    requires Inv(s) && Chosen(s, d, c) && s.first <= d0 <= d
    ensures SomeChosen(s, d0)
    decreases d
  {
    hide Inv, Chosen;
    if d0 < d {
      ChosenWasProposed(s, d, c);
      var c': Command :| Chosen(s, d - 1, c');
      ChosenBefore(s, d - 1, c', d0);
    }
  }

  /** A crash loses nothing a replica promised or accepted: reading its log back restores its highest
      ballot and the decree and ballot of its accepted vote, and executes every decree below that vote
      again.  The command it restores is the same one as well wherever that matters: once the decree is
      decided under a ballot no higher than the vote's. */
  lemma RestartRecovers(states: seq<System>, steps: seq<Step>, r: nat)
    ensures IsCareful(states, steps) && r in states[|steps|].replicas ==>
      var s := states[|steps|];
      var x := s.replicas[r];
      var y := Restart(s.first, x);
      && y.maxBallot == x.maxBallot && y.accepted.decree == x.accepted.decree && y.accepted.ballot == x.accepted.ballot
      && (Settled(s, x.accepted.decree, x.accepted.ballot) ==> y.accepted.command == x.accepted.command)
      && forall d: nat | s.first <= d < x.accepted.decree :: Replayed(RestoreState(s.first, x.log).passed, d)
  {
    hide Inv, Settled, Replayed, RestoreState;
    if IsCareful(states, steps) && r in states[|steps|].replicas {
      RunInv(states, steps, |steps|);
      RecoversAt(states[|steps|], r);
    }
  }

  lemma RecoversAt(s: System, r: nat)
    requires Inv(s) && r in s.replicas
    ensures var x := s.replicas[r]; var y := Restart(s.first, x);
      && y.maxBallot == x.maxBallot && y.accepted.decree == x.accepted.decree && y.accepted.ballot == x.accepted.ballot
      && (Settled(s, x.accepted.decree, x.accepted.ballot) ==> y.accepted.command == x.accepted.command)
      && forall d: nat | s.first <= d < x.accepted.decree :: Replayed(RestoreState(s.first, x.log).passed, d)
  {
    hide MessageOk, AckOk, ExecutionOk, Settled, VoteOk;
    assert ReplicaOk(s, r);
    var x := s.replicas[r];
    DiskIsLog(x);
    if Settled(s, x.accepted.decree, x.accepted.ballot) { SettledSame(s, x.accepted, Restart(s.first, x).accepted); }
  }

  /** Votes for one decree under one ballot carry the same command once it is decided below. */
  lemma SettledSame(s: System, v: Vote, w: Vote)
    requires Inv(s) && VoteOk(s, v) && VoteOk(s, w) && w.decree == v.decree && w.ballot == v.ballot
      && Settled(s, v.decree, v.ballot)
    ensures w.command == v.command
  {
    hide MessageOk, AckOk, ReplicaOk, ExecutionOk, VoteOk, Decided;
    DecreeFromFirst(s, v);
    assert PrevDecided(s, v.decree + 1, v.ballot);
    PreviousDecided(s, v);
    PreviousDecided(s, w);
    var b: Ballot :| Decided(s, v.decree, b, v.command);
    var b': Ballot :| Decided(s, v.decree, b', w.command);
    DecidedUnique(s, v.decree, b, v.command, b', w.command);
  }

  /** What RestoreState asserts when it reads rec after the records that gave st. */
  predicate RestoreAsserts(st: Restored, rec: Record) {
    var d, b := RecordDecree(rec), RecordBallot(rec);
    && b != NO_BALLOT
    && (d < st.executed ==> st.maxBallot == NO_BALLOT || AtMost(b, st.maxBallot))
    && (d == st.executed ==>
          st.maxBallot == NO_BALLOT || AtMost(b, st.maxBallot) || (rec.PrepareRecord? && st.maxBallot.id + 1 == b.id))
    && (rec.VoteRecord? && d > st.executed ==>
          IsNextDecree(rec.vote, st.accepted)
            && (d == st.accepted.decree + 1 ==> st.accepted.decree in {st.executed, st.executed + 1}))
  }

  /** Every log file of every run can be read back without a failed assertion, up to the one at the end. */
  lemma LogsReadBack(states: seq<System>, steps: seq<Step>, r: nat, i: nat)
    ensures IsCareful(states, steps) && r in states[|steps|].replicas ==>
      var s, disk := states[|steps|], Disk(states[|steps|].replicas[r]);
      && (i < |disk| ==> RestoreAsserts(RestoreState(s.first, disk[..i]), disk[i]))
      && var st := RestoreState(s.first, disk); st.executed == 0 || st.executed == st.accepted.decree - 1
  {
    hide Inv, RestoreAsserts, RestoreState;
    if IsCareful(states, steps) && r in states[|steps|].replicas {
      RunInv(states, steps, |steps|);
      ReadBackAt(states[|steps|], r, i);
    }
  }

  lemma ReadBackAt(s: System, r: nat, i: nat)
    requires Inv(s) && r in s.replicas
    ensures var disk := Disk(s.replicas[r]);
      && (i < |disk| ==> RestoreAsserts(RestoreState(s.first, disk[..i]), disk[i]))
      && RestoreState(s.first, disk).executed == RestoreState(s.first, disk).accepted.decree - 1
  {
    hide MessageOk, AckOk, ExecutionOk, VoteOk, RestoreState;
    assert ReplicaOk(s, r);
    var log := s.replicas[r].log;
    DiskIsLog(s.replicas[r]);
    if i < |log| {
      assert Readable(RestoreState(s.first, log[..i]), log[i]);
      InOrder(s.first, log, i);
    }
  }

  /** The votes read so far are executed one after the other. */
  lemma {:induction false} InOrder(first: nat, log: seq<Record>, i: nat)
    requires first >= 1 && i <= |log| && AllReadable(first, log)
    ensures var st := RestoreState(first, log[..i]); st.accepted.decree == st.executed + 1
  {
    if i > 0 {
      InOrder(first, log, i - 1);
      assert log[..i] == log[..i - 1] + [log[i - 1]];
      RestoreAppended(first, log[..i - 1], log[i - 1]);
      assert Readable(RestoreState(first, log[..i - 1]), log[i - 1]);
    }
  }

  /** The assertions in the handlers that depend on what other replicas did. */
  predicate AssertionsHold(s: System, r: nat, m: Message)
    requires r in s.replicas
  {
    var x := s.replicas[r];
    && AtMost(x.accepted.ballot, x.maxBallot) && (x.mode == StablePrimary ==> x.maxBallot.member == r)
    && match m
       case VoteMsg(_, v) => v.decree == x.accepted.decree + 1 && IsNextDecree(v, x.accepted) ==> v.ballot != NO_BALLOT
       case VoteAccepted(_, _, d, b) =>
         x.mode == StablePrimary && x.outstanding.Some? && IsSameDecree(d, b, x.accepted.decree, x.maxBallot) ==>
           x.maxBallot == x.accepted.ballot
       case PrepareAccepted(_, _, d, b, _) =>
         x.mode == Preparing && IsSameDecree(d, b, x.accepted.decree, x.maxBallot) ==>
           x.maxBallot.member == r && x.freshest.decree == x.accepted.decree
       case _ => true
  }

  /** No assertion fails on any message any replica can receive on any such run. */
  lemma AssertionsNeverFail(states: seq<System>, steps: seq<Step>, r: nat, m: Message)
    ensures IsCareful(states, steps) && r in states[|steps|].replicas ==>
      Deliverable(states[|steps|], r, m) && states[|steps|].replicas[r].learning.Idle? ==>
        AssertionsHold(states[|steps|], r, m)
  {
    hide Inv, AssertionsHold;
    if IsCareful(states, steps) && r in states[|steps|].replicas
       && Deliverable(states[|steps|], r, m) && states[|steps|].replicas[r].learning.Idle? {
      RunInv(states, steps, |steps|);
      AssertionsAt(states[|steps|], r, m);
    }
  }

  lemma AssertionsAt(s: System, r: nat, m: Message)
    requires Inv(s) && r in s.replicas && Deliverable(s, r, m) && s.replicas[r].learning.Idle?
    ensures AssertionsHold(s, r, m)
  {
    hide MessageOk, AckOk, ReplicaOk, ExecutionOk, VoteOk, LogOk;
    Standing(s, r);
    if s.replicas[r].mode == StablePrimary { PrimaryFacts(s, r); }
    match m {
      case VoteMsg(_, _) => ProposedOk(s, m);
      case PrepareAccepted(_, _, d, b, _) =>
        if s.replicas[r].mode == Preparing
          && IsSameDecree(d, b, s.replicas[r].accepted.decree, s.replicas[r].maxBallot) {
          CandidateFacts(s, r);
          MatchesPrepare(s, r, s.replicas[r], m);
        }
      case _ =>
    }
  }
}
