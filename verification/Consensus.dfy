/** All runs of a configuration of replicas: any interleaving of handlers, message loss,
    duplication and reordering, and crashes at any point, including the points inside a handler
    where something has left the replica or reached the execution queue but not yet the log. */
module Consensus {
  import opened Basics
  import opened Ballots
  import opened Legislator

  /** n replicas whose first decree is first; every message ever sent; who accepted which vote; and
      every command ever handed to an execution queue. */
  datatype System = System(
    n: nat,
    first: nat,
    replicas: map<nat, Replica>,
    net: set<Message>,
    acks: set<Ack>,
    executed: set<Execution>)

  datatype Step =
    | Prepare(r: nat, seen: Ballot)
    | PrepareAndCrash(r: nat, seen: Ballot)
    | Receive(r: nat, m: Message, reply: bool, relinquish: bool)
    | PassAndCrash(r: nat, m: Message)
    | Propose(r: nat, command: Command)
    | Initialize(r: nat)
    | BecomeSecondary(r: nat)
    | BeginLearning(r: nat, peer: nat)
    | Learn(r: nat)
    | LearnAndCrash(r: nat)
    | EndLearning(r: nat, learnt: bool)
    | Crash(r: nat)

  predicate WellFormed(s: System) {
    s.n >= 1 && s.replicas.Keys == Members(s.n)
  }

  /** A message that VerifyMessage lets through: from another member of the configuration. */
  predicate Deliverable(s: System, r: nat, m: Message) {
    m in s.net && IsMember(s.n, m.from) && m.from != r
    && (m.VoteMsg? || m.PrepareMsg? || m.to == r)
  }

  predicate Enabled(s: System, step: Step)
    requires WellFormed(s)
  {
    step.r in s.replicas &&
    var x := s.replicas[step.r];
    match step
    case Prepare(r, seen) => x.mode == Initializing && x.learning.Idle?
    case PrepareAndCrash(r, seen) => x.mode == Initializing && x.learning.Idle?
    case Receive(r, m, reply, relinquish) =>
      Deliverable(s, r, m) && x.learning.Idle? && (m.VoteMsg? ==> x.mode != Initializing)
    case PassAndCrash(r, m) =>
      Deliverable(s, r, m) && x.learning.Idle? && m.VoteMsg? && x.mode != Initializing
      && IsNextDecree(m.vote, x.accepted)
    case Propose(r, command) => x.mode == StablePrimary && x.outstanding.None? && x.learning.Idle?
    case Initialize(r) => x.mode != StablePrimary && x.learning.Idle?
    case BecomeSecondary(r) => x.mode == Initializing && x.learning.Idle?
    case BeginLearning(r, peer) =>
      x.mode != StablePrimary && x.learning.Idle? && peer in s.replicas && peer != r
      && LatestVote(s.replicas[peer].log, x.accepted.decree).Some?
    case Learn(r) =>
      x.learning.Reading? && x.learning.peer in s.replicas
      && x.learning.next < |Disk(s.replicas[x.learning.peer])|
    case LearnAndCrash(r) =>
      x.learning.Reading? && x.learning.peer in s.replicas
      && x.learning.next < |Disk(s.replicas[x.learning.peer])|
    case EndLearning(r, learnt) => x.learning.Reading?
    case Crash(r) => true
  }

  /** A restart, with everything the replica executes again while it reads its log. */
  function Restarted(first: nat, r: nat, x: Replica): Effect {
    Effect(Restart(first, x), {}, {},
           set v | v in RestoreState(first, Disk(x)).passed :: Execution(r, v.decree, v.command))
  }

  predicate IsCrash(step: Step) {
    step.PrepareAndCrash? || step.PassAndCrash? || step.LearnAndCrash? || step.Crash?
  }

  /** The replica at the instant it crashes.  Alone, it logs its new ballot and then its first vote;
      otherwise it sends the new ballot before it logs it. */
  function AtCrash(s: System, step: Step): Replica
    requires step.r in s.replicas
  {
    var x := s.replicas[step.r];
    if step.PrepareAndCrash? && QuorumSize(s.n) == 1 then LogNewBallot(step.r, x, step.seen) else x
  }

  /** A restart from a log that holds promises and no vote: the guard under which RestoreState leaves
      the log file it has read. */
  predicate Forgets(s: System, step: Step) {
    IsCrash(step) && step.r in s.replicas && s.first >= 1 &&
    var disk := Disk(AtCrash(s, step)); disk != [] && NoVotes(disk)
  }

  function Receiving(n: nat, r: nat, x: Replica, m: Message, reply: bool, relinquish: bool): Effect {
    match m
    case VoteMsg(_, _) => HandleVote(r, x, m, reply, relinquish)
    case VoteAccepted(_, _, _, _) => HandleVoteAcceptedMsg(n, r, x, m)
    case PrepareMsg(_, _, _) => HandlePrepareMsg(r, x, m, reply)
    case PrepareAccepted(_, _, _, _, _) => HandlePrepareAcceptedMsg(n, r, x, m)
    case NotAccepted(_, _, _, _) => HandleNotAcceptedMsg(x, m)
  }

  function EffectOf(s: System, step: Step): Effect
    requires WellFormed(s) && Enabled(s, step)
  {
    var r := step.r;
    var x := s.replicas[r];
    match step
    case Prepare(_, seen) => StartPreparing(s.n, r, x, seen)
    case PrepareAndCrash(_, seen) =>
      var again := Restarted(s.first, r, AtCrash(s, step));
      if QuorumSize(s.n) == 1 then again else again.(sent := StartPreparing(s.n, r, x, seen).sent)
    case Receive(_, m, reply, relinquish) => Receiving(s.n, r, x, m, reply, relinquish)
    case PassAndCrash(_, m) =>
      var again := Restarted(s.first, r, x);
      again.(passed := again.passed + PassedBy(r, x, m.vote))
    case Propose(_, command) => SendNextVote(s.n, r, x, command)
    case Initialize(_) => Effect(Legislator.StartInitializing(x), {}, {}, {})
    case BecomeSecondary(_) => Effect(StartBeingStableSecondary(x), {}, {}, {})
    case BeginLearning(_, peer) =>
      Effect(x.(learning := Reading(peer, LatestVote(s.replicas[peer].log, x.accepted.decree).value, None)), {}, {}, {})
    case Learn(_) => LearnRecord(r, x, Disk(s.replicas[x.learning.peer])[x.learning.next])
    case LearnAndCrash(_) =>
      var again := Restarted(s.first, r, x);
      again.(passed := again.passed + LearnRecord(r, x, Disk(s.replicas[x.learning.peer])[x.learning.next]).passed)
    case EndLearning(_, learnt) => Effect(StopLearning(x, learnt), {}, {}, {})
    case Crash(_) => Restarted(s.first, r, x)
  }

  function Apply(s: System, r: nat, e: Effect): System {
    s.(replicas := s.replicas[r := e.replica], net := s.net + e.sent, acks := s.acks + e.acked,
       executed := s.executed + e.passed)
  }

  /** The configuration just created: nothing logged, and the initial vote proposed by nobody. */
  predicate Init(s: System) {
    WellFormed(s)
    && (forall r <- s.replicas :: s.replicas[r] == Created(s.first))
    && s.net == {VoteMsg(0, InitialVote(s.first))} && s.acks == {} && s.executed == {}
  }

  predicate Next(s: System, step: Step, s': System) {
    WellFormed(s) && Enabled(s, step) && s' == Apply(s, step.r, EffectOf(s, step))
  }

  /** A finite run: states[i] becomes states[i + 1] by steps[i]. */
  predicate IsRun(states: seq<System>, steps: seq<Step>) {
    |states| == |steps| + 1 && Init(states[0])
    && forall i :: 0 <= i < |steps| ==> Next(states[i], steps[i], states[i + 1])
  }

  // ---------------------------------------------------------------- what the votes amount to

  predicate Acked(s: System, a: nat, d: nat, b: Ballot, c: Command) {
    Ack(a, Vote(d, b, c)) in s.acks
  }

  /** A quorum accepted command c for decree d under ballot b. */
  ghost predicate Decided(s: System, d: nat, b: Ballot, c: Command) {
    exists q :: DecidedBy(s, q, d, b, c)
  }

  /** Command c is decided for d under some ballot. */
  ghost predicate Chosen(s: System, d: nat, c: Command) {
    exists b: Ballot :: Decided(s, d, b, c)
  }

  ghost predicate DecidedBy(s: System, q: set<nat>, d: nat, b: Ballot, c: Command) {
    IsQuorum(s.n, q) && forall a <- q :: Acked(s, a, d, b, c)
  }

  /** Replica a has not yet moved past (d, b). */
  predicate CanAck(s: System, a: nat, d: nat, b: Ballot) {
    a in s.replicas && AtMost(s.replicas[a].maxBallot, b) && s.replicas[a].accepted.decree <= d
  }

  /** A quorum may still come to accept c for d under b. */
  ghost predicate Choosable(s: System, d: nat, b: Ballot, c: Command) {
    exists q :: ChoosableBy(s, q, d, b, c)
  }

  ghost predicate ChoosableBy(s: System, q: set<nat>, d: nat, b: Ballot, c: Command) {
    IsQuorum(s.n, q) && forall a <- q :: Acked(s, a, d, b, c) || CanAck(s, a, d, b)
  }

  /** Below ballot b nothing but c can be chosen for d. */
  ghost predicate GoodBelow(s: System, d: nat, b: Ballot, c: Command) {
    forall b0: Ballot, c0: Command :: Choosable(s, d, b0, c0) && Less(b0, b) ==> c0 == c
  }

  /** The decree before d is settled, under a ballot no higher than b. */
  ghost predicate PrevDecided(s: System, d: nat, b: Ballot) {
    d == s.first || (d > s.first && Settled(s, d - 1, b))
  }

  /** Some command is decided for d under a ballot no higher than b. */
  ghost predicate Settled(s: System, d: nat, b: Ballot) {
    exists b0: Ballot, c0: Command :: Decided(s, d, b0, c0) && AtMost(b0, b)
  }

  /** A quorum has promised b and accepted nothing above decree d under a lower ballot. */
  ghost predicate Sealed(s: System, d: nat, b: Ballot) {
    exists q :: SealedBy(s, q, d, b)
  }

  ghost predicate SealedBy(s: System, q: set<nat>, d: nat, b: Ballot) {
    IsQuorum(s.n, q) && forall a <- q :: Promised(s, a, b, d)
  }

  ghost predicate Promised(s: System, a: nat, b: Ballot, d: nat) {
    a in s.replicas && AtMost(b, s.replicas[a].maxBallot)
    && forall k <- s.acks :: k.replica == a && Less(k.vote.ballot, b) ==> k.vote.decree <= d
  }

  /** v comes no later than w: an earlier decree, or the same one under a ballot no higher. */
  predicate UpTo(v: Vote, w: Vote) {
    v.decree < w.decree || (v.decree == w.decree && AtMost(v.ballot, w.ballot))
  }

  /** Replica a promised b when v was its accepted vote. */
  ghost predicate PromisedWith(s: System, a: nat, b: Ballot, v: Vote) {
    a in s.replicas && AtMost(b, s.replicas[a].maxBallot)
    && forall k <- s.acks :: k.replica == a && Less(k.vote.ballot, b) ==>
      UpTo(k.vote, v)
  }

  /** v carries a command that was proposed for its decree, under its ballot or a higher one. */
  ghost predicate VoteOk(s: System, v: Vote) {
    && (exists m <- s.net ::
       m.VoteMsg? && m.vote.decree == v.decree && m.vote.command == v.command && AtMost(v.ballot, m.vote.ballot))
    && (exists m <- s.net :: m.VoteMsg? && m.vote.ballot == v.ballot)
    && PrevDecided(s, v.decree, v.ballot)
  }

  // ---------------------------------------------------------------- the invariant

  ghost predicate MessageOk(s: System, m: Message) {
    match m
    case VoteMsg(p, v) =>
      && (forall m' <- s.net :: m'.VoteMsg? && m'.vote.decree == v.decree && m'.vote.ballot == v.ballot ==> m' == m)
      && GoodBelow(s, v.decree, v.ballot, v.command)
      && PrevDecided(s, v.decree, v.ballot)
      && (m == VoteMsg(0, InitialVote(s.first))
          || (IsMember(s.n, p) && v.ballot.member == p && Ack(p, v) in s.acks && Sealed(s, v.decree, v.ballot)))
    case VoteAccepted(a, to, d, b) => IsMember(s.n, a) && exists c: Command :: Acked(s, a, d, b, c)
    case PrepareMsg(p, d, b) => p in s.replicas && b.member == p && d <= s.replicas[p].accepted.decree
    case PrepareAccepted(a, p, d, b, v) =>
      PrepareMsg(p, d, b) in s.net && a != p && v.decree <= d && AtMost(v.ballot, b) && VoteOk(s, v)
        && PromisedWith(s, a, b, v)
    case NotAccepted(_, _, _, _) => true
  }

  ghost predicate AckOk(s: System, k: Ack) {
    && k.replica in s.replicas
    && (exists m <- s.net :: m.VoteMsg? && m.vote == k.vote && m.from != 0)
    && var x := s.replicas[k.replica];
       && AtMost(k.vote.ballot, x.maxBallot)
       && UpTo(k.vote, x.accepted)
  }

  function RecordDecree(rec: Record): nat {
    if rec.VoteRecord? then rec.vote.decree else rec.decree
  }

  /** No record falls behind a vote logged before it. */
  ghost predicate Ascending(log: seq<Record>) {
    forall i, j :: 0 <= i < j < |log| && log[i].VoteRecord? ==> log[i].vote.decree <= RecordDecree(log[j])
  }

  /** What RestoreState asserts of a record when st has been read before it. */
  predicate Readable(st: Restored, rec: Record) {
    && RecordBallot(rec) != NO_BALLOT && RecordDecree(rec) > st.executed
    && (rec.VoteRecord? ==> IsNextDecree(rec.vote, st.accepted))
  }

  predicate AllReadable(first: nat, log: seq<Record>) {
    forall i :: 0 <= i < |log| ==> Readable(RestoreState(first, log[..i]), log[i])
  }

  function RecordBallot(rec: Record): Ballot {
    if rec.VoteRecord? then rec.vote.ballot else rec.ballot
  }

  /** Decree d is executed again while the log is read. */
  predicate Replayed(passed: set<Vote>, d: nat) {
    exists v <- passed :: v.decree == d
  }

  /** The log restarts the replica where it stands, up to the copy of the vote held in memory. */
  ghost predicate LogOk(s: System, x: Replica) {
    && (forall rec <- x.log :: rec.VoteRecord? ==> VoteOk(s, rec.vote) && rec.vote.decree <= x.accepted.decree)
    && Ascending(x.log) && x.stale == []
    && AllReadable(s.first, x.log)
    && var st := RestoreState(s.first, x.log);
       && st.accepted.decree == x.accepted.decree && st.accepted.ballot == x.accepted.ballot
       && st.maxBallot == x.maxBallot && VoteOk(s, st.accepted)
       && st.executed + 1 == st.accepted.decree
       && (forall d: nat :: s.first <= d < st.accepted.decree ==> Replayed(st.passed, d))
       && (forall v <- st.passed :: Chosen(s, v.decree, v.command))
  }

  ghost predicate PreparingOk(s: System, r: nat, x: Replica) {
    && x.prepBallot.member == r && AtMost(x.prepBallot, x.maxBallot)
    && (x.maxBallot == x.prepBallot || x.maxBallot.member != r)
    && x.freshest.decree == x.prepDecree && x.prepDecree <= x.accepted.decree
    && (forall m <- s.net :: m.VoteMsg? ==> m.vote.ballot != x.prepBallot)
    && (forall m <- s.net :: m.PrepareMsg? && m.from == r && m.ballot == x.prepBallot ==> m.decree <= x.prepDecree)
    && VoteOk(s, x.freshest) && PromisedWith(s, r, x.prepBallot, x.freshest)
    && (forall a <- x.responses :: a != r && Answered(s, a, r, x))
  }

  ghost predicate Answered(s: System, a: nat, r: nat, x: Replica) {
    exists m <- s.net :: m.PrepareAccepted? && m.from == a && m.to == r && m.decree == x.prepDecree
      && m.ballot == x.prepBallot && (m.vote.decree < m.decree || AtMost(m.vote.ballot, x.freshest.ballot))
  }

  ghost predicate PrimaryOk(s: System, r: nat, x: Replica) {
    && x.learning.Idle? && x.maxBallot.member == r && x.accepted.ballot == x.maxBallot
    && VoteMsg(r, x.accepted) in s.net
    && (x.outstanding.None? ==> Decided(s, x.accepted.decree, x.accepted.ballot, x.accepted.command))
    && (x.outstanding.Some? ==> x.outstanding.value == x.accepted)
    && (forall a <- x.responses :: a != r && VoteAccepted(a, r, x.accepted.decree, x.accepted.ballot) in s.net)
  }

  ghost predicate LearningOk(s: System, x: Replica) {
    x.learning.Reading? ==>
      var l := x.learning;
      l.peer in s.replicas &&
      var log := s.replicas[l.peer].log;
      && l.next <= |log|
      && (l.last.None? ==> l.next < |log| && log[l.next].VoteRecord? && log[l.next].vote.decree == x.accepted.decree)
      && (l.last.Some? ==> VoteRecord(l.last.value) in log[..l.next] && ReadSoFar(l.last.value, x.accepted))
  }

  /** The last vote read has been taken over, or skipped because the learner holds a higher ballot. */
  predicate ReadSoFar(last: Vote, accepted: Vote) {
    || (last.decree == accepted.decree && AtMost(last.ballot, accepted.ballot))
    || (last.decree == accepted.decree + 1 && Less(last.ballot, accepted.ballot))
  }

  ghost predicate ReplicaOk(s: System, r: nat) {
    r in s.replicas &&
    var x := s.replicas[r];
    && VoteOk(s, x.accepted) && AtMost(x.accepted.ballot, x.maxBallot)
    && LogOk(s, x)
    && (x.mode == Preparing && x.learning.Idle? ==> PreparingOk(s, r, x))
    && (x.mode == StablePrimary ==> PrimaryOk(s, r, x))
    && LearningOk(s, x)
  }

  ghost predicate ExecutionOk(s: System, e: Execution) {
    Chosen(s, e.decree, e.command)
  }

  ghost predicate MessagesOk(s: System, ms: set<Message>) {
    forall m <- ms :: MessageOk(s, m)
  }

  ghost predicate AcksOk(s: System, ks: set<Ack>) {
    forall k <- ks :: AckOk(s, k)
  }

  ghost predicate ReplicasOk(s: System, rs: set<nat>) {
    forall r <- rs :: ReplicaOk(s, r)
  }

  ghost predicate ExecutionsOk(s: System, es: set<Execution>) {
    forall e <- es :: ExecutionOk(s, e)
  }

  ghost predicate Inv(s: System) {
    && WellFormed(s) && s.first >= 1
    && MessagesOk(s, s.net) && AcksOk(s, s.acks) && ReplicasOk(s, s.replicas.Keys) && ExecutionsOk(s, s.executed)
  }
}
