/** One replica of the Paxos engine: the message handlers of legislator.cpp as functions from the
    replica's fields and a message to the new fields and what the handler sends, acknowledges and
    passes on to the execution queue. */
module Legislator {
  import opened Basics
  import opened Ballots

  /** The batch of client requests carried by a vote, and the pages its record takes beyond the first. */
  datatype Command = Command(batch: int, pages: nat)

  /** The empty batch of the vote a configuration starts with. */
  const NO_COMMAND: Command := Command(0, 0)

  datatype Vote = Vote(decree: nat, ballot: Ballot, command: Command)

  /** A log file record. */
  datatype Record = VoteRecord(vote: Vote) | PrepareRecord(decree: nat, ballot: Ballot)

  datatype Message =
    | VoteMsg(from: nat, vote: Vote)
    | VoteAccepted(from: nat, to: nat, decree: nat, ballot: Ballot)
    | PrepareMsg(from: nat, decree: nat, ballot: Ballot)
    | PrepareAccepted(from: nat, to: nat, decree: nat, ballot: Ballot, vote: Vote)
    | NotAccepted(from: nat, to: nat, decree: nat, ballot: Ballot)

  datatype Mode = Initializing | Preparing | StableSecondary | StablePrimary

  /** LearnVotes in progress: the peer, the next record of its log, and the last vote read. */
  datatype Learning = Idle | Reading(peer: nat, next: nat, last: Option<Vote>)

  /** m_state, m_maxAcceptedVote, m_maxBallot, the log, m_outstandingVote, m_oldFreshestVote,
      m_lastPrepareMsg, m_responseMap and the position of LearnVotes.  The log file holds the records
      of log and, behind the write pointer, those of stale; moved tells whether it is the file that
      a restart without votes opens, rather than the one the replica started with. */
  datatype Replica = Replica(
    mode: Mode,
    accepted: Vote,
    maxBallot: Ballot,
    log: seq<Record>,
    stale: seq<Record>,
    moved: bool,
    outstanding: Option<Vote>,
    freshest: Vote,
    prepDecree: nat,
    prepBallot: Ballot,
    responses: set<nat>,
    learning: Learning)

  /** A replica counted as having accepted a vote: it said VoteAccepted, or proposed it itself. */
  datatype Ack = Ack(replica: nat, vote: Vote)

  /** A command a replica handed to its execution queue as the outcome of a decree. */
  datatype Execution = Execution(replica: nat, decree: nat, command: Command)

  datatype Effect = Effect(replica: Replica, sent: set<Message>, acked: set<Ack>, passed: set<Execution>)

  predicate IsLowerDecree(decree: nat, ballot: Ballot, curDecree: nat, curBallot: Ballot) {
    decree < curDecree || Less(ballot, curBallot)
  }

  predicate IsNextDecree(v: Vote, cur: Vote) {
    || (v.decree == cur.decree && AtMost(cur.ballot, v.ballot))
    || (v.decree == cur.decree + 1 && v.ballot == cur.ballot)
  }

  predicate IsSameDecree(decree: nat, ballot: Ballot, curDecree: nat, curBallot: Ballot) {
    decree == curDecree && ballot == curBallot
  }

  function InitialVote(first: nat): Vote {
    Vote(first, NO_BALLOT, NO_COMMAND)
  }

  /** All records of the log file. */
  function Disk(x: Replica): seq<Record> {
    x.log + x.stale
  }

  function Pages(rec: Record): nat {
    if rec.VoteRecord? then 1 + rec.vote.command.pages else 1
  }

  /** A record goes where the write pointer is, over as many of the stale records, which take one page
      each, as it has pages. */
  function Write(x: Replica, rec: Record): Replica {
    x.(log := x.log + [rec], stale := if Pages(rec) <= |x.stale| then x.stale[Pages(rec)..] else [])
  }

  function LogVote(x: Replica, v: Vote): Replica {
    if IsSameDecree(v.decree, v.ballot, x.accepted.decree, x.accepted.ballot) then
      // not logged again; only the copy in memory is replaced
      x.(accepted := v)
    else
      Write(x, VoteRecord(v)).(accepted := v, maxBallot := MaxBallot(x.maxBallot, v.ballot))
  }

  function LogPrepare(x: Replica, decree: nat, ballot: Ballot): Replica {
    if ballot == x.maxBallot then x
    else Write(x, PrepareRecord(decree, ballot)).(maxBallot := MaxBallot(x.maxBallot, ballot))
  }

  /** What LogAndAcceptVote puts on the execution queue before it logs v. */
  function PassedBy(r: nat, x: Replica, v: Vote): set<Execution> {
    if v.decree == x.accepted.decree + 1 then {Execution(r, x.accepted.decree, x.accepted.command)} else {}
  }

  function StartInitializing(x: Replica): Replica {
    x.(mode := Initializing, responses := {})
  }

  function StartBeingStableSecondary(x: Replica): Replica {
    x.(mode := StableSecondary, responses := {})
  }

  function SendNextVote(n: nat, r: nat, x: Replica, command: Command): Effect {
    var decree := if x.maxBallot == x.accepted.ballot then x.accepted.decree + 1 else x.accepted.decree;
    var v := Vote(decree, x.maxBallot, command);
    var y := LogVote(x.(responses := {}), v);
    if QuorumSize(n) > 1 then
      Effect(y.(outstanding := Some(v)), {VoteMsg(r, v)}, {Ack(r, v)}, {})
    else
      Effect(y, {VoteMsg(r, v)}, {Ack(r, v)}, {Execution(r, decree, command)})
  }

  function StartBeingStablePrimary(n: nat, r: nat, x: Replica): Effect {
    SendNextVote(n, r, x.(mode := StablePrimary, outstanding := None, responses := {}), x.freshest.command)
  }

  /** StartPreparing up to the point where the new ballot is in the log. */
  function LogNewBallot(r: nat, x: Replica, seen: Ballot): Replica {
    var ballot := NextBallot(x.maxBallot, seen, r);
    LogPrepare(x.(mode := Preparing, responses := {}, freshest := x.accepted,
                  prepDecree := x.accepted.decree, prepBallot := ballot),
               x.accepted.decree, ballot)
  }

  function StartPreparing(n: nat, r: nat, x: Replica, seen: Ballot): Effect {
    var y := LogNewBallot(r, x, seen);
    if QuorumSize(n) == 1 then StartBeingStablePrimary(n, r, y)
    else Effect(y, {PrepareMsg(r, y.prepDecree, y.prepBallot)}, {}, {})
  }

  function HandlePrepareMsg(r: nat, x: Replica, m: Message, accept: bool): Effect
    requires m.PrepareMsg?
  {
    if IsLowerDecree(m.decree, m.ballot, x.accepted.decree, x.maxBallot) then
      var refused := if m.decree + 1 < x.accepted.decree || Less(m.ballot, x.maxBallot)
                     then {NotAccepted(r, m.from, x.accepted.decree, x.maxBallot)} else {};
      Effect(x, refused, {}, {})
    else if x.mode == Initializing then Effect(x, {}, {}, {})
    else
      var y := LogPrepare(x, m.decree, m.ballot);
      Effect(if m.decree > x.accepted.decree then StartInitializing(y) else StartBeingStableSecondary(y),
             if accept then {PrepareAccepted(r, m.from, m.decree, m.ballot, x.accepted)} else {}, {}, {})
  }

  function HandlePrepareAcceptedMsg(n: nat, r: nat, x: Replica, m: Message): Effect
    requires m.PrepareAccepted?
  {
    if x.mode == Preparing && IsSameDecree(m.decree, m.ballot, x.accepted.decree, x.maxBallot)
       && !(m.vote.decree > m.decree || Less(m.ballot, m.vote.ballot)) then
      var y := x.(freshest := if m.vote.decree == x.freshest.decree && Less(x.freshest.ballot, m.vote.ballot)
                              then m.vote else x.freshest,
                  responses := x.responses + {m.from});
      if |y.responses| >= QuorumSize(n) - 1 then StartBeingStablePrimary(n, r, y) else Effect(y, {}, {}, {})
    else Effect(x, {}, {}, {})
  }

  function HandleNotAcceptedMsg(x: Replica, m: Message): Effect
    requires m.NotAccepted?
  {
    if IsLowerDecree(m.decree, m.ballot, x.accepted.decree, x.accepted.ballot) || x.mode == Initializing then
      Effect(x, {}, {}, {})
    else if m.decree > x.accepted.decree then Effect(StartInitializing(x), {}, {}, {})
    else if Less(x.maxBallot, m.ballot) then
      Effect(StartBeingStableSecondary(LogPrepare(x, m.decree, m.ballot)), {}, {}, {})
    else Effect(x, {}, {}, {})
  }

  /** One vote taken by HandleNewVotes.  The state machine may veto the reply (reply), and a vote by
      which the primary steps down leaves the loop before the mode changes (relinquish). */
  function HandleVote(r: nat, x: Replica, m: Message, reply: bool, relinquish: bool): Effect
    requires m.VoteMsg?
  {
    var v := m.vote;
    if IsLowerDecree(v.decree, v.ballot, x.accepted.decree, x.accepted.ballot) then
      var refused := if Less(v.ballot, x.maxBallot) || v.decree + 1 < x.accepted.decree
                     then {NotAccepted(r, m.from, x.accepted.decree, x.maxBallot)} else {};
      Effect(x, refused, {}, {})
    else if !IsNextDecree(v, x.accepted) then Effect(StartInitializing(x), {}, {}, {})
    else
      var x0 := if x.mode == StablePrimary && Less(x.maxBallot, v.ballot)
                then StartBeingStableSecondary(x) else x;
      var y := LogVote(x0, v);
      var z := if relinquish then y else StartBeingStableSecondary(y);
      if !reply then Effect(z, {}, {}, PassedBy(r, x, v))
      else if Less(v.ballot, y.maxBallot) then
        // logged although a higher ballot was promised, but not accepted
        Effect(z, {NotAccepted(r, m.from, v.decree, y.maxBallot)}, {}, PassedBy(r, x, v))
      else
        Effect(z, {VoteAccepted(r, m.from, v.decree, y.maxBallot)}, {Ack(r, v)}, PassedBy(r, x, v))
  }

  function HandleVoteAcceptedMsg(n: nat, r: nat, x: Replica, m: Message): Effect
    requires m.VoteAccepted?
  {
    if x.mode == StablePrimary && x.outstanding.Some?
       && IsSameDecree(m.decree, m.ballot, x.accepted.decree, x.maxBallot)
       && IsSameDecree(x.outstanding.value.decree, x.outstanding.value.ballot, x.accepted.decree, x.maxBallot) then
      var y := x.(responses := x.responses + {m.from});
      if |y.responses| >= QuorumSize(n) - 1 then
        Effect(y.(outstanding := None), {}, {}, {Execution(r, x.accepted.decree, x.accepted.command)})
      else Effect(y, {}, {}, {})
    else Effect(x, {}, {}, {})
  }

  /** LearnVotes giving up or running out of records. */
  function StopLearning(x: Replica, learnt: bool): Replica {
    var y := x.(learning := Idle);
    if learnt then StartBeingStableSecondary(y) else StartInitializing(y)
  }

  /** One record read by LearnVotes.  When the record skips the vote that would follow the accepted
      one, that vote is made up under the accepted ballot and logged, and the record is then read
      again; the real code does the second half without rereading. */
  function LearnRecord(r: nat, x: Replica, rec: Record): Effect
    requires x.learning.Reading?
  {
    match rec
    case PrepareRecord(decree, ballot) =>
      var y := if Less(x.maxBallot, ballot) then LogPrepare(x, decree, ballot) else x;
      Effect(y.(learning := x.learning.(next := x.learning.next + 1)), {}, {}, {})
    case VoteRecord(v) =>
      var last := x.learning.last;
      if last.Some?
        && (!IsNextDecree(v, last.value) || v.decree < x.accepted.decree || v.decree > x.accepted.decree + 1) then
        Effect(StopLearning(x, false), {}, {}, {})
      else if last.None? && v.decree != x.accepted.decree then
        Effect(StopLearning(x, false), {}, {}, {})
      else if Less(v.ballot, x.accepted.ballot) then
        Effect(x.(learning := x.learning.(next := x.learning.next + 1, last := Some(v))), {}, {}, {})
      else if !IsNextDecree(v, x.accepted) then
        var missing := Vote(v.decree, x.accepted.ballot, v.command);
        Effect(LogVote(x, missing), {}, {}, PassedBy(r, x, missing))
      else
        Effect(LogVote(x, v).(learning := x.learning.(next := x.learning.next + 1, last := Some(v))),
               {}, {}, PassedBy(r, x, v))
  }

  /** The decree index of the log: the position of the latest vote record of a decree. */
  function LatestVote(log: seq<Record>, decree: nat): Option<nat> {
    if log == [] then None
    else if log[|log| - 1].VoteRecord? && log[|log| - 1].vote.decree == decree then Some(|log| - 1)
    else LatestVote(log[..|log| - 1], decree)
  }

  /** RestoreState: the decree executed last, the accepted vote, the highest ballot and the votes
      executed while the log is read. */
  datatype Restored = Restored(executed: nat, accepted: Vote, maxBallot: Ballot, passed: set<Vote>)

  function RestoreRecord(st: Restored, rec: Record): Restored {
    match rec
    case PrepareRecord(decree, ballot) =>
      if decree <= st.executed then st else st.(maxBallot := MaxBallot(st.maxBallot, ballot))
    case VoteRecord(v) =>
      if v.decree <= st.executed then st
      else
        var runs := v.decree == st.accepted.decree + 1 && st.accepted.decree == st.executed + 1;
        Restored(if runs then st.executed + 1 else st.executed, v, MaxBallot(st.maxBallot, v.ballot),
                 if runs then st.passed + {st.accepted} else st.passed)
  }

  /** The decree a configuration's first checkpoint is taken at.  Bootstrapping writes one below
      decree 1; a configuration that starts at decree 0 has none, and counts decree 0 as executed. */
  function CheckpointedDecree(first: nat): nat {
    if first == 0 then 0 else first - 1
  }

  function RestoreState(first: nat, log: seq<Record>): Restored {
    if log == [] then Restored(CheckpointedDecree(first), InitialVote(first), NO_BALLOT, {})
    else RestoreRecord(RestoreState(first, log[..|log| - 1]), log[|log| - 1])
  }

  predicate NoVotes(log: seq<Record>) {
    forall rec <- log :: !rec.VoteRecord?
  }

  /** The replica of a configuration just created. */
  function Created(first: nat): Replica {
    Replica(Initializing, InitialVote(first), NO_BALLOT, [], [], false, None, InitialVote(first), 0, NO_BALLOT, {},
      Idle)
  }

  /** The replica after reading its log file back.  If the configuration has a checkpoint and the file
      holds no vote, the replica goes on at the beginning of the file numbered by its first decree: a new
      file the first time, and the file just read after that. */
  function Restart(first: nat, x: Replica): Replica {
    var st := RestoreState(first, Disk(x));
    var y := Created(first).(accepted := st.accepted, maxBallot := st.maxBallot, freshest := st.accepted,
      moved := x.moved);
    if first >= 1 && NoVotes(Disk(x)) then y.(stale := if x.moved then Disk(x) else [], moved := true)
    else y.(log := Disk(x))
  }
}
