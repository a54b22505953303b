/** A restart from a log that holds promises and no vote: the replica goes on in a new log file, the next
    restart reads only that one, and the promises are forgotten.  Then two replicas can execute different
    commands, in a configuration that starts at any decree from 1 on. */
module Forgetting {
  import opened Basics
  import opened Ballots
  import opened Legislator
  import opened Consensus
  import opened ConsensusFacts
  import opened ConsensusRuns
  import opened ThreeReplicas
  import DecreeZero

  // ---------------------------------------------------------------- one restart

  /** A second restart restores the highest ballot of the first, whatever is in the log file, exactly
      unless the first one left a file with promises and no vote. */
  lemma SecondRestart(first: nat, x: Replica)
    ensures var y := Restart(first, x);
      Restart(first, y).maxBallot == y.maxBallot <==>
      !(first >= 1 && !x.moved && NoVotes(Disk(x)) && RestoreState(first, Disk(x)).maxBallot != NO_BALLOT)
  {
    var y := Restart(first, x);
    assert Disk(y) == if first >= 1 && NoVotes(Disk(x)) && !x.moved then [] else Disk(x);
  }

  // ---------------------------------------------------------------- the run

  const HIGH := Ballot(1, 3)
  const LOW := Ballot(2, 1)
  const TOP := Ballot(2, 3)
  const SEVEN := Command(7, 0)
  const EIGHT := Command(8, 0)

  function P(f: nat, b: Ballot): Record { PrepareRecord(f, b) }
  function V(v: Vote): Record { VoteRecord(v) }

  function High0(f: nat): Vote { Vote(f, HIGH, NO_COMMAND) }
  function High1(f: nat): Vote { Vote(f + 1, HIGH, EIGHT) }
  function Low0(f: nat): Vote { Vote(f, LOW, NO_COMMAND) }
  function Low1(f: nat): Vote { Vote(f + 1, LOW, SEVEN) }
  function Top1(f: nat): Vote { Vote(f + 1, TOP, EIGHT) }

  /** Replica 3, leading under its first ballot. */
  function Leader(f: nat): Replica {
    Created(f).(mode := StablePrimary, accepted := High0(f), maxBallot := HIGH, log := [P(f, HIGH)] + [V(High0(f))],
                outstanding := Some(High0(f)), prepDecree := f, prepBallot := HIGH)
  }

  /** Replica 1, which promises and then accepts. */
  function Promised(f: nat): Replica {
    Created(f).(mode := StableSecondary, maxBallot := HIGH, log := [P(f, HIGH)])
  }

  function Accepted(f: nat): Replica {
    Promised(f).(accepted := High0(f), log := [P(f, HIGH)] + [V(High0(f))])
  }

  lemma HighPrepares(f: nat) returns (s: System)
    ensures Stage(s, f, false, Promised(f), Created(f),
      Created(f).(mode := Preparing, maxBallot := HIGH, log := [P(f, HIGH)],
                  prepDecree := f, prepBallot := HIGH), {PrepareAccepted(1, 3, f, HIGH, InitialVote(f))}, {})
  {
    hide Reachable, Stage, Restarted;
    var w, x0, x1 := Created(f), Created(f).(mode := StableSecondary), Promised(f);
    var z := w.(mode := Preparing, maxBallot := HIGH, log := [P(f, HIGH)], prepDecree := f, prepBallot := HIGH);
    var m1, m2 := PrepareMsg(3, f, HIGH), PrepareAccepted(1, 3, f, HIGH, InitialVote(f));
    s := Start(f, false);
    s := Move(s, f, false, w, w, w, {}, {}, Prepare(3, NO_BALLOT), Effect(z, {m1}, {}, {}), {m1}, {});
    s := Move(s, f, false, w, w, z, {m1}, {}, BecomeSecondary(1), Effect(x0, {}, {}, {}), {m1}, {});
    s := Move(s, f, false, x0, w, z, {m1}, {}, Hear(1, m1), Effect(x1, {m2}, {}, {}), {m2}, {});
  }

  /** Replica 3 leads, and replica 1 accepts its vote for the first decree. */
  lemma HighLeads(f: nat) returns (s: System)
    ensures Stage(s, f, false, Accepted(f), Created(f), Leader(f), {VoteAccepted(1, 3, f, HIGH)}, {})
  {
    hide Reachable, Stage, Restarted;
    var w, x1, x2, z1 := Created(f), Promised(f), Accepted(f), Leader(f);
    var z := w.(mode := Preparing, maxBallot := HIGH, log := [P(f, HIGH)], prepDecree := f, prepBallot := HIGH);
    var m1, m2, m3 := PrepareAccepted(1, 3, f, HIGH, InitialVote(f)), VoteMsg(3, High0(f)), VoteAccepted(1, 3, f, HIGH);
    s := HighPrepares(f);
    s := Move(s, f, false, x1, w, z, {m1}, {}, Hear(3, m1), Effect(z1, {m2}, {Ack(3, High0(f))}, {}), {m2}, {});
    s := Move(s, f, false, x1, w, z1, {m2}, {}, Hear(1, m2), Effect(x2, {m3}, {Ack(1, High0(f))}, {}), {m3}, {});
  }

  function LeaderLog(f: nat): seq<Record> { [P(f, HIGH)] + [V(High0(f))] + [V(High1(f))] }

  function Ahead(f: nat): Replica {
    Leader(f).(accepted := High1(f), log := LeaderLog(f), outstanding := Some(High1(f)))
  }

  /** The first decree is decided, and replica 3 alone accepts its own vote 8 for the second. */
  lemma HighAlone(f: nat) returns (s: System)
    ensures Stage(s, f, false, Accepted(f), Created(f), Ahead(f), {}, {})
  {
    hide Reachable, Stage, Restarted;
    var x, w, z1, z2, z3 := Accepted(f), Created(f), Leader(f), Leader(f).(outstanding := None, responses := {1}),
      Ahead(f);
    var m, m' := VoteAccepted(1, 3, f, HIGH), VoteMsg(3, High1(f));
    s := HighLeads(f);
    s := Move(s, f, false, x, w, z1, {m}, {}, Hear(3, m), Effect(z2, {}, {}, {Execution(3, f, NO_COMMAND)}), {}, {});
    s := Move(s, f, false, x, w, z2, {}, {}, Propose(3, EIGHT), Effect(z3, {m'}, {Ack(3, High1(f))}, {}), {}, {});
  }

  function LowLog(f: nat): seq<Record> { [P(f, HIGH)] + [V(High0(f))] + [P(f, LOW)] }

  function Candidate(f: nat): Replica {
    Accepted(f).(mode := Preparing, freshest := High0(f), maxBallot := LOW, prepDecree := f, prepBallot := LOW,
      log := LowLog(f))
  }

  /** Replica 2 has promised the lower ballot, and nothing more. */
  function Follower(f: nat): Replica {
    Created(f).(mode := StableSecondary, maxBallot := LOW, log := [P(f, LOW)])
  }

  /** Replica 1 prepares, and replica 2 stands by. */
  lemma LowPrepares(f: nat) returns (s: System)
    ensures Stage(s, f, false, Candidate(f), Created(f).(mode := StableSecondary), Ahead(f), {PrepareMsg(1, f, LOW)},
      {})
  {
    hide Reachable, Stage, Restarted;
    var x0, x1, x2, y0, y1, z := Accepted(f), Accepted(f).(mode := Initializing), Candidate(f), Created(f),
      Created(f).(mode := StableSecondary), Ahead(f);
    var m := PrepareMsg(1, f, LOW);
    s := HighAlone(f);
    s := Move(s, f, false, x0, y0, z, {}, {}, Initialize(1), Effect(x1, {}, {}, {}), {}, {});
    s := Move(s, f, false, x1, y0, z, {}, {}, Prepare(1, NO_BALLOT), Effect(x2, {m}, {}, {}), {m}, {});
    s := Move(s, f, false, x2, y0, z, {m}, {}, BecomeSecondary(2), Effect(y1, {}, {}, {}), {m}, {});
  }

  function LowPrimary(f: nat): Replica {
    Candidate(f).(mode := StablePrimary, accepted := Low0(f), log := LowLog(f) + [V(Low0(f))],
      outstanding := Some(Low0(f)))
  }

  /** Replica 2 promises, and replica 1 proposes the empty batch again. */
  lemma LowLeads(f: nat) returns (s: System)
    ensures Stage(s, f, false, LowPrimary(f), Follower(f), Ahead(f), {VoteMsg(1, Low0(f))}, {})
  {
    hide Reachable, Stage, Restarted;
    var x2, x3, y1, y2, z := Candidate(f), LowPrimary(f), Created(f).(mode := StableSecondary), Follower(f), Ahead(f);
    var m1, m2, m3 := PrepareMsg(1, f, LOW), PrepareAccepted(2, 1, f, LOW, InitialVote(f)), VoteMsg(1, Low0(f));
    s := LowPrepares(f);
    s := Move(s, f, false, x2, y1, z, {m1}, {}, Hear(2, m1), Effect(y2, {m2}, {}, {}), {m2}, {});
    s := Move(s, f, false, x2, y2, z, {m2}, {}, Hear(1, m2), Effect(x3, {m3}, {Ack(1, Low0(f))}, {}), {m3}, {});
  }

  /** Replica 3 after its restart. */
  function Restored3(f: nat): Replica {
    Created(f).(accepted := High1(f), freshest := High1(f), maxBallot := HIGH, log := LeaderLog(f))
  }

  lemma LeaderRestarts(f: nat, x: Replica)
    requires f >= 1 && x.log == LeaderLog(f) && x.stale == [] && !x.moved
    ensures Restart(f, x) == Restored3(f)
  {
    var v0, v1 := High0(f), High1(f);
    assert Disk(x) == LeaderLog(f);
    assert LeaderLog(f)[1] == V(v0);
    RestoreAppended(f, [], P(f, HIGH));
    assert [] + [P(f, HIGH)] == [P(f, HIGH)];
    RestoreAppended(f, [P(f, HIGH)], V(v0));
    RestoreAppended(f, [P(f, HIGH)] + [V(v0)], V(v1));
  }

  function TopLog(f: nat): seq<Record> { LeaderLog(f) + [P(f + 1, TOP)] }

  function TopCandidate(f: nat): Replica {
    Restored3(f).(mode := Preparing, maxBallot := TOP, prepDecree := f + 1, prepBallot := TOP, log := TopLog(f))
  }

  /** Replica 3 restarts and prepares at the second decree, under a ballot above that of replica 1. */
  lemma TopPrepares(f: nat) returns (s: System)
    requires f >= 1
    ensures Stage(s, f, false, LowPrimary(f), Follower(f), TopCandidate(f),
      {VoteMsg(1, Low0(f)), PrepareMsg(3, f + 1, TOP)}, {})
  {
    hide Reachable, Stage, Restart, RestoreState;
    var x, y, z0, z1, z2 := LowPrimary(f), Follower(f), Ahead(f), Restored3(f), TopCandidate(f);
    var l0, m := VoteMsg(1, Low0(f)), PrepareMsg(3, f + 1, TOP);
    LeaderRestarts(f, z0);
    s := LowLeads(f);
    s := Move(s, f, false, x, y, z0, {l0}, {}, Crash(3), Restarted(f, 3, z0), {l0}, {});
    s := Move(s, f, false, x, y, z1, {l0}, {}, Prepare(3, LOW), Effect(z2, {m}, {}, {}), {l0, m}, {});
  }

  function TwicePromised(f: nat): Replica {
    Follower(f).(mode := Initializing, maxBallot := TOP, log := [P(f, LOW)] + [P(f + 1, TOP)])
  }

  function TopPrimary(f: nat): Replica {
    TopCandidate(f).(mode := StablePrimary, accepted := Top1(f), log := TopLog(f) + [V(Top1(f))],
      outstanding := Some(Top1(f)))
  }

  /** Replica 2 promises that one too, and replica 3 proposes 8 for the second decree again. */
  lemma TopLeads(f: nat) returns (s: System)
    requires f >= 1
    ensures Stage(s, f, false, LowPrimary(f), TwicePromised(f), TopPrimary(f),
      {VoteMsg(1, Low0(f)), VoteMsg(3, Top1(f))}, {})
  {
    hide Reachable, Stage, Restarted;
    var x, y0, y1, z2, z3 := LowPrimary(f), Follower(f), TwicePromised(f), TopCandidate(f), TopPrimary(f);
    var l0, m1, m2, m3 := VoteMsg(1, Low0(f)), PrepareMsg(3, f + 1, TOP),
      PrepareAccepted(2, 3, f + 1, TOP, InitialVote(f)), VoteMsg(3, Top1(f));
    s := TopPrepares(f);
    s := Move(s, f, false, x, y0, z2, {l0, m1}, {}, Hear(2, m1), Effect(y1, {m2}, {}, {}), {l0, m2}, {});
    s := Move(s, f, false, x, y1, z2, {l0, m2}, {}, Hear(3, m2), Effect(z3, {m3}, {Ack(3, Top1(f))}, {}), {l0, m3}, {});
  }

  /** Two restarts in a row, the first from promises alone, leave nothing of them. */
  lemma Forgotten(f: nat, x: Replica)
    requires f >= 1 && !x.moved && NoVotes(Disk(x))
    ensures Restart(f, Restart(f, x)) == Created(f).(moved := true) && Restarted(f, 2, Restart(f, x)).passed == {}
  {
    assert Disk(Restart(f, x)) == [];
  }

  /** Replica 2 restarts twice and stands by as if nothing had happened. */
  lemma Relapsed(f: nat) returns (s: System)
    requires f >= 1
    ensures Stage(s, f, false, LowPrimary(f), Created(f).(mode := StableSecondary, moved := true), TopPrimary(f),
                  {VoteMsg(1, Low0(f)), VoteMsg(3, Top1(f))}, {})
  {
    hide Reachable, Stage, Restart, RestoreState;
    var x, z, ms := LowPrimary(f), TopPrimary(f), {VoteMsg(1, Low0(f)), VoteMsg(3, Top1(f))};
    var y0 := TwicePromised(f);
    var y1, y2, y3 := Restart(f, y0), Created(f).(moved := true), Created(f).(mode := StableSecondary, moved := true);
    assert Disk(y0) == [P(f, LOW)] + [P(f + 1, TOP)];
    Forgotten(f, y0);
    s := TopLeads(f);
    s := Move(s, f, false, x, y0, z, ms, {}, Crash(2), Restarted(f, 2, y0), ms, {});
    assert y1.learning.Idle? by { RestartIdle(f, y0); }
    s := Move(s, f, false, x, y1, z, ms, {}, Crash(2), Restarted(f, 2, y1), ms, {});
    s := Move(s, f, false, x, y2, z, ms, {}, BecomeSecondary(2), Effect(y3, {}, {}, {}), ms, {});
  }

  lemma RestartIdle(f: nat, x: Replica)
    ensures Restart(f, x).learning.Idle?
  {
  }

  function Misled0(f: nat): Replica {
    Created(f).(mode := StableSecondary, moved := true, accepted := Low0(f), maxBallot := LOW, log := [V(Low0(f))])
  }

  /** Replica 2 accepts the lower ballot's vote for the first decree, which decides it there. */
  lemma LowDecides(f: nat) returns (s: System)
    requires f >= 1
    ensures Stage(s, f, false, LowPrimary(f).(outstanding := None, responses := {2}), Misled0(f), TopPrimary(f),
      {VoteMsg(3, Top1(f))}, {})
  {
    hide Reachable, Stage, Restarted;
    var x0, x1, z := LowPrimary(f), LowPrimary(f).(outstanding := None, responses := {2}), TopPrimary(f);
    var y0, y1 := Created(f).(mode := StableSecondary, moved := true), Misled0(f);
    var l0, t1, m := VoteMsg(1, Low0(f)), VoteMsg(3, Top1(f)), VoteAccepted(2, 1, f, LOW);
    s := Relapsed(f);
    s := Move(s, f, false, x0, y0, z, {l0, t1}, {}, Hear(2, l0), Effect(y1, {m}, {Ack(2, Low0(f))}, {}), {m, t1}, {});
    s := Move(s, f, false, x0, y1, z, {m, t1}, {}, Hear(1, m), Effect(x1, {}, {}, {Execution(1, f, NO_COMMAND)}), {t1},
      {});
  }

  function Misled1(f: nat): Replica {
    Misled0(f).(accepted := Low1(f), log := [V(Low0(f))] + [V(Low1(f))])
  }

  function LowAhead(f: nat): Replica {
    LowPrimary(f).(accepted := Low1(f), log := LowLog(f) + [V(Low0(f))] + [V(Low1(f))], outstanding := Some(Low1(f)))
  }

  /** Replica 1 proposes 7 for the second decree, and replica 2 accepts it. */
  lemma LowProposes(f: nat) returns (s: System)
    requires f >= 1
    ensures Stage(s, f, false, LowAhead(f), Misled1(f), TopPrimary(f),
      {VoteAccepted(2, 1, f + 1, LOW), VoteMsg(3, Top1(f))}, {})
  {
    hide Reachable, Stage, Restarted;
    var x1, x2, z := LowPrimary(f).(outstanding := None, responses := {2}), LowAhead(f), TopPrimary(f);
    var y1, y2 := Misled0(f), Misled1(f);
    var t1, m1, m2 := VoteMsg(3, Top1(f)), VoteMsg(1, Low1(f)), VoteAccepted(2, 1, f + 1, LOW);
    s := LowDecides(f);
    s := Move(s, f, false, x1, y1, z, {t1}, {}, Propose(1, SEVEN), Effect(x2, {m1}, {Ack(1, Low1(f))}, {}), {m1, t1},
      {});
    s := Move(s, f, false, x2, y1, z, {m1, t1}, {}, Hear(2, m1),
              Effect(y2, {m2}, {Ack(2, Low1(f))}, {Execution(2, f, NO_COMMAND)}), {m2, t1}, {});
  }

  /** Replica 1 executes 7; replica 2 then accepts 8 under the higher ballot. */
  lemma LowExecutes(f: nat) returns (s: System)
    requires f >= 1
    ensures Stage(s, f, false, LowAhead(f).(outstanding := None, responses := {2}),
                  Misled1(f).(accepted := Top1(f), maxBallot := TOP, log := [V(Low0(f))] + [V(Low1(f))] + [V(Top1(f))]),
                  TopPrimary(f), {VoteAccepted(2, 3, f + 1, TOP)}, {Execution(1, f + 1, SEVEN)})
  {
    hide Reachable, Stage, Restarted;
    var x2, x3, z := LowAhead(f), LowAhead(f).(outstanding := None, responses := {2}), TopPrimary(f);
    var y2, y3 := Misled1(f),
      Misled1(f).(accepted := Top1(f), maxBallot := TOP, log := [V(Low0(f))] + [V(Low1(f))] + [V(Top1(f))]);
    var t1, m1, m2, e := VoteMsg(3, Top1(f)), VoteAccepted(2, 1, f + 1, LOW), VoteAccepted(2, 3, f + 1, TOP),
      Execution(1, f + 1, SEVEN);
    s := LowProposes(f);
    s := Move(s, f, false, x2, y2, z, {m1, t1}, {}, Hear(1, m1), Effect(x3, {}, {}, {e}), {t1}, {e});
    s := Move(s, f, false, x3, y2, z, {t1}, {e}, Hear(2, t1), Effect(y3, {m2}, {Ack(2, Top1(f))}, {}), {m2}, {e});
  }

  /** Replica 3 executes 8 for the same decree. */
  lemma Disagreement(f: nat) returns (s: System)
    requires f >= 1
    ensures Reachable(s, false) && s.n == 3 && s.first == f
    ensures Execution(1, f + 1, SEVEN) in s.executed && Execution(3, f + 1, EIGHT) in s.executed
  {
    hide Reachable, Stage, Restarted;
    var x := LowAhead(f).(outstanding := None, responses := {2});
    var y := Misled1(f).(accepted := Top1(f), maxBallot := TOP, log := [V(Low0(f))] + [V(Low1(f))] + [V(Top1(f))]);
    var z0, z1 := TopPrimary(f), TopPrimary(f).(outstanding := None, responses := {2});
    var m, e, e' := VoteAccepted(2, 3, f + 1, TOP), Execution(1, f + 1, SEVEN), Execution(3, f + 1, EIGHT);
    s := LowExecutes(f);
    s := Move(s, f, false, x, y, z0, {m}, {e}, Hear(3, m), Effect(z1, {}, {}, {e'}), {}, {e, e'});
    StageExecuted(s, f, false, x, y, z1, {}, {e, e'});
  }

  // ---------------------------------------------------------------- when replicas agree

  /** Take the runs of a configuration whose first decree is first: all of them, or only the careful ones,
      on which no replica restarts from a log that holds promises and no vote.  Replicas agree on all of
      them exactly when the configuration starts at decree 1 or later and only careful runs are taken. */
  lemma AgreementExactly(first: nat, careful: bool)
    ensures (forall s :: Reachable(s, careful) && s.first == first ==> Agrees(s)) <==> first >= 1 && careful
  {
    hide Agrees, Init, Next, Forgets;
    if first >= 1 && careful {
      forall s | Reachable(s, careful) && s.first == first ensures Agrees(s) {
        var states, steps :| IsRun(states, steps) && states[|steps|] == s && (careful ==> NeverForgets(states, steps));
        FirstKept(states, steps, |steps|);
        ReplicasAgree(states, steps);
      }
    } else if first >= 1 {
      var s := Disagreement(first);
      NotAgreed(s, first + 1, SEVEN, EIGHT);
    } else {
      var s := DecreeZero.Disagreement();
      CarefulOrNot(s, careful);
      NotAgreed(s, 1, Command(7, 0), Command(8, 0));
    }
  }

  lemma CarefulOrNot(s: System, careful: bool)
    requires Reachable(s, true)
    ensures Reachable(s, careful)
  {
    hide IsRun, NeverForgets;
  }

  lemma NotAgreed(s: System, d: nat, c: Command, c': Command)
    requires Execution(1, d, c) in s.executed && Execution(3, d, c') in s.executed && c != c'
    ensures !Agrees(s)
  {
    var e, e' := Execution(1, d, c), Execution(3, d, c');
    assert e.decree == e'.decree && e.command != e'.command;
  }

  lemma {:induction false} FirstKept(states: seq<System>, steps: seq<Step>, i: nat)
    requires IsRun(states, steps) && i <= |steps|
    ensures states[i].first == states[0].first
  {
    hide Enabled, EffectOf, WellFormed, Init;
    if i > 0 {
      FirstKept(states, steps, i - 1);
      assert Next(states[i - 1], steps[i - 1], states[i - 1 + 1]);
    }
  }
}
