/** A configuration that starts at decree 0: replaying the log skips records of decree 0, a restarted
    replica forgets its promises, and two replicas can execute different commands. */
module DecreeZero {
  import opened Basics
  import opened Ballots
  import opened Legislator
  import opened Consensus
  import opened ConsensusFacts
  import opened ConsensusRuns
  import opened ThreeReplicas

  // ---------------------------------------------------------------- the run

  const LOW := Ballot(1, 1)
  const HIGH := Ballot(1, 3)
  const LOW0 := Vote(0, LOW, NO_COMMAND)
  const HIGH0 := Vote(0, HIGH, NO_COMMAND)
  const LOW1 := Vote(1, LOW, Command(7, 0))
  const HIGH1 := Vote(1, HIGH, Command(8, 0))

  function Secondary(accepted: Vote, maxBallot: Ballot, log: seq<Record>): Replica {
    Replica(StableSecondary, accepted, maxBallot, log, [], false, None, InitialVote(0), 0, NO_BALLOT, {}, Idle)
  }

  function Primary(ballot: Ballot, accepted: Vote, log: seq<Record>, outstanding: Option<Vote>,
      responses: set<nat>): Replica {
    Replica(StablePrimary, accepted, ballot, log, [], false, outstanding, InitialVote(0), 0, ballot, responses, Idle)
  }

  function Candidate(ballot: Ballot): Replica {
    Replica(Preparing, InitialVote(0), ballot, [PrepareRecord(0, ballot)], [], false, None, InitialVote(0), 0, ballot,
      {}, Idle)
  }

  const LOW_LOG := [PrepareRecord(0, LOW)]
  const HIGH_LOG := [PrepareRecord(0, HIGH)]
  const PROMISED_LOG := LOW_LOG + [PrepareRecord(0, HIGH)]
  const ACCEPTED_LOG := PROMISED_LOG + [VoteRecord(HIGH0)]
  const LOW_PRIMARY := Primary(LOW, LOW0, LOW_LOG + [VoteRecord(LOW0)], Some(LOW0), {})

  /** Replica 1 prepares while 2 stands by. */
  lemma LowPrepares() returns (s: System)
    ensures Stage(s, 0, true, Candidate(LOW), Secondary(InitialVote(0), NO_BALLOT, []), Created(0),
      {PrepareMsg(1, 0, LOW)}, {})
  {
    hide Reachable, Stage, Restarted;
    var x0, x1, y0 := Created(0), Candidate(LOW), Secondary(InitialVote(0), NO_BALLOT, []);
    var m1 := PrepareMsg(1, 0, LOW);
    s := Start(0, true);
    s := Move(s, 0, true, x0, x0, x0, {}, {}, BecomeSecondary(2), Effect(y0, {}, {}, {}), {}, {});
    s := Move(s, 0, true, x0, y0, x0, {}, {}, Prepare(1, NO_BALLOT), Effect(x1, {m1}, {}, {}), {m1}, {});
  }

  /** Replica 2 promises, and 1 proposes the empty batch for decree 0. */
  lemma LowLeads() returns (s: System)
    ensures Stage(s, 0, true, LOW_PRIMARY, Secondary(InitialVote(0), LOW, LOW_LOG), Created(0), {VoteMsg(1, LOW0)}, {})
  {
    hide Reachable, Stage, Restarted;
    var x1, z := Candidate(LOW), Created(0);
    var y0, y1 := Secondary(InitialVote(0), NO_BALLOT, []), Secondary(InitialVote(0), LOW, LOW_LOG);
    var m1, m2, m3 := PrepareMsg(1, 0, LOW), PrepareAccepted(2, 1, 0, LOW, InitialVote(0)), VoteMsg(1, LOW0);
    s := LowPrepares();
    s := Move(s, 0, true, x1, y0, z, {m1}, {}, Hear(2, m1), Effect(y1, {m2}, {}, {}), {m2}, {});
    s := Move(s, 0, true, x1, y1, z, {m2}, {}, Hear(1, m2), Effect(LOW_PRIMARY, {m3}, {Ack(1, LOW0)}, {}), {m3}, {});
  }

  /** Replica 3 does the same under a higher ballot, with 2 promising again. */
  lemma HighLeads() returns (s: System)
    ensures Stage(s, 0, true, LOW_PRIMARY, Secondary(InitialVote(0), HIGH, PROMISED_LOG),
                  Primary(HIGH, HIGH0, HIGH_LOG + [VoteRecord(HIGH0)], Some(HIGH0), {}),
                    {VoteMsg(1, LOW0), VoteMsg(3, HIGH0)}, {})
  {
    hide Reachable, Stage, Restarted;
    var x, y0, y1 := LOW_PRIMARY, Secondary(InitialVote(0), LOW, LOW_LOG),
      Secondary(InitialVote(0), HIGH, PROMISED_LOG);
    var z0, z1, z2 := Created(0), Candidate(HIGH),
      Primary(HIGH, HIGH0, HIGH_LOG + [VoteRecord(HIGH0)], Some(HIGH0), {});
    var l0, m1, m2, m3 := VoteMsg(1, LOW0), PrepareMsg(3, 0, HIGH), PrepareAccepted(2, 3, 0, HIGH, InitialVote(0)),
      VoteMsg(3, HIGH0);
    s := LowLeads();
    s := Move(s, 0, true, x, y0, z0, {l0}, {}, Prepare(3, NO_BALLOT), Effect(z1, {m1}, {}, {}), {l0, m1}, {});
    s := Move(s, 0, true, x, y0, z1, {l0, m1}, {}, Hear(2, m1), Effect(y1, {m2}, {}, {}), {l0, m2}, {});
    s := Move(s, 0, true, x, y1, z1, {l0, m2}, {}, Hear(3, m2), Effect(z2, {m3}, {Ack(3, HIGH0)}, {}), {l0, m3}, {});
  }

  const HIGH_PRIMARY := Primary(HIGH, HIGH1, HIGH_LOG + [VoteRecord(HIGH0)] + [VoteRecord(HIGH1)], Some(HIGH1), {})

  /** Decree 0 is decided under the higher ballot, and replica 3 proposes 8 for decree 1. */
  lemma HighProposes() returns (s: System)
    ensures Stage(s, 0, true, LOW_PRIMARY, Secondary(HIGH0, HIGH, ACCEPTED_LOG), HIGH_PRIMARY,
      {VoteMsg(1, LOW0), VoteMsg(3, HIGH1)}, {})
  {
    hide Reachable, Stage, Restarted;
    var x, y0, y1 := LOW_PRIMARY, Secondary(InitialVote(0), HIGH, PROMISED_LOG), Secondary(HIGH0, HIGH, ACCEPTED_LOG);
    var log := HIGH_LOG + [VoteRecord(HIGH0)];
    var z0, z1 := Primary(HIGH, HIGH0, log, Some(HIGH0), {}), Primary(HIGH, HIGH0, log, None, {2});
    var l0, m1, m2, m3 := VoteMsg(1, LOW0), VoteMsg(3, HIGH0), VoteAccepted(2, 3, 0, HIGH), VoteMsg(3, HIGH1);
    s := HighLeads();
    s := Move(s, 0, true, x, y0, z0, {l0, m1}, {}, Hear(2, m1), Effect(y1, {m2}, {Ack(2, HIGH0)}, {}), {l0, m2}, {});
    s := Move(s, 0, true, x, y1, z0, {l0, m2}, {}, Hear(3, m2), Effect(z1, {}, {}, {Execution(3, 0, NO_COMMAND)}),
      {l0}, {});
    s := Move(s, 0, true, x, y1, z1, {l0}, {}, Propose(3, Command(8, 0)),
      Effect(HIGH_PRIMARY, {m3}, {Ack(3, HIGH1)}, {}), {l0, m3}, {});
  }

  /** Reading its log back, a replica skips everything it ever promised or accepted for decree 0. */
  lemma PromisesForgotten(x: Replica)
    requires x.log == ACCEPTED_LOG && x.stale == [] && !x.moved
    ensures Restart(0, x) == Created(0).(log := ACCEPTED_LOG) && Restarted(0, 2, x).passed == {}
  {
    assert Disk(x) == ACCEPTED_LOG;
    RestoreAppended(0, [], PrepareRecord(0, LOW));
    assert [] + [PrepareRecord(0, LOW)] == LOW_LOG;
    RestoreAppended(0, LOW_LOG, PrepareRecord(0, HIGH));
    RestoreAppended(0, PROMISED_LOG, VoteRecord(HIGH0));
  }

  const LOW_LOG1 := LOW_LOG + [VoteRecord(LOW0)]
  const RELAPSED_LOG := ACCEPTED_LOG + [VoteRecord(LOW0)]

  /** Replica 2 crashes, restarts and stands by as if nothing had happened. */
  lemma Relapsed() returns (s: System)
    ensures Stage(s, 0, true, LOW_PRIMARY, Secondary(InitialVote(0), NO_BALLOT, ACCEPTED_LOG), HIGH_PRIMARY,
      {VoteMsg(1, LOW0), VoteMsg(3, HIGH1)}, {})
  {
    hide Reachable, Stage;
    var y0, y1, y2 := Secondary(HIGH0, HIGH, ACCEPTED_LOG), Created(0).(log := ACCEPTED_LOG),
      Secondary(InitialVote(0), NO_BALLOT, ACCEPTED_LOG);
    var x0, z, h1, m1 := LOW_PRIMARY, HIGH_PRIMARY, VoteMsg(3, HIGH1), VoteMsg(1, LOW0);
    s := HighProposes();
    PromisesForgotten(y0);
    s := Move(s, 0, true, x0, y0, z, {m1, h1}, {}, Crash(2), Effect(y1, {}, {}, {}), {m1, h1}, {});
    s := Move(s, 0, true, x0, y1, z, {m1, h1}, {}, BecomeSecondary(2), Effect(y2, {}, {}, {}), {m1, h1}, {});
  }

  /** After the restart replica 2 accepts the lower ballot's decree 0. */
  lemma LowAccepted() returns (s: System)
    ensures Stage(s, 0, true, Primary(LOW, LOW0, LOW_LOG1, None, {2}), Secondary(LOW0, LOW, RELAPSED_LOG), HIGH_PRIMARY,
                  {VoteMsg(3, HIGH1)}, {})
  {
    hide Reachable, Stage, Restarted;
    var x0, x1 := LOW_PRIMARY, Primary(LOW, LOW0, LOW_LOG1, None, {2});
    var y2, y3 := Secondary(InitialVote(0), NO_BALLOT, ACCEPTED_LOG), Secondary(LOW0, LOW, RELAPSED_LOG);
    var z, h1, m1, m2 := HIGH_PRIMARY, VoteMsg(3, HIGH1), VoteMsg(1, LOW0), VoteAccepted(2, 1, 0, LOW);
    s := Relapsed();
    s := Move(s, 0, true, x0, y2, z, {m1, h1}, {}, Hear(2, m1), Effect(y3, {m2}, {Ack(2, LOW0)}, {}), {m2, h1}, {});
    s := Move(s, 0, true, x0, y3, z, {m2, h1}, {}, Hear(1, m2), Effect(x1, {}, {}, {Execution(1, 0, NO_COMMAND)}),
      {h1}, {});
  }

  /** Replica 1 proposes 7 for decree 1. */
  lemma LowReturns() returns (s: System)
    ensures Stage(s, 0, true, Primary(LOW, LOW1, LOW_LOG1 + [VoteRecord(LOW1)], Some(LOW1), {}),
      Secondary(LOW0, LOW, RELAPSED_LOG),
                  HIGH_PRIMARY, {VoteMsg(1, LOW1), VoteMsg(3, HIGH1)}, {})
  {
    hide Reachable, Stage, Restarted;
    var x1, x2 := Primary(LOW, LOW0, LOW_LOG1, None, {2}),
      Primary(LOW, LOW1, LOW_LOG1 + [VoteRecord(LOW1)], Some(LOW1), {});
    var y, z, h1, m3 := Secondary(LOW0, LOW, RELAPSED_LOG), HIGH_PRIMARY, VoteMsg(3, HIGH1), VoteMsg(1, LOW1);
    s := LowAccepted();
    s := Move(s, 0, true, x1, y, z, {h1}, {}, Propose(1, Command(7, 0)), Effect(x2, {m3}, {Ack(1, LOW1)}, {}),
      {m3, h1}, {});
  }

  const LOW_LOG2 := LOW_LOG1 + [VoteRecord(LOW1)]

  /** Replica 2 accepts 7 for decree 1, and replica 1 executes it. */
  lemma LowExecutes() returns (s: System)
    ensures Stage(s, 0, true, Primary(LOW, LOW1, LOW_LOG2, None, {2}),
      Secondary(LOW1, LOW, RELAPSED_LOG + [VoteRecord(LOW1)]),
                  HIGH_PRIMARY, {VoteMsg(3, HIGH1)}, {Execution(1, 1, Command(7, 0))})
  {
    hide Reachable, Stage, Restarted;
    var x0, x1 := Primary(LOW, LOW1, LOW_LOG2, Some(LOW1), {}), Primary(LOW, LOW1, LOW_LOG2, None, {2});
    var y0, y1 := Secondary(LOW0, LOW, RELAPSED_LOG), Secondary(LOW1, LOW, RELAPSED_LOG + [VoteRecord(LOW1)]);
    var z, h1, m1, m2, e := HIGH_PRIMARY, VoteMsg(3, HIGH1), VoteMsg(1, LOW1), VoteAccepted(2, 1, 1, LOW),
      Execution(1, 1, Command(7, 0));
    s := LowReturns();
    s := Move(s, 0, true, x0, y0, z, {m1, h1}, {}, Hear(2, m1),
      Effect(y1, {m2}, {Ack(2, LOW1)}, {Execution(2, 0, NO_COMMAND)}), {m2, h1}, {});
    s := Move(s, 0, true, x0, y1, z, {m2, h1}, {}, Hear(1, m2), Effect(x1, {}, {}, {e}), {h1}, {e});
  }

  /** Replica 2 then accepts 8 under the higher ballot, and replica 3 executes that. */
  lemma Disagreement() returns (s: System)
    ensures Reachable(s, true) && s.n == 3 && s.first == 0 && Execution(1, 1, Command(7, 0)) in s.executed
      && Execution(3, 1, Command(8, 0)) in s.executed
  {
    hide Reachable, Stage, Restarted;
    var x, y0 := Primary(LOW, LOW1, LOW_LOG2, None, {2}), Secondary(LOW1, LOW, RELAPSED_LOG + [VoteRecord(LOW1)]);
    var y1 := Secondary(HIGH1, HIGH, RELAPSED_LOG + [VoteRecord(LOW1)] + [VoteRecord(HIGH1)]);
    var z0, z1 := HIGH_PRIMARY, HIGH_PRIMARY.(outstanding := None, responses := {2});
    var h1, m, e, e' := VoteMsg(3, HIGH1), VoteAccepted(2, 3, 1, HIGH), Execution(1, 1, Command(7, 0)),
      Execution(3, 1, Command(8, 0));
    s := LowExecutes();
    s := Move(s, 0, true, x, y0, z0, {h1}, {e}, Hear(2, h1), Effect(y1, {m}, {Ack(2, HIGH1)}, {}), {m}, {e});
    s := Move(s, 0, true, x, y1, z0, {m}, {e}, Hear(3, m), Effect(z1, {}, {}, {e'}), {m}, {e, e'});
    StageExecuted(s, 0, true, x, y1, z1, {m}, {e, e'});
  }
}
