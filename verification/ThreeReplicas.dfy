/** Runs of three replicas, one step at a time: what is needed to exhibit one. */
module ThreeReplicas {
  import opened Basics
  import opened Ballots
  import opened Legislator
  import opened Consensus
  import opened ConsensusRuns

  /** The state a run ends in; a careful run has no restart from a log of promises alone. */
  ghost predicate Reachable(s: System, careful: bool) {
    exists states, steps :: IsRun(states, steps) && states[|steps|] == s && (careful ==> NeverForgets(states, steps))
  }

  lemma Do(s: System, careful: bool, step: Step) returns (s': System)
    requires Reachable(s, careful) && WellFormed(s) && Enabled(s, step) && (careful ==> !Forgets(s, step))
    ensures Reachable(s', careful) && s' == Apply(s, step.r, EffectOf(s, step))
  {
    hide Enabled, EffectOf, Apply, WellFormed, Init, Forgets;
    var states, steps :| IsRun(states, steps) && states[|steps|] == s && (careful ==> NeverForgets(states, steps));
    s' := Apply(s, step.r, EffectOf(s, step));
    var states', steps' := states + [s'], steps + [step];
    assert Next(s, step, s');
    assert IsRun(states', steps') && states'[|steps'|] == s';
    if careful { assert NeverForgets(states', steps'); }
  }

  /** Where a run has got to: the replicas, some of the messages sent and some executions. */
  ghost predicate Stage(s: System, first: nat, careful: bool, x: Replica, y: Replica, z: Replica,
                        ms: set<Message>, es: set<Execution>)
  {
    && Reachable(s, careful) && WellFormed(s) && s.n == 3 && s.first == first
    && s.replicas == map[1 := x, 2 := y, 3 := z] && ms <= s.net && es <= s.executed
  }

  lemma Start(first: nat, careful: bool) returns (s: System)
    ensures var x := Created(first); Stage(s, first, careful, x, x, x, {}, {})
  {
    var x := Created(first);
    assert Members(3) == {1, 2, 3};
    s := System(3, first, map[1 := x, 2 := x, 3 := x], {VoteMsg(0, InitialVote(first))}, {}, {});
    var steps: seq<Step> := [];
    assert IsRun([s], steps) && [s][|steps|] == s;
    assert NeverForgets([s], steps);
  }

  /** What a step of a replica w other than learning does; the runs take no other steps. */
  function Local(first: nat, w: Replica, step: Step): Effect {
    match step
    case Prepare(r, seen) => StartPreparing(3, r, w, seen)
    case Receive(r, m, reply, relinquish) => Receiving(3, r, w, m, reply, relinquish)
    case Propose(r, command) => SendNextVote(3, r, w, command)
    case Initialize(r) => Effect(StartInitializing(w), {}, {}, {})
    case BecomeSecondary(r) => Effect(StartBeingStableSecondary(w), {}, {}, {})
    case _ => Restarted(first, step.r, w)
  }

  predicate CanTake(first: nat, careful: bool, w: Replica, step: Step, ms: set<Message>) {
    step.r in {1, 2, 3} && w.learning.Idle? &&
    match step
    case Prepare(_, _) => w.mode == Initializing
    case Receive(r, m, _, _) =>
      && m in ms && m.from in {1, 2, 3} && m.from != r && (m.VoteMsg? || m.PrepareMsg? || m.to == r)
      && (m.VoteMsg? ==> w.mode != Initializing)
    case Propose(_, _) => w.mode == StablePrimary && w.outstanding.None?
    case Initialize(_) => w.mode != StablePrimary
    case BecomeSecondary(_) => w.mode == Initializing
    case Crash(_) => careful ==> first == 0
    case _ => false
  }

  function Pick(r: nat, x: Replica, y: Replica, z: Replica): Replica {
    if r == 1 then x else if r == 2 then y else z
  }

  /** One step of a run, given what its handler does. */
  lemma Move(s: System, first: nat, careful: bool, x: Replica, y: Replica, z: Replica, ms: set<Message>,
      es: set<Execution>,
             step: Step, e: Effect, ms': set<Message>, es': set<Execution>) returns (s': System)
    requires Stage(s, first, careful, x, y, z, ms, es) && CanTake(first, careful, Pick(step.r, x, y, z), step, ms)
    requires Local(first, Pick(step.r, x, y, z), step) == e && ms' <= ms + e.sent && es' <= es + e.passed
    ensures Stage(s', first, careful, if step.r == 1 then e.replica else x, if step.r == 2 then e.replica else y,
                  if step.r == 3 then e.replica else z, ms', es')
  {
    hide Reachable, Enabled, EffectOf, Local, CanTake, Forgets;
    Allowed(s, first, careful, x, y, z, ms, es, step);
    s' := Do(s, careful, step);
  }

  lemma Allowed(s: System, first: nat, careful: bool, x: Replica, y: Replica, z: Replica, ms: set<Message>,
                es: set<Execution>, step: Step)
    requires Stage(s, first, careful, x, y, z, ms, es) && CanTake(first, careful, Pick(step.r, x, y, z), step, ms)
    ensures step.r in {1, 2, 3} && Enabled(s, step) && EffectOf(s, step) == Local(first, Pick(step.r, x, y, z), step)
    ensures careful ==> !Forgets(s, step)
  {
    hide Reachable, StartPreparing, SendNextVote, Receiving, Restarted, LogNewBallot;
    assert step.Receive? ==> IsMember(3, step.m.from);
  }

  function Hear(r: nat, m: Message): Step { Receive(r, m, true, false) }

  lemma StageExecuted(s: System, first: nat, careful: bool, x: Replica, y: Replica, z: Replica, ms: set<Message>,
      es: set<Execution>)
    requires Stage(s, first, careful, x, y, z, ms, es)
    ensures Reachable(s, careful) && s.n == 3 && s.first == first && es <= s.executed
  {
  }
}
