/** The counters and semaphores by which threads wait for a node in LF.c: FreeCnt/FreeEvent for free
    nodes and UsedCnt/UsedEvent for messages, of stacks and queues alike.  A claimant takes one off the
    counter, then a node off the list; a supplier puts a node on the list, then one on the counter, and
    releases a token if the counter shows claimants waiting. */
module Supply {
  import opened Tally

  /** Where a thread is with respect to this counter. */
  datatype Pc =
    | Idle
    | Trying                          // claimed, about to pop a node it has reason to expect
    | Lacking                         // claimed, but found no node or no count: spins, waits or allocates
    | Spreading(left: nat, k: nat)    // claimed and allocated k nodes, left of which are still to be pushed
    | Counting                        // node pushed, counter not incremented yet
    | Growing(left: nat, k: nat)      // no claim, allocated k nodes, left of which are still to be pushed
    | Releasing(r: nat)               // counter incremented, r tokens to release

  /** The counter, the nodes on the list, the tokens in the semaphore, and the threads. */
  datatype Pool = Pool(cnt: int, nodes: nat, tokens: nat, threads: seq<Pc>)

  datatype Step =
    | Claim(t: nat)
    | Pop(t: nat)
    | Wait(t: nat)
    | GiveUp(t: nat)
    | Allocate(t: nat, k: nat)
    | Push(t: nat)
    | Add(t: nat)
    | Supply(t: nat)
    | Extend(t: nat, k: nat)
    | Increment(t: nat)
    | Release(t: nat)

  predicate Enabled(p: Pool, step: Step) {
    step.t < |p.threads| &&
    var pc := p.threads[step.t];
    match step
    case Claim(_) => pc.Idle?
    case Pop(_) => pc.Trying? || pc.Lacking?
    case Wait(_) => pc.Lacking? && p.tokens > 0
    case GiveUp(_) => pc.Lacking?
    case Allocate(_, k) => pc.Lacking? && k >= 1
    case Push(_) => (pc.Spreading? || pc.Growing?) && pc.left > 0
    case Add(_) => (pc.Spreading? || pc.Growing?) && pc.left == 0
    case Supply(_) => pc.Idle?
    case Extend(_, k) => pc.Idle? && k >= 1
    case Increment(_) => pc.Counting?
    case Release(_) => pc.Releasing?
  }

  function Min(a: int, b: int): int { if a < b then a else b }

  function Move(p: Pool, t: nat, pc: Pc): Pool
    requires t < |p.threads|
  {
    p.(threads := p.threads[t := pc])
  }

  function Released(r: nat): Pc { if r == 0 then Idle else Releasing(r) }

  /** The tokens the batch release gives: was is the counter before k nodes were added, and the
      thread that keeps one of them for its own claim does not count itself. */
  function Batch(was: int, k: nat, keeps: bool): nat {
    if keeps then (if was < -1 && k > 1 then Min(-was - 1, k - 1) else 0)
    else if was < 0 then Min(-was, k) else 0
  }

  function Effect(p: Pool, step: Step): Pool
    requires Enabled(p, step)
  {
    var t, pc := step.t, p.threads[step.t];
    match step
    case Claim(_) => Move(p, t, if p.cnt - 1 >= 0 then Trying else Lacking).(cnt := p.cnt - 1)
    case Pop(_) => if p.nodes > 0 then Move(p, t, Idle).(nodes := p.nodes - 1) else Move(p, t, Lacking)
    case Wait(_) => Move(p, t, Trying).(tokens := p.tokens - 1)
    case GiveUp(_) => Move(p, t, Idle).(cnt := p.cnt + 1)
    case Allocate(_, k) => Move(p, t, Spreading(k - 1, k))
    case Push(_) => Move(p, t, pc.(left := pc.left - 1)).(nodes := p.nodes + 1)
    case Add(_) => Move(p, t, Released(Batch(p.cnt, pc.k, pc.Spreading?))).(cnt := p.cnt + pc.k)
    case Supply(_) => Move(p, t, Counting).(nodes := p.nodes + 1)
    case Extend(_, k) => Move(p, t, Growing(k, k))
    case Increment(_) => Move(p, t, if p.cnt + 1 <= 0 then Releasing(1) else Idle).(cnt := p.cnt + 1)
    case Release(_) => Move(p, t, Idle).(tokens := p.tokens + pc.r)
  }

  predicate Moves(p: Pool, step: Step, p': Pool) {
    Enabled(p, step) && p' == Effect(p, step)
  }

  /** A list of n nodes, all counted. */
  predicate Created(p: Pool) {
    p.cnt == p.nodes && p.tokens == 0 && forall t :: 0 <= t < |p.threads| ==> p.threads[t] == Idle
  }

  predicate IsRun(states: seq<Pool>, steps: seq<Step>) {
    |states| == |steps| + 1 && Created(states[0]) && forall i ::
      0 <= i < |steps| ==> Moves(states[i], steps[i], states[i + 1])
  }

  // ---------------------------------------------------------------- what the counter promises

  predicate IsClaim(pc: Pc) { pc.Trying? || pc.Lacking? || pc.Spreading? }

  predicate IsAwake(pc: Pc) { pc.Trying? }

  /** Nodes a thread has pushed and not counted yet. */
  function UncountedOf(pc: Pc): nat {
    match pc
    case Counting => 1
    case Spreading(left, k) => if left < k then k - 1 - left else 0
    case Growing(left, k) => if left < k then k - left else 0
    case _ => 0
  }

  function PendingOf(pc: Pc): nat { if pc.Releasing? then pc.r else 0 }

  function Claims(p: Pool): nat { Count(p.threads, IsClaim) }

  /** Nodes on the list less those not counted yet; negative while claimants take uncounted nodes. */
  function Counted(p: Pool): int { p.nodes - Sum(p.threads, UncountedOf) }

  predicate CounterOk(p: Pool) { p.cnt == Counted(p) - Claims(p) }

  /** Tokens issued, tokens pending and claimants awake cover every claim a counted node could serve. */
  predicate NoLostWakeup(p: Pool) {
    Min(Counted(p), Claims(p)) <= p.tokens + Sum(p.threads, PendingOf) + Count(p.threads, IsAwake)
  }

  predicate BlockOk(pc: Pc) { (pc.Spreading? ==> pc.left < pc.k) && (pc.Growing? ==> pc.left <= pc.k) }

  predicate Inv(p: Pool) {
    CounterOk(p) && NoLostWakeup(p) && forall t :: 0 <= t < |p.threads| ==> BlockOk(p.threads[t])
  }

  lemma Recount(p: Pool, step: Step)
    requires Enabled(p, step)
    ensures var p' := Effect(p, step);
      && |p'.threads| == |p.threads| && p'.threads == p.threads[step.t := p'.threads[step.t]]
      && var a, b := p.threads[step.t], p'.threads[step.t];
      && Claims(p') + Bit(IsClaim(a)) == Claims(p) + Bit(IsClaim(b))
      && Count(p'.threads, IsAwake) + Bit(IsAwake(a)) == Count(p.threads, IsAwake) + Bit(IsAwake(b))
      && Sum(p'.threads, UncountedOf) + UncountedOf(a) == Sum(p.threads, UncountedOf) + UncountedOf(b)
      && Sum(p'.threads, PendingOf) + PendingOf(a) == Sum(p.threads, PendingOf) + PendingOf(b)
    ensures p.threads[step.t].Trying? ==> Count(p.threads, IsAwake) > 0
  {
    var p' := Effect(p, step);
    var t, pc := step.t, p'.threads[step.t];
    assert p'.threads == p.threads[t := pc];
    CountSet(p.threads, t, pc, IsClaim);
    CountSet(p.threads, t, pc, IsAwake);
    SumSet(p.threads, t, pc, UncountedOf);
    SumSet(p.threads, t, pc, PendingOf);
    if p.threads[t].Trying? { CountSome(p.threads, t, IsAwake); }
  }

  /** The batch release after an allocation. */
  lemma AddKeeps(p: Pool, step: Step)
    requires Inv(p) && Enabled(p, step) && step.Add?
    ensures Inv(Effect(p, step))
  {
    hide Count, Sum;
    Recount(p, step);
    assert BlockOk(p.threads[step.t]);
  }

  lemma ClaimantKeeps(p: Pool, step: Step)
    requires Inv(p) && Enabled(p, step) && (step.Claim? || step.Pop? || step.Wait? || step.GiveUp? || step.Allocate?)
    ensures Inv(Effect(p, step))
  {
    hide Count, Sum;
    Recount(p, step);
  }

  lemma SupplierKeeps(p: Pool, step: Step)
    requires Inv(p) && Enabled(p, step)
      && (step.Push? || step.Supply? || step.Extend? || step.Increment? || step.Release?)
    ensures Inv(Effect(p, step))
  {
    hide Count, Sum;
    Recount(p, step);
    assert BlockOk(p.threads[step.t]);
  }

  lemma StepKeeps(p: Pool, step: Step, p': Pool)
    requires Inv(p) && Moves(p, step, p')
    ensures Inv(p')
  {
    hide Inv, Effect, Enabled;
    if step.Add? { AddKeeps(p, step); }
    else if step.Claim? || step.Pop? || step.Wait? || step.GiveUp? || step.Allocate? { ClaimantKeeps(p, step); }
    else { SupplierKeeps(p, step); }
  }

  lemma CreatedInv(p: Pool)
    requires Created(p)
    ensures Inv(p)
  {
    CountNone(p.threads, IsClaim);
    SumNone(p.threads, UncountedOf);
  }

  lemma {:induction false} RunInv(states: seq<Pool>, steps: seq<Step>, i: nat)
    requires IsRun(states, steps) && i <= |steps|
    ensures Inv(states[i])
  {
    hide Inv, Moves, Created;
    if i == 0 {
      CreatedInv(states[0]);
    } else {
      RunInv(states, steps, i - 1);
      StepKeeps(states[i - 1], steps[i - 1], states[i]);
    }
  }

  /** On every run the counter is exactly the counted nodes less the outstanding claims, and whenever
      a counted node could serve a claimant, somebody is awake for it or a token is there or coming:
      through time-outs, spinning, and the batch releases after an allocation. */
  lemma SupplyReachesClaims(states: seq<Pool>, steps: seq<Step>)
    ensures IsRun(states, steps) ==> CounterOk(states[|steps|]) && NoLostWakeup(states[|steps|])
  {
    if IsRun(states, steps) { RunInv(states, steps, |steps|); }
  }

  predicate AllBlocked(p: Pool) {
    forall t :: 0 <= t < |p.threads| ==> p.threads[t].Idle? || p.threads[t].Lacking?
  }

  /** When every claimant is blocked and every node is counted, a node and a claimant mean a token. */
  lemma BlockedMeansToken(states: seq<Pool>, steps: seq<Step>)
    ensures IsRun(states, steps) ==>
      var p := states[|steps|];
      AllBlocked(p) && p.nodes > 0 && Lacking in p.threads ==> p.tokens > 0
  {
    if IsRun(states, steps) {
      var p := states[|steps|];
      RunInv(states, steps, |steps|);
      if AllBlocked(p) && p.nodes > 0 && Lacking in p.threads {
        CountNone(p.threads, IsAwake);
        SumNone(p.threads, PendingOf);
        SumNone(p.threads, UncountedOf);
        var t :| 0 <= t < |p.threads| && p.threads[t] == Lacking;
        CountSome(p.threads, t, IsClaim);
      }
    }
  }
}
