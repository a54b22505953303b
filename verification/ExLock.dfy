/** The exclusive lock of LF.c: one 32-bit state word that packs the released bit, the spin bit and the
    number of registered waiters, and an auto-reset event.  Any number of threads; one step per
    successful compare-and-swap, deciding read or event operation. */
module ExLock {
  import opened Tally

  const RELEASED := 1
  const SPIN := 4
  const WAITING := 8

  predicate IsReleased(state: int) { state % 2 == 1 }

  predicate MaySpin(state: int) { (state / 4) % 2 == 1 }

  /** state | EXLOCK_SPIN, or state & ~EXLOCK_SPIN. */
  function WithSpin(state: int, spins: bool): int {
    if MaySpin(state) == spins then state else if spins then state + SPIN else state - SPIN
  }

  /** Where a thread is; depth counts recursive acquires beyond the first. */
  datatype Pc =
    | Out
    | Owner(depth: nat)
    | Registered
    | Awake
    | TimedOut
    | Setting

  datatype Lock = Lock(state: int, event: bool, threads: seq<Pc>)

  datatype Step =
    | Acquire(t: nat, spins: bool)
    | Register(t: nat)
    | SpinIn(t: nat, spins: bool)
    | Wait(t: nat)
    | TimeOut(t: nat)
    | Leave(t: nat)
    | Recheck(t: nat, spins: bool)
    | Reenter(t: nat)
    | Release(t: nat)
    | SetEvent(t: nat)

  /** A free lock, or one that may be taken over from waiting threads. */
  predicate Grantable(state: int) {
    IsReleased(state) && (MaySpin(state) || state == RELEASED)
  }

  predicate Enabled(l: Lock, step: Step) {
    step.t < |l.threads| &&
    var pc := l.threads[step.t];
    match step
    case Acquire(_, _) => pc.Out? && Grantable(l.state)
    case Register(_) => pc.Out? && !Grantable(l.state)
    case SpinIn(_, _) => pc.Registered? && IsReleased(l.state)
    case Wait(_) => pc.Registered? && l.event
    case TimeOut(_) => pc.Registered?
    case Leave(_) => pc.TimedOut?
    case Recheck(_, _) => pc.Awake?
    case Reenter(_) => pc.Owner?
    case Release(_) => pc.Owner? && (pc.depth == 0 ==> !IsReleased(l.state))
    case SetEvent(_) => pc.Setting?
  }

  function Move(l: Lock, t: nat, pc: Pc, state: int): Lock
    requires t < |l.threads|
  {
    l.(threads := l.threads[t := pc], state := state)
  }

  function Effect(l: Lock, step: Step): Lock
    requires Enabled(l, step)
  {
    var t, pc, s := step.t, l.threads[step.t], l.state;
    match step
    case Acquire(_, spins) => Move(l, t, Owner(0), WithSpin(s, spins) - RELEASED)
    case Register(_) => Move(l, t, Registered, s + WAITING)
    case SpinIn(_, spins) => Move(l, t, Owner(0), WithSpin(s, spins) - WAITING - RELEASED)
    case Wait(_) => Move(l, t, Awake, s).(event := false)
    case TimeOut(_) => Move(l, t, TimedOut, s)
    case Leave(_) => Move(l, t, Out, s - WAITING)
    case Recheck(_, spins) =>
      if IsReleased(s) then Move(l, t, Owner(0), WithSpin(s, spins) - WAITING - RELEASED) else Move(l, t, Registered, s)
    case Reenter(_) => Move(l, t, Owner(pc.depth + 1), s)
    case Release(_) =>
      if pc.depth > 0 then Move(l, t, Owner(pc.depth - 1), s)
      else Move(l, t, if s >= WAITING then Setting else Out, s + RELEASED)
    case SetEvent(_) => Move(l, t, Out, s).(event := true)
  }

  predicate Moves(l: Lock, step: Step, l': Lock) {
    Enabled(l, step) && l' == Effect(l, step)
  }

  predicate Created(l: Lock) {
    l.state == RELEASED && !l.event && forall t :: 0 <= t < |l.threads| ==> l.threads[t] == Out
  }

  predicate IsRun(states: seq<Lock>, steps: seq<Step>) {
    |states| == |steps| + 1 && Created(states[0]) && forall i ::
      0 <= i < |steps| ==> Moves(states[i], steps[i], states[i + 1])
  }

  // ---------------------------------------------------------------- what the lock promises

  predicate IsOwner(pc: Pc) { pc.Owner? }

  predicate IsWaiter(pc: Pc) { pc.Registered? || pc.Awake? || pc.TimedOut? }

  predicate HoldsEvent(pc: Pc) { pc.Awake? || pc.Setting? }

  /** The word is the released bit, the spin bit and eight times the registered waiters, and it is
      released exactly when nobody owns the lock. */
  predicate WordOk(l: Lock) {
    && l.state ==
       Bit(Count(l.threads, IsOwner) == 0) + SPIN * Bit(MaySpin(l.state)) + WAITING * Count(l.threads, IsWaiter)
    && Count(l.threads, IsOwner) <= 1
  }

  /** A released lock with waiters has its event set, about to be set, or consumed by an awake waiter. */
  predicate NoLostWakeup(l: Lock) {
    Count(l.threads, IsOwner) == 0 && Count(l.threads, IsWaiter) > 0 ==> l.event || Count(l.threads, HoldsEvent) > 0
  }

  predicate Inv(l: Lock) { WordOk(l) && NoLostWakeup(l) }

  /** Reading the fields back from a word that is made of them. */
  lemma Unpack(released: nat, spin: nat, waiters: nat)
    requires released <= 1 && spin <= 1
    ensures var s := released + SPIN * spin + WAITING * waiters;
      && (IsReleased(s) <==> released == 1) && (MaySpin(s) <==> spin == 1) && (s >= WAITING <==> waiters > 0)
      && (s == RELEASED <==> released == 1 && spin == 0 && waiters == 0)
  {
    var s := released + SPIN * spin + WAITING * waiters;
    assert s / 4 == spin + 2 * waiters;
  }

  lemma Recount(l: Lock, step: Step)
    requires Enabled(l, step)
    ensures var l' := Effect(l, step);
      && l'.threads == l.threads[step.t := l'.threads[step.t]]
      && var a, b := l.threads[step.t], l'.threads[step.t];
      && Count(l'.threads, IsOwner) + Bit(IsOwner(a)) == Count(l.threads, IsOwner) + Bit(IsOwner(b))
      && Count(l'.threads, IsWaiter) + Bit(IsWaiter(a)) == Count(l.threads, IsWaiter) + Bit(IsWaiter(b))
      && Count(l'.threads, HoldsEvent) + Bit(HoldsEvent(a)) == Count(l.threads, HoldsEvent) + Bit(HoldsEvent(b))
  {
    var l' := Effect(l, step);
    var t, pc := step.t, l'.threads[step.t];
    assert l'.threads == l.threads[t := pc];
    CountSet(l.threads, t, pc, IsOwner);
    CountSet(l.threads, t, pc, IsWaiter);
    CountSet(l.threads, t, pc, HoldsEvent);
  }

  lemma StepKeeps(l: Lock, step: Step, l': Lock)
    requires Inv(l) && Moves(l, step, l')
    ensures Inv(l')
  {
    hide Count;
    Recount(l, step);
    Unpack(Bit(Count(l.threads, IsOwner) == 0), Bit(MaySpin(l.state)), Count(l.threads, IsWaiter));
    var spin := if step.Acquire? || step.SpinIn?
      || (step.Recheck? && IsReleased(l.state)) then step.spins else MaySpin(l.state);
    Unpack(Bit(Count(l'.threads, IsOwner) == 0), Bit(spin), Count(l'.threads, IsWaiter));
    assert l'.state == Bit(Count(l'.threads, IsOwner) == 0) + SPIN * Bit(spin) + WAITING * Count(l'.threads, IsWaiter);
  }

  lemma {:induction false} RunInv(states: seq<Lock>, steps: seq<Step>, i: nat)
    requires IsRun(states, steps) && i <= |steps|
    ensures Inv(states[i])
  {
    if i == 0 {
      CountNone(states[0].threads, IsOwner);
      CountNone(states[0].threads, IsWaiter);
    } else {
      hide Inv, Moves, Created;
      RunInv(states, steps, i - 1);
      StepKeeps(states[i - 1], steps[i - 1], states[i]);
    }
  }

  /** On every run at most one thread owns the lock, the word counts the threads, and no wake-up is
      lost through time-outs, spinning and take-overs. */
  lemma ExclusiveAndAwake(states: seq<Lock>, steps: seq<Step>)
    ensures IsRun(states, steps) ==> WordOk(states[|steps|]) && NoLostWakeup(states[|steps|])
  {
    if IsRun(states, steps) { RunInv(states, steps, |steps|); }
  }

  /** Releasing is never refused to an owner: its word is not released. */
  lemma OwnerMayRelease(states: seq<Lock>, steps: seq<Step>, t: nat)
    ensures IsRun(states, steps) && t < |states[|steps|].threads| && states[|steps|].threads[t].Owner? ==>
      !IsReleased(states[|steps|].state)
  {
    if IsRun(states, steps) && t < |states[|steps|].threads| && states[|steps|].threads[t].Owner? {
      var l := states[|steps|];
      RunInv(states, steps, |steps|);
      CountSome(l.threads, t, IsOwner);
      Unpack(Bit(Count(l.threads, IsOwner) == 0), Bit(MaySpin(l.state)), Count(l.threads, IsWaiter));
    }
  }
}
