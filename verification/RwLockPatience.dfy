/** Callers that neither spin nor time out: the writer event then goes to one waiting writer at a time, and
    the lock is safe on every run. */
module RwLockPatience {
  import opened Tally
  import opened RwLock
  import opened RwLockProof

  /** Whether a step is a spinning attempt, or one of a caller that asks for spinning. */
  predicate Spins(step: Step) {
    match step
    case AcquireShared(_, spins) => spins
    case RecheckReader(_, spins) => spins
    case AcquireExclusive(_, spins) => spins
    case TakeWriter(_, spins) => spins
    case UpgradeAtOnce(_, spins) => spins
    case Downgrade(_, spins) => spins
    case SpinShared(_, _) => true
    case SpinExclusive(_, _) => true
    case SpinUpgrade(_, _) => true
    case _ => false
  }

  predicate TimesOut(step: Step) {
    step.TimeoutReader? || step.TimeoutWriter?
  }

  /** What callers may do: spin, and give up waiting. */
  datatype Policy = Policy(spins: bool, timeouts: bool)

  predicate Allowed(policy: Policy, step: Step) {
    (Spins(step) ==> policy.spins) && (TimesOut(step) ==> policy.timeouts)
  }

  const PATIENT := Policy(false, false)

  // ---------------------------------------------------------------- the event goes one way

  predicate GaveUp(pc: Pc) { pc.ReadFailed? || pc.WriteFailed? || pc.UpFailed? }

  function Bits(w: Word): Word { w.(exWaiting := 0, shWaiting := 0) }

  /** Since a thread read w, others only registered. */
  predicate Grown(w: Word, now: Word) {
    Bits(w) == Bits(now) && w.exWaiting <= now.exWaiting && w.shWaiting <= now.shWaiting
  }

  /** A word that shows a pending upgrade is compared while it stands or never comes back. */
  predicate Reads(pc: Pc, now: Word) {
    && !GaveUp(pc) && (pc.WriteSeen? ==> Grown(pc.w, now))
    && (pc.WriteTrying? && pc.w.exUpgrade ==> pc.w.exWaiting + pc.w.shWaiting < now.exWaiting + now.shWaiting)
  }

  /** How often the writer event is set, about to be set or consumed. */
  function Signals(l: Lock): nat {
    Bit(l.event) + Count(l.threads, HoldsEvent)
  }

  /** At most once, and then the lock is idle and a writer waits. */
  predicate OneSignal(l: Lock) {
    !l.word.spin && Signals(l) <= 1 && (Signals(l) == 1 ==> l.word.exWaiting > 0 && !ActiveAll(l.word))
  }

  predicate Orderly(l: Lock) {
    OneSignal(l) && forall t :: 0 <= t < |l.threads| ==> Reads(l.threads[t], l.word)
  }

  lemma Holder(l: Lock, t: nat)
    requires FieldsOk(l) && t < |l.threads|
    ensures IsExclusive(l.threads[t]) ==> l.word.exActive
    ensures HoldsShared(l.threads[t]) ==> l.word.shActive > 0
    ensures IsWriter(l.threads[t]) ==> l.word.exWaiting > 0
    ensures IsUpgrader(l.threads[t]) ==> l.word.exUpgrade
  {
    hide Count;
    if IsExclusive(l.threads[t]) { CountSome(l.threads, t, IsExclusive); }
    if HoldsShared(l.threads[t]) { CountSome(l.threads, t, HoldsShared); }
    if IsWriter(l.threads[t]) { CountSome(l.threads, t, IsWriter); }
    if IsUpgrader(l.threads[t]) { CountSome(l.threads, t, IsUpgrader); }
  }

  lemma SignalHeld(l: Lock, t: nat)
    requires t < |l.threads| && HoldsEvent(l.threads[t])
    ensures Signals(l) >= 1
  {
    CountSome(l.threads, t, HoldsEvent);
  }

  lemma ReaderOrderly(l: Lock, step: Step, l': Lock)
    requires Inv(l) && Orderly(l) && Moves(l, step, l') && Allowed(PATIENT, step)
    requires step.AcquireShared? || step.RegisterShared? || step.WakeReader? || step.LeaveReader?
      || step.RecheckReader? || step.ReleaseReaders?
    ensures OneSignal(l') && Reads(l'.threads[step.t], l'.word)
  {
    hide Count, Sum, NoLostWakeup;
    Recounting(l, step);
    assert !GaveUp(l.threads[step.t]);
  }

  lemma WriterOrderly(l: Lock, step: Step, l': Lock)
    requires Inv(l) && Orderly(l) && Moves(l, step, l') && Allowed(PATIENT, step)
    requires step.AcquireExclusive? || step.RegisterExclusive? || step.WakeWriter? || step.LeaveWriter?
      || step.SetWriterEvent?
    ensures OneSignal(l') && Reads(l'.threads[step.t], l'.word)
  {
    hide Count, Sum, NoLostWakeup;
    Recounting(l, step);
    assert !GaveUp(l.threads[step.t]);
  }

  lemma HolderOrderly(l: Lock, step: Step, l': Lock)
    requires Inv(l) && Orderly(l) && Moves(l, step, l') && Allowed(PATIENT, step)
    requires step.UpgradeAtOnce? || step.RegisterUpgrade? || step.Downgrade? || step.ReleaseShared?
      || step.ReleaseExclusive?
    ensures OneSignal(l') && Reads(l'.threads[step.t], l'.word)
  {
    hide Count, Sum, NoLostWakeup;
    Holder(l, step.t);
    Recounting(l, step);
  }

  lemma LookOrderly(l: Lock, step: Step, l': Lock)
    requires Inv(l) && Orderly(l) && Moves(l, step, l') && (step.LookWriter? || step.VerifyWriter?)
    ensures OneSignal(l') && Reads(l'.threads[step.t], l'.word)
  {
    hide Count, Sum, NoLostWakeup;
    SignalHeld(l, step.t);
    Recounting(l, step);
    assert SeenOk(l.threads[step.t]) && Reads(l.threads[step.t], l.word);
  }

  lemma TakeOrderly(l: Lock, step: Step, l': Lock)
    requires Inv(l) && Orderly(l) && Moves(l, step, l') && Allowed(PATIENT, step) && step.TakeWriter?
    ensures OneSignal(l') && Reads(l'.threads[step.t], l'.word)
  {
    hide Count, Sum, NoLostWakeup;
    SignalHeld(l, step.t);
    Recounting(l, step);
  }

  lemma MoverOrderly(l: Lock, step: Step, l': Lock)
    requires Inv(l) && Orderly(l) && Moves(l, step, l') && Allowed(PATIENT, step)
    ensures OneSignal(l') && |l'.threads| == |l.threads| && Reads(l'.threads[step.t], l'.word)
  {
    hide Inv, Orderly, Enabled, Effect, OneSignal, Reads;
    OneMoves(l, step);
    if step.UpgradeAtOnce? || step.RegisterUpgrade? || step.Downgrade? || step.ReleaseShared?
      || step.ReleaseExclusive? {
      HolderOrderly(l, step, l');
    } else if step.LookWriter? || step.VerifyWriter? {
      LookOrderly(l, step, l');
    } else if step.TakeWriter? {
      TakeOrderly(l, step, l');
    } else if step.AcquireExclusive? || step.RegisterExclusive? || step.WakeWriter? || step.LeaveWriter?
      || step.SetWriterEvent? {
      WriterOrderly(l, step, l');
    } else {
      ReaderOrderly(l, step, l');
    }
  }

  /** While one thread has the event no other can do more than register. */
  lemma OthersRegister(l: Lock, step: Step, u: nat)
    requires Inv(l) && Orderly(l) && Enabled(l, step) && Allowed(PATIENT, step)
    requires u < |l.threads| && u != step.t && HoldsEvent(l.threads[u])
    ensures Grown(l.word, Effect(l, step).word)
  {
    hide Count, Sum, NoLostWakeup, FieldsOk;
    var t := step.t;
    CountSome(l.threads, u, HoldsEvent);
    if HoldsEvent(l.threads[t]) {
      CountSet(l.threads, t, Out, HoldsEvent);
      CountSome(l.threads[t := Out], u, HoldsEvent);
    }
    Holder(l, t);
    assert Reads(l.threads[t], l.word);
  }

  lemma OtherReads(l: Lock, step: Step, l': Lock, u: nat)
    requires Inv(l) && Orderly(l) && Moves(l, step, l') && Allowed(PATIENT, step) && u < |l.threads| && u != step.t
    ensures u < |l'.threads| && Reads(l'.threads[u], l'.word)
  {
    hide Inv, OneSignal, Enabled, Effect, Allowed;
    OneMoves(l, step);
    assert Reads(l.threads[u], l.word);
    if l.threads[u].WriteSeen? || l.threads[u].WriteTrying? { OthersRegister(l, step, u); }
  }

  lemma StepOrderly(l: Lock, step: Step, l': Lock)
    requires Inv(l) && Orderly(l) && Moves(l, step, l') && Allowed(PATIENT, step)
    ensures Orderly(l')
  {
    hide Inv, OneSignal, Reads, Enabled, Effect, Allowed;
    OneMoves(l, step);
    MoverOrderly(l, step, l');
    forall u | 0 <= u < |l'.threads| ensures Reads(l'.threads[u], l'.word) {
      if u != step.t { OtherReads(l, step, l', u); }
    }
  }

  lemma OrderlyNotStale(l: Lock, step: Step)
    requires Orderly(l)
    ensures !StaleTake(l, step)
  {
    if step.TakeWriter? && step.t < |l.threads| && (l.threads[step.t].WriteTrying? || l.threads[step.t].UpTrying?) {
      SignalHeld(l, step.t);
      assert Reads(l.threads[step.t], l.word);
    }
  }

  lemma CreatedOrderly(l: Lock)
    requires Created(l)
    ensures Orderly(l)
  {
    CountNone(l.threads, HoldsEvent);
  }

  predicate Obeys(policy: Policy, steps: seq<Step>) {
    forall step <- steps :: Allowed(policy, step)
  }

  lemma {:induction false} PatientRun(states: seq<Lock>, steps: seq<Step>, i: nat)
    requires IsRun(states, steps) && i <= |steps| && Obeys(PATIENT, steps)
    ensures Orderly(states[i]) && NoStaleTake(states, steps, i)
  {
    hide Orderly, Inv, Enabled, Effect, Created, StaleTake, Allowed;
    if i == 0 {
      CreatedOrderly(states[0]);
    } else {
      PatientRun(states, steps, i - 1);
      RunInv(states, steps, i - 1);
      assert Moves(states[i - 1], steps[i - 1], states[i - 1 + 1]) && steps[i - 1] in steps;
      StepOrderly(states[i - 1], steps[i - 1], states[i]);
      OrderlyNotStale(states[i - 1], steps[i - 1]);
    }
  }
}
