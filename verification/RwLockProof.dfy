/** Safety and wake-ups of the reader/writer lock on every run, and the one step that breaks them. */
module RwLockProof {
  import opened Tally
  import opened RwLock

  // ---------------------------------------------------------------- the invariant

  /** The fields of the word count the threads, and an active writer is alone. */
  predicate FieldsOk(l: Lock) {
    && l.word.exWaiting == Count(l.threads, IsWriter) && l.word.shWaiting == Count(l.threads, IsReader)
    && l.word.shActive == Count(l.threads, HoldsShared)
    && Bit(l.word.exActive) == Count(l.threads, IsExclusive) && Bit(l.word.exUpgrade) == Count(l.threads, IsUpgrader)
    && (l.word.exActive ==> l.word.shActive == 0 && !l.word.exUpgrade)
  }

  /** A thread goes on to verify only a word it read as busy. */
  predicate SeenOk(pc: Pc) {
    (pc.WriteSeen? ==> ActiveAllOrExUpgrade(pc.w)) && (pc.UpSeen? ==> ActiveAll(pc.w))
  }

  predicate Inv(l: Lock) {
    FieldsOk(l) && NoLostWakeup(l) && forall t :: 0 <= t < |l.threads| ==> SeenOk(l.threads[t])
  }

  lemma InvSafe(l: Lock)
    requires FieldsOk(l)
    ensures Safe(l)
  {
    CountWithin(l.threads, IsUpgrader, IsWriter);
  }

  /** How a move of thread t changes every count. */
  predicate Recounted(threads: seq<Pc>, t: nat, threads': seq<Pc>)
    requires t < |threads| && t < |threads'|
  {
    var a, b := threads[t], threads'[t];
    && Count(threads', IsWriter) + Bit(IsWriter(a)) == Count(threads, IsWriter) + Bit(IsWriter(b))
    && Count(threads', IsReader) + Bit(IsReader(a)) == Count(threads, IsReader) + Bit(IsReader(b))
    && Count(threads', HoldsShared) + Bit(HoldsShared(a)) == Count(threads, HoldsShared) + Bit(HoldsShared(b))
    && Count(threads', IsExclusive) + Bit(IsExclusive(a)) == Count(threads, IsExclusive) + Bit(IsExclusive(b))
    && Count(threads', IsUpgrader) + Bit(IsUpgrader(a)) == Count(threads, IsUpgrader) + Bit(IsUpgrader(b))
    && Count(threads', IsAwakeReader) + Bit(IsAwakeReader(a)) == Count(threads, IsAwakeReader) + Bit(IsAwakeReader(b))
    && Count(threads', HoldsEvent) + Bit(HoldsEvent(a)) == Count(threads, HoldsEvent) + Bit(HoldsEvent(b))
    && Sum(threads', PendingOf) + PendingOf(a) == Sum(threads, PendingOf) + PendingOf(b)
  }

  lemma Recount(threads: seq<Pc>, t: nat, pc: Pc)
    requires t < |threads|
    ensures Recounted(threads, t, threads[t := pc])
  {
    CountSet(threads, t, pc, IsWriter);
    CountSet(threads, t, pc, IsReader);
    CountSet(threads, t, pc, HoldsShared);
    CountSet(threads, t, pc, IsExclusive);
    CountSet(threads, t, pc, IsUpgrader);
    CountSet(threads, t, pc, IsAwakeReader);
    CountSet(threads, t, pc, HoldsEvent);
    SumSet(threads, t, pc, PendingOf);
  }

  lemma OneMoves(l: Lock, step: Step)
    requires Enabled(l, step)
    ensures step.t < |l.threads| == |Effect(l, step).threads|
      && Effect(l, step).threads == l.threads[step.t := Effect(l, step).threads[step.t]]
  {
  }

  lemma Recounting(l: Lock, step: Step)
    requires Enabled(l, step)
    ensures var l' := Effect(l, step); |l'.threads| == |l.threads| && Recounted(l.threads, step.t, l'.threads)
  {
    var l' := Effect(l, step);
    assert l'.threads == l.threads[step.t := l'.threads[step.t]];
    Recount(l.threads, step.t, l'.threads[step.t]);
  }

  /** A reader registering, waking or giving up; and getting in. */
  lemma ReaderKeeps(l: Lock, step: Step, l': Lock)
    requires Inv(l) && Moves(l, step, l') && !StaleTake(l, step)
    requires step.RegisterShared? || step.WakeReader? || step.TimeoutReader? || step.LeaveReader?
    ensures Inv(l')
  {
    hide Count, Sum;
    Recounting(l, step);
    InvSafe(l);
  }

  lemma ReaderInKeeps(l: Lock, step: Step, l': Lock)
    requires Inv(l) && Moves(l, step, l') && !StaleTake(l, step)
    requires step.AcquireShared? || step.SpinShared? || step.RecheckReader?
    ensures Inv(l')
  {
    hide Count, Sum;
    Recounting(l, step);
    InvSafe(l);
  }

  /** A writer arriving, waiting or getting in. */
  lemma WriterKeeps(l: Lock, step: Step, l': Lock)
    requires Inv(l) && Moves(l, step, l') && !StaleTake(l, step)
    requires step.AcquireExclusive? || step.RegisterExclusive? || step.SpinExclusive? || step.WakeWriter?
      || step.TimeoutWriter?
    ensures Inv(l')
  {
    hide Count, Sum;
    Recounting(l, step);
    InvSafe(l);
  }

  /** An awake writer or upgrader looking at the word. */
  lemma AwakeKeeps(l: Lock, step: Step, l': Lock)
    requires Inv(l) && Moves(l, step, l') && !StaleTake(l, step)
    requires step.LookWriter? || step.VerifyWriter?
    ensures Inv(l')
  {
    hide Count, Sum;
    Recounting(l, step);
    InvSafe(l);
  }

  /** An awake writer or upgrader taking the lock. */
  lemma TakeKeeps(l: Lock, step: Step, l': Lock)
    requires Inv(l) && Moves(l, step, l') && !StaleTake(l, step)
    requires step.TakeWriter?
    ensures Inv(l')
  {
    hide Count, Sum;
    Recounting(l, step);
    InvSafe(l);
  }

  /** A writer or upgrader giving up. */
  lemma LeaveKeeps(l: Lock, step: Step, l': Lock)
    requires Inv(l) && Moves(l, step, l') && !StaleTake(l, step)
    requires step.LeaveWriter?
    ensures Inv(l')
  {
    hide Count, Sum;
    Recounting(l, step);
    InvSafe(l);
  }

  /** Upgrades and downgrades. */
  lemma UpgradeKeeps(l: Lock, step: Step, l': Lock)
    requires Inv(l) && Moves(l, step, l') && !StaleTake(l, step)
    requires step.UpgradeAtOnce? || step.RegisterUpgrade? || step.SpinUpgrade? || step.Downgrade?
    ensures Inv(l')
  {
    hide Count, Sum;
    Recounting(l, step);
    InvSafe(l);
  }

  /** Releases and the signals after them. */
  lemma ReleaseKeeps(l: Lock, step: Step, l': Lock)
    requires Inv(l) && Moves(l, step, l') && !StaleTake(l, step)
    requires step.ReleaseShared? || step.ReleaseExclusive?
    ensures Inv(l')
  {
    hide Count, Sum;
    Recounting(l, step);
    InvSafe(l);
  }

  lemma SignalKeeps(l: Lock, step: Step, l': Lock)
    requires Inv(l) && Moves(l, step, l') && !StaleTake(l, step)
    requires step.SetWriterEvent? || step.ReleaseReaders?
    ensures Inv(l')
  {
    hide Count, Sum;
    Recounting(l, step);
    InvSafe(l);
  }

  lemma StepKeeps(l: Lock, step: Step, l': Lock)
    requires Inv(l) && Moves(l, step, l') && !StaleTake(l, step)
    ensures Inv(l')
  {
    hide Inv, Moves, StaleTake;
    if step.RegisterShared? || step.WakeReader? || step.TimeoutReader? || step.LeaveReader? {
      ReaderKeeps(l, step, l');
    }
    else if step.AcquireShared? || step.SpinShared? || step.RecheckReader? {
      ReaderInKeeps(l, step, l');
    }
    else if step.SetWriterEvent? || step.ReleaseReaders? {
      SignalKeeps(l, step, l');
    }
    else if step.AcquireExclusive? || step.RegisterExclusive? || step.SpinExclusive? || step.WakeWriter?
      || step.TimeoutWriter? {
      WriterKeeps(l, step, l');
    }
    else if step.LookWriter? || step.VerifyWriter? {
      AwakeKeeps(l, step, l');
    }
    else if step.TakeWriter? {
      TakeKeeps(l, step, l');
    }
    else if step.LeaveWriter? {
      LeaveKeeps(l, step, l');
    }
    else if step.UpgradeAtOnce? || step.RegisterUpgrade? || step.SpinUpgrade? || step.Downgrade? {
      UpgradeKeeps(l, step, l');
    }
    else { ReleaseKeeps(l, step, l'); }
  }

  // ---------------------------------------------------------------- runs

  lemma CreatedInv(l: Lock)
    requires Created(l)
    ensures Inv(l)
  {
    CountNone(l.threads, IsWriter);
    CountNone(l.threads, IsReader);
    CountNone(l.threads, HoldsShared);
    CountNone(l.threads, IsExclusive);
    CountNone(l.threads, IsUpgrader);
  }

  predicate NoStaleTake(states: seq<Lock>, steps: seq<Step>, i: nat)
    requires i <= |steps| <= |states|
  {
    forall j :: 0 <= j < i ==> !StaleTake(states[j], steps[j])
  }

  lemma {:induction false} RunInv(states: seq<Lock>, steps: seq<Step>, i: nat)
    requires IsRun(states, steps) && i <= |steps| && NoStaleTake(states, steps, i)
    ensures Inv(states[i])
  {
    hide Inv, Moves, Created, StaleTake;
    if i == 0 {
      CreatedInv(states[0]);
    } else {
      RunInv(states, steps, i - 1);
      StepKeeps(states[i - 1], steps[i - 1], states[i]);
    }
  }

  /** A stale take breaks the lock at once. */
  lemma StaleTakeBreaks(l: Lock, step: Step, l': Lock)
    requires Inv(l) && Moves(l, step, l') && StaleTake(l, step)
    ensures !Safe(l')
  {
    hide Count, Sum;
    Recounting(l, step);
    CountSome(l.threads, step.t, IsWriter);
    if l.threads[step.t].UpTrying? { CountSome(l.threads, step.t, IsUpgrader); }
  }

  /** On every run the lock excludes as it should in every state exactly when no awake writer ever
      takes a word it read as busy. */
  lemma SafeExactly(states: seq<Lock>, steps: seq<Step>)
    ensures IsRun(states, steps) ==>
      ((forall i :: 0 <= i <= |steps| ==> Safe(states[i])) <==> NoStaleTake(states, steps, |steps|))
  {
    if IsRun(states, steps) {
      hide Safe, Inv, Moves, StaleTake, Created;
      if NoStaleTake(states, steps, |steps|) {
        forall i | 0 <= i <= |steps| ensures Safe(states[i]) {
          RunInv(states, steps, i);
          InvFields(states[i]);
          InvSafe(states[i]);
        }
      } else {
        var i := FirstStale(states, steps, |steps|);
        RunInv(states, steps, i);
        StaleTakeBreaks(states[i], steps[i], states[i + 1]);
      }
    }
  }

  lemma InvFields(l: Lock)
    requires Inv(l)
    ensures FieldsOk(l) && NoLostWakeup(l)
  {
  }

  lemma {:induction false} FirstStale(states: seq<Lock>, steps: seq<Step>, n: nat) returns (i: nat)
    requires n <= |steps| <= |states| && !NoStaleTake(states, steps, n)
    ensures i < n && StaleTake(states[i], steps[i]) && NoStaleTake(states, steps, i)
    decreases n
  {
    hide StaleTake;
    if NoStaleTake(states, steps, n - 1) { i := n - 1; } else { i := FirstStale(states, steps, n - 1); }
  }

  /** No wake-up is lost on such a run, through time-outs, spinning, upgrade hand-off and downgrade. */
  lemma WakeupsKept(states: seq<Lock>, steps: seq<Step>)
    ensures IsRun(states, steps) && NoStaleTake(states, steps, |steps|) ==> NoLostWakeup(states[|steps|])
  {
    if IsRun(states, steps) && NoStaleTake(states, steps, |steps|) {
      RunInv(states, steps, |steps|);
      InvFields(states[|steps|]);
    }
  }

  /** An upgrader whose wait times out can take its shared lock back: no writer is active. */
  lemma UpgraderRetakes(states: seq<Lock>, steps: seq<Step>, t: nat)
    ensures IsRun(states, steps) && NoStaleTake(states, steps, |steps|) && t < |states[|steps|].threads| ==>
      IsUpgrader(states[|steps|].threads[t]) ==> states[|steps|].word.exUpgrade && !states[|steps|].word.exActive
  {
    if IsRun(states, steps) && NoStaleTake(states, steps, |steps|) && t < |states[|steps|].threads|
      && IsUpgrader(states[|steps|].threads[t]) {
      RunInv(states, steps, |steps|);
      InvFields(states[|steps|]);
      CountSome(states[|steps|].threads, t, IsUpgrader);
    }
  }
}
