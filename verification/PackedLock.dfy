/** The reader/writer lock run on its packed words: every step's macros, in the order of the code, do to
    the words what the step does to the fields, as long as there are fewer than 2^20 threads. */
module PackedLock {
  import opened Tally
  import opened LockWords
  import opened RwLock
  import RwLockProof

  /** A live lock is not disabled. */
  function Live(w: Word): Fields { Fields(w, false) }

  // ---------------------------------------------------------------- the steps on packed words

  /** The spin flag is cleared and set again if the caller asks for it. */
  function Spin(s: Words, spins: bool): Words {
    if spins then SetSpinWait(ClrSpinWait(s)) else ClrSpinWait(s)
  }

  function Grant(s: Words, spins: bool): Words {
    IncShActive(if !spins then ClrSpinWait(s) else if TstShActive(s) == 0 then SetSpinWait(s) else s)
  }

  function Update(s: Words, pc: Pc, step: Step): Words {
    match step
    case AcquireShared(_, spins) => Grant(s, spins)
    case RegisterShared(_) => IncShWaiting(s)
    case SpinShared(_, spins) => DecShWaiting(Grant(s, spins))
    case LeaveReader(_) => DecShWaiting(s)
    case RecheckReader(_, spins) => if TstExAll(s) != 0 then s else DecShWaiting(Grant(s, spins))
    case AcquireExclusive(_, spins) => Spin(SetExActive(s), spins)
    case RegisterExclusive(_) => IncExWaiting(s)
    case SpinExclusive(_, spins) => Spin(DecExWaiting(SetExActive(s)), spins)
    case LeaveWriter(_) =>
      if pc.WriteFailed? then DecExWaiting(s) else IncShActive(ClrExUpgrade(DecExWaiting(s)))
    case TakeWriter(_, spins) =>
      if pc.WriteTrying? && s == Pack(Live(pc.w)) then Spin(DecExWaiting(SetExActive(s)), spins)
      else if pc.UpTrying? && s == Pack(Live(pc.w)) then Spin(ClrExUpgrade(DecExWaiting(SetExActive(s))), spins)
      else s
    case UpgradeAtOnce(_, spins) => Spin(SetExActive(DecShActive(s)), spins)
    case RegisterUpgrade(_) => IncExWaiting(SetExUpgrade(DecShActive(s)))
    case SpinUpgrade(_, spins) => Spin(ClrExUpgrade(DecExWaiting(SetExActive(s))), spins)
    case Downgrade(_, spins) => IncShActive(Spin(ClrExActive(s), spins))
    case ReleaseShared(_) => DecShActive(s)
    case ReleaseExclusive(_) => ClrExActive(s)
    case _ => s
  }

  // ---------------------------------------------------------------- one step

  lemma SpinPacked(w: Word, spins: bool)
    requires Fits(Live(w))
    ensures Spin(Pack(Live(w)), spins) == Pack(Live(w.(spin := spins)))
  {
    hide Pack, SetSpinWait, ClrSpinWait;
    ClearFlags(Live(w));
    SetFlags(Live(w.(spin := false)));
  }

  lemma GrantSpin(w: Word, spins: bool)
    requires Fits(Live(w))
    ensures (if !spins then ClrSpinWait(Pack(Live(w))) else if TstShActive(Pack(Live(w))) == 0
      then SetSpinWait(Pack(Live(w)))
             else Pack(Live(w))) == Pack(Live(w.(spin := Granted(w, spins).spin)))
  {
    hide Pack, SetSpinWait, ClrSpinWait, TstShActive;
    if !spins { ClearFlags(Live(w)); } else { ReadersRead(Live(w)); SetFlags(Live(w)); }
  }

  lemma GrantPacked(w: Word, spins: bool)
    requires Fits(Live(w)) && w.shActive + 1 < LIMIT
    ensures Grant(Pack(Live(w)), spins) == Pack(Live(Granted(w, spins)))
  {
    hide Pack, SetSpinWait, ClrSpinWait, TstShActive, IncShActive;
    GrantSpin(w, spins);
    CountActive(Live(w.(spin := Granted(w, spins).spin)));
  }

  lemma GrantWaiting(w: Word, spins: bool)
    requires Fits(Live(w)) && w.shActive + 1 < LIMIT && w.shWaiting > 0
    ensures DecShWaiting(Grant(Pack(Live(w)), spins)) == Pack(Live(Granted(w, spins).(shWaiting := w.shWaiting - 1)))
  {
    hide Pack, Grant, DecShWaiting;
    GrantPacked(w, spins);
    UncountReader(Live(Granted(w, spins)));
  }

  lemma TakePacked(w: Word, spins: bool)
    requires Fits(Live(w)) && w.exWaiting > 0
    ensures DecExWaiting(SetExActive(Pack(Live(w)))) == Pack(Live(w.(exActive := true, exWaiting := w.exWaiting - 1)))
    ensures Spin(DecExWaiting(SetExActive(Pack(Live(w)))), spins) ==
            Pack(Live(w.(exActive := true, exWaiting := w.exWaiting - 1, spin := spins)))
    ensures Spin(ClrExUpgrade(DecExWaiting(SetExActive(Pack(Live(w))))), spins) ==
            Pack(Live(w.(exActive := true, exWaiting := w.exWaiting - 1, exUpgrade := false, spin := spins)))
  {
    hide Pack, SetExActive, DecExWaiting, ClrExUpgrade, Spin;
    SetFlags(Live(w));
    CountWriter(Live(w.(exActive := true)));
    var w' := w.(exActive := true, exWaiting := w.exWaiting - 1);
    ClearFlags(Live(w'));
    SpinPacked(w', spins);
    SpinPacked(w'.(exUpgrade := false), spins);
  }

  lemma LeavePacked(w: Word)
    requires Fits(Live(w)) && w.exWaiting > 0
    ensures DecExWaiting(Pack(Live(w))) == Pack(Live(w.(exWaiting := w.exWaiting - 1)))
    ensures w.shActive + 1 < LIMIT ==>
            IncShActive(ClrExUpgrade(DecExWaiting(Pack(Live(w))))) ==
            Pack(Live(w.(exWaiting := w.exWaiting - 1, exUpgrade := false, shActive := w.shActive + 1)))
  {
    hide Pack, IncShActive, DecExWaiting, ClrExUpgrade;
    CountWriter(Live(w));
    ClearFlags(Live(w.(exWaiting := w.exWaiting - 1)));
    CountActive(Live(w.(exWaiting := w.exWaiting - 1, exUpgrade := false)));
  }

  lemma UpgradePacked(w: Word, spins: bool)
    requires Fits(Live(w)) && w.shActive > 0
    ensures Spin(SetExActive(DecShActive(Pack(Live(w)))), spins) ==
            Pack(Live(w.(exActive := true, shActive := w.shActive - 1, spin := spins)))
    ensures w.exWaiting + 1 < LIMIT ==>
            IncExWaiting(SetExUpgrade(DecShActive(Pack(Live(w))))) ==
            Pack(Live(w.(shActive := w.shActive - 1, exUpgrade := true, exWaiting := w.exWaiting + 1)))
  {
    hide Pack, SetExActive, SetExUpgrade, DecShActive, IncExWaiting, Spin;
    CountActive(Live(w));
    SetFlags(Live(w.(shActive := w.shActive - 1)));
    SpinPacked(w.(shActive := w.shActive - 1, exActive := true), spins);
    CountWriter(Live(w.(shActive := w.shActive - 1, exUpgrade := true)));
  }

  lemma DowngradePacked(w: Word, spins: bool)
    requires Fits(Live(w)) && w.shActive + 1 < LIMIT
    ensures IncShActive(Spin(ClrExActive(Pack(Live(w))), spins)) ==
            Pack(Live(w.(exActive := false, spin := spins, shActive := w.shActive + 1)))
  {
    hide Pack, ClrExActive, IncShActive, Spin;
    ClearFlags(Live(w));
    SpinPacked(w.(exActive := false), spins);
    CountActive(Live(w.(exActive := false, spin := spins)));
  }

  /** The counters never exceed the number of threads. */
  lemma CountersFit(l: Lock)
    requires RwLockProof.Inv(l) && |l.threads| < LIMIT
    ensures Fits(Live(l.word))
  {
    CountBound(l.threads, IsWriter);
    CountBound(l.threads, IsReader);
    CountBound(l.threads, HoldsShared);
  }

  /** A thread that is about to leave a count is in it. */
  lemma CountedIn(l: Lock, t: nat)
    requires RwLockProof.Inv(l) && t < |l.threads|
    ensures IsWriter(l.threads[t]) ==> l.word.exWaiting > 0
    ensures IsReader(l.threads[t]) ==> l.word.shWaiting > 0
    ensures HoldsShared(l.threads[t]) ==> l.word.shActive > 0
  {
    if IsWriter(l.threads[t]) { CountSome(l.threads, t, IsWriter); }
    if IsReader(l.threads[t]) { CountSome(l.threads, t, IsReader); }
    if HoldsShared(l.threads[t]) { CountSome(l.threads, t, HoldsShared); }
  }

  /** The words the threads have read are packed too, so comparing words is comparing fields. */
  predicate ReadFit(l: Lock) {
    forall t :: 0 <= t < |l.threads| ==> ReadFits(l.threads[t])
  }

  predicate ReadFits(pc: Pc) {
    (pc.WriteSeen? || pc.WriteTrying? || pc.UpSeen? || pc.UpTrying?) ==> Fits(Live(pc.w))
  }

  lemma SamePacked(w: Word, v: Word)
    requires Fits(Live(w)) && Fits(Live(v))
    ensures Pack(Live(w)) == Pack(Live(v)) <==> w == v
  {
    hide Pack, Unpack;
    UnpackPack(Live(w));
    UnpackPack(Live(v));
  }

  predicate ForReaders(step: Step) {
    step.AcquireShared? || step.RegisterShared? || step.SpinShared? || step.LeaveReader? || step.RecheckReader?
  }

  lemma ReaderPacked(l: Lock, step: Step)
    requires RwLockProof.Inv(l) && Enabled(l, step) && ForReaders(step)
    requires Fits(Live(l.word)) && Fits(Live(Effect(l, step).word))
    ensures Pack(Live(Effect(l, step).word)) == Update(Pack(Live(l.word)), l.threads[step.t], step)
  {
    hide Pack, Grant, TstExAll, RwLockProof.Inv, IncShWaiting, DecShWaiting;
    CountedIn(l, step.t);
    var w := l.word;
    TestsRead(Live(w));
    match step
    case AcquireShared(_, spins) => GrantPacked(w, spins);
    case RegisterShared(_) => CountReader(Live(w));
    case SpinShared(_, spins) => GrantWaiting(w, spins);
    case LeaveReader(_) => UncountReader(Live(w));
    case RecheckReader(_, spins) => if !ExAll(w) { GrantWaiting(w, spins); }
  }

  predicate ForWriters(step: Step) {
    step.AcquireExclusive? || step.RegisterExclusive? || step.SpinExclusive? || step.LeaveWriter? || step.TakeWriter?
  }

  lemma WriterPacked(l: Lock, step: Step)
    requires RwLockProof.Inv(l) && Enabled(l, step) && ForWriters(step) && ReadFit(l)
    requires Fits(Live(l.word)) && Fits(Live(Effect(l, step).word))
    ensures Pack(Live(Effect(l, step).word)) == Update(Pack(Live(l.word)), l.threads[step.t], step)
  {
    hide Pack, Spin, RwLockProof.Inv, SetExActive, ClrExUpgrade, IncExWaiting, DecExWaiting, IncShActive;
    CountedIn(l, step.t);
    var w, pc := l.word, l.threads[step.t];
    match step
    case AcquireExclusive(_, spins) => SetFlags(Live(w)); SpinPacked(w.(exActive := true), spins);
    case RegisterExclusive(_) => CountWriter(Live(w));
    case SpinExclusive(_, spins) => TakePacked(w, spins);
    case LeaveWriter(_) => LeavePacked(w);
    case TakeWriter(_, spins) => assert ReadFits(pc); SamePacked(w, pc.w); TakePacked(w, spins);
  }

  lemma HolderPacked(l: Lock, step: Step)
    requires RwLockProof.Inv(l) && Enabled(l, step) && !ForReaders(step) && !ForWriters(step)
    requires Fits(Live(l.word)) && Fits(Live(Effect(l, step).word))
    ensures Pack(Live(Effect(l, step).word)) == Update(Pack(Live(l.word)), l.threads[step.t], step)
  {
    hide Pack, Spin, RwLockProof.Inv, SetExActive, SetExUpgrade, ClrExActive, ClrExUpgrade, IncExWaiting, DecExWaiting,
      IncShActive, DecShActive;
    CountedIn(l, step.t);
    var w := l.word;
    match step
    case UpgradeAtOnce(_, spins) => UpgradePacked(w, spins);
    case RegisterUpgrade(_) => UpgradePacked(w, false);
    case SpinUpgrade(_, spins) => TakePacked(w, spins);
    case Downgrade(_, spins) => DowngradePacked(w, spins);
    case ReleaseShared(_) => CountActive(Live(w));
    case ReleaseExclusive(_) => ClearFlags(Live(w));
    case _ =>
  }

  lemma StepReadFit(l: Lock, step: Step)
    requires Enabled(l, step) && ReadFit(l) && Fits(Live(l.word))
    ensures ReadFit(Effect(l, step)) && |Effect(l, step).threads| == |l.threads|
  {
    hide Fits, Effect, Enabled, ReadFits;
    RwLockProof.OneMoves(l, step);
    assert ReadFits(l.threads[step.t]);
    MoverReads(l, step);
  }

  lemma MoverReads(l: Lock, step: Step)
    requires Enabled(l, step) && ReadFits(l.threads[step.t]) && Fits(Live(l.word))
    ensures step.t < |Effect(l, step).threads| && ReadFits(Effect(l, step).threads[step.t])
  {
    hide Fits, Granted, Taken, ExAll, ActiveAll, ActiveAllOrExUpgrade;
  }

  // ---------------------------------------------------------------- every run

  lemma {:induction false} RunFits(states: seq<Lock>, steps: seq<Step>, i: nat)
    requires IsRun(states, steps) && i <= |steps| && RwLockProof.NoStaleTake(states, steps, i)
    requires |states[0].threads| < LIMIT
    ensures RwLockProof.Inv(states[i]) && ReadFit(states[i]) && Fits(Live(states[i].word))
    ensures |states[i].threads| == |states[0].threads|
  {
    hide Effect, Enabled, RwLockProof.Inv, StaleTake;
    RwLockProof.RunInv(states, steps, i);
    if i > 0 {
      RunFits(states, steps, i - 1);
      assert Moves(states[i - 1], steps[i - 1], states[i]);
      StepReadFit(states[i - 1], steps[i - 1]);
    }
    CountersFit(states[i]);
  }

  /** On every run of fewer than 2^20 threads without a stale take, the packed word goes through exactly
      the packings of the abstract words, and every field is read back as it is. */
  lemma PackedRun(states: seq<Lock>, steps: seq<Step>)
    ensures IsRun(states, steps) && RwLockProof.NoStaleTake(states, steps, |steps|) && |states[0].threads| < LIMIT ==>
      forall i :: 0 <= i < |steps| ==>
        && steps[i].t < |states[i].threads|
        && Pack(Live(states[i + 1].word)) == Update(Pack(Live(states[i].word)), states[i].threads[steps[i].t], steps[i])
        && Unpack(Pack(Live(states[i].word))) == Live(states[i].word)
  {
    if IsRun(states, steps) && RwLockProof.NoStaleTake(states, steps, |steps|) && |states[0].threads| < LIMIT {
      forall i | 0 <= i < |steps|
        ensures steps[i].t < |states[i].threads|
        ensures Pack(Live(states[i + 1].word)) ==
          Update(Pack(Live(states[i].word)), states[i].threads[steps[i].t], steps[i])
        ensures Unpack(Pack(Live(states[i].word))) == Live(states[i].word)
      {
        PackedAt(states, steps, i);
      }
    }
  }

  lemma PackedAt(states: seq<Lock>, steps: seq<Step>, i: nat)
    requires IsRun(states, steps) && RwLockProof.NoStaleTake(states, steps, |steps|) && |states[0].threads| < LIMIT
    requires i < |steps|
    ensures steps[i].t < |states[i].threads|
    ensures Pack(Live(states[i + 1].word)) ==
      Update(Pack(Live(states[i].word)), states[i].threads[steps[i].t], steps[i])
    ensures Unpack(Pack(Live(states[i].word))) == Live(states[i].word)
  {
    hide Effect, RwLockProof.Inv, StaleTake, Pack, Unpack, Update, Fits, ReadFit;
    RunFits(states, steps, i);
    RunFits(states, steps, i + 1);
    assert Moves(states[i], steps[i], states[i + 1]);
    if ForReaders(steps[i]) { ReaderPacked(states[i], steps[i]); }
    else if ForWriters(steps[i]) { WriterPacked(states[i], steps[i]); }
    else { HolderPacked(states[i], steps[i]); }
    UnpackPack(Live(states[i].word));
  }
}
