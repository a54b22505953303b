/** The reader/writer lock of LF.c with upgrade and downgrade, in its non-recursive mode: any number
    of threads, one step per successful compare-and-swap of the lock word, per read that decides a
    branch, and per event or semaphore operation. */
module RwLock {
  import opened Tally

  /** The fields packed into the lock word. */
  datatype Word = Word(exWaiting: nat, exActive: bool, exUpgrade: bool, spin: bool, shWaiting: nat, shActive: nat)

  /** Where a thread is.  Seen and Trying hold the word it read. */
  datatype Pc =
    | Out
    | Shared
    | Exclusive
    | ReadWait
    | ReadAwake
    | ReadFailed
    | WriteWait
    | WriteAwake
    | WriteSeen(w: Word)
    | WriteTrying(w: Word)
    | WriteFailed
    | UpWait
    | UpAwake
    | UpSeen(w: Word)
    | UpTrying(w: Word)
    | UpFailed
    | Passing                      // an awake writer about to hand the event to the upgrader
    | Setting                      // lock released, writer event not set yet
    | Waking(k: nat, keeps: bool)  // k reader tokens not released yet; keeps: still holds a shared lock

  /** The word, the auto-reset writer event, the tokens in the readers' semaphore, and the threads. */
  datatype Lock = Lock(word: Word, event: bool, tokens: nat, threads: seq<Pc>)

  /** spins is the caller's fWaitSpin. */
  datatype Step =
    | AcquireShared(t: nat, spins: bool)
    | RegisterShared(t: nat)
    | SpinShared(t: nat, spins: bool)
    | WakeReader(t: nat)
    | TimeoutReader(t: nat)
    | LeaveReader(t: nat)
    | RecheckReader(t: nat, spins: bool)
    | AcquireExclusive(t: nat, spins: bool)
    | RegisterExclusive(t: nat)
    | SpinExclusive(t: nat, spins: bool)
    | WakeWriter(t: nat)
    | TimeoutWriter(t: nat)
    | LeaveWriter(t: nat)
    | LookWriter(t: nat)
    | VerifyWriter(t: nat)
    | TakeWriter(t: nat, spins: bool)
    | UpgradeAtOnce(t: nat, spins: bool)
    | RegisterUpgrade(t: nat)
    | SpinUpgrade(t: nat, spins: bool)
    | Downgrade(t: nat, spins: bool)
    | ReleaseShared(t: nat)
    | ReleaseExclusive(t: nat)
    | SetWriterEvent(t: nat)
    | ReleaseReaders(t: nat)

  predicate ExAll(w: Word) { w.exWaiting != 0 || w.exActive }

  predicate ActiveAll(w: Word) { w.exActive || w.shActive != 0 }

  predicate ActiveAllOrExUpgrade(w: Word) { ActiveAll(w) || w.exUpgrade }

  predicate AllActiveOrExWaiting(w: Word) { ExAll(w) || w.shActive != 0 }

  /** An exclusive request is granted at once on a free word, or on an idle one that may be taken
      over from waiting writers. */
  predicate Grantable(w: Word) {
    !AllActiveOrExWaiting(w) || (w.spin && !ActiveAllOrExUpgrade(w))
  }

  function Granted(w: Word, spins: bool): Word {
    w.(shActive := w.shActive + 1, spin := if !spins then false else if w.shActive == 0 then true else w.spin)
  }

  function Taken(w: Word, spins: bool): Word {
    w.(exActive := true, spin := spins)
  }

  function Dec(n: nat): nat { if n == 0 then 0 else n - 1 }

  predicate Enabled(l: Lock, step: Step) {
    step.t < |l.threads| &&
    var pc, w := l.threads[step.t], l.word;
    match step
    case AcquireShared(_, _) => pc.Out? && !ExAll(w)
    case RegisterShared(_) => pc.Out? && ExAll(w)
    case SpinShared(_, _) => pc.ReadWait? && !ExAll(w)
    case WakeReader(_) => pc.ReadWait? && l.tokens > 0
    case TimeoutReader(_) => pc.ReadWait?
    case LeaveReader(_) => pc.ReadFailed?
    case RecheckReader(_, _) => pc.ReadAwake?
    case AcquireExclusive(_, _) => pc.Out? && Grantable(w)
    case RegisterExclusive(_) => pc.Out? && !Grantable(w)
    case SpinExclusive(_, _) => pc.WriteWait? && !ActiveAllOrExUpgrade(w)
    case WakeWriter(_) => (pc.WriteWait? || pc.UpWait?) && l.event
    case TimeoutWriter(_) => pc.WriteWait? || pc.UpWait?
    case LeaveWriter(_) => pc.WriteFailed? || pc.UpFailed?
    case LookWriter(_) => pc.WriteAwake? || pc.UpAwake?
    case VerifyWriter(_) => pc.WriteSeen? || pc.UpSeen?
    case TakeWriter(_, _) => pc.WriteTrying? || pc.UpTrying?
    case UpgradeAtOnce(_, _) => pc.Shared? && !w.exUpgrade && !ActiveAll(w.(shActive := Dec(w.shActive)))
    case RegisterUpgrade(_) => pc.Shared? && !w.exUpgrade && ActiveAll(w.(shActive := Dec(w.shActive)))
    case SpinUpgrade(_, _) => pc.UpWait? && !ActiveAll(w)
    case Downgrade(_, _) => pc.Exclusive?
    case ReleaseShared(_) => pc.Shared?
    case ReleaseExclusive(_) => pc.Exclusive?
    case SetWriterEvent(_) => pc.Setting? || pc.Passing?
    case ReleaseReaders(_) => pc.Waking?
  }

  /** After the last writer is gone the waiting readers are released. */
  function WakeReaders(w: Word, keeps: bool): Pc {
    if !ExAll(w) && w.shWaiting != 0 then Waking(w.shWaiting, keeps) else if keeps then Shared else Out
  }

  function Effect(l: Lock, step: Step): Lock
    requires Enabled(l, step)
  {
    var pc, w := l.threads[step.t], l.word;
    match step
    case AcquireShared(t, spins) => Move(l, t, Shared, Granted(w, spins))
    case RegisterShared(t) => Move(l, t, ReadWait, w.(shWaiting := w.shWaiting + 1))
    case SpinShared(t, spins) => Move(l, t, Shared, Granted(w, spins).(shWaiting := Dec(w.shWaiting)))
    case WakeReader(t) => Move(l, t, ReadAwake, w).(tokens := l.tokens - 1)
    case TimeoutReader(t) => Move(l, t, ReadFailed, w)
    case LeaveReader(t) => Move(l, t, Out, w.(shWaiting := Dec(w.shWaiting)))
    case RecheckReader(t, spins) =>
      if ExAll(w) then Move(l, t, ReadWait, w)
        else Move(l, t, Shared, Granted(w, spins).(shWaiting := Dec(w.shWaiting)))
    case AcquireExclusive(t, spins) => Move(l, t, Exclusive, Taken(w, spins))
    case RegisterExclusive(t) => Move(l, t, WriteWait, w.(exWaiting := w.exWaiting + 1))
    case SpinExclusive(t, spins) => Move(l, t, Exclusive, Taken(w, spins).(exWaiting := Dec(w.exWaiting)))
    case WakeWriter(t) => Move(l, t, if pc.WriteWait? then WriteAwake else UpAwake, w).(event := false)
    case TimeoutWriter(t) => Move(l, t, if pc.WriteWait? then WriteFailed else UpFailed, w)
    case LeaveWriter(t) =>
      if pc.WriteFailed? then
        var w' := w.(exWaiting := Dec(w.exWaiting)); Move(l, t, WakeReaders(w', false), w')
      else
        var w' := w.(exWaiting := Dec(w.exWaiting), exUpgrade := false, shActive := w.shActive + 1);
        Move(l, t, WakeReaders(w', true), w')
    case LookWriter(t) =>
      if pc.WriteAwake? then Move(l, t, if ActiveAllOrExUpgrade(w) then WriteSeen(w) else WriteTrying(w), w)
      else Move(l, t, if ActiveAll(w) then UpSeen(w) else UpTrying(w), w)
    case VerifyWriter(t) =>
      // a failed verification falls through to the attempt to take the lock from the word read before
      if pc.WriteSeen?
        then Move(l, t, if w != pc.w then WriteTrying(pc.w) else if w.exUpgrade then Passing else WriteWait, w)
      else Move(l, t, if w != pc.w then UpTrying(pc.w) else UpWait, w)
    case TakeWriter(t, spins) =>
      if w != pc.w then Move(l, t, if pc.WriteTrying? then WriteAwake else UpAwake, w)
      else Move(l, t, Exclusive,
        Taken(w, spins).(exWaiting := Dec(w.exWaiting), exUpgrade := w.exUpgrade && pc.WriteTrying?))
    case UpgradeAtOnce(t, spins) => Move(l, t, Exclusive, Taken(w, spins).(shActive := Dec(w.shActive)))
    case RegisterUpgrade(t) =>
      Move(l, t, UpWait, w.(shActive := Dec(w.shActive), exUpgrade := true, exWaiting := w.exWaiting + 1))
    case SpinUpgrade(t, spins) => Move(l, t, Exclusive,
      Taken(w, spins).(exWaiting := Dec(w.exWaiting), exUpgrade := false))
    case Downgrade(t, spins) =>
      var w' := w.(exActive := false, spin := spins, shActive := w.shActive + 1); Move(l, t, WakeReaders(w', true), w')
    case ReleaseShared(t) =>
      var w' := w.(shActive := Dec(w.shActive));
        Move(l, t, if !ActiveAll(w') && w'.exWaiting != 0 then Setting else Out, w')
    case ReleaseExclusive(t) =>
      var w' := w.(exActive := false);
      Move(l, t, if w'.exWaiting == 0 then WakeReaders(w', false) else if w'.shActive == 0 then Setting else Out, w')
    case SetWriterEvent(t) => Move(l, t, if pc.Passing? then WriteWait else Out, w).(event := true)
    case ReleaseReaders(t) => Move(l, t, if pc.keeps then Shared else Out, w).(tokens := l.tokens + pc.k)
  }

  function Move(l: Lock, t: nat, pc: Pc, w: Word): Lock
    requires t < |l.threads|
  {
    l.(threads := l.threads[t := pc], word := w)
  }

  predicate Moves(l: Lock, step: Step, l': Lock) {
    Enabled(l, step) && l' == Effect(l, step)
  }

  predicate Created(l: Lock) {
    l.word == Word(0, false, false, false, 0, 0) && !l.event && l.tokens == 0 && forall t ::
      0 <= t < |l.threads| ==> l.threads[t] == Out
  }

  predicate IsRun(states: seq<Lock>, steps: seq<Step>) {
    |states| == |steps| + 1 && Created(states[0]) && forall i ::
      0 <= i < |steps| ==> Moves(states[i], steps[i], states[i + 1])
  }

  /** An awake writer takes a word it read as busy: its verification failed because the word had
      changed, and by the time of the second attempt the word is the same again. */
  predicate StaleTake(l: Lock, step: Step) {
    step.TakeWriter? && step.t < |l.threads| &&
    var pc := l.threads[step.t];
    || (pc.WriteTrying? && pc.w == l.word && ActiveAllOrExUpgrade(pc.w))
    || (pc.UpTrying? && pc.w == l.word && ActiveAll(pc.w))
  }

  // ---------------------------------------------------------------- counting threads

  /** Reader tokens a thread is about to release. */
  function PendingOf(pc: Pc): nat { if pc.Waking? then pc.k else 0 }

  predicate IsExclusive(pc: Pc) { pc.Exclusive? }

  predicate HoldsShared(pc: Pc) { pc.Shared? || (pc.Waking? && pc.keeps) }

  predicate IsReader(pc: Pc) { pc.ReadWait? || pc.ReadAwake? || pc.ReadFailed? }

  predicate IsAwakeReader(pc: Pc) { pc.ReadAwake? }

  predicate IsUpgrader(pc: Pc) { pc.UpWait? || pc.UpAwake? || pc.UpSeen? || pc.UpTrying? || pc.UpFailed? }

  predicate IsWriter(pc: Pc) {
    IsUpgrader(pc) || pc.WriteWait? || pc.WriteAwake? || pc.WriteSeen? || pc.WriteTrying? || pc.WriteFailed?
      || pc.Passing?
  }

  /** Threads that have consumed the writer event or are about to set it. */
  predicate HoldsEvent(pc: Pc) {
    pc.WriteAwake? || pc.WriteSeen? || pc.WriteTrying? || pc.UpAwake? || pc.UpSeen? || pc.UpTrying? || pc.Passing?
      || pc.Setting?
  }

  // ---------------------------------------------------------------- what the lock promises

  /** A writer excludes readers and other writers, and a pending upgrade means a waiting writer and no
      active one. */
  predicate Safe(l: Lock) {
    && Count(l.threads, IsExclusive) <= 1
    && (Count(l.threads, IsExclusive) == 1 ==> Count(l.threads, HoldsShared) == 0)
    && (l.word.exUpgrade ==> l.word.exWaiting > 0 && !l.word.exActive)
  }

  /** On an idle word with writers registered the event is set, about to be set, or in the hands of an
      awake writer; with no writer active or waiting, the tokens issued, pending or consumed cover
      every registered reader. */
  predicate NoLostWakeup(l: Lock) {
    && (!ActiveAll(l.word) && l.word.exWaiting > 0 ==> l.event || Count(l.threads, HoldsEvent) > 0)
    && (!ExAll(l.word) ==>
       l.tokens + Sum(l.threads, PendingOf) + Count(l.threads, IsAwakeReader) >= Count(l.threads, IsReader))
  }
}
