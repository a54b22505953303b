/** The step that breaks the reader/writer lock can happen as soon as two threads use it, if callers may
    spin or may time out.  It cannot when exclusive requests never wait. */
module RwLockStale {
  import opened Tally
  import opened RwLock
  import opened RwLockProof
  import opened RwLockPatience

  /** The state that a run of such callers ends in. */
  ghost predicate Reachable(l: Lock, policy: Policy) {
    exists states, steps :: IsRun(states, steps) && Obeys(policy, steps) && states[|steps|] == l
  }

  lemma Do(l: Lock, policy: Policy, step: Step) returns (l': Lock)
    requires Reachable(l, policy) && Enabled(l, step) && Allowed(policy, step)
    ensures Reachable(l', policy) && l' == Effect(l, step)
  {
    hide Enabled, Effect, Created, Allowed;
    var states, steps :| IsRun(states, steps) && Obeys(policy, steps) && states[|steps|] == l;
    l' := Effect(l, step);
    var states', steps' := states + [l'], steps + [step];
    assert Moves(l, step, l');
    assert IsRun(states', steps') && Obeys(policy, steps') && states'[|steps'|] == l';
  }

  // ---------------------------------------------------------------- two threads

  /** What threads 0 and 1 see. */
  datatype View = View(w: Word, event: bool, a: Pc, b: Pc)

  /** Threads 0 and 1, with all others outside. */
  function Pair(v: View, rest: seq<Pc>): Lock {
    Lock(v.w, v.event, 0, [v.a, v.b] + rest)
  }

  const IDLE := Word(1, false, false, true, 0, 0)
  const BUSY := Word(1, true, false, true, 0, 0)

  /** One step of the pair, given its outcome. */
  lemma Turn(l: Lock, policy: Policy, v: View, rest: seq<Pc>, step: Step, v': View) returns (l': Lock)
    requires Reachable(l, policy) && l == Pair(v, rest) && step.t < 2 && Allowed(policy, step)
    requires var two := Lock(v.w, v.event, 0, [v.a, v.b]);
      Enabled(two, step) && Effect(two, step) == Lock(v'.w, v'.event, 0, [v'.a, v'.b])
    ensures Reachable(l', policy) && l' == Pair(v', rest)
  {
    hide Reachable, Enabled, Effect;
    var two := Lock(v.w, v.event, 0, [v.a, v.b]);
    SameTurn(two, l, step);
    l' := Do(l, policy, step);
    OneMoves(l, step);
    OneMoves(two, step);
    assert l'.threads == [v'.a, v'.b] + rest;
  }

  /** A step depends on the thread that takes it and on the shared state only. */
  lemma SameTurn(l: Lock, m: Lock, step: Step)
    requires Enabled(l, step) && step.t < |m.threads| && m.threads[step.t] == l.threads[step.t]
      && m.(threads := []) == l.(threads := [])
    ensures Enabled(m, step)
    ensures var l', m' := Effect(l, step), Effect(m, step);
      && |l'.threads| == |l.threads| && |m'.threads| == |m.threads|
      && m'.threads[step.t] == l'.threads[step.t] && m'.(threads := []) == l'.(threads := [])
  {
  }

  lemma Begin(policy: Policy, rest: seq<Pc>) returns (l: Lock)
    requires forall pc <- rest :: pc == Out
    ensures Reachable(l, policy) && l == Pair(View(Word(0, false, false, false, 0, 0), false, Out, Out), rest)
  {
    l := Pair(View(Word(0, false, false, false, 0, 0), false, Out, Out), rest);
    var steps: seq<Step> := [];
    forall t | 0 <= t < |l.threads| ensures l.threads[t] == Out { if t >= 2 { assert l.threads[t] in rest; } }
    assert IsRun([l], steps) && Obeys(policy, steps) && [l][|steps|] == l;
  }

  // ---------------------------------------------------------------- with spinning

  /** Thread 1 holds the lock while thread 0 waits for it. */
  lemma Contended(policy: Policy, rest: seq<Pc>) returns (l: Lock)
    requires policy.spins && forall pc <- rest :: pc == Out
    ensures Reachable(l, policy) && l == Pair(View(BUSY, false, WriteWait, Exclusive), rest)
  {
    hide Reachable;
    var free, held := Word(0, false, false, false, 0, 0), Word(0, true, false, true, 0, 0);
    l := Begin(policy, rest);
    var v0, v1 := View(free, false, Out, Out), View(held, false, Out, Exclusive);
    l := Turn(l, policy, v0, rest, AcquireExclusive(1, true), v1);
    l := Turn(l, policy, v1, rest, RegisterExclusive(0), View(BUSY, false, WriteWait, Exclusive));
  }

  /** It releases the lock. */
  lemma Signalled(policy: Policy, rest: seq<Pc>) returns (l: Lock)
    requires policy.spins && forall pc <- rest :: pc == Out
    ensures Reachable(l, policy) && l == Pair(View(IDLE, true, WriteWait, Out), rest)
  {
    hide Reachable;
    l := Contended(policy, rest);
    var v1 := View(IDLE, false, WriteWait, Setting);
    l := Turn(l, policy, View(BUSY, false, WriteWait, Exclusive), rest, ReleaseExclusive(1), v1);
    l := Turn(l, policy, v1, rest, SetWriterEvent(1), View(IDLE, true, WriteWait, Out));
  }

  /** Thread 1 takes the lock over again before thread 0 wakes; thread 0 finds the word busy. */
  lemma WokenLate(policy: Policy, rest: seq<Pc>) returns (l: Lock)
    requires policy.spins && forall pc <- rest :: pc == Out
    ensures Reachable(l, policy) && l == Pair(View(BUSY, false, WriteSeen(BUSY), Exclusive), rest)
  {
    hide Reachable;
    l := Signalled(policy, rest);
    var v1, v2 := View(BUSY, true, WriteWait, Exclusive), View(BUSY, false, WriteAwake, Exclusive);
    l := Turn(l, policy, View(IDLE, true, WriteWait, Out), rest, AcquireExclusive(1, true), v1);
    l := Turn(l, policy, v1, rest, WakeWriter(0), v2);
    l := Turn(l, policy, v2, rest, LookWriter(0), View(BUSY, false, WriteSeen(BUSY), Exclusive));
  }

  /** Thread 1 releases, which makes the verification of thread 0 fail; thread 0 is left with a busy word. */
  lemma StaleWord(policy: Policy, rest: seq<Pc>) returns (l: Lock)
    requires policy.spins && forall pc <- rest :: pc == Out
    ensures Reachable(l, policy) && l == Pair(View(IDLE, true, WriteTrying(BUSY), Out), rest)
  {
    hide Reachable;
    l := WokenLate(policy, rest);
    var v1, v2 := View(IDLE, false, WriteSeen(BUSY), Setting), View(IDLE, false, WriteTrying(BUSY), Setting);
    l := Turn(l, policy, View(BUSY, false, WriteSeen(BUSY), Exclusive), rest, ReleaseExclusive(1), v1);
    l := Turn(l, policy, v1, rest, VerifyWriter(0), v2);
    l := Turn(l, policy, v2, rest, SetWriterEvent(1), View(IDLE, true, WriteTrying(BUSY), Out));
  }

  /** Thread 1 acquires again, which makes the word what thread 0 read.  Both now own the lock. */
  lemma TwoOwners(policy: Policy, rest: seq<Pc>) returns (l: Lock)
    requires policy.spins && forall pc <- rest :: pc == Out
    ensures Reachable(l, policy) && |l.threads| == 2 + |rest| && l.threads[0] == Exclusive && l.threads[1] == Exclusive
  {
    hide Reachable;
    l := StaleWord(policy, rest);
    var v1 := View(BUSY, true, WriteTrying(BUSY), Exclusive);
    l := Turn(l, policy, View(IDLE, true, WriteTrying(BUSY), Out), rest, AcquireExclusive(1, true), v1);
    l := Turn(l, policy, v1, rest, TakeWriter(0, true),
      View(Word(0, true, false, true, 0, 0), true, Exclusive, Exclusive));
  }

  // ---------------------------------------------------------------- with time-outs

  const OPEN := Word(0, false, false, false, 0, 0)
  const HELD := Word(0, true, false, false, 0, 0)
  const AWAITED := Word(1, true, false, false, 0, 0)
  const LEFT := Word(1, false, false, false, 0, 0)

  /** Thread 1 releases the lock to thread 0. */
  lemma Offered(policy: Policy, rest: seq<Pc>) returns (l: Lock)
    requires policy.timeouts && forall pc <- rest :: pc == Out
    ensures Reachable(l, policy) && l == Pair(View(LEFT, false, WriteWait, Setting), rest)
  {
    hide Reachable;
    l := Begin(policy, rest);
    var v1, v2 := View(HELD, false, Out, Exclusive), View(AWAITED, false, WriteWait, Exclusive);
    l := Turn(l, policy, View(OPEN, false, Out, Out), rest, AcquireExclusive(1, false), v1);
    l := Turn(l, policy, v1, rest, RegisterExclusive(0), v2);
    l := Turn(l, policy, v2, rest, ReleaseExclusive(1), View(LEFT, false, WriteWait, Setting));
  }

  /** Thread 0 gives up waiting, and the event stays set. */
  lemma LeftSet(policy: Policy, rest: seq<Pc>) returns (l: Lock)
    requires policy.timeouts && forall pc <- rest :: pc == Out
    ensures Reachable(l, policy) && l == Pair(View(OPEN, true, Out, Out), rest)
  {
    hide Reachable;
    l := Offered(policy, rest);
    var v1, v2 := View(LEFT, true, WriteWait, Out), View(LEFT, true, WriteFailed, Out);
    l := Turn(l, policy, View(LEFT, false, WriteWait, Setting), rest, SetWriterEvent(1), v1);
    l := Turn(l, policy, v1, rest, TimeoutWriter(0), v2);
    l := Turn(l, policy, v2, rest, LeaveWriter(0), View(OPEN, true, Out, Out));
  }

  /** Thread 1 owns the lock again; thread 0 waits for it and is woken by the old event. */
  lemma WokenEarly(policy: Policy, rest: seq<Pc>) returns (l: Lock)
    requires policy.timeouts && forall pc <- rest :: pc == Out
    ensures Reachable(l, policy) && l == Pair(View(AWAITED, false, WriteAwake, Exclusive), rest)
  {
    hide Reachable;
    l := LeftSet(policy, rest);
    var v1, v2 := View(HELD, true, Out, Exclusive), View(AWAITED, true, WriteWait, Exclusive);
    l := Turn(l, policy, View(OPEN, true, Out, Out), rest, AcquireExclusive(1, false), v1);
    l := Turn(l, policy, v1, rest, RegisterExclusive(0), v2);
    l := Turn(l, policy, v2, rest, WakeWriter(0), View(AWAITED, false, WriteAwake, Exclusive));
  }

  /** It finds the word busy; thread 1 downgrades, which makes the verification fail. */
  lemma StaleAfterDowngrade(policy: Policy, rest: seq<Pc>) returns (l: Lock)
    requires policy.timeouts && forall pc <- rest :: pc == Out
    ensures Reachable(l, policy) && l == Pair(View(LEFT.(shActive := 1), false, WriteTrying(AWAITED), Shared), rest)
  {
    hide Reachable;
    l := WokenEarly(policy, rest);
    var v1 := View(AWAITED, false, WriteSeen(AWAITED), Exclusive);
    var v2 := View(LEFT.(shActive := 1), false, WriteSeen(AWAITED), Shared);
    l := Turn(l, policy, View(AWAITED, false, WriteAwake, Exclusive), rest, LookWriter(0), v1);
    l := Turn(l, policy, v1, rest, Downgrade(1, false), v2);
    l := Turn(l, policy, v2, rest, VerifyWriter(0), View(LEFT.(shActive := 1), false, WriteTrying(AWAITED), Shared));
  }

  /** Thread 1 upgrades again, which makes the word what thread 0 read.  Both now own the lock. */
  lemma TwoOwnersAfterTimeout(policy: Policy, rest: seq<Pc>) returns (l: Lock)
    requires policy.timeouts && forall pc <- rest :: pc == Out
    ensures Reachable(l, policy) && |l.threads| == 2 + |rest| && l.threads[0] == Exclusive && l.threads[1] == Exclusive
  {
    hide Reachable;
    l := StaleAfterDowngrade(policy, rest);
    var v1 := View(AWAITED, false, WriteTrying(AWAITED), Exclusive);
    l := Turn(l, policy, View(LEFT.(shActive := 1), false, WriteTrying(AWAITED), Shared), rest,
      UpgradeAtOnce(1, false), v1);
    l := Turn(l, policy, v1, rest, TakeWriter(0, false), View(HELD, false, Exclusive, Exclusive));
  }

  lemma TwoAreUnsafe(l: Lock)
    requires |l.threads| >= 2 && l.threads[0] == Exclusive && l.threads[1] == Exclusive
    ensures !Safe(l)
  {
    CountSet(l.threads, 0, Out, IsExclusive);
    CountSome(l.threads[0 := Out], 1, IsExclusive);
  }

  lemma {:induction false} Crowd(n: nat) returns (rest: seq<Pc>)
    ensures |rest| == n && forall pc <- rest :: pc == Out
  {
    if n == 0 { rest := []; } else { rest := Crowd(n - 1); rest := rest + [Out]; }
  }

  // ---------------------------------------------------------------- one thread

  /** A thread on its own never finds the word busy while it waits. */
  lemma AloneNotStale(l: Lock, step: Step)
    requires Inv(l) && |l.threads| == 1 && Enabled(l, step)
    ensures !StaleTake(l, step)
  {
    assert l.threads == [l.threads[0]];
    OneThread(l.threads[0], IsExclusive);
    OneThread(l.threads[0], HoldsShared);
    OneThread(l.threads[0], IsUpgrader);
  }

  lemma OneThread(pc: Pc, p: Pc -> bool)
    ensures Count([pc], p) == Bit(p(pc))
  {
    assert [pc][..0] == [];
  }

  lemma SameThreads(l: Lock, step: Step)
    requires Enabled(l, step)
    ensures |Effect(l, step).threads| == |l.threads|
  {
  }

  lemma {:induction false} ThreadsKept(states: seq<Lock>, steps: seq<Step>, i: nat)
    requires IsRun(states, steps) && i <= |steps|
    ensures |states[i].threads| == |states[0].threads|
  {
    hide Created, Enabled, Effect;
    if i > 0 {
      ThreadsKept(states, steps, i - 1);
      assert Moves(states[i - 1], steps[i - 1], states[i - 1 + 1]);
      SameThreads(states[i - 1], steps[i - 1]);
    }
  }

  lemma {:induction false} AloneNeverStale(states: seq<Lock>, steps: seq<Step>, i: nat)
    requires IsRun(states, steps) && i <= |steps| && |states[0].threads| <= 1
    ensures NoStaleTake(states, steps, i)
  {
    hide Created, StaleTake, Inv, Enabled;
    if i > 0 {
      AloneNeverStale(states, steps, i - 1);
      RunInv(states, steps, i - 1);
      ThreadsKept(states, steps, i - 1);
      assert Moves(states[i - 1], steps[i - 1], states[i - 1 + 1]);
      if |states[0].threads| == 1 {
        AloneNotStale(states[i - 1], steps[i - 1]);
      } else {
        NobodyActs(states[i - 1], steps[i - 1]);
      }
    }
  }

  lemma NobodyActs(l: Lock, step: Step)
    requires |l.threads| == 0
    ensures !Enabled(l, step) && !StaleTake(l, step)
  {
  }

  /** With n threads every run is safe exactly when n is at most one or callers neither spin nor time out. */
  lemma SafeForThreads(n: nat, policy: Policy)
    ensures (forall l :: Reachable(l, policy) && |l.threads| == n ==> Safe(l)) <==> n <= 1 || policy == PATIENT
  {
    hide Safe, Created, Moves, StaleTake, Obeys;
    if n <= 1 || policy == PATIENT {
      forall l | Reachable(l, policy) && |l.threads| == n ensures Safe(l) {
        var states, steps :| IsRun(states, steps) && Obeys(policy, steps) && states[|steps|] == l;
        ThreadsKept(states, steps, |steps|);
        if n <= 1 { AloneNeverStale(states, steps, |steps|); } else { PatientRun(states, steps, |steps|); }
        SafeExactly(states, steps);
      }
    } else {
      var rest := Crowd(n - 2);
      var l;
      if policy.spins { l := TwoOwners(policy, rest); } else { l := TwoOwnersAfterTimeout(policy, rest); }
      TwoAreUnsafe(l);
    }
  }

  /** Callers that neither spin nor time out lose no wake-up either. */
  lemma PatientWakeups(states: seq<Lock>, steps: seq<Step>)
    ensures IsRun(states, steps) && Obeys(PATIENT, steps) ==> NoLostWakeup(states[|steps|])
  {
    if IsRun(states, steps) && Obeys(PATIENT, steps) {
      hide Created, Moves, NoLostWakeup, Allowed, StaleTake;
      PatientRun(states, steps, |steps|);
      WakeupsKept(states, steps);
    }
  }

  // ---------------------------------------------------------------- exclusive requests that never wait

  /** Every exclusive and upgrade request is a LF_LOCK_TRY: none registers as waiting. */
  predicate NeverWaits(steps: seq<Step>) {
    forall step <- steps :: !step.RegisterExclusive? && !step.RegisterUpgrade?
  }

  lemma {:induction false} NoWriterWaits(states: seq<Lock>, steps: seq<Step>, i: nat)
    requires IsRun(states, steps) && i <= |steps| && NeverWaits(steps)
    ensures forall t :: 0 <= t < |states[i].threads| ==> !IsWriter(states[i].threads[t])
  {
    if i > 0 {
      NoWriterWaits(states, steps, i - 1);
      assert Moves(states[i - 1], steps[i - 1], states[i - 1 + 1]) && steps[i - 1] in steps;
      StillNone(states[i - 1], steps[i - 1]);
    }
  }

  lemma StillNone(l: Lock, step: Step)
    requires Enabled(l, step) && !step.RegisterExclusive? && !step.RegisterUpgrade?
    requires forall t :: 0 <= t < |l.threads| ==> !IsWriter(l.threads[t])
    ensures forall t :: 0 <= t < |Effect(l, step).threads| ==> !IsWriter(Effect(l, step).threads[t])
  {
    assert !IsWriter(l.threads[step.t]);
  }

  /** If exclusive and upgrade requests only ever try, the lock is safe and loses no wake-up, for any
      number of threads. */
  lemma SafeIfNeverWaits(states: seq<Lock>, steps: seq<Step>)
    ensures IsRun(states, steps) && NeverWaits(steps) ==>
      NoLostWakeup(states[|steps|]) && forall i :: 0 <= i <= |steps| ==> Safe(states[i])
  {
    if IsRun(states, steps) && NeverWaits(steps) {
      hide Safe, Created, Moves, NoLostWakeup;
      forall i | 0 <= i < |steps| ensures !StaleTake(states[i], steps[i]) { NoWriterWaits(states, steps, i); }
      SafeExactly(states, steps);
      WakeupsKept(states, steps);
    }
  }
}
