/** The lock pool run on the packed words of its objects: every step's macros, in the order of the code, do to
    an object's words what the step does to its fields, and the test macros decide its branches as the
    fields do, as long as there are fewer than 2^15 - 1 callers and event indices are below 2^15. */
module PackedPool {
  import opened Basics
  import opened Bits
  import opened Tally
  import opened LockWords
  import opened ObjectWords
  import opened PoolLock
  import PoolLockProof

  /** A word in an object that may have been allocated by the user. */
  function PackWord(w: Word, user: bool): Words { PackObject(Object(w, user)) }

  predicate FitsObject(w: Word) { Held(Object(w, false)) }

  // ---------------------------------------------------------------- the steps on packed words

  function SpinFlag(s: Words, spins: bool): Words {
    if spins then ObjectSetSpinWait(ObjectClrSpinWait(s)) else ObjectClrSpinWait(s)
  }

  function GrantShared(s: Words, spins: bool): Words {
    ObjectIncShActive(if !spins then ObjectClrSpinWait(s) else if ObjectTstShActive(s) == 0 then ObjectSetSpinWait(s)
      else s)
  }

  function Attach(s: Words, own: Option<nat>): Words {
    if ObjectTstEvent(s) == 0 && own.Some? then ObjectSetEvent(s, own.value) else s
  }

  function Detach(s: Words): Words {
    if ObjectTstWaitingAll(s) == 0 then ObjectClrEvent(s) else s
  }

  predicate GrantableWords(s: Words, k: Kind) {
    match k
    case Reader => ObjectTstExAll(s) == 0
    case Writer => ObjectTstAllActiveOrExWaiting(s) == 0
      || (ObjectTstSpinWait(s) != 0 && ObjectTstActiveAllOrExUpgrade(s) == 0)
    case Upgrader => ObjectTstExUpgrade(s) == 0 && ObjectTstActiveAll(ObjectDecShActive(s)) == 0
  }

  predicate ObtainableWords(s: Words, k: Kind) {
    match k
    case Reader => ObjectTstExAll(s) == 0
    case Writer => ObjectTstActiveAllOrExUpgrade(s) == 0
    case Upgrader => ObjectTstActiveAll(s) == 0
  }

  function EnterWords(s: Words, k: Kind, spins: bool): Words {
    match k
    case Reader => GrantShared(s, spins)
    case Writer => SpinFlag(ObjectSetExActive(s), spins)
    case Upgrader => SpinFlag(ObjectSetExActive(ObjectDecShActive(s)), spins)
  }

  function RegisterWords(s: Words, k: Kind, own: Option<nat>): Words {
    match k
    case Reader => ObjectIncShWaiting(Attach(s, own))
    case Writer => ObjectIncExWaiting(Attach(s, own))
    case Upgrader => ObjectIncExWaiting(ObjectSetExUpgrade(Attach(ObjectDecShActive(s), own)))
  }

  function ObtainWords(s: Words, k: Kind, spins: bool): Words {
    Detach(match k
           case Reader => ObjectDecShWaiting(GrantShared(s, spins))
           case Writer => SpinFlag(ObjectDecExWaiting(ObjectSetExActive(s)), spins)
           case Upgrader => SpinFlag(ObjectClrExUpgrade(ObjectDecExWaiting(ObjectSetExActive(s))), spins))
  }

  function LeaveWords(s: Words, k: Kind): Words {
    Detach(match k
           case Reader => ObjectDecShWaiting(s)
           case Writer => ObjectDecExWaiting(s)
           case Upgrader => ObjectIncShActive(ObjectClrExUpgrade(ObjectDecExWaiting(s))))
  }

  /** What a step does to the words of the object it is about. */
  function Update(s: Words, pc: Pc, step: Step): Words {
    match step
    case Enter(_, spins) => if pc.Asking? then EnterWords(s, pc.k, spins) else s
    case Register(_) => if pc.Asking? then RegisterWords(s, pc.k, pc.own) else s
    case SpinIn(_, spins) => if pc.Waiting? then ObtainWords(s, pc.k, spins) else s
    case Recheck(_, spins) => if pc.Awake? && ObtainableWords(s, pc.k) then ObtainWords(s, pc.k, spins) else s
    case Leave(_) => if pc.Failed? then LeaveWords(s, pc.k) else s
    case Downgrade(_, spins) => ObjectIncShActive(SpinFlag(ObjectClrExActive(s), spins))
    case ReleaseShared(_) => ObjectDecShActive(s)
    case ReleaseExclusive(_) => ObjectClrExActive(s)
    case _ => s
  }

  // ---------------------------------------------------------------- the macros on packed words

  lemma FlagsPacked(w: Word, user: bool)
    requires FitsObject(w)
    ensures ObjectSetExUpgrade(PackWord(w, user)) == PackWord(w.(exUpgrade := true), user)
    ensures ObjectClrExUpgrade(PackWord(w, user)) == PackWord(w.(exUpgrade := false), user)
    ensures ObjectSetExActive(PackWord(w, user)) == PackWord(w.(exActive := true), user)
    ensures ObjectClrExActive(PackWord(w, user)) == PackWord(w.(exActive := false), user)
    ensures ObjectSetSpinWait(PackWord(w, user)) == PackWord(w.(spin := true), user)
    ensures ObjectClrSpinWait(PackWord(w, user)) == PackWord(w.(spin := false), user)
  {
    hide And, Or, Layout;
    LayoutWrites(w.shActive, w.exUpgrade, w.exActive, w.exWaiting);
    LayoutWrites(w.shWaiting, w.spin, user, w.event);
  }

  lemma FirstCounts(w: Word, user: bool)
    requires FitsObject(w)
    ensures w.shActive + 1 < TOP ==>
      ObjectIncShActive(PackWord(w, user)) == PackWord(w.(shActive := w.shActive + 1), user)
    ensures w.shActive > 0 ==> ObjectDecShActive(PackWord(w, user)) == PackWord(w.(shActive := w.shActive - 1), user)
    ensures w.exWaiting + 1 < TOP ==>
      ObjectIncExWaiting(PackWord(w, user)) == PackWord(w.(exWaiting := w.exWaiting + 1), user)
    ensures w.exWaiting > 0 ==>
      ObjectDecExWaiting(PackWord(w, user)) == PackWord(w.(exWaiting := w.exWaiting - 1), user)
  {
    hide And, Or, Layout;
    LayoutCounts(w.shActive, w.exUpgrade, w.exActive, w.exWaiting);
  }

  lemma SecondCounts(w: Word, user: bool)
    requires FitsObject(w)
    ensures w.shWaiting + 1 < TOP ==>
      ObjectIncShWaiting(PackWord(w, user)) == PackWord(w.(shWaiting := w.shWaiting + 1), user)
    ensures w.shWaiting > 0 ==>
      ObjectDecShWaiting(PackWord(w, user)) == PackWord(w.(shWaiting := w.shWaiting - 1), user)
  {
    hide And, Or, Layout;
    LayoutCounts(w.shWaiting, w.spin, user, w.event);
  }

  lemma CountsPacked(w: Word, user: bool)
    requires FitsObject(w)
    ensures w.shActive + 1 < TOP ==>
      ObjectIncShActive(PackWord(w, user)) == PackWord(w.(shActive := w.shActive + 1), user)
    ensures w.shActive > 0 ==> ObjectDecShActive(PackWord(w, user)) == PackWord(w.(shActive := w.shActive - 1), user)
    ensures w.exWaiting + 1 < TOP ==>
      ObjectIncExWaiting(PackWord(w, user)) == PackWord(w.(exWaiting := w.exWaiting + 1), user)
    ensures w.exWaiting > 0 ==>
      ObjectDecExWaiting(PackWord(w, user)) == PackWord(w.(exWaiting := w.exWaiting - 1), user)
    ensures w.shWaiting + 1 < TOP ==>
      ObjectIncShWaiting(PackWord(w, user)) == PackWord(w.(shWaiting := w.shWaiting + 1), user)
    ensures w.shWaiting > 0 ==>
      ObjectDecShWaiting(PackWord(w, user)) == PackWord(w.(shWaiting := w.shWaiting - 1), user)
  {
    hide PackWord, ObjectIncShActive, ObjectDecShActive, ObjectIncExWaiting, ObjectDecExWaiting, ObjectIncShWaiting,
      ObjectDecShWaiting;
    FirstCounts(w, user);
    SecondCounts(w, user);
  }

  lemma EventPacked(w: Word, user: bool, i: nat)
    requires FitsObject(w) && i < TOP
    ensures w.event == 0 ==> ObjectSetEvent(PackWord(w, user), i) == PackWord(w.(event := i), user)
    ensures ObjectClrEvent(PackWord(w, user)) == PackWord(w.(event := 0), user)
  {
    hide And, Or, Layout;
    LayoutAttach(w.shWaiting, w.spin, user, w.event, i);
    LayoutReads(w.shWaiting, w.spin, user, w.event);
  }

  lemma PackedIs32(w: Word, user: bool)
    requires FitsObject(w)
    ensures Is32(PackWord(w, user))
    ensures var s := PackWord(w, user);
      ObjectTstShActive(s) == w.shActive && (ObjectTstSpinWait(s) != 0 <==> w.spin)
        && (ObjectTstExUpgrade(s) != 0 <==> w.exUpgrade)
  {
    hide And, Or, Layout;
    LayoutReads(w.shActive, w.exUpgrade, w.exActive, w.exWaiting);
    LayoutReads(w.shWaiting, w.spin, user, w.event);
  }

  lemma TestsPacked(w: Word, user: bool)
    requires FitsObject(w)
    ensures var s := PackWord(w, user);
      && (ObjectTstExAll(s) != 0 <==> ExAll(w)) && (ObjectTstActiveAll(s) != 0 <==> ActiveAll(w))
      && (ObjectTstActiveAllOrExUpgrade(s) != 0 <==> ActiveAll(w) || w.exUpgrade)
         && (ObjectTstWaitingAll(s) != 0 <==> WaitingAll(w))
      && (ObjectTstEvent(s) != 0 <==> w.event != 0) && ObjectTstShActive(s) == w.shActive
      && (ObjectTstSpinWait(s) != 0 <==> w.spin) && (ObjectTstExUpgrade(s) != 0 <==> w.exUpgrade)
      && (ObjectTstAllActiveOrExWaiting(s) != 0 <==> ActiveAll(w) || w.exWaiting != 0 || w.exUpgrade)
  {
    hide And, Or, ObjectTstExAll, ObjectTstActiveAll, ObjectTstActiveAllOrExUpgrade, ObjectTstWaitingAll,
      ObjectTstEvent,
      ObjectTstAllActiveOrExWaiting, ObjectTstShActive, ObjectTstSpinWait, ObjectTstExUpgrade, ObjectTstExWaiting,
        ObjectTstAll,
      PackObject, UnpackObject;
    PackedIs32(w, user);
    UnpackPackObject(Object(w, user));
    ObjectTestsExact(PackWord(w, user));
    ObjectTestAll(PackWord(w, user));
  }

  /** The tests decide who gets in as the fields do. */
  lemma BranchesPacked(w: Word, user: bool, k: Kind)
    requires FitsObject(w) && (w.exUpgrade ==> w.exWaiting != 0) && (k == Upgrader ==> w.shActive > 0)
    ensures (GrantableWords(PackWord(w, user), k) <==> Grantable(w, k))
      && (ObtainableWords(PackWord(w, user), k) <==> Obtainable(w, k))
  {
    hide And, Or, ObjectIncShActive, ObjectDecShActive, ObjectIncExWaiting, ObjectDecExWaiting, ObjectIncShWaiting,
      ObjectDecShWaiting, PackWord, ObjectTstExAll, ObjectTstActiveAll, ObjectTstActiveAllOrExUpgrade,
      ObjectTstAllActiveOrExWaiting, ObjectTstSpinWait, ObjectTstExUpgrade;
    TestsPacked(w, user);
    if k == Upgrader {
      CountsPacked(w, user);
      TestsPacked(w.(shActive := w.shActive - 1), user);
    }
  }

  lemma SpinPacked(w: Word, user: bool, spins: bool)
    requires FitsObject(w)
    ensures SpinFlag(PackWord(w, user), spins) == PackWord(w.(spin := spins), user)
  {
    hide And, Or, ObjectIncShActive, ObjectDecShActive, ObjectIncExWaiting, ObjectDecExWaiting, ObjectIncShWaiting,
      ObjectDecShWaiting, PackWord, ObjectSetSpinWait, ObjectClrSpinWait;
    FlagsPacked(w, user);
    FlagsPacked(w.(spin := false), user);
  }

  lemma GrantPacked(w: Word, user: bool, spins: bool)
    requires FitsObject(w) && w.shActive + 1 < TOP
    ensures GrantShared(PackWord(w, user), spins) ==
            PackWord(w.(shActive := w.shActive + 1, spin := spins && (w.shActive == 0 || w.spin)), user)
  {
    hide And, Or, ObjectIncShActive, ObjectDecShActive, ObjectIncExWaiting, ObjectDecExWaiting, ObjectIncShWaiting,
      ObjectDecShWaiting, PackWord, ObjectSetSpinWait, ObjectClrSpinWait, ObjectTstShActive;
    TestsPacked(w, user);
    FlagsPacked(w, user);
    CountsPacked(w.(spin := spins && (w.shActive == 0 || w.spin)), user);
  }

  lemma DetachPacked(w: Word, user: bool)
    requires FitsObject(w)
    ensures Detach(PackWord(w, user)) == PackWord(Detached(w), user)
  {
    hide And, Or, ObjectIncShActive, ObjectDecShActive, ObjectIncExWaiting, ObjectDecExWaiting, ObjectIncShWaiting,
      ObjectDecShWaiting, PackWord, ObjectTstWaitingAll, ObjectClrEvent;
    TestsPacked(w, user);
    EventPacked(w, user, 0);
  }

  lemma AttachPacked(w: Word, user: bool, own: Option<nat>)
    requires FitsObject(w) && (own.Some? ==> own.value < TOP) && (w.event == 0 ==> own.Some?)
    ensures Attach(PackWord(w, user), own) == PackWord(if w.event == 0 then w.(event := own.value) else w, user)
  {
    hide And, Or, ObjectIncShActive, ObjectDecShActive, ObjectIncExWaiting, ObjectDecExWaiting, ObjectIncShWaiting,
      ObjectDecShWaiting, PackWord, ObjectTstEvent, ObjectSetEvent;
    TestsPacked(w, user);
    if own.Some? { EventPacked(w, user, own.value); }
  }

  // ---------------------------------------------------------------- what each call does to the words

  lemma EnterPacked(w: Word, user: bool, k: Kind, spins: bool)
    requires FitsObject(w) && (k == Reader ==> w.shActive + 1 < TOP) && (k == Upgrader ==> w.shActive > 0)
    ensures EnterWords(PackWord(w, user), k, spins) == PackWord(Entered(w, k, spins), user)
  {
    hide And, Or, ObjectIncShActive, ObjectDecShActive, ObjectIncExWaiting, ObjectDecExWaiting, ObjectIncShWaiting,
      ObjectDecShWaiting, PackWord, GrantShared, SpinFlag, ObjectSetExActive;
    if k == Reader {
      GrantPacked(w, user, spins);
    } else {
      var v := if k == Upgrader then w.(shActive := w.shActive - 1) else w;
      CountsPacked(w, user);
      FlagsPacked(v, user);
      SpinPacked(v.(exActive := true), user, spins);
    }
  }

  /** The word after registering, with an event attached if there was none. */
  function RegisteredWith(w: Word, k: Kind, own: Option<nat>): Word
    requires w.event == 0 ==> own.Some?
  {
    var v := Registered(w, k);
    if w.event == 0 then v.(event := own.value) else v
  }

  lemma RegisterPacked(w: Word, user: bool, k: Kind, own: Option<nat>)
    requires FitsObject(w) && (own.Some? ==> own.value < TOP) && (w.event == 0 ==> own.Some?)
      && (k == Upgrader ==> w.shActive > 0)
    requires w.exWaiting + 1 < TOP && w.shWaiting + 1 < TOP
    ensures RegisterWords(PackWord(w, user), k, own) == PackWord(RegisteredWith(w, k, own), user)
  {
    hide And, Or, ObjectIncShActive, ObjectDecShActive, ObjectIncExWaiting, ObjectDecExWaiting, ObjectIncShWaiting,
      ObjectDecShWaiting, PackWord, Attach, ObjectSetExUpgrade;
    var v := if k == Upgrader then w.(shActive := w.shActive - 1) else w;
    CountsPacked(w, user);
    AttachPacked(v, user, own);
    var a := if w.event == 0 then v.(event := own.value) else v;
    FlagsPacked(a, user);
    CountsPacked(if k == Upgrader then a.(exUpgrade := true) else a, user);
  }

  lemma TakePacked(w: Word, user: bool, k: Kind, spins: bool)
    requires FitsObject(w) && w.exWaiting > 0 && k != Reader
    ensures (if k == Writer then SpinFlag(ObjectDecExWaiting(ObjectSetExActive(PackWord(w, user))), spins)
             else SpinFlag(ObjectClrExUpgrade(ObjectDecExWaiting(ObjectSetExActive(PackWord(w, user)))), spins)) ==
            PackWord(w.(exActive := true, exWaiting := w.exWaiting - 1, spin := spins, exUpgrade := w.exUpgrade
              && k == Writer), user)
  {
    hide And, Or, ObjectIncShActive, ObjectDecShActive, ObjectIncExWaiting, ObjectDecExWaiting, ObjectIncShWaiting,
      ObjectDecShWaiting, PackWord, SpinFlag, ObjectSetExActive, ObjectClrExUpgrade;
    FlagsPacked(w, user);
    CountsPacked(w.(exActive := true), user);
    var v := w.(exActive := true, exWaiting := w.exWaiting - 1);
    FlagsPacked(v, user);
    SpinPacked(if k == Writer then v else v.(exUpgrade := false), user, spins);
  }

  lemma ObtainPacked(w: Word, user: bool, k: Kind, spins: bool)
    requires FitsObject(w) && w.shActive + 1 < TOP && (if k == Reader then w.shWaiting > 0 else w.exWaiting > 0)
    ensures ObtainWords(PackWord(w, user), k, spins) == PackWord(Obtained(w, k, spins), user)
  {
    hide And, Or, ObjectIncShActive, ObjectDecShActive, ObjectIncExWaiting, ObjectDecExWaiting, ObjectIncShWaiting,
      ObjectDecShWaiting, PackWord, Detach, Detached, GrantShared, SpinFlag, ObjectSetExActive, ObjectClrExUpgrade;
    if k == Reader {
      GrantPacked(w, user, spins);
      var v := w.(shActive := w.shActive + 1, spin := spins && (w.shActive == 0 || w.spin));
      CountsPacked(v, user);
      DetachPacked(v.(shWaiting := w.shWaiting - 1), user);
    } else {
      TakePacked(w, user, k, spins);
      DetachPacked(w.(exActive := true, exWaiting := w.exWaiting - 1, spin := spins, exUpgrade := w.exUpgrade
        && k == Writer), user);
    }
  }

  lemma LeavePacked(w: Word, user: bool, k: Kind)
    requires FitsObject(w) && w.shActive + 1 < TOP && (if k == Reader then w.shWaiting > 0 else w.exWaiting > 0)
    ensures LeaveWords(PackWord(w, user), k) == PackWord(Left(w, k), user)
  {
    hide And, Or, ObjectIncShActive, ObjectDecShActive, ObjectIncExWaiting, ObjectDecExWaiting, ObjectIncShWaiting,
      ObjectDecShWaiting, PackWord, Detach, Detached, ObjectClrExUpgrade;
    CountsPacked(w, user);
    if k == Reader {
      DetachPacked(w.(shWaiting := w.shWaiting - 1), user);
    } else {
      var v := w.(exWaiting := w.exWaiting - 1);
      FlagsPacked(v, user);
      CountsPacked(v.(exUpgrade := false), user);
      DetachPacked(if k == Writer then v else v.(exUpgrade := false, shActive := w.shActive + 1), user);
    }
  }

  lemma DowngradePacked(w: Word, user: bool, spins: bool)
    requires FitsObject(w) && w.shActive + 1 < TOP
    ensures ObjectIncShActive(SpinFlag(ObjectClrExActive(PackWord(w, user)), spins)) ==
            PackWord(w.(exActive := false, spin := spins, shActive := w.shActive + 1), user)
  {
    hide And, Or, ObjectIncShActive, ObjectDecShActive, ObjectIncExWaiting, ObjectDecExWaiting, ObjectIncShWaiting,
      ObjectDecShWaiting, PackWord, SpinFlag, ObjectClrExActive;
    FlagsPacked(w, user);
    SpinPacked(w.(exActive := false), user, spins);
    CountsPacked(w.(exActive := false, spin := spins), user);
  }

  // ---------------------------------------------------------------- one step

  /** An object's counters stay below the number of callers, and its event is one of the pool's. */
  predicate Fitting(p: Pool, o: nat)
    requires o in p.words
  {
    var w := p.words[o];
    && FitsObject(w) && w.shActive + 1 < TOP && w.exWaiting + 1 < TOP && w.shWaiting + 1 < TOP
    && (w.exUpgrade ==> w.exWaiting != 0)
  }

  predicate SmallIndices(p: Pool) {
    forall e <- p.events :: e < TOP
  }

  lemma CountersFit(p: Pool, o: nat)
    requires PoolLockProof.Inv(p) && o in p.words && |p.threads| + 1 < TOP && SmallIndices(p)
    ensures Fitting(p, o)
  {
    hide PlacesOk, AttachedOk, NoLostWakeup;
    PoolLockProof.InvOf(p, o);
    CountBound(p.threads, SharersOf(o));
    CountBound(p.threads, WritersOf(o));
    CountBound(p.threads, ReadersOf(o));
  }

  /** A caller about to leave a count is in it. */
  lemma CountedIn(p: Pool, t: nat, o: nat)
    requires t < |p.threads| && o in p.words && PoolLockProof.FieldsOk(p, o)
    ensures HoldOf(p.threads[t]) == Sharing(o) ==> p.words[o].shActive > 0
    ensures IsAt(p.threads[t], o) ==>
      if p.threads[t].k == Reader then p.words[o].shWaiting > 0 else p.words[o].exWaiting > 0
  {
    if HoldOf(p.threads[t]) == Sharing(o) { CountSome(p.threads, t, SharersOf(o)); }
    if IsAt(p.threads[t], o) {
      CountSome(p.threads, t, if p.threads[t].k == Reader then ReadersOf(o) else WritersOf(o));
    }
  }

  lemma AskerPacked(p: Pool, step: Step, o: nat, user: bool)
    requires Enabled(p, step) && (step.Enter? || step.Register?) && o in p.words
      && o == PoolLockProof.Target(p.threads[step.t])
    requires PoolLockProof.FieldsOk(p, o) && Fitting(p, o)
    requires p.threads[step.t].own.Some? ==> p.threads[step.t].own.value < TOP
    ensures o in Effect(p, step).words
      && PackWord(Effect(p, step).words[o], user) == Update(PackWord(p.words[o], user), p.threads[step.t], step)
  {
    hide And, Or, ObjectIncShActive, ObjectDecShActive, ObjectIncExWaiting, ObjectDecExWaiting, ObjectIncShWaiting,
      ObjectDecShWaiting, PackWord, PoolLockProof.FieldsOk, EnterWords, RegisterWords, Entered, Registered, Grantable;
    var w, pc := p.words[o], p.threads[step.t];
    CountedIn(p, step.t, o);
    if step.Enter? {
      EnterPacked(w, user, pc.k, step.spins);
    } else {
      RegisteredEvent(w, pc.k);
      RegisterPacked(w, user, pc.k, pc.own);
    }
  }

  lemma RegisteredEvent(w: Word, k: Kind)
    ensures Registered(w, k).event == w.event
  {
  }

  lemma WaiterPacked(p: Pool, step: Step, o: nat, user: bool)
    requires Enabled(p, step) && (step.SpinIn? || step.Recheck? || step.Leave?) && o in p.words
    requires o == PoolLockProof.Target(p.threads[step.t]) && PoolLockProof.FieldsOk(p, o) && Fitting(p, o)
    ensures o in Effect(p, step).words
      && PackWord(Effect(p, step).words[o], user) == Update(PackWord(p.words[o], user), p.threads[step.t], step)
  {
    hide And, Or, ObjectIncShActive, ObjectDecShActive, ObjectIncExWaiting, ObjectDecExWaiting, ObjectIncShWaiting,
      ObjectDecShWaiting, PackWord, PoolLockProof.FieldsOk, ObtainWords, LeaveWords, Obtained, Left, Obtainable,
      ObtainableWords;
    var w, pc := p.words[o], p.threads[step.t];
    CountedIn(p, step.t, o);
    if step.Leave? { LeavePacked(w, user, pc.k); } else { ObtainPacked(w, user, pc.k, step.spins); }
    if step.Recheck? { ObtainTests(w, user, pc.k); }
  }

  lemma ObtainTests(w: Word, user: bool, k: Kind)
    requires FitsObject(w)
    ensures ObtainableWords(PackWord(w, user), k) <==> Obtainable(w, k)
  {
    hide And, Or, ObjectIncShActive, ObjectDecShActive, ObjectIncExWaiting, ObjectDecExWaiting, ObjectIncShWaiting,
      ObjectDecShWaiting, PackWord, ObjectTstExAll, ObjectTstActiveAll, ObjectTstActiveAllOrExUpgrade;
    TestsPacked(w, user);
  }

  lemma HolderPacked(p: Pool, step: Step, o: nat, user: bool)
    requires Enabled(p, step) && (step.Downgrade? || step.ReleaseShared? || step.ReleaseExclusive?) && o in p.words
    requires o == PoolLockProof.Target(p.threads[step.t]) && PoolLockProof.FieldsOk(p, o) && Fitting(p, o)
    ensures o in Effect(p, step).words
      && PackWord(Effect(p, step).words[o], user) == Update(PackWord(p.words[o], user), p.threads[step.t], step)
  {
    hide And, Or, ObjectIncShActive, ObjectDecShActive, ObjectIncExWaiting, ObjectDecExWaiting, ObjectIncShWaiting,
      ObjectDecShWaiting, PackWord, PoolLockProof.FieldsOk, SpinFlag, ObjectClrExActive;
    var w := p.words[o];
    CountedIn(p, step.t, o);
    if step.Downgrade? { DowngradePacked(w, user, step.spins); }
    CountsPacked(w, user);
    FlagsPacked(w, user);
  }

  lemma QuietPacked(p: Pool, step: Step, o: nat, user: bool)
    requires Enabled(p, step) && o in p.words && Effect(p, step).words == p.words
    requires !step.Enter? && !step.Register? && !step.SpinIn? && !step.Recheck? && !step.Leave?
    requires !step.Downgrade? && !step.ReleaseShared? && !step.ReleaseExclusive?
    ensures PackWord(Effect(p, step).words[o], user) == Update(PackWord(p.words[o], user), p.threads[step.t], step)
  {
    hide Effect, Enabled, PackWord;
  }

  /** The packed words of every object after a step. */
  function After(p: Pool, step: Step, o: nat, user: bool): Words
    requires step.t < |p.threads| && o in p.words
  {
    var s := PackWord(p.words[o], user);
    if o == PoolLockProof.Target(p.threads[step.t]) then Update(s, p.threads[step.t], step) else s
  }

  lemma StepPacked(p: Pool, step: Step, o: nat, user: bool)
    requires PoolLockProof.Inv(p) && Enabled(p, step) && o in p.words && Fitting(p, o) && SmallIndices(p)
    ensures o in Effect(p, step).words && PackWord(Effect(p, step).words[o], user) == After(p, step, o, user)
  {
    hide Effect, Enabled, PackWord, Update, PoolLockProof.Inv, PoolLockProof.FieldsOk, NoLostWakeup, PlacesOk,
      AttachedOk, WaitsOnAttached;
    PoolLockProof.OneMoves(p, step);
    var pc := p.threads[step.t];
    PoolLockProof.SameObjects(p, step);
    PoolLockProof.InvOf(p, o);
    PoolLockProof.InvAt(p, step.t);
    if o != PoolLockProof.Target(pc) {
      OthersSame(p, step, o);
    } else if step.Enter? || step.Register? {
      AskerAsks(p, step);
      AskerPacked(p, step, o, user);
    } else if step.SpinIn? || step.Recheck? || step.Leave? {
      WaiterPacked(p, step, o, user);
    } else if step.Downgrade? || step.ReleaseShared? || step.ReleaseExclusive? {
      HolderPacked(p, step, o, user);
    } else {
      PoolLockProof.SameWords(p, step);
      QuietPacked(p, step, o, user);
    }
  }

  lemma AskerAsks(p: Pool, step: Step)
    requires Enabled(p, step) && (step.Enter? || step.Register?)
    ensures p.threads[step.t].Asking?
  {
  }

  lemma OthersSame(p: Pool, step: Step, o: nat)
    requires Enabled(p, step) && o in p.words && o in Effect(p, step).words
      && o != PoolLockProof.Target(p.threads[step.t])
    ensures Effect(p, step).words[o] == p.words[o]
  {
    hide Effect, Enabled, PoolLockProof.KeepsWords;
    if PoolLockProof.KeepsWords(p, step) { PoolLockProof.SameWords(p, step); } else { PoolLockProof.Targeted(p, step); }
  }

  // ---------------------------------------------------------------- every run

  /** Few enough callers, and events with small indices, up to the end of the run. */
  predicate Small(states: seq<Pool>, steps: seq<Step>) {
    IsRun(states, steps) && |states[0].threads| + 1 < TOP && SmallIndices(states[|steps|])
  }

  lemma {:induction false} EventsGrow(states: seq<Pool>, steps: seq<Step>, i: nat, j: nat)
    requires IsRun(states, steps) && i <= j <= |steps|
    ensures states[i].events.Keys <= states[j].events.Keys && |states[i].threads| == |states[j].threads|
    decreases j
  {
    hide Created, Effect, Enabled;
    if i < j {
      EventsGrow(states, steps, i, j - 1);
      assert Moves(states[j - 1], steps[j - 1], states[j - 1 + 1]);
      PoolLockProof.OneMoves(states[j - 1], steps[j - 1]);
    }
  }

  lemma FittingAt(states: seq<Pool>, steps: seq<Step>, i: nat, o: nat)
    requires Small(states, steps) && i <= |steps| && o in states[i].words
    ensures PoolLockProof.Inv(states[i]) && SmallIndices(states[i]) && Fitting(states[i], o)
  {
    hide PoolLockProof.Inv, Created, Moves, Fitting;
    PoolLockProof.RunInv(states, steps, i);
    EventsGrow(states, steps, 0, i);
    EventsGrow(states, steps, i, |steps|);
    CountersFit(states[i], o);
  }

  /** On every such run, every object's packed words go through exactly the packings of its abstract words,
      and every field is read back as it is. */
  lemma PackedRun(states: seq<Pool>, steps: seq<Step>, i: nat, o: nat, user: bool)
    ensures Small(states, steps) && i < |steps| && o in states[i].words ==>
      && steps[i].t < |states[i].threads| && o in states[i + 1].words
      && PackWord(states[i + 1].words[o], user) == After(states[i], steps[i], o, user)
      && UnpackObject(PackWord(states[i].words[o], user)) == Object(states[i].words[o], user)
  {
    if Small(states, steps) && i < |steps| && o in states[i].words {
      hide PoolLockProof.Inv, Created, Effect, Small, PackObject, UnpackObject, After, SmallIndices;
      FittingAt(states, steps, i, o);
      assert Moves(states[i], steps[i], states[i + 1]) by { RunMoves(states, steps, i); }
      StepPacked(states[i], steps[i], o, user);
      UnpackPackObject(Object(states[i].words[o], user));
    }
  }

  lemma RunMoves(states: seq<Pool>, steps: seq<Step>, i: nat)
    requires Small(states, steps) && i < |steps|
    ensures Moves(states[i], steps[i], states[i + 1])
  {
  }

  /** On every such run the test macros let a caller in, or not, as the fields do: one that asks, and one
      that is registered. */
  lemma PackedBranches(states: seq<Pool>, steps: seq<Step>, i: nat, o: nat, user: bool, t: nat)
    ensures Small(states, steps) && i <= |steps| && o in states[i].words && t < |states[i].threads| ==>
      var pc, w := states[i].threads[t], states[i].words[o];
      && (pc.Asking? && pc.o == o ==> (GrantableWords(PackWord(w, user), pc.k) <==> Grantable(w, pc.k)))
      && (IsAt(pc, o) ==> (ObtainableWords(PackWord(w, user), pc.k) <==> Obtainable(w, pc.k)))
  {
    if Small(states, steps) && i <= |steps| && o in states[i].words && t < |states[i].threads| {
      hide *;
      FittingAt(states, steps, i, o);
      BranchesAt(states[i], o, user, t);
    }
  }

  lemma BranchesAt(p: Pool, o: nat, user: bool, t: nat)
    requires PoolLockProof.Inv(p) && o in p.words && Fitting(p, o) && t < |p.threads|
    ensures var pc, w := p.threads[t], p.words[o];
      && (pc.Asking? && pc.o == o ==> (GrantableWords(PackWord(w, user), pc.k) <==> Grantable(w, pc.k)))
      && (IsAt(pc, o) ==> (ObtainableWords(PackWord(w, user), pc.k) <==> Obtainable(w, pc.k)))
  {
    hide PackWord, GrantableWords, ObtainableWords, Grantable, Obtainable, NoLostWakeup, PoolLockProof.Inv,
      PoolLockProof.FieldsOk;
    PoolLockProof.InvOf(p, o);
    CountedIn(p, t, o);
    if p.threads[t].Asking? && p.threads[t].o == o { BranchesPacked(p.words[o], user, p.threads[t].k); }
    if IsAt(p.threads[t], o) { ObtainTests(p.words[o], user, p.threads[t].k); }
  }
}
