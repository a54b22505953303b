/** The lock pool is safe, loses no wake-up and keeps track of its events on every run. */
module PoolLockProof {
  import opened Basics
  import opened Tally
  import opened PoolLock

  // ---------------------------------------------------------------- counting

  /** How the move of caller t changes every count of object o and event e. */
  predicate Recounted(threads: seq<Pc>, t: nat, threads': seq<Pc>, o: nat, e: nat)
    requires t < |threads| && t < |threads'|
  {
    var a, b := threads[t], threads'[t];
    && Count(threads', OwnersOf(o)) + Bit(HoldOf(a) == Owning(o)) ==
       Count(threads, OwnersOf(o)) + Bit(HoldOf(b) == Owning(o))
    && Count(threads', SharersOf(o)) + Bit(HoldOf(a) == Sharing(o)) ==
       Count(threads, SharersOf(o)) + Bit(HoldOf(b) == Sharing(o))
    && Count(threads', ReadersOf(o)) + Bit(ReadersOf(o)(a)) == Count(threads, ReadersOf(o)) + Bit(ReadersOf(o)(b))
    && Count(threads', WritersOf(o)) + Bit(WritersOf(o)(a)) == Count(threads, WritersOf(o)) + Bit(WritersOf(o)(b))
    && Count(threads', UpgradersOf(o)) + Bit(UpgradersOf(o)(a)) ==
       Count(threads, UpgradersOf(o)) + Bit(UpgradersOf(o)(b))
    && Count(threads', AwakeReadersOf(o)) + Bit(AwakeReadersOf(o)(a)) ==
       Count(threads, AwakeReadersOf(o)) + Bit(AwakeReadersOf(o)(b))
    && Count(threads', AwakeOrSetting(o, e)) + Bit(AwakeOrSetting(o, e)(a)) ==
       Count(threads, AwakeOrSetting(o, e)) + Bit(AwakeOrSetting(o, e)(b))
    && Sum(threads', PendingAt(e)) + PendingAt(e)(a) == Sum(threads, PendingAt(e)) + PendingAt(e)(b)
  }

  lemma Recount(p: Pool, step: Step, o: nat, e: nat)
    requires Enabled(p, step)
    ensures var p' := Effect(p, step); |p'.threads| == |p.threads| && Recounted(p.threads, step.t, p'.threads, o, e)
  {
    hide Count, Sum, Effect, Enabled;
    OneMoves(p, step);
    var p' := Effect(p, step);
    var t, pc := step.t, p'.threads[step.t];
    CountSet(p.threads, t, pc, OwnersOf(o));
    CountSet(p.threads, t, pc, SharersOf(o));
    CountSet(p.threads, t, pc, ReadersOf(o));
    CountSet(p.threads, t, pc, WritersOf(o));
    CountSet(p.threads, t, pc, UpgradersOf(o));
    CountSet(p.threads, t, pc, AwakeReadersOf(o));
    CountSet(p.threads, t, pc, AwakeOrSetting(o, e));
    SumSet(p.threads, t, pc, PendingAt(e));
  }

  // ---------------------------------------------------------------- the invariant

  /** The fields of an object's word count its callers, and an active writer is alone. */
  predicate FieldsOk(p: Pool, o: nat)
    requires o in p.words
  {
    var w := p.words[o];
    && w.exWaiting == Count(p.threads, WritersOf(o)) && w.shWaiting == Count(p.threads, ReadersOf(o))
    && w.shActive == Count(p.threads, SharersOf(o)) && Bit(w.exActive) == Count(p.threads, OwnersOf(o))
    && Bit(w.exUpgrade) == Count(p.threads, UpgradersOf(o)) && (w.exUpgrade ==> w.exWaiting > 0)
    && (w.exActive ==> w.shActive == 0 && !w.exUpgrade)
  }

  predicate ObjectsOk(p: Pool) {
    forall o <- p.words :: FieldsOk(p, o) && NoLostWakeup(p, o)
  }

  /** A signal that is still to be given goes to an event that exists. */
  predicate SignalsOk(p: Pool) {
    forall t :: 0 <= t < |p.threads| ==> SignalOk(p, p.threads[t])
  }

  predicate SignalOk(p: Pool, pc: Pc) {
    && (pc.Setting? || pc.Waking? ==> pc.e in p.events) && (pc.Passing? ==> pc.k == Writer)
    && (pc.Asking? ==> pc.o in p.words) && (HoldOf(pc) != Nothing ==> HoldOf(pc).o in p.words)
  }

  predicate Inv(p: Pool) {
    PlacesOk(p) && AttachedOk(p) && ObjectsOk(p) && SignalsOk(p)
  }

  lemma FieldsSafe(p: Pool, o: nat)
    requires o in p.words && FieldsOk(p, o)
    ensures Safe(p, o)
  {
  }

  // ---------------------------------------------------------------- objects

  /** Steps that leave every word alone. */
  predicate KeepsWords(p: Pool, step: Step)
    requires Enabled(p, step)
  {
    step.Ask? || step.Grab? || step.Create? || step.Quit? || step.Timeout? || step.Wake? || step.Signal?
      || step.PushBack?
    || (step.Recheck? && !Obtainable(p.words[p.threads[step.t].o], p.threads[step.t].k))
  }

  /** What a step that leaves the words alone means for the caller that takes it. */
  lemma QuietMover(p: Pool, step: Step, p': Pool)
    requires Enabled(p, step) && KeepsWords(p, step) && p' == Effect(p, step)
    ensures p'.words == p.words && |p'.threads| == |p.threads|
    ensures var a, b := p.threads[step.t], p'.threads[step.t];
      && HoldOf(a) == HoldOf(b) && (IsRegistered(a) <==> IsRegistered(b))
         && (IsRegistered(a) ==> a.o == b.o && a.k == b.k)
  {
    hide Grantable, Obtainable;
  }

  lemma QuietObject(p: Pool, step: Step, o: nat)
    requires Enabled(p, step) && KeepsWords(p, step) && o in p.words && FieldsOk(p, o)
    ensures o in Effect(p, step).words && FieldsOk(Effect(p, step), o)
  {
    hide Count, Sum, Effect, Enabled, KeepsWords;
    OneMoves(p, step);
    QuietMover(p, step, Effect(p, step));
    Recount(p, step, o, 0);
  }

  /** What is on its way to the writers and the readers of object o is not lost. */
  predicate Passed(p: Pool, t: nat, p': Pool, o: nat)
    requires t < |p.threads| == |p'.threads| && o in p.words
  {
    var a, b, w := p.threads[t], p'.threads[t], p.words[o];
    && w.event in p.events && w.event in p'.events
    && (p.events[w.event].isSet || AwakeOrSetting(o, w.event)(a) ==>
          p'.events[w.event].isSet || AwakeOrSetting(o, w.event)(b) || ActiveAll(w) || w.exWaiting == 0)
    && (!ExAll(w) ==> p.events[w.event].tokens + PendingAt(w.event)(a) + Bit(AwakeReadersOf(o)(a))
                      <= p'.events[w.event].tokens + PendingAt(w.event)(b) + Bit(AwakeReadersOf(o)(b)))
  }

  lemma QuietSignals(p: Pool, step: Step, p': Pool, o: nat)
    requires Enabled(p, step) && KeepsWords(p, step) && p' == Effect(p, step) && |p'.threads| == |p.threads|
    requires o in p.words && p.words[o].event in p.events && p.words[o].event != 0
    requires WaitsOnAttached(p, p.threads[step.t]) && SignalOk(p, p.threads[step.t])
    requires forall o' <- p.words :: o' != o && p.words[o'].event != 0 ==> p.words[o'].event != p.words[o].event
    ensures Passed(p, step.t, p', o)
  {
    hide Effect, Enabled, Passed;
    if step.Recheck? {
      RecheckPasses(p, step, p', o);
    } else if step.Wake? || step.Signal? {
      SignalPasses(p, step, p', o);
    } else {
      OthersPass(p, step, p', o);
    }
  }

  lemma RecheckPasses(p: Pool, step: Step, p': Pool, o: nat)
    requires Enabled(p, step) && KeepsWords(p, step) && p' == Effect(p, step) && |p'.threads| == |p.threads|
      && step.Recheck?
    requires o in p.words && p.words[o].event in p.events && WaitsOnAttached(p, p.threads[step.t])
    ensures Passed(p, step.t, p', o)
  {
  }

  lemma SignalPasses(p: Pool, step: Step, p': Pool, o: nat)
    requires Enabled(p, step) && p' == Effect(p, step) && |p'.threads| == |p.threads| && (step.Wake? || step.Signal?)
    requires o in p.words && p.words[o].event in p.events && p.words[o].event != 0
    requires WaitsOnAttached(p, p.threads[step.t]) && SignalOk(p, p.threads[step.t])
    requires forall o' <- p.words :: o' != o && p.words[o'].event != 0 ==> p.words[o'].event != p.words[o].event
    ensures Passed(p, step.t, p', o)
  {
  }

  lemma OthersPass(p: Pool, step: Step, p': Pool, o: nat)
    requires Enabled(p, step) && p' == Effect(p, step) && |p'.threads| == |p.threads|
    requires step.Ask? || step.Grab? || step.Create? || step.Quit? || step.Timeout? || step.PushBack?
    requires o in p.words && p.words[o].event in p.events
    ensures Passed(p, step.t, p', o)
  {
  }

  lemma QuietWakeup(p: Pool, step: Step, o: nat)
    requires Enabled(p, step) && KeepsWords(p, step) && o in p.words && FieldsOk(p, o) && NoLostWakeup(p, o)
    requires WaitsOnAttached(p, p.threads[step.t]) && SignalOk(p, p.threads[step.t])
    requires p.words[o].event != 0 <==> WaitingAll(p.words[o])
    requires forall o' <- p.words :: o' != o && p.words[o'].event != 0 ==> p.words[o'].event != p.words[o].event
    ensures o in Effect(p, step).words && NoLostWakeup(Effect(p, step), o)
  {
    hide Count, Sum, Effect, Enabled, KeepsWords, WaitsOnAttached, SignalOk;
    var p' := Effect(p, step);
    OneMoves(p, step);
    QuietMover(p, step, p');
    if p.words[o].event in p.events && p.words[o].event != 0 { QuietSignals(p, step, p', o); }
    Recount(p, step, o, p.words[o].event);
    var signalling := AwakeOrSetting(o, p.words[o].event);
    if signalling(p'.threads[step.t]) { CountSome(p'.threads, step.t, signalling); }
  }

  /** The object a step's compare-and-swap is on. */
  function Target(pc: Pc): nat {
    if pc.Asking? || pc.Waiting? || pc.Awake?
      || pc.Failed? then pc.o else if HoldOf(pc) != Nothing then HoldOf(pc).o else 0
  }

  /** Caller pc has to do with no object but o. */
  predicate About(pc: Pc, o: nat) {
    (HoldOf(pc) != Nothing ==> HoldOf(pc).o == o)
    && (pc.Surplus? || pc.Waiting? || pc.Awake? || pc.Failed? || pc.Passing? ==> pc.o == o)
  }

  lemma Targeted(p: Pool, step: Step)
    requires Enabled(p, step) && !KeepsWords(p, step)
    ensures var o, p' := Target(p.threads[step.t]), Effect(p, step);
      && About(p.threads[step.t], o) && About(p'.threads[step.t], o) && p'.events == p.events
      && (forall o' <- p.words :: o' in p'.words && (o' != o ==> p'.words[o'] == p.words[o']))
    ensures !p.threads[step.t].Setting? && !p.threads[step.t].Passing? && !p.threads[step.t].Waking?
  {
    hide Obtained, Left, Entered, Registered, Grantable;
  }

  lemma OtherFields(p: Pool, step: Step, o: nat)
    requires Enabled(p, step) && !KeepsWords(p, step) && o in p.words && o != Target(p.threads[step.t])
      && FieldsOk(p, o)
    ensures o in Effect(p, step).words && FieldsOk(Effect(p, step), o)
  {
    hide Count, Sum, Effect, KeepsWords;
    Recount(p, step, o, 0);
    Targeted(p, step);
  }

  lemma OtherWakeup(p: Pool, step: Step, o: nat)
    requires Enabled(p, step) && !KeepsWords(p, step) && o in p.words && o != Target(p.threads[step.t])
    requires FieldsOk(p, o) && NoLostWakeup(p, o)
    ensures o in Effect(p, step).words && NoLostWakeup(Effect(p, step), o)
  {
    hide Count, Sum, Effect, KeepsWords;
    Recount(p, step, o, p.words[o].event);
    Targeted(p, step);
  }

  lemma EnterFields(p: Pool, step: Step, o: nat)
    requires Enabled(p, step) && step.Enter? && o in p.words && o == Target(p.threads[step.t]) && FieldsOk(p, o)
    ensures o in Effect(p, step).words && FieldsOk(Effect(p, step), o)
  {
    hide Count, Sum;
    Recount(p, step, o, 0);
  }

  lemma RegisterIs(p: Pool, step: Step, p': Pool, o: nat)
    requires Enabled(p, step) && step.Register? && o in p.words && o == Target(p.threads[step.t])
      && p' == Effect(p, step)
    ensures |p'.threads| == |p.threads| && o in p'.words && p.threads[step.t].Asking?
    ensures var a, b, w := p.threads[step.t], p'.threads[step.t], p.words[o];
      && a.o == o && IsAt(b, o) && b.k == a.k && HoldOf(b) == Nothing && (a.k == Upgrader ==> !w.exUpgrade)
      && p'.words[o].(event := 0) == Registered(w, a.k).(event := 0) && (a.k == Upgrader || !Grantable(w, a.k))
  {
  }

  lemma RegisterFields(p: Pool, step: Step, o: nat)
    requires Enabled(p, step) && step.Register? && o in p.words && o == Target(p.threads[step.t]) && FieldsOk(p, o)
    ensures o in Effect(p, step).words && FieldsOk(Effect(p, step), o)
  {
    hide Count, Sum, Effect, Enabled, Grantable;
    OneMoves(p, step);
    RegisterIs(p, step, Effect(p, step), o);
    Recount(p, step, o, 0);
    CountWithin(Effect(p, step).threads, UpgradersOf(o), WritersOf(o));
  }

  lemma EnterWakeup(p: Pool, step: Step, o: nat)
    requires Enabled(p, step) && step.Enter? && o in p.words && o == Target(p.threads[step.t]) && FieldsOk(p, o)
      && NoLostWakeup(p, o)
    ensures o in Effect(p, step).words && NoLostWakeup(Effect(p, step), o)
  {
    hide Count, Sum;
    Recount(p, step, o, p.words[o].event);
  }

  lemma RegisterWakeup(p: Pool, step: Step, o: nat)
    requires Enabled(p, step) && step.Register? && o in p.words && o == Target(p.threads[step.t]) && FieldsOk(p, o)
      && NoLostWakeup(p, o)
    requires p.words[o].event != 0 <==> WaitingAll(p.words[o])
    requires p.threads[step.t].own.Some? ==> p.threads[step.t].own.value in p.events
    ensures o in Effect(p, step).words && NoLostWakeup(Effect(p, step), o)
  {
    hide Count, Sum;
    Recount(p, step, o, Effect(p, step).words[o].event);
  }

  lemma ObtainIs(p: Pool, step: Step, p': Pool, o: nat)
    requires Enabled(p, step) && (step.SpinIn? || step.Recheck?) && !KeepsWords(p, step) && p' == Effect(p, step)
    requires o in p.words && o == Target(p.threads[step.t])
    ensures |p'.threads| == |p.threads| && o in p'.words && IsAt(p.threads[step.t], o)
    ensures var a, b := p.threads[step.t], p'.threads[step.t];
      && HoldOf(a) == Nothing && HoldOf(b) == Got(o, a.k) && !IsRegistered(b) && Obtainable(p.words[o], a.k)
      && p'.words[o] == Obtained(p.words[o], a.k, step.spins)
  {
    hide Obtained, Obtainable;
  }

  lemma ObtainFields(p: Pool, step: Step, o: nat)
    requires Enabled(p, step) && (step.SpinIn? || step.Recheck?) && !KeepsWords(p, step) && o in p.words
      && o == Target(p.threads[step.t])
    requires FieldsOk(p, o)
    ensures o in Effect(p, step).words && FieldsOk(Effect(p, step), o)
  {
    hide Count, Sum, Effect, Enabled, KeepsWords;
    OneMoves(p, step);
    ObtainIs(p, step, Effect(p, step), o);
    Recount(p, step, o, 0);
    CountWithin(Effect(p, step).threads, UpgradersOf(o), WritersOf(o));
  }

  lemma ObtainWakeup(p: Pool, step: Step, o: nat)
    requires Enabled(p, step) && (step.SpinIn? || step.Recheck?) && !KeepsWords(p, step) && o in p.words
      && o == Target(p.threads[step.t])
    requires FieldsOk(p, o) && NoLostWakeup(p, o) && WaitsOnAttached(p, p.threads[step.t])
    ensures o in Effect(p, step).words && NoLostWakeup(Effect(p, step), o)
  {
    hide Count, Sum;
    Recount(p, step, o, p.words[o].event);
  }

  lemma LeaveIs(p: Pool, step: Step, p': Pool, o: nat)
    requires Enabled(p, step) && step.Leave? && o in p.words && o == Target(p.threads[step.t]) && p' == Effect(p, step)
    ensures |p'.threads| == |p.threads| && o in p'.words && IsAt(p.threads[step.t], o)
    ensures var a, b := p.threads[step.t], p'.threads[step.t];
      && HoldOf(a) == Nothing && HoldOf(b) == Kept(o, a.k) && !IsRegistered(b) && p'.words[o] == Left(p.words[o], a.k)
  {
    hide Left;
  }

  lemma LeaveFields(p: Pool, step: Step, o: nat)
    requires Enabled(p, step) && step.Leave? && o in p.words && o == Target(p.threads[step.t]) && FieldsOk(p, o)
    ensures o in Effect(p, step).words && FieldsOk(Effect(p, step), o)
  {
    hide Count, Sum, Effect, Enabled;
    OneMoves(p, step);
    LeaveIs(p, step, Effect(p, step), o);
    Recount(p, step, o, 0);
    CountWithin(Effect(p, step).threads, UpgradersOf(o), WritersOf(o));
  }

  lemma LeaveWakeup(p: Pool, step: Step, o: nat)
    requires Enabled(p, step) && step.Leave? && o in p.words && o == Target(p.threads[step.t])
      && p.words[o].event in p.events
    requires FieldsOk(p, o) && NoLostWakeup(p, o) && WaitsOnAttached(p, p.threads[step.t])
    ensures NoLostWakeup(Effect(p, step), o)
  {
    hide Count, Sum;
    Recount(p, step, o, p.words[o].event);
    CountSome(p.threads, step.t, if p.threads[step.t].k == Reader then ReadersOf(o) else WritersOf(o));
  }

  lemma ReleaseObject(p: Pool, step: Step, o: nat)
    requires Enabled(p, step) && (step.Downgrade? || step.ReleaseShared? || step.ReleaseExclusive?) && o in p.words
      && o == Target(p.threads[step.t])
    requires FieldsOk(p, o) && NoLostWakeup(p, o) && (p.words[o].event != 0 ==> p.words[o].event in p.events)
    requires p.words[o].event != 0 <==> WaitingAll(p.words[o])
    ensures FieldsOk(Effect(p, step), o) && NoLostWakeup(Effect(p, step), o)
  {
    hide Count, Sum;
    Recount(p, step, o, p.words[o].event);
    CountSome(p.threads, step.t, if step.ReleaseShared? then SharersOf(o) else OwnersOf(o));
  }

  lemma ObjectKeeps(p: Pool, step: Step, o: nat)
    requires Inv(p) && Enabled(p, step) && o in p.words
    ensures o in Effect(p, step).words && FieldsOk(Effect(p, step), o) && NoLostWakeup(Effect(p, step), o)
  {
    hide FieldsOk, NoLostWakeup, Effect, Inv, PlacesOk, AttachedOk, ObjectsOk, SignalsOk, Grantable, Obtainable;
    OneMoves(p, step);
    SameObjects(p, step);
    var pc := p.threads[step.t];
    InvAt(p, step.t);
    InvOf(p, o);
    if KeepsWords(p, step) {
      QuietObject(p, step, o);
      QuietWakeup(p, step, o);
    } else if o != Target(pc) {
      OtherFields(p, step, o);
      OtherWakeup(p, step, o);
    } else if step.Enter? {
      EnterFields(p, step, o);
      EnterWakeup(p, step, o);
    } else if step.Register? {
      RegisterFields(p, step, o);
      RegisterWakeup(p, step, o);
    } else if step.SpinIn? || step.Recheck? {
      ObtainFields(p, step, o);
      ObtainWakeup(p, step, o);
    } else if step.Leave? {
      LeaveFields(p, step, o);
      LeaveWakeup(p, step, o);
    } else {
      ReleaseObject(p, step, o);
    }
  }

  /** What the invariant says of a caller and of an object. */
  lemma InvAt(p: Pool, t: nat)
    requires Inv(p) && t < |p.threads|
    ensures WaitsOnAttached(p, p.threads[t]) && SignalOk(p, p.threads[t])
    ensures p.threads[t].Asking? && p.threads[t].own.Some? ==> p.threads[t].own.value in p.events
    ensures PlacesOk(p) && AttachedOk(p)
  {
    HeldExist(p, t);
  }

  lemma InvOf(p: Pool, o: nat)
    requires Inv(p) && o in p.words
    ensures FieldsOk(p, o) && NoLostWakeup(p, o)
    ensures forall o' <- p.words :: o' != o && p.words[o'].event != 0 ==> p.words[o'].event != p.words[o].event
    ensures (p.words[o].event != 0 ==> p.words[o].event in p.events)
      && (p.words[o].event != 0 <==> WaitingAll(p.words[o]))
  {
    EventsDiffer(p, o);
  }

  lemma EventsDiffer(p: Pool, o: nat)
    requires PlacesOk(p) && AttachedOk(p) && o in p.words
    ensures forall o' <- p.words :: o' != o && p.words[o'].event != 0 ==> p.words[o'].event != p.words[o].event
    ensures p.words[o].event != 0 ==> p.words[o].event in p.events
    ensures p.words[o].event != 0 <==> WaitingAll(p.words[o])
  {
  }

  lemma HeldExist(p: Pool, t: nat)
    requires PlacesOk(p) && t < |p.threads|
    ensures p.threads[t].Asking? && p.threads[t].own.Some? ==> p.threads[t].own.value in p.events
  {
    if p.threads[t].Asking? && p.threads[t].own.Some? { assert p.threads[t].own.value in InHand(p.threads[t]); }
  }

  // ---------------------------------------------------------------- events

  /** Nothing about events changes hands. */
  lemma PlacesKept(p: Pool, t: nat, p': Pool)
    requires PlacesOk(p) && t < |p.threads| && |p'.threads| == |p.threads|
      && p'.threads == p.threads[t := p'.threads[t]]
    requires p'.places == p.places && p'.free == p.free && p'.events.Keys == p.events.Keys
      && InHand(p'.threads[t]) == InHand(p.threads[t])
    requires p'.words.Keys == p.words.Keys && forall o <- p.words :: p'.words[o].event == p.words[o].event
    ensures PlacesOk(p')
  {
    hide InHand;
  }

  /** Event e goes from the free list, or from nowhere, into the hands of t. */
  lemma PlacesTaken(p: Pool, t: nat, p': Pool, e: nat)
    requires PlacesOk(p) && t < |p.threads| && |p'.threads| == |p.threads|
      && p'.threads == p.threads[t := p'.threads[t]] && e != 0
    requires (e in p.places ==> p.places[e] == Free) && p'.places == p.places[e := InHands(t)]
      && p'.free == p.free - {e}
    requires p'.events.Keys == p.events.Keys + {e} && InHand(p.threads[t]) == {} && InHand(p'.threads[t]) == {e}
      && p'.words == p.words
    ensures PlacesOk(p')
  {
    hide InHand;
  }

  /** Event e goes back from the hands of t to the free list. */
  lemma PlacesReturned(p: Pool, t: nat, p': Pool, e: nat)
    requires PlacesOk(p) && t < |p.threads| && |p'.threads| == |p.threads|
      && p'.threads == p.threads[t := p'.threads[t]]
    requires InHand(p.threads[t]) == {e} && InHand(p'.threads[t]) == {} && p'.places == p.places[e := Free]
      && p'.free == p.free + {e}
    requires p'.events.Keys == p.events.Keys && p'.words == p.words
    ensures PlacesOk(p')
  {
    hide InHand;
    assert e in p.places;
  }

  lemma PlacesAttached(p: Pool, t: nat, p': Pool, o: nat, e: nat)
    requires PlacesOk(p) && t < |p.threads| && |p'.threads| == |p.threads|
      && p'.threads == p.threads[t := p'.threads[t]]
    requires InHand(p.threads[t]) == {e} && InHand(p'.threads[t]) == {} && p'.places == p.places[e := Attached(o)]
      && p'.free == p.free
    requires o in p.words && p.words[o].event == 0 && o in p'.words && p'.words == p.words[o := p'.words[o]]
      && p'.words[o].event == e
    requires p'.events.Keys == p.events.Keys
    ensures PlacesOk(p')
  {
    hide InHand;
    assert e in p.places;
  }

  lemma PlacesDetached(p: Pool, t: nat, p': Pool, o: nat, e: nat)
    requires PlacesOk(p) && t < |p.threads| && |p'.threads| == |p.threads|
      && p'.threads == p.threads[t := p'.threads[t]]
    requires InHand(p.threads[t]) == {} && InHand(p'.threads[t]) == {e} && p'.places == p.places[e := InHands(t)]
      && p'.free == p.free
    requires o in p.words && p.words[o].event == e && e != 0 && o in p'.words && p'.words == p.words[o := p'.words[o]]
      && p'.words[o].event == 0
    requires p'.events.Keys == p.events.Keys
    ensures PlacesOk(p')
  {
    hide InHand;
  }

  lemma PlacesKeeps(p: Pool, step: Step)
    requires PlacesOk(p) && Enabled(p, step) && WaitsOnAttached(p, p.threads[step.t])
    ensures PlacesOk(Effect(p, step))
  {
    hide PlacesOk, Effect, Enabled, WaitsOnAttached;
    OneMoves(p, step);
    if step.Grab? || step.Create? || step.PushBack? {
      HandPlaces(p, step, Effect(p, step));
    } else if step.Register? {
      RegisterPlaces(p, step, Effect(p, step));
    } else if step.SpinIn? || step.Recheck? {
      FreedPlaces(p, step, Effect(p, step));
    } else if step.Leave? {
      LeftPlaces(p, step, Effect(p, step));
    } else {
      OtherPlaces(p, step, Effect(p, step));
    }
  }

  lemma HandPlaces(p: Pool, step: Step, p': Pool)
    requires PlacesOk(p) && Enabled(p, step) && p' == Effect(p, step) && |p'.threads| == |p.threads|
    requires step.Grab? || step.Create? || step.PushBack?
    ensures PlacesOk(p')
  {
    hide PlacesOk;
    assert p'.threads == p.threads[step.t := p'.threads[step.t]];
    if step.PushBack? {
      PlacesReturned(p, step.t, p', p.threads[step.t].s);
    } else {
      FreeEvent(p, step.e);
      PlacesTaken(p, step.t, p', step.e);
    }
  }

  lemma RegisterPlaces(p: Pool, step: Step, p': Pool)
    requires PlacesOk(p) && Enabled(p, step) && p' == Effect(p, step) && |p'.threads| == |p.threads| && step.Register?
    ensures PlacesOk(p')
  {
    hide PlacesOk, Grantable;
    var pc := p.threads[step.t];
    assert p'.threads == p.threads[step.t := p'.threads[step.t]];
    if p.words[pc.o].event == 0 {
      PlacesAttached(p, step.t, p', pc.o, pc.own.value);
    } else {
      PlacesKept(p, step.t, p');
    }
  }

  lemma FreedPlaces(p: Pool, step: Step, p': Pool)
    requires PlacesOk(p) && Enabled(p, step) && WaitsOnAttached(p, p.threads[step.t]) && p' == Effect(p, step)
      && |p'.threads| == |p.threads|
    requires step.SpinIn? || step.Recheck?
    ensures PlacesOk(p')
  {
    hide PlacesOk, Obtainable, Obtained;
    var pc := p.threads[step.t];
    AttachedPlace(p, pc);
    ObtainedEvent(p.words[pc.o], pc.k, step.spins);
    assert p'.threads == p.threads[step.t := p'.threads[step.t]];
    if p'.words[pc.o].event == 0 { PlacesDetached(p, step.t, p', pc.o, pc.e); } else { PlacesKept(p, step.t, p'); }
  }

  lemma LeftPlaces(p: Pool, step: Step, p': Pool)
    requires PlacesOk(p) && Enabled(p, step) && WaitsOnAttached(p, p.threads[step.t]) && p' == Effect(p, step)
      && |p'.threads| == |p.threads|
    requires step.Leave?
    ensures PlacesOk(p')
  {
    hide PlacesOk, Left, ActiveAll, ExAll;
    var pc := p.threads[step.t];
    AttachedPlace(p, pc);
    LeftEvent(p.words[pc.o], pc.k);
    assert p'.threads == p.threads[step.t := p'.threads[step.t]];
    if p'.words[pc.o].event == 0 { PlacesDetached(p, step.t, p', pc.o, pc.e); } else { PlacesKept(p, step.t, p'); }
  }

  lemma ObtainedEvent(w: Word, k: Kind, spins: bool)
    ensures Obtained(w, k, spins).event in {0, w.event}
  {
  }

  lemma LeftEvent(w: Word, k: Kind)
    ensures Left(w, k).event in {0, w.event}
  {
  }

  lemma OtherPlaces(p: Pool, step: Step, p': Pool)
    requires PlacesOk(p) && Enabled(p, step) && p' == Effect(p, step) && |p'.threads| == |p.threads|
    requires !step.Grab? && !step.Create? && !step.PushBack? && !step.Register? && !step.SpinIn? && !step.Recheck?
      && !step.Leave?
    ensures PlacesOk(p')
  {
    hide PlacesOk, Grantable, ActiveAll, ExAll;
    assert p'.threads == p.threads[step.t := p'.threads[step.t]];
    PlacesKept(p, step.t, p');
  }

  lemma FreeEvent(p: Pool, e: nat)
    requires PlacesOk(p)
    ensures (e in p.free ==> e != 0 && e in p.places && p.places[e] == Free && e in p.events)
      && (e !in p.events ==> e !in p.places && e !in p.free)
  {
  }

  lemma AttachedPlace(p: Pool, pc: Pc)
    requires PlacesOk(p) && WaitsOnAttached(p, pc)
    ensures (pc.Waiting? || pc.Awake? || pc.Failed?) ==> pc.e in p.places && p.places[pc.e] == Attached(pc.o)
  {
  }

  /** Whether an object has an event follows from whether it has registered callers. */
  lemma EventIffWaiting(p: Pool, step: Step, o: nat)
    requires Enabled(p, step) && o in p.words && WaitsOnAttached(p, p.threads[step.t])
    requires p.words[o].event != 0 <==> WaitingAll(p.words[o])
    requires p.threads[step.t].Asking? && p.threads[step.t].own.Some? ==> p.threads[step.t].own.value != 0
    ensures o in Effect(p, step).words
      && (Effect(p, step).words[o].event != 0 <==> WaitingAll(Effect(p, step).words[o]))
  {
    hide Effect, WaitingAll, WaitsOnAttached, Enabled, Obtainable, Grantable;
    if KeepsWords(p, step) {
      SameWords(p, step);
    } else if step.SpinIn? || step.Recheck? || step.Leave? {
      EventAfterWait(p, step, o);
    } else {
      EventAfterOther(p, step, o);
    }
  }

  lemma SameWords(p: Pool, step: Step)
    requires Enabled(p, step) && KeepsWords(p, step)
    ensures Effect(p, step).words == p.words
  {
    hide Grantable, ActiveAll, ExAll;
  }

  lemma EventAfterWait(p: Pool, step: Step, o: nat)
    requires Enabled(p, step) && o in p.words && WaitsOnAttached(p, p.threads[step.t]) && !KeepsWords(p, step)
    requires (step.SpinIn? || step.Recheck? || step.Leave?) && (p.words[o].event != 0 <==> WaitingAll(p.words[o]))
    ensures o in Effect(p, step).words
      && (Effect(p, step).words[o].event != 0 <==> WaitingAll(Effect(p, step).words[o]))
  {
    hide Obtainable, Grantable, ActiveAll, ExAll;
  }

  lemma EventAfterOther(p: Pool, step: Step, o: nat)
    requires Enabled(p, step) && o in p.words && !KeepsWords(p, step) && !step.SpinIn? && !step.Recheck? && !step.Leave?
    requires p.words[o].event != 0 <==> WaitingAll(p.words[o])
    requires p.threads[step.t].Asking? && p.threads[step.t].own.Some? ==> p.threads[step.t].own.value != 0
    ensures o in Effect(p, step).words
      && (Effect(p, step).words[o].event != 0 <==> WaitingAll(Effect(p, step).words[o]))
  {
    hide Obtainable, Grantable, ActiveAll, ExAll;
  }

  lemma OwnNotZero(p: Pool, pc: Pc, t: nat)
    requires PlacesOk(p) && t < |p.threads| && p.threads[t] == pc
    ensures pc.Asking? && pc.own.Some? ==> pc.own.value != 0
  {
    if pc.Asking? && pc.own.Some? { assert pc.own.value in InHand(pc); }
  }

  /** A caller that is registered keeps the event attached to its object. */
  lemma RegisteredCounts(p: Pool, t: nat)
    requires t < |p.threads| && IsRegistered(p.threads[t]) && p.threads[t].o in p.words && FieldsOk(p, p.threads[t].o)
    ensures WaitingAll(p.words[p.threads[t].o])
  {
    var pc := p.threads[t];
    CountSome(p.threads, t, if pc.k == Reader then ReadersOf(pc.o) else WritersOf(pc.o));
  }

  /** An attached event is not replaced. */
  lemma EventSteady(p: Pool, step: Step, o: nat)
    requires Enabled(p, step) && o in p.words && o in Effect(p, step).words && p.words[o].event != 0
    ensures Effect(p, step).words[o].event in {0, p.words[o].event}
  {
    hide Effect, Enabled, KeepsWords;
    if KeepsWords(p, step) {
      SameWords(p, step);
    } else if step.SpinIn? || step.Recheck? || step.Leave? {
      EventMayGo(p, step, o);
    } else {
      EventStays(p, step, o);
    }
  }

  lemma EventMayGo(p: Pool, step: Step, o: nat)
    requires Enabled(p, step) && o in p.words && o in Effect(p, step).words
      && (step.SpinIn? || step.Recheck? || step.Leave?)
    ensures Effect(p, step).words[o].event in {0, p.words[o].event}
  {
    hide Obtainable, Obtained, Left;
    var pc := p.threads[step.t];
    LeftEvent(p.words[pc.o], pc.k);
    if !step.Leave? { ObtainedEvent(p.words[pc.o], pc.k, step.spins); }
  }

  lemma EventStays(p: Pool, step: Step, o: nat)
    requires Enabled(p, step) && o in p.words && o in Effect(p, step).words && p.words[o].event != 0
    requires !KeepsWords(p, step) && !step.SpinIn? && !step.Recheck? && !step.Leave?
    ensures Effect(p, step).words[o].event == p.words[o].event
  {
    hide Obtainable, Grantable, ActiveAll, ExAll;
  }

  lemma OthersWait(p: Pool, step: Step, u: nat)
    requires Enabled(p, step) && u < |p.threads| && u != step.t && WaitsOnAttached(p, p.threads[u])
    requires var p' := Effect(p, step);
      forall o <- p.words :: o in p'.words && FieldsOk(p', o) && (p'.words[o].event != 0 <==> WaitingAll(p'.words[o]))
    ensures u < |Effect(p, step).threads| && WaitsOnAttached(Effect(p, step), Effect(p, step).threads[u])
  {
    hide Effect, Enabled, FieldsOk, WaitingAll;
    OneMoves(p, step);
    var p' := Effect(p, step);
    var pc := p.threads[u];
    if IsRegistered(pc) {
      EventSteady(p, step, pc.o);
      RegisteredCounts(p', u);
    }
  }

  lemma MoverWaits(p: Pool, step: Step, p': Pool)
    requires Enabled(p, step) && p' == Effect(p, step) && |p'.threads| == |p.threads|
      && WaitsOnAttached(p, p.threads[step.t])
    requires p.threads[step.t].Asking? && p.threads[step.t].own.Some? ==> p.threads[step.t].own.value != 0
    ensures WaitsOnAttached(p', p'.threads[step.t])
  {
    hide Effect, Enabled, WaitsOnAttached;
    OneMoves(p, step);
    if step.Register? {
      RegistererWaits(p, step, p');
    } else if step.SpinIn? || step.Recheck? || step.Leave? {
      RegisteredWaits(p, step, p');
    } else if step.Wake? || step.Timeout? || step.Signal? || step.PushBack? {
      WaiterWaits(p, step, p');
    } else {
      NotRegistered(p, step, p');
      NobodyWaits(p', p'.threads[step.t]);
    }
  }

  lemma NobodyWaits(p: Pool, pc: Pc)
    requires !IsRegistered(pc)
    ensures WaitsOnAttached(p, pc)
  {
  }

  lemma RegistererWaits(p: Pool, step: Step, p': Pool)
    requires Enabled(p, step) && p' == Effect(p, step) && |p'.threads| == |p.threads| && step.Register?
    requires p.threads[step.t].Asking? && p.threads[step.t].own.Some? ==> p.threads[step.t].own.value != 0
    ensures WaitsOnAttached(p', p'.threads[step.t])
  {
    hide Grantable;
  }

  lemma RegisteredWaits(p: Pool, step: Step, p': Pool)
    requires Enabled(p, step) && p' == Effect(p, step) && |p'.threads| == |p.threads|
      && (step.SpinIn? || step.Recheck? || step.Leave?)
    requires WaitsOnAttached(p, p.threads[step.t])
    ensures WaitsOnAttached(p', p'.threads[step.t])
  {
    hide Obtainable, ActiveAll, ExAll, Obtained, Left;
  }

  lemma WaiterWaits(p: Pool, step: Step, p': Pool)
    requires Enabled(p, step) && p' == Effect(p, step) && |p'.threads| == |p.threads|
      && (step.Wake? || step.Timeout? || step.Signal? || step.PushBack?)
    requires WaitsOnAttached(p, p.threads[step.t])
    ensures WaitsOnAttached(p', p'.threads[step.t])
  {
  }

  lemma NotRegistered(p: Pool, step: Step, p': Pool)
    requires Enabled(p, step) && p' == Effect(p, step) && |p'.threads| == |p.threads| && !step.Register?
    requires !step.SpinIn? && !step.Recheck? && !step.Leave? && !step.Wake? && !step.Timeout? && !step.Signal?
      && !step.PushBack?
    ensures !IsRegistered(p'.threads[step.t])
  {
    hide Grantable, ActiveAll, ExAll, Entered;
  }

  lemma AttachedKeeps(p: Pool, step: Step)
    requires PlacesOk(p) && AttachedOk(p) && Enabled(p, step)
    requires var p' := Effect(p, step); p'.words.Keys == p.words.Keys && forall o <- p.words :: FieldsOk(p', o)
    ensures AttachedOk(Effect(p, step))
  {
    hide FieldsOk, Effect, PlacesOk, Enabled, WaitsOnAttached;
    OneMoves(p, step);
    OwnNotZero(p, p.threads[step.t], step.t);
    var p' := Effect(p, step);
    forall o <- p'.words ensures p'.words[o].event != 0 <==> WaitingAll(p'.words[o]) { EventIffWaiting(p, step, o); }
    forall u | 0 <= u < |p'.threads| ensures WaitsOnAttached(p', p'.threads[u]) {
      if u == step.t { MoverWaits(p, step, p'); } else { OthersWait(p, step, u); }
    }
  }

  lemma OneMoves(p: Pool, step: Step)
    requires Enabled(p, step)
    ensures var p' := Effect(p, step);
      step.t < |p.threads| == |p'.threads| && p'.threads == p.threads[step.t := p'.threads[step.t]]
    ensures p.events.Keys <= Effect(p, step).events.Keys
  {
    hide Obtainable, Grantable, ActiveAll, ExAll;
  }

  lemma SameObjects(p: Pool, step: Step)
    requires Enabled(p, step)
    ensures Effect(p, step).words.Keys == p.words.Keys
  {
    hide Obtainable, Grantable, ActiveAll, ExAll;
  }

  lemma SignalsKeep(p: Pool, step: Step)
    requires Inv(p) && Enabled(p, step)
    ensures Effect(p, step).words.Keys == p.words.Keys && SignalsOk(Effect(p, step))
  {
    hide Effect, Enabled, ObjectsOk, PlacesOk, AttachedOk, WaitsOnAttached, WaitingAll;
    OneMoves(p, step);
    SameObjects(p, step);
    InvAt(p, step.t);
    AttachedExist(p);
    var p' := Effect(p, step);
    MoverSignals(p, step, p');
    forall u | 0 <= u < |p'.threads| ensures SignalOk(p', p'.threads[u]) {
      if u != step.t { assert SignalOk(p, p.threads[u]); }
    }
  }

  lemma AttachedExist(p: Pool)
    requires PlacesOk(p) && AttachedOk(p)
    ensures forall o <- p.words :: WaitingAll(p.words[o]) ==> p.words[o].event in p.events
  {
  }

  lemma MoverSignals(p: Pool, step: Step, p': Pool)
    requires Enabled(p, step) && p' == Effect(p, step) && |p'.threads| == |p.threads| && p'.words.Keys == p.words.Keys
    requires SignalOk(p, p.threads[step.t]) && WaitsOnAttached(p, p.threads[step.t])
    requires forall o <- p.words :: WaitingAll(p.words[o]) ==> p.words[o].event in p.events
    ensures SignalOk(p', p'.threads[step.t])
  {
    hide Effect, SignalOk, Enabled;
    if step.Downgrade? || step.ReleaseShared? || step.ReleaseExclusive? {
      ReleaserSignals(p, step);
    } else if step.Leave? {
      LeaverSignals(p, step);
    } else if step.SpinIn? || step.Recheck? {
      ObtainerSignals(p, step, p');
    } else if step.Wake? || step.Timeout? || step.Signal? || step.PushBack? {
      WaiterSignals(p, step, p');
    } else {
      AskerSignals(p, step, p');
    }
  }

  lemma AskerSignals(p: Pool, step: Step, p': Pool)
    requires Enabled(p, step) && p' == Effect(p, step) && |p'.threads| == |p.threads| && p'.words.Keys == p.words.Keys
    requires step.Ask? || step.Grab? || step.Create? || step.Enter? || step.Quit? || step.Register?
    requires SignalOk(p, p.threads[step.t])
    ensures SignalOk(p', p'.threads[step.t])
  {
    hide Grantable, Entered, Registered;
  }

  lemma ObtainerSignals(p: Pool, step: Step, p': Pool)
    requires Enabled(p, step) && p' == Effect(p, step) && |p'.threads| == |p.threads| && p'.words.Keys == p.words.Keys
    requires (step.SpinIn? || step.Recheck?) && WaitsOnAttached(p, p.threads[step.t])
    ensures SignalOk(p', p'.threads[step.t])
  {
    hide Obtainable, Obtained;
  }

  lemma WaiterSignals(p: Pool, step: Step, p': Pool)
    requires Enabled(p, step) && p' == Effect(p, step) && |p'.threads| == |p.threads| && p'.words.Keys == p.words.Keys
    requires step.Wake? || step.Timeout? || step.Signal? || step.PushBack?
    requires SignalOk(p, p.threads[step.t])
    ensures SignalOk(p', p'.threads[step.t])
  {
  }

  lemma ReleaserSignals(p: Pool, step: Step)
    requires Enabled(p, step) && (step.Downgrade? || step.ReleaseShared? || step.ReleaseExclusive?)
    requires forall o <- p.words :: WaitingAll(p.words[o]) ==> p.words[o].event in p.events
    ensures SignalOk(Effect(p, step), Effect(p, step).threads[step.t])
  {
  }

  lemma LeaverSignals(p: Pool, step: Step)
    requires Enabled(p, step) && step.Leave? && WaitsOnAttached(p, p.threads[step.t])
    requires forall o <- p.words :: WaitingAll(p.words[o]) ==> p.words[o].event in p.events
    ensures SignalOk(Effect(p, step), Effect(p, step).threads[step.t])
  {
  }

  // ---------------------------------------------------------------- runs

  lemma StepKeeps(p: Pool, step: Step, p': Pool)
    requires Inv(p) && Moves(p, step, p')
    ensures Inv(p')
  {
    hide FieldsOk, NoLostWakeup, Effect, Enabled, PlacesOk, AttachedOk, SignalsOk, WaitsOnAttached;
    OneMoves(p, step);
    SignalsKeep(p, step);
    InvAt(p, step.t);
    PlacesKeeps(p, step);
    forall o <- p.words ensures FieldsOk(p', o) && NoLostWakeup(p', o) { ObjectKeeps(p, step, o); }
    AttachedKeeps(p, step);
  }

  lemma CreatedInv(p: Pool)
    requires Created(p)
    ensures Inv(p)
  {
    forall o <- p.words ensures FieldsOk(p, o) && NoLostWakeup(p, o) {
      CountNone(p.threads, OwnersOf(o));
      CountNone(p.threads, SharersOf(o));
      CountNone(p.threads, ReadersOf(o));
      CountNone(p.threads, WritersOf(o));
      CountNone(p.threads, UpgradersOf(o));
    }
  }

  lemma {:induction false} RunInv(states: seq<Pool>, steps: seq<Step>, i: nat)
    requires IsRun(states, steps) && i <= |steps|
    ensures Inv(states[i])
  {
    hide Inv, Moves, Created;
    if i == 0 {
      CreatedInv(states[0]);
    } else {
      RunInv(states, steps, i - 1);
      StepKeeps(states[i - 1], steps[i - 1], states[i]);
    }
  }

  /** Every object of the pool excludes as a reader/writer lock should, on every run. */
  lemma PoolIsSafe(states: seq<Pool>, steps: seq<Step>, o: nat)
    ensures IsRun(states, steps) && o in states[|steps|].words ==> Safe(states[|steps|], o)
  {
    if IsRun(states, steps) && o in states[|steps|].words {
      RunInv(states, steps, |steps|);
      FieldsSafe(states[|steps|], o);
    }
  }

  /** No wake-up is lost, though events move between objects while signals are on their way. */
  lemma PoolWakeups(states: seq<Pool>, steps: seq<Step>, o: nat)
    ensures IsRun(states, steps) && o in states[|steps|].words ==> NoLostWakeup(states[|steps|], o)
  {
    if IsRun(states, steps) && o in states[|steps|].words { RunInv(states, steps, |steps|); }
  }

  /** Every event is in exactly one place, an object has one exactly while somebody is registered, and
      every registered caller waits on the event its object has. */
  lemma PoolEvents(states: seq<Pool>, steps: seq<Step>)
    ensures IsRun(states, steps) ==> PlacesOk(states[|steps|]) && AttachedOk(states[|steps|])
  {
    if IsRun(states, steps) { RunInv(states, steps, |steps|); }
  }
}
