/** The lock pool of LF.c: many lock objects share a few events, and an event is attached to an object
    only while somebody waits for it.  Any number of callers, objects and events; one step per
    successful compare-and-swap of an object's word, per event operation, and per push or pop of the
    free events.  Non-recursive mode; a thread that holds several objects counts as several callers. */
module PoolLock {
  import opened Basics
  import opened Tally

  /** The fields packed into an object's state; event is 0 while none is attached. */
  datatype Word = Word(
    shActive: nat, exUpgrade: bool, exActive: bool, exWaiting: nat, shWaiting: nat, spin: bool, event: nat)

  /** An event pair: the auto-reset writer event and the tokens in the readers' semaphore. */
  datatype Event = Event(isSet: bool, tokens: nat)

  datatype Kind = Reader | Writer | Upgrader

  datatype Hold = Nothing | Sharing(o: nat) | Owning(o: nat)

  /** Where a caller is.  Asking: in the acquire loop, maybe with an event of its own.  Surplus:
      registered, with an event s of its own that turned out not to be needed. */
  datatype Pc =
    | Holding(h: Hold)
    | Asking(o: nat, k: Kind, own: Option<nat>)
    | Surplus(o: nat, k: Kind, e: nat, s: nat)
    | Waiting(o: nat, k: Kind, e: nat)
    | Awake(o: nat, k: Kind, e: nat)
    | Failed(o: nat, k: Kind, e: nat)
    | Passing(o: nat, k: Kind, e: nat)
    | Returning(s: nat, h: Hold)
    | Setting(e: nat)
    | Waking(e: nat, n: nat, h: Hold)

  /** Where an event is; kept for the proof. */
  datatype Place = Free | Attached(o: nat) | InHands(t: nat)

  datatype Pool = Pool(
    words: map<nat, Word>,
    events: map<nat, Event>,
    free: set<nat>,
    threads: seq<Pc>,
    places: map<nat, Place>)

  datatype Step =
    | Ask(t: nat, o: nat, k: Kind)
    | Grab(t: nat, e: nat)
    | Create(t: nat, e: nat)
    | Enter(t: nat, spins: bool)
    | Quit(t: nat)
    | Register(t: nat)
    | SpinIn(t: nat, spins: bool)
    | Wake(t: nat)
    | Timeout(t: nat)
    | Leave(t: nat)
    | Recheck(t: nat, spins: bool)
    | Downgrade(t: nat, spins: bool)
    | ReleaseShared(t: nat)
    | ReleaseExclusive(t: nat)
    | Signal(t: nat)
    | PushBack(t: nat)

  predicate ExAll(w: Word) { w.exWaiting != 0 || w.exActive }

  predicate ActiveAll(w: Word) { w.exActive || w.shActive != 0 }

  predicate WaitingAll(w: Word) { w.exWaiting != 0 || w.shWaiting != 0 }

  function Dec(n: nat): nat { if n == 0 then 0 else n - 1 }

  /** May a caller that has not registered get in now?  An upgrader gives up its shared lock first. */
  predicate Grantable(w: Word, k: Kind) {
    match k
    case Reader => !ExAll(w)
    case Writer => (!ActiveAll(w) && w.exWaiting == 0) || (w.spin && !ActiveAll(w) && !w.exUpgrade)
    case Upgrader => !w.exUpgrade && !ActiveAll(w.(shActive := Dec(w.shActive)))
  }

  /** May a registered caller get in now? */
  predicate Obtainable(w: Word, k: Kind) {
    match k
    case Reader => !ExAll(w)
    case Writer => !ActiveAll(w) && !w.exUpgrade
    case Upgrader => !ActiveAll(w)
  }

  function Entered(w: Word, k: Kind, spins: bool): Word {
    match k
    case Reader => w.(shActive := w.shActive + 1, spin := spins && (w.shActive == 0 || w.spin))
    case Writer => w.(exActive := true, spin := spins)
    case Upgrader => w.(exActive := true, spin := spins, shActive := Dec(w.shActive))
  }

  function Registered(w: Word, k: Kind): Word {
    match k
    case Reader => w.(shWaiting := w.shWaiting + 1)
    case Writer => w.(exWaiting := w.exWaiting + 1)
    case Upgrader => w.(shActive := Dec(w.shActive), exUpgrade := true, exWaiting := w.exWaiting + 1)
  }

  function Detached(w: Word): Word {
    if WaitingAll(w) then w else w.(event := 0)
  }

  function Obtained(w: Word, k: Kind, spins: bool): Word {
    Detached(match k
             case Reader => w.(shActive := w.shActive + 1, shWaiting := Dec(w.shWaiting), spin := spins
               && (w.shActive == 0 || w.spin))
             case Writer => w.(exActive := true, exWaiting := Dec(w.exWaiting), spin := spins)
             case Upgrader => w.(exActive := true, exWaiting := Dec(w.exWaiting), exUpgrade := false, spin := spins))
  }

  /** A registered caller gives up; an upgrader takes its shared lock back. */
  function Left(w: Word, k: Kind): Word {
    Detached(match k
             case Reader => w.(shWaiting := Dec(w.shWaiting))
             case Writer => w.(exWaiting := Dec(w.exWaiting))
             case Upgrader => w.(exWaiting := Dec(w.exWaiting), exUpgrade := false, shActive := w.shActive + 1))
  }

  function Got(o: nat, k: Kind): Hold { if k == Reader then Sharing(o) else Owning(o) }

  function Kept(o: nat, k: Kind): Hold { if k == Upgrader then Sharing(o) else Nothing }

  /** After the call: push back an event that is not needed. */
  function Ending(own: Option<nat>, h: Hold): Pc {
    if own.Some? then Returning(own.value, h) else Holding(h)
  }

  predicate IsRegistered(pc: Pc) {
    pc.Surplus? || pc.Waiting? || pc.Awake? || pc.Failed? || pc.Passing?
  }

  predicate IsAt(pc: Pc, o: nat) {
    IsRegistered(pc) && pc.o == o
  }

  predicate Enabled(p: Pool, step: Step) {
    step.t < |p.threads| &&
    var pc := p.threads[step.t];
    match step
    case Ask(_, o, k) => o in p.words && pc.Holding? && pc.h == Kept(o, k)
    case Grab(_, e) => pc.Asking? && pc.own.None? && e in p.free
    case Create(_, e) => pc.Asking? && pc.own.None? && e != 0 && e !in p.events
    case Enter(_, _) => pc.Asking? && pc.o in p.words && Grantable(p.words[pc.o], pc.k)
    case Quit(_) => pc.Asking?
    case Register(_) =>
      pc.Asking? && pc.o in p.words && !Grantable(p.words[pc.o], pc.k)
        && (pc.k == Upgrader ==> !p.words[pc.o].exUpgrade)
      && (p.words[pc.o].event == 0 ==> pc.own.Some?)
    case SpinIn(_, _) => pc.Waiting? && pc.o in p.words && Obtainable(p.words[pc.o], pc.k)
    case Wake(_) => pc.Waiting? && pc.e in p.events
      && if pc.k == Reader then p.events[pc.e].tokens > 0 else p.events[pc.e].isSet
    case Timeout(_) => pc.Waiting?
    case Leave(_) => pc.Failed? && pc.o in p.words
    case Recheck(_, _) => pc.Awake? && pc.o in p.words
    case Downgrade(_, _) => pc.Holding? && pc.h.Owning? && pc.h.o in p.words
    case ReleaseShared(_) => pc.Holding? && pc.h.Sharing? && pc.h.o in p.words
    case ReleaseExclusive(_) => pc.Holding? && pc.h.Owning? && pc.h.o in p.words
    case Signal(_) => (pc.Setting? || pc.Passing? || pc.Waking?) && pc.e in p.events
    case PushBack(_) => pc.Returning? || pc.Surplus?
  }

  function Move(p: Pool, t: nat, pc: Pc): Pool
    requires t < |p.threads|
  {
    p.(threads := p.threads[t := pc])
  }

  /** Thread t stores word w in object o and goes on at pc. */
  function Store(p: Pool, t: nat, pc: Pc, o: nat, w: Word): Pool
    requires t < |p.threads|
  {
    Move(p, t, pc).(words := p.words[o := w])
  }

  /** Thread t stores word w; if that detaches event e, the event is in its hands. */
  function StoreFreeing(p: Pool, t: nat, o: nat, w: Word, e: nat, freed: Pc, kept: Pc): Pool
    requires t < |p.threads|
  {
    if w.event == 0 then Store(p, t, freed, o, w).(places := p.places[e := InHands(t)]) else Store(p, t, kept, o, w)
  }

  /** After the last writer is gone the waiting readers are released. */
  function WakeReaders(w: Word, h: Hold): Pc {
    if !ExAll(w) && w.shWaiting != 0 then Waking(w.event, w.shWaiting, h) else Holding(h)
  }

  function Effect(p: Pool, step: Step): Pool
    requires Enabled(p, step)
  {
    var t, pc := step.t, p.threads[step.t];
    match step
    case Ask(_, o, k) => Move(p, t, Asking(o, k, None))
    case Grab(_, e) => Move(p, t, pc.(own := Some(e))).(free := p.free - {e}, places := p.places[e := InHands(t)])
    case Create(_, e) => Move(p, t, pc.(own := Some(e))).(events := p.events[e := Event(false, 0)],
      places := p.places[e := InHands(t)])
    case Enter(_, spins) => Store(p, t, Ending(pc.own, Got(pc.o, pc.k)), pc.o, Entered(p.words[pc.o], pc.k, spins))
    case Quit(_) => Move(p, t, Ending(pc.own, Kept(pc.o, pc.k)))
    case Register(_) =>
      var w := Registered(p.words[pc.o], pc.k);
      if w.event == 0 then
        Store(p, t, Waiting(pc.o, pc.k, pc.own.value), pc.o,
          w.(event := pc.own.value)).(places := p.places[pc.own.value := Attached(pc.o)])
      else
        Store(p, t, if pc.own.Some? then Surplus(pc.o, pc.k, w.event, pc.own.value)
          else Waiting(pc.o, pc.k, w.event), pc.o, w)
    case SpinIn(_, spins) => ObtainStep(p, t, spins)
    case Wake(_) =>
      Move(p, t, Awake(pc.o, pc.k, pc.e)).(events := p.events[pc.e :=
        if pc.k == Reader then p.events[pc.e].(tokens := Dec(p.events[pc.e].tokens))
          else p.events[pc.e].(isSet := false)])
    case Timeout(_) => Move(p, t, Failed(pc.o, pc.k, pc.e))
    case Leave(_) =>
      var w, h := Left(p.words[pc.o], pc.k), Kept(pc.o, pc.k);
      StoreFreeing(p, t, pc.o, w, pc.e, Returning(pc.e, h), if pc.k == Reader then Holding(h) else WakeReaders(w, h))
    case Recheck(_, spins) =>
      if Obtainable(p.words[pc.o], pc.k) then ObtainStep(p, t, spins)
      else Move(p, t, if pc.k == Writer
        && p.words[pc.o].exUpgrade then Passing(pc.o, pc.k, pc.e) else Waiting(pc.o, pc.k, pc.e))
    case Downgrade(_, spins) =>
      var o := pc.h.o;
      var w := p.words[o].(exActive := false, spin := spins, shActive := p.words[o].shActive + 1);
      Store(p, t, WakeReaders(w, Sharing(o)), o, w)
    case ReleaseShared(_) =>
      var o := pc.h.o;
      var w := p.words[o].(shActive := Dec(p.words[o].shActive));
      Store(p, t, if !ActiveAll(w) && w.exWaiting != 0 then Setting(w.event) else Holding(Nothing), o, w)
    case ReleaseExclusive(_) =>
      var o := pc.h.o;
      var w := p.words[o].(exActive := false);
      Store(p, t, if w.exWaiting == 0 then WakeReaders(w, Nothing) else if w.shActive == 0 then Setting(w.event)
        else Holding(Nothing), o, w)
    case Signal(_) =>
      if pc.Waking?
        then Move(p, t,
        Holding(pc.h)).(events := p.events[pc.e := p.events[pc.e].(tokens := p.events[pc.e].tokens + pc.n)])
      else Move(p, t, if pc.Passing? then Waiting(pc.o, pc.k, pc.e)
        else Holding(Nothing)).(events := p.events[pc.e := p.events[pc.e].(isSet := true)])
    case PushBack(_) =>
      Move(p, t, if pc.Surplus? then Waiting(pc.o, pc.k, pc.e)
        else Holding(pc.h)).(free := p.free + {pc.s}, places := p.places[pc.s := Free])
  }

  /** A registered caller gets in. */
  function ObtainStep(p: Pool, t: nat, spins: bool): Pool
    requires t < |p.threads| && (p.threads[t].Waiting? || p.threads[t].Awake?) && p.threads[t].o in p.words
  {
    var pc := p.threads[t];
    StoreFreeing(p, t, pc.o, Obtained(p.words[pc.o], pc.k, spins), pc.e, Returning(pc.e, Got(pc.o, pc.k)),
      Holding(Got(pc.o, pc.k)))
  }

  predicate Moves(p: Pool, step: Step, p': Pool) {
    Enabled(p, step) && p' == Effect(p, step)
  }

  /** A pool just created: no object locked, no event in use. */
  predicate Created(p: Pool) {
    && (forall o <- p.words :: p.words[o] == Word(0, false, false, 0, 0, false, 0))
    && (forall t :: 0 <= t < |p.threads| ==> p.threads[t] == Holding(Nothing))
    && 0 !in p.events && p.places.Keys == p.events.Keys == p.free && (forall e <- p.places :: p.places[e] == Free)
    && (forall e <- p.events :: p.events[e] == Event(false, 0))
  }

  predicate IsRun(states: seq<Pool>, steps: seq<Step>) {
    |states| == |steps| + 1 && Created(states[0]) && forall i ::
      0 <= i < |steps| ==> Moves(states[i], steps[i], states[i + 1])
  }

  // ---------------------------------------------------------------- counting callers

  /** Reader tokens of event e that a caller is about to release. */
  function PendingAt(e: nat): Pc -> nat { (pc: Pc) => if pc.Waking? && pc.e == e then pc.n else 0 }

  function HoldOf(pc: Pc): Hold {
    match pc
    case Holding(h) => h
    case Returning(_, h) => h
    case Waking(_, _, h) => h
    case Asking(o, k, _) => Kept(o, k)
    case _ => Nothing
  }

  function OwnersOf(o: nat): Pc -> bool { (pc: Pc) => HoldOf(pc) == Owning(o) }

  function SharersOf(o: nat): Pc -> bool { (pc: Pc) => HoldOf(pc) == Sharing(o) }

  function ReadersOf(o: nat): Pc -> bool { (pc: Pc) => IsAt(pc, o) && pc.k == Reader }

  function WritersOf(o: nat): Pc -> bool { (pc: Pc) => IsAt(pc, o) && pc.k != Reader }

  function UpgradersOf(o: nat): Pc -> bool { (pc: Pc) => IsAt(pc, o) && pc.k == Upgrader }

  function AwakeReadersOf(o: nat): Pc -> bool { (pc: Pc) => pc.Awake? && pc.o == o && pc.k == Reader }

  /** Callers of o that have consumed its event, or callers about to set event e. */
  function AwakeOrSetting(o: nat, e: nat): Pc -> bool {
    (pc: Pc) => (pc.Awake? && pc.o == o && pc.k != Reader) || ((pc.Passing? || pc.Setting?) && pc.e == e)
  }

  // ---------------------------------------------------------------- what the pool promises

  /** A writer excludes readers and other writers, and a pending upgrade means no active writer. */
  predicate Safe(p: Pool, o: nat)
    requires o in p.words
  {
    && Count(p.threads, OwnersOf(o)) <= 1
       && (Count(p.threads, OwnersOf(o)) == 1 ==> Count(p.threads, SharersOf(o)) == 0)
    && (p.words[o].exUpgrade ==> p.words[o].exWaiting > 0 && !p.words[o].exActive)
  }

  /** The event attached to an idle object with writers registered is set, about to be set, or in the
      hands of an awake writer; with no writer active or waiting, its tokens issued, pending or
      consumed cover every registered reader. */
  predicate NoLostWakeup(p: Pool, o: nat)
    requires o in p.words
  {
    var w := p.words[o];
    && (!ActiveAll(w) && w.exWaiting > 0 ==>
       w.event in p.events && (p.events[w.event].isSet || Count(p.threads, AwakeOrSetting(o, w.event)) > 0))
    && (!ExAll(w) && w.shWaiting > 0 ==>
          w.event in p.events
            && p.events[w.event].tokens + Sum(p.threads, PendingAt(w.event)) +
            Count(p.threads, AwakeReadersOf(o)) >= Count(p.threads, ReadersOf(o)))
  }

  /** The event in a caller's hands, if any. */
  function InHand(pc: Pc): set<nat> {
    match pc
    case Asking(_, _, own) => if own.Some? then {own.value} else {}
    case Surplus(_, _, _, s) => {s}
    case Returning(s, _) => {s}
    case _ => {}
  }

  /** Every event is in exactly one place: the free list, one object, or one caller's hands. */
  predicate PlacesOk(p: Pool) {
    && p.places.Keys == p.events.Keys && 0 !in p.events
    && (forall e <- p.places :: p.places[e].Free? <==> e in p.free) && p.free <= p.places.Keys
    && (forall e <- p.places :: p.places[e].Attached? ==> p.places[e].o in p.words && p.words[p.places[e].o].event == e)
    && (forall o <- p.words ::
       p.words[o].event != 0 ==> p.words[o].event in p.places && p.places[p.words[o].event] == Attached(o))
    && (forall e <- p.places ::
       p.places[e].InHands? ==> p.places[e].t < |p.threads| && e in InHand(p.threads[p.places[e].t]))
    && (forall t :: 0 <= t < |p.threads| ==> forall e <- InHand(p.threads[t]) ::
       e in p.places && p.places[e] == InHands(t))
  }

  /** An object has an event exactly while somebody is registered, and every registered caller waits
      on the event that is attached. */
  predicate AttachedOk(p: Pool) {
    && (forall o <- p.words :: p.words[o].event != 0 <==> WaitingAll(p.words[o]))
    && (forall t :: 0 <= t < |p.threads| ==> WaitsOnAttached(p, p.threads[t]))
  }

  predicate WaitsOnAttached(p: Pool, pc: Pc) {
    IsRegistered(pc) ==> pc.o in p.words && p.words[pc.o].event == pc.e && pc.e != 0
  }
}
