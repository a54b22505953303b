/** The growing table that maps event indexes to events in the lock pool of LF.c.  Any number of
    threads add events at once; one step per load, copy or compare-and-swap.  Allocation succeeds. */
module EventTable {
  import opened Basics
  import opened Bits

  const MIN_SIZE: nat := 32
  const MAX_SIZE: nat := 32768

  predicate IsPowerOfTwo(c: nat) {
    c == 1 || (c > 1 && c % 2 == 0 && IsPowerOfTwo(c / 2))
  }

  /** The test of the counter with the bits of its predecessor is a test for powers of two. */
  lemma {:induction false} PowerTest(c: nat)
    requires c > 0
    ensures And(c - 1, c) == 0 <==> IsPowerOfTwo(c)
  {
    hide And;
    var k := c / 2;
    AndHalf(c - 1, c);
    if c % 2 == 0 {
      assert (c - 1) / 2 == k - 1 && (c - 1) % 2 == 1;
      PowerTest(k);
    } else {
      assert (c - 1) / 2 == k && (c - 1) % 2 == 0;
      AndSelf(k);
    }
  }

  lemma {:induction false} AndSelf(x: nat)
    ensures And(x, x) == x
  {
    hide And;
    if x == 0 {
      AndZero(x);
    } else {
      AndHalf(x, x);
      AndSelf(x / 2);
      assert (x % 2) * (x % 2) == x % 2;
    }
  }

  /** No room in a table that holds c entries. */
  predicate IsFull(c: nat) { c >= MIN_SIZE && IsPowerOfTwo(c) }

  /** Where a thread is: e is the event it is adding, (tab, c) the word it loaded. */
  datatype Pc =
    | Idle
    | Adding(e: nat)
    | Loaded(e: nat, tab: nat, c: nat)
    | Copied(e: nat, tab: nat, c: nat, grown: seq<nat>)
    | Helping(e: nat, tab: nat, c: nat)
    | Placed(e: nat, tab: nat, c: nat)

  /** The packed word (address of the table, number of entries), every table ever published, and the
      threads.  Kept for the proof: the events in the order of their indexes, and what was returned. */
  datatype Table = Table(
    tab: nat,
    cnt: nat,
    tables: map<nat, seq<nat>>,
    threads: seq<Pc>,
    order: seq<nat>,
    known: set<nat>,
    given: set<(nat, nat)>)

  datatype Step =
    | Create(t: nat, e: nat)
    | Load(t: nat)
    | Copy(t: nat)
    | Swap(t: nat, at: nat)
    | Occupy(t: nat)
    | Bump(t: nat)

  predicate Enabled(s: Table, step: Step) {
    step.t < |s.threads| &&
    var pc := s.threads[step.t];
    match step
    case Create(_, e) => pc.Idle? && e != 0 && e !in s.known
    case Load(_) => pc.Adding?
    case Copy(_) => pc.Loaded? && IsFull(pc.c) && pc.tab in s.tables && pc.c <= |s.tables[pc.tab]|
    case Swap(_, at) => pc.Copied? && at !in s.tables
    case Occupy(_) => pc.Loaded? && !IsFull(pc.c) && pc.tab in s.tables && pc.c < |s.tables[pc.tab]|
    case Bump(_) => pc.Helping? || pc.Placed?
  }

  function Move(s: Table, t: nat, pc: Pc): Table
    requires t < |s.threads|
  {
    s.(threads := s.threads[t := pc])
  }

  function Put(table: seq<nat>, i: nat, e: nat): seq<nat>
    requires i < |table|
  {
    table[i := e]
  }

  function Effect(s: Table, step: Step): Table
    requires Enabled(s, step)
  {
    var t, pc := step.t, s.threads[step.t];
    match step
    case Create(_, e) => Move(s, t, Adding(e)).(known := s.known + {e})
    case Load(_) => Move(s, t, if s.cnt == MAX_SIZE then Idle else Loaded(pc.e, s.tab, s.cnt))
    case Copy(_) => Move(s, t, Copied(pc.e, pc.tab, pc.c, s.tables[pc.tab][..pc.c] + [pc.e] + seq(pc.c - 1, _ => 0)))
    case Swap(_, at) =>
      if s.tab == pc.tab && s.cnt == pc.c then
        Move(s, t, Idle).(tab := at, cnt := pc.c + 1, tables := s.tables[at := pc.grown],
                          order := s.order + [pc.e], given := s.given + {(pc.e, pc.c)})
      else Move(s, t, Adding(pc.e))
    case Occupy(_) =>
      if s.tables[pc.tab][pc.c] == 0 then
        Move(s, t, Placed(pc.e, pc.tab, pc.c)).(tables := s.tables[pc.tab := Put(s.tables[pc.tab], pc.c, pc.e)],
          order := s.order + [pc.e])
      else Move(s, t, Helping(pc.e, pc.tab, pc.c))
    case Bump(_) =>
      var s1 := if s.tab == pc.tab && s.cnt == pc.c then s.(cnt := pc.c + 1) else s;
      if pc.Placed? then Move(s1, t, Idle).(given := s.given + {(pc.e, pc.c)}) else Move(s1, t, Adding(pc.e))
  }

  predicate Moves(s: Table, step: Step, s': Table) {
    Enabled(s, step) && s' == Effect(s, step)
  }

  /** The static table, with entry 0 reserved. */
  predicate Created(s: Table) {
    && s.tab in s.tables && s.tables == map[s.tab := seq(MIN_SIZE, _ => 0)] && s.cnt == 1
    && (forall t :: 0 <= t < |s.threads| ==> s.threads[t] == Idle) && s.order == [0] && s.known == {0} && s.given == {}
  }

  predicate IsRun(states: seq<Table>, steps: seq<Step>) {
    |states| == |steps| + 1 && Created(states[0]) && forall i ::
      0 <= i < |steps| ==> Moves(states[i], steps[i], states[i + 1])
  }

  // ---------------------------------------------------------------- what the table promises

  /** table holds the events of order, and nothing more. */
  predicate Holds(table: seq<nat>, order: seq<nat>) {
    |order| <= |table| && (forall i :: 0 <= i < |order| ==> table[i] == order[i])
      && (forall i :: |order| <= i < |table| ==> table[i] == 0)
  }

  /** The current table has an entry for every index handed out, every slot below the counter is
      filled, and indexes stay below 2^15. */
  predicate CurrentOk(s: Table) {
    && s.tab in s.tables && Holds(s.tables[s.tab], s.order) && 1 <= s.cnt <= |s.order| <= s.cnt + 1 && s.cnt <= MAX_SIZE
    && IsPowerOfTwo(|s.tables[s.tab]|) && MIN_SIZE <= |s.tables[s.tab]| <= MAX_SIZE
    && (|s.tables[s.tab]| == MIN_SIZE || |s.tables[s.tab]| < 2 * s.cnt)
  }

  /** A table that was replaced was full and still maps its indexes as they were handed out. */
  predicate OldOk(s: Table, tab: nat)
    requires tab in s.tables
  {
    |s.tables[tab]| <= s.cnt <= |s.order| && Holds(s.tables[tab], s.order[..|s.tables[tab]|])
  }

  /** No two events share an index, and no event has two. */
  predicate OrderOk(s: Table) {
    && Distinct(s.order) && |s.order| >= 1 && s.order[0] == 0 && (forall e <- s.order :: e in s.known)
    && forall g <- s.given :: 1 <= g.1 < |s.order| && g.1 < MAX_SIZE && s.order[g.1] == g.0
  }

  /** The word a thread loaded is the current one or an earlier one. */
  predicate Stale(s: Table, tab: nat, c: nat) {
    tab in s.tables && 1 <= c <= s.cnt && c < MAX_SIZE && (c == s.cnt ==> tab == s.tab) && c <= |s.tables[tab]|
  }

  predicate LocalOk(s: Table, pc: Pc) {
    match pc
    case Idle => true
    case Adding(e) => IsNew(s, e)
    case Loaded(e, tab, c) => IsNew(s, e) && Stale(s, tab, c) && (IsFull(c) <==> c == |s.tables[tab]|)
    case Copied(e, tab, c, grown) =>
      IsNew(s, e) && Stale(s, tab, c) && IsFull(c) && c == |s.tables[tab]| && c < |s.order| + 1
        && Holds(grown, s.order[..c] + [e]) && |grown| == 2 * c
    case Helping(e, tab, c) => IsNew(s, e) && Stale(s, tab, c) && (c == s.cnt ==> |s.order| == c + 1)
    case Placed(e, tab, c) => Stale(s, tab, c) && c < |s.order| && s.order[c] == e && e != 0
  }

  predicate IsNew(s: Table, e: nat) { e != 0 && e in s.known && e !in s.order }

  /** The event a thread is still adding, or 0. */
  function EventOf(pc: Pc): nat {
    if pc.Adding? || pc.Loaded? || pc.Copied? || pc.Helping? then pc.e else 0
  }

  predicate LocalsOk(s: Table) {
    && (forall t :: 0 <= t < |s.threads| ==> LocalOk(s, s.threads[t]))
    && (forall t, u :: 0 <= t < |s.threads| && 0 <= u < |s.threads| && t != u && EventOf(s.threads[t]) != 0 ==>
          EventOf(s.threads[u]) != EventOf(s.threads[t]))
  }

  predicate TablesOk(s: Table) {
    CurrentOk(s) && forall tab <- s.tables :: tab != s.tab ==> OldOk(s, tab)
  }

  predicate Inv(s: Table) {
    TablesOk(s) && OrderOk(s) && LocalsOk(s)
  }

  // ---------------------------------------------------------------- powers of two

  lemma {:induction false} PowersApart(a: nat, b: nat)
    requires IsPowerOfTwo(a) && IsPowerOfTwo(b) && a <= b < 2 * a
    ensures a == b
  {
    if b > 1 && a > 1 { PowersApart(a / 2, b / 2); }
  }

  /** The word's counter shows a full table exactly when the table is full. */
  lemma FullIsFull(s: Table)
    requires CurrentOk(s)
    ensures s.cnt <= |s.tables[s.tab]| && (IsFull(s.cnt) <==> s.cnt == |s.tables[s.tab]|)
  {
    var n := |s.tables[s.tab]|;
    if IsFull(s.cnt) {
      if n == MIN_SIZE { assert s.cnt == n; } else { PowersApart(s.cnt, n); }
    }
  }

  // ---------------------------------------------------------------- steps

  /** What the other threads see of a step in which e may get its index. */
  predicate Evolves(s: Table, s': Table, e: nat) {
    && s.known <= s'.known && (s'.order == s.order || s'.order == s.order + [e]) && s.cnt <= s'.cnt
       && (s.cnt == s'.cnt ==> s.tab == s'.tab)
    && (forall tab <- s.tables :: tab in s'.tables && |s'.tables[tab]| == |s.tables[tab]|)
  }

  /** A step of t keeps the invariant if it leaves the tables, the order and t itself sound. */
  lemma Preserved(s: Table, t: nat, s': Table, e: nat)
    requires Inv(s) && t < |s.threads| && |s'.threads| == |s.threads| && s'.threads == s.threads[t := s'.threads[t]]
    requires Evolves(s, s', e) && TablesOk(s') && OrderOk(s') && LocalOk(s', s'.threads[t])
    requires (e == EventOf(s.threads[t]) && (e == 0 ==> s'.order == s.order)) || (e !in s.known && s'.order == s.order)
    requires EventOf(s'.threads[t]) in {0, e}
    ensures Inv(s')
  {
    hide TablesOk, OrderOk, LocalOk, Evolves;
    forall u | 0 <= u < |s'.threads|
      ensures LocalOk(s', s'.threads[u]) && (u != t && EventOf(s'.threads[u]) != 0 ==> EventOf(s'.threads[u]) != e) {
      if u != t {
        assert LocalOk(s, s.threads[u]);
        KnownEvent(s, s.threads[u]);
        CurrentKept(s');
        StableFor(s, s', e, s.threads[u]);
      }
    }
  }

  lemma KnownEvent(s: Table, pc: Pc)
    requires LocalOk(s, pc)
    ensures EventOf(pc) != 0 ==> EventOf(pc) in s.known
  {
  }

  lemma CurrentKept(s: Table)
    requires TablesOk(s)
    ensures CurrentOk(s)
  {
  }

  lemma StableFor(s: Table, s': Table, e: nat, pc: Pc)
    requires Evolves(s, s', e) && LocalOk(s, pc) && CurrentOk(s') && (s'.order == s.order || EventOf(pc) != e)
    ensures LocalOk(s', pc)
  {
    hide IsPowerOfTwo;
    if pc.Copied? { assert s'.order[..pc.c] == s.order[..pc.c]; }
  }

  lemma QuietKeeps(s: Table, step: Step)
    requires Inv(s) && Enabled(s, step) && (step.Create? || step.Load? || step.Copy?)
    ensures Inv(Effect(s, step))
  {
    var s' := Effect(s, step);
    var t := step.t;
    assert LocalOk(s, s.threads[t]);
    FullIsFull(s);
    if step.Copy? { GrownHolds(s, s.threads[t]); }
    TablesSame(s, s');
    Preserved(s, t, s', if step.Create? then step.e else s.threads[t].e) by { hide IsPowerOfTwo, TablesOk; }
  }

  lemma TablesSame(s: Table, s': Table)
    requires TablesOk(s) && s'.tab == s.tab && s'.cnt == s.cnt && s'.tables == s.tables && s'.order == s.order
    ensures TablesOk(s')
  {
  }

  lemma GrownHolds(s: Table, pc: Pc)
    requires TablesOk(s) && pc.Loaded? && LocalOk(s, pc) && IsFull(pc.c)
    ensures pc.c <= |s.order|
      && Holds(s.tables[pc.tab][..pc.c] + [pc.e] + seq(pc.c - 1, _ => 0), s.order[..pc.c] + [pc.e])
  {
    hide IsPowerOfTwo;
    if pc.tab != s.tab { assert OldOk(s, pc.tab); }
  }

  /** Filling the first empty slot of the current table. */
  lemma OccupyKeeps(s: Table, step: Step)
    requires Inv(s) && Enabled(s, step) && step.Occupy?
    ensures Inv(Effect(s, step))
  {
    var s' := Effect(s, step);
    var pc := s.threads[step.t];
    assert LocalOk(s, pc);
    FirstEmpty(s, pc.tab, pc.c);
    if s.tables[pc.tab][pc.c] == 0 {
      Filled(s, s', pc);
      Ordered(s, s', pc.e);
    } else {
      TablesSame(s, s');
    }
    Preserved(s, step.t, s', pc.e) by { hide IsPowerOfTwo, TablesOk; }
  }

  /** An empty slot under a counter that was loaded is the one at the current counter. */
  lemma FirstEmpty(s: Table, tab: nat, c: nat)
    requires TablesOk(s) && OrderOk(s) && Stale(s, tab, c) && c < |s.tables[tab]|
    ensures s.tables[tab][c] == 0 ==> tab == s.tab && c == s.cnt == |s.order|
    ensures c == s.cnt && s.tables[tab][c] != 0 ==> |s.order| == c + 1
  {
    hide IsPowerOfTwo;
    assert forall i :: 0 < i < |s.order| ==> s.order[0] != s.order[i];
    if tab != s.tab { assert OldOk(s, tab); }
  }

  lemma Filled(s: Table, s': Table, pc: Pc)
    requires TablesOk(s) && pc.Loaded? && pc.tab == s.tab && pc.c == s.cnt == |s.order| < |s.tables[s.tab]|
      && pc.e !in s.order && pc.e != 0
    requires s'.tab == s.tab && s'.cnt == s.cnt && s'.order == s.order + [pc.e]
      && s'.tables == s.tables[s.tab := Put(s.tables[s.tab], pc.c, pc.e)]
    ensures TablesOk(s')
  {
    hide IsPowerOfTwo;
    OldKept(s, s');
  }

  lemma OldKept(s: Table, s': Table)
    requires TablesOk(s) && s.order <= s'.order && s.cnt <= s'.cnt <= |s'.order|
    requires forall tab <- s'.tables ::
      tab != s'.tab && tab != s.tab ==> tab in s.tables && s'.tables[tab] == s.tables[tab]
    ensures forall tab <- s'.tables :: tab != s'.tab && tab != s.tab ==> OldOk(s', tab)
  {
    forall tab <- s'.tables | tab != s'.tab && tab != s.tab ensures OldOk(s', tab) {
      assert OldOk(s, tab);
      var n := |s.tables[tab]|;
      assert s'.order[..n] == s.order[..n];
    }
  }

  lemma Ordered(s: Table, s': Table, e: nat)
    requires OrderOk(s) && e in s.known && e !in s.order && s'.order == s.order + [e] && s'.known == s.known
      && s'.given == s.given
    ensures OrderOk(s')
  {
  }

  lemma BumpKeeps(s: Table, step: Step)
    requires Inv(s) && Enabled(s, step) && step.Bump?
    ensures Inv(Effect(s, step))
  {
    var s' := Effect(s, step);
    var pc := s.threads[step.t];
    assert LocalOk(s, pc);
    Bumped(s, s');
    Preserved(s, step.t, s', EventOf(pc)) by { hide IsPowerOfTwo, TablesOk; }
  }

  lemma Bumped(s: Table, s': Table)
    requires TablesOk(s) && s'.tab == s.tab && s'.tables == s.tables && s'.order == s.order
    requires s'.cnt == s.cnt || (s'.cnt == s.cnt + 1 == |s.order|)
    ensures TablesOk(s')
  {
    hide IsPowerOfTwo;
    OldKept(s, s');
  }

  lemma SwapKeeps(s: Table, step: Step)
    requires Inv(s) && Enabled(s, step) && step.Swap?
    ensures Inv(Effect(s, step))
  {
    var s' := Effect(s, step);
    var pc := s.threads[step.t];
    assert LocalOk(s, pc);
    if s.tab == pc.tab && s.cnt == pc.c {
      Swapped(s, s', pc);
    } else {
      TablesSame(s, s');
    }
    Preserved(s, step.t, s', pc.e) by { hide IsPowerOfTwo, TablesOk; }
  }

  lemma Swapped(s: Table, s': Table, pc: Pc)
    requires TablesOk(s) && pc.Copied? && LocalOk(s, pc) && s.tab == pc.tab && s.cnt == pc.c && s'.tab !in s.tables
    requires s'.cnt == pc.c + 1 && s'.tables == s.tables[s'.tab := pc.grown] && s'.order == s.order + [pc.e]
    ensures TablesOk(s')
  {
    var c := pc.c;
    assert |s.order| == c && s.order[..c] == s.order;
    assert IsPowerOfTwo(2 * c) && 2 * c <= MAX_SIZE by { Doubled(c); }
    OldKept(s, s');
    assert s'.order[..c] == s.order;
  }

  lemma Doubled(c: nat)
    requires IsPowerOfTwo(c) && c < MAX_SIZE
    ensures IsPowerOfTwo(2 * c) && 2 * c <= MAX_SIZE
  {
    if 2 * c > MAX_SIZE {
      assert IsPowerOfTwo(MAX_SIZE) by { MaxIsPower(); }
      PowersApart(c, MAX_SIZE);
    }
  }

  lemma MaxIsPower()
    ensures IsPowerOfTwo(MAX_SIZE)
  {
    assert IsPowerOfTwo(8) && IsPowerOfTwo(64) && IsPowerOfTwo(512) && IsPowerOfTwo(4096);
  }

  // ---------------------------------------------------------------- runs

  lemma CreatedInv(s: Table)
    requires Created(s)
    ensures Inv(s)
  {
    assert IsPowerOfTwo(8);
    assert IsPowerOfTwo(MIN_SIZE);
  }

  lemma {:induction false} RunInv(states: seq<Table>, steps: seq<Step>, i: nat)
    requires IsRun(states, steps) && i <= |steps|
    ensures Inv(states[i])
  {
    hide Inv, Enabled, Effect, Created;
    if i == 0 {
      CreatedInv(states[0]);
    } else {
      RunInv(states, steps, i - 1);
      var s, step := states[i - 1], steps[i - 1];
      assert Moves(s, step, states[i - 1 + 1]);
      match step
      case Create(_, _) => QuietKeeps(s, step);
      case Load(_) => QuietKeeps(s, step);
      case Copy(_) => QuietKeeps(s, step);
      case Swap(_, _) => SwapKeeps(s, step);
      case Occupy(_) => OccupyKeeps(s, step);
      case Bump(_) => BumpKeeps(s, step);
    }
  }

  /** On every run no two events get the same index, every index handed out stays below 2^15 and maps to
      its event in the current table, every slot below the counter is filled, and tables that were
      replaced still map the indexes they had. */
  lemma MappingKept(states: seq<Table>, steps: seq<Step>)
    ensures IsRun(states, steps) ==>
      var s := states[|steps|];
      && s.tab in s.tables && (forall i :: 1 <= i < s.cnt ==> i < |s.tables[s.tab]| && s.tables[s.tab][i] != 0)
      && (forall g <- s.given :: 1 <= g.1 < MAX_SIZE && g.1 < |s.tables[s.tab]| && s.tables[s.tab][g.1] == g.0)
      && (forall g <- s.given, h <- s.given :: g.0 == h.0 <==> g.1 == h.1)
      && (forall g <- s.given, tab <- s.tables :: g.1 < |s.tables[tab]| ==> s.tables[tab][g.1] == g.0)
  {
    if IsRun(states, steps) {
      RunInv(states, steps, |steps|);
      InvMaps(states[|steps|]);
    }
  }

  lemma InvMaps(s: Table)
    requires Inv(s)
    ensures s.tab in s.tables && (forall i :: 1 <= i < s.cnt ==> i < |s.tables[s.tab]| && s.tables[s.tab][i] != 0)
    ensures forall g <- s.given :: 1 <= g.1 < MAX_SIZE && g.1 < |s.tables[s.tab]| && s.tables[s.tab][g.1] == g.0
    ensures forall g <- s.given, h <- s.given :: g.0 == h.0 <==> g.1 == h.1
    ensures forall g <- s.given, tab <- s.tables :: g.1 < |s.tables[tab]| ==> s.tables[tab][g.1] == g.0
  {
    hide LocalsOk, IsPowerOfTwo;
    assert forall i :: 0 < i < |s.order| ==> s.order[0] != s.order[i];
    forall g <- s.given, tab <- s.tables | g.1 < |s.tables[tab]| ensures s.tables[tab][g.1] == g.0 {
      if tab != s.tab { assert OldOk(s, tab); }
    }
  }
}
