/** The timer queue of the network threads (EventQueue.h): ten buckets of doubling width, of which a
    check visits only those whose tick bits changed. */
module TimerWheel {
  import opened Basics
  import opened Bits

  const NUM_BUCKETS: nat := 10

  /** Five milliseconds, in microseconds. */
  const TICK: int := 5000

  /** PQ_BUCKET_TIME */
  function BucketTime(i: nat): int {
    TICK * Pow2(i)
  }

  datatype Event = Event(id: nat, timeout: int)

  // ---------------------------------------------------------------- what the loops compute

  /** The first bucket, from i on, wide enough for a delay of t. */
  function BucketFor(t: int, i: nat): nat
    requires i < NUM_BUCKETS
    decreases NUM_BUCKETS - i
  {
    if t > BucketTime(i) && i < NUM_BUCKETS - 1 then BucketFor(t, i + 1) else i
  }

  /** The lowest bucket that an event tt ahead falls to from bucket j. */
  function FallTo(tt: int, j: nat): nat {
    if j > 0 && tt <= BucketTime(j - 1) then FallTo(tt, j - 1) else j
  }

  /** The n low bits of a ^ b. */
  function Xor(a: nat, b: nat, n: nat): nat {
    if n == 0 then 0 else (if a % 2 != b % 2 then 1 else 0) + 2 * Xor(a / 2, b / 2, n - 1)
  }

  /** How many bits n takes. */
  function Width(n: nat): nat {
    if n == 0 then 0 else 1 + Width(n / 2)
  }

  /** The last bucket a check at tick check visits, when the check before was at tick last. */
  function LastVisited(last: nat, check: nat): nat {
    Width(Xor(check, last, NUM_BUCKETS - 1))
  }

  /** Where an event of bucket i goes. */
  function Placed(e: Event, i: nat, now: int, cancelled: set<nat>): nat {
    if e.id in cancelled then 0 else FallTo(e.timeout - now, i)
  }

  /** The events of q, which were in bucket i, appended to the buckets they fall to. */
  function Spread(bs: seq<seq<Event>>, q: seq<Event>, i: nat, now: int, cancelled: set<nat>): seq<seq<Event>>
    requires i < |bs|
    decreases |q|
  {
    if q == [] then bs
    else
      FallAtMost(q[0].timeout - now, i);
      var j := Placed(q[0], i, now, cancelled);
      Spread(bs[j := bs[j] + [q[0]]], q[1..], i, now, cancelled)
  }

  /** Buckets i to k visited in turn. */
  function Visited(bs: seq<seq<Event>>, i: nat, k: nat, now: int, cancelled: set<nat>): seq<seq<Event>>
    requires k < |bs| && i <= k + 1
    decreases k + 1 - i
  {
    if i > k then bs
    else
      SpreadLength(bs[i := []], bs[i], i, now, cancelled);
      Visited(Spread(bs[i := []], bs[i], i, now, cancelled), i + 1, k, now, cancelled)
  }

  lemma {:induction false} FallAtMost(tt: int, j: nat)
    ensures FallTo(tt, j) <= j
    ensures var r := FallTo(tt, j); (r > 0 ==> tt > BucketTime(r - 1)) && (r < j ==> tt <= BucketTime(r))
  {
    if j > 0 && tt <= BucketTime(j - 1) { FallAtMost(tt, j - 1); }
  }

  lemma {:induction false} SpreadLength(bs: seq<seq<Event>>, q: seq<Event>, i: nat, now: int, cancelled: set<nat>)
    requires i < |bs|
    ensures |Spread(bs, q, i, now, cancelled)| == |bs|
    decreases |q|
  {
    if q != [] {
      FallAtMost(q[0].timeout - now, i);
      var j := Placed(q[0], i, now, cancelled);
      SpreadLength(bs[j := bs[j] + [q[0]]], q[1..], i, now, cancelled);
    }
  }

  // ---------------------------------------------------------------- ticks and buckets

  function Tick(now: nat): nat { now / TICK }

  /** The block of 2^(j-1) ticks that tick l is in; bucket j is visited when it changes. */
  function Block(l: nat, j: nat): nat
    requires j >= 1
  {
    Shr(l, j - 1)
  }

  /** The time at which that block ends. */
  function BlockEnd(l: nat, j: nat): int
    requires j >= 1
  {
    TICK * Shl(Block(l, j) + 1, j - 1)
  }

  /** An event that does not fit into bucket j - 1 at time now is due after now's block for j ends. */
  lemma BeyondBlock(timeout: int, now: nat, j: nat)
    requires j >= 1 && timeout - now > BucketTime(j - 1)
    ensures timeout > BlockEnd(Tick(now), j)
  {
    ShrBounds(Tick(now), j - 1);
    ShlNext(Block(Tick(now), j), j - 1);
  }

  lemma InBlock(now: nat, j: nat)
    requires j >= 1
    ensures now < BlockEnd(Tick(now), j)
  {
    ShrBounds(Tick(now), j - 1);
  }

  lemma BlockEndGrows(l: nat, l': nat, j: nat)
    requires j >= 1 && l <= l'
    ensures BlockEnd(l, j) <= BlockEnd(l', j)
  {
    ShrGrows(l, l', j - 1);
    ShlGrows(Block(l, j) + 1, Block(l', j) + 1, j - 1);
  }

  /** No due event is missed when the checks are in the same block of 256 ticks, or an odd number of
      such blocks apart. */
  predicate Safe(last: nat, check: nat) {
    last <= check && (Block(check, 9) == Block(last, 9) || (Block(check, 9) - Block(last, 9)) % 2 == 1)
  }

  lemma XorHalf(a: nat, b: nat, n: nat)
    requires n > 0
    ensures Xor(a, b, n) / 2 == Xor(a / 2, b / 2, n - 1) && (Xor(a, b, n) == 0 ==> a % 2 == b % 2)
  {
  }

  /** Bits beyond the width of the exclusive-or agree. */
  lemma {:induction false} HighBitsAgree(a: nat, b: nat, n: nat, i: nat)
    requires Width(Xor(a, b, n)) <= i <= n
    ensures Xor(Shr(a, i), Shr(b, i), n - i) == 0
    decreases i
  {
    if i > 0 {
      XorHalf(a, b, n);
      HighBitsAgree(a / 2, b / 2, n - 1, i - 1);
    }
  }

  /** Numbers that agree in k bits agree in the parity of what is left of them after k - 1 bits. */
  lemma {:induction false} SameBits(x: nat, y: nat, k: nat)
    requires k >= 1 && Xor(x, y, k) == 0
    ensures Shr(x, k - 1) % 2 == Shr(y, k - 1) % 2 && (Shr(x, k - 1) == Shr(y, k - 1) ==> x == y)
  {
    XorHalf(x, y, k);
    if k > 1 { SameBits(x / 2, y / 2, k - 1); }
  }

  /** A bucket that a safe check does not visit is in the same block as before: if its block had changed,
      an even number of 256-tick blocks would lie between the two checks. */
  lemma UnvisitedMeansSame(last: nat, check: nat, j: nat)
    requires Safe(last, check) && LastVisited(last, check) < j <= 9
    ensures Block(check, j) == Block(last, j)
  {
    hide Xor, Width, Shr;
    HighBitsAgree(check, last, 9, j - 1);
    SameBits(Block(check, j), Block(last, j), 10 - j);
    ShrShr(check, j - 1, 9 - j);
    ShrShr(last, j - 1, 9 - j);
  }

  // ---------------------------------------------------------------- what a check does

  /** No event is due before the block of its bucket ends. */
  ghost predicate Timely(bs: seq<seq<Event>>, last: nat) {
    forall j :: 1 <= j < |bs| ==> forall e <- bs[j] :: e.timeout > BlockEnd(last, j)
  }

  /** Everything due at now is in bucket 0, where the events are dequeued from. */
  predicate DueInFirst(bs: seq<seq<Event>>, now: int) {
    forall j :: 1 <= j < |bs| ==> forall e <- bs[j] :: e.timeout > now
  }

  /** Nothing in bucket 0 is more than a tick early, unless it was cancelled. */
  predicate NoneTooEarly(bs: seq<seq<Event>>, now: int, cancelled: set<nat>) {
    |bs| > 0 && forall e <- bs[0] :: e.id in cancelled || e.timeout <= now + TICK
  }

  function All(bs: seq<seq<Event>>): multiset<Event> {
    if bs == [] then multiset{} else All(bs[..|bs| - 1]) + multiset(bs[|bs| - 1])
  }

  lemma AddBoth(a: multiset<Event>, b: multiset<Event>, c: multiset<Event>, d: multiset<Event>, x: multiset<Event>)
    requires a + b == c + d
    ensures (a + x) + b == (c + x) + d
  {
    assert (a + x) + b == (a + b) + x;
    assert (c + x) + d == (c + d) + x;
  }

  lemma Cancel(a: multiset<Event>, b: multiset<Event>, c: multiset<Event>, d: multiset<Event>)
    requires a + b == c + (b + d)
    ensures a == c + d
  {
    forall z ensures a[z] == (c + d)[z] { assert (a + b)[z] == (c + (b + d))[z]; }
  }

  lemma {:induction false} AllSet(bs: seq<seq<Event>>, j: nat, b: seq<Event>)
    requires j < |bs|
    ensures All(bs[j := b]) + multiset(bs[j]) == All(bs) + multiset(b)
  {
    var n := |bs| - 1;
    if j < n {
      AllSet(bs[..n], j, b);
      assert bs[j := b][..n] == bs[..n][j := b];
      AddBoth(All(bs[..n][j := b]), multiset(bs[j]), All(bs[..n]), multiset(b), multiset(bs[n]));
    } else {
      assert bs[j := b][..n] == bs[..n];
    }
  }

  lemma {:induction false} SpreadAll(bs: seq<seq<Event>>, q: seq<Event>, i: nat, now: int, cancelled: set<nat>)
    requires i < |bs|
    ensures All(Spread(bs, q, i, now, cancelled)) == All(bs) + multiset(q)
    decreases |q|
  {
    hide All;
    if q != [] {
      FallAtMost(q[0].timeout - now, i);
      var j := Placed(q[0], i, now, cancelled);
      AllSet(bs, j, bs[j] + [q[0]]);
      Cancel(All(bs[j := bs[j] + [q[0]]]), multiset(bs[j]), All(bs), multiset{q[0]});
      SpreadAll(bs[j := bs[j] + [q[0]]], q[1..], i, now, cancelled);
      assert q == [q[0]] + q[1..];
      assert multiset(q) == multiset{q[0]} + multiset(q[1..]);
    }
  }

  lemma {:induction false} SpreadPlaces(bs: seq<seq<Event>>, q: seq<Event>, i: nat, now: int, cancelled: set<nat>,
      b: nat)
    requires i < |bs| && b < |bs|
    ensures |Spread(bs, q, i, now, cancelled)| == |bs|
    ensures forall e <- Spread(bs, q, i, now, cancelled)[b] ::
      e in bs[b] || (e in q && Placed(e, i, now, cancelled) == b)
    ensures b > i ==> Spread(bs, q, i, now, cancelled)[b] == bs[b]
    decreases |q|
  {
    SpreadLength(bs, q, i, now, cancelled);
    if q != [] {
      FallAtMost(q[0].timeout - now, i);
      var j := Placed(q[0], i, now, cancelled);
      SpreadPlaces(bs[j := bs[j] + [q[0]]], q[1..], i, now, cancelled, b);
    }
  }

  /** Bucket b holds what a check at now leaves there. */
  predicate Rebalanced(b: seq<Event>, j: nat, now: int, cancelled: set<nat>) {
    forall e <- b ::
      (e.id in cancelled && j == 0)
      || ((j > 0 ==> e.timeout - now > BucketTime(j - 1)) && (j == 0 ==> e.timeout <= now + TICK))
  }

  /** After buckets 1 to i - 1: those are rebalanced, bucket 0 only gained such events, the rest are as before. */
  ghost predicate Stage(bs: seq<seq<Event>>, cur: seq<seq<Event>>, i: nat, now: int, cancelled: set<nat>) {
    && |cur| == |bs| && 1 <= i <= |bs| && All(cur) == All(bs)
    && (forall j :: 1 <= j < i ==> Rebalanced(cur[j], j, now, cancelled))
    && (forall j :: i <= j < |bs| ==> cur[j] == bs[j])
    && (forall e <- cur[0] :: e in bs[0] || e.id in cancelled || e.timeout <= now + TICK)
  }

  lemma VisitOne(bs: seq<seq<Event>>, cur: seq<seq<Event>>, i: nat, now: int, cancelled: set<nat>)
    requires Stage(bs, cur, i, now, cancelled) && i < |bs|
    ensures Stage(bs, Spread(cur[i := []], cur[i], i, now, cancelled), i + 1, now, cancelled)
  {
    hide All, Spread, FallTo;
    var cleared := cur[i := []];
    var next := Spread(cleared, cur[i], i, now, cancelled);
    SpreadLength(cleared, cur[i], i, now, cancelled);
    SpreadAll(cleared, cur[i], i, now, cancelled);
    AllSet(cur, i, []);
    forall j | 1 <= j < i + 1 ensures Rebalanced(next[j], j, now, cancelled) {
      SpreadPlaces(cleared, cur[i], i, now, cancelled, j);
      forall e: Event <- next[j] ensures e.timeout - now > BucketTime(j - 1) { FallAtMost(e.timeout - now, i); }
    }
    forall j | i + 1 <= j < |bs| ensures next[j] == bs[j] { SpreadPlaces(cleared, cur[i], i, now, cancelled, j); }
    SpreadPlaces(cleared, cur[i], i, now, cancelled, 0);
    forall e <- next[0]
      ensures e in bs[0] || e.id in cancelled || e.timeout <= now + TICK
    {
      FallAtMost(e.timeout - now, i);
    }
  }

  lemma {:induction false} VisitAll(bs: seq<seq<Event>>, cur: seq<seq<Event>>, i: nat, k: nat, now: int,
      cancelled: set<nat>)
    requires Stage(bs, cur, i, now, cancelled) && k < |bs| && i <= k + 1
    ensures Stage(bs, Visited(cur, i, k, now, cancelled), k + 1, now, cancelled)
    decreases k + 1 - i
  {
    if i <= k {
      VisitOne(bs, cur, i, now, cancelled);
      VisitAll(bs, Spread(cur[i := []], cur[i], i, now, cancelled), i + 1, k, now, cancelled);
    }
  }

  lemma {:induction false} WidthBound(a: nat, b: nat, n: nat)
    ensures Width(Xor(a, b, n)) <= n
  {
    if n > 0 {
      WidthBound(a / 2, b / 2, n - 1);
      assert Xor(a, b, n) / 2 == Xor(a / 2, b / 2, n - 1);
    }
  }

  function Checked(bs: seq<seq<Event>>, last: nat, now: nat, cancelled: set<nat>): seq<seq<Event>>
    requires |bs| == NUM_BUCKETS
  {
    WidthBound(Tick(now), last, NUM_BUCKETS - 1);
    Visited(bs, 1, LastVisited(last, Tick(now)), now, cancelled)
  }

  /** No event is lost or duplicated by a check, whenever it happens. */
  lemma CheckKeepsAll(bs: seq<seq<Event>>, last: nat, now: nat, cancelled: set<nat>)
    requires |bs| == NUM_BUCKETS
    ensures |Checked(bs, last, now, cancelled)| == NUM_BUCKETS && All(Checked(bs, last, now, cancelled)) == All(bs)
    ensures NoneTooEarly(bs, now, cancelled) ==> NoneTooEarly(Checked(bs, last, now, cancelled), now, cancelled)
  {
    WidthBound(Tick(now), last, NUM_BUCKETS - 1);
    VisitAll(bs, bs, 1, LastVisited(last, Tick(now)), now, cancelled);
  }

  /** A safe check leaves nothing due outside bucket 0, and the wheel as timely as it was. */
  lemma SafeCheck(bs: seq<seq<Event>>, last: nat, now: nat, cancelled: set<nat>)
    requires |bs| == NUM_BUCKETS && Timely(bs, last) && Safe(last, Tick(now))
    ensures DueInFirst(Checked(bs, last, now, cancelled), now) && Timely(Checked(bs, last, now, cancelled), Tick(now))
  {
    var check, k, bs' := Tick(now), LastVisited(last, Tick(now)), Checked(bs, last, now, cancelled);
    WidthBound(check, last, NUM_BUCKETS - 1);
    VisitAll(bs, bs, 1, k, now, cancelled);
    forall j | 1 <= j < |bs'| ensures forall e: Event <- bs'[j] :: e.timeout > BlockEnd(check, j) && e.timeout > now {
      InBlock(now, j);
      if j <= k {
        assert Rebalanced(bs'[j], j, now, cancelled);
        forall e: Event <- bs'[j] ensures e.timeout > BlockEnd(check, j) { BeyondBlock(e.timeout, now, j); }
      } else {
        assert bs'[j] == bs[j];
        UnvisitedMeansSame(last, check, j);
      }
    }
  }

  /** Blocks of 256 ticks, in numbers. */
  lemma Block256(l: nat)
    ensures 256 * Block(l, 9) <= l < 256 * Block(l, 9) + 256 && BlockEnd(l, 9) == TICK * (256 * Block(l, 9) + 256)
  {
    hide Shr;
    ShrBounds(l, 8);
    ShlIs(Block(l, 9), 8);
    ShlIs(Block(l, 9) + 1, 8);
    assert Pow2(8) == 256;
  }

  /** Checks at most 256 ticks apart are safe. */
  lemma CloseChecksSafe(last: nat, check: nat)
    requires last <= check <= last + 256
    ensures Safe(last, check)
  {
    hide Shr, Shl;
    Block256(last);
    Block256(check);
  }

  lemma {:induction false} TopBitSame(a: nat, b: nat, n: nat)
    requires n >= 1 && Shr(a, n - 1) % 2 == Shr(b, n - 1) % 2
    ensures Width(Xor(a, b, n)) <= n - 1
  {
    XorHalf(a, b, n);
    if n > 1 { TopBitSame(a / 2, b / 2, n - 1); }
  }

  // ---------------------------------------------------------------- runs of the wheel

  /** The buckets, the tick of the last check, and the latest time the wheel has heard of. */
  datatype Wheel = Wheel(buckets: seq<seq<Event>>, last: nat, clock: nat)

  datatype Op = Enqueueing(e: Event, at: nat) | Dequeueing | Checking(at: nat, cancelled: set<nat>)

  function Added(bs: seq<seq<Event>>, e: Event, now: nat): seq<seq<Event>>
    requires |bs| == NUM_BUCKETS
  {
    BucketForFits(e.timeout - now, 0);
    var i := BucketFor(e.timeout - now, 0);
    bs[i := bs[i] + [e]]
  }

  function Taken(bs: seq<seq<Event>>): seq<seq<Event>>
    requires |bs| == NUM_BUCKETS
  {
    if bs[0] == [] then bs else bs[0 := bs[0][1..]]
  }

  function New(now: nat): Wheel {
    Wheel(seq(NUM_BUCKETS, _ => []), Tick(now), now)
  }

  function Next(w: Wheel, op: Op): Wheel
    requires |w.buckets| == NUM_BUCKETS
  {
    match op
    case Enqueueing(e, at) => Wheel(Added(w.buckets, e, at), w.last, at)
    case Dequeueing => w.(buckets := Taken(w.buckets))
    case Checking(at, cancelled) => Wheel(Checked(w.buckets, w.last, at, cancelled), Tick(at), at)
  }

  /** Time does not run backwards, and the checks so far were safe. */
  predicate Allowed(w: Wheel, op: Op) {
    match op
    case Enqueueing(e, at) => w.clock <= at
    case Dequeueing => true
    case Checking(at, cancelled) => w.clock <= at && Safe(w.last, Tick(at))
  }

  ghost predicate IsRun(ws: seq<Wheel>, ops: seq<Op>, now: nat) {
    && |ws| == |ops| + 1 && ws[0] == New(now)
    && forall i :: 0 <= i < |ops| ==> Linked(ws[i], ops[i], ws[i + 1])
  }

  ghost predicate Linked(w: Wheel, op: Op, w': Wheel) {
    |w.buckets| == NUM_BUCKETS && Allowed(w, op) && w' == Next(w, op)
  }

  /** Wheels that some life of a queue comes to. */
  ghost predicate Reached(w: Wheel) {
    exists ws, ops, now :: IsRun(ws, ops, now) && w == ws[|ops|]
  }

  ghost predicate Sound(w: Wheel) {
    |w.buckets| == NUM_BUCKETS && w.last <= Tick(w.clock) && Timely(w.buckets, w.last)
  }

  lemma NextKeeps(w: Wheel, op: Op)
    requires Sound(w) && Allowed(w, op)
    ensures Sound(Next(w, op))
  {
    hide BlockEnd, Checked, BucketTime, Safe;
    match op
    case Enqueueing(e, at) =>
      BucketForFits(e.timeout - at, 0);
      var i := BucketFor(e.timeout - at, 0);
      if i > 0 {
        BeyondBlock(e.timeout, at, i);
        BlockEndGrows(w.last, Tick(at), i);
      }
    case Dequeueing =>
    case Checking(at, cancelled) =>
      CheckKeepsAll(w.buckets, w.last, at, cancelled);
      SafeCheck(w.buckets, w.last, at, cancelled);
  }

  lemma {:induction false} RunSound(ws: seq<Wheel>, ops: seq<Op>, now: nat, i: nat)
    requires IsRun(ws, ops, now) && i <= |ops|
    ensures Sound(ws[i])
  {
    hide Sound, Allowed, Next;
    if i == 0 {
      NewSound(now);
    } else {
      RunSound(ws, ops, now, i - 1);
      assert Linked(ws[i - 1], ops[i - 1], ws[i]);
      NextKeeps(ws[i - 1], ops[i - 1]);
    }
  }

  lemma NewSound(now: nat)
    ensures Sound(New(now))
  {
  }

  /** Bucket 9 is left alone by a check in the same block of 256 ticks, or in one an even number of
      blocks on. */
  lemma LastBucketSkipped(bs: seq<seq<Event>>, last: nat, now: nat, cancelled: set<nat>)
    requires |bs| == NUM_BUCKETS && Block(last, 9) % 2 == Block(Tick(now), 9) % 2
    ensures |Checked(bs, last, now, cancelled)| == NUM_BUCKETS && Checked(bs, last, now, cancelled)[9] == bs[9]
  {
    hide Shr, Shl, Xor, Width, Visited, All, Spread;
    TopBitSame(Tick(now), last, 9);
    WidthBound(Tick(now), last, 9);
    StageBegins(bs, now, cancelled);
    VisitAll(bs, bs, 1, LastVisited(last, Tick(now)), now, cancelled);
  }

  lemma StageBegins(bs: seq<seq<Event>>, now: int, cancelled: set<nat>)
    requires |bs| >= 1
    ensures Stage(bs, bs, 1, now, cancelled)
  {
  }

  /** The event that gets passed over: due just after the block of the last check. */
  function Late(last: nat): Event {
    Event(0, TICK * 256 * Block(last, 9) + 256 * TICK + 1)
  }

  /** When it is enqueued: as that block begins. */
  function Start(last: nat): nat {
    TICK * 256 * Block(last, 9)
  }

  lemma LateFacts(last: nat)
    ensures Start(last) <= TICK * last && Block(Tick(Start(last)), 9) == Block(last, 9)
      && Late(last).timeout == BlockEnd(last, 9) + 1
    ensures Tick(TICK * last) == last && Tick(Start(last)) <= last
      && BucketFor(Late(last).timeout - Start(last), 0) == 9
  {
    hide Shr, Shl;
    Block256(last);
    assert Tick(Start(last)) == 256 * Block(last, 9);
    Block256(256 * Block(last, 9));
    WidestBucket(256 * TICK + 1, 0);
  }

  lemma {:induction false} WidestBucket(t: int, i: nat)
    requires t > TICK * 256 && i < NUM_BUCKETS
    ensures BucketFor(t, i) == 9
    decreases NUM_BUCKETS - i
  {
    if i < NUM_BUCKETS - 1 {
      Pow2Grows(i, 8);
      assert Pow2(8) == 256;
      WidestBucket(t, i + 1);
    }
  }

  lemma {:induction false} Pow2Grows(a: nat, b: nat)
    requires a <= b
    ensures Pow2(a) <= Pow2(b)
  {
    if a < b { Pow2Grows(a, b - 1); }
  }

  /** An unsafe check misses an event: enqueued as the block of the last check began, and passed over by that check. */
  lemma UnsafeCheck(last: nat, now: nat) returns (w: Wheel)
    requires last <= Tick(now) && !Safe(last, Tick(now))
    ensures Reached(w) && w.last == last && w.clock <= now && |w.buckets| == NUM_BUCKETS
    ensures !DueInFirst(Checked(w.buckets, last, now, {}), now)
  {
    hide Shr, Shl, Checked, BucketFor, Late, Start;
    LateFacts(last);
    var e, start := Late(last), Start(last);
    var w0 := New(start);
    var w1 := Next(w0, Enqueueing(e, start));
    assert w1.buckets[9] == [e];
    w := Next(w1, Checking(TICK * last, {}));
    LastBucketSkipped(w1.buckets, w1.last, TICK * last, {});
    OverdueAt(last, now);
    LastBucketSkipped(w.buckets, last, now, {});
    ghost var ws, ops := [w0, w1, w], [Enqueueing(e, start), Checking(TICK * last, {})];
    assert Linked(w0, ops[0], w1) && Linked(w1, ops[1], w);
    assert IsRun(ws, ops, start) && w == ws[|ops|];
    assert e in Checked(w.buckets, last, now, {})[9];
  }

  lemma OverdueAt(last: nat, now: nat)
    requires last <= Tick(now) && !Safe(last, Tick(now))
    ensures BlockEnd(last, 9) + 1 <= now && Block(last, 9) % 2 == Block(Tick(now), 9) % 2
  {
    hide Shr, Shl;
    Block256(last);
    Block256(Tick(now));
    ShrGrows(last, Tick(now), 8);
  }

  /** After any life of the queue, a check misses no due event exactly when it is safe. */
  lemma NothingMissedExactly(last: nat, now: nat)
    requires last <= Tick(now)
    ensures (forall w, cancelled: set<nat> ::
              Reached(w) && w.last == last && w.clock <= now && |w.buckets| == NUM_BUCKETS ==>
                DueInFirst(Checked(w.buckets, last, now, cancelled), now)) <==>
            Safe(last, Tick(now))
  {
    if Safe(last, Tick(now)) {
      forall w, cancelled: set<nat> | Reached(w) && w.last == last && w.clock <= now && |w.buckets| == NUM_BUCKETS
        ensures DueInFirst(Checked(w.buckets, last, now, cancelled), now)
      {
        var ws, ops, begin :| IsRun(ws, ops, begin) && w == ws[|ops|];
        RunSound(ws, ops, begin, |ops|);
        SafeCheck(w.buckets, last, now, cancelled);
      }
    } else {
      var w := UnsafeCheck(last, now);
    }
  }

  lemma {:induction false} BucketForFits(t: int, i: nat)
    requires i < NUM_BUCKETS && (i > 0 ==> t > BucketTime(i - 1))
    ensures var r := BucketFor(t, i);
      r < NUM_BUCKETS && (r > 0 ==> t > BucketTime(r - 1)) && (r < NUM_BUCKETS - 1 ==> t <= BucketTime(r))
    decreases NUM_BUCKETS - i
  {
    if t > BucketTime(i) && i < NUM_BUCKETS - 1 { BucketForFits(t, i + 1); }
  }

  // ---------------------------------------------------------------- the queue

  class PriorityEventQueue {
    var eventq: array<seq<Event>>
    var timeBase: nat
    var lastChecked: nat

    ghost predicate Valid()
      reads this
    {
      eventq.Length == NUM_BUCKETS
    }

    /** Times never go back, no event is in too late a bucket, and none in bucket 0 is too early. */
    ghost predicate OnTime(now: nat, cancelled: set<nat>)
      reads this, eventq
      requires Valid()
    {
      lastChecked <= Tick(now) && Timely(eventq[..], lastChecked) && NoneTooEarly(eventq[..], now, cancelled)
    }

    constructor (now: nat)
      ensures Valid() && fresh(eventq) && eventq[..] == New(now).buckets && lastChecked == Tick(now)
      ensures All(eventq[..]) == multiset{} && forall cancelled :: OnTime(now, cancelled)
    {
      eventq := new seq<Event>[NUM_BUCKETS](_ => []);
      timeBase := now;
      lastChecked := Tick(now);
      new;
      AllEmpty(eventq[..]);
    }

    method Enqueue(e: Event, now: nat, ghost cancelled: set<nat>)
      requires Valid() && OnTime(now, cancelled)
      modifies eventq
      ensures Valid() && OnTime(now, cancelled) && All(eventq[..]) == old(All(eventq[..])) + multiset{e}
      ensures eventq[..] == Added(old(eventq[..]), e, now)
      ensures e.timeout <= now ==> e in eventq[0]
    {
      var t, i := e.timeout - now, 0;
      while t > BucketTime(i) && i < NUM_BUCKETS - 1
        invariant i < NUM_BUCKETS && BucketFor(t, 0) == BucketFor(t, i)
        decreases NUM_BUCKETS - i
      {
        i := i + 1;
      }
      BucketForFits(t, 0);
      ghost var was := eventq[..];
      eventq[i] := eventq[i] + [e];
      assert eventq[..] == was[i := was[i] + [e]];
      AllSet(was, i, was[i] + [e]);
      Cancel(All(eventq[..]), multiset(was[i]), All(was), multiset{e});
      if i > 0 {
        BeyondBlock(e.timeout, now, i);
        BlockEndGrows(lastChecked, Tick(now), i);
      }
    }

    method Dequeue() returns (e: Option<Event>)
      requires Valid()
      modifies eventq
      ensures Valid() && (e.None? <==> old(eventq[0]) == []) && (e.None? ==> eventq[..] == old(eventq[..]))
      ensures e.Some? ==> old(eventq[0]) == [e.value] + eventq[0]
      ensures eventq[..] == Taken(old(eventq[..]))
      ensures e.Some? ==> old(All(eventq[..])) == All(eventq[..]) + multiset{e.value}
    {
      if eventq[0] == [] {
        e := None;
      } else {
        e := Some(eventq[0][0]);
        ghost var was := eventq[..];
        eventq[0] := eventq[0][1..];
        assert eventq[..] == was[0 := was[0][1..]];
        assert was[0] == [e.value] + was[0][1..];
        AllSet(was, 0, was[0][1..]);
        assert multiset(was[0]) == multiset(was[0][1..]) + multiset{e.value};
        Cancel(All(was), multiset(was[0][1..]), All(eventq[..]), multiset{e.value});
      }
    }

    /** Rebalances the buckets whose tick bits changed. */
    method Check(now: nat, cancelled: set<nat>)
      requires Valid()
      modifies this`timeBase, this`lastChecked, eventq
      ensures Valid() && lastChecked == Tick(now) && timeBase == now
      ensures eventq[..] == Checked(old(eventq[..]), old(lastChecked), now, cancelled)
      ensures All(eventq[..]) == old(All(eventq[..]))
      ensures old(OnTime(now, cancelled)) && Safe(old(lastChecked), Tick(now)) ==>
        OnTime(now, cancelled) && DueInFirst(eventq[..], now)
    {
      ghost var was, last := eventq[..], lastChecked;
      CheckKeepsAll(was, last, now, cancelled);
      if OnTime(now, cancelled) && Safe(last, Tick(now)) { SafeCheck(was, last, now, cancelled); }
      var check := now / TICK;
      var todo := Xor(check, lastChecked, NUM_BUCKETS - 1);
      timeBase := now;
      lastChecked := check;
      var k := 0;
      while todo > 0
        invariant k + Width(todo) == LastVisited(last, check)
      {
        k := k + 1;
        todo := todo / 2;
      }
      WidthBound(check, last, NUM_BUCKETS - 1);
      var i := 1;
      while i <= k
        invariant lastChecked == Tick(now) && timeBase == now
        invariant 1 <= i <= k + 1 && k < NUM_BUCKETS
          && Visited(eventq[..], i, k, now, cancelled) == Visited(was, 1, k, now, cancelled)
      {
        var q := eventq[i];
        ghost var before := eventq[..];
        eventq[i] := [];
        assert eventq[..] == before[i := []];
        SpreadLength(before[i := []], before[i], i, now, cancelled);
        Redistribute(q, i, now, cancelled);
        i := i + 1;
      }
    }

    /** The inner loop of Check: the events of q, taken from bucket i, go where they belong now. */
    method Redistribute(queue: seq<Event>, i: nat, now: int, cancelled: set<nat>)
      requires Valid() && i < NUM_BUCKETS
      modifies eventq
      ensures eventq[..] == Spread(old(eventq[..]), queue, i, now, cancelled)
    {
      var q := queue;
      while q != []
        invariant Spread(eventq[..], q, i, now, cancelled) == Spread(old(eventq[..]), queue, i, now, cancelled)
        decreases |q|
      {
        var e := q[0];
        FallAtMost(e.timeout - now, i);
        ghost var before := eventq[..];
        var j: nat := 0;
        if e.id !in cancelled {
          var tt := e.timeout - now;
          j := i;
          while j > 0 && tt <= BucketTime(j - 1)
            invariant j <= i && FallTo(tt, j) == FallTo(tt, i)
          {
            j := j - 1;
          }
        }
        eventq[j] := eventq[j] + [e];
        assert eventq[..] == before[j := before[j] + [e]];
        q := q[1..];
      }
    }
  }

  /** A queue whose second check passes over an event that is due, for any two ticks an unsafe distance
      apart. */
  method PassOver(last: nat, now: nat) returns (q: PriorityEventQueue)
    requires last <= Tick(now) && !Safe(last, Tick(now))
    ensures fresh(q) && q.Valid() && q.lastChecked == Tick(now) && !DueInFirst(q.eventq[..], now)
  {
    hide Shr, Shl, Checked, BucketFor, Late, Start, Safe, Timely, NoneTooEarly, All;
    LateFacts(last);
    OverdueAt(last, now);
    q := new PriorityEventQueue(Start(last));
    q.Enqueue(Late(last), Start(last), {});
    ghost var bs := q.eventq[..];
    assert bs[9] == [Late(last)];
    LastBucketSkipped(bs, q.lastChecked, TICK * last, {});
    q.Check(TICK * last, {});
    LastBucketSkipped(q.eventq[..], last, now, {});
    q.Check(now, {});
    assert Late(last) in q.eventq[..][9];
  }

  lemma {:induction false} AllEmpty(bs: seq<seq<Event>>)
    requires forall j :: 0 <= j < |bs| ==> bs[j] == []
    ensures All(bs) == multiset{}
  {
    if bs != [] { AllEmpty(bs[..|bs| - 1]); }
  }
}
