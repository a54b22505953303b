/** The queue of packet time-outs of the packet service: kept sorted by walking back from its end, and
    emptied of what is due by a pass that starts over at its head after every packet it takes. */
module TimeoutQueue {
  /** A packet waiting in the send queue of a connection, due at a time. */
  datatype Ctx = Ctx(id: nat, timeout: int, cxn: nat)

  predicate Sorted(q: seq<Ctx>) {
    forall i, j :: 0 <= i < j < |q| ==> q[i].timeout <= q[j].timeout
  }

  /** Due by now, on a connection whose lock is free. */
  predicate Ripe(c: Ctx, now: int, busy: set<nat>) { c.timeout <= now && c.cxn !in busy }

  function Take(q: seq<Ctx>, now: int, busy: set<nat>): seq<Ctx> {
    if q == [] then [] else (if Ripe(q[0], now, busy) then [q[0]] else []) + Take(q[1..], now, busy)
  }

  function Leave(q: seq<Ctx>, now: int, busy: set<nat>): seq<Ctx> {
    if q == [] then [] else (if Ripe(q[0], now, busy) then [] else [q[0]]) + Leave(q[1..], now, busy)
  }

  /** A packet that is not ripe stays, one that is ripe is taken; nothing is lost or made up. */
  lemma {:induction false} Partition(q: seq<Ctx>, now: int, busy: set<nat>)
    ensures multiset(Take(q, now, busy)) + multiset(Leave(q, now, busy)) == multiset(q)
    ensures (forall c <- Take(q, now, busy) :: Ripe(c, now, busy)) && forall c <- Leave(q, now, busy) ::
      !Ripe(c, now, busy)
  {
    if q != [] {
      Partition(q[1..], now, busy);
      assert q == [q[0]] + q[1..];
    }
  }

  /** c stands behind every packet that is due no later than it, and before the others. */
  ghost predicate InsertedAt(q: seq<Ctx>, k: nat, c: Ctx, q': seq<Ctx>) {
    && k <= |q| && q' == q[..k] + [c] + q[k..]
    && (forall i :: 0 <= i < k ==> q[i].timeout <= c.timeout) && forall i :: k <= i < |q| ==> c.timeout < q[i].timeout
  }

  lemma Inserted(q: seq<Ctx>, k: nat, c: Ctx, q': seq<Ctx>)
    requires Sorted(q) && k <= |q| && (k > 0 ==> q[k - 1].timeout <= c.timeout)
    requires (forall i :: k <= i < |q| ==> c.timeout < q[i].timeout) && q' == q[..k] + [c] + q[k..]
    ensures InsertedAt(q, k, c, q') && Sorted(q') && multiset(q') == multiset(q) + multiset{c}
  {
    hide Sorted;
    SortedInsert(q, k, c, q');
    assert q == q[..k] + q[k..];
  }

  lemma SortedInsert(q: seq<Ctx>, k: nat, c: Ctx, q': seq<Ctx>)
    requires Sorted(q) && k <= |q| && (k > 0 ==> q[k - 1].timeout <= c.timeout)
    requires (forall i :: k <= i < |q| ==> c.timeout < q[i].timeout) && q' == q[..k] + [c] + q[k..]
    ensures Sorted(q') && forall i :: 0 <= i < k ==> q[i].timeout <= c.timeout
  {
    forall i, j | 0 <= i < j < |q'| ensures q'[i].timeout <= q'[j].timeout {
      assert q'[i] == if i < k then q[i] else if i == k then c else q[i - 1];
      assert q'[j] == if j < k then q[j] else if j == k then c else q[j - 1];
      if i < k { assert q[i].timeout <= q[k - 1].timeout; }
    }
  }

  /** Nothing ripe before position k, and from there on nothing is due: the pass is over. */
  lemma {:induction false} NoneRipe(q: seq<Ctx>, k: nat, now: int, busy: set<nat>)
    requires Sorted(q) && k <= |q| && (forall i :: 0 <= i < k ==> !Ripe(q[i], now, busy))
      && (k < |q| ==> q[k].timeout > now)
    ensures Take(q, now, busy) == [] && Leave(q, now, busy) == q
  {
    if q != [] {
      assert !Ripe(q[0], now, busy);
      NoneRipe(q[1..], if k == 0 then 0 else k - 1, now, busy);
    }
  }

  /** The first ripe packet is the first one taken, and the others are taken or left as they would be. */
  lemma {:induction false} FirstRipe(q: seq<Ctx>, k: nat, now: int, busy: set<nat>)
    requires k < |q| && (forall i :: 0 <= i < k ==> !Ripe(q[i], now, busy)) && Ripe(q[k], now, busy)
    ensures Take(q, now, busy) == [q[k]] + Take(q[..k] + q[k + 1..], now, busy)
    ensures Leave(q, now, busy) == Leave(q[..k] + q[k + 1..], now, busy)
  {
    if k == 0 {
      assert q[..0] + q[1..] == q[1..];
    } else {
      FirstRipe(q[1..], k - 1, now, busy);
      var less := q[..k] + q[k + 1..];
      assert less[0] == q[0] && less[1..] == q[1..][..k - 1] + q[1..][k..];
    }
  }

  class TimeoutHandler {
    var queue: seq<Ctx>

    constructor ()
      ensures queue == []
    {
      queue := [];
    }

    /** The packet goes behind every packet that is due no later than it, and before the others. */
    method Enqueue(c: Ctx)
      requires Sorted(queue)
      modifies this
      ensures Sorted(queue) && multiset(queue) == multiset(old(queue)) + multiset{c}
      ensures exists k :: InsertedAt(old(queue), k, c, queue)
    {
      hide InsertedAt, Sorted;
      var k := |queue|;
      while k > 0 && queue[k - 1].timeout > c.timeout
        invariant 0 <= k <= |queue| && queue == old(queue) && forall i ::
          k <= i < |queue| ==> c.timeout < queue[i].timeout
      {
        k := k - 1;
      }
      queue := queue[..k] + [c] + queue[k..];
      Inserted(old(queue), k, c, queue);
    }

    /** A packet is taken out wherever it is; the others keep their order. */
    method Remove(c: Ctx)
      requires Sorted(queue) && c in queue
      modifies this
      ensures Sorted(queue) && multiset(queue) == multiset(old(queue)) - multiset{c}
      ensures exists k :: 0 <= k < |old(queue)| && old(queue)[k] == c && queue == old(queue)[..k] + old(queue)[k + 1..]
    {
      var k := 0;
      while queue[k] != c
        invariant 0 <= k < |queue| && c !in queue[..k]
        decreases |queue| - k
      {
        k := k + 1;
      }
      assert queue == queue[..k] + [queue[k]] + queue[k + 1..];
      queue := queue[..k] + queue[k + 1..];
    }

    /** Every packet due by now on a connection that can be locked is timed out, in the order of the
        queue, and no other; busy: the connections whose lock is held elsewhere during the pass. */
    method EventTimeout(now: int, busy: set<nat>) returns (timedOut: seq<Ctx>)
      requires Sorted(queue)
      modifies this
      ensures Sorted(queue) && timedOut == Take(old(queue), now, busy) && queue == Leave(old(queue), now, busy)
    {
      timedOut := [];
      var k := 0;
      while k < |queue| && queue[k].timeout <= now
        invariant 0 <= k <= |queue| && Sorted(queue)
        invariant forall i :: 0 <= i < k ==> !Ripe(queue[i], now, busy)
        invariant timedOut + Take(queue, now, busy) == Take(old(queue), now, busy)
        invariant Leave(queue, now, busy) == Leave(old(queue), now, busy)
        decreases |queue|, |queue| - k
      {
        if queue[k].cxn in busy {
          k := k + 1;
        } else {
          FirstRipe(queue, k, now, busy);
          timedOut := timedOut + [queue[k]];
          queue := queue[..k] + queue[k + 1..];
          k := 0;
        }
      }
      NoneRipe(queue, k, now, busy);
    }
  }
}
