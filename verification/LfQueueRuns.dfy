/** What every run of the lock-free queue guarantees. */
module LfQueueRuns {
  import opened LfQueue
  import opened LfQueueProof

  predicate IsRun(states: seq<Queue>, steps: seq<Step>) {
    |states| == |steps| + 1 && Created(states[0]) && forall i ::
      0 <= i < |steps| ==> Moves(states[i], steps[i], states[i + 1])
  }

  lemma CreatedInv(q: Queue)
    requires Created(q)
    ensures Inv(q)
  {
    assert Contents(q.nodes, q.chain) == [];
  }

  lemma {:induction false} RunInv(states: seq<Queue>, steps: seq<Step>, i: nat)
    requires IsRun(states, steps) && i <= |steps|
    ensures Inv(states[i])
  {
    hide Inv, Created, Moves;
    if i == 0 {
      CreatedInv(states[0]);
    } else {
      RunInv(states, steps, i - 1);
      StepKeeps(states[i - 1], steps[i - 1], states[i]);
    }
  }

  /** First in, first out: the messages got are exactly the first messages put, in the order in which
      the puts linked their nodes; the rest are in the queue, none lost, duplicated or invented. */
  lemma FifoOrder(states: seq<Queue>, steps: seq<Step>)
    ensures IsRun(states, steps) ==>
      var q := states[|steps|];
      q.taken <= q.linked && (forall a <- q.chain :: a in q.nodes)
        && q.linked[|q.taken|..] == Contents(q.nodes, q.chain)
  {
    if IsRun(states, steps) { RunInv(states, steps, |steps|); }
  }

  /** The list keeps its shape, and every node allocated is in exactly one place. */
  lemma ShapeKeeps(states: seq<Queue>, steps: seq<Step>)
    ensures IsRun(states, steps) ==> var q := states[|steps|]; ShapeOk(q) && FreeOk(q) && OwnersOk(q)
  {
    if IsRun(states, steps) { RunInv(states, steps, |steps|); }
  }

  /** Memory safety: on every run, whatever node a thread is about to read or write is one that was
      allocated, though it may have been recycled since the thread came by its address. */
  lemma NodesKnown(states: seq<Queue>, steps: seq<Step>, i: nat, t: nat)
    ensures IsRun(states, steps) && i <= |steps| && t in states[i].threads ==> Known(states[i], states[i].threads[t])
  {
    if IsRun(states, steps) && i <= |steps| && t in states[i].threads {
      RunInv(states, steps, i);
      KnownHere(states[i], t);
    }
  }

  lemma KnownHere(q: Queue, t: nat)
    requires Inv(q) && t in q.threads
    ensures Known(q, q.threads[t])
  {
    hide ShapeOk, FreeOk, HistoryOk, TimeOk;
    Knows(q, t);
    var pc := q.threads[t];
    if pc.PushWrite? || pc.FillMsg? { assert pc.node in Holds(pc); }
  }

  predicate Inside(pc: Pc) {
    pc.GetHead? || pc.GetTail? || pc.GetLink? || pc.GetCheck? || pc.GetHelp? || pc.GetData? || pc.GetSize?
      || pc.GetCas? || pc.GotNothing?
  }

  /** A thread inside the call of QueueGet that began at time b. */
  predicate Getting(pc: Pc, b: nat) {
    Inside(pc) && pc.began == b
  }

  lemma {:induction false} ClockCounts(states: seq<Queue>, steps: seq<Step>, i: nat)
    requires IsRun(states, steps) && i <= |steps|
    ensures states[i].clock == i
    ensures forall k <- states[i].empties :: k <= i && |states[k].chain| == 1
  {
    hide Moves, Created;
    if i == 0 {
      ClockStarts(states[0]);
    } else {
      ClockCounts(states, steps, i - 1);
      ClockTicks(states[i - 1], steps[i - 1], states[i]);
    }
  }

  lemma ClockStarts(q: Queue)
    requires Created(q)
    ensures q.clock == 0 && q.empties == {0} && |q.chain| == 1
  {
  }

  lemma ClockTicks(q: Queue, step: Step, q': Queue)
    requires Moves(q, step, q')
    ensures q'.clock == q.clock + 1 && q'.empties == if |q'.chain| == 1 then q.empties + {q'.clock} else q.empties
  {
    hide Enabled, Effect;
    SameClock(q, step);
  }

  lemma SameClock(q: Queue, step: Step)
    requires Enabled(q, step)
    ensures var u := Effect(q, step); u.clock == q.clock && u.empties == q.empties
  {
  }

  lemma {:induction false} CallBegan(states: seq<Queue>, steps: seq<Step>, i: nat, t: nat, b: nat)
    requires IsRun(states, steps) && i <= |steps| && t in states[i].threads && Getting(states[i].threads[t], b)
    ensures b < i && steps[b] == StartGet(t) && forall j ::
      b < j <= i ==> t in states[j].threads && Getting(states[j].threads[t], b)
  {
    hide Created, Enabled, Effect;
    if i > 0 {
      var q, step := states[i - 1], steps[i - 1];
      assert Moves(q, step, states[i - 1 + 1]);
      BeganKept(q, step, t, b);
      ClockCounts(states, steps, i - 1);
      if !(step == StartGet(t) && b == q.clock) { CallBegan(states, steps, i - 1, t, b); }
    } else {
      NotStarted(states[0], t, b);
    }
  }

  lemma NotStarted(q: Queue, t: nat, b: nat)
    requires Created(q) && t in q.threads
    ensures !Getting(q.threads[t], b)
  {
  }

  lemma BeganKept(q: Queue, step: Step, t: nat, b: nat)
    requires Enabled(q, step) && var u := Effect(q, step); t in u.threads && Getting(u.threads[t], b)
    ensures (step == StartGet(t) && b == q.clock) || (t in q.threads && Getting(q.threads[t], b))
  {
    hide Running;
    if step.Run? && !q.threads[step.t].Spreading? {
      if step.t == t { RunBegan(q, t, b); } else { RunsAlone(q, step.t, t); }
    }
  }

  lemma RunsAlone(q: Queue, t: nat, u: nat)
    requires t in q.threads && Known(q, q.threads[t]) && t != u
    ensures var q' := Running(q, t); u in q'.threads <==> u in q.threads
    ensures var q' := Running(q, t); u in q'.threads ==> q'.threads[u] == q.threads[u]
  {
    match q.threads[t]
    case PutCas(_, _, _, _) =>
    case _ =>
  }

  lemma RunBegan(q: Queue, t: nat, b: nat)
    requires t in q.threads && Known(q, q.threads[t]) && var u := Running(q, t);
      t in u.threads && Getting(u.threads[t], b)
    ensures Getting(q.threads[t], b)
  {
    hide Running;
    if Inside(q.threads[t]) { StaysInside(q, t); } else { StaysOutside(q, t); }
  }

  lemma StaysInside(q: Queue, t: nat)
    requires t in q.threads && Known(q, q.threads[t]) && Inside(q.threads[t])
    ensures var u := Running(q, t);
      t in u.threads && (Inside(u.threads[t]) ==> u.threads[t].began == q.threads[t].began)
  {
  }

  lemma StaysOutside(q: Queue, t: nat)
    requires t in q.threads && Known(q, q.threads[t]) && !Inside(q.threads[t])
    ensures var u := Running(q, t); t in u.threads && !Inside(u.threads[t])
  {
    var pc := q.threads[t];
    if pc.PutTail? || pc.PutLink? || pc.PutCheck? || pc.PutCas? || pc.PutSwing? {
      assert !Inside(Running(q, t).threads[t]);
    } else if pc.PushLoad? || pc.PushWrite? || pc.PushCas? {
      assert !Inside(Running(q, t).threads[t]);
    }
  }

  /** QueueGet reports an empty queue only if the queue was empty at some instant inside the call. */
  lemma EmptyWasEmpty(states: seq<Queue>, steps: seq<Step>, i: nat, t: nat, b: nat)
    ensures IsRun(states, steps) && i <= |steps| && t in states[i].threads && states[i].threads[t] == GotNothing(b) ==>
      && b < i && steps[b] == StartGet(t)
         && (forall j :: b < j <= i ==> t in states[j].threads && Getting(states[j].threads[t], b))
      && exists k :: b <= k <= i && |states[k].chain| == 1
  {
    if IsRun(states, steps) && i <= |steps| && t in states[i].threads && states[i].threads[t] == GotNothing(b) {
      RunInv(states, steps, i);
      CallBegan(states, steps, i, t, b);
      ClockCounts(states, steps, i);
      hide Created, Moves, ShapeOk, FreeOk, OwnersOk, HistoryOk;
      assert SawEmpty(states[i], b) by { Knows(states[i], t); }
    }
  }
}
