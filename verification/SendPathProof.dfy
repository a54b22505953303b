/** Every packet has one place, one callback and its place in line, on every run of the packet service. */
module SendPathProof {
  import opened Basics
  import opened SendPath

  // ---------------------------------------------------------------- queues

  lemma {:induction false} MineIs(q: seq<Pkt>, r: nat)
    ensures forall p :: p in Mine(q, r) <==> p in q && p.peer == r
    ensures forall p :: p in Rest(q, r) <==> p in q && p.peer != r
  {
    if q != [] {
      MineIs(q[..|q| - 1], r);
      assert q == q[..|q| - 1] + [q[|q| - 1]];
    }
  }

  lemma {:induction false} WithoutIs(q: seq<Pkt>, p: Pkt)
    ensures forall x :: x in Without(q, p) <==> x in q && x != p
  {
    if q != [] {
      WithoutIs(q[..|q| - 1], p);
      assert q == q[..|q| - 1] + [q[|q| - 1]];
    }
  }

  lemma {:induction false} MineDistinct(q: seq<Pkt>, r: nat)
    requires Distinct(q)
    ensures Distinct(Mine(q, r)) && Distinct(Rest(q, r))
  {
    if q != [] {
      var n := |q| - 1;
      MineDistinct(q[..n], r);
      MineIs(q[..n], r);
      LastDiffers(q);
    }
  }

  lemma {:induction false} WithoutDistinct(q: seq<Pkt>, p: Pkt)
    requires Distinct(q)
    ensures Distinct(Without(q, p))
    ensures q != [] && q[0] != p ==> Without(q, p) != [] && Without(q, p)[0] == q[0]
  {
    if q != [] {
      var n := |q| - 1;
      WithoutDistinct(q[..n], p);
      WithoutIs(q[..n], p);
      LastDiffers(q);
    }
  }

  lemma LastDiffers(q: seq<Pkt>)
    requires Distinct(q) && q != []
    ensures q[|q| - 1] !in q[..|q| - 1]
  {
  }

  lemma DistinctAdd(q: seq<Pkt>, x: Pkt)
    requires Distinct(q) && x !in q
    ensures Distinct(q + [x])
  {
  }

  lemma DistinctRest(q: seq<Pkt>)
    requires Distinct(q) && q != []
    ensures Distinct(q[1..]) && q[0] !in q[1..] && q == [q[0]] + q[1..]
  {
  }

  // ---------------------------------------------------------------- places

  /** What the threads hold is theirs, and goes to the peer they work for. */
  predicate PeersOk(s: Svc) {
    forall t :: 0 <= t < |s.threads| ==> PeerOk(s, t, s.threads[t])
  }

  predicate PeerOk(s: Svc, t: nat, pc: Pc) {
    && (pc.Sending? ==> At(s, pc.p, New(t)))
    && (pc.Ready? && pc.own.Some? ==> pc.own.value.peer == pc.r && At(s, pc.own.value, New(t)))
    && (pc.Draining? ==> (forall p <- pc.todo :: p.peer == pc.r) && QueueOk(s, pc.todo, InHands(t)))
  }

  /** Packet x moves from place a to place b, thread t moves on, and all queues but those two stay. */
  predicate Moved(s: Svc, s': Svc, x: Pkt) {
    && |s'.threads| == |s.threads| && s'.place.Keys == s.place.Keys + {x}
       && (forall p <- s.place :: p != x ==> s'.place[p] == s.place[p])
    && x in s'.place && (x in s.place ==> s.place[x] != s'.place[x])
  }

  predicate SameQueues(c: Cxn, c': Cxn) { c'.sendq == c.sendq && c'.disq == c.disq && c'.writing == c.writing }

  lemma QueueKept(s: Svc, s': Svc, x: Pkt, q: seq<Pkt>, at: Place)
    requires Moved(s, s', x) && QueueOk(s, q, at) && (x in s.place ==> s.place[x] != at)
    ensures QueueOk(s', q, at) && x !in q
  {
    hide Distinct;
  }

  lemma QueueGrows(s: Svc, s': Svc, x: Pkt, q: seq<Pkt>, at: Place)
    requires Moved(s, s', x) && QueueOk(s, q, at) && s'.place[x] == at
    ensures QueueOk(s', q + [x], at)
  {
    assert x !in q;
    DistinctAdd(q, x);
    hide Distinct;
  }

  lemma QueueShrinks(s: Svc, s': Svc, x: Pkt, q: seq<Pkt>, at: Place)
    requires Moved(s, s', x) && QueueOk(s, q, at) && q != [] && q[0] == x
    ensures QueueOk(s', q[1..], at)
  {
    DistinctRest(q);
    hide Distinct;
    forall p <- q[1..] ensures At(s', p, at) { assert p in q && At(s, p, at); }
  }

  lemma CxnKept(s: Svc, s': Svc, x: Pkt, r: nat)
    requires Moved(s, s', x) && r in s.cxns && CxnOk(s, r) && r in s'.cxns && SameQueues(s.cxns[r], s'.cxns[r])
    requires r != x.peer || (x in s.place ==> s.place[x] != InSend && s.place[x] != InDis)
    ensures CxnOk(s', r)
  {
    var c := s.cxns[r];
    assert x !in c.sendq && x !in c.disq;
    hide Distinct;
  }

  // ---------------------------------------------------------------- where packets are found

  /** Thread t moves on, and what it had of its own, other than x, it still has. */
  predicate KeepsHands(s: Svc, s': Svc, x: Option<Pkt>, t: nat) {
    && t < |s.threads| == |s'.threads| && (forall u :: 0 <= u < |s.threads| && u != t ==> s'.threads[u] == s.threads[u])
    && (forall p <- s.place ::
       Some(p) != x && s.place[p] == New(t) ==>
       s'.threads[t] == Sending(p) || (s'.threads[t].Ready? && s'.threads[t].own == Some(p)))
    && (forall p <- s.place ::
       Some(p) != x && s.place[p] == InHands(t) ==> s'.threads[t].Draining? && p in s'.threads[t].todo)
  }

  /** No queue loses a packet other than x. */
  predicate KeepsQueues(s: Svc, s': Svc, x: Option<Pkt>) {
    && (forall p <- s.retryQ :: Some(p) != x ==> p in s'.retryQ) && (forall p <- s.calls :: p in s'.calls)
    && (forall r <- s.cxns, p <- s.cxns[r].sendq :: Some(p) != x ==> r in s'.cxns && p in s'.cxns[r].sendq)
    && (forall r <- s.cxns, p <- s.cxns[r].disq :: Some(p) != x ==> r in s'.cxns && p in s'.cxns[r].disq)
  }

  lemma FoundAfter(s: Svc, s': Svc, x: Pkt)
    requires Moved(s, s', x) && AllFound(s) && KeepsQueues(s, s', Some(x)) && Found(s', x)
    requires s'.threads == s.threads || exists t :: KeepsHands(s, s', Some(x), t)
    ensures AllFound(s')
  {
    forall p <- s'.place ensures Found(s', p) { if p != x { assert Found(s, p) && Some(p) != Some(x); } }
  }

  lemma FoundStill(s: Svc, s': Svc)
    requires s'.place == s.place && |s'.threads| == |s.threads| && AllFound(s) && KeepsQueues(s, s', None)
    requires s'.threads == s.threads || exists t :: KeepsHands(s, s', None, t)
    ensures AllFound(s')
  {
    forall p <- s'.place ensures Found(s', p) { assert Found(s, p); }
  }

  /** What a thread has of its own. */
  lemma HandsOf(s: Svc, t: nat)
    requires t < |s.threads| && AllFound(s)
    ensures forall p <- s.place ::
      s.place[p] == New(t) ==> s.threads[t] == Sending(p) || (s.threads[t].Ready? && s.threads[t].own == Some(p))
    ensures forall p <- s.place :: s.place[p] == InHands(t) ==> s.threads[t].Draining? && p in s.threads[t].todo
  {
  }

  // ---------------------------------------------------------------- connections

  lemma CxnsKept(s: Svc, s': Svc, x: Pkt)
    requires Moved(s, s', x) && CxnsOk(s) && (x in s.place ==> s.place[x] != InSend && s.place[x] != InDis)
    requires s'.cxns.Keys == s.cxns.Keys && forall r <- s.cxns :: SameQueues(s.cxns[r], s'.cxns[r])
    ensures CxnsOk(s')
  {
    hide CxnOk;
    forall r <- s'.cxns ensures CxnOk(s', r) { CxnKept(s, s', x, r); }
  }

  /** Connection r changes and is sound; the others stay. */
  lemma CxnsBut(s: Svc, s': Svc, x: Pkt, r: nat)
    requires Moved(s, s', x) && CxnsOk(s) && r in s'.cxns && s'.cxns == s.cxns[r := s'.cxns[r]] && CxnOk(s', r)
    requires x.peer == r
    ensures CxnsOk(s')
  {
    hide CxnOk;
    forall r' <- s'.cxns ensures CxnOk(s', r') { if r' != r { CxnKept(s, s', x, r'); } }
  }

  lemma CxnsStill(s: Svc, s': Svc)
    requires s'.place == s.place && CxnsOk(s)
    requires forall r <- s'.cxns ::
      (r in s.cxns && SameQueues(s.cxns[r], s'.cxns[r]))
      || (s'.cxns[r].sendq == [] && s'.cxns[r].disq == [] && s'.cxns[r].writing.None?)
    ensures CxnsOk(s')
  {
    hide Distinct;
    forall r <- s'.cxns ensures CxnOk(s', r) {
      if r in s.cxns && SameQueues(s.cxns[r], s'.cxns[r]) { assert CxnOk(s, r); } else { DistinctEmpty(); }
    }
  }

  lemma DistinctEmpty()
    ensures Distinct<Pkt>([])
  {
  }

  lemma SameQueue(s: Svc, s': Svc, q: seq<Pkt>, at: Place)
    requires s'.place == s.place && QueueOk(s, q, at)
    ensures QueueOk(s', q, at)
  {
  }

  lemma TimeoutsAfter(s: Svc, s': Svc, x: Pkt)
    requires Moved(s, s', x) && TimeoutsOk(s)
    requires s'.timeouts == if s'.place[x] == InSend then s.timeouts + {x} else s.timeouts - {x}
    ensures TimeoutsOk(s')
  {
  }

  // ---------------------------------------------------------------- steps

  lemma OpenIs(s: Svc, t: nat)
    requires Enabled(s, Open(t))
    ensures t < |s.threads| && WantsCxn(s, s.threads[t])
    ensures Effect(s, Open(t)) == s.(cxns := s.cxns[s.threads[t].r := Cxn([], [], None, false, Some(t))])
  {
  }

  lemma StartWriteIs(s: Svc, r: nat)
    requires Enabled(s, StartWrite(r))
    ensures IsFree(s, r) && s.cxns[r].sendq != []
    ensures Effect(s, StartWrite(r)) == s.(cxns := s.cxns[r := s.cxns[r].(writing := Some(s.cxns[r].sendq[0]))])
  {
  }

  lemma CleanUpIs(s: Svc, r: nat)
    requires Enabled(s, CleanUp(r))
    ensures IsFree(s, r) && s.cxns[r].disq == []
    ensures Effect(s, CleanUp(r)) ==
      s.(cxns := if s.cxns[r].sendq != [] then s.cxns[r := s.cxns[r].(closed := false)] else s.cxns - {r})
  {
  }

  lemma AcceptIs(s: Svc, r: nat)
    requires Enabled(s, Accept(r))
    ensures r !in s.cxns && Effect(s, Accept(r)) == s.(cxns := s.cxns[r := Cxn([], [], None, false, None)])
  {
  }

  lemma SendIs(s: Svc, t: nat, p: Pkt)
    requires Enabled(s, Send(t, p))
    ensures t < |s.threads| && s.threads[t].Idle? && p !in s.place
    ensures Effect(s, Send(t, p)) ==
      s.(threads := s.threads[t := Sending(p)], place := s.place[p := New(t)], prior := s.prior[p := s.stamp.Keys])
  {
  }

  lemma FireIs(s: Svc, t: nat, r: nat)
    requires Enabled(s, Fire(t, r))
    ensures t < |s.threads| && s.threads[t].Idle? && r in s.events && s.events[r] > 0
    ensures Effect(s, Fire(t, r)) ==
      s.(threads := s.threads[t := Handling(r)], events := s.events[r := s.events[r] - 1])
  {
  }

  lemma MissIs(s: Svc, t: nat)
    requires Enabled(s, Miss(t))
    ensures t < |s.threads| && (s.threads[t].Sending? || s.threads[t].Handling?)
    ensures var s', pc := Effect(s, Miss(t)), s.threads[t];
      && s'.threads == s.threads[t := Scheduling(Target(pc))] && s'.events == s.events && s'.cxns == s.cxns
         && s'.lock == s.lock
      && s'.prior == s.prior && s'.entered == s.entered && s'.calls == s.calls && s'.timeouts == s.timeouts
         && s'.server == s.server
      && (pc.Sending? ==>
         s'.place == s.place[pc.p := InRetry] && s'.stamp == s.stamp[pc.p := |s.stamp|]
         && s'.retryQ == s.retryQ + [pc.p])
      && (pc.Handling? ==> s'.place == s.place && s'.stamp == s.stamp && s'.retryQ == s.retryQ)
  {
    hide Effect;
    MissEffect(s, t);
  }

  lemma MissEffect(s: Svc, t: nat)
    requires Enabled(s, Miss(t))
    ensures t < |s.threads| && (s.threads[t].Sending? || s.threads[t].Handling?)
    ensures var pc := s.threads[t];
      var s1 := s.(threads := s.threads[t := Scheduling(Target(pc))]);
      Effect(s, Miss(t)) == if pc.Sending? then Arrive(s1, pc.p, InRetry).(retryQ := s.retryQ + [pc.p]) else s1
  {
    hide Arrive;
  }

  lemma ScheduleIs(s: Svc, t: nat)
    requires Enabled(s, Schedule(t))
    ensures t < |s.threads| && s.threads[t].Scheduling?
    ensures var r := s.threads[t].r;
      Effect(s, Schedule(t)) == s.(threads := s.threads[t := Idle], events := s.events[r := Count(s.events, r) + 1])
  {
  }

  lemma WrittenIs(s: Svc, r: nat)
    requires Enabled(s, Written(r))
    ensures IsFree(s, r) && s.cxns[r].writing.Some? && s.cxns[r].sendq != []
    ensures var c := s.cxns[r];
      Effect(s, Written(r)) ==
        CalledBack(s.(cxns := s.cxns[r := c.(sendq := c.sendq[1..], writing := None)],
          timeouts := s.timeouts - {c.writing.value}), c.writing.value)
  {
    hide CalledBack;
  }

  lemma TimeOutIs(s: Svc, p: Pkt)
    requires Enabled(s, TimeOut(p))
    ensures p in s.timeouts && IsFree(s, p.peer)
    ensures var c := s.cxns[p.peer];
      var c' := c.(sendq := Without(c.sendq, p), writing := if c.writing == Some(p) then None else c.writing);
      Effect(s, TimeOut(p)) == CalledBack(s.(cxns := s.cxns[p.peer := c'], timeouts := s.timeouts - {p}), p)
  {
    hide CalledBack, Without;
  }

  lemma CallBackIs(s: Svc, r: nat)
    requires Enabled(s, CallBack(r))
    ensures IsFree(s, r) && s.cxns[r].disq != []
    ensures var c := s.cxns[r];
      Effect(s, CallBack(r)) == CalledBack(s.(cxns := s.cxns[r := c.(disq := c.disq[1..])]), c.disq[0])
  {
    hide CalledBack;
  }

  lemma SendPlaces(s: Svc, t: nat, x: Pkt)
    requires PlacesOk(s) && Enabled(s, Send(t, x))
    ensures PlacesOk(Effect(s, Send(t, x)))
  {
    hide QueueOk, CxnsOk, AllFound, TimeoutsOk;
    var s' := Effect(s, Send(t, x));
    HandsOf(s, t);
    assert Moved(s, s', x) && KeepsHands(s, s', Some(x), t);
    QueueKept(s, s', x, s.retryQ, InRetry);
    QueueKept(s, s', x, s.calls, Back);
    CxnsKept(s, s', x);
    FoundAfter(s, s', x);
    NotTimed(s, x);
    TimeoutsAfter(s, s', x);
  }

  lemma NotTimed(s: Svc, x: Pkt)
    requires TimeoutsOk(s) && (x in s.place ==> s.place[x] != InSend)
    ensures x !in s.timeouts
  {
  }

  /** The packet a thread was sending joins the retry queue. */
  lemma RetryPlaces(s: Svc, s': Svc, t: nat, x: Pkt)
    requires PlacesOk(s) && t < |s.threads| && At(s, x, New(t))
      && (s.threads[t] == Sending(x) || (s.threads[t].Ready? && s.threads[t].own == Some(x)))
    requires |s'.threads| == |s.threads| && s'.threads == s.threads[t := s'.threads[t]]
      && (s'.threads[t].Idle? || s'.threads[t].Scheduling?)
    requires s'.place == s.place[x := InRetry] && s'.retryQ == s.retryQ + [x]
    requires s'.calls == s.calls && s'.timeouts == s.timeouts && s'.cxns.Keys == s.cxns.Keys && forall r <- s.cxns ::
      SameQueues(s.cxns[r], s'.cxns[r])
    ensures PlacesOk(s')
  {
    hide QueueOk, CxnsOk, AllFound, TimeoutsOk;
    HandsOf(s, t);
    assert Moved(s, s', x) && KeepsHands(s, s', Some(x), t);
    QueueGrows(s, s', x, s.retryQ, InRetry);
    QueueKept(s, s', x, s.calls, Back);
    CxnsKept(s, s', x);
    FoundAfter(s, s', x);
    NotTimed(s, x);
    TimeoutsAfter(s, s', x);
  }

  lemma MissPlaces(s: Svc, t: nat)
    requires PlacesOk(s) && PeersOk(s) && Enabled(s, Miss(t)) && s.threads[t].Sending?
    ensures PlacesOk(Effect(s, Miss(t)))
  {
    hide PlacesOk, Effect, Enabled;
    MissIs(s, t);
    assert PeerOk(s, t, s.threads[t]);
    RetryPlaces(s, Effect(s, Miss(t)), t, s.threads[t].p);
  }

  /** Nothing but threads, locks and events changes. */
  lemma StillPlaces(s: Svc, s': Svc)
    requires PlacesOk(s) && s'.place == s.place && s'.retryQ == s.retryQ && s'.calls == s.calls
      && s'.timeouts == s.timeouts
    requires |s'.threads| == |s.threads| && KeepsQueues(s, s', None)
      && (s'.threads == s.threads || exists t :: KeepsHands(s, s', None, t))
    requires forall r <- s'.cxns ::
      (r in s.cxns && SameQueues(s.cxns[r], s'.cxns[r]))
      || (s'.cxns[r].sendq == [] && s'.cxns[r].disq == [] && s'.cxns[r].writing.None?)
    ensures PlacesOk(s')
  {
    hide QueueOk, CxnsOk, AllFound;
    SameQueue(s, s', s.retryQ, InRetry);
    SameQueue(s, s', s.calls, Back);
    CxnsStill(s, s');
    FoundStill(s, s');
  }

  lemma ThreadPlaces(s: Svc, s': Svc, t: nat)
    requires PlacesOk(s) && t < |s.threads| == |s'.threads| && s'.threads == s.threads[t := s'.threads[t]]
    requires s'.place == s.place && s'.retryQ == s.retryQ && s'.calls == s.calls && s'.timeouts == s.timeouts
    requires s'.cxns.Keys == s.cxns.Keys && forall r <- s.cxns :: SameQueues(s.cxns[r], s'.cxns[r])
    requires KeepsOwn(s.threads[t], s'.threads[t])
    ensures PlacesOk(s')
  {
    hide PlacesOk, AllFound;
    AllIn(s);
    HandsOf(s, t);
    assert KeepsHands(s, s', None, t);
    StillPlaces(s, s');
  }

  /** A thread that moves on with what it has. */
  predicate KeepsOwn(pc: Pc, pc': Pc) {
    && (pc.Sending? ==> pc'.Ready? && pc'.own == Some(pc.p)) && (pc.Ready? ==> pc.own.None?)
    && (pc.Draining? ==> pc.todo == [])
  }

  lemma FirePlaces(s: Svc, t: nat, r: nat)
    requires PlacesOk(s) && Enabled(s, Fire(t, r))
    ensures PlacesOk(Effect(s, Fire(t, r)))
  {
    hide PlacesOk;
    ThreadPlaces(s, Effect(s, Fire(t, r)), t);
  }

  lemma RescheduledPlaces(s: Svc, t: nat)
    requires PlacesOk(s) && Enabled(s, Miss(t)) && s.threads[t].Handling?
    ensures PlacesOk(Effect(s, Miss(t)))
  {
    hide PlacesOk, Effect, Enabled;
    MissIs(s, t);
    ThreadPlaces(s, Effect(s, Miss(t)), t);
  }

  lemma SchedulePlaces(s: Svc, t: nat)
    requires PlacesOk(s) && Enabled(s, Schedule(t))
    ensures PlacesOk(Effect(s, Schedule(t)))
  {
    hide PlacesOk, Effect, Enabled;
    ScheduleIs(s, t);
    ThreadPlaces(s, Effect(s, Schedule(t)), t);
  }

  /** Entering changes only the locks and the place of the thread. */
  lemma EnterFrame(s: Svc, t: nat)
    requires CanEnter(s, t)
    ensures var s' := EnterOne(s, t);
      && |s'.threads| == |s.threads| && s'.threads == s.threads[t := s'.threads[t]] && s'.threads[t].Ready?
      && s'.place == s.place && s'.retryQ == s.retryQ && s'.calls == s.calls && s'.timeouts == s.timeouts
      && s'.stamp == s.stamp && s'.prior == s.prior && s'.entered == s.entered && s'.events == s.events
      && s'.threads[t].r == Target(s.threads[t])
      && s'.threads[t].own == (if s.threads[t].Sending? then Some(s.threads[t].p) else None)
      && s'.cxns.Keys == s.cxns.Keys && (forall r <- s.cxns :: SameQueues(s.cxns[r], s'.cxns[r]))
      && KeepsOwn(s.threads[t], s'.threads[t])
  {
    hide EnterOne;
    EnterIs(s, t);
    var s', r := EnterOne(s, t), Target(s.threads[t]);
    if r in s.cxns { assert s'.cxns == s.cxns[r := s'.cxns[r]]; } else { assert s'.cxns == s.cxns; }
  }

  lemma EnterIs(s: Svc, t: nat)
    requires CanEnter(s, t)
    ensures var pc, r := s.threads[t], Target(s.threads[t]);
      var ready := Ready(r, if pc.Sending? then Some(pc.p) else None, r in s.cxns);
      EnterOne(s, t) ==
        if r in s.cxns then s.(threads := s.threads[t := ready], cxns := s.cxns[r := s.cxns[r].(holder := Some(t))])
        else s.(threads := s.threads[t := ready], lock := Some(t))
  {
  }

  lemma EnterPlaces(s: Svc, t: nat)
    requires PlacesOk(s) && CanEnter(s, t)
    ensures PlacesOk(EnterOne(s, t))
  {
    hide PlacesOk, EnterOne;
    EnterFrame(s, t);
    ThreadPlaces(s, EnterOne(s, t), t);
  }

  lemma FinishPlaces(s: Svc, t: nat)
    requires PlacesOk(s) && Enabled(s, Finish(t))
    ensures PlacesOk(Effect(s, Finish(t)))
  {
    hide PlacesOk;
    ThreadPlaces(s, Effect(s, Finish(t)), t);
  }

  lemma AllIn(s: Svc)
    requires PlacesOk(s)
    ensures AllFound(s)
  {
  }

  lemma AcceptPlaces(s: Svc, r: nat)
    requires PlacesOk(s) && Enabled(s, Accept(r))
    ensures PlacesOk(Effect(s, Accept(r)))
  {
    hide PlacesOk;
    StillPlaces(s, Effect(s, Accept(r)));
  }

  lemma CleanUpPlaces(s: Svc, r: nat)
    requires PlacesOk(s) && Enabled(s, CleanUp(r))
    ensures PlacesOk(Effect(s, CleanUp(r)))
  {
    hide PlacesOk, KeepsHands, AllFound, Effect, KeepsQueues, Enabled;
    CleanUpFrame(s, r);
    StillPlaces(s, Effect(s, CleanUp(r)));
  }

  lemma CleanUpFrame(s: Svc, r: nat)
    requires Enabled(s, CleanUp(r))
    ensures var s' := Effect(s, CleanUp(r));
      && s'.place == s.place && s'.retryQ == s.retryQ && s'.calls == s.calls && s'.timeouts == s.timeouts
         && s'.threads == s.threads
      && KeepsQueues(s, s', None) && forall r' <- s'.cxns :: r' in s.cxns && SameQueues(s.cxns[r'], s'.cxns[r'])
  {
    hide Effect, Enabled;
    CleanUpIs(s, r);
    var s', c := Effect(s, CleanUp(r)), s.cxns[r];
    if c.sendq == [] {
      assert s'.cxns.Keys == s.cxns.Keys - {r} && forall r' <- s'.cxns :: s'.cxns[r'] == s.cxns[r'];
    }
  }

  lemma StartWritePlaces(s: Svc, r: nat)
    requires PlacesOk(s) && Enabled(s, StartWrite(r))
    ensures PlacesOk(Effect(s, StartWrite(r)))
  {
    hide Distinct, AllFound;
    var s' := Effect(s, StartWrite(r));
    SameQueue(s, s', s.retryQ, InRetry);
    SameQueue(s, s', s.calls, Back);
    FoundStill(s, s');
    forall q <- s'.cxns ensures CxnOk(s', q) { assert CxnOk(s, q); }
  }

  /** Packet x leaves the send queue of its connection and is called back. */
  lemma LeavesSend(s: Svc, s': Svc, r: nat, x: Pkt, q: seq<Pkt>)
    requires PlacesOk(s) && r in s.cxns && x in s.cxns[r].sendq && At(s, x, InSend) && x.peer == r
    requires s'.threads == s.threads && s'.retryQ == s.retryQ && s'.place == s.place[x := Back]
      && s'.calls == s.calls + [x] && s'.timeouts == s.timeouts - {x}
    requires r in s'.cxns && s'.cxns == s.cxns[r := s'.cxns[r]] && s'.cxns[r].sendq == q
      && s'.cxns[r].disq == s.cxns[r].disq
    requires CxnOk(s', r) && (forall p :: p in q <==> p in s.cxns[r].sendq && p != x)
    ensures PlacesOk(s')
  {
    hide QueueOk, CxnsOk, AllFound, TimeoutsOk, CxnOk;
    assert Moved(s, s', x);
    QueueKept(s, s', x, s.retryQ, InRetry);
    QueueGrows(s, s', x, s.calls, Back);
    CxnsBut(s, s', x, r);
    assert KeepsQueues(s, s', Some(x));
    FoundAfter(s, s', x);
    TimeoutsAfter(s, s', x);
  }

  lemma OneCxn(s: Svc, r: nat)
    requires PlacesOk(s) && r in s.cxns
    ensures CxnOk(s, r)
  {
  }

  lemma WrittenPlaces(s: Svc, r: nat)
    requires PlacesOk(s) && Enabled(s, Written(r))
    ensures PlacesOk(Effect(s, Written(r)))
  {
    hide Distinct, PlacesOk, Effect, Enabled;
    WrittenIs(s, r);
    OneCxn(s, r);
    var s', c := Effect(s, Written(r)), s.cxns[r];
    var x := c.writing.value;
    assert x in c.sendq && At(s, x, InSend) && x in c.sendq + c.disq;
    assert Moved(s, s', x);
    QueueShrinks(s, s', x, c.sendq, InSend);
    DistinctRest(c.sendq);
    QueueKept(s, s', x, c.disq, InDis);
    LeavesSend(s, s', r, x, c.sendq[1..]);
  }

  lemma TimeOutPlaces(s: Svc, x: Pkt)
    requires PlacesOk(s) && Enabled(s, TimeOut(x))
    ensures PlacesOk(Effect(s, TimeOut(x)))
  {
    hide Distinct, PlacesOk, Effect, Enabled, CxnOk, Without;
    TimeOutIs(s, x);
    TimedIsQueued(s, x);
    var s', r := Effect(s, TimeOut(x)), x.peer;
    OneCxn(s, r);
    WithoutIs(s.cxns[r].sendq, x);
    ShrunkCxn(s, s', x, r);
    LeavesSend(s, s', r, x, Without(s.cxns[r].sendq, x));
  }

  lemma ShrunkCxn(s: Svc, s': Svc, x: Pkt, r: nat)
    requires r in s.cxns && CxnOk(s, r) && x in s.cxns[r].sendq && At(s, x, InSend) && s'.place == s.place[x := Back]
      && |s'.threads| == |s.threads|
    requires var c := s.cxns[r];
      s'.cxns == s.cxns[r := c.(sendq := Without(c.sendq, x), writing := if c.writing == Some(x) then None
        else c.writing)]
    ensures CxnOk(s', r)
  {
    hide Distinct, Without;
    var c := s.cxns[r];
    WithoutIs(c.sendq, x);
    WithoutDistinct(c.sendq, x);
    assert Moved(s, s', x);
    forall p <- Without(c.sendq, x) ensures At(s', p, InSend) { assert At(s, p, InSend); }
    QueueKept(s, s', x, c.disq, InDis);
  }

  lemma TimedIsQueued(s: Svc, x: Pkt)
    requires PlacesOk(s) && x in s.timeouts
    ensures x.peer in s.cxns && x in s.cxns[x.peer].sendq && At(s, x, InSend)
  {
    hide Distinct;
    assert Found(s, x);
  }

  lemma CallBackPlaces(s: Svc, r: nat)
    requires PlacesOk(s) && Enabled(s, CallBack(r))
    ensures PlacesOk(Effect(s, CallBack(r)))
  {
    hide CxnsOk, AllFound, TimeoutsOk, CxnOk, QueueOk, Effect, Enabled;
    CallBackIs(s, r);
    OneCxn(s, r);
    var s', c := Effect(s, CallBack(r)), s.cxns[r];
    var x := c.disq[0];
    InDisq(s, r);
    assert Moved(s, s', x);
    QueueKept(s, s', x, s.retryQ, InRetry);
    QueueGrows(s, s', x, s.calls, Back);
    DisqShrinks(s, s', r);
    CxnsBut(s, s', x, r);
    FoundCalledBack(s, s', r);
    NotTimed(s, x);
    TimeoutsAfter(s, s', x);
  }

  lemma InDisq(s: Svc, r: nat)
    requires r in s.cxns && CxnOk(s, r) && s.cxns[r].disq != []
    ensures var x := s.cxns[r].disq[0]; At(s, x, InDis) && x.peer == r
  {
    hide Distinct;
    var c := s.cxns[r];
    assert c.disq[0] in c.disq && c.disq[0] in c.sendq + c.disq;
  }

  lemma DisqShrinks(s: Svc, s': Svc, r: nat)
    requires r in s.cxns && CxnOk(s, r) && s.cxns[r].disq != [] && Moved(s, s', s.cxns[r].disq[0])
    requires r in s'.cxns && s'.cxns[r] == s.cxns[r].(disq := s.cxns[r].disq[1..])
    ensures CxnOk(s', r)
  {
    hide Distinct;
    var c := s.cxns[r];
    var x := c.disq[0];
    assert At(s, x, InDis);
    QueueShrinks(s, s', x, c.disq, InDis);
    QueueKept(s, s', x, c.sendq, InSend);
  }

  lemma FoundCalledBack(s: Svc, s': Svc, r: nat)
    requires r in s.cxns && s.cxns[r].disq != [] && Moved(s, s', s.cxns[r].disq[0]) && AllFound(s)
      && s'.threads == s.threads
    requires s'.retryQ == s.retryQ && s'.calls == s.calls + [s.cxns[r].disq[0]] && s'.place[s.cxns[r].disq[0]] == Back
    requires s'.cxns == s.cxns[r := s.cxns[r].(disq := s.cxns[r].disq[1..])]
    ensures AllFound(s')
  {
    hide AllFound;
    var q := s.cxns[r].disq;
    assert q == [q[0]] + q[1..];
    FoundAfter(s, s', q[0]);
  }

  /** Many packets move from one queue to another place. */
  predicate MovedAll(s: Svc, s': Svc, q: seq<Pkt>, at: Place, to: Place) {
    && s'.place.Keys == s.place.Keys && QueueOk(s, q, at) && at != to
    && (forall p <- s.place :: s'.place[p] == if p in q then to else s.place[p])
  }

  lemma QueueUntouched(s: Svc, s': Svc, q: seq<Pkt>, at: Place, to: Place, other: seq<Pkt>, place: Place)
    requires MovedAll(s, s', q, at, to) && QueueOk(s, other, place) && (place != at || forall p <- other :: p !in q)
    ensures QueueOk(s', other, place)
  {
    hide Distinct;
    forall p <- other ensures At(s', p, place) { assert At(s, p, place); if p in q { assert At(s, p, at); } }
  }

  lemma QueueArrived(s: Svc, s': Svc, q: seq<Pkt>, at: Place, to: Place)
    requires MovedAll(s, s', q, at, to)
    ensures QueueOk(s', q, to)
  {
    hide Distinct;
    forall p <- q ensures At(s', p, to) { assert At(s, p, at); }
  }

  lemma JoinQueues(s: Svc, a: seq<Pkt>, b: seq<Pkt>, at: Place)
    requires QueueOk(s, a, at) && QueueOk(s, b, at) && forall p <- a :: p !in b
    ensures QueueOk(s, a + b, at)
  {
    forall i, j | 0 <= i < j < |a + b| ensures (a + b)[i] != (a + b)[j] {
      if i < |a| <= j { assert a[i] in a && b[j - |a|] in b; }
    }
  }

  lemma CloseCxns(s: Svc, s': Svc, r: nat)
    requires CxnsOk(s) && r in s.cxns && MovedAll(s, s', s.cxns[r].sendq, InSend, InDis)
    requires r in s'.cxns && s'.cxns == s.cxns[r := s'.cxns[r]] && s'.cxns[r].sendq == [] && s'.cxns[r].writing.None?
      && s'.cxns[r].disq == s.cxns[r].disq + s.cxns[r].sendq
    ensures CxnsOk(s')
  {
    hide Distinct;
    var c := s.cxns[r];
    assert CxnOk(s, r);
    forall p <- c.disq ensures p !in c.sendq { assert At(s, p, InDis); }
    QueueUntouched(s, s', c.sendq, InSend, InDis, c.disq, InDis);
    QueueArrived(s, s', c.sendq, InSend, InDis);
    JoinQueues(s', c.disq, c.sendq, InDis);
    DistinctEmpty();
    forall r' <- s'.cxns ensures CxnOk(s', r') {
      if r' != r {
        assert CxnOk(s, r');
        forall p <- s.cxns[r'].sendq
          ensures p !in c.sendq
        {
          assert p in s.cxns[r'].sendq + s.cxns[r'].disq && forall x <- c.sendq :: x in c.sendq + c.disq;
        }
        QueueUntouched(s, s', c.sendq, InSend, InDis, s.cxns[r'].sendq, InSend);
        QueueUntouched(s, s', c.sendq, InSend, InDis, s.cxns[r'].disq, InDis);
      }
    }
  }

  lemma CloseFound(s: Svc, s': Svc, r: nat)
    requires AllFound(s) && r in s.cxns && MovedAll(s, s', s.cxns[r].sendq, InSend, InDis)
      && (forall p <- s.cxns[r].sendq :: p.peer == r)
    requires s'.threads == s.threads && s'.retryQ == s.retryQ && s'.calls == s.calls
    requires r in s'.cxns && s'.cxns == s.cxns[r := s'.cxns[r]] && s'.cxns[r].sendq == []
      && s'.cxns[r].disq == s.cxns[r].disq + s.cxns[r].sendq
    ensures AllFound(s')
  {
    hide Distinct;
    forall p <- s'.place ensures Found(s', p) { assert Found(s, p); }
  }

  lemma ClosePlaces(s: Svc, r: nat, fails: bool)
    requires PlacesOk(s) && Enabled(s, Close(r, fails))
    ensures PlacesOk(Effect(s, Close(r, fails)))
  {
    hide Distinct, CxnsOk, AllFound, PlacesOk;
    if fails || s.server {
      CloseMoves(s, Effect(s, Close(r, fails)), r);
    } else {
      CloseKeeps(s, Effect(s, Close(r, fails)), r);
    }
  }

  lemma CloseMoves(s: Svc, s': Svc, r: nat)
    requires PlacesOk(s) && r in s.cxns && s'.threads == s.threads && s'.retryQ == s.retryQ && s'.calls == s.calls
    requires r in s'.cxns && s'.cxns == s.cxns[r := s'.cxns[r]] && s'.cxns[r].sendq == [] && s'.cxns[r].writing.None?
      && s'.cxns[r].disq == s.cxns[r].disq + s.cxns[r].sendq
    requires s'.timeouts == s.timeouts - (set p | p in s.cxns[r].sendq)
    requires s'.place == map p | p in s.place :: if p in s.cxns[r].sendq then InDis else s.place[p]
    ensures PlacesOk(s')
  {
    hide Distinct, CxnsOk, AllFound;
    CxnOf(s, r);
    var c := s.cxns[r];
    assert MovedAll(s, s', c.sendq, InSend, InDis);
    assert forall p <- c.sendq :: p in c.sendq + c.disq;
    QueueUntouched(s, s', c.sendq, InSend, InDis, s.retryQ, InRetry);
    QueueUntouched(s, s', c.sendq, InSend, InDis, s.calls, Back);
    CloseCxns(s, s', r);
    CloseFound(s, s', r);
  }

  lemma CloseKeeps(s: Svc, s': Svc, r: nat)
    requires PlacesOk(s) && r in s.cxns && s'.threads == s.threads && s'.retryQ == s.retryQ && s'.calls == s.calls
      && s'.timeouts == s.timeouts && s'.place == s.place
    requires r in s'.cxns && s'.cxns == s.cxns[r := s'.cxns[r]] && s'.cxns[r].sendq == s.cxns[r].sendq
      && s'.cxns[r].disq == s.cxns[r].disq && s'.cxns[r].writing.None?
    ensures PlacesOk(s')
  {
    hide Distinct, CxnsOk, AllFound, QueueOk;
    SameQueue(s, s', s.retryQ, InRetry);
    SameQueue(s, s', s.calls, Back);
    FoundStill(s, s');
    CloseStill(s, s', r);
  }

  lemma CloseStill(s: Svc, s': Svc, r: nat)
    requires CxnsOk(s) && s'.place == s.place && r in s.cxns && r in s'.cxns && s'.cxns == s.cxns[r := s'.cxns[r]]
    requires s'.cxns[r].sendq == s.cxns[r].sendq && s'.cxns[r].disq == s.cxns[r].disq && s'.cxns[r].writing.None?
    ensures CxnsOk(s')
  {
    hide Distinct;
    forall r' <- s'.cxns ensures CxnOk(s', r') { assert CxnOk(s, r'); }
  }

  lemma OpenPlaces(s: Svc, t: nat)
    requires PlacesOk(s) && Enabled(s, Open(t))
    ensures PlacesOk(Effect(s, Open(t)))
  {
    hide PlacesOk;
    StillPlaces(s, Effect(s, Open(t)));
  }

  /** The next packet leaves the hands of t. */
  predicate PutNext(s: Svc, s': Svc, t: nat) {
    && t < |s.threads| && s.threads[t].Draining? && s.threads[t].todo != [] && var x := s.threads[t].todo[0];
    && s'.threads == s.threads[t := s.threads[t].(todo := s.threads[t].todo[1..])] && s'.retryQ == s.retryQ
    && x in s'.place && s'.place == s.place[x := s'.place[x]] && s'.place[x] in {InSend, Refused, Back}
    && s'.lock == s.lock && s'.events == s.events && s'.stamp == s.stamp && s'.prior == s.prior && s'.server == s.server
  }

  lemma PutFound(s: Svc, s': Svc, t: nat)
    requires AllFound(s) && PeersOk(s) && PutNext(s, s', t) && KeepsQueues(s, s', Some(s.threads[t].todo[0]))
      && Found(s', s.threads[t].todo[0])
    ensures AllFound(s') && Moved(s, s', s.threads[t].todo[0]) && At(s, s.threads[t].todo[0], InHands(t))
      && s.threads[t].todo[0].peer == s.threads[t].r
  {
    hide Distinct, AllFound, KeepsQueues, Found;
    var x := s.threads[t].todo[0];
    assert PeerOk(s, t, s.threads[t]) && x in s.threads[t].todo;
    HandsOf(s, t);
    assert KeepsHands(s, s', Some(x), t);
    FoundAfter(s, s', x);
  }

  lemma TakenPlaces(s: Svc, s': Svc, t: nat, x: Pkt, r: nat)
    requires PlacesOk(s) && PeersOk(s) && PutNext(s, s', t) && x == s.threads[t].todo[0]
      && r == s.threads[t].r == x.peer && r in s.cxns
    requires s'.place[x] == InSend && s'.calls == s.calls && s'.timeouts == s.timeouts + {x}
    requires s'.cxns == s.cxns[r := s.cxns[r].(sendq := s.cxns[r].sendq + [x])]
    ensures PlacesOk(s')
  {
    hide Distinct, CxnsOk, AllFound, TimeoutsOk, Found, PeersOk;
    NewInSend(s', x);
    PutFound(s, s', t);
    QueueKept(s, s', x, s.retryQ, InRetry);
    QueueKept(s, s', x, s.calls, Back);
    GrownCxn(s, s', x, r);
    CxnsBut(s, s', x, r);
    NotTimed(s, x);
    TimeoutsAfter(s, s', x);
  }

  lemma GrownCxn(s: Svc, s': Svc, x: Pkt, r: nat)
    requires CxnsOk(s) && Moved(s, s', x) && r in s.cxns && x.peer == r && (x in s.place ==> s.place[x] != InDis)
    requires s'.place[x] == InSend && s'.cxns == s.cxns[r := s.cxns[r].(sendq := s.cxns[r].sendq + [x])]
    ensures CxnOk(s', r)
  {
    hide Distinct;
    CxnOf(s, r);
    QueueGrows(s, s', x, s.cxns[r].sendq, InSend);
    QueueKept(s, s', x, s.cxns[r].disq, InDis);
  }

  lemma NewInSend(s: Svc, x: Pkt)
    requires At(s, x, InSend) && x.peer in s.cxns && x in s.cxns[x.peer].sendq
    ensures Found(s, x)
  {
  }

  lemma NotTakenPlaces(s: Svc, s': Svc, t: nat, x: Pkt)
    requires PlacesOk(s) && PeersOk(s) && PutNext(s, s', t) && x == s.threads[t].todo[0] && s'.cxns == s.cxns
      && s'.timeouts == s.timeouts
    requires (s'.place[x] == Refused && s'.calls == s.calls) || (s'.place[x] == Back && s'.calls == s.calls + [x])
    ensures PlacesOk(s')
  {
    hide Distinct, CxnsOk, AllFound, TimeoutsOk, PeersOk;
    PutFound(s, s', t);
    QueueKept(s, s', x, s.retryQ, InRetry);
    if s'.place[x] == Back { QueueGrows(s, s', x, s.calls, Back); } else { QueueKept(s, s', x, s.calls, Back); }
    CxnsKept(s, s', x);
    NotTimed(s, x);
    TimeoutsAfter(s, s', x);
  }

  lemma NextPeer(s: Svc, t: nat)
    requires PeersOk(s) && t < |s.threads| && s.threads[t].Draining? && s.threads[t].todo != []
    ensures s.threads[t].todo[0].peer == s.threads[t].r
  {
    assert PeerOk(s, t, s.threads[t]) && s.threads[t].todo[0] in s.threads[t].todo;
  }

  lemma PutTaken(s: Svc, t: nat)
    requires CanPut(s, t) && s.threads[t].r in s.cxns && Takes(s, s.cxns[s.threads[t].r], s.threads[t].todo[0])
    ensures var s', x, r := PutOne(s, t), s.threads[t].todo[0], s.threads[t].r;
      && PutNext(s, s', t) && s'.place[x] == InSend && s'.calls == s.calls && s'.timeouts == s.timeouts + {x}
      && s'.cxns == s.cxns[r := s.cxns[r].(sendq := s.cxns[r].sendq + [x])]
         && s'.entered == s.entered[r := Entered(s, r) + [x]]
  {
  }

  lemma PutNotTaken(s: Svc, t: nat)
    requires CanPut(s, t) && !(s.threads[t].r in s.cxns && Takes(s, s.cxns[s.threads[t].r], s.threads[t].todo[0]))
    ensures var s', x := PutOne(s, t), s.threads[t].todo[0];
      && PutNext(s, s', t) && s'.cxns == s.cxns && s'.timeouts == s.timeouts && s'.entered == s.entered
      && ((s'.place[x] == Refused && s'.calls == s.calls) || (s'.place[x] == Back && s'.calls == s.calls + [x]))
  {
    hide Effect, Takes, PutOne, PutNext;
    if s.threads[t].own == Some(s.threads[t].todo[0]) { PutRefused(s, t); } else { PutBack(s, t); }
  }

  lemma PutRefused(s: Svc, t: nat)
    requires CanPut(s, t) && !(s.threads[t].r in s.cxns && Takes(s, s.cxns[s.threads[t].r], s.threads[t].todo[0]))
    requires s.threads[t].own == Some(s.threads[t].todo[0])
    ensures var s', x := PutOne(s, t), s.threads[t].todo[0];
      && PutNext(s, s', t) && s'.cxns == s.cxns && s'.timeouts == s.timeouts && s'.entered == s.entered
      && s'.place[x] == Refused && s'.calls == s.calls
  {
    hide Effect, Takes;
  }

  lemma PutBack(s: Svc, t: nat)
    requires CanPut(s, t) && !(s.threads[t].r in s.cxns && Takes(s, s.cxns[s.threads[t].r], s.threads[t].todo[0]))
    requires s.threads[t].own != Some(s.threads[t].todo[0])
    ensures var s', x := PutOne(s, t), s.threads[t].todo[0];
      && PutNext(s, s', t) && s'.cxns == s.cxns && s'.timeouts == s.timeouts && s'.entered == s.entered
      && s'.place[x] == Back && s'.calls == s.calls + [x]
  {
    hide Effect, Takes;
  }

  lemma PutPlaces(s: Svc, t: nat)
    requires PlacesOk(s) && PeersOk(s) && CanPut(s, t)
    ensures PlacesOk(PutOne(s, t))
  {
    hide PlacesOk, Effect, PeersOk, PutOne, PutNext;
    var r, x := s.threads[t].r, s.threads[t].todo[0];
    NextPeer(s, t);
    if r in s.cxns && Takes(s, s.cxns[r], x) {
      PutTaken(s, t);
      TakenPlaces(s, PutOne(s, t), t, x, r);
    } else {
      PutNotTaken(s, t);
      NotTakenPlaces(s, PutOne(s, t), t, x);
    }
  }

  lemma CxnOf(s: Svc, r: nat)
    requires CxnsOk(s) && r in s.cxns
    ensures CxnOk(s, r)
  {
  }

  lemma BehindPlaces(s: Svc, t: nat)
    requires PlacesOk(s) && PeersOk(s) && CanDrain(s, t) && s.threads[t].own.Some?
      && Mine(s.retryQ, s.threads[t].r) != []
    ensures PlacesOk(DrainAll(s, t))
  {
    hide PlacesOk, Effect, Mine, Rest;
    assert PeerOk(s, t, s.threads[t]);
    RetryPlaces(s, DrainAll(s, t), t, s.threads[t].own.value);
  }

  function OwnQueue(own: Option<Pkt>): seq<Pkt> { if own.Some? then [own.value] else [] }

  /** The packets of q come into the hands of t. */
  predicate Collected(s: Svc, s': Svc, t: nat, q: seq<Pkt>) {
    && s'.place.Keys == s.place.Keys
       && (forall p <- s.place :: s'.place[p] == if p in q then InHands(t) else s.place[p])
    && forall p <- q :: At(s, p, InRetry) || At(s, p, New(t))
  }

  lemma UncollectedQueue(s: Svc, s': Svc, t: nat, q: seq<Pkt>, other: seq<Pkt>, at: Place)
    requires Collected(s, s', t, q) && QueueOk(s, other, at) && at != New(t)
      && (at == InRetry ==> forall p <- other :: p !in q)
    ensures QueueOk(s', other, at)
  {
    hide Distinct;
    forall p <- other ensures At(s', p, at) { assert At(s, p, at); }
  }

  lemma CollectedCxns(s: Svc, s': Svc, t: nat, q: seq<Pkt>)
    requires Collected(s, s', t, q) && CxnsOk(s) && s'.cxns == s.cxns
    ensures CxnsOk(s')
  {
    hide Distinct;
    forall r <- s'.cxns ensures CxnOk(s', r) {
      assert CxnOk(s, r);
      UncollectedQueue(s, s', t, q, s.cxns[r].sendq, InSend);
      UncollectedQueue(s, s', t, q, s.cxns[r].disq, InDis);
    }
  }

  lemma CollectedFound(s: Svc, s': Svc, t: nat, q: seq<Pkt>)
    requires Collected(s, s', t, q) && AllFound(s) && t < |s.threads| && s.threads[t].Ready? && s'.cxns == s.cxns
      && s'.calls == s.calls
    requires |s'.threads| == |s.threads| && s'.threads == s.threads[t := s'.threads[t]] && s'.threads[t].Draining?
      && s'.threads[t].todo == q
    requires forall p <- s.retryQ :: p in q || p in s'.retryQ
    requires s.threads[t].own.Some? ==> s.threads[t].own.value in q
    ensures AllFound(s')
  {
    forall p <- s'.place ensures Found(s', p) { assert Found(s, p); }
  }

  lemma CollectPlaces(s: Svc, s': Svc, t: nat, q: seq<Pkt>)
    requires PlacesOk(s) && Collected(s, s', t, q) && t < |s.threads| && s.threads[t].Ready?
    requires s'.cxns == s.cxns && s'.calls == s.calls && s'.timeouts == s.timeouts
    requires |s'.threads| == |s.threads| && s'.threads == s.threads[t := s'.threads[t]] && s'.threads[t].Draining?
      && s'.threads[t].todo == q
    requires s'.retryQ == Rest(s.retryQ, s.threads[t].r)
      && q == Mine(s.retryQ, s.threads[t].r) + OwnQueue(s.threads[t].own)
    requires s.threads[t].own.Some? ==> At(s, s.threads[t].own.value, New(t))
    ensures PlacesOk(s') && QueueOk(s', q, InHands(t))
  {
    hide AllFound, CxnsOk, Mine, Rest, Distinct;
    var r := s.threads[t].r;
    MineIs(s.retryQ, r);
    MineDistinct(s.retryQ, r);
    forall p <- Rest(s.retryQ, r) ensures p !in q { assert At(s, p, InRetry); }
    UncollectedQueue(s, s', t, q, Rest(s.retryQ, r), InRetry);
    UncollectedQueue(s, s', t, q, s.calls, Back);
    CollectedCxns(s, s', t, q);
    CollectedFound(s, s', t, q);
    if s.threads[t].own.Some? {
      forall p <- s.retryQ ensures p != s.threads[t].own.value { assert At(s, p, InRetry); }
      DistinctAdd(Mine(s.retryQ, r), s.threads[t].own.value);
    } else {
      assert q == Mine(s.retryQ, r);
    }
  }

  /** What a drain that is not put off does. */
  lemma DrainOut(s: Svc, t: nat)
    requires CanDrain(s, t) && PeerOk(s, t, s.threads[t])
      && !(s.threads[t].own.Some? && Mine(s.retryQ, s.threads[t].r) != [])
    requires forall p <- s.retryQ :: At(s, p, InRetry)
    ensures var s', pc := DrainAll(s, t), s.threads[t];
      var q := Mine(s.retryQ, pc.r) + OwnQueue(pc.own);
      && Collected(s, s', t, q) && s'.threads == s.threads[t := Draining(pc.r, q, pc.own, pc.owns)]
         && s'.retryQ == Rest(s.retryQ, pc.r)
      && s'.cxns == s.cxns && s'.calls == s.calls && s'.timeouts == s.timeouts && s'.lock == s.lock
         && s'.events == s.events && s'.server == s.server
      && s'.prior == s.prior && s'.entered == s.entered
         && s'.stamp == (if pc.own.Some? then s.stamp[pc.own.value := |s.stamp|] else s.stamp)
  {
    hide Mine, Rest, Effect;
    MineIs(s.retryQ, s.threads[t].r);
    var pc, mine := s.threads[t], Mine(s.retryQ, s.threads[t].r);
    if pc.own.Some? {
      assert mine == [] && mine + [pc.own.value] == [pc.own.value];
    } else {
      assert mine + OwnQueue(pc.own) == mine;
    }
  }

  lemma DrainPlaces(s: Svc, t: nat)
    requires PlacesOk(s) && PeersOk(s) && CanDrain(s, t)
    ensures PlacesOk(DrainAll(s, t))
  {
    hide PlacesOk, DrainAll, Effect, Mine, Rest;
    var pc := s.threads[t];
    assert PeerOk(s, t, pc);
    if pc.own.Some? && Mine(s.retryQ, pc.r) != [] {
      BehindPlaces(s, t);
    } else {
      InRetryQ(s);
      DrainOut(s, t);
      CollectPlaces(s, DrainAll(s, t), t, Mine(s.retryQ, pc.r) + OwnQueue(pc.own));
    }
  }

  lemma InRetryQ(s: Svc)
    requires PlacesOk(s)
    ensures forall p <- s.retryQ :: At(s, p, InRetry)
  {
  }

  // ---------------------------------------------------------------- what threads hold

  /** A thread keeps what it holds while other threads act. */
  lemma PeerStable(s: Svc, s': Svc, u: nat)
    requires u < |s.threads| == |s'.threads| && PeerOk(s, u, s.threads[u]) && s'.threads[u] == s.threads[u]
    requires s.place.Keys <= s'.place.Keys && forall p <- s.place ::
      s.place[p] in {New(u), InHands(u)} ==> s'.place[p] == s.place[p]
    ensures PeerOk(s', u, s'.threads[u])
  {
    hide Distinct;
  }
}
