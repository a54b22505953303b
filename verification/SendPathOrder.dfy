/** Locks, lines and retries of the packet service, and what every run of it guarantees. */
module SendPathOrder {
  import opened Basics
  import opened SendPath
  import opened SendPathProof

  // ---------------------------------------------------------------- what threads hold

  lemma PeersAfter(s: Svc, s': Svc, t: nat)
    requires PeersOk(s) && t < |s.threads| == |s'.threads| && s'.threads == s.threads[t := s'.threads[t]]
      && PeerOk(s', t, s'.threads[t])
    requires s.place.Keys <= s'.place.Keys && forall p <- s.place ::
      (s.place[p].New? || s.place[p].InHands?) && s.place[p].t != t ==> s'.place[p] == s.place[p]
    ensures PeersOk(s')
  {
    hide PeerOk;
    forall u | 0 <= u < |s'.threads| ensures PeerOk(s', u, s'.threads[u]) { if u != t { PeerStable(s, s', u); } }
  }

  lemma PeersStill(s: Svc, s': Svc)
    requires PeersOk(s) && s'.threads == s.threads
    requires s.place.Keys <= s'.place.Keys && forall p <- s.place ::
      (s.place[p].New? || s.place[p].InHands?) ==> s'.place[p] == s.place[p]
    ensures PeersOk(s')
  {
    hide PeerOk;
    forall u | 0 <= u < |s'.threads| ensures PeerOk(s', u, s'.threads[u]) { PeerStable(s, s', u); }
  }

  lemma SendPeers(s: Svc, step: Step)
    requires PeersOk(s) && Enabled(s, step) && (step.Send? || step.Fire? || step.Miss? || step.Schedule?)
    ensures PeersOk(Effect(s, step))
  {
    hide PeersOk, Effect, Enabled;
    match step
    case Send(t, p) => SendIs(s, t, p); PeersAfter(s, Effect(s, step), t);
    case Fire(t, r) => FireIs(s, t, r); PeersAfter(s, Effect(s, step), t);
    case Miss(t) => MissIs(s, t); PeerOfThread(s, t); PeersAfter(s, Effect(s, step), t);
    case Schedule(t) => ScheduleIs(s, t); PeersAfter(s, Effect(s, step), t);
  }

  lemma FinishPeers(s: Svc, t: nat)
    requires PeersOk(s) && Enabled(s, Finish(t))
    ensures PeersOk(Effect(s, Finish(t)))
  {
    hide PeersOk;
    PeersAfter(s, Effect(s, Finish(t)), t);
  }

  lemma PeerOfThread(s: Svc, t: nat)
    requires PeersOk(s) && t < |s.threads|
    ensures PeerOk(s, t, s.threads[t])
  {
  }

  lemma EnterPeers(s: Svc, t: nat)
    requires PeersOk(s) && CanEnter(s, t)
    ensures PeersOk(EnterOne(s, t))
  {
    hide PeersOk, EnterOne;
    PeerOfThread(s, t);
    EnterFrame(s, t);
    PeersAfter(s, EnterOne(s, t), t);
  }

  lemma DrainPeers(s: Svc, t: nat)
    requires PlacesOk(s) && PeersOk(s) && CanDrain(s, t)
    ensures PeersOk(DrainAll(s, t))
  {
    hide PeersOk, PlacesOk, Effect, Mine, Rest, QueueOk;
    PeerOfThread(s, t);
    var pc, s' := s.threads[t], DrainAll(s, t);
    if pc.own.Some? && Mine(s.retryQ, pc.r) != [] {
      PeersAfter(s, s', t);
    } else {
      InRetryQ(s);
      MineIs(s.retryQ, pc.r);
      DrainOutPeers(s, t);
    }
  }

  lemma DrainOutPeers(s: Svc, t: nat)
    requires PlacesOk(s) && PeersOk(s) && CanDrain(s, t) && PeerOk(s, t, s.threads[t])
    requires !(s.threads[t].own.Some? && Mine(s.retryQ, s.threads[t].r) != []) && forall p <- s.retryQ ::
      At(s, p, InRetry)
    ensures PeersOk(DrainAll(s, t))
  {
    hide PeersOk, PlacesOk, Effect, Mine, Rest, QueueOk, DrainAll;
    DrainOut(s, t);
    var pc, s' := s.threads[t], DrainAll(s, t);
    var q := Mine(s.retryQ, pc.r) + OwnQueue(pc.own);
    CollectPlaces(s, s', t, q);
    MineIs(s.retryQ, pc.r);
    PeersAfter(s, s', t);
  }

  lemma PutPeers(s: Svc, t: nat)
    requires PeersOk(s) && CanPut(s, t)
    ensures PeersOk(PutOne(s, t))
  {
    hide PeersOk, Effect, PutOne, Distinct;
    PeerOfThread(s, t);
    PutIsNext(s, t);
    var s', pc := PutOne(s, t), s.threads[t];
    var x := pc.todo[0];
    assert x in pc.todo && At(s, x, InHands(t)) && Moved(s, s', x);
    QueueShrinks(s, s', x, pc.todo, InHands(t));
    PeersAfter(s, s', t);
  }

  lemma PutIsNext(s: Svc, t: nat)
    requires CanPut(s, t)
    ensures PutNext(s, PutOne(s, t), t)
  {
    hide PutNext, PutOne;
    if s.threads[t].r in s.cxns && Takes(s, s.cxns[s.threads[t].r], s.threads[t].todo[0]) {
      PutTaken(s, t);
    } else {
      PutNotTaken(s, t);
    }
  }

  lemma CxnPeers(s: Svc, step: Step)
    requires PlacesOk(s) && PeersOk(s) && Enabled(s, step)
    requires step.Open? || step.StartWrite? || step.Written? || step.TimeOut? || step.CallBack? || step.CleanUp?
      || step.Accept?
    ensures PeersOk(Effect(s, step))
  {
    hide PeersOk, PlacesOk, Effect, Enabled, CxnOk;
    if step.Written? {
      WrittenIs(s, step.r);
      OneCxn(s, step.r);
      InSendq(s, step.r);
      PeersBack(s, Effect(s, step), s.cxns[step.r].writing.value);
    } else if step.CallBack? {
      CallBackIs(s, step.r);
      OneCxn(s, step.r);
      InDisq(s, step.r);
      PeersBack(s, Effect(s, step), s.cxns[step.r].disq[0]);
    } else if step.TimeOut? {
      TimeOutIs(s, step.p);
      TimedIsQueued(s, step.p);
      PeersBack(s, Effect(s, step), step.p);
    } else {
      TableFrame(s, step);
      PeersStill(s, Effect(s, step));
    }
  }

  lemma PeersBack(s: Svc, s': Svc, x: Pkt)
    requires PeersOk(s) && s'.threads == s.threads && x in s.place && !s.place[x].New? && !s.place[x].InHands?
      && s'.place == s.place[x := Back]
    ensures PeersOk(s')
  {
    hide PeersOk;
    PeersStill(s, s');
  }

  lemma InSendq(s: Svc, r: nat)
    requires r in s.cxns && CxnOk(s, r) && s.cxns[r].writing.Some?
    ensures At(s, s.cxns[r].writing.value, InSend)
  {
    hide Distinct;
    assert s.cxns[r].sendq[0] in s.cxns[r].sendq;
  }

  lemma ClosePeers(s: Svc, r: nat, fails: bool)
    requires PlacesOk(s) && PeersOk(s) && Enabled(s, Close(r, fails))
    ensures PeersOk(Effect(s, Close(r, fails)))
  {
    hide PeersOk, PlacesOk;
    OneCxn(s, r);
    assert forall p <- s.cxns[r].sendq :: At(s, p, InSend);
    PeersStill(s, Effect(s, Close(r, fails)));
  }

  // ---------------------------------------------------------------- locks

  predicate Works(pc: Pc, r: nat) { (pc.Ready? || pc.Draining?) && pc.r == r }

  /** A thread at work for r holds the lock of its connection, or that of the service while there is none. */
  predicate HoldsLock(s: Svc, t: nat, pc: Pc) {
    (pc.Ready? || pc.Draining?) ==>
      && (pc.owns ==> pc.r in s.cxns && s.cxns[pc.r].holder == Some(t))
      && (!pc.owns ==> s.lock == Some(t) && (pc.r in s.cxns ==> s.cxns[pc.r].holder == Some(t)))
  }

  predicate LocksOk(s: Svc) {
    && (forall t :: 0 <= t < |s.threads| ==> HoldsLock(s, t, s.threads[t]))
    && (forall r <- s.cxns ::
       s.cxns[r].holder.Some? ==> s.cxns[r].holder.value < |s.threads| && Works(s.threads[s.cxns[r].holder.value], r))
    && (s.lock.Some? ==> s.lock.value < |s.threads| && var pc := s.threads[s.lock.value];
       (pc.Ready? || pc.Draining?) && !pc.owns)
  }

  /** Only one thread works for a peer at a time. */
  lemma OneWorker(s: Svc, t: nat, u: nat, r: nat)
    requires LocksOk(s) && t < |s.threads| && u < |s.threads| && Works(s.threads[t], r) && Works(s.threads[u], r)
    ensures t == u
  {
    assert HoldsLock(s, t, s.threads[t]) && HoldsLock(s, u, s.threads[u]);
  }

  lemma ThreadLocks(s: Svc, step: Step)
    requires LocksOk(s) && Enabled(s, step) && (step.Send? || step.Fire? || step.Miss? || step.Schedule?)
    ensures LocksOk(Effect(s, step))
  {
    hide Effect, Enabled, LocksOk;
    match step
    case Send(t, p) => SendIs(s, t, p); IdleLocks(s, Effect(s, step), t);
    case Fire(t, r) => FireIs(s, t, r); IdleLocks(s, Effect(s, step), t);
    case Miss(t) => MissIs(s, t); IdleLocks(s, Effect(s, step), t);
    case Schedule(t) => ScheduleIs(s, t); IdleLocks(s, Effect(s, step), t);
  }

  /** A thread that works for no peer, before or after, holds no lock. */
  lemma IdleLocks(s: Svc, s': Svc, t: nat)
    requires LocksOk(s) && t < |s.threads| == |s'.threads| && s'.threads == s.threads[t := s'.threads[t]]
      && s'.cxns == s.cxns && s'.lock == s.lock
    requires forall pc <- [s.threads[t], s'.threads[t]] :: !pc.Ready? && !pc.Draining?
    ensures LocksOk(s')
  {
    assert s.threads[t] in [s.threads[t], s'.threads[t]] && s'.threads[t] in [s.threads[t], s'.threads[t]];
    forall u | 0 <= u < |s'.threads| ensures HoldsLock(s', u, s'.threads[u]) { assert HoldsLock(s, u, s.threads[u]); }
  }

  lemma OpenLocks(s: Svc, t: nat)
    requires LocksOk(s) && Enabled(s, Open(t))
    ensures LocksOk(Effect(s, Open(t)))
  {
    hide Effect;
    OpenIs(s, t);
    assert HoldsLock(s, t, s.threads[t]);
    var s' := Effect(s, Open(t));
    forall u | 0 <= u < |s'.threads| ensures HoldsLock(s', u, s'.threads[u]) { assert HoldsLock(s, u, s.threads[u]); }
  }

  lemma EnterLocks(s: Svc, t: nat)
    requires LocksOk(s) && CanEnter(s, t)
    ensures LocksOk(EnterOne(s, t))
  {
    hide LocksOk;
    if Target(s.threads[t]) in s.cxns {
      LockCxn(s, EnterOne(s, t), t, Target(s.threads[t]));
    } else {
      LockSvc(s, EnterOne(s, t), t);
    }
  }

  lemma LockCxn(s: Svc, s': Svc, t: nat, r: nat)
    requires LocksOk(s) && t < |s.threads| && !s.threads[t].Ready? && !s.threads[t].Draining? && s.lock.None?
      && r in s.cxns && s.cxns[r].holder.None?
    requires |s'.threads| == |s.threads| && s'.threads == s.threads[t := s'.threads[t]] && s'.threads[t].Ready?
      && s'.threads[t].r == r && s'.threads[t].owns
    requires s'.lock == s.lock && s'.cxns == s.cxns[r := s.cxns[r].(holder := Some(t))]
    ensures LocksOk(s')
  {
    forall u | 0 <= u < |s'.threads| ensures HoldsLock(s', u, s'.threads[u]) { assert HoldsLock(s, u, s.threads[u]); }
  }

  lemma LockSvc(s: Svc, s': Svc, t: nat)
    requires LocksOk(s) && t < |s.threads| && !s.threads[t].Ready? && !s.threads[t].Draining? && s.lock.None?
    requires |s'.threads| == |s.threads| && s'.threads == s.threads[t := s'.threads[t]] && s'.threads[t].Ready?
      && s'.threads[t].r !in s.cxns && !s'.threads[t].owns
    requires s'.lock == Some(t) && s'.cxns == s.cxns
    ensures LocksOk(s')
  {
    forall u | 0 <= u < |s'.threads| ensures HoldsLock(s', u, s'.threads[u]) { assert HoldsLock(s, u, s.threads[u]); }
  }

  lemma UnlockedLocks(s: Svc, s': Svc, t: nat)
    requires LocksOk(s) && t < |s.threads| && (s.threads[t].Ready? || s.threads[t].Draining?)
    requires s'.threads == s.threads[t := Idle] && var u := Unlocked(s, t, s.threads[t].r);
      s'.lock == u.lock && s'.cxns == u.cxns
    ensures LocksOk(s')
  {
    var r := s.threads[t].r;
    forall u | 0 <= u < |s'.threads| ensures HoldsLock(s', u, s'.threads[u]) {
      assert HoldsLock(s, u, s.threads[u]) && HoldsLock(s, t, s.threads[t]);
    }
    forall q <- s'.cxns | s'.cxns[q].holder.Some?
      ensures s'.cxns[q].holder.value < |s'.threads| && Works(s'.threads[s'.cxns[q].holder.value], q)
    {
      assert q in s.cxns && s.cxns[q].holder == s'.cxns[q].holder;
    }
  }

  lemma DrainLocks(s: Svc, t: nat)
    requires LocksOk(s) && CanDrain(s, t) && PeerOk(s, t, s.threads[t]) && forall p <- s.retryQ :: At(s, p, InRetry)
    ensures LocksOk(DrainAll(s, t))
  {
    hide Effect, Mine, Rest, LocksOk, DrainAll, Collected, PeerOk;
    if s.threads[t].own.Some? && Mine(s.retryQ, s.threads[t].r) != [] {
      DrainBehind(s, t);
      UnlockedLocks(s, DrainAll(s, t), t);
    } else {
      DrainOut(s, t);
      SameLocks(s, DrainAll(s, t), t);
    }
  }

  /** What a drain does that is put off because packets to this peer are waiting already. */
  lemma DrainBehind(s: Svc, t: nat)
    requires CanDrain(s, t) && s.threads[t].own.Some? && Mine(s.retryQ, s.threads[t].r) != []
    ensures var s', x, u := DrainAll(s, t), s.threads[t].own.value, Unlocked(s, t, s.threads[t].r);
      && s'.threads == s.threads[t := Idle] && s'.place == s.place[x := InRetry] && s'.retryQ == s.retryQ + [x]
         && s'.lock == u.lock && s'.cxns == u.cxns
      && s'.stamp == s.stamp[x := |s.stamp|] && s'.events == s.events && s'.prior == s.prior && s'.entered == s.entered
  {
    hide Effect, Mine, Rest;
  }

  lemma SameLocks(s: Svc, s': Svc, t: nat)
    requires LocksOk(s) && t < |s.threads| == |s'.threads| && s'.threads == s.threads[t := s'.threads[t]]
    requires var a, b := s.threads[t], s'.threads[t];
      (a.Ready? || a.Draining?) && (b.Ready? || b.Draining?) && a.r == b.r && a.owns == b.owns
    requires s'.lock == s.lock && s'.cxns.Keys == s.cxns.Keys && forall r <- s.cxns ::
      s'.cxns[r].holder == s.cxns[r].holder
    ensures LocksOk(s')
  {
    forall u | 0 <= u < |s'.threads| ensures HoldsLock(s', u, s'.threads[u]) { assert HoldsLock(s, u, s.threads[u]); }
  }

  lemma FinishLocks(s: Svc, t: nat)
    requires LocksOk(s) && Enabled(s, Finish(t))
    ensures LocksOk(Effect(s, Finish(t)))
  {
    hide LocksOk;
    UnlockedLocks(s, Effect(s, Finish(t)), t);
  }

  lemma PutLocks(s: Svc, t: nat)
    requires LocksOk(s) && CanPut(s, t)
    ensures LocksOk(PutOne(s, t))
  {
    hide LocksOk, Effect, PutOne;
    PutIsNext(s, t);
    if s.threads[t].r in s.cxns && Takes(s, s.cxns[s.threads[t].r], s.threads[t].todo[0]) {
      PutTaken(s, t);
    } else {
      PutNotTaken(s, t);
    }
    SameLocks(s, PutOne(s, t), t);
  }

  /** The connection of r, whose lock is free, changes, appears or disappears. */
  lemma CxnLocks(s: Svc, s': Svc, r: nat)
    requires LocksOk(s) && s'.threads == s.threads && s'.lock == s.lock && (r in s.cxns ==> s.cxns[r].holder.None?)
      && (r !in s.cxns ==> s.lock.None?)
    requires forall q <- s.cxns :: q != r ==> q in s'.cxns && s'.cxns[q] == s.cxns[q]
    requires forall q <- s'.cxns :: if q == r then s'.cxns[q].holder.None? else q in s.cxns
    ensures LocksOk(s')
  {
    forall u | 0 <= u < |s'.threads| ensures HoldsLock(s', u, s'.threads[u]) { assert HoldsLock(s, u, s.threads[u]); }
  }

  lemma WriteLocks(s: Svc, step: Step)
    requires LocksOk(s) && Enabled(s, step) && (step.StartWrite? || step.Written? || step.CallBack?)
    ensures LocksOk(Effect(s, step))
  {
    hide LocksOk;
    CxnLocks(s, Effect(s, step), step.r);
  }

  lemma CloseLocks(s: Svc, step: Step)
    requires LocksOk(s) && Enabled(s, step) && (step.Close? || step.Accept?)
    ensures LocksOk(Effect(s, step))
  {
    hide LocksOk;
    CxnLocks(s, Effect(s, step), step.r);
  }

  lemma CleanUpLocks(s: Svc, r: nat)
    requires LocksOk(s) && Enabled(s, CleanUp(r))
    ensures LocksOk(Effect(s, CleanUp(r)))
  {
    hide LocksOk, Effect, Enabled;
    CleanUpIs(s, r);
    var s' := Effect(s, CleanUp(r));
    if s.cxns[r].sendq == [] { assert s'.cxns.Keys == s.cxns.Keys - {r}; }
    CxnLocks(s, s', r);
  }

  lemma TimeOutLocks(s: Svc, p: Pkt)
    requires LocksOk(s) && Enabled(s, TimeOut(p))
    ensures LocksOk(Effect(s, TimeOut(p)))
  {
    hide LocksOk, Without, Effect, Enabled;
    TimeOutIs(s, p);
    CxnLocks(s, Effect(s, TimeOut(p)), p.peer);
  }

  // ---------------------------------------------------------------- retries

  /** Thread t moves on; where it was about to retry, something still is, or nothing is left to retry. */
  lemma RetriesAfter(s: Svc, s': Svc, t: nat)
    requires RetriesOk(s) && t < |s.threads| == |s'.threads| && forall u ::
      0 <= u < |s.threads| && u != t ==> s'.threads[u] == s.threads[u]
    requires forall p <- s'.retryQ :: p in s.retryQ || RetryComing(s', p.peer)
    requires forall r :: Count(s'.events, r) >= Count(s.events, r) || RetryComing(s', r)
    requires forall p <- s'.retryQ :: Retries(s.threads[t], p.peer) ==> RetryComing(s', p.peer)
    ensures RetriesOk(s')
  {
    forall p <- s'.retryQ ensures RetryComing(s', p.peer) {
      if p in s.retryQ {
        assert RetryComing(s, p.peer);
        if Count(s.events, p.peer) == 0 {
          var u :| 0 <= u < |s.threads| && Retries(s.threads[u], p.peer);
          if u != t { assert Retries(s'.threads[u], p.peer); }
        }
      }
    }
  }

  lemma RetriesStill(s: Svc, s': Svc)
    requires RetriesOk(s) && s'.threads == s.threads && s'.events == s.events && s'.retryQ == s.retryQ
    ensures RetriesOk(s')
  {
    forall p <- s'.retryQ ensures RetryComing(s', p.peer) { assert RetryComing(s, p.peer); }
  }

  lemma SendRetries(s: Svc, step: Step)
    requires RetriesOk(s) && Enabled(s, step) && (step.Send? || step.Finish?)
    ensures RetriesOk(Effect(s, step))
  {
    hide RetriesOk, RetryComing;
    RetriesAfter(s, Effect(s, step), step.t);
  }

  lemma FireRetries(s: Svc, t: nat, r: nat)
    requires RetriesOk(s) && Enabled(s, Fire(t, r))
    ensures RetriesOk(Effect(s, Fire(t, r)))
  {
    hide RetriesOk;
    var s' := Effect(s, Fire(t, r));
    assert Retries(s'.threads[t], r);
    RetriesAfter(s, s', t);
  }

  lemma MissRetries(s: Svc, t: nat)
    requires RetriesOk(s) && Enabled(s, Miss(t))
    ensures RetriesOk(Effect(s, Miss(t)))
  {
    hide RetriesOk, Effect, Enabled;
    MissIs(s, t);
    var s', r := Effect(s, Miss(t)), Target(s.threads[t]);
    assert Retries(s'.threads[t], r);
    assert RetryComing(s', r);
    hide RetryComing;
    RetriesAfter(s, s', t);
  }

  lemma ScheduleRetries(s: Svc, t: nat)
    requires RetriesOk(s) && Enabled(s, Schedule(t))
    ensures RetriesOk(Effect(s, Schedule(t)))
  {
    hide RetriesOk, Effect, Enabled;
    ScheduleIs(s, t);
    var s' := Effect(s, Schedule(t));
    assert RetryComing(s', s.threads[t].r);
    hide RetryComing;
    RetriesAfter(s, s', t);
  }

  lemma EnterRetries(s: Svc, t: nat)
    requires RetriesOk(s) && CanEnter(s, t)
    ensures RetriesOk(EnterOne(s, t))
  {
    hide RetriesOk, EnterOne;
    EnterFrame(s, t);
    var s' := EnterOne(s, t);
    if s.threads[t].Handling? { assert Retries(s'.threads[t], s.threads[t].r); }
    RetriesAfter(s, s', t);
  }

  lemma DrainRetries(s: Svc, t: nat)
    requires RetriesOk(s) && CanDrain(s, t) && PeerOk(s, t, s.threads[t]) && forall p <- s.retryQ :: At(s, p, InRetry)
    ensures RetriesOk(DrainAll(s, t))
  {
    hide RetriesOk, Effect, DrainAll, Mine, Rest, Collected, QueueOk;
    var s', pc := DrainAll(s, t), s.threads[t];
    MineIs(s.retryQ, pc.r);
    if pc.own.Some? && Mine(s.retryQ, pc.r) != [] {
      DrainBehind(s, t);
      var p := Mine(s.retryQ, pc.r)[0];
      assert p in Mine(s.retryQ, pc.r);
      ComingKept(s, s', t, p);
      RetriesAfter(s, s', t);
    } else {
      DrainOut(s, t);
      RetriesAfter(s, s', t);
    }
  }

  lemma ComingKept(s: Svc, s': Svc, t: nat, p: Pkt)
    requires RetriesOk(s) && p in s.retryQ && s'.events == s.events && t < |s.threads|
      && s'.threads == s.threads[t := Idle] && !Retries(s.threads[t], p.peer)
    ensures RetryComing(s', p.peer)
  {
    assert RetryComing(s, p.peer);
    if Count(s.events, p.peer) == 0 {
      var u :| 0 <= u < |s.threads| && Retries(s.threads[u], p.peer);
      assert Retries(s'.threads[u], p.peer);
    }
  }

  lemma PutRetries(s: Svc, t: nat)
    requires RetriesOk(s) && CanPut(s, t)
    ensures RetriesOk(PutOne(s, t))
  {
    hide RetriesOk, Effect, PutOne, RetryComing;
    PutIsNext(s, t);
    RetriesAfter(s, PutOne(s, t), t);
  }

  // ---------------------------------------------------------------- lines

  /** Packets are stamped when they get in line, and one whose Send began later has a later stamp. */
  predicate StampsOk(s: Svc) {
    && (forall p <- s.place :: p in s.prior && (p in s.stamp <==> !s.place[p].New?)) && s.stamp.Keys <= s.place.Keys
       && s.prior.Keys <= s.place.Keys
    && (forall p <- s.stamp :: s.stamp[p] < |s.stamp|)
    && (forall p <- s.prior :: s.prior[p] <= s.stamp.Keys)
    && (forall p <- s.stamp, x <- s.prior[p] :: s.stamp[x] < s.stamp[p])
  }

  predicate Rising(s: Svc, q: seq<Pkt>) {
    (forall p <- q :: p in s.stamp) && forall i, j :: 0 <= i < j < |q| ==> s.stamp[q[i]] < s.stamp[q[j]]
  }

  predicate Before(s: Svc, a: seq<Pkt>, b: seq<Pkt>) {
    forall p <- a, x <- b :: p in s.stamp && x in s.stamp && s.stamp[p] < s.stamp[x]
  }

  /** For every peer: first those that entered its send queue, then those a thread is about to put there,
      then those in the retry queue, each in the order they got in line. */
  predicate LinesOk(s: Svc) {
    && Rising(s, s.retryQ) && (forall t :: 0 <= t < |s.threads| ==> TodoOk(s, s.threads[t]))
    && (forall r <- s.entered :: EnteredOk(s, r))
  }

  predicate TodoOk(s: Svc, pc: Pc) {
    pc.Draining? ==>
      Rising(s, pc.todo) && Before(s, pc.todo, Mine(s.retryQ, pc.r)) && Before(s, Entered(s, pc.r), pc.todo)
  }

  predicate EnteredOk(s: Svc, r: nat) {
    Rising(s, Entered(s, r)) && Before(s, Entered(s, r), Mine(s.retryQ, r))
  }

  /** Stamps only come, and never change. */
  predicate Later(s: Svc, s': Svc) {
    forall p <- s.stamp :: p in s'.stamp && s'.stamp[p] == s.stamp[p]
  }

  lemma RisingLater(s: Svc, s': Svc, q: seq<Pkt>)
    requires Later(s, s') && Rising(s, q)
    ensures Rising(s', q)
  {
  }

  lemma BeforeLater(s: Svc, s': Svc, a: seq<Pkt>, b: seq<Pkt>)
    requires Later(s, s') && Before(s, a, b)
    ensures Before(s', a, b)
  {
  }

  /** Threads, retry queue and stamps of packets in line stay. */
  lemma LinesStill(s: Svc, s': Svc, t: nat)
    requires LinesOk(s) && Later(s, s') && s'.retryQ == s.retryQ && s'.entered == s.entered
      && |s'.threads| == |s.threads|
    requires forall u :: 0 <= u < |s.threads| && u != t ==> s'.threads[u] == s.threads[u]
    requires t < |s.threads| ==> !s'.threads[t].Draining?
    ensures LinesOk(s')
  {
    hide Rising, Before, Mine, Later;
    RisingLater(s, s', s.retryQ);
    forall u | 0 <= u < |s'.threads| ensures TodoOk(s', s'.threads[u]) {
      if u != t && s.threads[u].Draining? {
        var pc := s.threads[u];
        assert TodoOk(s, pc);
        RisingLater(s, s', pc.todo);
        BeforeLater(s, s', pc.todo, Mine(s.retryQ, pc.r));
        BeforeLater(s, s', Entered(s, pc.r), pc.todo);
      }
    }
    forall r <- s'.entered ensures EnteredOk(s', r) {
      assert EnteredOk(s, r);
      RisingLater(s, s', Entered(s, r));
      BeforeLater(s, s', Entered(s, r), Mine(s.retryQ, r));
    }
  }

  lemma {:induction false} MineAppend(q: seq<Pkt>, x: Pkt, r: nat)
    ensures Mine(q + [x], r) == Mine(q, r) + (if x.peer == r then [x] else [])
  {
    assert (q + [x])[..|q|] == q;
  }

  /** x gets the latest stamp. */
  predicate Stamped(s: Svc, s': Svc, x: Pkt) {
    x !in s.stamp && s'.stamp == s.stamp[x := |s.stamp|] && forall p <- s.stamp :: s.stamp[p] < |s.stamp|
  }

  lemma RisingAdd(s: Svc, s': Svc, q: seq<Pkt>, x: Pkt)
    requires Stamped(s, s', x) && Rising(s, q)
    ensures Rising(s', q + [x])
  {
  }

  lemma BeforeAdd(s: Svc, s': Svc, a: seq<Pkt>, b: seq<Pkt>, x: Pkt)
    requires Stamped(s, s', x) && Before(s, a, b) && forall p <- a :: p in s.stamp
    ensures Before(s', a, b + [x]) && Before(s', a, b)
  {
  }

  /** A packet joins the retry queue. */
  lemma LinesGrow(s: Svc, s': Svc, t: nat, x: Pkt)
    requires LinesOk(s) && Stamped(s, s', x) && s'.retryQ == s.retryQ + [x] && s'.entered == s.entered
    requires t < |s.threads| == |s'.threads| && s'.threads == s.threads[t := s'.threads[t]] && !s'.threads[t].Draining?
    ensures LinesOk(s')
  {
    hide Before, Mine;
    RisingAdd(s, s', s.retryQ, x);
    forall u | 0 <= u < |s'.threads| ensures TodoOk(s', s'.threads[u]) {
      if u != t && s.threads[u].Draining? {
        var pc := s.threads[u];
        assert TodoOk(s, pc);
        MineAppend(s.retryQ, x, pc.r);
        assert Mine(s.retryQ, pc.r) + [] == Mine(s.retryQ, pc.r);
        BeforeAdd(s, s', pc.todo, Mine(s.retryQ, pc.r), x);
        BeforeLater(s, s', Entered(s, pc.r), pc.todo);
      }
    }
    forall r <- s'.entered ensures EnteredOk(s', r) {
      assert EnteredOk(s, r);
      MineAppend(s.retryQ, x, r);
      assert Mine(s.retryQ, r) + [] == Mine(s.retryQ, r);
      BeforeAdd(s, s', Entered(s, r), Mine(s.retryQ, r), x);
    }
  }

  lemma {:induction false} MineOfRest(q: seq<Pkt>, r: nat, r': nat)
    ensures Mine(Rest(q, r), r') == if r' == r then [] else Mine(q, r')
  {
    if q != [] {
      var n := |q| - 1;
      MineOfRest(q[..n], r, r');
      if q[n].peer != r {
        MineAppend(Rest(q[..n], r), q[n], r');
      } else {
        assert Rest(q[..n], r) + [] == Rest(q[..n], r);
      }
    }
  }

  lemma {:induction false} RisingParts(s: Svc, q: seq<Pkt>, r: nat)
    requires Rising(s, q)
    ensures Rising(s, Mine(q, r)) && Rising(s, Rest(q, r))
  {
    hide Rising;
    if q == [] {
      RisingNone(s);
    } else {
      var n := |q| - 1;
      RisingButLast(s, q);
      RisingParts(s, q[..n], r);
      MineIs(q[..n], r);
      if q[n].peer == r {
        RisingSnoc(s, q, Mine(q[..n], r));
        assert Rest(q, r) == Rest(q[..n], r);
      } else {
        RisingSnoc(s, q, Rest(q[..n], r));
        assert Mine(q, r) == Mine(q[..n], r);
      }
    }
  }

  lemma RisingNone(s: Svc)
    ensures Rising(s, [])
  {
  }

  lemma RisingButLast(s: Svc, q: seq<Pkt>)
    requires q != [] && Rising(s, q)
    ensures Rising(s, q[..|q| - 1])
  {
  }

  /** The last packet of q may follow any rising part of those before it. */
  lemma RisingSnoc(s: Svc, q: seq<Pkt>, part: seq<Pkt>)
    requires q != [] && Rising(s, q) && Rising(s, part) && forall p <- part :: p in q[..|q| - 1]
    ensures Rising(s, part + [q[|q| - 1]])
  {
    var n := |q| - 1;
    forall p <- part ensures s.stamp[p] < s.stamp[q[n]] { var i :| 0 <= i < n && q[i] == p; }
    forall i, j | 0 <= i < j < |part + [q[n]]| ensures s.stamp[(part + [q[n]])[i]] < s.stamp[(part + [q[n]])[j]] {
      assert part[i] in part;
    }
  }

  /** The packets of one peer come into the hands of a thread, with its own as the last. */
  lemma LinesDrained(s: Svc, s': Svc, t: nat)
    requires LinesOk(s) && t < |s.threads| && s.threads[t].Ready? && s'.entered == s.entered
    requires var pc := s.threads[t]; var q := Mine(s.retryQ, pc.r) + OwnQueue(pc.own);
      && s'.threads == s.threads[t := Draining(pc.r, q, pc.own, pc.owns)] && s'.retryQ == Rest(s.retryQ, pc.r)
      && (if pc.own.Some? then Stamped(s, s', pc.own.value) else s'.stamp == s.stamp)
    ensures LinesOk(s')
  {
    hide Mine, Rest, Before, Rising;
    var pc := s.threads[t];
    var r, mine := pc.r, Mine(s.retryQ, pc.r);
    RisingParts(s, s.retryQ, r);
    RisingLater(s, s', Rest(s.retryQ, r));
    forall u | 0 <= u < |s'.threads| ensures TodoOk(s', s'.threads[u]) {
      if u == t { DrainedTodo(s, s', t); } else if s.threads[u].Draining? { OtherTodo(s, s', t, u); }
    }
    forall r' <- s'.entered ensures EnteredOk(s', r') {
      assert EnteredOk(s, r');
      MineOfRest(s.retryQ, r, r');
      RisingLater(s, s', Entered(s, r'));
      BeforeLater(s, s', Entered(s, r'), Mine(s.retryQ, r'));
      BeforeNone(s', Entered(s, r'));
    }
  }

  lemma BeforeNone(s: Svc, a: seq<Pkt>)
    ensures Before(s, a, []) && Before(s, [], a)
  {
  }

  lemma OtherTodo(s: Svc, s': Svc, t: nat, u: nat)
    requires LinesOk(s) && t < |s.threads| && s.threads[t].Ready? && Later(s, s') && u < |s.threads| == |s'.threads|
      && u != t && s.threads[u].Draining?
    requires s'.threads[u] == s.threads[u] && s'.retryQ == Rest(s.retryQ, s.threads[t].r) && s'.entered == s.entered
    ensures TodoOk(s', s'.threads[u])
  {
    hide Mine, Rest, Before, Rising;
    var pc := s.threads[u];
    assert TodoOk(s, pc);
    MineOfRest(s.retryQ, s.threads[t].r, pc.r);
    RisingLater(s, s', pc.todo);
    BeforeLater(s, s', pc.todo, Mine(s.retryQ, pc.r));
    BeforeLater(s, s', Entered(s, pc.r), pc.todo);
    BeforeNone(s', pc.todo);
  }

  lemma DrainedTodo(s: Svc, s': Svc, t: nat)
    requires LinesOk(s) && t < |s.threads| && s.threads[t].Ready? && s'.entered == s.entered
    requires var pc := s.threads[t]; var q := Mine(s.retryQ, pc.r) + OwnQueue(pc.own);
      && s'.threads == s.threads[t := Draining(pc.r, q, pc.own, pc.owns)] && s'.retryQ == Rest(s.retryQ, pc.r)
      && (if pc.own.Some? then Stamped(s, s', pc.own.value) else s'.stamp == s.stamp)
    ensures TodoOk(s', s'.threads[t])
  {
    hide Mine, Rest;
    var pc := s.threads[t];
    var r, mine := pc.r, Mine(s.retryQ, pc.r);
    RisingParts(s, s.retryQ, r);
    MineOfRest(s.retryQ, r, r);
    BeforeNone(s', mine + OwnQueue(pc.own));
    if r in s.entered { assert EnteredOk(s, r); }
    if pc.own.Some? {
      RisingAdd(s, s', mine, pc.own.value);
      BeforeAdd(s, s', Entered(s, r), mine, pc.own.value);
    } else {
      assert mine + [] == mine;
    }
  }

  /** The first of the packets in a thread's hands enters the send queue, or drops out of line. */
  lemma LinesPut(s: Svc, s': Svc, t: nat, taken: bool)
    requires LinesOk(s) && LocksOk(s) && PutNext(s, s', t)
    requires s'.entered == if taken
      then s.entered[s.threads[t].r := Entered(s, s.threads[t].r) + [s.threads[t].todo[0]]] else s.entered
    ensures LinesOk(s')
  {
    hide Mine, LocksOk, Rising, Before;
    var pc := s.threads[t];
    assert TodoOk(s, pc);
    RisingLater(s, s', s.retryQ);
    forall u | 0 <= u < |s'.threads| ensures TodoOk(s', s'.threads[u]) {
      if u == t { PutTodo(s, s', t, taken); } else { assert TodoOk(s, s.threads[u]); PutOther(s, s', t, u, taken); }
    }
    forall q <- s'.entered ensures EnteredOk(s', q) {
      EnteredAny(s, q);
      if q == pc.r && taken {
        EnteredMore(s, s', pc);
      } else {
        RisingLater(s, s', Entered(s, q));
        BeforeLater(s, s', Entered(s, q), Mine(s.retryQ, q));
      }
    }
  }

  lemma EnteredAny(s: Svc, r: nat)
    requires LinesOk(s)
    ensures EnteredOk(s, r)
  {
    hide Mine;
  }

  lemma PutOther(s: Svc, s': Svc, t: nat, u: nat, taken: bool)
    requires LocksOk(s) && PutNext(s, s', t) && u < |s.threads| && u != t && TodoOk(s, s.threads[u])
    requires s'.entered == if taken
      then s.entered[s.threads[t].r := Entered(s, s.threads[t].r) + [s.threads[t].todo[0]]] else s.entered
    ensures TodoOk(s', s'.threads[u])
  {
    hide Mine, LocksOk, Rising, Before;
    var pc := s.threads[u];
    if pc.Draining? {
      if pc.r == s.threads[t].r { OneWorker(s, t, u, pc.r); }
      RisingLater(s, s', pc.todo);
      BeforeLater(s, s', pc.todo, Mine(s.retryQ, pc.r));
      BeforeLater(s, s', Entered(s, pc.r), pc.todo);
    }
  }

  lemma PutTodo(s: Svc, s': Svc, t: nat, taken: bool)
    requires PutNext(s, s', t) && TodoOk(s, s.threads[t])
    requires s'.entered == if taken
      then s.entered[s.threads[t].r := Entered(s, s.threads[t].r) + [s.threads[t].todo[0]]] else s.entered
    ensures TodoOk(s', s'.threads[t])
  {
    hide Mine, Rising, Before;
    var pc := s.threads[t];
    RisingTail(s, pc.todo);
    BeforeTail(s, Entered(s, pc.r), pc.todo, Mine(s.retryQ, pc.r));
    RisingLater(s, s', pc.todo[1..]);
    BeforeLater(s, s', pc.todo[1..], Mine(s.retryQ, pc.r));
    BeforeLater(s, s', Entered(s, pc.r), pc.todo[1..]);
    BeforeLater(s, s', Entered(s, pc.r) + [pc.todo[0]], pc.todo[1..]);
  }

  lemma RisingTail(s: Svc, q: seq<Pkt>)
    requires q != [] && Rising(s, q)
    ensures Rising(s, q[1..]) && Before(s, [q[0]], q[1..])
  {
    forall x <- q[1..]
      ensures s.stamp[q[0]] < s.stamp[x]
    {
      var i :| 0 <= i < |q[1..]| && q[1..][i] == x;
      assert q[i + 1] == x;
    }
  }

  lemma BeforeTail(s: Svc, a: seq<Pkt>, q: seq<Pkt>, b: seq<Pkt>)
    requires q != [] && Before(s, a, q) && Before(s, q, b) && Before(s, [q[0]], q[1..])
    ensures Before(s, q[1..], b) && Before(s, a, q[1..]) && Before(s, a + [q[0]], q[1..])
  {
    assert forall p <- q[1..] :: p in q;
    assert q[0] in [q[0]];
  }

  lemma EnteredMore(s: Svc, s': Svc, pc: Pc)
    requires pc.Draining? && pc.todo != [] && TodoOk(s, pc) && s'.stamp == s.stamp && s'.retryQ == s.retryQ
    requires Rising(s, Entered(s, pc.r)) && Before(s, Entered(s, pc.r), Mine(s.retryQ, pc.r))
      && s'.entered == s.entered[pc.r := Entered(s, pc.r) + [pc.todo[0]]]
    ensures EnteredOk(s', pc.r)
  {
    hide Mine;
    assert pc.todo[0] in pc.todo;
  }

  // ---------------------------------------------------------------- stamps

  lemma StampsSame(s: Svc, s': Svc)
    requires StampsOk(s) && s'.stamp == s.stamp && s'.prior == s.prior && s'.place.Keys == s.place.Keys
    requires forall p <- s.place :: s'.place[p].New? <==> s.place[p].New?
    ensures StampsOk(s')
  {
  }

  lemma StampsArrive(s: Svc, s': Svc, x: Pkt)
    requires StampsOk(s) && x in s.place && s.place[x].New? && s'.stamp == s.stamp[x := |s.stamp|]
      && s'.prior == s.prior
    requires s'.place.Keys == s.place.Keys && forall p <- s.place :: s'.place[p].New? <==> s.place[p].New? && p != x
    ensures StampsOk(s') && Stamped(s, s', x)
  {
    assert x !in s.stamp && |s'.stamp| == |s.stamp| + 1;
    PriorEarlier(s, s', x);
  }

  lemma PriorEarlier(s: Svc, s': Svc, x: Pkt)
    requires s.stamp.Keys <= s.prior.Keys && (forall p <- s.prior :: s.prior[p] <= s.stamp.Keys) && x in s.prior
    requires (forall p <- s.stamp :: s.stamp[p] < |s.stamp|)
      && (forall p <- s.stamp, y <- s.prior[p] :: s.stamp[y] < s.stamp[p])
    requires x !in s.stamp && s'.stamp == s.stamp[x := |s.stamp|] && s'.prior == s.prior
    ensures forall p <- s'.stamp, y <- s'.prior[p] :: y in s'.stamp && s'.stamp[y] < s'.stamp[p]
  {
    forall p <- s'.stamp, y <- s'.prior[p] ensures y in s'.stamp && s'.stamp[y] < s'.stamp[p] {
      assert y in s.stamp && y != x;
      if p == x { assert s.stamp[y] < |s.stamp|; }
    }
  }

  lemma SendStamps(s: Svc, t: nat, x: Pkt)
    requires StampsOk(s) && Enabled(s, Send(t, x))
    ensures StampsOk(Effect(s, Send(t, x)))
  {
    hide Effect, Enabled;
    SendIs(s, t, x);
    assert x !in s.stamp && x !in s.prior;
  }

  // ---------------------------------------------------------------- the invariant

  predicate Inv(s: Svc) {
    PlacesOk(s) && PeersOk(s) && LocksOk(s) && RetriesOk(s) && StampsOk(s) && LinesOk(s)
  }

  lemma SendKeeps(s: Svc, t: nat, x: Pkt)
    requires Inv(s) && Enabled(s, Send(t, x))
    ensures Inv(Effect(s, Send(t, x)))
  {
    hide PlacesOk, PeersOk, LocksOk, RetriesOk, StampsOk, LinesOk;
    SendPlaces(s, t, x);
    SendPeers(s, Send(t, x));
    ThreadLocks(s, Send(t, x));
    SendRetries(s, Send(t, x));
    SendStamps(s, t, x);
    LinesStill(s, Effect(s, Send(t, x)), t);
  }

  lemma FireKeeps(s: Svc, t: nat, r: nat)
    requires Inv(s) && Enabled(s, Fire(t, r))
    ensures Inv(Effect(s, Fire(t, r)))
  {
    hide PlacesOk, PeersOk, LocksOk, RetriesOk, StampsOk, LinesOk;
    FirePlaces(s, t, r);
    SendPeers(s, Fire(t, r));
    ThreadLocks(s, Fire(t, r));
    FireRetries(s, t, r);
    StampsSame(s, Effect(s, Fire(t, r)));
    LinesStill(s, Effect(s, Fire(t, r)), t);
  }

  lemma MissKeeps(s: Svc, t: nat)
    requires Inv(s) && Enabled(s, Miss(t))
    ensures Inv(Effect(s, Miss(t)))
  {
    hide PlacesOk, PeersOk, LocksOk, RetriesOk, StampsOk, LinesOk, Effect, Enabled;
    MissIs(s, t);
    var s', pc := Effect(s, Miss(t)), s.threads[t];
    PeerOfThread(s, t);
    SendPeers(s, Miss(t));
    ThreadLocks(s, Miss(t));
    MissRetries(s, t);
    if pc.Sending? {
      MissPlaces(s, t);
      StampsArrive(s, s', pc.p);
      LinesGrow(s, s', t, pc.p);
    } else {
      RescheduledPlaces(s, t);
      StampsSame(s, s');
      LinesStill(s, s', t);
    }
  }

  lemma ScheduleKeeps(s: Svc, t: nat)
    requires Inv(s) && Enabled(s, Schedule(t))
    ensures Inv(Effect(s, Schedule(t)))
  {
    hide PlacesOk, PeersOk, LocksOk, RetriesOk, StampsOk, LinesOk, Effect, Enabled;
    ScheduleIs(s, t);
    SchedulePlaces(s, t);
    SendPeers(s, Schedule(t));
    ThreadLocks(s, Schedule(t));
    ScheduleRetries(s, t);
    StampsSame(s, Effect(s, Schedule(t)));
    LinesStill(s, Effect(s, Schedule(t)), t);
  }

  lemma EnterKeeps(s: Svc, t: nat)
    requires Inv(s) && CanEnter(s, t)
    ensures Inv(EnterOne(s, t))
  {
    hide PlacesOk, PeersOk, LocksOk, RetriesOk, StampsOk, LinesOk, EnterOne;
    EnterFrame(s, t);
    EnterPlaces(s, t);
    EnterPeers(s, t);
    EnterLocks(s, t);
    EnterRetries(s, t);
    StampsSame(s, EnterOne(s, t));
    LinesStill(s, EnterOne(s, t), t);
  }

  lemma DrainKeeps(s: Svc, t: nat)
    requires Inv(s) && CanDrain(s, t)
    ensures Inv(DrainAll(s, t))
  {
    hide PlacesOk, PeersOk, LocksOk, RetriesOk, StampsOk, LinesOk, Effect, DrainAll, Mine, Rest, QueueOk;
    var s', pc := DrainAll(s, t), s.threads[t];
    PeerOfThread(s, t);
    InRetryQ(s);
    DrainPlaces(s, t);
    DrainPeers(s, t);
    DrainLocks(s, t);
    DrainRetries(s, t);
    if pc.own.Some? && Mine(s.retryQ, pc.r) != [] {
      DrainBehind(s, t);
      StampsArrive(s, s', pc.own.value);
      LinesGrow(s, s', t, pc.own.value);
    } else {
      DrainOut(s, t);
      MineIs(s.retryQ, pc.r);
      CollectedStamps(s, s', t, Mine(s.retryQ, pc.r) + OwnQueue(pc.own), pc.own);
      LinesDrained(s, s', t);
    }
  }

  lemma CollectedStamps(s: Svc, s': Svc, t: nat, q: seq<Pkt>, own: Option<Pkt>)
    requires StampsOk(s) && Collected(s, s', t, q) && s'.prior == s.prior
      && (forall p <- q :: At(s, p, InRetry) || own == Some(p))
    requires s'.stamp == (if own.Some? then s.stamp[own.value := |s.stamp|] else s.stamp)
      && (own.Some? ==> own.value in q && At(s, own.value, New(t)))
    ensures StampsOk(s') && (own.Some? ==> Stamped(s, s', own.value))
  {
    hide StampsOk;
    if own.Some? { StampsArrive(s, s', own.value); } else { StampsSame(s, s'); }
  }

  lemma PutKeeps(s: Svc, t: nat)
    requires Inv(s) && CanPut(s, t)
    ensures Inv(PutOne(s, t))
  {
    hide PlacesOk, PeersOk, LocksOk, RetriesOk, StampsOk, LinesOk, Effect, PutOne, QueueOk;
    var s', pc := PutOne(s, t), s.threads[t];
    PutPlaces(s, t);
    PutPeers(s, t);
    PutLocks(s, t);
    PutRetries(s, t);
    PutIsNext(s, t);
    InHand(s, t);
    StampsSame(s, s');
    if pc.r in s.cxns && Takes(s, s.cxns[pc.r], pc.todo[0]) {
      PutTaken(s, t);
      LinesPut(s, s', t, true);
    } else {
      PutNotTaken(s, t);
      LinesPut(s, s', t, false);
    }
  }

  lemma InHand(s: Svc, t: nat)
    requires PeersOk(s) && t < |s.threads| && s.threads[t].Draining? && s.threads[t].todo != []
    ensures At(s, s.threads[t].todo[0], InHands(t))
  {
    hide Distinct;
    assert PeerOk(s, t, s.threads[t]) && s.threads[t].todo[0] in s.threads[t].todo;
  }

  lemma FinishKeeps(s: Svc, t: nat)
    requires Inv(s) && Enabled(s, Finish(t))
    ensures Inv(Effect(s, Finish(t)))
  {
    hide PlacesOk, PeersOk, LocksOk, RetriesOk, StampsOk, LinesOk;
    FinishPlaces(s, t);
    FinishPeers(s, t);
    FinishLocks(s, t);
    SendRetries(s, Finish(t));
    StampsSame(s, Effect(s, Finish(t)));
    LinesStill(s, Effect(s, Finish(t)), t);
  }

  /** A step of a connection leaves threads, retries and lines alone. */
  predicate CxnStep(step: Step) {
    step.Open? || step.StartWrite? || step.Written? || step.TimeOut? || step.Close? || step.CallBack? || step.CleanUp?
      || step.Accept?
  }

  lemma CxnFrame(s: Svc, step: Step)
    requires Enabled(s, step) && CxnStep(step)
    ensures var s' := Effect(s, step);
      s'.threads == s.threads && s'.retryQ == s.retryQ && s'.events == s.events && s'.stamp == s.stamp
        && s'.prior == s.prior && s'.entered == s.entered
  {
    hide Effect, Enabled;
    if step.Close? {
      CloseFrame(s, step.r, step.fails);
    } else if step.Open? || step.CleanUp? || step.Accept? || step.StartWrite? {
      TableFrame(s, step);
    } else {
      QueueFrame(s, step);
    }
  }

  lemma TableFrame(s: Svc, step: Step)
    requires Enabled(s, step) && (step.Open? || step.CleanUp? || step.Accept? || step.StartWrite?)
    ensures Effect(s, step) == s.(cxns := Effect(s, step).cxns)
  {
    hide Effect, Enabled;
    match step
    case Open(t) => OpenIs(s, t);
    case StartWrite(r) => StartWriteIs(s, r);
    case CleanUp(r) => CleanUpIs(s, r);
    case Accept(r) => AcceptIs(s, r);
  }

  lemma CloseFrame(s: Svc, r: nat, fails: bool)
    requires Enabled(s, Close(r, fails))
    ensures var s' := Effect(s, Close(r, fails));
      s'.threads == s.threads && s'.retryQ == s.retryQ && s'.events == s.events && s'.stamp == s.stamp
        && s'.prior == s.prior && s'.entered == s.entered
  {
  }

  lemma QueueFrame(s: Svc, step: Step)
    requires Enabled(s, step) && CxnStep(step) && (step.Written? || step.TimeOut? || step.CallBack?)
    ensures var s' := Effect(s, step);
      s'.threads == s.threads && s'.retryQ == s.retryQ && s'.events == s.events && s'.stamp == s.stamp
        && s'.prior == s.prior && s'.entered == s.entered
  {
    hide Without;
  }

  lemma CxnPlaces(s: Svc, step: Step)
    requires PlacesOk(s) && Enabled(s, step) && CxnStep(step)
    ensures PlacesOk(Effect(s, step))
  {
    hide PlacesOk, Effect;
    match step
    case Open(t) => OpenPlaces(s, t);
    case StartWrite(r) => StartWritePlaces(s, r);
    case Written(r) => WrittenPlaces(s, r);
    case TimeOut(p) => TimeOutPlaces(s, p);
    case Close(r, fails) => ClosePlaces(s, r, fails);
    case CallBack(r) => CallBackPlaces(s, r);
    case CleanUp(r) => CleanUpPlaces(s, r);
    case Accept(r) => AcceptPlaces(s, r);
  }

  lemma CxnLocked(s: Svc, step: Step)
    requires LocksOk(s) && Enabled(s, step) && CxnStep(step)
    ensures LocksOk(Effect(s, step))
  {
    hide LocksOk, Effect;
    match step
    case Open(t) => OpenLocks(s, t);
    case StartWrite(r) => WriteLocks(s, step);
    case Written(r) => WriteLocks(s, step);
    case CallBack(r) => WriteLocks(s, step);
    case TimeOut(p) => TimeOutLocks(s, p);
    case Close(_, _) => CloseLocks(s, step);
    case Accept(_) => CloseLocks(s, step);
    case CleanUp(r) => CleanUpLocks(s, r);
  }

  /** Packets in a connection have been in line for long. */
  lemma CxnStamps(s: Svc, step: Step)
    requires PlacesOk(s) && StampsOk(s) && Enabled(s, step) && CxnStep(step)
    requires Effect(s, step).stamp == s.stamp && Effect(s, step).prior == s.prior
    ensures StampsOk(Effect(s, step))
  {
    hide StampsOk, PlacesOk, Effect, Enabled;
    match step
    case Written(r) => WrittenStamps(s, r);
    case CallBack(r) => CallBackStamps(s, r);
    case TimeOut(p) => TimeOutStamps(s, p);
    case Close(r, fails) => CloseStamps(s, r, fails);
    case _ => QuietStamps(s, step);
  }

  lemma WrittenStamps(s: Svc, r: nat)
    requires PlacesOk(s) && StampsOk(s) && Enabled(s, Written(r))
    ensures StampsOk(Effect(s, Written(r)))
  {
    hide StampsOk, PlacesOk, Distinct;
    OneCxn(s, r);
    assert At(s, s.cxns[r].sendq[0], InSend);
    StampsBack(s, Effect(s, Written(r)), s.cxns[r].sendq[0]);
  }

  lemma CallBackStamps(s: Svc, r: nat)
    requires PlacesOk(s) && StampsOk(s) && Enabled(s, CallBack(r))
    ensures StampsOk(Effect(s, CallBack(r)))
  {
    hide StampsOk, PlacesOk, Distinct;
    OneCxn(s, r);
    assert At(s, s.cxns[r].disq[0], InDis);
    StampsBack(s, Effect(s, CallBack(r)), s.cxns[r].disq[0]);
  }

  lemma TimeOutStamps(s: Svc, p: Pkt)
    requires PlacesOk(s) && StampsOk(s) && Enabled(s, TimeOut(p))
    ensures StampsOk(Effect(s, TimeOut(p)))
  {
    hide StampsOk, PlacesOk, Without;
    TimedIsQueued(s, p);
    StampsBack(s, Effect(s, TimeOut(p)), p);
  }

  lemma CloseStamps(s: Svc, r: nat, fails: bool)
    requires PlacesOk(s) && StampsOk(s) && Enabled(s, Close(r, fails))
    ensures StampsOk(Effect(s, Close(r, fails)))
  {
    hide StampsOk, PlacesOk, Distinct;
    OneCxn(s, r);
    assert forall p <- s.cxns[r].sendq :: At(s, p, InSend);
    StampsSame(s, Effect(s, Close(r, fails)));
  }

  lemma QuietStamps(s: Svc, step: Step)
    requires StampsOk(s) && Enabled(s, step) && (step.Open? || step.StartWrite? || step.CleanUp? || step.Accept?)
    ensures StampsOk(Effect(s, step))
  {
    hide StampsOk, Effect, Enabled;
    TableFrame(s, step);
    StampsSame(s, Effect(s, step));
  }

  lemma StampsBack(s: Svc, s': Svc, x: Pkt)
    requires StampsOk(s) && x in s.place && !s.place[x].New? && s'.place == s.place[x := Back] && s'.stamp == s.stamp
      && s'.prior == s.prior
    ensures StampsOk(s')
  {
    hide StampsOk;
    StampsSame(s, s');
  }

  lemma CxnKeeps(s: Svc, step: Step)
    requires Inv(s) && Enabled(s, step) && CxnStep(step)
    ensures Inv(Effect(s, step))
  {
    hide PlacesOk, PeersOk, LocksOk, RetriesOk, StampsOk, LinesOk, Effect;
    CxnFrame(s, step);
    CxnPlaces(s, step);
    if step.Close? { ClosePeers(s, step.r, step.fails); } else { CxnPeers(s, step); }
    CxnLocked(s, step);
    RetriesStill(s, Effect(s, step));
    CxnStamps(s, step);
    LinesStill(s, Effect(s, step), |s.threads|);
  }

  lemma StepKeeps(s: Svc, step: Step, s': Svc)
    requires Inv(s) && Moves(s, step, s')
    ensures Inv(s')
  {
    hide Inv, DrainAll, PutOne, EnterOne, CanEnter;
    match step
    case Send(t, p) => SendKeeps(s, t, p);
    case Fire(t, r) => FireKeeps(s, t, r);
    case Miss(t) => MissKeeps(s, t);
    case Schedule(t) => ScheduleKeeps(s, t);
    case Enter(t) => EnterKeeps(s, t);
    case Drain(t) => DrainKeeps(s, t);
    case Put(t) => PutKeeps(s, t);
    case Finish(t) => FinishKeeps(s, t);
    case _ => CxnKeeps(s, step);
  }

  // ---------------------------------------------------------------- every run

  lemma {:induction false} RunInv(states: seq<Svc>, steps: seq<Step>, i: nat)
    requires IsRun(states, steps) && i <= |steps|
    ensures Inv(states[i])
  {
    hide Inv, Started, Moves;
    if i == 0 {
      StartedInv(states[0]);
    } else {
      RunInv(states, steps, i - 1);
      StepKeeps(states[i - 1], steps[i - 1], states[i]);
    }
  }

  lemma StartedInv(s: Svc)
    requires Started(s)
    ensures Inv(s)
  {
  }

  /** Every packet is in one place: the retry queue, one thread's hands, one send queue or one disconnect
      queue, or it was called back, once, or refused; the timeout queue holds exactly those in send
      queues, and a packet being written heads its send queue. */
  lemma OnePlaceOneCallback(states: seq<Svc>, steps: seq<Step>)
    ensures IsRun(states, steps) ==> PlacesOk(states[|steps|])
  {
    if IsRun(states, steps) { RunInv(states, steps, |steps|); }
  }

  /** No packet waits in the retry queue without a retry coming for its peer. */
  lemma RetryIsComing(states: seq<Svc>, steps: seq<Step>)
    ensures IsRun(states, steps) ==> RetriesOk(states[|steps|])
  {
    if IsRun(states, steps) { RunInv(states, steps, |steps|); }
  }

  /** Packets to one peer enter its send queue in order: one whose Send began after another had got in
      line, in particular after the other's Send had returned, never overtakes it. */
  lemma OrderSurvives(states: seq<Svc>, steps: seq<Step>)
    ensures IsRun(states, steps) ==> OrderKept(states[|steps|])
  {
    if IsRun(states, steps) {
      RunInv(states, steps, |steps|);
      LinesInOrder(states[|steps|]);
    }
  }

  lemma LinesInOrder(s: Svc)
    requires StampsOk(s) && LinesOk(s)
    ensures OrderKept(s)
  {
    hide Mine, Before, InOrder;
    forall r <- s.entered ensures InOrder(s, s.entered[r]) {
      assert EnteredOk(s, r);
      RisingInOrder(s, s.entered[r]);
    }
  }

  lemma RisingInOrder(s: Svc, q: seq<Pkt>)
    requires StampsOk(s) && Rising(s, q)
    ensures InOrder(s, q)
  {
    forall i, j | 0 <= i < |q| && 0 <= j < |q| && q[j] in s.prior && q[i] in s.prior[q[j]] ensures i < j {
      assert q[i] in q && q[j] in q && s.stamp[q[i]] < s.stamp[q[j]];
    }
  }
}
