/** The sending half of the packet service (NetPacketSvc.cpp, NetCxn.cpp, PacketUtil.cpp): how packets
    get from Send through the retry queue into the send queue of their connection, and from there to
    the one callback each of them is owed.  Any number of threads; a step is a piece of code that runs
    under the lock it needs.  The service is not stopped, and callbacks do not call Send. */
module SendPath {
  import opened Basics

  /** A packet context: the peer it goes to, and whether it may only use an existing connection. */
  datatype Pkt = Pkt(id: nat, peer: nat, onExisting: bool)

  /** m_Sendq, m_DisConnectq, the packet being written, m_Closed, and the thread that holds the lock. */
  datatype Cxn = Cxn(sendq: seq<Pkt>, disq: seq<Pkt>, writing: Option<Pkt>, closed: bool, holder: Option<nat>)

  /** Where a thread is.  own is the packet of its own Send; owns says whether it holds the lock of an
      existing connection, rather than the lock of the service. */
  datatype Pc =
    | Idle
    | Sending(p: Pkt)
    | Handling(r: nat)
    | Scheduling(r: nat)
    | Ready(r: nat, own: Option<Pkt>, owns: bool)
    | Draining(r: nat, todo: seq<Pkt>, own: Option<Pkt>, owns: bool)

  /** Where a packet is; Back: its callback was made; Refused: Send returned an error. */
  datatype Place = New(t: nat) | InRetry | InHands(t: nat) | InSend | InDis | Back | Refused

  /** The retry queue, the connections, the packets in the timeout queue, the retry events scheduled,
      the lock of the service and the threads.  Kept for the proof: where every packet is, the callbacks
      made, when packets entered the queues, which packets had entered before a Send began, and the
      order in which they entered each send queue. */
  datatype Svc = Svc(
    server: bool,
    retryQ: seq<Pkt>,
    cxns: map<nat, Cxn>,
    timeouts: set<Pkt>,
    events: map<nat, nat>,
    lock: Option<nat>,
    threads: seq<Pc>,
    place: map<Pkt, Place>,
    calls: seq<Pkt>,
    stamp: map<Pkt, nat>,
    prior: map<Pkt, set<Pkt>>,
    entered: map<nat, seq<Pkt>>)

  datatype Step =
    | Send(t: nat, p: Pkt)
    | Fire(t: nat, r: nat)
    | Miss(t: nat)
    | Schedule(t: nat)
    | Enter(t: nat)
    | Drain(t: nat)
    | Open(t: nat)
    | Put(t: nat)
    | Finish(t: nat)
    | StartWrite(r: nat)
    | Written(r: nat)
    | TimeOut(p: Pkt)
    | Close(r: nat, fails: bool)
    | CallBack(r: nat)
    | CleanUp(r: nat)
    | Accept(r: nat)

  // ---------------------------------------------------------------- queues

  function Mine(q: seq<Pkt>, r: nat): seq<Pkt> {
    if q == [] then [] else Mine(q[..|q| - 1], r) + (if q[|q| - 1].peer == r then [q[|q| - 1]] else [])
  }

  function Rest(q: seq<Pkt>, r: nat): seq<Pkt> {
    if q == [] then [] else Rest(q[..|q| - 1], r) + (if q[|q| - 1].peer == r then [] else [q[|q| - 1]])
  }

  function Without(q: seq<Pkt>, p: Pkt): seq<Pkt> {
    if q == [] then [] else Without(q[..|q| - 1], p) + (if q[|q| - 1] == p then [] else [q[|q| - 1]])
  }

  // ---------------------------------------------------------------- steps

  function Target(pc: Pc): nat {
    match pc
    case Sending(p) => p.peer
    case Handling(r) => r
    case Scheduling(r) => r
    case Ready(r, _, _) => r
    case Draining(r, _, _, _) => r
    case Idle => 0
  }

  /** The connection of r exists and nobody holds its lock. */
  predicate IsFree(s: Svc, r: nat) { r in s.cxns && s.cxns[r].holder.None? }

  predicate CanEnter(s: Svc, t: nat) {
    t < |s.threads| && (s.threads[t].Sending? || s.threads[t].Handling?) && s.lock.None?
    && (Target(s.threads[t]) in s.cxns ==> s.cxns[Target(s.threads[t])].holder.None?)
  }

  predicate CanDrain(s: Svc, t: nat) { t < |s.threads| && s.threads[t].Ready? }

  predicate CanPut(s: Svc, t: nat) {
    t < |s.threads| && s.threads[t].Draining? && s.threads[t].todo != [] && !WantsCxn(s, s.threads[t])
  }

  predicate Enabled(s: Svc, step: Step) {
    match step
    case Send(t, p) => t < |s.threads| && s.threads[t].Idle? && p !in s.place
    case Fire(t, r) => t < |s.threads| && s.threads[t].Idle? && r in s.events && s.events[r] > 0
    case Miss(t) => t < |s.threads| && (s.threads[t].Sending? || s.threads[t].Handling?)
    case Schedule(t) => t < |s.threads| && s.threads[t].Scheduling?
    case Enter(t) => CanEnter(s, t)
    case Drain(t) => CanDrain(s, t)
    case Open(t) => t < |s.threads| && WantsCxn(s, s.threads[t])
    case Put(t) => CanPut(s, t)
    case Finish(t) => t < |s.threads| && s.threads[t].Draining? && s.threads[t].todo == []
    case StartWrite(r) => IsFree(s, r) && s.cxns[r].writing.None? && s.cxns[r].sendq != [] && !s.cxns[r].closed
    case Written(r) => IsFree(s, r) && s.cxns[r].writing.Some? && s.cxns[r].sendq != []
    case TimeOut(p) => p in s.timeouts && IsFree(s, p.peer)
    case Close(r, fails) => IsFree(s, r) && !s.cxns[r].closed
    case CallBack(r) => IsFree(s, r) && s.cxns[r].closed && s.cxns[r].disq != []
    case CleanUp(r) => IsFree(s, r) && s.cxns[r].closed && s.cxns[r].disq == []
    case Accept(r) => s.server && s.lock.None? && r !in s.cxns
  }

  function Move(s: Svc, t: nat, pc: Pc): Svc
    requires t < |s.threads|
  {
    s.(threads := s.threads[t := pc])
  }

  function Count(events: map<nat, nat>, r: nat): nat { if r in events then events[r] else 0 }

  /** Packet p gets in line: its place and the time it did. */
  function Arrive(s: Svc, p: Pkt, at: Place): Svc {
    s.(place := s.place[p := at], stamp := s.stamp[p := |s.stamp|])
  }

  function Unlocked(s: Svc, t: nat, r: nat): Svc {
    s.(lock := if s.lock == Some(t) then None else s.lock,
       cxns := if r in s.cxns && s.cxns[r].holder == Some(t) then s.cxns[r := s.cxns[r].(holder := None)] else s.cxns)
  }

  /** EnqueuePacket: a closed connection takes a packet only if it is going to reconnect. */
  predicate Takes(s: Svc, c: Cxn, p: Pkt) {
    !(c.closed && (s.server || (p.onExisting && c.sendq == [])))
  }

  function Entered(s: Svc, r: nat): seq<Pkt> { if r in s.entered then s.entered[r] else [] }

  /** Callback of p, wherever it was. */
  function CalledBack(s: Svc, p: Pkt): Svc {
    s.(place := s.place[p := Back], calls := s.calls + [p])
  }

  /** A client makes a connection for the first packet that wants one. */
  predicate WantsCxn(s: Svc, pc: Pc) {
    pc.Draining? && pc.todo != [] && pc.r !in s.cxns && !s.server && !pc.todo[0].onExisting
  }

  /** EnqueuePacket for the next packet; if it is not taken, a packet from the retry queue is called
      back, and the packet of the Send in progress is refused. */
  function PutOne(s: Svc, t: nat): Svc
    requires CanPut(s, t)
  {
    var pc := s.threads[t];
    var r, p := pc.r, pc.todo[0];
    var s1 := Move(s, t, pc.(todo := pc.todo[1..]));
    if r in s.cxns && Takes(s, s.cxns[r], p) then Taken(s1, p, r)
    else if pc.own == Some(p) then s1.(place := s.place[p := Refused])
    else CalledBack(s1, p)
  }

  /** Packet p enters the send queue of its connection. */
  function Taken(s: Svc, p: Pkt, r: nat): Svc
    requires r in s.cxns
  {
    var c := s.cxns[r];
    s.(cxns := s.cxns[r := c.(sendq := c.sendq + [p])], place := s.place[p := InSend],
       timeouts := s.timeouts + {p}, entered := s.entered[r := Entered(s, r) + [p]])
  }

  /** TrySend gets the lock of the connection, or that of the service where there is no connection. */
  function EnterOne(s: Svc, t: nat): Svc
    requires CanEnter(s, t)
  {
    var pc := s.threads[t];
    var r, own := Target(pc), if pc.Sending? then Some(pc.p) else None;
    if r in s.cxns then Move(s, t, Ready(r, own, true)).(cxns := s.cxns[r := s.cxns[r].(holder := Some(t))])
    else Move(s, t, Ready(r, own, false)).(lock := Some(t))
  }

  function DrainAll(s: Svc, t: nat): Svc
    requires CanDrain(s, t)
  {
    var pc := s.threads[t];
    var r, mine := pc.r, Mine(s.retryQ, pc.r);
    if pc.own.Some? && mine != [] then
      // packets to this peer are waiting already: queue up behind them
      Unlocked(Move(Arrive(s, pc.own.value, InRetry), t, Idle).(retryQ := s.retryQ + [pc.own.value]), t, r)
    else
      var s1 := s.(retryQ := Rest(s.retryQ, r), place := map p | p in s.place ::
        if p in mine then InHands(t) else s.place[p]);
      if pc.own.Some?
        then Move(Arrive(s1, pc.own.value, InHands(t)), t, Draining(r, mine + [pc.own.value], pc.own, pc.owns))
      else Move(s1, t, Draining(r, mine, None, pc.owns))
  }

  function Effect(s: Svc, step: Step): Svc
    requires Enabled(s, step)
  {
    match step
    case Send(t, p) => Move(s, t, Sending(p)).(place := s.place[p := New(t)], prior := s.prior[p := s.stamp.Keys])
    case Fire(t, r) => Move(s, t, Handling(r)).(events := s.events[r := s.events[r] - 1])
    case Miss(t) =>
      var pc := s.threads[t];
      var s1 := Move(s, t, Scheduling(Target(pc)));
      if pc.Sending? then Arrive(s1, pc.p, InRetry).(retryQ := s.retryQ + [pc.p]) else s1
    case Schedule(t) =>
      var r := s.threads[t].r;
      Move(s, t, Idle).(events := s.events[r := Count(s.events, r) + 1])
    case Enter(t) => EnterOne(s, t)
    case Drain(t) => DrainAll(s, t)
    case Open(t) => s.(cxns := s.cxns[s.threads[t].r := Cxn([], [], None, false, Some(t))])
    case Put(t) => PutOne(s, t)
    case Finish(t) => Unlocked(Move(s, t, Idle), t, s.threads[t].r)
    case StartWrite(r) => s.(cxns := s.cxns[r := s.cxns[r].(writing := Some(s.cxns[r].sendq[0]))])
    case Written(r) =>
      var c := s.cxns[r];
      CalledBack(s.(cxns := s.cxns[r := c.(sendq := c.sendq[1..], writing := None)],
        timeouts := s.timeouts - {c.writing.value}), c.writing.value)
    case TimeOut(p) =>
      var c := s.cxns[p.peer];
      CalledBack(s.(cxns := s.cxns[p.peer := c.(sendq := Without(c.sendq, p), writing := if c.writing == Some(p)
        then None else c.writing)],
                    timeouts := s.timeouts - {p}), p)
    case Close(r, fails) =>
      var c := s.cxns[r];
      if fails || s.server then
        s.(cxns := s.cxns[r := c.(closed := true, writing := None, disq := c.disq + c.sendq, sendq := [])],
           timeouts := s.timeouts - (set p | p in c.sendq),
           place := map p | p in s.place :: if p in c.sendq then InDis else s.place[p])
      else s.(cxns := s.cxns[r := c.(closed := true, writing := None)])
    case CallBack(r) =>
      var c := s.cxns[r];
      CalledBack(s.(cxns := s.cxns[r := c.(disq := c.disq[1..])]), c.disq[0])
    case CleanUp(r) =>
      var c := s.cxns[r];
      if c.sendq != [] then s.(cxns := s.cxns[r := c.(closed := false)]) else s.(cxns := s.cxns - {r})
    case Accept(r) => s.(cxns := s.cxns[r := Cxn([], [], None, false, None)])
  }

  predicate Moves(s: Svc, step: Step, s': Svc) {
    Enabled(s, step) && s' == Effect(s, step)
  }

  predicate Started(s: Svc) {
    && s.retryQ == [] && s.cxns == map[] && s.timeouts == {} && s.events == map[] && s.lock == None
    && (forall t :: 0 <= t < |s.threads| ==> s.threads[t] == Idle)
    && s.place == map[] && s.calls == [] && s.stamp == map[] && s.prior == map[] && s.entered == map[]
  }

  predicate IsRun(states: seq<Svc>, steps: seq<Step>) {
    |states| == |steps| + 1 && Started(states[0]) && forall i ::
      0 <= i < |steps| ==> Moves(states[i], steps[i], states[i + 1])
  }

  // ---------------------------------------------------------------- what the service promises

  predicate At(s: Svc, p: Pkt, at: Place) { p in s.place && s.place[p] == at }

  /** A queue holds exactly the packets whose place it is. */
  predicate QueueOk(s: Svc, q: seq<Pkt>, at: Place) {
    Distinct(q) && forall p <- q :: At(s, p, at)
  }

  predicate CxnOk(s: Svc, r: nat)
    requires r in s.cxns
  {
    var c := s.cxns[r];
    && QueueOk(s, c.sendq, InSend) && QueueOk(s, c.disq, InDis) && (forall p <- c.sendq + c.disq :: p.peer == r)
    && (c.writing.Some? ==> c.sendq != [] && c.sendq[0] == c.writing.value)
  }

  /** Every packet is where its place says, in one place only; the timeout queue holds exactly the
      packets in send queues; the packet being written heads its send queue; and no packet is called
      back twice. */
  predicate PlacesOk(s: Svc) {
    QueueOk(s, s.retryQ, InRetry) && CxnsOk(s) && QueueOk(s, s.calls, Back) && AllFound(s) && TimeoutsOk(s)
  }

  predicate CxnsOk(s: Svc) {
    forall r <- s.cxns :: CxnOk(s, r)
  }

  predicate AllFound(s: Svc) {
    forall p <- s.place :: Found(s, p)
  }

  predicate TimeoutsOk(s: Svc) {
    (forall p <- s.place :: p in s.timeouts <==> s.place[p] == InSend) && s.timeouts <= s.place.Keys
  }

  predicate Found(s: Svc, p: Pkt)
    requires p in s.place
  {
    match s.place[p]
    case New(t) => t < |s.threads|
      && (s.threads[t] == Sending(p) || (s.threads[t].Ready? && s.threads[t].own == Some(p)))
    case InRetry => p in s.retryQ
    case InHands(t) => t < |s.threads| && s.threads[t].Draining? && p in s.threads[t].todo
    case InSend => p.peer in s.cxns && p in s.cxns[p.peer].sendq
    case InDis => p.peer in s.cxns && p in s.cxns[p.peer].disq
    case Back => p in s.calls
    case Refused => true
  }

  /** Every packet in the retry queue has a retry event coming for its peer. */
  predicate RetriesOk(s: Svc) {
    forall p <- s.retryQ :: RetryComing(s, p.peer)
  }

  /** A retry event for r is scheduled or about to be, or a thread is handling one and has not drained the
      queue yet. */
  predicate RetryComing(s: Svc, r: nat) {
    Count(s.events, r) > 0 || exists t :: 0 <= t < |s.threads| && Retries(s.threads[t], r)
  }

  predicate Retries(pc: Pc, r: nat) {
    pc == Handling(r) || pc == Scheduling(r) || (pc.Ready? && pc.r == r && pc.own.None?)
  }

  /** Packets to one peer whose Send began after another's had returned do not overtake it. */
  predicate OrderKept(s: Svc) {
    forall r <- s.entered :: InOrder(s, s.entered[r])
  }

  predicate InOrder(s: Svc, q: seq<Pkt>) {
    forall i, j :: 0 <= i < |q| && 0 <= j < |q| && q[j] in s.prior && q[i] in s.prior[q[j]] ==> i < j
  }
}
