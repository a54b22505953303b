/** The lock-free queue of LF.c: a linked list with a dummy first node, a Tail that may lag by one
    node, and nodes recycled through a free list.  Any number of threads; one step per load, store or
    compare-and-swap. */
module LfQueue {
  import opened Basics

  /** Addresses; 0 is NULL. */
  type Addr = nat

  const NULL: Addr := 0

  /** A protected pointer: the pointer and the counter that every change increments. */
  datatype Word = Word(ptr: Addr, cnt: nat)

  /** LFMSG.  On the free list, data holds the address of the next free node. */
  datatype Msg = Msg(data: nat, size: nat)

  datatype Node = Node(link: Word, msg: Msg)

  /** What a thread does after PUSH: nothing more, or go on with a block of fresh nodes of which it
      keeps one for its own message. */
  datatype After = Done | Keep(msg: Msg, node: Addr, rest: set<Addr>)

  /** Where a thread is.  began is the time its call of QueueGet started. */
  datatype Pc =
    | Idle
    | PopLoad(msg: Msg)
    | PopRead(msg: Msg, h: Word)
    | PopCas(msg: Msg, h: Word, next: Addr)
    | Allocating(msg: Msg)
    | Spreading(msg: Msg, node: Addr, rest: set<Addr>)
    | PushLoad(node: Addr, after: After)
    | PushWrite(node: Addr, h: Word, after: After)
    | PushCas(node: Addr, h: Word, after: After)
    | FillMsg(node: Addr, msg: Msg)
    | FillLink(node: Addr, msg: Msg)
    | PutTail(node: Addr, msg: Msg)
    | PutLink(node: Addr, msg: Msg, t: Word)
    | PutCheck(node: Addr, msg: Msg, t: Word, l: Word)
    | PutCas(node: Addr, msg: Msg, t: Word, l: Word)
    | PutSwing(node: Addr, t: Word)
    | GetHead(began: nat)
    | GetTail(began: nat, h: Word)
    | GetLink(began: nat, h: Word, t: Word)
    | GetCheck(began: nat, h: Word, t: Word, next: Addr)
    | GetHelp(began: nat, t: Word, next: Addr)
    | GetData(began: nat, h: Word, next: Addr)
    | GetSize(began: nat, h: Word, next: Addr, data: nat)
    | GetCas(began: nat, h: Word, next: Addr, msg: Msg)
    | GotNothing(began: nat)

  datatype Place = InChain | InFree | Held(thread: nat)

  /** The shared words and the threads, with what the proof observes: chain and flist are the nodes
      from Head and from Free, owner says where each node is, linked and taken are the messages put
      and got so far in the order of the deciding compare-and-swap, clock counts steps and empties
      holds the times at which the queue was empty. */
  datatype Queue = Queue(
    head: Word,
    tail: Word,
    free: Word,
    nodes: map<Addr, Node>,
    threads: map<nat, Pc>,
    chain: seq<Addr>,
    flist: seq<Addr>,
    owner: map<Addr, Place>,
    linked: seq<Msg>,
    taken: seq<Msg>,
    clock: nat,
    empties: set<nat>)

  datatype Step =
    | StartPut(t: nat, msg: Msg)
    | StartGet(t: nat)
    | Allocate(t: nat, node: Addr, rest: set<Addr>, memory: map<Addr, Node>)
    | Refuse(t: nat)
    | Spare(t: nat, node: Addr)
    | Run(t: nat)

  /** The word a successful compare-and-swap stores. */
  function Next(p: Addr, w: Word): Word {
    Word(p, w.cnt + 1)
  }

  function Tail(s: seq<Addr>): seq<Addr> {
    if s == [] then [] else s[1..]
  }

  function At(q: Queue, t: nat, pc: Pc): Queue {
    q.(threads := q.threads[t := pc])
  }

  function Resume(after: After): Pc {
    if after.Done? then Idle else Spreading(after.msg, after.node, after.rest)
  }

  /** Messages from the second node on: the first is the dummy. */
  function Contents(nodes: map<Addr, Node>, chain: seq<Addr>): seq<Msg>
    requires forall a <- chain :: a in nodes
  {
    if |chain| == 0 then [] else seq(|chain| - 1, i requires 0 <= i < |chain| - 1 => nodes[chain[i + 1]].msg)
  }

  predicate Known(q: Queue, pc: Pc) {
    match pc
    case PopRead(_, h) => h.ptr in q.nodes
    case PushWrite(node, _, _) => node in q.nodes
    case FillMsg(node, _) => node in q.nodes
    case FillLink(node, _) => node in q.nodes
    case PutLink(_, _, t) => t.ptr in q.nodes
    case PutCas(_, _, t, _) => t.ptr in q.nodes
    case GetLink(_, h, _) => h.ptr in q.nodes
    case GetData(_, _, next) => next in q.nodes
    case GetSize(_, _, next, _) => next in q.nodes
    case _ => true
  }

  /** The next instruction of thread t, and how the observed components follow it. */
  function Running(q: Queue, t: nat): Queue
    requires t in q.threads && Known(q, q.threads[t])
  {
    match q.threads[t]
    case PopLoad(msg) =>
      if q.free.ptr == NULL then At(q, t, Allocating(msg)) else At(q, t, PopRead(msg, q.free))
    case PopRead(msg, h) => At(q, t, PopCas(msg, h, q.nodes[h.ptr].msg.data))
    case PopCas(msg, h, next) =>
      if q.free == h then
        At(q, t, FillMsg(h.ptr, msg)).(free := Next(next, h), flist := Tail(q.flist),
          owner := q.owner[h.ptr := Held(t)])
      else At(q, t, PopLoad(msg))
    case PushLoad(node, after) => At(q, t, PushWrite(node, q.free, after))
    case PushWrite(node, h, after) =>
      At(q, t, PushCas(node, h,
        after)).(nodes := q.nodes[node := q.nodes[node].(msg := q.nodes[node].msg.(data := h.ptr))])
    case PushCas(node, h, after) =>
      if q.free == h then
        At(q, t, Resume(after)).(free := Next(node, h), flist := [node] + q.flist, owner := q.owner[node := InFree])
      else At(q, t, PushLoad(node, after))
    case FillMsg(node, msg) =>
      At(q, t, FillLink(node, msg)).(nodes := q.nodes[node := q.nodes[node].(msg := msg)])
    case FillLink(node, msg) =>
      At(q, t, PutTail(node, msg)).(nodes := q.nodes[node := q.nodes[node].(link := Next(NULL, q.nodes[node].link))])
    case PutTail(node, msg) => At(q, t, PutLink(node, msg, q.tail))
    case PutLink(node, msg, tail) => At(q, t, PutCheck(node, msg, tail, q.nodes[tail.ptr].link))
    case PutCheck(node, msg, tail, l) => At(q, t, if q.tail == tail then PutCas(node, msg, tail, l)
      else PutTail(node, msg))
    case PutCas(node, msg, tail, l) =>
      if l.ptr == NULL then
        if q.nodes[tail.ptr].link == l then
          At(q, t, PutSwing(node, tail)).(nodes := q.nodes[tail.ptr := q.nodes[tail.ptr].(link := Next(node, l))],
            chain := q.chain + [node], owner := q.owner[node := InChain], linked := q.linked + [msg])
        else At(q, t, PutTail(node, msg))
      else if q.tail == tail then At(q, t, PutTail(node, msg)).(tail := Next(l.ptr, tail))
      else At(q, t, PutTail(node, msg))
    case PutSwing(node, tail) => At(q, t, Idle).(tail := if q.tail == tail then Next(node, tail) else q.tail)
    case GetHead(b) => At(q, t, GetTail(b, q.head))
    case GetTail(b, h) => At(q, t, GetLink(b, h, q.tail))
    case GetLink(b, h, tail) => At(q, t, GetCheck(b, h, tail, q.nodes[h.ptr].link.ptr))
    case GetCheck(b, h, tail, next) =>
      At(q, t, if q.head != h then GetHead(b)
               else if h.ptr != tail.ptr then GetData(b, h, next)
               else if next == NULL then GotNothing(b)
               else GetHelp(b, tail, next))
    case GetHelp(b, tail, next) => At(q, t, GetHead(b)).(tail := if q.tail == tail then Next(next, tail) else q.tail)
    case GetData(b, h, next) => At(q, t, GetSize(b, h, next, q.nodes[next].msg.data))
    case GetSize(b, h, next, d) => At(q, t, GetCas(b, h, next, Msg(d, q.nodes[next].msg.size)))
    case GetCas(b, h, next, msg) =>
      if q.head == h then
        At(q, t, PushLoad(h.ptr, Done)).(head := Next(next, h), chain := Tail(q.chain),
          owner := q.owner[h.ptr := Held(t)],
          taken := q.taken + [msg])
      else At(q, t, GetHead(b))
    case GotNothing(_) => At(q, t, Idle)
    case _ => q
  }

  predicate Enabled(q: Queue, step: Step) {
    step.t in q.threads &&
    var pc := q.threads[step.t];
    match step
    case StartPut(_, _) => pc.Idle?
    case StartGet(_) => pc.Idle?
    case Allocate(_, node, rest, memory) =>
      pc.Allocating? && NULL !in memory && node !in rest && memory.Keys == rest + {node} && memory.Keys !! q.nodes.Keys
    case Refuse(_) => pc.Allocating?
    case Spare(_, node) => pc.Spreading? && node in pc.rest
    case Run(_) => !pc.Idle? && !pc.Allocating? && (pc.Spreading? ==> pc.rest == {}) && Known(q, pc)
  }

  function Effect(q: Queue, step: Step): Queue
    requires Enabled(q, step)
  {
    var pc := q.threads[step.t];
    match step
    case StartPut(t, msg) => At(q, t, PopLoad(msg))
    case StartGet(t) => At(q, t, GetHead(q.clock))
    case Allocate(t, node, rest, memory) =>
      // the new nodes hold whatever was in memory
      At(q, t, Spreading(pc.msg, node, rest)).(nodes := q.nodes + memory, owner := q.owner + map a | a in memory ::
        Held(t))
    case Refuse(t) => At(q, t, Idle)
    case Spare(t, node) => At(q, t, PushLoad(node, Keep(pc.msg, pc.node, pc.rest - {node})))
    case Run(t) => if pc.Spreading? then At(q, t, FillMsg(pc.node, pc.msg)) else Running(q, t)
  }

  /** Time passes with every step. */
  function Ticked(q: Queue): Queue {
    q.(clock := q.clock + 1, empties := if |q.chain| == 1 then q.empties + {q.clock + 1} else q.empties)
  }

  predicate Moves(q: Queue, step: Step, q': Queue) {
    Enabled(q, step) && q' == Ticked(Effect(q, step))
  }

  /** A queue just created: the dummy node, and the rest of its block on the free list. */
  predicate Created(q: Queue) {
    && |q.chain| == 1 && q.head == q.tail == Word(q.chain[0], 0)
    && (forall t <- q.threads :: q.threads[t] == Idle)
    && ShapeOk(q) && FreeOk(q) && OwnersOk(q)
    && q.nodes[q.chain[0]].link == Word(NULL, 0)
    && q.linked == [] && q.taken == [] && q.clock == 0 && q.empties == {0}
  }

  /** Head is the first node, Tail the last or the one before it, and links join the nodes. */
  predicate ShapeOk(q: Queue) {
    && |q.chain| >= 1 && Distinct(q.chain) && q.head.ptr == q.chain[0] && NULL !in q.nodes
    && (forall a <- q.chain :: a in q.nodes && a in q.owner && q.owner[a] == InChain)
    && (forall i :: 0 <= i < |q.chain| - 1 ==> q.nodes[q.chain[i]].link.ptr == q.chain[i + 1])
    && q.nodes[q.chain[|q.chain| - 1]].link.ptr == NULL
    && (q.tail.ptr == q.chain[|q.chain| - 1] || (|q.chain| >= 2 && q.tail.ptr == q.chain[|q.chain| - 2]))
  }

  predicate FreeOk(q: Queue) {
    FreeList(q.free.ptr, q.flist, q.nodes) && forall a <- q.flist :: a in q.owner && q.owner[a] == InFree
  }

  /** The list from first, joined by the data words, is the sequence of addresses. */
  predicate FreeList(first: Addr, list: seq<Addr>, nodes: map<Addr, Node>) {
    && Distinct(list) && (forall a <- list :: a in nodes)
    && first == FirstOf(list, 0) && forall i :: 0 <= i < |list| ==> nodes[list[i]].msg.data == FirstOf(list, i + 1)
  }

  function FirstOf(list: seq<Addr>, i: nat): Addr {
    if i < |list| then list[i] else NULL
  }

  function AfterHolds(after: After): set<Addr> {
    if after.Done? then {} else after.rest + {after.node}
  }

  /** The nodes in a thread's private hands. */
  function Holds(pc: Pc): set<Addr> {
    match pc
    case Spreading(_, node, rest) => rest + {node}
    case PushLoad(node, after) => {node} + AfterHolds(after)
    case PushWrite(node, _, after) => {node} + AfterHolds(after)
    case PushCas(node, _, after) => {node} + AfterHolds(after)
    case FillMsg(node, _) => {node}
    case FillLink(node, _) => {node}
    case PutTail(node, _) => {node}
    case PutLink(node, _, _) => {node}
    case PutCheck(node, _, _, _) => {node}
    case PutCas(node, _, _, _) => {node}
    case _ => {}
  }

  /** Every node is in exactly one place: the chain, the free list, or one thread's hands. */
  predicate OwnersOk(q: Queue) {
    && q.owner.Keys == q.nodes.Keys && NULL !in q.nodes
    && (forall a <- q.owner :: q.owner[a] == InChain ==> a in q.chain)
    && (forall a <- q.owner :: q.owner[a] == InFree ==> a in q.flist)
    && (forall a <- q.owner ::
       q.owner[a].Held? ==> q.owner[a].thread in q.threads && a in Holds(q.threads[q.owner[a].thread]))
    && (forall t <- q.threads, a <- Holds(q.threads[t]) :: a in q.owner && q.owner[a] == Held(t))
  }
}
