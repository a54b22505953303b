/** The queue is a linearizable FIFO on every run. */
module LfQueueProof {
  import opened Basics
  import opened LfQueue

  /** w' is w or a later value of the same word. */
  predicate Past(w: Word, w': Word) {
    w.cnt <= w'.cnt && (w.cnt == w'.cnt ==> w == w')
  }

  predicate PushHeld(node: Addr, after: After) {
    node !in AfterHolds(after) && (after.Keep? ==> after.node !in after.rest)
  }

  predicate Filled(q: Queue, node: Addr, msg: Msg) {
    node in q.nodes && q.nodes[node].msg == msg && q.nodes[node].link.ptr == NULL
  }

  /** A copy t of Tail and, while Tail has not moved, the successor p of its node. */
  predicate Follows(q: Queue, t: Word, p: Addr) {
    t.ptr in q.nodes && Past(t, q.tail) && (q.tail == t && p != NULL ==> q.nodes[t.ptr].link.ptr == p)
  }

  /** A copy h of Head and, while Head has not moved, its successor; Tail is then past it. */
  predicate Second(q: Queue, b: nat, h: Word, next: Addr) {
    && b <= q.clock && h.ptr in q.nodes && Past(h, q.head)
    && (q.head == h ==> q.nodes[h.ptr].link.ptr == next && q.tail.ptr != h.ptr) && next in q.nodes
  }

  predicate SawEmpty(q: Queue, b: nat) {
    exists k <- q.empties :: b <= k <= q.clock
  }

  /** What a thread knows at each instruction. */
  predicate Local(q: Queue, pc: Pc) {
    match pc
    case PopRead(_, h) => h.ptr in q.nodes && Past(h, q.free)
    case PopCas(_, h, next) => h.ptr in q.nodes && Past(h, q.free) && (q.free == h ==> q.nodes[h.ptr].msg.data == next)
    case Spreading(_, node, rest) => node !in rest
    case PushLoad(node, after) => PushHeld(node, after)
    case PushWrite(node, h, after) => PushHeld(node, after) && Past(h, q.free)
    case PushCas(node, h, after) => PushHeld(node, after) && Past(h, q.free) && node in q.nodes
      && q.nodes[node].msg.data == h.ptr
    case FillLink(node, msg) => node in q.nodes && q.nodes[node].msg == msg
    case PutTail(node, msg) => Filled(q, node, msg)
    case PutLink(node, msg, t) => Filled(q, node, msg) && Follows(q, t, NULL)
    case PutCheck(node, msg, t, l) => Filled(q, node, msg) && Follows(q, t, l.ptr) && Past(l, q.nodes[t.ptr].link)
    case PutCas(node, msg, t, l) =>
      && Filled(q, node, msg) && Follows(q, t, l.ptr) && Past(l, q.nodes[t.ptr].link)
      && (l.ptr == NULL && q.nodes[t.ptr].link == l ==> |q.chain| >= 1 && t.ptr == q.chain[|q.chain| - 1] == q.tail.ptr)
    case PutSwing(node, t) => Follows(q, t, node) && node != NULL
    case GetHead(b) => b <= q.clock
    case GetTail(b, h) => b <= q.clock && h.ptr in q.nodes && Past(h, q.head)
    case GetLink(b, h, t) =>
      && b <= q.clock && h.ptr in q.nodes && Past(h, q.head) && Follows(q, t, NULL)
      && (q.head == h && t.ptr != h.ptr ==> q.tail.ptr != h.ptr)
    case GetCheck(b, h, t, next) =>
      && b <= q.clock && h.ptr in q.nodes && Past(h, q.head) && Follows(q, t, NULL)
      && (q.head == h ==>
            && (t.ptr != h.ptr ==> q.tail.ptr != h.ptr && next != NULL)
            && (if next == NULL then SawEmpty(q, b) else q.nodes[h.ptr].link.ptr == next))
    case GetHelp(b, t, next) => b <= q.clock && Follows(q, t, next) && next != NULL
    case GetData(b, h, next) => Second(q, b, h, next)
    case GetSize(b, h, next, d) => Second(q, b, h, next) && (q.head == h ==> q.nodes[next].msg.data == d)
    case GetCas(b, h, next, msg) => Second(q, b, h, next) && (q.head == h ==> q.nodes[next].msg == msg)
    case GotNothing(b) => SawEmpty(q, b)
    case _ => true
  }

  predicate LocalsOk(q: Queue, ts: set<nat>) {
    forall t <- ts :: t in q.threads && Local(q, q.threads[t])
  }

  /** The messages got so far, followed by those in the queue, are those put so far. */
  predicate HistoryOk(q: Queue) {
    (forall a <- q.chain :: a in q.nodes) && q.linked == q.taken + Contents(q.nodes, q.chain)
  }

  predicate TimeOk(q: Queue) {
    (q.clock in q.empties <==> |q.chain| == 1) && (forall k <- q.empties :: k <= q.clock)
  }

  predicate Inv(q: Queue) {
    ShapeOk(q) && FreeOk(q) && OwnersOk(q) && HistoryOk(q) && TimeOk(q) && LocalsOk(q, q.threads.Keys)
  }

  // ---------------------------------------------------------------- what other threads see

  /** What a step of thread t leaves alone. */
  predicate Evolves(q: Queue, t: nat, q': Queue) {
    && q.nodes.Keys <= q'.nodes.Keys && q.owner.Keys <= q'.owner.Keys && |q.chain| >= 1
    && Past(q.head, q'.head) && Past(q.tail, q'.tail) && Past(q.free, q'.free)
    && q.clock <= q'.clock && q.empties <= q'.empties
    && (forall a <- q.nodes :: Past(q.nodes[a].link, q'.nodes[a].link))
    && (forall a <- q.nodes :: a in q.owner && (q.nodes[a].msg == q'.nodes[a].msg || q.owner[a] == Held(t)))
    && (forall a <- q.nodes :: a in q.owner && q.owner[a].Held? && q.owner[a] != Held(t) ==>
          q'.nodes[a] == q.nodes[a] && q'.owner[a] == q.owner[a])
    && (forall a <- q.chain :: a in q.nodes && (q.nodes[a].link.ptr != NULL ==> q'.nodes[a].link == q.nodes[a].link))
    && (q'.tail == q.tail
       || (q'.tail.ptr in q.chain[1..] && q.tail.ptr in q.nodes && q.nodes[q.tail.ptr].link.ptr != NULL))
    && |q'.chain| >= 1 && (forall a <- q.chain :: q.nodes[a].link.ptr == NULL && q'.nodes[a].link == q.nodes[a].link ==>
          a == q'.chain[|q'.chain| - 1])
  }

  lemma FollowsStable(q: Queue, t: nat, q': Queue, w: Word, p: Addr)
    requires Evolves(q, t, q') && ShapeOk(q) && Follows(q, w, p)
    ensures Follows(q', w, p)
  {
  }

  lemma SecondStable(q: Queue, t: nat, q': Queue, b: nat, h: Word, next: Addr)
    requires Evolves(q, t, q') && ShapeOk(q) && Second(q, b, h, next)
    ensures Second(q', b, h, next)
  {
    if q'.head == h {
      assert q.head == h && h.ptr == q.chain[0] && q.nodes[h.ptr].link == q'.nodes[h.ptr].link;
      assert h.ptr !in q.chain[1..];
    }
  }

  /** While Head stands, the second node is in the chain. */
  lemma SecondInChain(q: Queue, b: nat, h: Word, next: Addr)
    requires ShapeOk(q) && Second(q, b, h, next) && q.head == h
    ensures |q.chain| >= 2 && next == q.chain[1] && next in q.owner && q.owner[next] == InChain
  {
    assert q.chain[1] in q.chain;
  }

  lemma FilledStable(q: Queue, t: nat, q': Queue, u: nat, node: Addr, msg: Msg)
    requires Evolves(q, t, q') && Filled(q, node, msg) && u != t && node in q.owner && q.owner[node] == Held(u)
    ensures Filled(q', node, msg)
  {
  }

  lemma PopStable(q: Queue, t: nat, q': Queue, h: Word)
    requires Evolves(q, t, q') && ShapeOk(q) && FreeOk(q) && h.ptr in q.nodes && q.free == h
    ensures q.nodes[h.ptr].msg == q'.nodes[h.ptr].msg
  {
    assert h.ptr == q.flist[0] && h.ptr in q.flist;
  }

  predicate Others(q: Queue, u: nat) {
    u in q.threads && Local(q, q.threads[u])
    && forall a <- Holds(q.threads[u]) :: a in q.nodes && a in q.owner && q.owner[a] == Held(u)
  }

  lemma PoolStable(q: Queue, t: nat, q': Queue, u: nat)
    requires Evolves(q, t, q') && ShapeOk(q) && FreeOk(q) && u != t && Others(q, u)
    requires var pc := q.threads[u];
      pc.PopRead? || pc.PopCas? || pc.Spreading? || pc.PushLoad? || pc.PushWrite? || pc.PushCas? || pc.FillLink?
    ensures Local(q', q.threads[u])
  {
    var pc := q.threads[u];
    if pc.PopCas? && q.free == pc.h { PopStable(q, t, q', pc.h); }
    if pc.PushCas? || pc.FillLink? { assert pc.node in Holds(pc); }
  }

  lemma PutStable(q: Queue, t: nat, q': Queue, u: nat)
    requires Evolves(q, t, q') && ShapeOk(q) && FreeOk(q) && u != t && Others(q, u)
    requires var pc := q.threads[u]; pc.PutTail? || pc.PutLink? || pc.PutCheck? || pc.PutCas? || pc.PutSwing?
    ensures Local(q', q.threads[u])
  {
    var pc := q.threads[u];
    if !pc.PutSwing? { assert pc.node in Holds(pc); FilledStable(q, t, q', u, pc.node, pc.msg); }
    if !pc.PutTail? {
      FollowsStable(q, t, q', pc.t, if pc.PutLink? then NULL else if pc.PutSwing? then pc.node else pc.l.ptr);
    }
  }

  lemma GetStable(q: Queue, t: nat, q': Queue, u: nat)
    requires Evolves(q, t, q') && ShapeOk(q) && FreeOk(q) && u != t && Others(q, u)
    requires var pc := q.threads[u]; pc.GetHead? || pc.GetTail? || pc.GetHelp? || pc.GotNothing?
    ensures Local(q', q.threads[u])
  {
    hide ShapeOk, FreeOk;
    var pc := q.threads[u];
    if pc.GetHelp? { FollowsStable(q, t, q', pc.t, pc.next); }
  }

  lemma TakeStable(q: Queue, t: nat, q': Queue, u: nat)
    requires Evolves(q, t, q') && ShapeOk(q) && FreeOk(q) && u != t && Others(q, u)
    requires var pc := q.threads[u]; pc.GetData? || pc.GetSize? || pc.GetCas?
    ensures Local(q', q.threads[u])
  {
    hide ShapeOk, FreeOk;
    var pc := q.threads[u];
    SecondStable(q, t, q', pc.began, pc.h, pc.next);
    if q'.head == pc.h { SecondInChain(q, pc.began, pc.h, pc.next); }
  }

  lemma LookStable(q: Queue, t: nat, q': Queue, u: nat)
    requires Evolves(q, t, q') && ShapeOk(q) && FreeOk(q) && u != t && Others(q, u)
    requires var pc := q.threads[u]; pc.GetLink? || pc.GetCheck?
    ensures Local(q', q.threads[u])
  {
    var pc := q.threads[u];
    FollowsStable(q, t, q', pc.t, NULL);
    if q'.head == pc.h {
      assert q.head == pc.h && pc.h.ptr == q.chain[0] && pc.h.ptr in q.chain;
      assert pc.h.ptr !in q.chain[1..];
    }
  }

  /** Thread u keeps what it knows while thread t takes a step. */
  lemma LocalStable(q: Queue, t: nat, q': Queue, u: nat)
    requires Evolves(q, t, q') && ShapeOk(q) && FreeOk(q) && u != t && u in q.threads && Others(q, u)
    ensures Local(q', q.threads[u])
  {
    hide Evolves, ShapeOk, FreeOk, Others;
    var pc := q.threads[u];
    if pc.PopRead? || pc.PopCas? || pc.Spreading? || pc.PushLoad? || pc.PushWrite? || pc.PushCas? || pc.FillLink? {
      PoolStable(q, t, q', u);
    } else if pc.PutTail? || pc.PutLink? || pc.PutCheck? || pc.PutCas? || pc.PutSwing? {
      PutStable(q, t, q', u);
    } else if pc.GetLink? || pc.GetCheck? {
      LookStable(q, t, q', u);
    } else if pc.GetData? || pc.GetSize? || pc.GetCas? {
      TakeStable(q, t, q', u);
    } else if pc.GetHead? || pc.GetTail? || pc.GetHelp? || pc.GotNothing? {
      GetStable(q, t, q', u);
    }
  }

  // ---------------------------------------------------------------- steps

  /** A step of t that leads to q' in a sound way. */
  predicate Sound(q: Queue, t: nat, q': Queue) {
    && t in q.threads && t in q'.threads && q'.threads == q.threads[t := q'.threads[t]] && Evolves(q, t, q')
    && ShapeOk(q') && FreeOk(q') && OwnersOk(q') && HistoryOk(q') && TimeOk(q') && LocalsOk(q', {t})
  }

  lemma Preserved(q: Queue, t: nat, q': Queue)
    requires Inv(q) && Sound(q, t, q')
    ensures Inv(q')
  {
    hide ShapeOk, FreeOk, HistoryOk, TimeOk, Evolves, Local;
    forall u <- q'.threads.Keys ensures Local(q', q'.threads[u]) {
      if u != t {
        assert Others(q, u);
        LocalStable(q, t, q', u);
      }
    }
  }

  lemma Timed(q: Queue, u: Queue)
    requires TimeOk(q) && u.clock == q.clock && u.empties == q.empties
    ensures TimeOk(Ticked(u))
  {
  }

  predicate SameList(q: Queue, q': Queue) {
    q'.head == q.head && q'.tail == q.tail && q'.chain == q.chain && q'.owner == q.owner
  }

  lemma ShapeKept(q: Queue, q': Queue)
    requires ShapeOk(q) && SameList(q, q') && q'.nodes == q.nodes
    ensures ShapeOk(q')
  {
  }

  lemma FreeKept(q: Queue, q': Queue)
    requires FreeOk(q) && q'.free == q.free && q'.flist == q.flist && q'.owner == q.owner && q'.nodes == q.nodes
    ensures FreeOk(q')
  {
    hide FreeList;
  }

  lemma HistoryKept(q: Queue, q': Queue)
    requires HistoryOk(q) && q'.nodes == q.nodes && q'.chain == q.chain && q'.linked == q.linked && q'.taken == q.taken
    ensures HistoryOk(q')
  {
  }

  lemma OwnersKept(q: Queue, t: nat, q': Queue)
    requires OwnersOk(q) && t in q.threads && t in q'.threads && q'.threads == q.threads[t := q'.threads[t]]
    requires Holds(q'.threads[t]) == Holds(q.threads[t])
    requires q'.owner == q.owner && q'.nodes.Keys == q.nodes.Keys && q'.chain == q.chain && q'.flist == q.flist
    ensures OwnersOk(q')
  {
    hide Holds;
  }

  lemma QuietEvolves(q: Queue, t: nat, q': Queue)
    requires ShapeOk(q) && OwnersOk(q) && SameList(q, q') && q'.nodes == q.nodes && q'.free == q.free
    requires q.clock <= q'.clock && q.empties <= q'.empties
    ensures Evolves(q, t, q')
  {
    hide Holds;
    LastIsLast(q);
  }

  /** Only the last node of the chain has no successor. */
  lemma LastIsLast(q: Queue)
    requires ShapeOk(q)
    ensures forall a <- q.chain :: a in q.nodes && (q.nodes[a].link.ptr == NULL ==> a == q.chain[|q.chain| - 1])
  {
    forall a <- q.chain ensures a in q.nodes && (q.nodes[a].link.ptr == NULL ==> a == q.chain[|q.chain| - 1]) {
      var i :| 0 <= i < |q.chain| && q.chain[i] == a;
      if i < |q.chain| - 1 { assert q.nodes[q.chain[i]].link.ptr == q.chain[i + 1] && q.chain[i + 1] in q.chain; }
    }
  }

  /** A step that only moves the thread on. */
  lemma Quiet(q: Queue, t: nat, pc: Pc)
    requires Inv(q) && t in q.threads && Holds(pc) == Holds(q.threads[t]) && Local(Ticked(At(q, t, pc)), pc)
    ensures Sound(q, t, Ticked(At(q, t, pc)))
  {
    hide Local, ShapeOk, FreeOk, OwnersOk, HistoryOk, TimeOk, Evolves;
    var q' := Ticked(At(q, t, pc));
    Timed(q, At(q, t, pc));
    ShapeKept(q, q');
    FreeKept(q, q');
    OwnersKept(q, t, q');
    HistoryKept(q, q');
    QuietEvolves(q, t, q');
  }

  // ---------------------------------------------------------------- writing to a private node

  predicate OnlyNode(q: Queue, q': Queue, a: Addr) {
    a in q.nodes && a in q'.nodes && q'.nodes == q.nodes[a := q'.nodes[a]]
  }

  lemma PrivateNode(q: Queue, t: nat, a: Addr)
    requires ShapeOk(q) && FreeOk(q) && OwnersOk(q) && t in q.threads && a in Holds(q.threads[t])
    ensures a in q.nodes && a in q.owner && q.owner[a] == Held(t) && a !in q.chain && a !in q.flist
  {
  }

  lemma ShapeApart(q: Queue, q': Queue, a: Addr)
    requires ShapeOk(q) && SameList(q, q') && a !in q.chain && OnlyNode(q, q', a)
    ensures ShapeOk(q')
  {
  }

  lemma FreeApart(q: Queue, q': Queue, a: Addr)
    requires FreeOk(q) && a !in q.flist && OnlyNode(q, q', a)
    requires q'.free == q.free && q'.flist == q.flist && q'.owner == q.owner
    ensures FreeOk(q')
  {
  }

  lemma HistoryApart(q: Queue, q': Queue, a: Addr)
    requires HistoryOk(q) && a !in q.chain && OnlyNode(q, q', a)
    requires q'.chain == q.chain && q'.linked == q.linked && q'.taken == q.taken
    ensures HistoryOk(q')
  {
    assert Contents(q'.nodes, q.chain) == Contents(q.nodes, q.chain);
  }

  lemma PrivateEvolves(q: Queue, t: nat, q': Queue, a: Addr)
    requires ShapeOk(q) && OwnersOk(q) && SameList(q, q') && q'.free == q.free
    requires OnlyNode(q, q', a) && q.owner[a] == Held(t) && Past(q.nodes[a].link, q'.nodes[a].link)
    requires q.clock <= q'.clock && q.empties <= q'.empties
    ensures Evolves(q, t, q')
  {
    hide Holds;
    LastIsLast(q);
    assert a !in q.chain;
  }

  /** Writing to a node in the thread's own hands. */
  lemma Wrote(q: Queue, t: nat, pc: Pc, a: Addr, node: Node)
    requires Inv(q) && t in q.threads && Holds(pc) == Holds(q.threads[t]) && a in Holds(pc) && a in q.nodes
    requires Past(q.nodes[a].link, node.link)
    requires Local(Ticked(At(q, t, pc).(nodes := q.nodes[a := node])), pc)
    ensures Sound(q, t, Ticked(At(q, t, pc).(nodes := q.nodes[a := node])))
  {
    hide Local, ShapeOk, FreeOk, OwnersOk, HistoryOk, TimeOk, Evolves;
    var q' := Ticked(At(q, t, pc).(nodes := q.nodes[a := node]));
    Timed(q, At(q, t, pc).(nodes := q.nodes[a := node]));
    PrivateNode(q, t, a);
    ShapeApart(q, q', a);
    FreeApart(q, q', a);
    OwnersKept(q, t, q');
    HistoryApart(q, q', a);
    PrivateEvolves(q, t, q', a);
  }

  // ---------------------------------------------------------------- the free list

  predicate OnlyOwner(q: Queue, q': Queue, a: Addr) {
    a in q.owner && a in q'.owner && q'.owner == q.owner[a := q'.owner[a]]
  }

  lemma FreePopped(q: Queue, q': Queue)
    requires FreeOk(q) && q.flist != [] && q'.nodes == q.nodes && q'.flist == Tail(q.flist)
    requires q.flist[0] in q.nodes && q'.free.ptr == q.nodes[q.flist[0]].msg.data
    requires OnlyOwner(q, q', q.flist[0])
    ensures FreeOk(q')
  {
    hide FreeList;
    ListPopped(q.free.ptr, q.flist, q.nodes);
    assert forall a <- q'.flist :: a in q.flist && a != q.flist[0];
  }

  lemma ListPopped(first: Addr, list: seq<Addr>, nodes: map<Addr, Node>)
    requires FreeList(first, list, nodes) && list != []
    ensures FreeList(nodes[list[0]].msg.data, list[1..], nodes) && forall a <- list[1..] :: a in list && a != list[0]
  {
    var rest := list[1..];
    forall i | 0 <= i < |rest| ensures nodes[rest[i]].msg.data == FirstOf(rest, i + 1) {
      assert rest[i] == list[i + 1];
      assert FirstOf(list, i + 2) == FirstOf(rest, i + 1);
    }
    assert FirstOf(list, 1) == FirstOf(rest, 0);
  }

  lemma FreePushed(q: Queue, q': Queue, node: Addr)
    requires FreeOk(q) && node in q.nodes && node !in q.flist && q'.nodes == q.nodes && q'.flist == [node] + q.flist
    requires q'.free.ptr == node && q.nodes[node].msg.data == q.free.ptr && q'.owner == q.owner[node := InFree]
    ensures FreeOk(q')
  {
    hide FreeList;
    ListPushed(q.free.ptr, q.flist, q.nodes, node);
  }

  lemma ListPushed(first: Addr, list: seq<Addr>, nodes: map<Addr, Node>, node: Addr)
    requires FreeList(first, list, nodes) && node in nodes && node !in list && nodes[node].msg.data == first
    ensures FreeList(node, [node] + list, nodes)
  {
    var more := [node] + list;
    forall i | 0 <= i < |more| ensures nodes[more[i]].msg.data == FirstOf(more, i + 1) {
      if i > 0 { assert more[i] == list[i - 1]; }
      assert FirstOf(more, i + 1) == FirstOf(list, i);
    }
  }

  /** The chain and the messages do not depend on where the other nodes are. */
  lemma ShapeElsewhere(q: Queue, q': Queue, a: Addr)
    requires ShapeOk(q) && q'.head == q.head && q'.tail == q.tail && q'.chain == q.chain && q'.nodes == q.nodes
    requires a !in q.chain && OnlyOwner(q, q', a)
    ensures ShapeOk(q')
  {
  }

  lemma ElsewhereEvolves(q: Queue, t: nat, q': Queue, a: Addr)
    requires ShapeOk(q) && OwnersOk(q) && q'.head == q.head && q'.tail == q.tail && q'.chain == q.chain
      && q'.nodes == q.nodes
    requires Past(q.free, q'.free) && a in q.owner && (q.owner[a].Held? ==> q.owner[a] == Held(t))
      && OnlyOwner(q, q', a)
    requires q.clock <= q'.clock && q.empties <= q'.empties
    ensures Evolves(q, t, q')
  {
    hide Holds;
    LastIsLast(q);
  }

  /** Node a moves to or from the hands of t, whose program counter says so. */
  lemma OwnersMoved(q: Queue, t: nat, q': Queue, a: Addr)
    requires OwnersOk(q) && t in q.threads && t in q'.threads && q'.threads == q.threads[t := q'.threads[t]]
    requires OnlyOwner(q, q', a) && q'.nodes.Keys == q.nodes.Keys
    requires q.owner[a].Held? ==> q.owner[a] == Held(t)
    requires if q'.owner[a] == Held(t) then Holds(q'.threads[t]) == Holds(q.threads[t]) + {a} && !q.owner[a].Held?
             else q'.owner[a] in {InChain, InFree} && Holds(q'.threads[t]) == Holds(q.threads[t]) - {a}
    requires forall b <- q'.owner :: q'.owner[b] == InChain ==> b in q'.chain
    requires forall b <- q'.owner :: q'.owner[b] == InFree ==> b in q'.flist
    ensures OwnersOk(q')
  {
    hide Holds;
    forall b <- q'.owner | q'.owner[b].Held?
      ensures q'.owner[b].thread in q'.threads && b in Holds(q'.threads[q'.owner[b].thread])
    {
      if b != a { assert q.owner[b] == q'.owner[b]; }
    }
    forall u <- q'.threads, b <- Holds(q'.threads[u]) ensures b in q'.owner && q'.owner[b] == Held(u) {
      if u != t { assert b in Holds(q.threads[u]); }
    }
  }

  lemma PopTakes(q: Queue, t: nat, q': Queue)
    requires t in q.threads && Known(q, q.threads[t]) && q' == Ticked(Running(q, t)) && Inv(q) && q.threads[t].PopCas?
      && q.free == q.threads[t].h
    ensures Sound(q, t, q')
  {
    hide ShapeOk, FreeOk, OwnersOk, HistoryOk, TimeOk, Evolves, Distinct;
    var pc := q.threads[t];
    assert Local(q, pc);
    PopHead(q, pc.h);
    Timed(q, Running(q, t));
    ShapeElsewhere(q, q', pc.h.ptr);
    FreePopped(q, q');
    PopOwners(q, t, q');
    HistoryKept(q, q');
    ElsewhereEvolves(q, t, q', pc.h.ptr);
  }

  lemma PopHead(q: Queue, h: Word)
    requires ShapeOk(q) && FreeOk(q) && OwnersOk(q) && h.ptr in q.nodes && q.free == h
    ensures q.flist != [] && q.flist[0] == h.ptr && h.ptr in q.owner && q.owner[h.ptr] == InFree && h.ptr !in q.chain
  {
    assert q.flist[0] in q.flist;
  }

  lemma PopOwners(q: Queue, t: nat, q': Queue)
    requires OwnersOk(q) && t in q.threads && Holds(q.threads[t]) == {} && q.flist != [] && q.flist[0] in q.owner
      && q.owner[q.flist[0]] == InFree
    requires t in q'.threads && q'.threads == q.threads[t := q'.threads[t]] && Holds(q'.threads[t]) == {q.flist[0]}
    requires q'.nodes == q.nodes && q'.chain == q.chain && q'.flist == Tail(q.flist)
      && q'.owner == q.owner[q.flist[0] := Held(t)]
    ensures OwnersOk(q')
  {
    hide Holds;
    var a := q.flist[0];
    forall b <- q'.owner | q'.owner[b] == InFree ensures b in q'.flist {
      var i :| 0 <= i < |q.flist| && q.flist[i] == b;
      assert i > 0 && q'.flist[i - 1] == b;
    }
    OwnersMoved(q, t, q', a);
  }

  lemma PushGives(q: Queue, t: nat, q': Queue)
    requires t in q.threads && Known(q, q.threads[t]) && q' == Ticked(Running(q, t)) && Inv(q) && q.threads[t].PushCas?
      && q.free == q.threads[t].h
    ensures Sound(q, t, q')
  {
    hide ShapeOk, FreeOk, OwnersOk, HistoryOk, TimeOk, Evolves, Distinct;
    var pc := q.threads[t];
    assert Local(q, pc);
    PrivateNode(q, t, pc.node);
    Timed(q, Running(q, t));
    ShapeElsewhere(q, q', pc.node);
    FreePushed(q, q', pc.node);
    PushOwners(q, t, q', pc.node);
    HistoryKept(q, q');
    ElsewhereEvolves(q, t, q', pc.node);
  }

  lemma PushOwners(q: Queue, t: nat, q': Queue, a: Addr)
    requires OwnersOk(q) && t in q.threads && a in q.owner && q.owner[a] == Held(t)
    requires t in q'.threads && q'.threads == q.threads[t := q'.threads[t]]
      && Holds(q'.threads[t]) == Holds(q.threads[t]) - {a}
    requires q'.nodes == q.nodes && q'.chain == q.chain && q'.flist == [a] + q.flist && q'.owner == q.owner[a := InFree]
    ensures OwnersOk(q')
  {
    hide Holds;
    OwnersMoved(q, t, q', a);
  }

  // ---------------------------------------------------------------- the deciding steps

  /** Linking a node behind the last one. */
  lemma LinkAppends(q: Queue, t: nat, q': Queue)
    requires t in q.threads && q.threads[t].PutCas? && q.threads[t].l.ptr == NULL
    requires Known(q, q.threads[t]) && q.nodes[q.threads[t].t.ptr].link == q.threads[t].l
    requires q' == Ticked(Running(q, t)) && Inv(q)
    ensures Sound(q, t, q')
  {
    hide ShapeOk, FreeOk, OwnersOk, HistoryOk, TimeOk, Evolves, Distinct;
    var pc := q.threads[t];
    assert Local(q, pc);
    PrivateNode(q, t, pc.node);
    ChainOwned(q, pc.t.ptr);
    Timed(q, Running(q, t));
    ShapeLinked(q, q', pc.node);
    FreeLinked(q, q', pc.t.ptr, pc.node);
    LinkOwners(q, t, q', pc.node);
    HistoryLinked(q, q', pc.node);
    LinkEvolves(q, t, q', pc.node);
  }

  lemma ChainOwned(q: Queue, a: Addr)
    requires ShapeOk(q) && FreeOk(q) && a == q.chain[|q.chain| - 1]
    ensures a !in q.flist && a in q.nodes && a in q.owner && q.owner[a] == InChain && a in q.chain
      && q.nodes[a].link.ptr == NULL
  {
  }

  /** q' is q with node linked behind the last node. */
  predicate Appended(q: Queue, q': Queue, node: Addr) {
    && |q.chain| >= 1 && node in q.nodes && node in q.owner && node !in q.chain
    && var last := q.chain[|q.chain| - 1];
    && last in q.nodes && OnlyNode(q, q', last)
       && q'.nodes[last] == q.nodes[last].(link := Next(node, q.nodes[last].link))
    && q'.chain == q.chain + [node] && q'.owner == q.owner[node := InChain]
  }

  lemma ShapeLinked(q: Queue, q': Queue, node: Addr)
    requires ShapeOk(q) && Appended(q, q', node) && q.nodes[node].link.ptr == NULL && q'.head == q.head
      && q'.tail == q.tail
    requires q.tail.ptr == q.chain[|q.chain| - 1]
    ensures ShapeOk(q')
  {
    var n := |q.chain|;
    assert forall i :: 0 <= i < n ==> q'.chain[i] == q.chain[i];
    forall i | 0 <= i < n ensures q'.nodes[q'.chain[i]].link.ptr == q'.chain[i + 1] {
      if i < n - 1 { assert q.chain[i] != q.chain[n - 1]; }
    }
  }

  lemma FreeLinked(q: Queue, q': Queue, last: Addr, node: Addr)
    requires FreeOk(q) && last !in q.flist && node !in q.flist && OnlyNode(q, q', last)
      && q'.owner == q.owner[node := InChain]
    requires q'.free == q.free && q'.flist == q.flist
    ensures FreeOk(q')
  {
  }

  lemma LinkOwners(q: Queue, t: nat, q': Queue, node: Addr)
    requires OwnersOk(q) && Appended(q, q', node) && t in q.threads && q.owner[node] == Held(t)
      && Holds(q.threads[t]) == {node}
    requires t in q'.threads && q'.threads == q.threads[t := q'.threads[t]] && Holds(q'.threads[t]) == {}
      && q'.flist == q.flist
    ensures OwnersOk(q')
  {
    hide Holds;
    OwnersMoved(q, t, q', node);
  }

  lemma HistoryLinked(q: Queue, q': Queue, node: Addr)
    requires HistoryOk(q) && Appended(q, q', node) && q'.linked == q.linked + [q.nodes[node].msg] && q'.taken == q.taken
    ensures HistoryOk(q')
  {
    assert forall a <- q.chain :: q'.nodes[a].msg == q.nodes[a].msg;
    assert Contents(q'.nodes, q'.chain) == Contents(q.nodes, q.chain) + [q.nodes[node].msg];
  }

  lemma LinkEvolves(q: Queue, t: nat, q': Queue, node: Addr)
    requires ShapeOk(q) && OwnersOk(q) && Appended(q, q', node) && q.owner[node] == Held(t)
    requires q'.head == q.head && q'.tail == q.tail && q'.free == q.free && q.clock <= q'.clock
      && q.empties <= q'.empties
    ensures Evolves(q, t, q')
  {
    hide Holds;
    LastIsLast(q);
  }

  /** Moving Tail to the node behind it. */
  lemma TailMoves(q: Queue, t: nat, pc: Pc, w: Word, p: Addr)
    requires Inv(q) && t in q.threads && Holds(pc) == Holds(q.threads[t]) && q.tail == w && Follows(q, w, p)
      && p != NULL
    requires Local(Ticked(At(q, t, pc).(tail := Next(p, w))), pc)
    ensures Sound(q, t, Ticked(At(q, t, pc).(tail := Next(p, w))))
  {
    hide Local, ShapeOk, FreeOk, OwnersOk, HistoryOk, TimeOk, Evolves;
    var u := At(q, t, pc).(tail := Next(p, w));
    var q' := Ticked(u);
    Timed(q, u);
    TailShape(q, q', p);
    FreeKept(q, q');
    OwnersKept(q, t, q');
    HistoryKept(q, q');
    TailEvolves(q, t, q');
  }

  lemma TailShape(q: Queue, q': Queue, p: Addr)
    requires ShapeOk(q) && q.tail.ptr in q.nodes && q.nodes[q.tail.ptr].link.ptr == p && p != NULL
    requires q'.head == q.head && q'.chain == q.chain && q'.owner == q.owner && q'.nodes == q.nodes
      && q'.tail == Next(p, q.tail)
    ensures ShapeOk(q') && q'.tail.ptr in q.chain[1..]
  {
    var n := |q.chain|;
    assert n >= 2 && q.tail.ptr == q.chain[n - 2] && p == q.chain[n - 1];
    assert q.chain[1..][n - 2] == p;
  }

  lemma TailEvolves(q: Queue, t: nat, q': Queue)
    requires ShapeOk(q) && OwnersOk(q) && q'.head == q.head && q'.chain == q.chain && q'.owner == q.owner
      && q'.nodes == q.nodes && q'.free == q.free
    requires q'.tail.ptr in q.chain[1..] && Past(q.tail, q'.tail) && q.tail.ptr in q.nodes
      && q.nodes[q.tail.ptr].link.ptr != NULL
    requires q.clock <= q'.clock && q.empties <= q'.empties
    ensures Evolves(q, t, q')
  {
    hide Holds;
    LastIsLast(q);
  }

  /** Moving Head on: the second node becomes the dummy and its message is taken. */
  lemma HeadMoves(q: Queue, t: nat, q': Queue)
    requires t in q.threads && Known(q, q.threads[t]) && q' == Ticked(Running(q, t)) && Inv(q) && q.threads[t].GetCas?
      && q.head == q.threads[t].h
    ensures Sound(q, t, q')
  {
    hide ShapeOk, FreeOk, OwnersOk, HistoryOk, TimeOk, Evolves, Distinct;
    var pc := q.threads[t];
    assert Local(q, pc);
    SecondInChain(q, pc.began, pc.h, pc.next);
    HeadInChain(q);
    Timed(q, Running(q, t));
    HeadShape(q, q');
    FreeElsewhere(q, q', q.chain[0]);
    HeadOwners(q, t, q');
    HistoryTaken(q, q');
    HeadEvolves(q, t, q');
  }

  lemma HeadInChain(q: Queue)
    requires ShapeOk(q) && FreeOk(q)
    ensures q.chain[0] == q.head.ptr && q.chain[0] in q.owner && q.owner[q.chain[0]] == InChain
      && q.chain[0] !in q.flist
  {
    assert q.chain[0] in q.chain;
  }

  /** q' is q without its first node. */
  predicate Beheaded(q: Queue, q': Queue) {
    && |q.chain| >= 2 && q.chain[0] in q.owner && q.owner[q.chain[0]] == InChain && OnlyOwner(q, q', q.chain[0])
    && q'.nodes == q.nodes && q'.chain == q.chain[1..]
  }

  lemma HeadShape(q: Queue, q': Queue)
    requires ShapeOk(q) && Beheaded(q, q') && q'.head.ptr == q.chain[1] && q'.tail == q.tail && q.tail.ptr != q.chain[0]
    ensures ShapeOk(q')
  {
    var n := |q.chain|;
    assert forall i :: 0 <= i < n - 1 ==> q'.chain[i] == q.chain[i + 1];
    forall a <- q'.chain ensures a in q.chain && a != q.chain[0] {
      var i :| 0 <= i < n - 1 && q'.chain[i] == a;
    }
  }

  lemma FreeElsewhere(q: Queue, q': Queue, a: Addr)
    requires FreeOk(q) && a !in q.flist && OnlyOwner(q, q', a) && q'.nodes == q.nodes && q'.free == q.free
      && q'.flist == q.flist
    ensures FreeOk(q')
  {
    hide FreeList;
  }

  lemma HeadOwners(q: Queue, t: nat, q': Queue)
    requires OwnersOk(q) && Beheaded(q, q') && q'.owner[q.chain[0]] == Held(t) && t in q.threads
      && Holds(q.threads[t]) == {}
    requires t in q'.threads && q'.threads == q.threads[t := q'.threads[t]] && Holds(q'.threads[t]) == {q.chain[0]}
      && q'.flist == q.flist
    ensures OwnersOk(q')
  {
    hide Holds;
    forall b <- q'.owner | q'.owner[b] == InChain ensures b in q'.chain {
      var i :| 0 <= i < |q.chain| && q.chain[i] == b;
      assert i > 0 && q'.chain[i - 1] == b;
    }
    OwnersMoved(q, t, q', q.chain[0]);
  }

  lemma HistoryTaken(q: Queue, q': Queue)
    requires HistoryOk(q) && Beheaded(q, q') && q'.linked == q.linked && q'.taken == q.taken + [q.nodes[q.chain[1]].msg]
    ensures HistoryOk(q')
  {
    forall a <- q'.chain
      ensures a in q'.nodes
    {
      var i :| 0 <= i < |q'.chain| && q'.chain[i] == a;
      assert q.chain[i + 1] in q.chain;
    }
    assert Contents(q.nodes, q.chain) == [q.nodes[q.chain[1]].msg] + Contents(q'.nodes, q'.chain);
  }

  lemma HeadEvolves(q: Queue, t: nat, q': Queue)
    requires ShapeOk(q) && OwnersOk(q) && Beheaded(q, q') && Past(q.head, q'.head) && q'.tail == q.tail
      && q'.free == q.free
    requires q.clock <= q'.clock && q.empties <= q'.empties
    ensures Evolves(q, t, q')
  {
    hide Holds;
    LastIsLast(q);
  }

  lemma Allocated(q: Queue, step: Step)
    requires Inv(q) && step.Allocate? && Enabled(q, step)
    ensures Sound(q, step.t, Ticked(Effect(q, step)))
  {
    hide ShapeOk, FreeOk, OwnersOk, HistoryOk, TimeOk, Evolves, Distinct, Grown;
    var q' := Ticked(Effect(q, step));
    Timed(q, Effect(q, step));
    AllocateGrows(q, step, q');
    var more := step.memory.Keys;
    GrownShape(q, step.t, q', more);
    GrownFree(q, step.t, q', more);
    GrownHistory(q, step.t, q', more);
    GrownOwners(q, step.t, q', more);
    GrownEvolves(q, step.t, q', more);
  }

  lemma AllocateGrows(q: Queue, step: Step, q': Queue)
    requires Inv(q) && step.Allocate? && Enabled(q, step) && q' == Ticked(Effect(q, step))
    ensures Grown(q, step.t, q', step.memory.Keys)
  {
    hide ShapeOk, FreeOk, OwnersOk, HistoryOk, TimeOk;
    OwnerKeys(q);
  }

  lemma OwnerKeys(q: Queue)
    requires OwnersOk(q)
    ensures q.owner.Keys == q.nodes.Keys
  {
  }

  /** q' has more nodes than q, all in the hands of t. */
  predicate Grown(q: Queue, t: nat, q': Queue, more: set<Addr>) {
    && more !! q.nodes.Keys && NULL !in more && q.owner.Keys == q.nodes.Keys
       && q'.owner.Keys == q'.nodes.Keys == q.nodes.Keys + more
    && (forall a <- q.nodes :: q'.nodes[a] == q.nodes[a] && q'.owner[a] == q.owner[a])
       && (forall a <- more :: q'.owner[a] == Held(t))
    && q'.head == q.head && q'.tail == q.tail && q'.chain == q.chain && q'.free == q.free && q'.flist == q.flist
    && q'.linked == q.linked && q'.taken == q.taken && q.clock <= q'.clock && q.empties <= q'.empties
  }

  lemma GrownShape(q: Queue, t: nat, q': Queue, more: set<Addr>)
    requires ShapeOk(q) && Grown(q, t, q', more)
    ensures ShapeOk(q')
  {
  }

  lemma GrownFree(q: Queue, t: nat, q': Queue, more: set<Addr>)
    requires FreeOk(q) && Grown(q, t, q', more)
    ensures FreeOk(q')
  {
  }

  lemma GrownHistory(q: Queue, t: nat, q': Queue, more: set<Addr>)
    requires HistoryOk(q) && Grown(q, t, q', more)
    ensures HistoryOk(q')
  {
    assert Contents(q'.nodes, q'.chain) == Contents(q.nodes, q.chain);
  }

  lemma GrownOwners(q: Queue, t: nat, q': Queue, more: set<Addr>)
    requires OwnersOk(q) && Grown(q, t, q', more) && t in q.threads && t in q'.threads
      && q'.threads == q.threads[t := q'.threads[t]]
    requires Holds(q.threads[t]) == {} && Holds(q'.threads[t]) == more
    ensures OwnersOk(q')
  {
    hide Holds;
  }

  lemma GrownEvolves(q: Queue, t: nat, q': Queue, more: set<Addr>)
    requires ShapeOk(q) && OwnersOk(q) && Grown(q, t, q', more)
    ensures Evolves(q, t, q')
  {
    hide Holds;
    LastIsLast(q);
  }

  // ---------------------------------------------------------------- every step

  lemma RunPop(q: Queue, t: nat)
    requires Inv(q) && t in q.threads && Known(q, q.threads[t])
    requires var pc := q.threads[t]; pc.PopLoad? || pc.PopRead? || pc.PopCas?
    ensures Sound(q, t, Ticked(Running(q, t)))
  {
    hide ShapeOk, FreeOk, OwnersOk, HistoryOk, TimeOk, Evolves, Sound;
    var pc := q.threads[t];
    assert Local(q, pc);
    FreePtrKnown(q);
    match pc
    case PopLoad(msg) => Quiet(q, t, if q.free.ptr == NULL then Allocating(msg) else PopRead(msg, q.free));
    case PopRead(msg, h) => Quiet(q, t, PopCas(msg, h, q.nodes[h.ptr].msg.data));
    case PopCas(msg, h, next) => if q.free == h { PopTakes(q, t, Ticked(Running(q, t))); }
      else { Quiet(q, t, PopLoad(msg)); }
  }

  lemma RunPush(q: Queue, t: nat)
    requires Inv(q) && t in q.threads && Known(q, q.threads[t])
    requires var pc := q.threads[t]; pc.PushLoad? || pc.PushWrite? || pc.PushCas?
    ensures Sound(q, t, Ticked(Running(q, t)))
  {
    hide ShapeOk, FreeOk, OwnersOk, HistoryOk, TimeOk, Evolves, Sound;
    var pc := q.threads[t];
    assert Local(q, pc);
    match pc
    case PushLoad(node, after) => Quiet(q, t, PushWrite(node, q.free, after));
    case PushWrite(node, h, after) => Wrote(q, t, PushCas(node, h, after), node,
      q.nodes[node].(msg := q.nodes[node].msg.(data := h.ptr)));
    case PushCas(node, h, after) => if q.free == h { PushGives(q, t, Ticked(Running(q, t))); }
      else { Quiet(q, t, PushLoad(node, after)); }
  }

  lemma RunFill(q: Queue, t: nat)
    requires Inv(q) && t in q.threads && Known(q, q.threads[t])
    requires var pc := q.threads[t]; pc.FillMsg? || pc.FillLink?
    ensures Sound(q, t, Ticked(Running(q, t)))
  {
    hide ShapeOk, FreeOk, OwnersOk, HistoryOk, TimeOk, Evolves, Sound;
    var pc := q.threads[t];
    assert Local(q, pc);
    match pc
    case FillMsg(node, msg) => Wrote(q, t, FillLink(node, msg), node, q.nodes[node].(msg := msg));
    case FillLink(node, msg) => Wrote(q, t, PutTail(node, msg), node,
      q.nodes[node].(link := Next(NULL, q.nodes[node].link)));
  }

  lemma FreePtrKnown(q: Queue)
    requires FreeOk(q)
    ensures q.free.ptr == NULL || q.free.ptr in q.nodes
  {
    if q.flist != [] { assert q.flist[0] in q.flist; }
  }

  lemma EndsKnown(q: Queue)
    requires ShapeOk(q)
    ensures q.head.ptr in q.nodes && q.tail.ptr in q.nodes && NULL !in q.nodes && |q.chain| >= 1
  {
    assert q.chain[0] in q.chain && q.tail.ptr in q.chain;
  }

  lemma RunPut(q: Queue, t: nat)
    requires Inv(q) && t in q.threads && Known(q, q.threads[t])
    requires var pc := q.threads[t]; pc.PutTail? || pc.PutLink? || pc.PutCheck?
    ensures Sound(q, t, Ticked(Running(q, t)))
  {
    hide ShapeOk, FreeOk, OwnersOk, HistoryOk, TimeOk, Evolves, Sound;
    var pc := q.threads[t];
    assert Local(q, pc);
    EndsKnown(q);
    match pc
    case PutTail(node, msg) => Quiet(q, t, PutLink(node, msg, q.tail));
    case PutLink(node, msg, w) => Quiet(q, t, PutCheck(node, msg, w, q.nodes[w.ptr].link));
    case PutCheck(node, msg, w, l) =>
      if q.tail == w { TailIsLast(q); Quiet(q, t, PutCas(node, msg, w, l)); } else { Quiet(q, t, PutTail(node, msg)); }
  }

  lemma RunPutCas(q: Queue, t: nat)
    requires Inv(q) && t in q.threads && Known(q, q.threads[t]) && q.threads[t].PutCas?
    ensures Sound(q, t, Ticked(Running(q, t)))
  {
    hide ShapeOk, FreeOk, OwnersOk, HistoryOk, TimeOk, Evolves, Sound;
    var pc := q.threads[t];
    assert Local(q, pc);
    if pc.l.ptr == NULL && q.nodes[pc.t.ptr].link == pc.l { LinkAppends(q, t, Ticked(Running(q, t))); }
    else if pc.l.ptr != NULL && q.tail == pc.t { PutStays(q, t, pc.t, pc.l.ptr); }
    else { Quiet(q, t, PutTail(pc.node, pc.msg)); }
  }

  lemma RunPutSwing(q: Queue, t: nat)
    requires Inv(q) && t in q.threads && Known(q, q.threads[t]) && q.threads[t].PutSwing?
    ensures Sound(q, t, Ticked(Running(q, t)))
  {
    hide ShapeOk, FreeOk, OwnersOk, HistoryOk, TimeOk, Evolves, Sound;
    var pc := q.threads[t];
    assert Local(q, pc);
    if q.tail == pc.t { TailMoves(q, t, Idle, pc.t, pc.node); } else { SameTail(q, t, Idle); Quiet(q, t, Idle); }
  }

  lemma SameTail(q: Queue, t: nat, pc: Pc)
    ensures At(q, t, pc).(tail := q.tail) == At(q, t, pc)
  {
  }

  lemma PutStays(q: Queue, t: nat, w: Word, p: Addr)
    requires Inv(q) && t in q.threads && q.threads[t].PutCas? && q.tail == w && Follows(q, w, p) && p != NULL
    ensures Sound(q, t, Ticked(At(q, t, PutTail(q.threads[t].node, q.threads[t].msg)).(tail := Next(p, w))))
  {
    hide ShapeOk, FreeOk, OwnersOk, HistoryOk, TimeOk, Evolves, Sound;
    assert Local(q, q.threads[t]);
    TailMoves(q, t, PutTail(q.threads[t].node, q.threads[t].msg), w, p);
  }

  /** If Tail's node has no successor then it is the last one. */
  lemma TailIsLast(q: Queue)
    requires ShapeOk(q)
    ensures q.tail.ptr in q.nodes && (q.nodes[q.tail.ptr].link.ptr == NULL ==> q.tail.ptr == q.chain[|q.chain| - 1])
  {
    LastIsLast(q);
    assert q.tail.ptr in q.chain;
  }

  lemma RunGet(q: Queue, t: nat)
    requires Inv(q) && t in q.threads && Known(q, q.threads[t])
    requires var pc := q.threads[t]; pc.GetHead? || pc.GetTail?
    ensures Sound(q, t, Ticked(Running(q, t)))
  {
    hide ShapeOk, FreeOk, OwnersOk, HistoryOk, TimeOk, Evolves, Sound;
    var pc := q.threads[t];
    assert Local(q, pc);
    EndsKnown(q);
    match pc
    case GetHead(b) => Quiet(q, t, GetTail(b, q.head));
    case GetTail(b, h) => Quiet(q, t, GetLink(b, h, q.tail));
  }

  lemma RunLook(q: Queue, t: nat)
    requires Inv(q) && t in q.threads && Known(q, q.threads[t]) && q.threads[t].GetLink?
    ensures Sound(q, t, Ticked(Running(q, t)))
  {
    hide ShapeOk, FreeOk, OwnersOk, HistoryOk, TimeOk, Evolves, Sound;
    var pc := q.threads[t];
    LookedAt(q, t);
    hide Local;
    Quiet(q, t, GetCheck(pc.began, pc.h, pc.t, q.nodes[pc.h.ptr].link.ptr));
  }

  lemma RunHelp(q: Queue, t: nat)
    requires Inv(q) && t in q.threads && Known(q, q.threads[t]) && q.threads[t].GetHelp?
    ensures Sound(q, t, Ticked(Running(q, t)))
  {
    hide ShapeOk, FreeOk, OwnersOk, HistoryOk, TimeOk, Evolves, Sound;
    var pc := q.threads[t];
    assert Local(q, pc);
    var next := GetHead(pc.began);
    if q.tail == pc.t { TailMoves(q, t, next, pc.t, pc.next); } else { SameTail(q, t, next); Quiet(q, t, next); }
  }

  lemma RunTake(q: Queue, t: nat)
    requires Inv(q) && t in q.threads && Known(q, q.threads[t])
    requires var pc := q.threads[t]; pc.GetData? || pc.GetSize?
    ensures Sound(q, t, Ticked(Running(q, t)))
  {
    hide ShapeOk, FreeOk, OwnersOk, HistoryOk, TimeOk, Evolves, Sound;
    var pc := q.threads[t];
    assert Local(q, pc);
    match pc
    case GetData(b, h, next) => Quiet(q, t, GetSize(b, h, next, q.nodes[next].msg.data));
    case GetSize(b, h, next, d) => Quiet(q, t, GetCas(b, h, next, Msg(d, q.nodes[next].msg.size)));
  }

  lemma RunGetCas(q: Queue, t: nat)
    requires Inv(q) && t in q.threads && Known(q, q.threads[t])
    requires var pc := q.threads[t]; pc.GetCas? || pc.GotNothing?
    ensures Sound(q, t, Ticked(Running(q, t)))
  {
    hide ShapeOk, FreeOk, OwnersOk, HistoryOk, TimeOk, Evolves, Sound;
    var pc := q.threads[t];
    assert Local(q, pc);
    match pc
    case GetCas(b, h, next, msg) =>
      if q.head == h { HeadMoves(q, t, Ticked(Running(q, t))); } else { Quiet(q, t, GetHead(b)); }
    case GotNothing(_) => Quiet(q, t, Idle);
  }

  /** Reading NULL behind Head is seeing an empty queue. */
  lemma LookedAt(q: Queue, t: nat)
    requires Inv(q) && t in q.threads && q.threads[t].GetLink? && q.threads[t].h.ptr in q.nodes
    ensures var pc := q.threads[t]; var next := q.nodes[pc.h.ptr].link.ptr;
      Local(Ticked(At(q, t, GetCheck(pc.began, pc.h, pc.t, next))), GetCheck(pc.began, pc.h, pc.t, next))
  {
    hide FreeOk, OwnersOk, HistoryOk;
    var pc := q.threads[t];
    assert Local(q, pc);
    LastIsLast(q);
    if q.head == pc.h && q.nodes[pc.h.ptr].link.ptr == NULL {
      assert q.chain[0] in q.chain && |q.chain| == 1;
      assert q.clock in Ticked(At(q, t, pc)).empties;
    }
  }

  lemma Checked(q: Queue, t: nat, q': Queue)
    requires t in q.threads && Known(q, q.threads[t]) && q' == Ticked(Running(q, t)) && Inv(q) && q.threads[t].GetCheck?
    ensures Sound(q, t, q')
  {
    hide FreeOk, OwnersOk, HistoryOk, TimeOk, Evolves, Sound;
    var pc := q.threads[t];
    assert Local(q, pc);
    if q.head != pc.h { Quiet(q, t, GetHead(pc.began)); }
    else if pc.h.ptr != pc.t.ptr { SuccessorKnown(q); Quiet(q, t, GetData(pc.began, pc.h, pc.next)); }
    else if pc.next == NULL { SawLater(q, t, pc.began); Quiet(q, t, GotNothing(pc.began)); }
    else { Quiet(q, t, GetHelp(pc.began, pc.t, pc.next)); }
  }

  lemma SuccessorKnown(q: Queue)
    requires ShapeOk(q)
    ensures q.head.ptr in q.nodes && (q.nodes[q.head.ptr].link.ptr == NULL || q.nodes[q.head.ptr].link.ptr in q.nodes)
  {
    assert q.chain[0] in q.chain;
    if |q.chain| >= 2 { assert q.chain[1] in q.chain; }
  }

  lemma SawLater(q: Queue, t: nat, b: nat)
    requires SawEmpty(q, b)
    ensures SawEmpty(Ticked(At(q, t, GotNothing(b))), b)
  {
    var k :| k in q.empties && b <= k <= q.clock;
    assert k in Ticked(At(q, t, GotNothing(b))).empties;
  }

  lemma RunSound(q: Queue, t: nat)
    requires Inv(q) && t in q.threads && Known(q, q.threads[t])
    requires var pc := q.threads[t]; !pc.Idle? && !pc.Allocating? && !pc.Spreading?
    ensures Sound(q, t, Ticked(Running(q, t)))
  {
    hide Inv, Known, Running, Sound;
    var pc := q.threads[t];
    if pc.PopLoad? || pc.PopRead? || pc.PopCas? { RunPop(q, t); }
    else if pc.PushLoad? || pc.PushWrite? || pc.PushCas? { RunPush(q, t); }
    else if pc.FillMsg? || pc.FillLink? { RunFill(q, t); }
    else if pc.PutTail? || pc.PutLink? || pc.PutCheck? { RunPut(q, t); }
    else if pc.PutCas? { RunPutCas(q, t); }
    else if pc.PutSwing? { RunPutSwing(q, t); }
    else if pc.GetHelp? { RunHelp(q, t); }
    else if pc.GetLink? { RunLook(q, t); }
    else if pc.GetCheck? { Checked(q, t, Ticked(Running(q, t))); }
    else if pc.GetData? || pc.GetSize? { RunTake(q, t); }
    else if pc.GetCas? || pc.GotNothing? { RunGetCas(q, t); }
    else { RunGet(q, t); }
  }

  lemma StepKeeps(q: Queue, step: Step, q': Queue)
    requires Inv(q) && Moves(q, step, q')
    ensures Inv(q')
  {
    hide ShapeOk, FreeOk, OwnersOk, HistoryOk, TimeOk, Evolves, Sound, LocalsOk;
    var t := step.t;
    var pc := q.threads[t];
    match step {
      case StartPut(_, msg) => Quiet(q, t, PopLoad(msg));
      case StartGet(_) => Quiet(q, t, GetHead(q.clock));
      case Allocate(_, _, _, _) => Allocated(q, step);
      case Refuse(_) => Quiet(q, t, Idle);
      case Spare(_, node) =>
        Knows(q, t);
        assert Holds(PushLoad(node, Keep(pc.msg, pc.node, pc.rest - {node}))) == Holds(pc);
        Quiet(q, t, PushLoad(node, Keep(pc.msg, pc.node, pc.rest - {node})));
      case Run(_) =>
        if pc.Spreading? { assert Holds(FillMsg(pc.node, pc.msg)) == Holds(pc); Quiet(q, t, FillMsg(pc.node, pc.msg)); }
        else { RunSound(q, t); }
    }
    Preserved(q, t, q');
  }

  lemma Knows(q: Queue, t: nat)
    requires Inv(q) && t in q.threads
    ensures Local(q, q.threads[t])
  {
  }
}
