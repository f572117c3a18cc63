/**
 * The bounded multi-producer single-consumer queue (MPMCQueue::_enqueue, MPSCQueue::try_dequeue and
 * MPSCQueue::rewind in include/salticidae/queue.h) as a step machine on top of the free list.
 *
 * Thread 0 is the consumer; every other thread is a producer.  Each atomic access is one step, calls
 * into the free list advance by that machine's own steps, and a weak compare-exchange may fail
 * spuriously.  Producers run in bounded mode: `unbounded` is false, so a failed pop rejects.
 *
 * Auxiliary state, written by steps and read by none: `chain`, `linker`, `q`, `hist` and `got` of the
 * queue and `res` and `writer` of a block.
 */
module QueueMachine {
  import FL = FreeListMachine

  const SIZE: nat := 4096
  const NIL: int := FL.NIL

  /** Elements are never inspected, only moved: an integer names one. */
  type Elem = int

  /**
   * A block: its indices, its link, its slots and the set of slots whose avail flag is set.
   * `res` records the element each reserved slot is for, `writer` the producer still filling it.
   */
  datatype Block = Block(head: nat, tail: nat, next: int, elem: map<nat, Elem>, avail: set<nat>,
                         res: map<nat, Elem>, writer: map<nat, nat>)

  datatype Outcome = Again | Done(accepted: bool)

  datatype Pc =
    | Idle
      // _enqueue
    | EnqTail(e: Elem)                            // load tail
    | EnqCount(e: Elem, t: nat)                   // load t->refcnt
    | EnqRef(e: Elem, t: nat, cnt: nat)           // CAS t->refcnt
    | EnqFreed(e: Elem, t: nat)                   // load t->freed
    | EnqIndex(e: Elem, t: nat)                   // load t->tail
    | EnqNext(e: Elem, t: nat)                    // load t->next, and call pop when it is null
    | EnqPop(e: Elem, t: nat)                     // inside pop
    | EnqHead0(e: Elem, t: nat, n: nat)           // store nblk->head
    | EnqTail0(e: Elem, t: nat, n: nat)           // store nblk->tail
    | EnqNext0(e: Elem, t: nat, n: nat)           // store nblk->next
    | EnqLink(e: Elem, t: nat, n: nat)            // CAS t->next
    | EnqPush(e: Elem, t: nat)                    // inside push of a block that lost the race
    | EnqSetTail(e: Elem, t: nat, n: nat)         // store tail
    | EnqUnfree(e: Elem, t: nat, n: nat)          // store nblk->freed
    | EnqReserve(e: Elem, t: nat, i: nat)         // CAS t->tail
    | EnqWrite(e: Elem, t: nat, i: nat)           // construct t->elem[i]
    | EnqPublish(e: Elem, t: nat, i: nat)         // store t->avail[i]
    | EnqLeave(e: Elem, t: nat, out: Outcome)     // call release_ref
    | EnqRelease(e: Elem, out: Outcome)           // inside release_ref
      // try_dequeue
    | DeqHead                                     // load head
    | DeqIndex(h: nat)                            // load h->head
    | DeqTail(h: nat, i: nat)                     // load h->tail
    | DeqNext(h: nat)                             // load h->next
    | DeqMove(h: nat, n: nat)                     // store head
    | DeqPush(h: nat)                             // call push
    | DeqPushing                                  // inside push
    | DeqBump(h: nat, i: nat)                     // store h->head
    | DeqWait(h: nat, i: nat)                     // load h->avail[i] until it is set
    | DeqRead(h: nat, i: nat)                     // move h->elem[i] out
    | DeqClear(h: nat, i: nat, e: Elem)           // clear h->avail[i] and return
      // rewind
    | RewHead(e: Elem)                            // load head
    | RewIndex(e: Elem, h: nat)                   // load h->head, and call pop when it is 0
    | RewPop(e: Elem, h: nat)                     // inside pop, or new Block()
    | RewHead0(e: Elem, h: nat, n: nat)           // store nblk->head
    | RewTail0(e: Elem, h: nat, n: nat)           // store nblk->tail
    | RewNext0(e: Elem, h: nat, n: nat)           // store nblk->next
    | RewLink(e: Elem, h: nat, n: nat)            // store head
    | RewTop(e: Elem)                             // load head
    | RewSlot(e: Elem, h: nat)                    // load h->head
    | RewWrite(e: Elem, h: nat, i: nat)           // construct h->elem[i]
    | RewPublish(e: Elem, h: nat, i: nat)         // set h->avail[i]
    | RewStore(e: Elem, h: nat, i: nat)           // store h->head and return

  /** The points at which an operation takes effect. */
  datatype Event =
    | Accept(e: Elem)  // a producer's successful compare-exchange on a block's tail
    | Take(e: Elem)    // the consumer advances past a slot
    | Miss             // try_dequeue finds nothing
    | Back(e: Elem)    // rewind makes its slot the front

  datatype State = State(fl: FL.State, blocks: seq<Block>, head: nat, tail: nat, pcs: seq<Pc>,
                         chain: seq<nat>, linker: int, q: seq<Elem>, hist: seq<Event>, got: seq<Elem>)

  datatype Choice =
    | Step(ok: bool)      // the next step of the operation in progress; ok is a CAS's outcome
    | Enqueue(e: Elem)
    | Dequeue
    | Rewind(e: Elem)

  // ----- steps -----

  function Last(chain: seq<nat>): int { if chain == [] then NIL else chain[|chain| - 1] }

  predicate Consuming(pc: Pc) {
    match pc
    case DeqHead | DeqIndex(_) | DeqTail(_, _) | DeqNext(_) | DeqMove(_, _) | DeqPush(_) | DeqPushing => true
    case DeqBump(_, _) | DeqWait(_, _) | DeqRead(_, _) | DeqClear(_, _, _) => true
    case RewHead(_) | RewIndex(_, _) | RewPop(_, _) | RewHead0(_, _, _) | RewTail0(_, _, _) => true
    case RewNext0(_, _, _) | RewLink(_, _, _) | RewTop(_) | RewSlot(_, _) | RewWrite(_, _, _) => true
    case RewPublish(_, _, _) | RewStore(_, _, _) => true
    case _ => false
  }

  predicate InCall(pc: Pc) {
    pc.EnqPop? || pc.EnqPush? || pc.EnqRelease? || pc.DeqPushing? || pc.RewPop?
  }

  /** Blocks named by a program counter. */
  predicate PcIds(n: nat, pc: Pc) {
    match pc
    case Idle | EnqTail(_) | EnqRelease(_, _) | DeqHead | DeqPushing | RewHead(_) | RewTop(_) => true
    case EnqCount(_, t) => t < n
    case EnqRef(_, t, cnt) => t < n && cnt > 0
    case EnqFreed(_, t) => t < n
    case EnqIndex(_, t) => t < n
    case EnqNext(_, t) => t < n
    case EnqPop(_, t) => t < n
    case EnqHead0(_, t, m) => t < n && m < n
    case EnqTail0(_, t, m) => t < n && m < n
    case EnqNext0(_, t, m) => t < n && m < n
    case EnqLink(_, t, m) => t < n && m < n
    case EnqPush(_, t) => t < n
    case EnqSetTail(_, t, m) => t < n && m < n
    case EnqUnfree(_, t, m) => t < n && m < n
    case EnqReserve(_, t, i) => t < n && i < SIZE
    case EnqWrite(_, t, i) => t < n && i < SIZE
    case EnqPublish(_, t, i) => t < n && i < SIZE
    case EnqLeave(_, t, _) => t < n
    case DeqIndex(h) => h < n
    case DeqTail(h, _) => h < n
    case DeqNext(h) => h < n
    case DeqMove(h, m) => h < n && m < n
    case DeqPush(h) => h < n
    case DeqBump(h, _) => h < n
    case DeqWait(h, _) => h < n
    case DeqRead(h, _) => h < n
    case DeqClear(h, _, _) => h < n
    case RewIndex(_, h) => h < n
    case RewPop(_, h) => h < n
    case RewHead0(_, h, m) => h < n && m < n
    case RewTail0(_, h, m) => h < n && m < n
    case RewNext0(_, h, m) => h < n && m < n
    case RewLink(_, h, m) => h < n && m < n
    case RewSlot(_, h) => h < n
    case RewWrite(_, h, _) => h < n
    case RewPublish(_, h, _) => h < n
    case RewStore(_, h, _) => h < n
  }

  /** Every pointer denotes a block, and every block is a node of the free list. */
  predicate Ids(s: State) {
    && FL.Ids(s.fl)
    && |s.blocks| == |s.fl.nodes|
    && 0 < |s.pcs| == |s.fl.threads|
    && s.head < |s.blocks| && s.tail < |s.blocks|
    && (forall p :: 0 <= p < |s.pcs| ==> PcIds(|s.blocks|, s.pcs[p]))
    && (forall u :: 0 <= u < |s.blocks| ==> NIL <= s.blocks[u].next < |s.blocks|)
  }

  /** The compare-exchange at p's program counter finds what it expects. */
  predicate CasMatches(s: State, p: nat)
    requires Ids(s) && p < |s.pcs|
  {
    match s.pcs[p]
    case EnqRef(_, t, cnt) => s.fl.nodes[t].refcnt == cnt
    case EnqLink(_, t, _) => s.blocks[t].next == NIL
    case EnqReserve(_, t, i) => s.blocks[t].tail == i
    case pc => InCall(pc) ==> FL.CasMatches(s.fl, s.fl.threads[p].pc)
  }

  /** What the code allows next: the guard reads no auxiliary state. */
  predicate Enabled(s: State, p: nat, c: Choice)
    requires Ids(s) && p < |s.pcs|
  {
    match c
    case Step(ok) => s.pcs[p] != Idle && (ok ==> CasMatches(s, p))
    case Enqueue(_) => s.pcs[p] == Idle && p > 0
    case Dequeue => s.pcs[p] == Idle && p == 0
    case Rewind(_) => s.pcs[p] == Idle && p == 0
  }

  /** The free-list action, if any, that a producer's step performs. */
  function EnqCall(s: State, p: nat, ok: bool): (r: seq<FL.Act>)
    requires Ids(s) && p < |s.pcs|
    ensures |r| <= 1
  {
    var f := s.fl.threads[p].pc;
    match s.pcs[p]
    case EnqRef(_, t, cnt) => if ok then [FL.Acquire(t, cnt)] else []
    case EnqNext(_, t) => if s.blocks[t].next == NIL then [FL.BeginPop] else []
    case EnqPop(_, _) => if FL.AtRest(f) then [] else [FL.Internal(ok)]
    case EnqLink(_, _, n) => if ok then [FL.Give(n)] else [FL.BeginPush(n)]
    case EnqPush(_, _) => if FL.AtRest(f) then [] else [FL.Internal(ok)]
    case EnqUnfree(_, _, n) => [FL.Unfree(n)]
    case EnqLeave(_, _, _) => [FL.Drop]
    case EnqRelease(_, _) => if FL.AtRest(f) then [] else [FL.Internal(ok)]
    case _ => []
  }

  /** The free-list action, if any, that the consumer's step performs. */
  function ConCall(s: State, ok: bool): (r: seq<FL.Act>)
    requires Ids(s)
    ensures |r| <= 1
  {
    var f := s.fl.threads[0].pc;
    match s.pcs[0]
    case DeqMove(h, _) => [FL.Take(h)]
    case DeqPush(h) => [FL.BeginPush(h)]
    case DeqPushing => if FL.AtRest(f) then [] else [FL.Internal(ok)]
    case RewIndex(_, h) => if s.blocks[h].head == 0 then [FL.BeginPop] else []
    case RewPop(_, _) => if f.Popped? then [] else if FL.AtRest(f) then [FL.Alloc] else [FL.Internal(ok)]
    case RewLink(_, _, n) => [FL.Give(n)]
    case _ => []
  }

  function Goto(s: State, p: nat, pc: Pc): State
    requires p < |s.pcs|
  {
    s.(pcs := s.pcs[p := pc])
  }

  function SetBlock(s: State, u: nat, b: Block): State
    requires u < |s.blocks|
  {
    s.(blocks := s.blocks[u := b])
  }

  const FRESH_BLOCK := Block(0, 0, NIL, map[], {}, map[], map[])

  /** The element slot i of b is reserved for. */
  function Val(b: Block, i: nat): Elem { if i in b.res then b.res[i] else 0 }

  /** Everything a producer's step does outside the free list. */
  function EnqEffect(s: State, p: nat, ok: bool): State
    requires Ids(s) && p < |s.pcs|
  {
    var f := s.fl.threads[p].pc;
    match s.pcs[p]
    case EnqTail(e) => Goto(s, p, EnqCount(e, s.tail))
    case EnqCount(e, t) =>
      Goto(s, p, if s.fl.nodes[t].refcnt == 0 then EnqTail(e) else EnqRef(e, t, s.fl.nodes[t].refcnt))
    case EnqRef(e, t, _) => Goto(s, p, if ok then EnqFreed(e, t) else EnqTail(e))
    case EnqFreed(e, t) => Goto(s, p, if s.fl.nodes[t].freed then EnqLeave(e, t, Again) else EnqIndex(e, t))
    case EnqIndex(e, t) =>
      Goto(s, p, if s.blocks[t].tail >= SIZE then EnqNext(e, t) else EnqReserve(e, t, s.blocks[t].tail))
    case EnqNext(e, t) => Goto(s, p, if s.blocks[t].next == NIL then EnqPop(e, t) else EnqLeave(e, t, Again))
    case EnqPop(e, t) =>
      if f.Popped? then Goto(s, p, EnqHead0(e, t, f.u))
      else if f.Empty? then Goto(s, p, EnqLeave(e, t, Done(false)))
      else s
    case EnqHead0(e, t, n) => Goto(SetBlock(s, n, s.blocks[n].(head := 0)), p, EnqTail0(e, t, n))
    case EnqTail0(e, t, n) => Goto(SetBlock(s, n, s.blocks[n].(tail := 0)), p, EnqNext0(e, t, n))
    case EnqNext0(e, t, n) => Goto(SetBlock(s, n, s.blocks[n].(next := NIL)), p, EnqLink(e, t, n))
    case EnqLink(e, t, n) =>
      if ok then
        var s1 := SetBlock(s, t, s.blocks[t].(next := n));
        Goto(s1.(chain := s.chain + [n], linker := p), p, EnqSetTail(e, t, n))
      else Goto(s, p, EnqPush(e, t))
    case EnqPush(e, t) => if FL.AtRest(f) then Goto(s, p, EnqLeave(e, t, Again)) else s
    case EnqSetTail(e, t, n) => Goto(s.(tail := n), p, EnqUnfree(e, t, n))
    case EnqUnfree(e, t, _) => Goto(s.(linker := NIL), p, EnqLeave(e, t, Again))
    case EnqReserve(e, t, i) =>
      if ok then
        var b := s.blocks[t];
        var s1 := SetBlock(s, t, b.(tail := i + 1, res := b.res[i := e], writer := b.writer[i := p]));
        Goto(s1.(q := s.q + [e], hist := s.hist + [Accept(e)]), p, EnqWrite(e, t, i))
      else Goto(s, p, EnqLeave(e, t, Again))
    case EnqWrite(e, t, i) =>
      Goto(SetBlock(s, t, s.blocks[t].(elem := s.blocks[t].elem[i := e])), p, EnqPublish(e, t, i))
    case EnqPublish(e, t, i) =>
      var b := s.blocks[t];
      Goto(SetBlock(s, t, b.(avail := b.avail + {i}, writer := b.writer - {i})), p, EnqLeave(e, t, Done(true)))
    case EnqLeave(e, _, out) => Goto(s, p, EnqRelease(e, out))
    case EnqRelease(e, out) => if FL.AtRest(f) then Goto(s, p, if out == Again then EnqTail(e) else Idle) else s
    case _ => s
  }

  /** Everything the consumer's step does outside the free list. */
  function ConEffect(s: State): State
    requires Ids(s)
  {
    var f := s.fl.threads[0].pc;
    match s.pcs[0]
    case DeqHead => Goto(s, 0, DeqIndex(s.head))
    case DeqIndex(h) => Goto(s, 0, DeqTail(h, s.blocks[h].head))
    case DeqTail(h, i) =>
      var t := s.blocks[h].tail;
      if i < t then Goto(s, 0, DeqBump(h, i))
      else if t < SIZE then Goto(s.(hist := s.hist + [Miss]), 0, Idle)
      else Goto(s, 0, DeqNext(h))
    case DeqNext(h) =>
      if s.blocks[h].next == NIL then Goto(s.(hist := s.hist + [Miss]), 0, Idle)
      else Goto(s, 0, DeqMove(h, s.blocks[h].next))
    case DeqMove(h, n) =>
      Goto(s.(head := n, chain := if s.chain == [] then [] else s.chain[1..]), 0, DeqPush(h))
    case DeqPush(_) => Goto(s, 0, DeqPushing)
    case DeqPushing => if FL.AtRest(f) then Goto(s, 0, DeqHead) else s
    case DeqBump(h, i) =>
      var s1 := SetBlock(s, h, s.blocks[h].(head := i + 1));
      Goto(s1.(q := if s.q == [] then [] else s.q[1..], hist := s.hist + [Take(Val(s.blocks[h], i))]), 0, DeqWait(h, i))
    case DeqWait(h, i) => if i in s.blocks[h].avail then Goto(s, 0, DeqRead(h, i)) else s
    case DeqRead(h, i) =>
      if i in s.blocks[h].elem then Goto(s, 0, DeqClear(h, i, s.blocks[h].elem[i])) else s
    case DeqClear(h, i, e) =>
      var b := s.blocks[h];
      Goto(SetBlock(s, h, b.(avail := b.avail - {i})).(got := s.got + [e]), 0, Idle)
    case RewHead(e) => Goto(s, 0, RewIndex(e, s.head))
    case RewIndex(e, h) => Goto(s, 0, if s.blocks[h].head == 0 then RewPop(e, h) else RewTop(e))
    case RewPop(e, h) =>
      if f.Popped? then Goto(s, 0, RewHead0(e, h, f.u))
      else if FL.AtRest(f) then s.(blocks := s.blocks + [FRESH_BLOCK])
      else s
    case RewHead0(e, h, n) => Goto(SetBlock(s, n, s.blocks[n].(head := SIZE)), 0, RewTail0(e, h, n))
    case RewTail0(e, h, n) => Goto(SetBlock(s, n, s.blocks[n].(tail := SIZE)), 0, RewNext0(e, h, n))
    case RewNext0(e, h, n) => Goto(SetBlock(s, n, s.blocks[n].(next := h)), 0, RewLink(e, h, n))
    case RewLink(e, _, n) => Goto(s.(head := n, chain := [n] + s.chain), 0, RewTop(e))
    case RewTop(e) => Goto(s, 0, RewSlot(e, s.head))
    case RewSlot(e, h) =>
      Goto(s, 0, RewWrite(e, h, if s.blocks[h].head == 0 then 0 else s.blocks[h].head - 1))
    case RewWrite(e, h, i) =>
      Goto(SetBlock(s, h, s.blocks[h].(elem := s.blocks[h].elem[i := e])), 0, RewPublish(e, h, i))
    case RewPublish(e, h, i) =>
      var b := s.blocks[h];
      Goto(SetBlock(s, h, b.(avail := b.avail + {i}, res := b.res[i := e])), 0, RewStore(e, h, i))
    case RewStore(e, h, i) =>
      var s1 := SetBlock(s, h, s.blocks[h].(head := i));
      Goto(s1.(q := [e] + s.q, hist := s.hist + [Back(e)]), 0, Idle)
    case _ => s
  }

  function Effect(s: State, p: nat, c: Choice): State
    requires Ids(s) && p < |s.pcs|
  {
    match c
    case Step(ok) => if p == 0 then ConEffect(s) else EnqEffect(s, p, ok)
    case Enqueue(e) => Goto(s, p, EnqTail(e))
    case Dequeue => Goto(s, p, DeqHead)
    case Rewind(e) => Goto(s, p, RewHead(e))
  }

  /** The free list after the step. */
  ghost predicate CallDone(s: State, p: nat, c: Choice, fl': FL.State)
    requires Ids(s) && p < |s.pcs|
  {
    var call := if !c.Step? then [] else if p == 0 then ConCall(s, c.ok) else EnqCall(s, p, c.ok);
    if call == [] then fl' == s.fl
    else FL.Enabled(s.fl, p, call[0]) && fl' == FL.Apply(s.fl, p, call[0])
  }

  ghost predicate Next(s: State, p: nat, c: Choice, s': State) {
    && Ids(s) && p < |s.pcs| && Enabled(s, p, c)
    && CallDone(s, p, c, s'.fl)
    && s' == Effect(s, p, c).(fl := s'.fl)
  }
}
