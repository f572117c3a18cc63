/** What every reachable state of the queue machine satisfies. */
module QueueInvariant {
  import FL = FreeListMachine
  import opened QueueMachine

  // ----- calls into the free list, seen from outside -----

  predicate InPop(f: FL.Pc) {
    match f
    case PopTop | PopCount(_) | PopRef(_, _) | PopNext(_) | PopSwap(_, _) | Popped(_) | Empty => true
    case RelSub(_, k) => k != FL.Return
    case RelTop(_, k) => k != FL.Return
    case RelNext(_, _, k) => k != FL.Return
    case RelSwap(_, _, k) => k != FL.Return
    case RelReset(_, k) => k != FL.Return
    case _ => false
  }

  predicate InRelease(f: FL.Pc) {
    match f
    case Idle => true
    case RelSub(_, k) => k == FL.Return
    case RelTop(_, k) => k == FL.Return
    case RelNext(_, _, k) => k == FL.Return
    case RelSwap(_, _, k) => k == FL.Return
    case RelReset(_, k) => k == FL.Return
    case _ => false
  }

  predicate InPush(f: FL.Pc) { InRelease(f) || f.PushFreed? || f.PushSub? }

  predicate HeldByNone(f: FL.State, u: nat) { forall t :: 0 <= t < |f.threads| ==> f.threads[t].held != u }

  /** What one step of a call of thread t can do to node u. */
  predicate CallAt(f: FL.State, f': FL.State, t: nat, u: nat)
    requires t < |f.threads| && u < |f.nodes| == |f.place| == |f'.nodes| == |f'.place|
  {
    var was, now := f.nodes[u].freed, f'.nodes[u].freed;
    || (f'.place[u] == f.place[u] && (now == was || (f.threads[t].pc == FL.PushFreed(u) && now)))
    || (f.threads[t].pc == FL.PushSub(u) && f'.place[u] == FL.Awaiting && now == was)
    || (f.place[u] == FL.Awaiting && f'.place[u] == FL.Listed && now == was && HeldByNone(f, u))
    || (f.place[u] == FL.Listed && f'.place[u] == FL.Owned(FL.By(t)) && now == was)
  }

  /** How a call's position moves on. */
  predicate CallOn(f: FL.Pc, f': FL.Pc) {
    && (InPop(f) ==> InPop(f'))
    && (InRelease(f) ==> InRelease(f'))
    && (InPush(f) ==> InPush(f'))
    && (f.PushFreed? ==> f' == FL.PushSub(f.u))
    && (f'.PushSub? ==> f == FL.PushFreed(f'.u))
    && !f'.PushFreed?
  }

  /** One step of a call of thread t. */
  predicate CallFrame(f: FL.State, f': FL.State, t: nat) {
    && t < |f.threads| == |f'.threads| && |f.nodes| == |f.place| == |f'.nodes| == |f'.place|
    && f'.threads == f.threads[t := FL.Thread(f'.threads[t].pc, f.threads[t].held)]
    && (forall u :: 0 <= u < |f.nodes| ==> CallAt(f, f', t, u))
    && (forall u :: 0 <= u < |f.nodes| && f.threads[t].pc == FL.PushSub(u) ==> f'.place[u] == FL.Awaiting)
    && (forall u :: 0 <= u < |f.nodes| && f.threads[t].pc == FL.PushFreed(u) ==> f'.nodes[u].freed)
    && CallOn(f.threads[t].pc, f'.threads[t].pc)
  }

  lemma CallStepPc(f: FL.State, t: nat, ok: bool)
    requires FL.Inv(f) && t < |f.threads| && FL.Enabled(f, t, FL.Internal(ok))
    ensures var f' := FL.Advance(f, t, ok);
      && |f'.threads| == |f.threads|
      && f'.threads == f.threads[t := FL.Thread(f'.threads[t].pc, f.threads[t].held)]
      && CallOn(f.threads[t].pc, f'.threads[t].pc)
  {
    assert FL.Fits(f, t);
  }

  lemma CallStepAt(f: FL.State, t: nat, ok: bool, u: nat)
    requires FL.Inv(f) && t < |f.threads| && FL.Enabled(f, t, FL.Internal(ok)) && u < |f.nodes|
    ensures |FL.Advance(f, t, ok).place| == |FL.Advance(f, t, ok).nodes| == |f.nodes|
    ensures CallAt(f, FL.Advance(f, t, ok), t, u)
  {
    assert FL.Fits(f, t);
    var pc := f.threads[t].pc;
    if pc.RelSwap? && pc.u == u {
      FL.InserterIsAlone(f, t, u);
      forall t' | 0 <= t' < |f.threads| ensures f.threads[t'].held != u {
        FL.CountPositive(f.threads, t', u);
      }
    } else if pc.PopSwap? && pc.u == u && ok {
      FL.PopInstallsSuccessor(f, t);
    }
  }

  lemma CallStep(f: FL.State, t: nat, ok: bool)
    requires FL.Inv(f) && t < |f.threads| && FL.Enabled(f, t, FL.Internal(ok))
    ensures CallFrame(f, FL.Apply(f, t, FL.Internal(ok)), t)
  {
    CallStepPc(f, t, ok);
    CallStepPush(f, t, ok);
    forall u | 0 <= u < |f.nodes| ensures CallAt(f, FL.Advance(f, t, ok), t, u) {
      CallStepAt(f, t, ok, u);
    }
  }

  lemma CallStepPush(f: FL.State, t: nat, ok: bool)
    requires FL.Ids(f) && t < |f.threads| && FL.Enabled(f, t, FL.Internal(ok))
    ensures var f', pc := FL.Advance(f, t, ok), f.threads[t].pc;
      && |f'.nodes| == |f'.place| == |f.nodes|
      && (pc.PushSub? ==> f'.place[pc.u] == FL.Awaiting) && (pc.PushFreed? ==> f'.nodes[pc.u].freed)
  {
  }

  // ----- the queue's own invariant -----

  /** The block whose reference p holds at this program counter. */
  function HeldAt(pc: Pc): int {
    match pc
    case EnqFreed(_, t) => t
    case EnqLeave(_, t, _) => t
    case _ => SeenAt(pc)
  }

  /** The block p holds and has seen unfreed since. */
  function SeenAt(pc: Pc): int {
    match pc
    case EnqIndex(_, t) => t
    case EnqNext(_, t) => t
    case EnqPop(_, t) => t
    case EnqHead0(_, t, _) => t
    case EnqTail0(_, t, _) => t
    case EnqNext0(_, t, _) => t
    case EnqLink(_, t, _) => t
    case EnqPush(_, t) => t
    case EnqSetTail(_, t, _) => t
    case EnqUnfree(_, t, _) => t
    case EnqReserve(_, t, _) => t
    case EnqWrite(_, t, _) => t
    case EnqPublish(_, t, _) => t
    case _ => NIL
  }

  /** The block p popped and is preparing. */
  function OwnAt(pc: Pc): int {
    match pc
    case EnqHead0(_, _, n) => n
    case EnqTail0(_, _, n) => n
    case EnqNext0(_, _, n) => n
    case EnqLink(_, _, n) => n
    case RewHead0(_, _, n) => n
    case RewTail0(_, _, n) => n
    case RewNext0(_, _, n) => n
    case RewLink(_, _, n) => n
    case _ => NIL
  }

  /** The producer found the tail block full. */
  predicate SawFull(pc: Pc) {
    match pc
    case EnqNext(_, _) | EnqPop(_, _) | EnqHead0(_, _, _) | EnqTail0(_, _, _) => true
    case EnqNext0(_, _, _) | EnqLink(_, _, _) => true
    case _ => false
  }

  /** Where the free-list call of a thread at this program counter can stand. */
  predicate CallMatches(pc: Pc, f: FL.Pc) {
    match pc
    case EnqPop(_, _) | RewPop(_, _) => InPop(f)
    case EnqPush(_, _) | DeqPushing => InPush(f)
    case EnqRelease(_, _) => InRelease(f)
    case EnqLeave(_, _, _) => FL.AtRest(f)
    case _ => if OwnAt(pc) != NIL then f.Popped? && f.u == OwnAt(pc) else f.Idle?
  }

  /** Each thread has its role, holds what its program counter says and stands in the right call. */
  predicate ThreadOk(s: State, p: nat)
    requires Ids(s) && p < |s.pcs|
  {
    && (s.pcs[p] != Idle ==> (Consuming(s.pcs[p]) <==> p == 0))
    && s.fl.threads[p].held == HeldAt(s.pcs[p])
    && CallMatches(s.pcs[p], s.fl.threads[p].pc)
  }

  /** The blocks from head along next. */
  predicate ChainOk(s: State)
    requires Ids(s)
  {
    && s.chain != [] && s.head == s.chain[0]
    && (forall i :: 0 <= i < |s.chain| ==> s.chain[i] < |s.blocks|)
    && (forall i, j :: 0 <= i < j < |s.chain| ==> s.chain[i] != s.chain[j])
    && (forall u :: 0 <= u < |s.blocks| ==> (u in s.chain <==> s.fl.place[u] == FL.Owned(FL.Shared)))
    && (forall i :: 0 <= i < |s.chain| ==> LinkOk(s, i))
  }

  /** Non-tail blocks are full and linked, non-head blocks have head 0. */
  predicate LinkOk(s: State, i: nat)
    requires i < |s.chain| && s.chain[i] < |s.blocks|
  {
    var b := s.blocks[s.chain[i]];
    && b.head <= b.tail <= SIZE
    && (i > 0 ==> b.head == 0)
    && (if i + 1 < |s.chain| then b.tail == SIZE && b.next == s.chain[i + 1] else b.next == NIL)
  }

  /** At most one producer is between linking a block and opening it; otherwise tail is the last block. */
  predicate LinkerOk(s: State)
    requires Ids(s) && s.chain != [] && Last(s.chain) < |s.blocks|
  {
    var l := Last(s.chain);
    && NIL <= s.linker < |s.pcs| && s.linker != 0
    && (forall p :: 0 <= p < |s.pcs| && (s.pcs[p].EnqSetTail? || s.pcs[p].EnqUnfree?) ==> s.linker == p)
    && (s.linker == NIL ==> s.tail == l && !s.fl.nodes[l].freed)
    && (s.linker != NIL ==>
          && s.fl.nodes[l].freed
          && (s.pcs[s.linker].EnqSetTail? || s.pcs[s.linker].EnqUnfree?)
          && s.pcs[s.linker].n == l && s.tail == (if s.pcs[s.linker].EnqSetTail? then s.pcs[s.linker].t else l))
  }

  /** The block p has a pointer to, held or not. */
  function PtrAt(pc: Pc): int {
    match pc
    case EnqCount(_, t) => t
    case EnqRef(_, t, _) => t
    case _ => HeldAt(pc)
  }

  /** No producer has, or can load, a pointer to u. */
  predicate Unseen(s: State, u: nat) {
    u != s.tail && forall p :: 0 <= p < |s.pcs| ==> PtrAt(s.pcs[p]) != u
  }

  /** The free flag: set on every block outside the chain that a producer could mistake for an open one. */
  predicate FreedOk(s: State, u: nat)
    requires Ids(s) && u < |s.blocks|
  {
    s.fl.nodes[u].freed || match s.fl.place[u]
                           case Listed => false
                           case Awaiting => false
                           case Owned(Shared) => true
                           case Owned(By(p)) => p == 0 && (RetiringUnfreed(s, u) || Unseen(s, u))
  }

  predicate RetiringUnfreed(s: State, u: nat)
    requires Ids(s) && u < |s.blocks|
  {
    && (s.pcs[0] == DeqPush(u) || s.fl.threads[0].pc == FL.PushFreed(u))
    && s.blocks[u].tail == SIZE && s.blocks[u].next != NIL
  }

  /** The consumer has taken u out of the chain and not yet dropped it. */
  predicate Retiring(s: State, u: nat)
    requires Ids(s)
  {
    s.pcs[0] == DeqPush(u) || s.fl.threads[0].pc == FL.PushFreed(u) || s.fl.threads[0].pc == FL.PushSub(u)
  }

  /** u is in the chain, or is a full linked block on its way to the list that cannot yet be reused. */
  predicate StillThere(s: State, u: nat)
    requires Ids(s) && u < |s.blocks|
  {
    if u in s.chain then u == Last(s.chain) ==> s.linker == NIL
    else
      && s.blocks[u].tail == SIZE && s.blocks[u].next != NIL
      && (s.fl.place[u] == FL.Awaiting || (s.fl.place[u] == FL.Owned(FL.By(0)) && Retiring(s, u)))
  }

  /** What producer p knows. */
  predicate ProducerOk(s: State, p: nat)
    requires Ids(s) && p < |s.pcs|
  {
    var pc := s.pcs[p];
    && (SeenAt(pc) != NIL ==> StillThere(s, SeenAt(pc)))
    && (SawFull(pc) ==> s.blocks[SeenAt(pc)].tail == SIZE)
    && (p > 0 ==>
          && (pc.EnqTail0? || pc.EnqNext0? || pc.EnqLink? ==> s.blocks[pc.n].head == 0)
          && (pc.EnqNext0? || pc.EnqLink? ==> s.blocks[pc.n].tail == 0)
          && (pc.EnqLink? ==> s.blocks[pc.n].next == NIL)
          && (pc.EnqWrite? || pc.EnqPublish? ==>
                && pc.t in s.chain
                && pc.i in s.blocks[pc.t].writer && s.blocks[pc.t].writer[pc.i] == p))
  }

  /** The slot the consumer is handling outside the range head..tail. */
  function ConsumerSlot(pc: Pc): (int, int) {
    match pc
    case DeqWait(h, i) => (h, i)
    case DeqRead(h, i) => (h, i)
    case DeqClear(h, i, _) => (h, i)
    case RewStore(_, h, i) => (h, i)
    case _ => (NIL, NIL)
  }

  /** What the consumer knows. */
  predicate ConsumerOk(s: State)
    requires Ids(s)
  {
    match s.pcs[0]
    case DeqIndex(h) => h == s.head
    case DeqTail(h, i) => h == s.head && s.blocks[h].head == i
    case DeqNext(h) => h == s.head && s.blocks[h].head == s.blocks[h].tail == SIZE
    case DeqMove(h, n) => h == s.head && s.blocks[h].head == s.blocks[h].tail == SIZE && s.blocks[h].next == n
    case DeqPush(h) =>
      && s.fl.place[h] == FL.Owned(FL.By(0)) && s.blocks[h].tail == SIZE && s.blocks[h].next != NIL
    case DeqBump(h, i) => h == s.head && s.blocks[h].head == i < s.blocks[h].tail
    case DeqWait(h, i) => h == s.head && s.blocks[h].head == i + 1
    case DeqRead(h, i) => h == s.head && s.blocks[h].head == i + 1 && i in s.blocks[h].avail
    case DeqClear(h, i, e) =>
      h == s.head && s.blocks[h].head == i + 1 && i in s.blocks[h].avail && e == Val(s.blocks[h], i)
    case RewIndex(_, h) => h == s.head
    case RewPop(_, h) => h == s.head && s.blocks[h].head == 0
    case RewHead0(_, h, n) => h == s.head && s.blocks[h].head == 0
    case RewTail0(_, h, n) => h == s.head && s.blocks[h].head == 0 && s.blocks[n].head == SIZE
    case RewNext0(_, h, n) =>
      h == s.head && s.blocks[h].head == 0 && s.blocks[n].head == s.blocks[n].tail == SIZE
    case RewLink(_, h, n) =>
      h == s.head && s.blocks[h].head == 0 && s.blocks[n].head == s.blocks[n].tail == SIZE && s.blocks[n].next == h
    case RewTop(_) => s.blocks[s.head].head > 0
    case RewSlot(_, h) => h == s.head && s.blocks[h].head > 0
    case RewWrite(_, h, i) => h == s.head && s.blocks[h].head == i + 1
    case RewPublish(e, h, i) =>
      h == s.head && s.blocks[h].head == i + 1 && i in s.blocks[h].elem && s.blocks[h].elem[i] == e
    case RewStore(e, h, i) =>
      h == s.head && s.blocks[h].head == i + 1 && i in s.blocks[h].avail && Val(s.blocks[h], i) == e
    case _ => true
  }

  predicate Live(s: State, u: nat, i: nat)
    requires Ids(s) && u < |s.blocks|
  {
    u in s.chain && (s.blocks[u].head <= i < s.blocks[u].tail || ConsumerSlot(s.pcs[0]) == (u, i))
  }

  /** The producer still filling slot i of u. */
  predicate WriterOk(s: State, u: nat, i: nat)
    requires Ids(s) && u < |s.blocks| && i in s.blocks[u].writer && i in s.blocks[u].res
  {
    var b := s.blocks[u];
    var p := b.writer[i];
    && 0 < p < |s.pcs|
    && (s.pcs[p] == EnqWrite(b.res[i], u, i)
        || (s.pcs[p] == EnqPublish(b.res[i], u, i) && i in b.elem && b.elem[i] == b.res[i]))
  }

  /** A reserved slot is either published with its element or being filled by one producer; others are clear. */
  predicate SlotOk(s: State, u: nat, i: nat)
    requires Ids(s) && u < |s.blocks|
  {
    var b := s.blocks[u];
    if Live(s, u, i) then
      && i in b.res
      && (i in b.avail <==> i !in b.writer)
      && (i in b.avail ==> i in b.elem && b.elem[i] == b.res[i])
      && (i in b.writer ==> WriterOk(s, u, i))
    else i !in b.avail && i !in b.writer
  }

  // ----- contents and history -----

  /** The elements reserved in slots lo up to hi. */
  function Vals(b: Block, lo: nat, hi: nat): seq<Elem> {
    if lo >= hi then [] else Vals(b, lo, hi - 1) + [Val(b, hi - 1)]
  }

  function Slice(b: Block): seq<Elem> { Vals(b, b.head, b.tail) }

  /** The queued elements, front first. */
  function Contents(blocks: seq<Block>, chain: seq<nat>): seq<Elem>
    requires forall i :: 0 <= i < |chain| ==> chain[i] < |blocks|
  {
    if chain == [] then [] else Slice(blocks[chain[0]]) + Contents(blocks, chain[1..])
  }

  datatype Deque = Broken | Holding(q: seq<Elem>)

  /** A double-ended sequence: the specification of the queue. */
  function ApplyEvent(d: Deque, ev: Event): Deque {
    if d.Broken? then Broken
    else match ev
         case Accept(e) => Holding(d.q + [e])
         case Take(e) => if d.q != [] && d.q[0] == e then Holding(d.q[1..]) else Broken
         case Miss => if d.q == [] then d else Broken
         case Back(e) => Holding([e] + d.q)
  }

  function Replay(hist: seq<Event>): Deque {
    if hist == [] then Holding([]) else ApplyEvent(Replay(hist[..|hist| - 1]), hist[|hist| - 1])
  }

  function Takes(hist: seq<Event>): seq<Elem> {
    if hist == [] then []
    else Takes(hist[..|hist| - 1]) + (if hist[|hist| - 1].Take? then [hist[|hist| - 1].e] else [])
  }

  /** What try_dequeue handed out is what it took, but for the element it is waiting for. */
  predicate GotOk(s: State)
    requires Ids(s)
  {
    match s.pcs[0]
    case DeqWait(h, i) => Takes(s.hist) == s.got + [Val(s.blocks[h], i)]
    case DeqRead(h, i) => Takes(s.hist) == s.got + [Val(s.blocks[h], i)]
    case DeqClear(h, i, _) => Takes(s.hist) == s.got + [Val(s.blocks[h], i)]
    case _ => Takes(s.hist) == s.got
  }

  predicate Structure(s: State) {
    && Ids(s)
    && FL.Inv(s.fl)
    && ChainOk(s)
    && LinkerOk(s)
    && ConsumerOk(s)
    && (forall p :: 0 <= p < |s.pcs| ==> ThreadOk(s, p))
    && (forall p :: 0 <= p < |s.pcs| ==> ProducerOk(s, p))
    && (forall u :: 0 <= u < |s.blocks| ==> FreedOk(s, u))
    && (forall u :: 0 <= u < |s.blocks| && s.fl.threads[0].pc == FL.PushSub(u) ==> s.fl.nodes[u].freed)
  }

  ghost predicate Inv(s: State) {
    && Structure(s)
    && (forall u, i: nat :: 0 <= u < |s.blocks| ==> SlotOk(s, u, i))
    && s.q == Contents(s.blocks, s.chain)
    && Replay(s.hist) == Holding(s.q)
    && GotOk(s)
  }
}
