/**
 * A run of the bounded queue with one spare block in which a producer is refused while the queue is empty: another
 * producer has popped the spare block and not linked it yet.
 *
 * While block 0 is the only one in the chain, what the threads do next depends only on a few fields of the state.
 */
module QueueRefusal {
  import FL = FreeListMachine
  import opened QueueMachine
  import opened QueueInvariant
  import opened QueueProof
  import opened QueueSlots
  import opened QueueTheorems
  import opened QueueSafety

  // ----- reachable states, seen through the fields that matter -----

  ghost predicate Reached(s: State) {
    exists states, labels :: IsRun(states, labels, 1) && states[|labels|] == s
  }

  lemma ReachedInv(s: State)
    requires Reached(s)
    ensures Inv(s)
  {
    var states, labels :| IsRun(states, labels, 1) && states[|labels|] == s;
    RunInv(states, labels, 1, |labels|);
  }

  lemma ReachedNext(s: State, p: nat, c: Choice, s': State)
    requires Reached(s) && Next(s, p, c, s')
    ensures Reached(s')
  {
    var states, labels :| IsRun(states, labels, 1) && states[|labels|] == s;
    var states', labels' := states + [s'], labels + [Label(p, c)];
    forall i | 0 <= i < |labels'| ensures Next(states'[i], labels'[i].p, labels'[i].c, states'[i + 1]) {
      if i < |labels| { assert Next(states[i], labels[i].p, labels[i].c, states[i + 1]); }
    }
    assert IsRun(states', labels', 1) && states'[|labels'|] == s';
  }

  /** The head and tail of block 0, the threads, and the free list. */
  datatype View = View(h: nat, t: nat, pcs: seq<Pc>, fl: FL.State)

  predicate Shows(s: State, v: View) {
    && |s.blocks| == 2 && s.head == 0 && s.tail == 0
    && s.blocks[0].head == v.h && s.blocks[0].tail == v.t && s.blocks[0].next == NIL
    && s.pcs == v.pcs && s.fl == v.fl
  }

  ghost predicate Seen(v: View) { exists s :: Reached(s) && Shows(s, v) }

  predicate CasSeen(v: View, p: nat)
    requires p < |v.pcs| == |v.fl.threads| && |v.fl.nodes| == 2 && FL.Ids(v.fl)
  {
    match v.pcs[p]
    case EnqRef(_, t, cnt) => t == 0 && v.fl.nodes[0].refcnt == cnt
    case EnqReserve(_, t, i) => t == 0 && v.t == i
    case EnqLink(_, _, _) => false
    case pc => InCall(pc) ==> FL.CasMatches(v.fl, v.fl.threads[p].pc)
  }

  predicate CanDo(v: View, p: nat, c: Choice) {
    && p < |v.pcs| == |v.fl.threads| && |v.fl.nodes| == 2 && FL.Ids(v.fl)
    && match c
       case Step(ok) => v.pcs[p] != Idle && (ok ==> CasSeen(v, p))
       case Enqueue(_) => v.pcs[p] == Idle && p > 0
       case Dequeue => v.pcs[p] == Idle && p == 0
       case Rewind(_) => v.pcs[p] == Idle && p == 0
  }

  /** A step that the view allows is taken in some reachable state that shows it. */
  lemma Take(v: View, p: nat, c: Choice) returns (s: State, s': State)
    requires Seen(v) && CanDo(v, p, c)
    ensures Reached(s) && Shows(s, v) && Next(s, p, c, s') && Reached(s')
  {
    s :| Reached(s) && Shows(s, v);
    ReachedInv(s);
    s' := EveryStepIsTaken(s, p, c);
    ReachedNext(s, p, c, s');
  }

  function At(v: View, p: nat, pc: Pc): View
    requires p < |v.pcs|
  {
    v.(pcs := v.pcs[p := pc])
  }

  // ----- producers -----

  lemma Begins(v: View, p: nat, e: Elem)
    requires Seen(v) && CanDo(v, p, Enqueue(e))
    ensures Seen(At(v, p, EnqTail(e)))
  {
    var s, s' := Take(v, p, Enqueue(e));
    assert Shows(s', At(v, p, EnqTail(e)));
  }

  /** A producer's step that leaves the free list alone. */
  predicate Moves(v: View, p: nat, v': View)
    requires CanDo(v, p, Step(true))
  {
    match v.pcs[p]
    case EnqTail(e) => v' == At(v, p, EnqCount(e, 0))
    case EnqCount(e, t) => t == 0 && v.fl.nodes[0].refcnt > 0 && v' == At(v, p, EnqRef(e, 0, v.fl.nodes[0].refcnt))
    case EnqFreed(e, t) => t == 0 && !v.fl.nodes[0].freed && v' == At(v, p, EnqIndex(e, 0))
    case EnqIndex(e, t) => t == 0 && v' == At(v, p, if v.t >= SIZE then EnqNext(e, 0) else EnqReserve(e, 0, v.t))
    case EnqReserve(e, t, i) => v' == At(v, p, EnqWrite(e, 0, i)).(t := i + 1)
    case EnqWrite(e, t, i) => t == 0 && v' == At(v, p, EnqPublish(e, 0, i))
    case EnqPublish(e, t, i) => t == 0 && v' == At(v, p, EnqLeave(e, 0, Done(true)))
    case _ => false
  }

  lemma Moved(v: View, p: nat, v': View)
    requires Seen(v) && p > 0 && CanDo(v, p, Step(true)) && Moves(v, p, v')
    ensures Seen(v')
  {
    var s, s' := Take(v, p, Step(true));
    assert Shows(s', v');
  }

  /** A producer's step that acts on the free list, or returns from it. */
  predicate Calls(v: View, p: nat, pc: Pc, a: FL.Act)
    requires CanDo(v, p, Step(true))
  {
    var f := v.fl.threads[p].pc;
    match v.pcs[p]
    case EnqRef(e, t, cnt) => pc == EnqFreed(e, 0) && a == FL.Acquire(0, cnt)
    case EnqLeave(e, t, out) => t == 0 && pc == EnqRelease(e, out) && a == FL.Drop
    case EnqRelease(e, out) => !FL.AtRest(f) && pc == v.pcs[p] && a == FL.Internal(true)
    case EnqNext(e, t) => t == 0 && pc == EnqPop(e, 0) && a == FL.BeginPop
    case EnqPop(e, t) => !FL.AtRest(f) && pc == v.pcs[p] && a == FL.Internal(true)
    case _ => false
  }

  lemma Called(v: View, p: nat, pc: Pc, a: FL.Act, f: FL.State)
    requires Seen(v) && p > 0 && CanDo(v, p, Step(true)) && Calls(v, p, pc, a)
    requires FL.Enabled(v.fl, p, a) && f == FL.Apply(v.fl, p, a)
    ensures Seen(At(v, p, pc).(fl := f))
  {
    var s, s' := Take(v, p, Step(true));
    assert Shows(s', At(v, p, pc).(fl := f));
  }

  /** A call into the free list has returned. */
  lemma Returned(v: View, p: nat, pc: Pc)
    requires Seen(v) && p > 0 && CanDo(v, p, Step(true))
    requires var f := v.fl.threads[p].pc;
      match v.pcs[p]
      case EnqRelease(e, out) => f.Idle? && out != Again && pc == Idle
      case EnqPop(e, t) =>
        (f.Popped? && pc == EnqHead0(e, t, f.u)) || (f.Empty? && pc == EnqLeave(e, t, Done(false)))
      case _ => false
    ensures Seen(At(v, p, pc))
  {
    var s, s' := Take(v, p, Step(true));
    assert Shows(s', At(v, p, pc));
  }

  // ----- the consumer -----

  /** The consumer's steps up to its claim of the front slot. */
  predicate Consumes(v: View, v': View)
    requires |v.pcs| > 0
  {
    match v.pcs[0]
    case DeqHead => v' == At(v, 0, DeqIndex(0))
    case DeqIndex(h) => h == 0 && v' == At(v, 0, DeqTail(0, v.h))
    case DeqTail(h, i) => h == 0 && i < v.t && v' == At(v, 0, DeqBump(0, i))
    case DeqBump(h, i) => h == 0 && v' == At(v, 0, DeqWait(0, i)).(h := i + 1)
    case _ => false
  }

  lemma Consumed(v: View, v': View)
    requires Seen(v) && CanDo(v, 0, Step(true)) && Consumes(v, v')
    ensures Seen(v')
  {
    var s, s' := Take(v, 0, Step(true));
    assert Shows(s', v');
  }

  lemma Asks(v: View)
    requires Seen(v) && CanDo(v, 0, Dequeue)
    ensures Seen(At(v, 0, DeqHead))
  {
    var s, s' := Take(v, 0, Dequeue);
    assert Shows(s', At(v, 0, DeqHead));
  }

  /** No producer is filling a slot. */
  predicate NobodyFills(v: View) { forall p :: 0 <= p < |v.pcs| ==> !v.pcs[p].EnqWrite? && !v.pcs[p].EnqPublish? }

  /** A claimed slot that nobody fills is published. */
  lemma Published(s: State, v: View)
    requires Inv(s) && Shows(s, v) && NobodyFills(v) && ConsumerSlot(s.pcs[0]) == (0, v.h - 1) && v.h > 0
    ensures v.h - 1 in s.blocks[0].avail && v.h - 1 in s.blocks[0].elem
  {
    assert s.head in s.chain;
    assert SlotOk(s, 0, v.h - 1);
  }

  lemma Waited(v: View)
    requires Seen(v) && CanDo(v, 0, Step(true)) && NobodyFills(v) && v.h > 0 && v.pcs[0] == DeqWait(0, v.h - 1)
    ensures Seen(At(v, 0, DeqRead(0, v.h - 1)))
  {
    var s, s' := Take(v, 0, Step(true));
    assert v.h - 1 in s.blocks[0].avail by {
      ReachedInv(s);
      Published(s, v);
    }
    assert Shows(s', At(v, 0, DeqRead(0, v.h - 1)));
  }

  lemma Read(v: View) returns (e: Elem)
    requires Seen(v) && CanDo(v, 0, Step(true)) && NobodyFills(v) && v.h > 0 && v.pcs[0] == DeqRead(0, v.h - 1)
    ensures Seen(At(v, 0, DeqClear(0, v.h - 1, e)))
  {
    var s, s' := Take(v, 0, Step(true));
    assert v.h - 1 in s.blocks[0].elem by {
      ReachedInv(s);
      Published(s, v);
    }
    e := s.blocks[0].elem[v.h - 1];
    assert Shows(s', At(v, 0, DeqClear(0, v.h - 1, e)));
  }

  lemma Cleared(v: View)
    requires Seen(v) && CanDo(v, 0, Step(true)) && v.pcs[0].DeqClear? && v.pcs[0].h == 0
    ensures Seen(At(v, 0, Idle))
  {
    var s, s' := Take(v, 0, Step(true));
    assert Shows(s', At(v, 0, Idle));
  }

  // ----- the run -----

  lemma SeenIds(v: View)
    requires Seen(v)
    ensures |v.pcs| == |v.fl.threads| > 0 && |v.fl.nodes| == |v.fl.place| == 2 && FL.Ids(v.fl)
  {
    var s :| Reached(s) && Shows(s, v);
    ReachedInv(s);
  }

  /** Thread p takes a reference on block 0. */
  function Hold(f: FL.State, p: nat): FL.State
    requires p < |f.threads| && |f.nodes| == 2
  {
    f.(nodes := f.nodes[0 := f.nodes[0].(refcnt := f.nodes[0].refcnt + 1)],
        threads := f.threads[p := FL.Thread(FL.Idle, 0)])
  }

  predicate Out(v: View, p: nat) {
    && 0 < p < |v.pcs| == |v.fl.threads| && |v.fl.nodes| == 2
    && v.pcs[p] == Idle && v.fl.threads[p] == FL.Thread(FL.Idle, NIL) && v.fl.nodes[0].refcnt > 0
    && !v.fl.nodes[0].freed
  }

  /** A producer gets hold of block 0 and finds it open. */
  lemma Enter(v: View, p: nat)
    requires Seen(v) && Out(v, p)
    ensures Seen(At(v, p, EnqIndex(0, 0)).(fl := Hold(v.fl, p)))
  {
    SeenIds(v);
    var cnt := v.fl.nodes[0].refcnt;
    Begins(v, p, 0);
    Moved(At(v, p, EnqTail(0)), p, At(v, p, EnqCount(0, 0)));
    Moved(At(v, p, EnqCount(0, 0)), p, At(v, p, EnqRef(0, 0, cnt)));
    EnterHeld(v, p);
  }

  lemma EnterHeld(v: View, p: nat)
    requires 0 < p < |v.pcs| && |v.fl.nodes| == 2 && Seen(At(v, p, EnqRef(0, 0, v.fl.nodes[0].refcnt)))
    requires Out(v, p)
    ensures Seen(At(v, p, EnqIndex(0, 0)).(fl := Hold(v.fl, p)))
  {
    var cnt := v.fl.nodes[0].refcnt;
    var w := At(v, p, EnqRef(0, 0, cnt));
    SeenIds(w);
    Called(w, p, EnqFreed(0, 0), FL.Acquire(0, cnt), Hold(v.fl, p));
    var x := At(v, p, EnqFreed(0, 0)).(fl := Hold(v.fl, p));
    assert At(w, p, EnqFreed(0, 0)).(fl := Hold(v.fl, p)) == x;
    SeenIds(x);
    Moved(x, p, At(x, p, EnqIndex(0, 0)));
    assert At(x, p, EnqIndex(0, 0)) == At(v, p, EnqIndex(0, 0)).(fl := Hold(v.fl, p));
  }

  const IDLE := FL.Thread(FL.Idle, NIL)

  /** Block 1 is on the list, block 0 has r references, and producer 1 stands at x. */
  function Spare(x: FL.Thread, r: nat): FL.State {
    FL.State(1, [FL.Node(NIL, r, false), FL.Node(NIL, 1, true)], [IDLE, x, IDLE], [1], [FL.Owned(FL.Shared), FL.Listed])
  }

  /** Producer 1 has filled i slots. */
  function Filled(i: nat): View { View(0, i, [Idle, Idle, Idle], Spare(IDLE, 1)) }

  /** It is at pc of the next call, holding block 0. */
  function Filling(i: nat, pc: Pc): View { View(0, i, [Idle, pc, Idle], Spare(FL.Thread(FL.Idle, 0), 2)) }

  lemma FillEnter(i: nat)
    requires Seen(Filled(i))
    ensures Seen(Filling(i, EnqIndex(0, 0)))
  {
    Enter(Filled(i), 1);
    assert At(Filled(i), 1, EnqIndex(0, 0)).(fl := Hold(Filled(i).fl, 1)) == Filling(i, EnqIndex(0, 0));
  }

  lemma FillIndex(i: nat)
    requires Seen(Filling(i, EnqIndex(0, 0)))
    ensures Seen(Filling(i, if i >= SIZE then EnqNext(0, 0) else EnqReserve(0, 0, i)))
  {
    var v := Filling(i, EnqIndex(0, 0));
    SeenIds(v);
    Moved(v, 1, Filling(i, if i >= SIZE then EnqNext(0, 0) else EnqReserve(0, 0, i)));
  }

  /** Leaving the call, at x with r references on block 0. */
  function Leaving(i: nat, x: FL.Thread, r: nat): View {
    View(0, i, [Idle, EnqRelease(0, Done(true)), Idle], Spare(x, r))
  }

  lemma FillDrop(i: nat)
    requires Seen(Filling(i, EnqLeave(0, 0, Done(true))))
    ensures Seen(Leaving(i, FL.Thread(FL.RelSub(0, FL.Return), NIL), 2))
  {
    var v, v' := Filling(i, EnqLeave(0, 0, Done(true))), Leaving(i, FL.Thread(FL.RelSub(0, FL.Return), NIL), 2);
    SeenIds(v);
    Called(v, 1, EnqRelease(0, Done(true)), FL.Drop, v'.fl);
    assert At(v, 1, EnqRelease(0, Done(true))).(fl := v'.fl) == v';
  }

  lemma FillRelease(i: nat)
    requires Seen(Leaving(i, FL.Thread(FL.RelSub(0, FL.Return), NIL), 2))
    ensures Seen(Leaving(i, IDLE, 1))
  {
    var v, v' := Leaving(i, FL.Thread(FL.RelSub(0, FL.Return), NIL), 2), Leaving(i, IDLE, 1);
    SeenIds(v);
    Called(v, 1, EnqRelease(0, Done(true)), FL.Internal(true), v'.fl);
    assert At(v, 1, EnqRelease(0, Done(true))).(fl := v'.fl) == v';
  }

  lemma FillClaim(i: nat)
    requires Seen(Filling(i, EnqIndex(0, 0))) && i < SIZE
    ensures Seen(Filling(i + 1, EnqWrite(0, 0, i)))
  {
    FillIndex(i);
    var v := Filling(i, EnqReserve(0, 0, i));
    SeenIds(v);
    Moved(v, 1, Filling(i + 1, EnqWrite(0, 0, i)));
  }

  lemma FillSlot(i: nat)
    requires Seen(Filling(i + 1, EnqWrite(0, 0, i)))
    ensures Seen(Filling(i + 1, EnqLeave(0, 0, Done(true))))
  {
    var v := Filling(i + 1, EnqWrite(0, 0, i));
    SeenIds(v);
    Moved(v, 1, Filling(i + 1, EnqPublish(0, 0, i)));
    var w := Filling(i + 1, EnqPublish(0, 0, i));
    SeenIds(w);
    Moved(w, 1, Filling(i + 1, EnqLeave(0, 0, Done(true))));
  }

  lemma FillLeave(i: nat)
    requires Seen(Filling(i, EnqLeave(0, 0, Done(true))))
    ensures Seen(Filled(i))
  {
    FillDrop(i);
    FillRelease(i);
    var v := Leaving(i, IDLE, 1);
    SeenIds(v);
    Returned(v, 1, Idle);
    assert At(v, 1, Idle) == Filled(i);
  }

  /** Producer 1 fills block 0. */
  lemma {:induction false} Fill(i: nat)
    requires i <= SIZE
    ensures Seen(Filled(i))
  {
    if i == 0 {
      FillStart();
    } else {
      Fill(i - 1);
      FillEnter(i - 1);
      FillClaim(i - 1);
      FillSlot(i - 1);
      FillLeave(i);
    }
  }

  lemma FillStart()
    ensures Seen(Filled(0))
  {
    var s := State(Spare(IDLE, 1), [FRESH_BLOCK, FRESH_BLOCK], 0, 0, [Idle, Idle, Idle], [0], NIL, [], [], []);
    assert Init(s, 1);
    var labels: seq<Label> := [];
    assert IsRun([s], labels, 1) && [s][|labels|] == s;
    assert Shows(s, Filled(0));
  }

  // ----- producer 1 pops the spare block -----

  /** Inside pop at x, with block 1 as given. */
  function Popping(f: FL.Pc, r: nat, listed: bool): View {
    View(0, SIZE, [Idle, EnqPop(0, 0), Idle],
         FL.State(if listed then 1 else NIL, [FL.Node(NIL, 2, false), FL.Node(NIL, r, true)],
             [IDLE, FL.Thread(f, 0), IDLE],
                  if listed then [1] else [], [FL.Owned(FL.Shared), if listed then FL.Listed else FL.Owned(FL.By(1))]))
  }

  lemma PopMove(v: View, v': View)
    requires Seen(v) && v.pcs == [Idle, EnqPop(0, 0), Idle] && v' == v.(fl := v'.fl)
    requires FL.Ids(v.fl) && |v.fl.threads| == 3 && |v.fl.nodes| == 2 && FL.Enabled(v.fl, 1, FL.Internal(true))
    requires v'.fl == FL.Apply(v.fl, 1, FL.Internal(true))
    ensures Seen(v')
  {
    Called(v, 1, EnqPop(0, 0), FL.Internal(true), v'.fl);
    assert At(v, 1, EnqPop(0, 0)).(fl := v'.fl) == v';
  }

  lemma PopBegins()
    ensures Seen(Popping(FL.PopTop, 1, true))
  {
    Fill(SIZE);
    FillEnter(SIZE);
    FillIndex(SIZE);
    var v, v' := Filling(SIZE, EnqNext(0, 0)), Popping(FL.PopTop, 1, true);
    SeenIds(v);
    Called(v, 1, EnqPop(0, 0), FL.BeginPop, v'.fl);
    assert At(v, 1, EnqPop(0, 0)).(fl := v'.fl) == v';
  }

  lemma PopLoads()
    ensures Seen(Popping(FL.PopRef(1, 1), 1, true))
  {
    PopBegins();
    SeenIds(Popping(FL.PopTop, 1, true));
    PopMove(Popping(FL.PopTop, 1, true), Popping(FL.PopCount(1), 1, true));
    SeenIds(Popping(FL.PopCount(1), 1, true));
    PopMove(Popping(FL.PopCount(1), 1, true), Popping(FL.PopRef(1, 1), 1, true));
  }

  lemma PopRefs()
    ensures Seen(Popping(FL.PopSwap(1, NIL), 2, true))
  {
    PopLoads();
    SeenIds(Popping(FL.PopRef(1, 1), 1, true));
    PopMove(Popping(FL.PopRef(1, 1), 1, true), Popping(FL.PopNext(1), 2, true));
    SeenIds(Popping(FL.PopNext(1), 2, true));
    PopMove(Popping(FL.PopNext(1), 2, true), Popping(FL.PopSwap(1, NIL), 2, true));
  }

  lemma PopEnds()
    ensures Seen(Popping(FL.Popped(1), 1, false))
  {
    PopRefs();
    SeenIds(Popping(FL.PopSwap(1, NIL), 2, true));
    PopMove(Popping(FL.PopSwap(1, NIL), 2, true), Popping(FL.RelSub(1, FL.Got), 2, false));
    SeenIds(Popping(FL.RelSub(1, FL.Got), 2, false));
    PopMove(Popping(FL.RelSub(1, FL.Got), 2, false), Popping(FL.Popped(1), 1, false));
  }

  /** Producer 1 has the spare block in hand, producer 2 is at pc, and the consumer at c has taken h elements. */
  function InHand(h: nat, c: Pc): View {
    Popping(FL.Popped(1), 1, false).(h := h, pcs := [c, EnqHead0(0, 0, 1), Idle])
  }

  lemma Takes0()
    ensures Seen(InHand(0, Idle))
  {
    PopEnds();
    var v := Popping(FL.Popped(1), 1, false);
    PopReturns(v);
    assert At(v, 1, EnqHead0(0, 0, 1)).pcs == InHand(0, Idle).pcs;
  }

  lemma PopReturns(v: View)
    requires Seen(v) && |v.pcs| == 3 && v.pcs[1] == EnqPop(0, 0)
    requires |v.fl.threads| == 3 && v.fl.threads[1].pc == FL.Popped(1)
    ensures Seen(At(v, 1, EnqHead0(0, 0, 1)))
  {
    SeenIds(v);
    Returned(v, 1, EnqHead0(0, 0, 1));
  }

  lemma DrainMove(h: nat, c: Pc, h': nat, c': Pc)
    requires Seen(InHand(h, c)) && c != Idle && !InCall(c) && !c.EnqRef? && !c.EnqReserve? && !c.EnqLink?
    requires Consumes(InHand(h, c), InHand(h', c'))
    ensures Seen(InHand(h', c'))
  {
    SeenIds(InHand(h, c));
    Consumed(InHand(h, c), InHand(h', c'));
  }

  lemma DrainLooks(h: nat)
    requires Seen(InHand(h, Idle))
    ensures Seen(InHand(h, DeqIndex(0)))
  {
    SeenIds(InHand(h, Idle));
    Asks(InHand(h, Idle));
    assert At(InHand(h, Idle), 0, DeqHead) == InHand(h, DeqHead);
    DrainMove(h, DeqHead, h, DeqIndex(0));
  }

  lemma DrainIndexes(h: nat)
    requires Seen(InHand(h, DeqIndex(0)))
    ensures Seen(InHand(h, DeqTail(0, h)))
  {
    DrainMove(h, DeqIndex(0), h, DeqTail(0, h));
  }

  lemma DrainFinds(h: nat)
    requires Seen(InHand(h, DeqTail(0, h))) && h < SIZE
    ensures Seen(InHand(h, DeqBump(0, h)))
  {
    DrainMove(h, DeqTail(0, h), h, DeqBump(0, h));
  }

  lemma DrainClaims(h: nat)
    requires Seen(InHand(h, DeqIndex(0))) && h < SIZE
    ensures Seen(InHand(h + 1, DeqWait(0, h)))
  {
    DrainIndexes(h);
    DrainFinds(h);
    DrainMove(h, DeqBump(0, h), h + 1, DeqWait(0, h));
  }

  lemma DrainReads(h: nat) returns (e: Elem)
    requires Seen(InHand(h + 1, DeqRead(0, h)))
    ensures Seen(InHand(h + 1, DeqClear(0, h, e)))
  {
    var v := InHand(h + 1, DeqRead(0, h));
    SeenIds(v);
    e := Read(v);
    assert At(v, 0, DeqClear(0, h, e)) == InHand(h + 1, DeqClear(0, h, e));
  }

  lemma DrainTakes(h: nat)
    requires Seen(InHand(h + 1, DeqWait(0, h)))
    ensures Seen(InHand(h + 1, Idle))
  {
    var v := InHand(h + 1, DeqWait(0, h));
    SeenIds(v);
    Waited(v);
    assert At(v, 0, DeqRead(0, h)) == InHand(h + 1, DeqRead(0, h));
    var e := DrainReads(h);
    var w := InHand(h + 1, DeqClear(0, h, e));
    SeenIds(w);
    Cleared(w);
    assert At(w, 0, Idle) == InHand(h + 1, Idle);
  }

  /** The consumer empties the queue. */
  lemma {:induction false} Drain(h: nat)
    requires h <= SIZE
    ensures Seen(InHand(h, Idle))
  {
    if h == 0 {
      Takes0();
    } else {
      Drain(h - 1);
      DrainLooks(h - 1);
      DrainClaims(h - 1);
      DrainTakes(h - 1);
    }
  }

  lemma SeesFull() returns (w: View)
    ensures Seen(w) && w == At(InHand(SIZE, Idle), 2, EnqNext(0, 0)).(fl := Hold(InHand(SIZE, Idle).fl, 2))
  {
    Drain(SIZE);
    var u := InHand(SIZE, Idle);
    Enter(u, 2);
    var v := At(u, 2, EnqIndex(0, 0)).(fl := Hold(u.fl, 2));
    SeenIds(v);
    w := At(v, 2, EnqNext(0, 0));
    Moved(v, 2, w);
    assert w.pcs == At(u, 2, EnqNext(0, 0)).pcs;
  }

  /** Producer 2 finds block 0 full and the list empty. */
  lemma Refused() returns (v: View)
    ensures Seen(v) && v.h == v.t == SIZE && |v.pcs| == 3 && v.pcs[2] == EnqPop(0, 0)
    ensures |v.fl.threads| == 3 && v.fl.threads[2].pc == FL.PopTop && v.fl.top == NIL
  {
    var w := SeesFull();
    SeenIds(w);
    var f := FL.Goto(w.fl, 2, FL.PopTop);
    Called(w, 2, EnqPop(0, 0), FL.BeginPop, f);
    v := At(w, 2, EnqPop(0, 0)).(fl := f);
  }

  lemma Rejected() returns (v: View)
    ensures Seen(v) && v.h == v.t && |v.pcs| == 3 && v.pcs[2] == EnqLeave(0, 0, Done(false))
  {
    var u := Refused();
    SeenIds(u);
    var f := FL.Goto(u.fl, 2, FL.Empty);
    Called(u, 2, EnqPop(0, 0), FL.Internal(true), f);
    var w := At(u, 2, EnqPop(0, 0)).(fl := f);
    SeenIds(w);
    Returned(w, 2, EnqLeave(0, 0, Done(false)));
    v := At(w, 2, EnqLeave(0, 0, Done(false)));
  }

  /** With one spare block, a producer can be refused while nothing is queued at all. */
  lemma RefusedWhileEmpty() returns (states: seq<State>, labels: seq<Label>)
    ensures IsRun(states, labels, 1)
    ensures var s := states[|labels|]; |s.pcs| == 3 && s.pcs[2] == EnqLeave(0, 0, Done(false)) && s.q == []
  {
    var v := Rejected();
    var s :| Reached(s) && Shows(s, v);
    ReachedInv(s);
    EmptyAt(s);
    states, labels :| IsRun(states, labels, 1) && states[|labels|] == s;
  }

  lemma EmptyAt(s: State)
    requires Inv(s) && s.head == 0 && s.blocks[0].next == NIL && s.blocks[0].head == s.blocks[0].tail
    ensures s.q == []
  {
    assert LinkOk(s, 0);
    assert |s.chain| == 1 && s.chain == [0];
    assert Contents(s.blocks, s.chain) == Slice(s.blocks[0]) + Contents(s.blocks, []);
  }
}
