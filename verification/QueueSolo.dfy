/** A producer whose call overlaps no other call is refused only when k blocks' worth of elements are queued. */
module QueueSolo {
  import FL = FreeListMachine
  import opened QueueMachine
  import opened QueueInvariant
  import opened QueueTheorems
  import opened QueueCapacity

  // ----- a block in a thread's hands is one the thread stands on -----

  /** The node a thread in a free-list call owns. */
  function Stands(pc: FL.Pc): int {
    match pc
    case Popped(u) => u
    case RelSub(u, k) => if k == FL.Got then u else NIL
    case PushFreed(u) => u
    case PushSub(u) => u
    case _ => NIL
  }

  predicate HandAt(s: State, u: nat)
    requires Ids(s) && u < |s.blocks|
  {
    match s.fl.place[u]
    case Owned(By(t)) => t < |s.pcs| && (Stands(s.fl.threads[t].pc) == u || (t == 0 && s.pcs[0] == DeqPush(u)))
    case _ => true
  }

  predicate Hands(s: State)
    requires Ids(s)
  {
    && (forall u :: 0 <= u < |s.blocks| ==> HandAt(s, u))
    && (forall p :: 0 <= p < |s.pcs| && s.pcs[p].EnqLeave? ==> !s.fl.threads[p].pc.Popped?)
  }

  /** What a step of a free-list call does to the ownership of u by x. */
  lemma CallHands(f: FL.State, t: nat, ok: bool, u: nat, x: nat)
    requires FL.Ids(f) && t < |f.threads| && FL.Enabled(f, t, FL.Internal(ok)) && FL.Fits(f, t)
    requires f.threads[t].pc == FL.RelSub(u, FL.Got) ==> f.nodes[u].refcnt != 1
    requires u < |FL.Advance(f, t, ok).place| && FL.Advance(f, t, ok).place[u] == FL.Owned(FL.By(x))
    ensures var f' := FL.Advance(f, t, ok);
      || (x < |f'.threads| && Stands(f'.threads[x].pc) == u)
      || (u < |f.place| && f.place[u] == f'.place[u] && (x < |f.threads| ==> Stands(f.threads[x].pc) != u))
  {
  }

  /** The reference pop drops on its way out is not the last. */
  lemma GotNotLast(f: FL.State, t: nat, u: nat)
    requires FL.Inv(f) && t < |f.threads| && u < |f.nodes| && f.threads[t].pc == FL.RelSub(u, FL.Got)
    ensures f.nodes[u].refcnt > 1
  {
    assert FL.Fits(f, t) && FL.Counted(f, u);
    FL.CountPositive(f.threads, t, u);
  }

  /** The same for the other steps of a thread that owns nothing it popped, or hands it over. */
  lemma ActHands(f: FL.State, t: nat, a: FL.Act, u: nat, x: nat)
    requires FL.Ids(f) && t < |f.threads| && FL.Enabled(f, t, a) && !a.Internal?
    requires u < |FL.Apply(f, t, a).place| && FL.Apply(f, t, a).place[u] == FL.Owned(FL.By(x))
    requires f.threads[t].pc == FL.Popped(u) ==> a == FL.BeginPush(u) || a == FL.Give(u) || a.Unfree?
    ensures var f' := FL.Apply(f, t, a);
      || (x < |f'.threads| && Stands(f'.threads[x].pc) == u)
      || (a == FL.Take(u) && x == t)
      || (u < |f.place| && f.place[u] == f'.place[u] && (x < |f.threads| ==> Stands(f.threads[x].pc) != u))
  {
  }

  /** The free-list action of a step. */
  function CallOf(s: State, p: nat, c: Choice): seq<FL.Act>
    requires Ids(s) && p < |s.pcs|
  {
    if !c.Step? then [] else if p == 0 then ConCall(s, c.ok) else EnqCall(s, p, c.ok)
  }

  /** A thread that has popped a block and goes on from there hands that block over. */
  lemma PoppedHandsOver(s: State, p: nat, c: Choice, a: FL.Act)
    requires Ids(s) && p < |s.pcs| && ThreadOk(s, p) && CallOf(s, p, c) == [a] && s.fl.threads[p].pc.Popped?
    requires s.pcs[p].EnqLeave? ==> !s.fl.threads[p].pc.Popped?
    ensures var u := s.fl.threads[p].pc.u; a == FL.BeginPush(u) || a == FL.Give(u) || a.Unfree?
  {
  }

  /** The consumer comes to DeqPush(u) by taking u, and leaves it by pushing u. */
  lemma Retires(s: State, p: nat, c: Choice, u: nat)
    requires Ids(s) && p < |s.pcs| && ThreadOk(s, p) && Enabled(s, p, c)
    ensures CallOf(s, p, c) == [FL.Take(u)] ==> p == 0 && Effect(s, p, c).pcs[0] == DeqPush(u)
    ensures s.pcs[0] == DeqPush(u) && p != 0 ==> Effect(s, p, c).pcs[0] == DeqPush(u)
    ensures s.pcs[0] == DeqPush(u) && p == 0 ==> CallOf(s, p, c) == [FL.BeginPush(u)]
  {
  }

  lemma HandStep(s: State, p: nat, c: Choice, s': State, u: nat)
    requires Ids(s) && FL.Inv(s.fl) && p < |s.pcs| && ThreadOk(s, p) && Hands(s) && Next(s, p, c, s')
    requires Ids(s') && u < |s'.blocks| && |s'.pcs| == |s.pcs|
    ensures HandAt(s', u)
  {
    Retires(s, p, c, u);
    if s'.fl.place[u].Owned? && s'.fl.place[u].owner.By? {
      var x, call := s'.fl.place[u].owner.thread, CallOf(s, p, c);
      if call == [] {
        assert HandAt(s, u);
      } else {
        ListHands(s, p, c, call[0], s'.fl, u, x);
        if u < |s.blocks| { assert HandAt(s, u); }
      }
    }
  }

  lemma ListHands(s: State, p: nat, c: Choice, a: FL.Act, f': FL.State, u: nat, x: nat)
    requires Ids(s) && FL.Inv(s.fl) && p < |s.pcs| && ThreadOk(s, p) && CallOf(s, p, c) == [a]
    requires s.pcs[p].EnqLeave? ==> !s.fl.threads[p].pc.Popped?
    requires FL.Enabled(s.fl, p, a) && f' == FL.Apply(s.fl, p, a)
    requires u < |f'.place| && f'.place[u] == FL.Owned(FL.By(x))
    ensures || (x < |f'.threads| && Stands(f'.threads[x].pc) == u)
            || (a == FL.Take(u) && x == p)
            || (u < |s.fl.place| && s.fl.place[u] == f'.place[u]
                && (x < |s.fl.threads| ==> Stands(s.fl.threads[x].pc) != u))
  {
    if a.Internal? {
      assert FL.Fits(s.fl, p);
      if s.fl.threads[p].pc == FL.RelSub(u, FL.Got) { GotNotLast(s.fl, p, u); }
      CallHands(s.fl, p, a.ok, u, x);
    } else {
      if s.fl.threads[p].pc.Popped? { PoppedHandsOver(s, p, c, a); }
      ActHands(s.fl, p, a, u, x);
    }
  }

  /** A producer leaves with nothing popped in its hands. */
  lemma LeavesEmptyHanded(s: State, p: nat, c: Choice, s': State)
    requires Ids(s) && p < |s.pcs| && ThreadOk(s, p) && Next(s, p, c, s') && |s'.pcs| == |s.pcs| == |s'.fl.threads|
    ensures s'.pcs[p].EnqLeave? ==> !s'.fl.threads[p].pc.Popped?
  {
  }

  lemma ListOthersStay(f: FL.State, p: nat, a: FL.Act, q: nat)
    requires FL.Ids(f) && p < |f.threads| && FL.Enabled(f, p, a) && q < |f.threads| && q != p
    ensures |FL.Apply(f, p, a).threads| == |f.threads| && FL.Apply(f, p, a).threads[q] == f.threads[q]
  {
  }

  lemma ConsumerMovesItself(s: State)
    requires Ids(s)
    ensures ConEffect(s).pcs == s.pcs[0 := ConEffect(s).pcs[0]]
  {
  }

  lemma ProducerMovesItself(s: State, p: nat, ok: bool)
    requires Ids(s) && p < |s.pcs|
    ensures EnqEffect(s, p, ok).pcs == s.pcs[p := EnqEffect(s, p, ok).pcs[p]]
  {
  }

  lemma EffectOthersStay(s: State, p: nat, c: Choice, q: nat)
    requires Ids(s) && p < |s.pcs| && q < |s.pcs| && q != p
    ensures |Effect(s, p, c).pcs| == |s.pcs| && Effect(s, p, c).pcs[q] == s.pcs[q]
  {
    if c.Step? {
      if p == 0 { ConsumerMovesItself(s); } else { ProducerMovesItself(s, p, c.ok); }
    }
  }

  lemma OthersStay(s: State, p: nat, c: Choice, s': State, q: nat)
    requires Ids(s) && Next(s, p, c, s') && q < |s.pcs| && q != p
    ensures |s'.pcs| == |s.pcs| && s'.pcs[q] == s.pcs[q]
    ensures |s'.fl.threads| == |s.fl.threads| && s'.fl.threads[q] == s.fl.threads[q]
  {
    EffectOthersStay(s, p, c, q);
    var call := CallOf(s, p, c);
    if call != [] { ListOthersStay(s.fl, p, call[0], q); }
  }

  lemma HandsStep(s: State, p: nat, c: Choice, s': State)
    requires Inv(s) && Hands(s) && Next(s, p, c, s') && Ids(s') && |s'.pcs| == |s.pcs|
    ensures Hands(s')
  {
    forall u | 0 <= u < |s'.blocks| ensures HandAt(s', u) { HandStep(s, p, c, s', u); }
    forall q | 0 <= q < |s'.pcs| && s'.pcs[q].EnqLeave? ensures !s'.fl.threads[q].pc.Popped? {
      if q == p { LeavesEmptyHanded(s, p, c, s'); } else { OthersStay(s, p, c, s', q); }
    }
  }

  lemma HandsNext(s: State, l: Label, s': State)
    requires Inv(s) && Inv(s') && Hands(s) && Next(s, l.p, l.c, s')
    ensures Hands(s')
  {
    SameThreads(s, l.p, l.c, s');
    HandsStep(s, l.p, l.c, s');
  }

  lemma FirstHands(states: seq<State>, labels: seq<Label>, k: nat)
    requires IsRun(states, labels, k)
    ensures Ids(states[0]) && Hands(states[0])
  {
    RunInv(states, labels, k, 0);
  }

  lemma NextHands(states: seq<State>, labels: seq<Label>, k: nat, i: nat)
    requires IsRun(states, labels, k) && i < |labels| && Ids(states[i]) && Hands(states[i])
    ensures Ids(states[i + 1]) && Hands(states[i + 1])
  {
    RunInv(states, labels, k, i);
    RunInv(states, labels, k, i + 1);
    assert Next(states[i], labels[i].p, labels[i].c, states[i + 1]);
    HandsNext(states[i], labels[i], states[i + 1]);
  }

  lemma {:induction false} RunHands(states: seq<State>, labels: seq<Label>, k: nat, i: nat)
    requires IsRun(states, labels, k) && i < |states|
    ensures Ids(states[i]) && Hands(states[i])
  {
    if i == 0 {
      FirstHands(states, labels, k);
    } else {
      RunHands(states, labels, k, i - 1);
      NextHands(states, labels, k, i - 1);
    }
  }

  lemma SameThreads(s: State, p: nat, c: Choice, s': State)
    requires Ids(s) && Next(s, p, c, s')
    ensures |s'.pcs| == |s.pcs|
  {
    if c.Step? {
      if p == 0 { ConsumerMovesItself(s); } else { ProducerMovesItself(s, p, c.ok); }
    }
  }

  // ----- a producer alone -----

  /** No other thread is in a call. */
  predicate Alone(s: State, p: nat) {
    p < |s.pcs| && forall q :: 0 <= q < |s.pcs| && q != p ==> s.pcs[q] == Idle
  }

  /** Until it links a block, the producer's block is the one tail points to. */
  predicate AtTail(s: State, p: nat)
    requires p < |s.pcs|
  {
    match s.pcs[p]
    case EnqCount(_, t) => t == s.tail
    case EnqRef(_, t, _) => t == s.tail
    case EnqFreed(_, t) => t == s.tail
    case EnqIndex(_, t) => t == s.tail
    case EnqNext(_, t) => t == s.tail
    case EnqPop(_, t) => t == s.tail
    case _ => true
  }

  lemma ProducerAtTail(s: State, p: nat, ok: bool)
    requires Ids(s) && p < |s.pcs| && AtTail(s, p)
    ensures p < |EnqEffect(s, p, ok).pcs| && AtTail(EnqEffect(s, p, ok), p)
  {
  }

  lemma StartsCall(s: State, l: Label, s': State)
    requires Ids(s) && Next(s, l.p, l.c, s') && s.pcs[l.p] == Idle
    ensures l.p < |s'.pcs| && s'.pcs[l.p] != Idle
  {
  }

  lemma AloneStep(s: State, l: Label, s': State, p: nat)
    requires Ids(s) && p > 0 && Alone(s, p) && AtTail(s, p) && Next(s, l.p, l.c, s') && Alone(s', p)
    ensures AtTail(s', p)
  {
    if s.pcs[l.p] == Idle { StartsCall(s, l, s'); }
    assert l.p == p;
    if l.c.Step? { ProducerAtTail(s, p, l.c.ok); }
  }

  lemma {:induction false} AloneAtTail(states: seq<State>, labels: seq<Label>, k: nat, j: nat, i: nat, p: nat)
    requires IsRun(states, labels, k) && j <= i < |states| && p > 0
    requires forall m :: j <= m <= i ==> Alone(states[m], p)
    requires Alone(states[j], p) && states[j].pcs[p] == Idle
    ensures Alone(states[i], p) && AtTail(states[i], p)
  {
    if i > j {
      AloneAtTail(states, labels, k, j, i - 1, p);
      assert Next(states[i - 1], labels[i - 1].p, labels[i - 1].c, states[i]);
      AloneStep(states[i - 1], labels[i - 1], states[i], p);
    }
  }

  /** A count of references comes from a thread that has one. */
  lemma {:induction false} Referrer(th: seq<FL.Thread>, u: nat)
    ensures FL.Refs(th, u) > 0 ==> exists t :: 0 <= t < |th| && FL.RefsOf(th[t], u) > 0
    ensures FL.Pushes(th, u) > 0 ==> exists t :: 0 <= t < |th| && FL.PushesOf(th[t], u) > 0
  {
    if th != [] {
      var n := |th| - 1;
      Referrer(th[..n], u);
      assert forall t :: 0 <= t < n ==> th[..n][t] == th[t];
      assert FL.RefsOf(th[n], u) >= 0 && FL.PushesOf(th[n], u) >= 0;
    }
  }

  lemma {:induction false} NoneOfKind(place: seq<FL.Place>, k: Kind)
    requires forall u :: 0 <= u < |place| ==> KindOf(place[u]) != k
    ensures Count(place, k) == 0
  {
    if place != [] { NoneOfKind(place[..|place| - 1], k); }
  }

  /** The lone producer is the only thread in the free list. */
  lemma OthersRest(s: State, p: nat, t: nat)
    requires Ids(s) && Alone(s, p) && t < |s.pcs| && ThreadOk(s, t) && t != p
    ensures s.fl.threads[t] == FL.Thread(FL.Idle, NIL)
  {
  }

  /** With every other thread idle, no block is in a thread's hands. */
  lemma NoHand(s: State, p: nat, u: nat)
    requires Ids(s) && Hands(s) && Alone(s, p) && Refusing(s, p) && u < |s.blocks|
    requires forall t :: 0 <= t < |s.pcs| ==> ThreadOk(s, t)
    ensures KindOf(s.fl.place[u]) != InHand
  {
    assert HandAt(s, u);
    if KindOf(s.fl.place[u]) == InHand {
      var t := s.fl.place[u].owner.thread;
      if t != p { OthersRest(s, p, t); }
    }
  }

  /** Nor does one await a push, unless it is the one the producer holds. */
  lemma NoPush(s: State, p: nat, u: nat)
    requires Ids(s) && FL.Inv(s.fl) && Alone(s, p) && Refusing(s, p) && u < |s.blocks| && u != s.pcs[p].t
    requires forall t :: 0 <= t < |s.pcs| ==> ThreadOk(s, t)
    ensures KindOf(s.fl.place[u]) != Kind.InPush
  {
    assert FL.Counted(s.fl, u);
    Referrer(s.fl.threads, u);
    forall t | 0 <= t < |s.fl.threads|
      ensures FL.RefsOf(s.fl.threads[t], u) == 0 && FL.PushesOf(s.fl.threads[t], u) == 0
    {
      assert ThreadOk(s, t);
      if t != p { OthersRest(s, p, t); }
    }
  }

  /** The producer holds the last block of the chain. */
  lemma HoldsLast(s: State, p: nat)
    requires Inv(s) && Alone(s, p) && AtTail(s, p) && s.pcs[p].EnqPop?
    ensures s.pcs[p].t == Last(s.chain) && s.pcs[p].t < |s.blocks| && KindOf(s.fl.place[s.pcs[p].t]) == Kind.InChain
  {
    assert s.linker == NIL;
    assert Last(s.chain) in s.chain;
  }

  lemma NothingElsewhere(s: State, p: nat)
    requires Inv(s) && Hands(s) && Alone(s, p) && AtTail(s, p) && Refusing(s, p)
    ensures Count(s.fl.place, InHand) == 0 && Count(s.fl.place, Kind.InPush) == 0
  {
    HoldsLast(s, p);
    forall u | 0 <= u < |s.fl.place|
      ensures KindOf(s.fl.place[u]) != InHand && KindOf(s.fl.place[u]) != Kind.InPush
    {
      NoHand(s, p, u);
      if u != s.pcs[p].t { NoPush(s, p, u); }
    }
    NoneOfKind(s.fl.place, InHand);
    NoneOfKind(s.fl.place, Kind.InPush);
  }

  /**
   * In every run, a producer whose call has overlapped no other call, of a producer or of the consumer, is refused
   * only with k blocks' worth of elements queued, whatever happened before its call.
   */
  lemma LoneProducerRefused(states: seq<State>, labels: seq<Label>, k: nat, j: nat, i: nat, p: nat)
    requires IsRun(states, labels, k) && j <= i < |states| && Ids(states[i]) && Refusing(states[i], p)
    requires forall m :: j <= m <= i ==> Alone(states[m], p)
    requires Alone(states[j], p) && states[j].pcs[p] == Idle
    ensures |states[i].q| >= k * SIZE
  {
    AloneAtTail(states, labels, k, j, i, p);
    RefusedOnlyWhen(states, labels, k, i, p);
    RunHands(states, labels, k, i);
    RunInv(states, labels, k, i);
    NothingElsewhere(states[i], p);
    HoldsLast(states[i], p);
  }
}
