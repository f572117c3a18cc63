/** What the invariant means for users of the bounded queue. */
module QueueSafety {
  import FL = FreeListMachine
  import opened QueueMachine
  import opened QueueInvariant
  import opened QueueProof
  import opened QueueSlots
  import opened QueueTheorems

  // ----- order and exactly-once -----

  function Accepts(hist: seq<Event>): seq<Elem> {
    if hist == [] then []
    else Accepts(hist[..|hist| - 1]) + (if hist[|hist| - 1].Accept? then [hist[|hist| - 1].e] else [])
  }

  function Backs(hist: seq<Event>): seq<Elem> {
    if hist == [] then []
    else Backs(hist[..|hist| - 1]) + (if hist[|hist| - 1].Back? then [hist[|hist| - 1].e] else [])
  }

  /** Without rewinds, what was taken followed by what is queued is what was accepted. */
  lemma {:induction false} FifoReplay(hist: seq<Event>)
    requires Replay(hist).Holding? && Backs(hist) == []
    ensures Accepts(hist) == Takes(hist) + Replay(hist).q
  {
    if hist != [] {
      var h, ev := hist[..|hist| - 1], hist[|hist| - 1];
      FifoReplay(h);
      if ev.Take? { assert Replay(h).q == [ev.e] + Replay(hist).q; }
    }
  }

  lemma Snoc(a: seq<Elem>, e: Elem)
    ensures multiset(a + [e]) == multiset(a) + multiset{e}
    ensures multiset([e] + a) == multiset(a) + multiset{e}
  {
  }

  /** Elements that entered, by acceptance or rewind, against elements that left or are queued. */
  function Entered(hist: seq<Event>): multiset<Elem> { multiset(Accepts(hist)) + multiset(Backs(hist)) }

  lemma EnteredStep(hist: seq<Event>)
    requires hist != []
    ensures var h, ev := hist[..|hist| - 1], hist[|hist| - 1];
      Entered(hist) == Entered(h) + (if ev.Accept? || ev.Back? then multiset{ev.e} else multiset{})
  {
    var h, ev := hist[..|hist| - 1], hist[|hist| - 1];
    if ev.Accept? { Snoc(Accepts(h), ev.e); }
    if ev.Back? { Snoc(Backs(h), ev.e); }
  }

  lemma LeftStep(hist: seq<Event>)
    requires hist != [] && Replay(hist).Holding?
    ensures var h, ev := hist[..|hist| - 1], hist[|hist| - 1];
      && Replay(h).Holding?
      && multiset(Takes(hist)) + multiset(Replay(hist).q)
         == multiset(Takes(h)) + multiset(Replay(h).q) + (if ev.Accept? || ev.Back? then multiset{ev.e} else multiset{})
  {
    var h, ev := hist[..|hist| - 1], hist[|hist| - 1];
    LeftEvent(Takes(h), Replay(h).q, ev);
  }

  lemma LeftEvent(taken: seq<Elem>, q: seq<Elem>, ev: Event)
    requires ApplyEvent(Holding(q), ev).Holding?
    ensures multiset(taken + (if ev.Take? then [ev.e] else [])) + multiset(ApplyEvent(Holding(q), ev).q)
         == multiset(taken) + multiset(q) + (if ev.Accept? || ev.Back? then multiset{ev.e} else multiset{})
  {
    match ev
    case Accept(e) => Snoc(q, e);
    case Take(e) => LeftTake(taken, q, e);
    case Miss =>
    case Back(e) => Snoc(q, e);
  }

  /** Taking the front moves it from the queue to what was taken. */
  lemma LeftTake(taken: seq<Elem>, q: seq<Elem>, e: Elem)
    requires q != [] && q[0] == e
    ensures multiset(taken + [e]) + multiset(q[1..]) == multiset(taken) + multiset(q)
  {
    Snoc(taken, e);
    Snoc(q[1..], e);
    assert q == [e] + q[1..];
  }

  /** With rewinds, elements are conserved. */
  lemma {:induction false} ConservedReplay(hist: seq<Event>)
    requires Replay(hist).Holding?
    ensures Entered(hist) == multiset(Takes(hist)) + multiset(Replay(hist).q)
  {
    if hist != [] {
      EnteredStep(hist);
      LeftStep(hist);
      ConservedReplay(hist[..|hist| - 1]);
    }
  }

  /** In every run, what try_dequeue returned is a prefix of what it took, lacking at most the element in hand. */
  lemma GotIsTaken(s: State)
    requires Inv(s)
    ensures s.got <= Takes(s.hist) && |Takes(s.hist)| <= |s.got| + 1
  {
  }

  /**
   * FIFO and at-most-once over every interleaving: as long as nothing was rewound, the elements
   * returned are a prefix of the elements accepted, in the order of the successful compare-exchange
   * on a block's tail, and the rest are the element in hand and the queued ones.
   */
  lemma FifoInEveryRun(states: seq<State>, labels: seq<Label>, k: nat, i: nat)
    requires IsRun(states, labels, k) && i < |states| && Backs(states[i].hist) == []
    ensures var s := states[i];
      && s.got <= Accepts(s.hist)
      && Accepts(s.hist) == Takes(s.hist) + s.q
      && |s.got| <= |Takes(s.hist)| <= |s.got| + 1
  {
    RunInv(states, labels, k, i);
    FifoReplay(states[i].hist);
    GotIsTaken(states[i]);
  }

  /**
   * Linearizability over every interleaving, rewinds included: the events, in the order they took
   * effect, are a run of a double-ended sequence whose value is what the blocks hold; a miss happens
   * only on the empty sequence; and nothing is lost or duplicated.
   */
  lemma DequeInEveryRun(states: seq<State>, labels: seq<Label>, k: nat, i: nat)
    requires IsRun(states, labels, k) && i < |states|
    ensures var s := states[i];
      && Structure(s) && Replay(s.hist) == Holding(Contents(s.blocks, s.chain))
      && Entered(s.hist) == multiset(Takes(s.hist)) + multiset(Contents(s.blocks, s.chain))
      && s.got <= Takes(s.hist)
  {
    RunInv(states, labels, k, i);
    ConservedReplay(states[i].hist);
    GotIsTaken(states[i]);
  }

  // ----- blocks -----

  /**
   * In every run: while a thread resets a block it popped, no producer that saw the block unfreed still holds a
   * reference on it, no other thread resets it, and it is not in the chain.
   */
  lemma NoResetUnderAProducer(states: seq<State>, labels: seq<Label>, k: nat, i: nat, r: nat, p: nat)
    requires IsRun(states, labels, k) && i < |states| && r < |states[i].pcs| && p < |states[i].pcs|
    requires OwnAt(states[i].pcs[r]) != NIL
    ensures var s := states[i];
      && SeenAt(s.pcs[p]) != OwnAt(s.pcs[r])
      && (p != r ==> OwnAt(s.pcs[p]) != OwnAt(s.pcs[r]))
      && OwnAt(s.pcs[r]) !in s.chain
  {
    RunInv(states, labels, k, i);
    assert ThreadOk(states[i], r);
    PreparedIsPrivate(states[i], r, OwnAt(states[i].pcs[r]));
  }

  /**
   * In every run: while the consumer waits for a slot, a producer is between reserving and publishing that very
   * slot, so the wait ends once that producer runs on.
   */
  lemma WaitHasAWriter(states: seq<State>, labels: seq<Label>, k: nat, i: nat)
    requires IsRun(states, labels, k) && i < |states| && Ids(states[i]) && states[i].pcs[0].DeqWait?
    requires states[i].pcs[0].i !in states[i].blocks[states[i].pcs[0].h].avail
    ensures var s := states[i];
      exists p :: 0 < p < |s.pcs| && (s.pcs[p].EnqWrite? || s.pcs[p].EnqPublish?)
                  && s.pcs[p].t == s.pcs[0].h && s.pcs[p].i == s.pcs[0].i
  {
    RunInv(states, labels, k, i);
    var s := states[i];
    var h, j := s.pcs[0].h, s.pcs[0].i;
    assert s.head in s.chain;
    assert SlotOk(s, h, j);
    assert WriterOk(s, h, j);
    var p := s.blocks[h].writer[j];
  }

  // ----- capacity -----

  lemma {:induction false} ValsLength(b: Block, lo: nat, hi: nat)
    requires lo <= hi
    ensures |Vals(b, lo, hi)| == hi - lo
  {
    if lo < hi { ValsLength(b, lo, hi - 1); }
  }

  lemma {:induction false} ContentsBound(blocks: seq<Block>, chain: seq<nat>)
    requires InBlocks(blocks, chain)
    requires forall u :: u in chain ==> blocks[u].head <= blocks[u].tail <= SIZE
    ensures |Contents(blocks, chain)| <= |chain| * SIZE
  {
    if chain != [] {
      assert chain[0] in chain;
      ValsLength(blocks[chain[0]], blocks[chain[0]].head, blocks[chain[0]].tail);
      ContentsBound(blocks, chain[1..]);
    }
  }

  /** Distinct naturals below n number at most n. */
  lemma {:induction false} Pigeonhole(a: seq<nat>, n: nat)
    requires forall i :: 0 <= i < |a| ==> a[i] < n
    requires forall i, j :: 0 <= i < j < |a| ==> a[i] != a[j]
    ensures |a| <= n
  {
    if |a| > 0 {
      assert a[0] < n;
      if n - 1 in a {
        var m :| 0 <= m < |a| && a[m] == n - 1;
        var b := a[..m] + a[m + 1..];
        Pigeonhole(b, n - 1);
      } else {
        Pigeonhole(a, n - 1);
      }
    }
  }

  /** The queue never holds more than its blocks can. */
  lemma BoundedByBlocks(s: State)
    requires Inv(s)
    ensures |s.q| <= |s.blocks| * SIZE
  {
    forall u | u in s.chain ensures s.blocks[u].head <= s.blocks[u].tail <= SIZE { ChainFacts(s, u); }
    ContentsBound(s.blocks, s.chain);
    Pigeonhole(s.chain, |s.blocks|);
  }

  lemma {:induction false} NoRewindNoBlocks(states: seq<State>, labels: seq<Label>, k: nat, i: nat)
    requires IsRun(states, labels, k) && i < |states|
    requires forall j :: 0 <= j < i ==> !labels[j].c.Rewind?
    ensures |states[i].blocks| == k + 1 && |states[i].pcs| > 0 && !Rewinding(states[i].pcs[0])
  {
    if i > 0 {
      NoRewindNoBlocks(states, labels, k, i - 1);
      assert Next(states[i - 1], labels[i - 1].p, labels[i - 1].c, states[i]);
      StaysOut(states[i - 1], labels[i - 1].p, labels[i - 1].c, states[i]);
    }
  }

  lemma StaysOut(s: State, p: nat, c: Choice, s': State)
    requires Next(s, p, c, s') && !c.Rewind? && !Rewinding(s.pcs[0])
    ensures |s'.pcs| == |s.pcs| && !Rewinding(s'.pcs[0])
  {
    if p == 0 {
      if c.Step? { ConsumerStaysOut(s); }
    } else {
      ProducerLeavesIt(s, p, c);
    }
  }

  lemma ConsumerStaysOut(s: State)
    requires Ids(s) && !Rewinding(s.pcs[0])
    ensures |ConEffect(s).pcs| == |s.pcs| && !Rewinding(ConEffect(s).pcs[0])
  {
  }

  lemma ProducerLeavesIt(s: State, p: nat, c: Choice)
    requires Ids(s) && 0 < p < |s.pcs|
    ensures |Effect(s, p, c).pcs| == |s.pcs| && Effect(s, p, c).pcs[0] == s.pcs[0]
  {
  }

  /** With capacity for k extra blocks and no rewinds, at most k + 1 blocks of elements are ever queued. */
  lemma BoundedInEveryRun(states: seq<State>, labels: seq<Label>, k: nat, i: nat)
    requires IsRun(states, labels, k) && i < |states|
    requires forall j :: 0 <= j < i ==> !labels[j].c.Rewind?
    ensures |states[i].q| <= (k + 1) * SIZE
  {
    RunInv(states, labels, k, i);
    NoRewindNoBlocks(states, labels, k, i);
    BoundedByBlocks(states[i]);
  }

  // ----- the auxiliary state never blocks a step -----

  lemma ConsumerNeverBlocked(s: State, ok: bool)
    requires Structure(s) && Enabled(s, 0, Step(ok))
    ensures ConCall(s, ok) != [] ==> FL.Enabled(s.fl, 0, ConCall(s, ok)[0])
  {
    assert ThreadOk(s, 0);
    assert FL.Fits(s.fl, 0);
    assert s.head in s.chain;
  }

  lemma ProducerNeverBlocked(s: State, p: nat, ok: bool)
    requires Structure(s) && 0 < p < |s.pcs| && Enabled(s, p, Step(ok))
    ensures EnqCall(s, p, ok) != [] ==> FL.Enabled(s.fl, p, EnqCall(s, p, ok)[0])
  {
    assert ThreadOk(s, p);
    assert FL.Fits(s.fl, p);
  }

  /** Every step the code can take from a reachable state is a step of the machine. */
  lemma EveryStepIsTaken(s: State, p: nat, c: Choice) returns (s': State)
    requires Inv(s) && p < |s.pcs| && Enabled(s, p, c)
    ensures Next(s, p, c, s')
  {
    var fl := CallIsDone(s, p, c);
    s' := Effect(s, p, c).(fl := fl);
  }

  lemma CallIsDone(s: State, p: nat, c: Choice) returns (fl: FL.State)
    requires Structure(s) && p < |s.pcs| && Enabled(s, p, c)
    ensures CallDone(s, p, c, fl)
  {
    var call := if !c.Step? then [] else if p == 0 then ConCall(s, c.ok) else EnqCall(s, p, c.ok);
    fl := s.fl;
    if call != [] {
      if p == 0 { ConsumerNeverBlocked(s, c.ok); } else { ProducerNeverBlocked(s, p, c.ok); }
      fl := FL.Apply(s.fl, p, call[0]);
    }
  }
}
