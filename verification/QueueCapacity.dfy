/** Where the blocks of the bounded queue are, and what a refused element says about them. */
module QueueCapacity {
  import Basics
  import FL = FreeListMachine
  import opened QueueMachine
  import opened QueueInvariant
  import opened QueueProof
  import opened QueueSlots
  import opened QueueTheorems
  import opened QueueSafety

  // ----- counting blocks by place -----

  datatype Kind = InList | InChain | InHand | InPush

  function KindOf(p: FL.Place): Kind {
    match p
    case Listed => InList
    case Owned(Shared) => Kind.InChain
    case Owned(By(_)) => InHand
    case Awaiting => InPush
  }

  function Count(place: seq<FL.Place>, k: Kind): nat {
    if place == [] then 0
    else Count(place[..|place| - 1], k) + (if KindOf(place[|place| - 1]) == k then 1 else 0)
  }

  lemma {:induction false} KindsPartition(place: seq<FL.Place>)
    ensures Count(place, InList) + Count(place, Kind.InChain) + Count(place, InHand) + Count(place, InPush) == |place|
  {
    if place != [] { KindsPartition(place[..|place| - 1]); }
  }

  /** Distinct indices that are exactly those of a kind number as many. */
  lemma {:induction false} CountIs(place: seq<FL.Place>, k: Kind, ids: seq<nat>)
    requires forall i :: 0 <= i < |ids| ==> ids[i] < |place|
    requires forall i, j :: 0 <= i < j < |ids| ==> ids[i] != ids[j]
    requires forall u :: 0 <= u < |place| ==> (u in ids <==> KindOf(place[u]) == k)
    ensures |ids| == Count(place, k)
  {
    if place == [] {
      Pigeonhole(ids, 0);
    } else {
      var n := |place| - 1;
      var init := place[..n];
      if n in ids {
        var m :| 0 <= m < |ids| && ids[m] == n;
        var rest := ids[..m] + ids[m + 1..];
        Without(ids, m, rest);
        CountIs(init, k, rest);
      } else {
        CountIs(init, k, ids);
      }
    }
  }

  lemma Without(ids: seq<nat>, m: nat, rest: seq<nat>)
    requires m < |ids| && rest == ids[..m] + ids[m + 1..]
    requires forall i, j :: 0 <= i < j < |ids| ==> ids[i] != ids[j]
    ensures forall i, j :: 0 <= i < j < |rest| ==> rest[i] != rest[j]
    ensures forall u :: u in rest <==> u in ids && u != ids[m]
  {
    forall u | u in ids && u != ids[m] ensures u in rest {
      var i :| 0 <= i < |ids| && ids[i] == u;
      if i < m { assert rest[i] == u; } else { assert rest[i - 1] == u; }
    }
  }

  /**
   * Each block is in the chain, on the list, in a thread's hands or awaiting a delayed push, and in one of them
   * only.
   */
  lemma Partition(s: State)
    requires Inv(s)
    ensures |s.chain| == Count(s.fl.place, Kind.InChain) && |s.fl.list| == Count(s.fl.place, InList)
    ensures |s.chain| + |s.fl.list| + Count(s.fl.place, InHand) + Count(s.fl.place, InPush) == |s.blocks|
  {
    KindsPartition(s.fl.place);
    CountIs(s.fl.place, Kind.InChain, s.chain);
    CountIs(s.fl.place, InList, s.fl.list);
  }

  // ----- conservation -----

  /** The step of a rewind that creates a block, its pop having found the list empty. */
  predicate Allocates(s: State, l: Label) {
    |s.pcs| > 0 && |s.fl.threads| > 0 && l.p == 0 && l.c.Step? && s.pcs[0].RewPop? && s.fl.threads[0].pc.Empty?
  }

  function Allocations(states: seq<State>, labels: seq<Label>, i: nat): nat
    requires |states| == |labels| + 1 && i <= |labels|
  {
    if i == 0 then 0
    else Allocations(states, labels, i - 1) + (if Allocates(states[i - 1], labels[i - 1]) then 1 else 0)
  }

  lemma ConsumerBlocks(s: State)
    requires Ids(s) && ThreadOk(s, 0)
    ensures |ConEffect(s).blocks| == |s.blocks| + (if s.pcs[0].RewPop? && s.fl.threads[0].pc.Empty? then 1 else 0)
  {
  }

  lemma ProducerBlocks(s: State, p: nat, ok: bool)
    requires Ids(s) && p < |s.pcs|
    ensures |EnqEffect(s, p, ok).blocks| == |s.blocks|
  {
  }

  lemma BlocksStep(s: State, l: Label, s': State)
    requires Ids(s) && ThreadOk(s, 0) && Next(s, l.p, l.c, s')
    ensures |s'.blocks| == |s.blocks| + (if Allocates(s, l) then 1 else 0)
  {
    if l.c.Step? {
      if l.p == 0 { ConsumerBlocks(s); } else { ProducerBlocks(s, l.p, l.c.ok); }
    }
  }

  /** Step i allocated what it should have. */
  predicate Grew(states: seq<State>, labels: seq<Label>, i: nat)
    requires |states| == |labels| + 1 && i < |labels|
  {
    |states[i + 1].blocks| == |states[i].blocks| + (if Allocates(states[i], labels[i]) then 1 else 0)
  }

  lemma {:induction false} CountUp(states: seq<State>, labels: seq<Label>, i: nat)
    requires |states| == |labels| + 1 && i <= |labels|
    requires forall j :: 0 <= j < i ==> Grew(states, labels, j)
    ensures |states[i].blocks| == |states[0].blocks| + Allocations(states, labels, i)
  {
    if i > 0 {
      CountUp(states, labels, i - 1);
      assert Grew(states, labels, i - 1);
    }
  }

  lemma BlocksNext(states: seq<State>, labels: seq<Label>, k: nat, i: nat)
    requires IsRun(states, labels, k) && i < |labels|
    ensures Grew(states, labels, i)
  {
    ConsumerStands(states, labels, k, i);
    assert Next(states[i], labels[i].p, labels[i].c, states[i + 1]);
    BlocksStep(states[i], labels[i], states[i + 1]);
  }

  lemma BlocksCounted(states: seq<State>, labels: seq<Label>, k: nat, i: nat)
    requires IsRun(states, labels, k) && i < |states|
    ensures |states[i].blocks| == k + 1 + Allocations(states, labels, i)
  {
    forall j | 0 <= j < i ensures Grew(states, labels, j) { BlocksNext(states, labels, k, j); }
    CountUp(states, labels, i);
  }

  lemma ConsumerStands(states: seq<State>, labels: seq<Label>, k: nat, i: nat)
    requires IsRun(states, labels, k) && i < |states|
    ensures Ids(states[i]) && ThreadOk(states[i], 0)
  {
    RunInv(states, labels, k, i);
  }

  /** A pop returns without a node only where it finds the list empty. */
  lemma EmptyIsEmpty(f: FL.State, t: nat, a: FL.Act, p: nat)
    requires FL.Inv(f) && t < |f.threads| && FL.Enabled(f, t, a) && p < |f.threads|
    requires FL.Apply(f, t, a).threads[p].pc.Empty? && !f.threads[p].pc.Empty?
    ensures t == p && f.threads[p].pc == FL.PopTop && f.list == []
  {
  }

  /**
   * In every run the blocks in the chain, on the list, in threads' hands and awaiting a delayed push are together the
   * k + 1 of the beginning and those allocated by rewinds.
   */
  lemma BlocksConserved(states: seq<State>, labels: seq<Label>, k: nat, i: nat)
    requires IsRun(states, labels, k) && i < |states|
    ensures var s := states[i];
      |s.chain| + |s.fl.list| + Count(s.fl.place, InHand) + Count(s.fl.place, InPush)
          == k + 1 + Allocations(states, labels, i)
  {
    RunInv(states, labels, k, i);
    Partition(states[i]);
    BlocksCounted(states, labels, k, i);
  }

  // ----- refusals -----

  /** A chain of full blocks holds all but what was taken from the first. */
  lemma {:induction false} FullChain(blocks: seq<Block>, chain: seq<nat>)
    requires InBlocks(blocks, chain) && chain != []
    requires forall u :: u in chain ==> blocks[u].head <= blocks[u].tail == SIZE
    requires forall i :: 0 < i < |chain| ==> blocks[chain[i]].head == 0
    ensures |Contents(blocks, chain)| >= (|chain| - 1) * SIZE
    ensures blocks[chain[0]].head == 0 ==> |Contents(blocks, chain)| == |chain| * SIZE
  {
    var b := blocks[chain[0]];
    assert chain[0] in chain;
    ValsLength(b, b.head, b.tail);
    if |chain| > 1 {
      assert chain[1] == chain[1..][0];
      FullChain(blocks, chain[1..]);
    } else {
      assert chain[1..] == [];
    }
  }

  /** Every block is in the chain, and the last one is full. */
  lemma FullQueue(s: State)
    requires Inv(s) && |s.chain| == |s.blocks| && s.blocks[Last(s.chain)].tail == SIZE
    ensures |s.q| >= (|s.blocks| - 1) * SIZE
  {
    forall u | u in s.chain ensures s.blocks[u].head <= s.blocks[u].tail == SIZE { ChainFacts(s, u); }
    forall i | 0 < i < |s.chain| ensures s.blocks[s.chain[i]].head == 0 { assert LinkOk(s, i); }
    FullChain(s.blocks, s.chain);
  }

  /** A producer's pop is about to find the list empty, and so its element is about to be refused. */
  predicate Refusing(s: State, p: nat)
    requires Ids(s)
  {
    0 < p < |s.pcs| && s.pcs[p].EnqPop? && s.fl.threads[p].pc == FL.PopTop && s.fl.top == NIL
  }

  /**
   * The lower capacity bound in every run: a producer is refused with fewer than k blocks' worth of elements queued
   * only while a block is in some thread's hands or awaits a delayed push, or after another producer has linked a
   * block behind the one this producer found full.
   */
  lemma RefusedOnlyWhen(states: seq<State>, labels: seq<Label>, k: nat, i: nat, p: nat)
    requires IsRun(states, labels, k) && i < |states| && Ids(states[i]) && Refusing(states[i], p)
    ensures var s := states[i];
      && s.fl.list == [] && |s.blocks| >= k + 1
      && (|s.q| >= k * SIZE || Count(s.fl.place, InHand) > 0 || Count(s.fl.place, InPush) > 0
          || s.pcs[p].t != Last(s.chain))
  {
    RunInv(states, labels, k, i);
    BlocksCounted(states, labels, k, i);
    RefusedFull(states[i], p);
    Basics.Times(k, |states[i].blocks| - 1, SIZE);
  }

  lemma RefusedFull(s: State, p: nat)
    requires Inv(s) && Refusing(s, p)
    ensures s.fl.list == []
    ensures || |s.q| >= (|s.blocks| - 1) * SIZE || s.pcs[p].t != Last(s.chain)
            || Count(s.fl.place, InHand) > 0 || Count(s.fl.place, InPush) > 0
  {
    Partition(s);
    assert ProducerOk(s, p);
    if Count(s.fl.place, InHand) == 0 && Count(s.fl.place, InPush) == 0 && s.pcs[p].t == Last(s.chain) { FullQueue(s); }
  }
}
