/** Slots and contents: what each step of the queue machine does to the queued elements. */
module QueueSlots {
  import Basics
  import FL = FreeListMachine
  import opened QueueMachine
  import opened QueueInvariant
  import opened QueueProof

  ghost predicate AllSlots(s: State)
    requires Ids(s)
  {
    forall u, i: nat :: 0 <= u < |s.blocks| ==> SlotOk(s, u, i)
  }

  predicate Filling(pc: Pc) { pc.EnqWrite? || pc.EnqPublish? }

  /** Nothing about slots changes. */
  lemma SlotsSame(s: State, s': State, p: nat)
    requires Ids(s) && Ids(s') && AllSlots(s)
    requires p < |s.pcs| == |s'.pcs| && s'.pcs == s.pcs[p := s'.pcs[p]] && !Filling(s.pcs[p])
    requires s'.blocks == s.blocks && s'.chain == s.chain
    requires ConsumerSlot(s'.pcs[0]) == ConsumerSlot(s.pcs[0])
    ensures AllSlots(s')
  {
    forall u, i: nat | 0 <= u < |s'.blocks| ensures SlotOk(s', u, i) { assert SlotOk(s, u, i); }
  }

  /** A block without reserved slots changes its indices or link, or enters or leaves the chain. */
  lemma SlotsClear(s: State, s': State, p: nat, n: nat)
    requires Ids(s) && Ids(s') && AllSlots(s)
    requires p < |s.pcs| == |s'.pcs| && s'.pcs == s.pcs[p := s'.pcs[p]] && !Filling(s.pcs[p])
    requires n < |s.blocks| == |s'.blocks| && forall i: nat :: !Live(s, n, i) && !Live(s', n, i)
    requires s'.blocks[n].avail == s.blocks[n].avail && s'.blocks[n].writer == s.blocks[n].writer
    requires forall u :: 0 <= u < |s.blocks| && u != n ==> s'.blocks[u].(next := 0) == s.blocks[u].(next := 0)
    requires forall u :: u != n ==> (u in s'.chain <==> u in s.chain)
    requires ConsumerSlot(s'.pcs[0]) == ConsumerSlot(s.pcs[0])
    ensures AllSlots(s')
  {
    forall u, i: nat | 0 <= u < |s'.blocks| ensures SlotOk(s', u, i) {
      assert SlotOk(s, u, i);
      if u != n { assert s'.blocks[u].(next := 0) == s.blocks[u].(next := 0); }
    }
  }

  /** Block t of the chain changes one slot k. */
  lemma SlotsAt(s: State, s': State, p: nat, t: nat, k: nat)
    requires Ids(s) && AllSlots(s) && InChain(s, s', p, t) && Ids(s')
    requires Filling(s.pcs[p]) ==> s.pcs[p].t == t && s.pcs[p].i == k
    requires var b, b' := s.blocks[t], s'.blocks[t];
      forall i: nat :: i != k ==>
        && (Live(s', t, i) <==> Live(s, t, i)) && (i in b'.avail <==> i in b.avail)
        && (i in b.writer ==> i in b'.writer && b'.writer[i] == b.writer[i]) && (i in b'.writer ==> i in b.writer)
        && (i in b.res ==> i in b'.res && b'.res[i] == b.res[i])
        && (i in b.elem ==> i in b'.elem && b'.elem[i] == b.elem[i])
    requires SlotOk(s', t, k)
    requires forall u, i: nat :: 0 <= u < |s.blocks| && u != t ==>
             (ConsumerSlot(s'.pcs[0]) == (u, i) <==> ConsumerSlot(s.pcs[0]) == (u, i))
    ensures AllSlots(s')
  {
    forall u, i: nat | 0 <= u < |s'.blocks| ensures SlotOk(s', u, i) {
      assert SlotOk(s, u, i);
      if u == t && i != k && i in s.blocks[t].writer {
        assert WriterOk(s, t, i);
      }
      if u != t && i in s.blocks[u].writer {
        assert WriterOk(s, u, i);
      }
    }
  }

  // ----- the slot each step touches -----

  lemma ReserveSlot(s: State, s': State, p: nat)
    requires Ids(s) && 0 < p && Next(s, p, Step(true), s') && s.pcs[p].EnqReserve? && AllSlots(s) && Ids(s')
    requires InChain(s, s', p, s.pcs[p].t) && s.blocks[s.pcs[p].t].head <= s.blocks[s.pcs[p].t].tail && ConsumerOk(s)
    ensures AllSlots(s')
  {
    var t, k := s.pcs[p].t, s.pcs[p].i;
    assert SlotOk(s, t, k);
    SlotsAt(s, s', p, t, k);
  }

  lemma WriteSlot(s: State, s': State, p: nat, ok: bool)
    requires Ids(s) && 0 < p && Next(s, p, Step(ok), s') && s.pcs[p].EnqWrite? && AllSlots(s) && Ids(s')
             && ProducerOk(s, p)
    requires InChain(s, s', p, s.pcs[p].t)
    ensures AllSlots(s')
  {
    var t, k := s.pcs[p].t, s.pcs[p].i;
    assert SlotOk(s, t, k) && WriterOk(s, t, k);
    SlotsAt(s, s', p, t, k);
  }

  lemma PublishSlot(s: State, s': State, p: nat, ok: bool)
    requires Ids(s) && 0 < p && Next(s, p, Step(ok), s') && s.pcs[p].EnqPublish? && AllSlots(s) && Ids(s')
             && ProducerOk(s, p)
    requires InChain(s, s', p, s.pcs[p].t)
    ensures AllSlots(s')
  {
    var t, k := s.pcs[p].t, s.pcs[p].i;
    assert SlotOk(s, t, k) && WriterOk(s, t, k);
    SlotsAt(s, s', p, t, k);
  }

  lemma BumpSlot(s: State, s': State, ok: bool)
    requires Ids(s) && Next(s, 0, Step(ok), s') && s.pcs[0].DeqBump? && AllSlots(s) && Ids(s') && ConsumerOk(s)
    requires InChain(s, s', 0, s.head)
    ensures AllSlots(s')
  {
    var t, k := s.pcs[0].h, s.pcs[0].i;
    assert SlotOk(s, t, k);
    if k in s.blocks[t].writer { assert WriterOk(s, t, k); }
    SlotsAt(s, s', 0, t, k);
  }

  lemma ClearSlot(s: State, s': State, ok: bool)
    requires Ids(s) && Next(s, 0, Step(ok), s') && s.pcs[0].DeqClear? && AllSlots(s) && Ids(s') && ConsumerOk(s)
    requires InChain(s, s', 0, s.head)
    ensures AllSlots(s')
  {
    var t, k := s.pcs[0].h, s.pcs[0].i;
    assert SlotOk(s, t, k);
    SlotsAt(s, s', 0, t, k);
  }

  lemma RewFillSlot(s: State, s': State, ok: bool)
    requires Ids(s) && Next(s, 0, Step(ok), s') && AllSlots(s) && Ids(s') && ConsumerOk(s)
    requires s.pcs[0].RewWrite? || s.pcs[0].RewPublish?
    requires InChain(s, s', 0, s.head)
    ensures AllSlots(s')
  {
    var t, k := s.pcs[0].h, s.pcs[0].i;
    assert SlotOk(s, t, k);
    SlotsAt(s, s', 0, t, k);
  }

  lemma RewStoreSlot(s: State, s': State, ok: bool)
    requires Ids(s) && Next(s, 0, Step(ok), s') && AllSlots(s) && Ids(s') && ConsumerOk(s) && s.pcs[0].RewStore?
    requires HeadInRange(s) && InChain(s, s', 0, s.head)
    ensures AllSlots(s')
  {
    var t, k := s.pcs[0].h, s.pcs[0].i;
    assert SlotOk(s, t, k);
    SlotsAt(s, s', 0, t, k);
  }

  // ----- contents -----

  predicate InBlocks(blocks: seq<Block>, chain: seq<nat>) { forall i :: 0 <= i < |chain| ==> chain[i] < |blocks| }

  /** Two blocks hold the same elements. */
  predicate SameSlice(b: Block, b': Block) {
    b'.head == b.head && b'.tail == b.tail && forall i :: b.head <= i < b.tail ==> Val(b', i) == Val(b, i)
  }

  lemma {:induction false} ValsSame(b: Block, b': Block, lo: nat, hi: nat)
    requires forall i :: lo <= i < hi ==> Val(b', i) == Val(b, i)
    ensures Vals(b', lo, hi) == Vals(b, lo, hi)
  {
    if lo < hi { ValsSame(b, b', lo, hi - 1); }
  }

  lemma {:induction false} ValsFront(b: Block, lo: nat, hi: nat)
    requires lo < hi
    ensures Vals(b, lo, hi) == [Val(b, lo)] + Vals(b, lo + 1, hi)
  {
    if lo + 1 < hi { ValsFront(b, lo, hi - 1); }
  }

  lemma {:induction false} ContentsSame(blocks: seq<Block>, blocks': seq<Block>, chain: seq<nat>)
    requires InBlocks(blocks, chain) && InBlocks(blocks', chain)
    requires forall u :: u in chain ==> SameSlice(blocks[u], blocks'[u])
    ensures Contents(blocks', chain) == Contents(blocks, chain)
  {
    if chain != [] {
      assert chain[0] in chain;
      ValsSame(blocks[chain[0]], blocks'[chain[0]], blocks[chain[0]].head, blocks[chain[0]].tail);
      ContentsSame(blocks, blocks', chain[1..]);
    }
  }

  lemma {:induction false} ContentsConcat(blocks: seq<Block>, a: seq<nat>, b: seq<nat>)
    requires InBlocks(blocks, a) && InBlocks(blocks, b)
    ensures InBlocks(blocks, a + b) && Contents(blocks, a + b) == Contents(blocks, a) + Contents(blocks, b)
  {
    if a == [] {
      assert a + b == b;
    } else {
      assert (a + b)[1..] == a[1..] + b;
      ContentsConcat(blocks, a[1..], b);
      Basics.Assoc(Slice(blocks[a[0]]), Contents(blocks, a[1..]), Contents(blocks, b));
    }
  }

  lemma ContentsSplitLast(blocks: seq<Block>, chain: seq<nat>)
    requires InBlocks(blocks, chain) && chain != []
    ensures Contents(blocks, chain) == Contents(blocks, chain[..|chain| - 1]) + Slice(blocks[chain[|chain| - 1]])
  {
    var n := |chain| - 1;
    assert chain == chain[..n] + [chain[n]];
    ContentsConcat(blocks, chain[..n], [chain[n]]);
    assert Contents(blocks, [chain[n]]) == Slice(blocks[chain[n]]) + Contents(blocks, []);
  }

  /** Reserving the next slot of the last block appends. */
  lemma ContentsAppend(blocks: seq<Block>, chain: seq<nat>, b': Block, e: Elem)
    requires InBlocks(blocks, chain) && chain != []
    requires forall i, j :: 0 <= i < j < |chain| ==> chain[i] != chain[j]
    requires var b := blocks[chain[|chain| - 1]];
      b.head <= b.tail && b'.head == b.head && b'.tail == b.tail + 1 && b'.res == b.res[b.tail := e]
    ensures InBlocks(blocks[chain[|chain| - 1] := b'], chain)
    ensures Contents(blocks[chain[|chain| - 1] := b'], chain) == Contents(blocks, chain) + [e]
  {
    var n := |chain| - 1;
    var l := chain[n];
    var blocks' := blocks[l := b'];
    ContentsSplitLast(blocks, chain);
    ContentsSplitLast(blocks', chain);
    ValsSame(blocks[l], b', b'.head, b'.tail - 1);
    ContentsSame(blocks, blocks', chain[..n]);
  }

  /** Changing only the first block changes only the front of the contents. */
  lemma ContentsFirst(blocks: seq<Block>, chain: seq<nat>, b': Block)
    requires InBlocks(blocks, chain) && chain != []
    requires forall i, j :: 0 <= i < j < |chain| ==> chain[i] != chain[j]
    ensures InBlocks(blocks[chain[0] := b'], chain)
    ensures Contents(blocks, chain) == Slice(blocks[chain[0]]) + Contents(blocks, chain[1..])
    ensures Contents(blocks[chain[0] := b'], chain) == Slice(b') + Contents(blocks, chain[1..])
  {
    var blocks' := blocks[chain[0] := b'];
    forall u | u in chain[1..] ensures SameSlice(blocks[u], blocks'[u]) {
      var j :| 1 <= j < |chain| && chain[j] == u;
    }
    ContentsSame(blocks, blocks', chain[1..]);
  }

  /** Advancing past the first slot removes the front element. */
  lemma ContentsAdvance(blocks: seq<Block>, chain: seq<nat>, b': Block)
    requires InBlocks(blocks, chain) && chain != []
    requires forall i, j :: 0 <= i < j < |chain| ==> chain[i] != chain[j]
    requires var b := blocks[chain[0]]; b.head < b.tail && b' == b.(head := b.head + 1)
    ensures InBlocks(blocks[chain[0] := b'], chain)
    ensures var q := Contents(blocks, chain);
      q != [] && q[0] == Val(blocks[chain[0]], blocks[chain[0]].head)
          && Contents(blocks[chain[0] := b'], chain) == q[1..]
  {
    ContentsFirst(blocks, chain, b');
    var b := blocks[chain[0]];
    ValsFront(b, b.head, b.tail);
    ValsSame(b, b', b'.head, b'.tail);
  }

  /** Moving head back over a slot prepends its element. */
  lemma ContentsBack(blocks: seq<Block>, chain: seq<nat>, b': Block)
    requires InBlocks(blocks, chain) && chain != []
    requires forall i, j :: 0 <= i < j < |chain| ==> chain[i] != chain[j]
    requires var b := blocks[chain[0]]; 0 < b.head <= b.tail && b' == b.(head := b.head - 1)
    ensures InBlocks(blocks[chain[0] := b'], chain)
    ensures Contents(blocks[chain[0] := b'], chain) == [Val(b', b'.head)] + Contents(blocks, chain)
  {
    ContentsFirst(blocks, chain, b');
    var b := blocks[chain[0]];
    ValsFront(b', b'.head, b'.tail);
    ValsSame(b, b', b.head, b.tail);
  }
}
