/**
 * The queue of include/salticidae/queue.h used by one thread at a time, bounded or not: a chain of fixed-size
 * blocks, recycled through a free list, is a double-ended sequence.  The chain and the free list are kept in
 * order of their links.
 */
module BlockQueues {
  import Basics
  import QM = QueueMachine

  const SIZE: nat := QM.SIZE
  type Elem = QM.Elem

  datatype Cell = Cell(head: nat, tail: nat, elem: seq<Elem>, avail: seq<bool>) {
    predicate Shape() { |elem| == SIZE && |avail| == SIZE && head <= tail <= SIZE }

    /** Exactly the slots that hold an element are marked as available. */
    predicate Ok() { Shape() && forall i :: 0 <= i < SIZE ==> avail[i] == (head <= i < tail) }

    /** A block that can be reused: nothing is marked. */
    predicate Clear() { |elem| == SIZE && |avail| == SIZE && forall i :: 0 <= i < SIZE ==> !avail[i] }

    function Elems(): seq<Elem>
      requires Shape()
    {
      elem[head..tail]
    }
  }

  predicate Shaped(chain: seq<Cell>) { forall i :: 0 <= i < |chain| ==> chain[i].Shape() }

  /** The elements of a chain, in order. */
  function Contents(chain: seq<Cell>): seq<Elem>
    requires Shaped(chain)
  {
    if chain == [] then [] else chain[0].Elems() + Contents(chain[1..])
  }

  lemma {:induction false} ContentsConcat(a: seq<Cell>, b: seq<Cell>)
    requires Shaped(a) && Shaped(b)
    ensures Contents(a + b) == Contents(a) + Contents(b)
  {
    if a == [] {
      assert a + b == b;
    } else {
      assert (a + b)[1..] == a[1..] + b;
      ContentsConcat(a[1..], b);
    }
  }

  lemma ContentsOne(c: Cell)
    requires c.Shape()
    ensures Contents([c]) == c.Elems()
  {
    assert [c][1..] == [];
  }

  /** Only the first block may have a head above 0, and only the last a tail below SIZE. */
  predicate ChainOk(chain: seq<Cell>) {
    && chain != []
    && (forall i :: 0 <= i < |chain| ==> chain[i].Ok())
    && (forall i :: 0 <= i < |chain| - 1 ==> chain[i].tail == SIZE)
    && (forall i :: 0 < i < |chain| ==> chain[i].head == 0)
  }

  predicate FreeOk(free: seq<Cell>) { forall i :: 0 <= i < |free| ==> free[i].Clear() }

  function Fresh(): (c: Cell)
    ensures c.Clear() && c.Ok()
  {
    Cell(0, 0, seq(SIZE, _ => 0), seq(SIZE, _ => false))
  }

  /** The last block changes from c to d. */
  lemma LastChanged(chain: seq<Cell>, d: Cell)
    requires Shaped(chain) && chain != [] && d.Shape()
    ensures var init := chain[..|chain| - 1];
      Contents(chain) == Contents(init) + chain[|chain| - 1].Elems()
          && Contents(init + [d]) == Contents(init) + d.Elems()
  {
    var init, c := chain[..|chain| - 1], chain[|chain| - 1];
    assert chain == init + [c];
    ContentsConcat(init, [c]);
    ContentsConcat(init, [d]);
    ContentsOne(c);
    ContentsOne(d);
  }

  // ----- capacity -----

  /** A chain holds at least its blocks after the first, if the last is full, and never more than its blocks. */
  lemma {:induction false} ChainSize(chain: seq<Cell>)
    requires ChainOk(chain)
    ensures |Contents(chain)| <= |chain| * SIZE
    ensures chain[|chain| - 1].tail == SIZE ==> |Contents(chain)| >= (|chain| - 1) * SIZE
  {
    if |chain| == 1 {
      ContentsOne(chain[0]);
      assert chain == [chain[0]];
    } else {
      var rest := chain[1..];
      assert ChainOk(rest);
      ChainSize(rest);
      if chain[|chain| - 1].tail == SIZE { FullRest(rest); }
    }
  }

  /** A chain of blocks that all start at 0 and are all full. */
  lemma {:induction false} FullRest(chain: seq<Cell>)
    requires Shaped(chain) && forall i :: 0 <= i < |chain| ==> chain[i].head == 0 && chain[i].tail == SIZE
    ensures |Contents(chain)| == |chain| * SIZE
  {
    if chain != [] { FullRest(chain[1..]); }
  }

  class BlockQueue {
    var chain: seq<Cell>
    var free: seq<Cell>             // top of the free list first
    const k: nat                    // blocks set aside by set_capacity
    ghost var added: nat            // blocks allocated since

    ghost predicate Valid()
      reads this
    {
      ChainOk(chain) && FreeOk(free) && |chain| + |free| == 1 + k + added
    }

    function Elems(): seq<Elem>
      requires ChainOk(chain)
      reads this
    {
      Contents(chain)
    }

    /** The constructor and set_capacity. */
    constructor (capacity: nat)
      ensures Valid() && Elems() == [] && added == 0 && k == (if capacity / SIZE > 1 then capacity / SIZE else 1)
    {
      k := if capacity / SIZE > 1 then capacity / SIZE else 1;
      chain, added := [Fresh()], 0;
      free := seq(if capacity / SIZE > 1 then capacity / SIZE else 1, _ => Fresh());
      new;
      ContentsOne(Fresh());
    }

    /** A recycled or new block; none if the queue is bounded and has none left. */
    method Take(unbounded: bool) returns (found: bool, c: Cell)
      requires Valid()
      modifies this`free, this`added
      ensures found == (unbounded || old(free) != [])
      ensures found ==> c.Clear() && FreeOk(free) && |chain| + 1 + |free| == 1 + k + added
      ensures !found ==> free == old(free) && added == old(added)
      ensures old(free) != [] ==> added == old(added)
      ensures added >= old(added)
    {
      if free != [] {
        c, free := free[0], free[1..];
        return true, c;
      }
      if unbounded { added := added + 1; }
      return unbounded, Fresh();
    }

    /**
     * _enqueue: append.  A bounded queue refuses only if it holds at least the capacity set aside, and unless
     * blocks were added it never holds more than one block above it.
     */
    method Enqueue(e: Elem, unbounded: bool) returns (ok: bool)
      requires Valid()
      modifies this
      ensures Valid() && Elems() == old(Elems()) + (if ok then [e] else [])
      ensures (unbounded ==> ok) && (!unbounded ==> added == old(added))
      ensures !ok ==> |Elems()| >= (k + added) * SIZE
      ensures |Elems()| <= (1 + k + added) * SIZE
    {
      ChainSize(chain);
      if chain[|chain| - 1].tail >= SIZE {
        var found, c := Take(unbounded);
        if !found {
          return false;
        }
        LinkOk(chain, c.(head := 0, tail := 0));
        chain := chain + [c.(head := 0, tail := 0)];
      }
      PutOk(chain, e);
      chain := chain[..|chain| - 1] + [Put(chain[|chain| - 1], e)];
      ok := true;
      ChainSize(chain);
    }

    /** try_dequeue: remove the front, failing only when empty. */
    method TryDequeue() returns (ok: bool, e: Elem)
      requires Valid()
      modifies this`chain, this`free
      ensures Valid() && ok == (old(Elems()) != [])
      ensures ok ==> old(Elems()) == [e] + Elems()
      ensures !ok ==> Elems() == []
    {
      while true
        invariant Valid() && Elems() == old(Elems())
        decreases |chain|
      {
        var h := chain[0];
        if h.head >= h.tail {
          if h.tail < SIZE || |chain| == 1 {
            ContentsOne(h);
            assert chain == [h];
            return false, 0;
          }
          AdvanceOk(chain);
          chain, free := chain[1..], [h] + free;
        } else {
          e := h.elem[h.head];
          GetOk(chain);
          chain := [Get(h)] + chain[1..];
          return true, e;
        }
      }
    }

    /** rewind: prepend, even onto an empty queue or a block with nothing before its head. */
    method Rewind(e: Elem)
      requires Valid()
      modifies this
      ensures Valid() && Elems() == [e] + old(Elems())
    {
      if chain[0].head == 0 {
        var _, c := Take(true);
        FrontOk(chain, c.(head := SIZE, tail := SIZE));
        chain := [c.(head := SIZE, tail := SIZE)] + chain;
      }
      UngetOk(chain, e);
      chain := [Unget(chain[0], e)] + chain[1..];
    }
  }

  /** A block without elements joins at the end. */
  lemma LinkOk(chain: seq<Cell>, c: Cell)
    requires ChainOk(chain) && chain[|chain| - 1].tail == SIZE && c.Clear() && c.head == c.tail == 0
    ensures ChainOk(chain + [c]) && Contents(chain + [c]) == Contents(chain)
  {
    LinkChain(chain, c);
    ContentsEmpty(chain, c);
  }

  lemma LinkChain(chain: seq<Cell>, c: Cell)
    requires ChainOk(chain) && chain[|chain| - 1].tail == SIZE && c.Ok() && c.head == 0
    ensures ChainOk(chain + [c])
  {
  }

  lemma ContentsEmpty(chain: seq<Cell>, c: Cell)
    requires Shaped(chain) && c.Shape() && c.head == c.tail
    ensures Contents(chain + [c]) == Contents(chain)
  {
    ContentsConcat(chain, [c]);
    ContentsOne(c);
    assert c.Elems() == [];
  }

  /** The last block takes an element. */
  function Put(c: Cell, e: Elem): Cell
    requires c.Shape() && c.tail < SIZE
  {
    c.(elem := c.elem[c.tail := e], avail := c.avail[c.tail := true], tail := c.tail + 1)
  }

  lemma PutCell(c: Cell, e: Elem)
    requires c.Ok() && c.tail < SIZE
    ensures Put(c, e).Ok() && Put(c, e).Elems() == c.Elems() + [e]
  {
  }

  lemma PutOk(chain: seq<Cell>, e: Elem)
    requires ChainOk(chain) && chain[|chain| - 1].tail < SIZE
    ensures var chain' := chain[..|chain| - 1] + [Put(chain[|chain| - 1], e)];
      ChainOk(chain') && Contents(chain') == Contents(chain) + [e]
  {
    var c := chain[|chain| - 1];
    PutCell(c, e);
    LastChanged(chain, Put(c, e));
    Basics.Assoc(Contents(chain[..|chain| - 1]), c.Elems(), [e]);
  }

  /** The first block changes to d. */
  lemma FirstChanged(chain: seq<Cell>, d: Cell)
    requires ChainOk(chain) && d.Ok() && d.tail == chain[0].tail
    ensures var chain' := [d] + chain[1..];
      ChainOk(chain') && Contents(chain') == d.Elems() + Contents(chain[1..])
          && Contents(chain) == chain[0].Elems() + Contents(chain[1..])
  {
    var chain' := [d] + chain[1..];
    assert chain'[1..] == chain[1..];
    assert Shaped(chain');
  }

  /** A used-up first block leaves, clear. */
  lemma AdvanceOk(chain: seq<Cell>)
    requires ChainOk(chain) && |chain| > 1 && chain[0].head >= chain[0].tail
    ensures ChainOk(chain[1..]) && Contents(chain[1..]) == Contents(chain) && chain[0].Clear()
  {
    assert chain[0].Elems() == [];
  }

  /** The first block gives up its front element. */
  function Get(c: Cell): Cell
    requires c.Shape() && c.head < c.tail
  {
    c.(head := c.head + 1, avail := c.avail[c.head := false])
  }

  lemma GetCell(c: Cell)
    requires c.Ok() && c.head < c.tail
    ensures Get(c).Ok() && c.Elems() == [c.elem[c.head]] + Get(c).Elems()
  {
  }

  lemma GetOk(chain: seq<Cell>)
    requires ChainOk(chain) && chain[0].head < chain[0].tail
    ensures var h := chain[0];
      var chain' := [Get(h)] + chain[1..];
      ChainOk(chain') && Contents(chain) == [h.elem[h.head]] + Contents(chain')
  {
    var h := chain[0];
    GetCell(h);
    FirstChanged(chain, Get(h));
    Basics.Assoc([h.elem[h.head]], Get(h).Elems(), Contents(chain[1..]));
  }

  /** An empty block, to be filled from its end, joins at the front. */
  lemma FrontOk(chain: seq<Cell>, c: Cell)
    requires ChainOk(chain) && chain[0].head == 0 && c.Clear() && c.head == c.tail == SIZE
    ensures ChainOk([c] + chain) && Contents([c] + chain) == Contents(chain)
  {
    assert ([c] + chain)[1..] == chain && c.Elems() == [];
  }

  /** The first block takes an element before its head. */
  function Unget(c: Cell, e: Elem): Cell
    requires c.Shape() && c.head > 0
  {
    c.(head := c.head - 1, elem := c.elem[c.head - 1 := e], avail := c.avail[c.head - 1 := true])
  }

  lemma UngetCell(c: Cell, e: Elem)
    requires c.Ok() && c.head > 0
    ensures Unget(c, e).Ok() && Unget(c, e).Elems() == [e] + c.Elems()
  {
  }

  lemma UngetOk(chain: seq<Cell>, e: Elem)
    requires ChainOk(chain) && chain[0].head > 0
    ensures var chain' := [Unget(chain[0], e)] + chain[1..];
      ChainOk(chain') && Contents(chain') == [e] + Contents(chain)
  {
    UngetCell(chain[0], e);
    FirstChanged(chain, Unget(chain[0], e));
    Basics.Assoc([e], chain[0].Elems(), Contents(chain[1..]));
  }
}
