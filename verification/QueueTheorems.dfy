/** The bounded queue over every interleaving of any number of producers and the consumer. */
module QueueTheorems {
  import FL = FreeListMachine
  import opened QueueMachine
  import opened QueueInvariant
  import opened QueueProof
  import opened QueueSlots

  // ----- structure -----

  lemma FlInv(s: State, p: nat, c: Choice, s': State)
    requires Structure(s) && Next(s, p, c, s')
    ensures FL.Inv(s'.fl)
  {
    var call := if !c.Step? then [] else if p == 0 then ConCall(s, c.ok) else EnqCall(s, p, c.ok);
    if call != [] { FL.StepKeepsInv(s.fl, p, call[0]); }
  }

  lemma CallStructure(s: State, s': State, p: nat, ok: bool)
    requires Structure(s) && Next(s, p, Step(ok), s') && InCall(s.pcs[p]) && !FL.AtRest(s.fl.threads[p].pc)
    ensures Structure(s') && s' == s.(fl := s'.fl)
  {
    assert ThreadOk(s, p);
    CallStep(s.fl, p, ok);
    FL.StepKeepsInv(s.fl, p, FL.Internal(ok));
    CallKeepsStructure(s, s', p);
  }

  lemma HeadFacts(s: State)
    requires Ids(s) && ChainOk(s)
    ensures HeadInRange(s) && s.head in s.chain
  {
    assert LinkOk(s, 0);
  }

  /** A chain block's indices are in order; one with room is the last. */
  lemma ChainFacts(s: State, u: nat)
    requires Ids(s) && ChainOk(s) && u in s.chain
    ensures s.blocks[u].head <= s.blocks[u].tail <= SIZE
    ensures s.blocks[u].tail < SIZE || s.blocks[u].next == NIL ==> u == Last(s.chain)
  {
    var i :| 0 <= i < |s.chain| && s.chain[i] == u;
    assert LinkOk(s, i);
  }

  lemma AcquireMoved(s: State, s': State, p: nat, ok: bool)
    requires Structure(s) && 0 < p && Next(s, p, Step(ok), s')
    requires s.pcs[p].EnqTail? || s.pcs[p].EnqCount? || s.pcs[p].EnqRef?
    ensures EnqMoved(s, s', p)
  {
    assert ThreadOk(s, p);
    EnqAcquireSteps(s, s', p, ok);
  }

  lemma SeenMoved(s: State, s': State, p: nat, ok: bool)
    requires Structure(s) && 0 < p && Next(s, p, Step(ok), s')
    requires s.pcs[p].EnqFreed? || s.pcs[p].EnqIndex? || s.pcs[p].EnqNext?
    ensures EnqMoved(s, s', p)
  {
    assert ThreadOk(s, p) && ProducerOk(s, p);
    var t := s.pcs[p].t;
    if s.pcs[p].EnqFreed? {
      if !s.fl.nodes[t].freed {
        assert FreedOk(s, t);
        UnfreedIsThere(s, p, t);
      }
      EnqFreedStep(s, s', p, ok);
    } else {
      TailWithinBlock(s, t);
      EnqInspectSteps(s, s', p, ok);
    }
  }

  lemma ReturnMoved(s: State, s': State, p: nat, ok: bool)
    requires Structure(s) && 0 < p && Next(s, p, Step(ok), s')
    requires s.pcs[p].EnqPop? || s.pcs[p].EnqPush? || s.pcs[p].EnqRelease?
    requires FL.AtRest(s.fl.threads[p].pc)
    ensures EnqMoved(s, s', p)
  {
    assert ThreadOk(s, p) && ProducerOk(s, p);
    EnqReturnSteps(s, s', p, ok);
  }

  lemma GiveUpMoved(s: State, s': State, p: nat, ok: bool)
    requires Structure(s) && 0 < p && Next(s, p, Step(ok), s')
    requires s.pcs[p].EnqLeave? || (!ok && (s.pcs[p].EnqLink? || s.pcs[p].EnqReserve?))
    ensures EnqMoved(s, s', p)
  {
    assert ThreadOk(s, p) && ProducerOk(s, p);
    if s.pcs[p].EnqLeave? { EnqLeaveStep(s, s', p, ok); } else { EnqGiveUpSteps(s, s', p, ok); }
  }

  lemma ReserveInChain(s: State, s': State, p: nat)
    requires Structure(s) && AllSlots(s) && 0 < p && Next(s, p, Step(true), s') && s.pcs[p].EnqReserve?
    ensures Structure(s') && InChain(s, s', p, s.pcs[p].t) && s.pcs[p].t == Last(s.chain)
    ensures s.blocks[s.pcs[p].t].head <= s.blocks[s.pcs[p].t].tail
  {
    var t := s.pcs[p].t;
    assert ThreadOk(s, p) && ProducerOk(s, p) && StillThere(s, t);
    ChainFacts(s, t);
    assert SlotOk(s, t, s.pcs[p].i);
    ReserveSelf(s, s', p);
    InChainKeepsStructure(s, s', p, t);
  }

  lemma FillInChain(s: State, s': State, p: nat, ok: bool)
    requires Structure(s) && AllSlots(s) && 0 < p && Next(s, p, Step(ok), s') && Filling(s.pcs[p])
    ensures Structure(s') && InChain(s, s', p, s.pcs[p].t)
  {
    var t := s.pcs[p].t;
    assert ThreadOk(s, p) && ProducerOk(s, p);
    ChainFacts(s, t);
    assert SlotOk(s, t, s.pcs[p].i);
    if s.pcs[p].EnqWrite? { WriteSelf(s, s', p, ok); } else { PublishSelf(s, s', p, ok); }
    InChainKeepsStructure(s, s', p, t);
  }

  // ----- contents and history -----

  /** The history side of the invariant. */
  predicate Told(s: State)
    requires Ids(s) && ChainOk(s)
  {
    s.q == Contents(s.blocks, s.chain) && Replay(s.hist) == Holding(s.q) && GotOk(s)
  }

  /** Nothing the history speaks of changes. */
  lemma ToldSame(s: State, s': State)
    requires Ids(s) && ChainOk(s) && Ids(s') && ChainOk(s') && Told(s)
    requires s'.q == s.q && s'.hist == s.hist && s'.got == s.got && s'.chain == s.chain && |s'.blocks| >= |s.blocks|
    requires forall u :: u in s.chain ==> SameSlice(s.blocks[u], s'.blocks[u])
    requires ConsumerSlot(s'.pcs[0]) == ConsumerSlot(s.pcs[0]) && s'.pcs[0].RewStore? == s.pcs[0].RewStore?
    requires var c := ConsumerSlot(s.pcs[0]); c.0 != NIL && c.1 >= 0 ==>
             Val(s'.blocks[c.0], c.1) == Val(s.blocks[c.0], c.1)
    ensures Told(s')
  {
    ContentsSame(s.blocks, s'.blocks, s.chain);
  }

  lemma ReplaySnoc(hist: seq<Event>, ev: Event)
    ensures Replay(hist + [ev]) == ApplyEvent(Replay(hist), ev)
    ensures Takes(hist + [ev]) == Takes(hist) + (if ev.Take? then [ev.e] else [])
  {
    assert (hist + [ev])[..|hist|] == hist;
  }

  /** What a producer's step does to the history. */
  lemma EnqHistory(s: State, s': State, p: nat, ok: bool)
    requires Ids(s) && 0 < p && Next(s, p, Step(ok), s')
    ensures s'.got == s.got && s'.pcs[0] == s.pcs[0]
    ensures if s.pcs[p].EnqReserve? && ok then s'.q == s.q + [s.pcs[p].e] && s'.hist == s.hist + [Accept(s.pcs[p].e)]
            else s'.q == s.q && s'.hist == s.hist
  {
  }

  /** Reserving a slot appends the producer's element to the queue, at the moment of the compare-exchange. */
  lemma ReserveTold(s: State, s': State, p: nat)
    requires Ids(s) && ChainOk(s) && Told(s) && 0 < p && Next(s, p, Step(true), s') && s.pcs[p].EnqReserve?
    requires ConsumerOk(s) && Ids(s') && ChainOk(s') && InChain(s, s', p, s.pcs[p].t) && s.pcs[p].t == Last(s.chain)
    requires s.blocks[s.pcs[p].t].head <= s.blocks[s.pcs[p].t].tail
    ensures Told(s')
  {
    EnqHistory(s, s', p, true);
    ReplaySnoc(s.hist, Accept(s.pcs[p].e));
    ReserveContents(s, s', p);
    assert GotOk(s');
  }

  lemma ReserveContents(s: State, s': State, p: nat)
    requires Ids(s) && ChainOk(s) && 0 < p && Next(s, p, Step(true), s') && s.pcs[p].EnqReserve?
    requires Ids(s') && ChainOk(s') && InChain(s, s', p, s.pcs[p].t) && s.pcs[p].t == Last(s.chain)
    requires s.blocks[s.pcs[p].t].head <= s.blocks[s.pcs[p].t].tail
    ensures Contents(s'.blocks, s'.chain) == Contents(s.blocks, s.chain) + [s.pcs[p].e]
  {
    ContentsAppend(s.blocks, s.chain, s'.blocks[s.pcs[p].t], s.pcs[p].e);
  }

  lemma LinkTold(s: State, s': State, p: nat)
    requires Ids(s) && ChainOk(s) && Told(s) && LinkReady(s, p) && LinkDone(s, s', p) && Ids(s') && ChainOk(s')
    ensures Told(s')
  {
    var n := s.pcs[p].n;
    ContentsConcat(s'.blocks, s.chain, [n]);
    ContentsSame(s.blocks, s'.blocks, s.chain);
    assert Contents(s'.blocks, [n]) == Slice(s'.blocks[n]) + Contents(s'.blocks, []);
  }

  // ----- a producer's steps -----

  /** The invariant again, with the history in one predicate. */
  lemma InvParts(s: State)
    requires Ids(s) && ChainOk(s)
    ensures Inv(s) <==> Structure(s) && AllSlots(s) && Told(s)
  {
  }

  /** Nothing takes effect. */
  predicate SameStory(s: State, s': State) { s'.q == s.q && s'.hist == s.hist && s'.got == s.got }

  lemma EnqMovedInv(s: State, s': State, p: nat)
    requires Structure(s) && AllSlots(s) && Told(s) && EnqMoved(s, s', p) && SameStory(s, s') && FL.Inv(s'.fl)
    requires !Filling(s.pcs[p])
    ensures Inv(s')
  {
    EnqMovedKeepsStructure(s, s', p);
    SlotsSame(s, s', p);
    ToldSame(s, s');
    InvParts(s');
  }

  /** The producer only reads, takes or drops a reference, or gives up. */
  predicate Plain(s: State, p: nat, ok: bool)
    requires Ids(s) && p < |s.pcs|
  {
    match s.pcs[p]
    case EnqTail(_) | EnqCount(_, _) | EnqRef(_, _, _) | EnqFreed(_, _) | EnqIndex(_, _) => true
    case EnqNext(_, _) | EnqLeave(_, _, _) => true
    case EnqPop(_, _) | EnqPush(_, _) | EnqRelease(_, _) => FL.AtRest(s.fl.threads[p].pc)
    case EnqLink(_, _, _) | EnqReserve(_, _, _) => !ok
    case _ => false
  }

  lemma PlainMoved(s: State, s': State, p: nat, ok: bool)
    requires Structure(s) && 0 < p && Next(s, p, Step(ok), s') && Plain(s, p, ok)
    ensures EnqMoved(s, s', p)
  {
    var pc := s.pcs[p];
    if pc.EnqTail? || pc.EnqCount? || pc.EnqRef? {
      AcquireMoved(s, s', p, ok);
    } else if pc.EnqFreed? || pc.EnqIndex? || pc.EnqNext? {
      SeenMoved(s, s', p, ok);
    } else if pc.EnqPop? || pc.EnqPush? || pc.EnqRelease? {
      ReturnMoved(s, s', p, ok);
    } else {
      GiveUpMoved(s, s', p, ok);
    }
  }

  lemma PlainInv(s: State, s': State, p: nat, ok: bool)
    requires Structure(s) && AllSlots(s) && Told(s) && 0 < p && Next(s, p, Step(ok), s') && FL.Inv(s'.fl)
             && Plain(s, p, ok)
    ensures Inv(s')
  {
    PlainMoved(s, s', p, ok);
    EnqHistory(s, s', p, ok);
    EnqMovedInv(s, s', p);
  }

  lemma CallInv(s: State, s': State, p: nat, ok: bool)
    requires Structure(s) && AllSlots(s) && Told(s) && Next(s, p, Step(ok), s')
    requires InCall(s.pcs[p]) && !FL.AtRest(s.fl.threads[p].pc)
    ensures Inv(s')
  {
    CallStructure(s, s', p, ok);
    SlotsSame(s, s', p);
    ToldSame(s, s');
    InvParts(s');
  }

  /** Outside reserving and linking, a producer changes no queued element. */
  lemma EnqBlocks(s: State, s': State, p: nat, ok: bool)
    requires Ids(s) && 0 < p && Next(s, p, Step(ok), s')
    requires Filling(s.pcs[p]) || s.pcs[p].EnqHead0? || s.pcs[p].EnqTail0? || s.pcs[p].EnqNext0?
    ensures |s'.blocks| == |s.blocks| && s'.chain == s.chain
    ensures forall u :: 0 <= u < |s.blocks| ==> s'.blocks[u].res == s.blocks[u].res
    ensures forall u :: 0 <= u < |s.blocks| && (Filling(s.pcs[p]) || u != s.pcs[p].n) ==>
            SameSlice(s.blocks[u], s'.blocks[u])
  {
  }

  lemma PrepareInv(s: State, s': State, p: nat, ok: bool)
    requires Structure(s) && AllSlots(s) && Told(s) && 0 < p && Next(s, p, Step(ok), s')
    requires s.pcs[p].EnqHead0? || s.pcs[p].EnqTail0? || s.pcs[p].EnqNext0?
    ensures Inv(s')
  {
    assert ThreadOk(s, p) && ThreadOk(s, 0);
    PreparedIsPrivate(s, p, s.pcs[p].n);
    EnqPrepareSteps(s, s', p, ok);
    PrepareSlots(s, s', p, ok);
    PrepareTold(s, s', p, ok);
    InvParts(s');
  }

  lemma PrepareSlots(s: State, s': State, p: nat, ok: bool)
    requires Ids(s) && AllSlots(s) && Ids(s') && 0 < p && Next(s, p, Step(ok), s')
    requires s.pcs[p].EnqHead0? || s.pcs[p].EnqTail0? || s.pcs[p].EnqNext0?
    requires s.pcs[p].n !in s.chain
    ensures AllSlots(s')
  {
    SlotsClear(s, s', p, s.pcs[p].n);
  }

  lemma PrepareTold(s: State, s': State, p: nat, ok: bool)
    requires Ids(s) && ChainOk(s) && Told(s) && Ids(s') && ChainOk(s') && 0 < p && Next(s, p, Step(ok), s')
    requires s.pcs[p].EnqHead0? || s.pcs[p].EnqTail0? || s.pcs[p].EnqNext0?
    requires s.pcs[p].n !in s.chain
    ensures Told(s')
  {
    EnqHistory(s, s', p, ok);
    EnqBlocks(s, s', p, ok);
    ToldSame(s, s');
  }

  lemma LinkInv(s: State, s': State, p: nat)
    requires Structure(s) && AllSlots(s) && Told(s) && 0 < p && Next(s, p, Step(true), s') && s.pcs[p].EnqLink?
             && FL.Inv(s'.fl)
    ensures Inv(s')
  {
    LinkTarget(s, p);
    LinkSteps(s, s', p, true);
    LinkKeepsStructure(s, s', p);
    var n := s.pcs[p].n;
    assert s.head in s.chain;
    SlotsClear(s, s', p, n);
    LinkTold(s, s', p);
    InvParts(s');
  }

  lemma OpenInv(s: State, s': State, p: nat, ok: bool)
    requires Structure(s) && AllSlots(s) && Told(s) && 0 < p && Next(s, p, Step(ok), s') && FL.Inv(s'.fl)
             && Linking(s.pcs[p])
    ensures Inv(s')
  {
    LinkSteps(s, s', p, ok);
    if s.pcs[p].EnqSetTail? { TailSetKeepsStructure(s, s', p); } else { UnfreedKeepsStructure(s, s', p, s.pcs[p].n); }
    OpenRest(s, s', p, ok);
    InvParts(s');
  }

  lemma OpenRest(s: State, s': State, p: nat, ok: bool)
    requires Ids(s) && ChainOk(s) && AllSlots(s) && Told(s) && Ids(s') && ChainOk(s') && 0 < p
             && Next(s, p, Step(ok), s')
    requires Linking(s.pcs[p])
    ensures AllSlots(s') && Told(s')
  {
    EnqHistory(s, s', p, ok);
    SlotsSame(s, s', p);
    ToldSame(s, s');
  }

  lemma ReserveInv(s: State, s': State, p: nat)
    requires Structure(s) && AllSlots(s) && Told(s) && 0 < p && Next(s, p, Step(true), s') && s.pcs[p].EnqReserve?
    ensures Inv(s')
  {
    ReserveInChain(s, s', p);
    ReserveSlot(s, s', p);
    ReserveTold(s, s', p);
    InvParts(s');
  }

  lemma FillInv(s: State, s': State, p: nat, ok: bool)
    requires Structure(s) && AllSlots(s) && Told(s) && 0 < p && Next(s, p, Step(ok), s') && Filling(s.pcs[p])
    ensures Inv(s')
  {
    assert ProducerOk(s, p);
    FillInChain(s, s', p, ok);
    if s.pcs[p].EnqWrite? { WriteSlot(s, s', p, ok); } else { PublishSlot(s, s', p, ok); }
    FillTold(s, s', p, ok);
    InvParts(s');
  }

  lemma FillTold(s: State, s': State, p: nat, ok: bool)
    requires Ids(s) && ChainOk(s) && Told(s) && Ids(s') && ChainOk(s') && 0 < p && Next(s, p, Step(ok), s')
             && Filling(s.pcs[p])
    ensures Told(s')
  {
    EnqHistory(s, s', p, ok);
    EnqBlocks(s, s', p, ok);
    ToldSame(s, s');
  }

  lemma EnqLateInv(s: State, s': State, p: nat, ok: bool)
    requires Structure(s) && AllSlots(s) && Told(s) && 0 < p && Next(s, p, Step(ok), s') && FL.Inv(s'.fl)
    requires !Plain(s, p, ok)
    ensures Inv(s')
  {
    assert ThreadOk(s, p);
    LateKinds(s, p, ok);
    if InCall(s.pcs[p]) {
      CallInv(s, s', p, ok);
    } else if Filling(s.pcs[p]) {
      FillInv(s, s', p, ok);
    } else if Linking(s.pcs[p]) {
      OpenInv(s, s', p, ok);
    } else if s.pcs[p].EnqLink? {
      LinkInv(s, s', p);
    } else if s.pcs[p].EnqReserve? {
      ReserveInv(s, s', p);
    } else {
      PrepareInv(s, s', p, ok);
    }
  }

  lemma EnqInv(s: State, s': State, p: nat, ok: bool)
    requires Structure(s) && AllSlots(s) && Told(s) && 0 < p && Next(s, p, Step(ok), s') && FL.Inv(s'.fl)
    ensures Inv(s')
  {
    if Plain(s, p, ok) {
      PlainInv(s, s', p, ok);
    } else {
      EnqLateInv(s, s', p, ok);
    }
  }

  /** What is left of a producer's steps. */
  lemma LateKinds(s: State, p: nat, ok: bool)
    requires Ids(s) && 0 < p < |s.pcs| && ThreadOk(s, p) && s.pcs[p] != Idle && !Plain(s, p, ok)
    ensures InCall(s.pcs[p]) ==> !FL.AtRest(s.fl.threads[p].pc)
    ensures InCall(s.pcs[p]) || s.pcs[p].EnqHead0? || s.pcs[p].EnqTail0? || s.pcs[p].EnqNext0? || s.pcs[p].EnqLink?
            || Linking(s.pcs[p])
            || s.pcs[p].EnqReserve? || Filling(s.pcs[p])
  {
  }

  // ----- the consumer's steps -----

  /** try_dequeue reports emptiness at a load that shows the queue empty. */
  predicate Misses(s: State)
    requires Ids(s)
  {
    match s.pcs[0]
    case DeqTail(h, i) => i >= s.blocks[h].tail && s.blocks[h].tail < SIZE
    case DeqNext(h) => s.blocks[h].next == NIL
    case _ => false
  }

  /** What the consumer's step does to the history. */
  lemma ConHistory(s: State, s': State, ok: bool)
    requires Ids(s) && Next(s, 0, Step(ok), s')
    ensures s.pcs[0].DeqBump? ==>
              && s'.hist == s.hist + [Take(Val(s.blocks[s.pcs[0].h], s.pcs[0].i))]
              && s'.q == (if s.q == [] then [] else s.q[1..])
              && s'.pcs[0] == DeqWait(s.pcs[0].h, s.pcs[0].i)
    ensures s.pcs[0].RewStore? ==>
              && s'.hist == s.hist + [Back(s.pcs[0].e)] && s'.q == [s.pcs[0].e] + s.q && s'.pcs[0] == Idle
    ensures Misses(s) ==> s'.hist == s.hist + [Miss] && s'.pcs[0] == Idle
    ensures !s.pcs[0].DeqBump? && !s.pcs[0].RewStore? ==> s'.q == s.q && (!Misses(s) ==> s'.hist == s.hist)
    ensures s.pcs[0].DeqClear? ==> s'.pcs[0] == Idle
    ensures s'.got == (if s.pcs[0].DeqClear? then s.got + [s.pcs[0].e] else s.got)
  {
  }

  /** A miss is reported only when nothing is queued. */
  lemma MissIsEmpty(s: State)
    requires Ids(s) && ChainOk(s) && ConsumerOk(s) && Misses(s)
    ensures Contents(s.blocks, s.chain) == []
  {
    assert LinkOk(s, 0);
    assert |s.chain| == 1;
    assert s.chain[1..] == [];
  }

  lemma ConMovedTold(s: State, s': State, ok: bool)
    requires Ids(s) && ChainOk(s) && ConsumerOk(s) && Told(s) && Next(s, 0, Step(ok), s') && Ids(s') && ChainOk(s')
    requires s'.blocks == s.blocks && s'.chain == s.chain
    requires ConsumerSlot(s'.pcs[0]) == ConsumerSlot(s.pcs[0]) && !s.pcs[0].RewStore? && !s'.pcs[0].RewStore?
    requires !s.pcs[0].DeqBump? && !s.pcs[0].DeqClear?
    ensures Told(s')
  {
    ConHistory(s, s', ok);
    if Misses(s) {
      MissIsEmpty(s);
      ReplaySnoc(s.hist, Miss);
    } else {
      ToldSame(s, s');
    }
  }

  lemma ConMovedInv(s: State, s': State, ok: bool)
    requires Structure(s) && AllSlots(s) && Told(s) && Next(s, 0, Step(ok), s') && ConMoved(s, s') && FL.Inv(s'.fl)
    requires ConsumerSlot(s'.pcs[0]) == ConsumerSlot(s.pcs[0]) && !s.pcs[0].RewStore? && !s'.pcs[0].RewStore?
    requires !s.pcs[0].DeqBump? && !s.pcs[0].DeqClear? && !Filling(s.pcs[0])
    ensures Inv(s')
  {
    ConMovedKeepsStructure(s, s');
    SlotsSame(s, s', 0);
    ConMovedTold(s, s', ok);
    InvParts(s');
  }

  lemma DeqLocalInv(s: State, s': State, ok: bool)
    requires Structure(s) && AllSlots(s) && Told(s) && Next(s, 0, Step(ok), s') && FL.Inv(s'.fl)
    requires s.pcs[0].DeqHead? || s.pcs[0].DeqIndex? || s.pcs[0].DeqTail? || s.pcs[0].DeqNext? || s.pcs[0].DeqPush?
             || (s.pcs[0].DeqPushing? && FL.AtRest(s.fl.threads[0].pc))
    ensures Inv(s')
  {
    assert ThreadOk(s, 0);
    HeadFacts(s);
    if s.pcs[0].DeqHead? || s.pcs[0].DeqIndex? {
      DeqLoadSteps(s, s', ok);
    } else if s.pcs[0].DeqTail? || s.pcs[0].DeqNext? {
      DeqLookSteps(s, s', ok);
    } else {
      DeqPushSteps(s, s', ok);
    }
    DeqLocalSlot(s, s', ok);
    ConMovedInv(s, s', ok);
  }

  lemma DeqLocalSlot(s: State, s': State, ok: bool)
    requires Ids(s) && Next(s, 0, Step(ok), s')
    requires s.pcs[0].DeqHead? || s.pcs[0].DeqIndex? || s.pcs[0].DeqTail? || s.pcs[0].DeqNext? || s.pcs[0].DeqPush?
             || s.pcs[0].DeqPushing? || s.pcs[0].DeqWait? || s.pcs[0].DeqRead?
    ensures ConsumerSlot(s'.pcs[0]) == ConsumerSlot(s.pcs[0]) && !s'.pcs[0].RewStore?
  {
  }

  lemma DeqReadInv(s: State, s': State, ok: bool)
    requires Structure(s) && AllSlots(s) && Told(s) && Next(s, 0, Step(ok), s') && FL.Inv(s'.fl)
    requires s.pcs[0].DeqWait? || s.pcs[0].DeqRead?
    ensures Inv(s')
  {
    assert ThreadOk(s, 0);
    var h := s.pcs[0].h;
    forall i | i in s.blocks[h].avail && i in s.blocks[h].elem ensures s.blocks[h].elem[i] == Val(s.blocks[h], i) {
      assert SlotOk(s, h, i);
    }
    DeqReadSteps(s, s', ok);
    DeqLocalSlot(s, s', ok);
    ConMovedInv(s, s', ok);
  }

  lemma RewLocalInv(s: State, s': State, ok: bool)
    requires Structure(s) && AllSlots(s) && Told(s) && Next(s, 0, Step(ok), s') && FL.Inv(s'.fl)
    requires s.pcs[0].RewHead? || s.pcs[0].RewIndex? || s.pcs[0].RewTop? || s.pcs[0].RewSlot?
             || (s.pcs[0].RewPop? && s.fl.threads[0].pc.Popped?)
    ensures Inv(s')
  {
    assert ThreadOk(s, 0);
    if s.pcs[0].RewTop? || s.pcs[0].RewSlot? {
      RewSlotSteps(s, s', ok);
    } else {
      RewLookSteps(s, s', ok);
    }
    RewLocalSlot(s, s', ok);
    ConMovedInv(s, s', ok);
  }

  lemma RewLocalSlot(s: State, s': State, ok: bool)
    requires Ids(s) && Next(s, 0, Step(ok), s')
    requires s.pcs[0].RewHead? || s.pcs[0].RewIndex? || s.pcs[0].RewTop? || s.pcs[0].RewSlot? || s.pcs[0].RewPop?
    ensures ConsumerSlot(s'.pcs[0]) == ConsumerSlot(s.pcs[0]) && !s'.pcs[0].RewStore?
  {
  }

  lemma BumpInv(s: State, s': State, ok: bool)
    requires Structure(s) && AllSlots(s) && Told(s) && Next(s, 0, Step(ok), s') && s.pcs[0].DeqBump?
    ensures Inv(s')
  {
    assert ThreadOk(s, 0);
    HeadFacts(s);
    DeqSlotSelf(s, s', ok);
    InChainKeepsStructure(s, s', 0, s.head);
    BumpSlot(s, s', ok);
    BumpTold(s, s', ok);
    InvParts(s');
  }

  lemma BumpTold(s: State, s': State, ok: bool)
    requires Ids(s) && ChainOk(s) && ConsumerOk(s) && Told(s) && Next(s, 0, Step(ok), s') && s.pcs[0].DeqBump?
    requires Ids(s') && ChainOk(s')
    ensures Told(s')
  {
    ConHistory(s, s', ok);
    BumpContents(s, s', ok);
    TakeTold(s.hist, s.q, Val(s.blocks[s.pcs[0].h], s.pcs[0].i));
    assert GotOk(s');
  }

  lemma TakeTold(hist: seq<Event>, q: seq<Elem>, e: Elem)
    requires Replay(hist) == Holding(q) && q != [] && q[0] == e
    ensures Replay(hist + [Take(e)]) == Holding(q[1..]) && Takes(hist + [Take(e)]) == Takes(hist) + [e]
  {
    ReplaySnoc(hist, Take(e));
  }

  lemma BumpContents(s: State, s': State, ok: bool)
    requires Ids(s) && ChainOk(s) && ConsumerOk(s) && Next(s, 0, Step(ok), s') && s.pcs[0].DeqBump? && Ids(s')
             && ChainOk(s')
    ensures var q, h := Contents(s.blocks, s.chain), s.pcs[0].h;
      && q != [] && q[0] == Val(s.blocks[h], s.pcs[0].i) && Contents(s'.blocks, s'.chain) == q[1..]
      && Val(s'.blocks[h], s.pcs[0].i) == q[0]
  {
    BumpBlocks(s, s', ok);
    ContentsAdvance(s.blocks, s.chain, s'.blocks[s.pcs[0].h]);
  }

  lemma BumpBlocks(s: State, s': State, ok: bool)
    requires Ids(s) && Next(s, 0, Step(ok), s')
    ensures s.pcs[0].DeqBump? ==>
              && s'.chain == s.chain
              && s'.blocks == s.blocks[s.pcs[0].h := s.blocks[s.pcs[0].h].(head := s.pcs[0].i + 1)]
    ensures s.pcs[0].RewStore? ==>
              && s'.chain == s.chain
              && s'.blocks == s.blocks[s.pcs[0].h := s.blocks[s.pcs[0].h].(head := s.pcs[0].i)]
  {
  }

  lemma BackTold(s: State, s': State, ok: bool)
    requires Ids(s) && ChainOk(s) && ConsumerOk(s) && HeadInRange(s) && Told(s) && Next(s, 0, Step(ok), s')
             && s.pcs[0].RewStore?
    requires Ids(s') && ChainOk(s')
    ensures Told(s')
  {
    var h, i := s.pcs[0].h, s.pcs[0].i;
    ConHistory(s, s', ok);
    BumpBlocks(s, s', ok);
    assert s'.blocks[h] == s.blocks[h].(head := i);
    ReplaySnoc(s.hist, Back(s.pcs[0].e));
    ContentsBack(s.blocks, s.chain, s'.blocks[h]);
  }

  lemma BackInv(s: State, s': State, ok: bool)
    requires Structure(s) && AllSlots(s) && Told(s) && Next(s, 0, Step(ok), s') && s.pcs[0].RewStore?
    ensures Inv(s')
  {
    assert ThreadOk(s, 0);
    HeadFacts(s);
    RewStoreSelf(s, s', ok);
    InChainKeepsStructure(s, s', 0, s.head);
    RewStoreSlot(s, s', ok);
    BackTold(s, s', ok);
    InvParts(s');
  }

  /** Steps on the head block that move no index. */
  lemma ConBlocks(s: State, s': State, ok: bool)
    requires Ids(s) && Next(s, 0, Step(ok), s') && ConsumerOk(s)
    requires s.pcs[0].DeqClear? || s.pcs[0].RewWrite? || s.pcs[0].RewPublish?
    ensures |s'.blocks| == |s.blocks| && s'.chain == s.chain
    ensures forall u :: 0 <= u < |s.blocks| ==> SameSlice(s.blocks[u], s'.blocks[u])
    ensures s.pcs[0].DeqClear? ==> ConsumerSlot(s'.pcs[0]) == (NIL, NIL)
  {
  }

  lemma ConSlotTold(s: State, s': State, ok: bool)
    requires Ids(s) && ChainOk(s) && ConsumerOk(s) && Told(s) && Next(s, 0, Step(ok), s')
    requires s.pcs[0].DeqClear? || s.pcs[0].RewWrite? || s.pcs[0].RewPublish?
    requires Ids(s') && ChainOk(s')
    ensures Told(s')
  {
    ConHistory(s, s', ok);
    ConBlocks(s, s', ok);
    ContentsSame(s.blocks, s'.blocks, s.chain);
  }

  lemma ConSlotInv(s: State, s': State, ok: bool)
    requires Structure(s) && AllSlots(s) && Told(s) && Next(s, 0, Step(ok), s')
    requires s.pcs[0].DeqClear? || s.pcs[0].RewWrite? || s.pcs[0].RewPublish?
    ensures Inv(s')
  {
    assert ThreadOk(s, 0);
    HeadFacts(s);
    if s.pcs[0].DeqClear? {
      DeqSlotSelf(s, s', ok);
    } else if s.pcs[0].RewWrite? {
      RewWriteSelf(s, s', ok);
    } else {
      RewPublishSelf(s, s', ok);
    }
    InChainKeepsStructure(s, s', 0, s.head);
    if s.pcs[0].DeqClear? { ClearSlot(s, s', ok); } else { RewFillSlot(s, s', ok); }
    ConSlotTold(s, s', ok);
    InvParts(s');
  }

  lemma RewPrepareInv(s: State, s': State, ok: bool)
    requires Structure(s) && AllSlots(s) && Told(s) && Next(s, 0, Step(ok), s')
    requires s.pcs[0].RewHead0? || s.pcs[0].RewTail0? || s.pcs[0].RewNext0?
    ensures Inv(s')
  {
    var n := s.pcs[0].n;
    assert ThreadOk(s, 0);
    PreparedIsPrivate(s, 0, n);
    RewPrepareSteps(s, s', ok);
    RewPrepareRest(s, s', ok);
    InvParts(s');
  }

  lemma RewPrepareRest(s: State, s': State, ok: bool)
    requires Ids(s) && ChainOk(s) && AllSlots(s) && Told(s) && Next(s, 0, Step(ok), s') && Ids(s') && ChainOk(s')
    requires s.pcs[0].RewHead0? || s.pcs[0].RewTail0? || s.pcs[0].RewNext0?
    requires s.pcs[0].n !in s.chain
    ensures AllSlots(s') && Told(s')
  {
    RewPrepareBlocks(s, s', ok);
    RewPrepareSlots(s, s');
    RewPrepareTold(s, s', ok);
  }

  lemma RewPrepareTold(s: State, s': State, ok: bool)
    requires Ids(s) && ChainOk(s) && Told(s) && Next(s, 0, Step(ok), s') && Ids(s') && ChainOk(s')
    requires s.pcs[0].RewHead0? || s.pcs[0].RewTail0? || s.pcs[0].RewNext0?
    requires s.pcs[0].n !in s.chain
    ensures Told(s')
  {
    RewPrepareBlocks(s, s', ok);
    ConHistory(s, s', ok);
    ToldApart(s, s', s.pcs[0].n);
  }

  /** Only a block outside the chain changed. */
  lemma ToldApart(s: State, s': State, n: nat)
    requires Ids(s) && ChainOk(s) && Ids(s') && ChainOk(s') && Told(s)
    requires s'.q == s.q && s'.hist == s.hist && s'.got == s.got && s'.chain == s.chain && |s'.blocks| == |s.blocks|
    requires n !in s.chain && forall u :: 0 <= u < |s.blocks| && u != n ==> s'.blocks[u] == s.blocks[u]
    requires ConsumerSlot(s'.pcs[0]) == ConsumerSlot(s.pcs[0]) == (NIL, NIL)
    requires !s'.pcs[0].RewStore? && !s.pcs[0].RewStore?
    ensures Told(s')
  {
    ToldSame(s, s');
  }

  lemma RewPrepareSlots(s: State, s': State)
    requires Ids(s) && AllSlots(s) && Ids(s') && OwnAt(s.pcs[0]) != NIL && OwnAt(s.pcs[0]) < |s.blocks|
    requires |s'.blocks| == |s.blocks| && s'.chain == s.chain && |s'.pcs| == |s.pcs| && s'.pcs == s.pcs[0 := s'.pcs[0]]
    requires ConsumerSlot(s'.pcs[0]) == ConsumerSlot(s.pcs[0]) == (NIL, NIL) && !Filling(s.pcs[0])
    requires forall u :: 0 <= u < |s.blocks| && u != OwnAt(s.pcs[0]) ==> s'.blocks[u] == s.blocks[u]
    requires var n := OwnAt(s.pcs[0]);
      n !in s.chain && s'.blocks[n].avail == s.blocks[n].avail && s'.blocks[n].writer == s.blocks[n].writer
    ensures AllSlots(s')
  {
    SlotsClear(s, s', 0, OwnAt(s.pcs[0]));
  }

  lemma RewPrepareBlocks(s: State, s': State, ok: bool)
    requires Ids(s) && Next(s, 0, Step(ok), s')
    requires s.pcs[0].RewHead0? || s.pcs[0].RewTail0? || s.pcs[0].RewNext0?
    ensures |s'.blocks| == |s.blocks| && s'.chain == s.chain && s'.pcs == s.pcs[0 := s'.pcs[0]]
    ensures ConsumerSlot(s'.pcs[0]) == ConsumerSlot(s.pcs[0]) == (NIL, NIL) && !s'.pcs[0].RewStore?
    ensures forall u :: 0 <= u < |s.blocks| && u != s.pcs[0].n ==> s'.blocks[u] == s.blocks[u]
    ensures var n := s.pcs[0].n; s'.blocks[n].avail == s.blocks[n].avail && s'.blocks[n].writer == s.blocks[n].writer
  {
  }

  /** A retired block is empty: all its slots are consumed and no producer is filling one. */
  lemma RetiredIsClear(s: State)
    requires Ids(s) && AllSlots(s) && ConsumerOk(s) && s.pcs[0].DeqMove?
    ensures var b := s.blocks[s.pcs[0].h]; b.avail == {} && b.writer == map[]
    ensures forall i: nat :: !Live(s, s.pcs[0].h, i)
  {
    var h := s.pcs[0].h;
    forall i: nat ensures !Live(s, h, i) && i !in s.blocks[h].avail
        && i !in s.blocks[h].writer { assert SlotOk(s, h, i); }
    assert s.blocks[h].writer.Keys == {};
  }

  lemma MoveTold(s: State, s': State)
    requires Ids(s) && ChainOk(s) && ConsumerOk(s) && Told(s) && HeadMoved(s, s') && Ids(s') && ChainOk(s')
    ensures Told(s')
  {
    assert s.chain == [s.pcs[0].h] + s'.chain;
    assert Slice(s.blocks[s.pcs[0].h]) == [];
  }

  lemma MoveInv(s: State, s': State, ok: bool)
    requires Structure(s) && AllSlots(s) && Told(s) && Next(s, 0, Step(ok), s') && FL.Inv(s'.fl) && s.pcs[0].DeqMove?
    ensures Inv(s')
  {
    HeadSteps(s, s', ok);
    RetiredIsClear(s);
    HeadMovedKeepsStructure(s, s');
    MoveSlots(s, s');
    MoveTold(s, s');
    InvParts(s');
  }

  lemma MoveSlots(s: State, s': State)
    requires Ids(s) && AllSlots(s) && ConsumerOk(s) && s.pcs[0].DeqMove? && HeadMoved(s, s') && Ids(s') && ChainOk(s)
    ensures AllSlots(s')
  {
    RetiredIsClear(s);
    var h := s.pcs[0].h;
    assert s.chain == [h] + s'.chain;
    SlotsClear(s, s', 0, h);
  }

  lemma HeadLinkSlots(s: State, s': State)
    requires Ids(s) && AllSlots(s) && ConsumerOk(s) && HeadLinked(s, s') && Ids(s') && s.pcs[0].n !in s.chain
    ensures AllSlots(s')
  {
    SlotsClear(s, s', 0, s.pcs[0].n);
  }

  lemma HeadLinkTold(s: State, s': State)
    requires Ids(s) && ChainOk(s) && ConsumerOk(s) && Told(s) && HeadLinked(s, s') && Ids(s') && ChainOk(s')
    ensures Told(s')
  {
    assert s'.chain[1..] == s.chain;
    assert Slice(s.blocks[s.pcs[0].n]) == [];
  }

  lemma HeadLinkInv(s: State, s': State, ok: bool)
    requires Structure(s) && AllSlots(s) && Told(s) && Next(s, 0, Step(ok), s') && FL.Inv(s'.fl) && s.pcs[0].RewLink?
    ensures Inv(s')
  {
    HeadSteps(s, s', ok);
    HeadLinkedKeepsStructure(s, s');
    assert ThreadOk(s, 0);
    PreparedIsPrivate(s, 0, s.pcs[0].n);
    HeadLinkSlots(s, s');
    HeadLinkTold(s, s');
    InvParts(s');
  }

  lemma AllocInv(s: State, s': State, ok: bool)
    requires Structure(s) && AllSlots(s) && Told(s) && Next(s, 0, Step(ok), s') && FL.Inv(s'.fl)
    requires s.pcs[0].RewPop? && s.fl.threads[0].pc.Empty?
    ensures Inv(s')
  {
    HeadSteps(s, s', ok);
    AllocatedKeepsStructure(s, s');
    AllocSlots(s, s');
    ToldSame(s, s');
    InvParts(s');
  }

  lemma AllocSlots(s: State, s': State)
    requires Ids(s) && Ids(s') && ChainOk(s) && AllSlots(s)
    requires s'.pcs == s.pcs && s'.chain == s.chain && s'.blocks == s.blocks + [FRESH_BLOCK]
    ensures AllSlots(s')
  {
    forall u, i: nat | 0 <= u < |s'.blocks| ensures SlotOk(s', u, i) {
      if u < |s.blocks| { assert SlotOk(s, u, i); }
    }
  }

  predicate Rewinding(pc: Pc) {
    match pc
    case RewHead(_) | RewIndex(_, _) | RewPop(_, _) | RewHead0(_, _, _) | RewTail0(_, _, _) | RewNext0(_, _, _) => true
    case RewLink(_, _, _) | RewTop(_) | RewSlot(_, _) | RewWrite(_, _, _) => true
    case RewPublish(_, _, _) | RewStore(_, _, _) => true
    case _ => false
  }

  lemma RewInv(s: State, s': State, ok: bool)
    requires Structure(s) && AllSlots(s) && Told(s) && Next(s, 0, Step(ok), s') && FL.Inv(s'.fl)
    requires Rewinding(s.pcs[0])
    ensures Inv(s')
  {
    if s.pcs[0].RewStore? {
      BackInv(s, s', ok);
    } else if s.pcs[0].RewWrite? || s.pcs[0].RewPublish? {
      ConSlotInv(s, s', ok);
    } else if s.pcs[0].RewLink? {
      HeadLinkInv(s, s', ok);
    } else if s.pcs[0].RewHead0? || s.pcs[0].RewTail0? || s.pcs[0].RewNext0? {
      RewPrepareInv(s, s', ok);
    } else if s.pcs[0].RewPop? && !s.fl.threads[0].pc.Popped? {
      assert ThreadOk(s, 0);
      if s.fl.threads[0].pc.Empty? { AllocInv(s, s', ok); } else { CallInv(s, s', 0, ok); }
    } else {
      RewLocalInv(s, s', ok);
    }
  }

  lemma DeqInv(s: State, s': State, ok: bool)
    requires Structure(s) && AllSlots(s) && Told(s) && Next(s, 0, Step(ok), s') && FL.Inv(s'.fl)
    requires match s.pcs[0]
             case DeqHead | DeqIndex(_) | DeqTail(_, _) | DeqNext(_) | DeqMove(_, _) | DeqPush(_) | DeqPushing => true
             case DeqBump(_, _) | DeqWait(_, _) | DeqRead(_, _) | DeqClear(_, _, _) => true
             case _ => false
    ensures Inv(s')
  {
    if s.pcs[0].DeqBump? {
      BumpInv(s, s', ok);
    } else if s.pcs[0].DeqClear? {
      ConSlotInv(s, s', ok);
    } else if s.pcs[0].DeqMove? {
      MoveInv(s, s', ok);
    } else if s.pcs[0].DeqWait? || s.pcs[0].DeqRead? {
      DeqReadInv(s, s', ok);
    } else if s.pcs[0].DeqPushing? && !FL.AtRest(s.fl.threads[0].pc) {
      CallInv(s, s', 0, ok);
    } else {
      DeqLocalInv(s, s', ok);
    }
  }

  lemma StartMoved(s: State, s': State, p: nat, c: Choice)
    requires Ids(s) && Next(s, p, c, s') && !c.Step? && ThreadOk(s, p)
    ensures if p == 0 then ConMoved(s, s') else EnqMoved(s, s', p)
    ensures s'.q == s.q && s'.hist == s.hist && s'.got == s.got
    ensures ConsumerSlot(s'.pcs[0]) == ConsumerSlot(s.pcs[0]) && !Filling(s.pcs[p])
            && s'.pcs[0].RewStore? == s.pcs[0].RewStore?
  {
  }

  lemma StartInv(s: State, s': State, p: nat, c: Choice)
    requires Structure(s) && AllSlots(s) && Told(s) && Next(s, p, c, s') && !c.Step? && FL.Inv(s'.fl)
    ensures Inv(s')
  {
    assert ThreadOk(s, p);
    StartMoved(s, s', p, c);
    if p == 0 { ConMovedKeepsStructure(s, s'); } else { EnqMovedKeepsStructure(s, s', p); }
    SlotsSame(s, s', p);
    ToldSame(s, s');
    InvParts(s');
  }

  /** Every step of every thread keeps the invariant. */
  lemma StepKeepsInv(s: State, p: nat, c: Choice, s': State)
    requires Inv(s) && Next(s, p, c, s')
    ensures Inv(s')
  {
    InvParts(s);
    FlInv(s, p, c, s');
    if !c.Step? {
      StartInv(s, s', p, c);
    } else if p > 0 {
      EnqInv(s, s', p, c.ok);
    } else {
      assert ThreadOk(s, 0);
      if s.pcs[0].DeqHead? || s.pcs[0].DeqIndex? || s.pcs[0].DeqTail? || s.pcs[0].DeqNext? || s.pcs[0].DeqMove?
          || s.pcs[0].DeqPush?
         || s.pcs[0].DeqPushing? || s.pcs[0].DeqBump? || s.pcs[0].DeqWait? || s.pcs[0].DeqRead? || s.pcs[0].DeqClear? {
        DeqInv(s, s', c.ok);
      } else {
        RewInv(s, s', c.ok);
      }
    }
  }

  // ----- runs -----

  /** The constructor followed by set_capacity with k blocks: block 0 is open, blocks 1..k are on the list. */
  predicate Init(s: State, k: nat) {
    && |s.blocks| == |s.fl.nodes| == |s.fl.place| == k + 1
    && s.fl.list == seq(k, i requires 0 <= i < k => k - i)
    && s.fl.top == (if k == 0 then NIL else k)
    && (forall u :: 0 <= u <= k ==> s.blocks[u] == FRESH_BLOCK)
    && (forall u :: 0 <= u <= k ==> s.fl.nodes[u] == FL.Node(if u <= 1 then NIL else u - 1, 1, u != 0))
    && (forall u :: 0 <= u <= k ==> s.fl.place[u] == if u == 0 then FL.Owned(FL.Shared) else FL.Listed)
    && |s.fl.threads| == |s.pcs| > 0
    && (forall t :: 0 <= t < |s.pcs| ==> s.pcs[t] == Idle && s.fl.threads[t] == FL.Thread(FL.Idle, NIL))
    && s.head == 0 && s.tail == 0 && s.chain == [0] && s.linker == NIL
    && s.q == [] && s.hist == [] && s.got == []
  }

  lemma InitFl(s: State, k: nat)
    requires Init(s, k)
    ensures FL.Inv(s.fl)
  {
    var f := s.fl;
    InitList(s, k);
    forall u | 0 <= u < |f.nodes| ensures FL.Counted(f, u) { FL.IdleThreadsCount(f.threads, u); }
  }

  lemma InitList(s: State, k: nat)
    requires Init(s, k)
    ensures FL.Linked(s.fl) && FL.Placed(s.fl)
  {
    var f := s.fl;
    assert forall i :: 0 <= i < k ==> f.list[i] == k - i;
    forall i | 0 <= i < |f.list| ensures f.nodes[f.list[i]].next == FL.Following(f.list, i) { }
    forall u | 0 <= u < |f.place| ensures f.place[u] == FL.Listed <==> u in f.list {
      if u > 0 { assert f.list[k - u] == u; }
    }
  }

  lemma InitInv(s: State, k: nat)
    requires Init(s, k)
    ensures Inv(s)
  {
    InitFl(s, k);
    InitStructure(s, k);
    assert Contents(s.blocks, s.chain) == Slice(s.blocks[0]) + Contents(s.blocks, []);
  }

  lemma InitStructure(s: State, k: nat)
    requires Init(s, k) && FL.Inv(s.fl)
    ensures Structure(s)
  {
    assert LinkOk(s, 0);
  }

  datatype Label = Label(p: nat, c: Choice)

  ghost predicate IsRun(states: seq<State>, labels: seq<Label>, k: nat) {
    && |states| == |labels| + 1
    && Init(states[0], k)
    && (forall i :: 0 <= i < |labels| ==> Next(states[i], labels[i].p, labels[i].c, states[i + 1]))
  }

  /** The invariant holds in every state of every run. */
  lemma {:induction false} RunInv(states: seq<State>, labels: seq<Label>, k: nat, i: nat)
    requires IsRun(states, labels, k) && i < |states|
    ensures Inv(states[i])
  {
    if i == 0 {
      InitInv(states[0], k);
    } else {
      RunInv(states, labels, k, i - 1);
      assert Next(states[i - 1], labels[i - 1].p, labels[i - 1].c, states[i]);
      StepKeepsInv(states[i - 1], labels[i - 1].p, labels[i - 1].c, states[i]);
    }
  }
}
