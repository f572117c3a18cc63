/** Every step of the queue machine keeps the invariant. */
module QueueProof {
  import FL = FreeListMachine
  import opened QueueMachine
  import opened QueueInvariant

  // ----- steps inside a free-list call -----

  lemma CallKeepsIds(s: State, s': State, p: nat)
    requires Structure(s) && p < |s.pcs| && CallFrame(s.fl, s'.fl, p) && s' == s.(fl := s'.fl) && FL.Inv(s'.fl)
    ensures Ids(s') && ChainOk(s') && LinkerOk(s') && ConsumerOk(s')
  {
    OwnersOfCalls(s, p);
    forall i | 0 <= i < |s'.chain| ensures LinkOk(s', i) { assert LinkOk(s, i); }
    forall u | 0 <= u < |s.blocks| ensures u in s.chain <==> s'.fl.place[u] == FL.Owned(FL.Shared) {
      assert CallAt(s.fl, s'.fl, p, u);
    }
    var l := Last(s.chain);
    assert l in s.chain;
    assert CallAt(s.fl, s'.fl, p, l);
    if s.pcs[0].DeqPush? {
      assert ThreadOk(s, 0);
      assert CallAt(s.fl, s'.fl, p, s.pcs[0].h);
      assert FL.Fits(s.fl, p);
    }
  }

  /** The node a push call names is owned by the calling thread. */
  lemma OwnersOfCalls(s: State, p: nat)
    requires Ids(s) && FL.Inv(s.fl) && p < |s.pcs|
    ensures forall u :: 0 <= u < |s.blocks| && s.fl.threads[p].pc in {FL.PushFreed(u), FL.PushSub(u)} ==>
              s.fl.place[u] == FL.Owned(FL.By(p))
  {
    assert FL.Fits(s.fl, p);
  }

  lemma CallKeepsStillThere(s: State, s': State, p: nat, u: nat, t: nat)
    requires Structure(s) && p < |s.pcs| && CallFrame(s.fl, s'.fl, p) && s' == s.(fl := s'.fl) && FL.Inv(s'.fl)
             && Ids(s')
    requires InCall(s.pcs[p])
    requires u < |s.blocks| && StillThere(s, u) && t < |s.pcs| && s.fl.threads[t].held == u
    ensures StillThere(s', u)
  {
    OwnersOfCalls(s, p);
    OwnersOfCalls(s, 0);
    assert CallAt(s.fl, s'.fl, p, u);
    assert ThreadOk(s, 0);
  }

  lemma CallKeepsFreed(s: State, s': State, p: nat, u: nat)
    requires Structure(s) && p < |s.pcs| && CallFrame(s.fl, s'.fl, p) && s' == s.(fl := s'.fl) && FL.Inv(s'.fl)
             && Ids(s')
    requires u < |s.blocks|
    ensures FreedOk(s', u)
    ensures s'.fl.threads[0].pc == FL.PushSub(u) ==> s'.fl.nodes[u].freed
  {
    OwnersOfCalls(s, p);
    OwnersOfCalls(s, 0);
    assert FreedOk(s, u) && CallAt(s.fl, s'.fl, p, u);
  }

  lemma CallKeepsStructure(s: State, s': State, p: nat)
    requires Structure(s) && p < |s.pcs| && CallFrame(s.fl, s'.fl, p) && s' == s.(fl := s'.fl) && FL.Inv(s'.fl)
    requires InCall(s.pcs[p]) && !FL.AtRest(s.fl.threads[p].pc)
    ensures Structure(s')
  {
    CallKeepsIds(s, s', p);
    forall p' | 0 <= p' < |s.pcs| ensures ThreadOk(s', p') { assert ThreadOk(s, p'); }
    forall p' | 0 <= p' < |s.pcs| ensures ProducerOk(s', p') {
      assert ProducerOk(s, p') && ThreadOk(s, p');
      if SeenAt(s.pcs[p']) != NIL { CallKeepsStillThere(s, s', p, SeenAt(s.pcs[p']), p'); }
    }
    forall u | 0 <= u < |s.blocks|
      ensures FreedOk(s', u) && (s'.fl.threads[0].pc == FL.PushSub(u) ==> s'.fl.nodes[u].freed)
    {
      CallKeepsFreed(s, s', p, u);
    }
  }

  // ----- steps that move only one thread's own position -----

  /** Blocks, chain and the places and flags of nodes stay; thread p and reference counts may change. */
  predicate Local(s: State, s': State, p: nat) {
    && p < |s.pcs| == |s'.pcs| && s'.pcs == s.pcs[p := s'.pcs[p]]
    && s'.blocks == s.blocks && s'.chain == s.chain && s'.head == s.head && s'.tail == s.tail && s'.linker == s.linker
    && s'.fl.place == s.fl.place && |s'.fl.nodes| == |s.fl.nodes|
    && (forall u :: 0 <= u < |s.fl.nodes| ==> s'.fl.nodes[u].freed == s.fl.nodes[u].freed)
    && p < |s.fl.threads| == |s'.fl.threads| && s'.fl.threads == s.fl.threads[p := s'.fl.threads[p]]
  }

  predicate Linking(pc: Pc) { pc.EnqSetTail? || pc.EnqUnfree? }

  /** The consumer's part of a local step: a retiring block stays so, and no flag is owed early. */
  predicate RetiresOn(s: State, s': State)
    requires Ids(s) && Ids(s') && |s.blocks| == |s'.blocks|
  {
    && (forall u :: 0 <= u < |s.blocks| && Retiring(s, u) ==> Retiring(s', u))
    && (forall u :: 0 <= u < |s.blocks| && RetiringUnfreed(s, u) ==> RetiringUnfreed(s', u))
    && (s'.fl.threads[0].pc.PushSub? ==> s'.fl.threads[0].pc == s.fl.threads[0].pc)
  }

  lemma LocalIds(s: State, s': State, p: nat)
    requires Structure(s) && Local(s, s', p) && FL.Inv(s'.fl) && PcIds(|s'.blocks|, s'.pcs[p])
    ensures Ids(s')
  {
  }

  lemma LocalShared(s: State, s': State, p: nat)
    requires Structure(s) && Local(s, s', p) && FL.Inv(s'.fl) && Ids(s')
    requires !Linking(s.pcs[p]) && !Linking(s'.pcs[p])
    requires p == 0 ==> RetiresOn(s, s')
    requires PtrAt(s'.pcs[p]) in {NIL, PtrAt(s.pcs[p]), s.tail}
    ensures ChainOk(s') && LinkerOk(s')
    ensures forall u :: 0 <= u < |s'.blocks| ==> FreedOk(s', u)
    ensures forall u :: 0 <= u < |s.blocks| && s'.fl.threads[0].pc == FL.PushSub(u) ==> s'.fl.nodes[u].freed
  {
    forall i | 0 <= i < |s'.chain| ensures LinkOk(s', i) { assert LinkOk(s, i); }
    forall u | 0 <= u < |s.blocks| ensures FreedOk(s', u) { assert FreedOk(s, u); }
  }

  lemma LocalOther(s: State, s': State, p: nat, p': nat)
    requires Structure(s) && Local(s, s', p) && Ids(s')
    requires p == 0 ==> RetiresOn(s, s')
    requires p' < |s.pcs| && p' != p
    ensures ThreadOk(s', p') && ProducerOk(s', p')
  {
    assert ThreadOk(s, p') && ProducerOk(s, p');
  }

  lemma LocalKeepsStructure(s: State, s': State, p: nat)
    requires Structure(s) && Local(s, s', p) && FL.Inv(s'.fl) && Ids(s')
    requires !Linking(s.pcs[p]) && !Linking(s'.pcs[p])
    requires ThreadOk(s', p) && ProducerOk(s', p)
    requires p == 0 ==> ConsumerOk(s') && RetiresOn(s, s')
    requires PtrAt(s'.pcs[p]) in {NIL, PtrAt(s.pcs[p]), s.tail}
    ensures Structure(s')
  {
    LocalShared(s, s', p);
    forall p' | 0 <= p' < |s.pcs| && p' != p ensures ThreadOk(s', p') && ProducerOk(s', p') {
      LocalOther(s, s', p, p');
    }
  }

  // ----- the producer's local steps -----

  /** What a local step of producer p establishes about p itself. */
  predicate EnqMoved(s: State, s': State, p: nat)
    requires Ids(s)
  {
    && 0 < p && Local(s, s', p) && PcIds(|s.blocks|, s'.pcs[p])
    && !Linking(s.pcs[p]) && !Linking(s'.pcs[p]) && !Consuming(s'.pcs[p])
    && PtrAt(s'.pcs[p]) in {NIL, PtrAt(s.pcs[p]), s.tail}
    && s'.fl.threads[p].held == HeldAt(s'.pcs[p]) && CallMatches(s'.pcs[p], s'.fl.threads[p].pc)
    && (Ids(s') ==> ProducerOk(s', p))
  }

  lemma EnqMovedKeepsStructure(s: State, s': State, p: nat)
    requires Structure(s) && FL.Inv(s'.fl) && EnqMoved(s, s', p)
    ensures Structure(s')
  {
    LocalIds(s, s', p);
    LocalKeepsStructure(s, s', p);
  }

  lemma EnqAcquireSteps(s: State, s': State, p: nat, ok: bool)
    requires Ids(s) && 0 < p && Next(s, p, Step(ok), s') && ThreadOk(s, p)
    requires s.pcs[p].EnqTail? || s.pcs[p].EnqCount? || s.pcs[p].EnqRef?
    ensures EnqMoved(s, s', p)
  {
  }

  /** A block that is held and seen unfreed is in the chain or on its way out of it. */
  lemma UnfreedIsThere(s: State, p: nat, t: nat)
    requires Ids(s) && ChainOk(s) && LinkerOk(s) && t < |s.blocks| && FreedOk(s, t)
    requires p < |s.pcs| && s.pcs[p].EnqFreed? && s.pcs[p].t == t && !s.fl.nodes[t].freed
    ensures StillThere(s, t)
  {
    assert PtrAt(s.pcs[p]) == t;
    if t !in s.chain {
      assert s.fl.place[t].owner.By? && RetiringUnfreed(s, t);
    }
  }

  lemma EnqFreedStep(s: State, s': State, p: nat, ok: bool)
    requires Ids(s) && 0 < p && Next(s, p, Step(ok), s') && ThreadOk(s, p) && s.pcs[p].EnqFreed?
    requires s.fl.nodes[s.pcs[p].t].freed || StillThere(s, s.pcs[p].t)
    ensures EnqMoved(s, s', p)
  {
  }

  lemma TailWithinBlock(s: State, u: nat)
    requires Ids(s) && ChainOk(s) && u < |s.blocks| && StillThere(s, u)
    ensures s.blocks[u].tail <= SIZE
  {
    if u in s.chain {
      var i :| 0 <= i < |s.chain| && s.chain[i] == u;
      assert LinkOk(s, i);
    }
  }

  lemma EnqInspectSteps(s: State, s': State, p: nat, ok: bool)
    requires Ids(s) && 0 < p && Next(s, p, Step(ok), s') && ThreadOk(s, p) && ProducerOk(s, p)
    requires s.pcs[p].EnqIndex? || s.pcs[p].EnqNext?
    requires s.blocks[SeenAt(s.pcs[p])].tail <= SIZE
    ensures EnqMoved(s, s', p)
  {
  }

  lemma EnqReturnSteps(s: State, s': State, p: nat, ok: bool)
    requires Ids(s) && 0 < p && Next(s, p, Step(ok), s') && ThreadOk(s, p) && ProducerOk(s, p)
    requires s.pcs[p].EnqPop? || s.pcs[p].EnqPush? || s.pcs[p].EnqRelease?
    requires FL.AtRest(s.fl.threads[p].pc)
    ensures EnqMoved(s, s', p)
  {
  }

  lemma EnqGiveUpSteps(s: State, s': State, p: nat, ok: bool)
    requires Ids(s) && 0 < p && Next(s, p, Step(ok), s') && ThreadOk(s, p) && ProducerOk(s, p)
    requires !ok && (s.pcs[p].EnqLink? || s.pcs[p].EnqReserve?)
    ensures EnqMoved(s, s', p)
  {
  }

  lemma EnqLeaveStep(s: State, s': State, p: nat, ok: bool)
    requires Ids(s) && 0 < p && Next(s, p, Step(ok), s') && ThreadOk(s, p) && s.pcs[p].EnqLeave?
    ensures EnqMoved(s, s', p)
  {
  }

  // ----- the consumer's local steps -----

  /** What a local step of the consumer establishes. */
  predicate ConMoved(s: State, s': State)
    requires Ids(s)
  {
    && Local(s, s', 0) && PcIds(|s.blocks|, s'.pcs[0])
    && !Linking(s.pcs[0]) && (s'.pcs[0] != Idle ==> Consuming(s'.pcs[0]))
    && s'.fl.threads[0].held == NIL && CallMatches(s'.pcs[0], s'.fl.threads[0].pc)
    && (Ids(s') ==> ConsumerOk(s') && RetiresOn(s, s'))
  }

  lemma ConMovedKeepsStructure(s: State, s': State)
    requires Structure(s) && FL.Inv(s'.fl) && ConMoved(s, s')
    ensures Structure(s')
  {
    LocalIds(s, s', 0);
    LocalKeepsStructure(s, s', 0);
  }

  predicate HeadInRange(s: State)
    requires Ids(s)
  {
    s.blocks[s.head].head <= s.blocks[s.head].tail <= SIZE
  }

  lemma DeqLoadSteps(s: State, s': State, ok: bool)
    requires Ids(s) && Next(s, 0, Step(ok), s') && ThreadOk(s, 0) && ConsumerOk(s)
    requires s.pcs[0].DeqHead? || s.pcs[0].DeqIndex?
    ensures ConMoved(s, s')
  {
  }

  lemma DeqLookSteps(s: State, s': State, ok: bool)
    requires Ids(s) && Next(s, 0, Step(ok), s') && ThreadOk(s, 0) && ConsumerOk(s) && HeadInRange(s)
    requires s.pcs[0].DeqTail? || s.pcs[0].DeqNext?
    ensures ConMoved(s, s')
  {
  }

  lemma DeqPushSteps(s: State, s': State, ok: bool)
    requires Ids(s) && Next(s, 0, Step(ok), s') && ThreadOk(s, 0) && ConsumerOk(s)
    requires s.pcs[0].DeqPush? || (s.pcs[0].DeqPushing? && FL.AtRest(s.fl.threads[0].pc))
    ensures ConMoved(s, s')
  {
  }

  lemma DeqReadSteps(s: State, s': State, ok: bool)
    requires Ids(s) && Next(s, 0, Step(ok), s') && ThreadOk(s, 0) && ConsumerOk(s)
    requires s.pcs[0].DeqWait? || s.pcs[0].DeqRead?
    requires var b := s.blocks[s.pcs[0].h]; forall i :: i in b.avail && i in b.elem ==> b.elem[i] == Val(b, i)
    ensures ConMoved(s, s')
  {
  }

  lemma RewLookSteps(s: State, s': State, ok: bool)
    requires Ids(s) && Next(s, 0, Step(ok), s') && ThreadOk(s, 0) && ConsumerOk(s) && FL.Fits(s.fl, 0)
    requires s.pcs[0].RewHead? || s.pcs[0].RewIndex? || (s.pcs[0].RewPop? && s.fl.threads[0].pc.Popped?)
    ensures ConMoved(s, s')
  {
  }

  lemma RewSlotSteps(s: State, s': State, ok: bool)
    requires Ids(s) && Next(s, 0, Step(ok), s') && ThreadOk(s, 0) && ConsumerOk(s)
    requires s.pcs[0].RewTop? || s.pcs[0].RewSlot?
    ensures ConMoved(s, s')
  {
  }

  // ----- preparing a popped block -----

  /** Thread p writes the indices or the link of the block n it popped. */
  predicate Prepared(s: State, s': State, p: nat, n: nat)
    requires Ids(s)
  {
    && p < |s.pcs| == |s'.pcs| && n < |s.blocks| == |s'.blocks|
    && s.fl.threads[p].pc == FL.Popped(n) && OwnAt(s.pcs[p]) == OwnAt(s'.pcs[p]) == n
    && s' == s.(blocks := s.blocks[n := s'.blocks[n]], pcs := s.pcs[p := s'.pcs[p]])
    && NIL <= s'.blocks[n].next < |s.blocks| && PcIds(|s.blocks|, s'.pcs[p])
    && SeenAt(s'.pcs[p]) == SeenAt(s.pcs[p]) && HeldAt(s'.pcs[p]) == HeldAt(s.pcs[p])
    && PtrAt(s'.pcs[p]) == PtrAt(s.pcs[p])
    && SawFull(s'.pcs[p]) == SawFull(s.pcs[p]) && Consuming(s'.pcs[p]) == Consuming(s.pcs[p])
    && s'.blocks[n].avail == s.blocks[n].avail && s'.blocks[n].writer == s.blocks[n].writer
  }

  /** A block being prepared is in nobody else's sight. */
  lemma PreparedIsPrivate(s: State, p: nat, n: nat)
    requires Structure(s) && p < |s.pcs| && n < |s.blocks| && s.fl.threads[p].pc == FL.Popped(n) && OwnAt(s.pcs[p]) == n
    ensures s.fl.place[n] == FL.Owned(FL.By(p)) && n !in s.chain && n != s.head
    ensures forall p' :: 0 <= p' < |s.pcs| ==> SeenAt(s.pcs[p']) != n
    ensures forall p' :: 0 <= p' < |s.pcs| && p' != p ==> OwnAt(s.pcs[p']) != n
    ensures !Retiring(s, n)
  {
    assert FL.Fits(s.fl, p) && ThreadOk(s, p);
    OwnersOfCalls(s, 0);
    assert ThreadOk(s, 0);
    forall p' | 0 <= p' < |s.pcs| ensures SeenAt(s.pcs[p']) != n && (p' != p ==> OwnAt(s.pcs[p']) != n) {
      assert ProducerOk(s, p') && ThreadOk(s, p') && FL.Fits(s.fl, p');
    }
  }

  lemma PreparedShared(s: State, s': State, p: nat, n: nat)
    requires Structure(s) && Prepared(s, s', p, n)
    ensures Ids(s') && ChainOk(s') && LinkerOk(s')
    ensures forall u :: 0 <= u < |s'.blocks| ==> FreedOk(s', u)
    ensures forall u :: 0 <= u < |s'.blocks| && s'.fl.threads[0].pc == FL.PushSub(u) ==> s'.fl.nodes[u].freed
  {
    PreparedIsPrivate(s, p, n);
    forall i | 0 <= i < |s'.chain| ensures LinkOk(s', i) { assert LinkOk(s, i) && s.chain[i] in s.chain; }
    forall u | 0 <= u < |s.blocks| ensures FreedOk(s', u) { assert FreedOk(s, u); }
  }

  lemma PreparedOther(s: State, s': State, p: nat, n: nat, p': nat)
    requires Structure(s) && Prepared(s, s', p, n) && Ids(s') && p' < |s.pcs| && p' != p
    ensures ThreadOk(s', p') && ProducerOk(s', p')
  {
    PreparedIsPrivate(s, p, n);
    assert ThreadOk(s, p') && ProducerOk(s, p') && ThreadOk(s, p);
  }

  lemma PreparedKeepsStructure(s: State, s': State, p: nat, n: nat)
    requires Structure(s) && Prepared(s, s', p, n)
    requires Ids(s') ==> ThreadOk(s', p) && ProducerOk(s', p) && ConsumerOk(s')
    ensures Structure(s')
  {
    PreparedShared(s, s', p, n);
    forall p' | 0 <= p' < |s.pcs| && p' != p ensures ThreadOk(s', p') && ProducerOk(s', p') {
      PreparedOther(s, s', p, n, p');
    }
  }

  lemma EnqPrepareSteps(s: State, s': State, p: nat, ok: bool)
    requires Structure(s) && 0 < p && Next(s, p, Step(ok), s')
    requires s.pcs[p].EnqHead0? || s.pcs[p].EnqTail0? || s.pcs[p].EnqNext0?
    ensures Structure(s')
  {
    var n := s.pcs[p].n;
    assert ThreadOk(s, p) && ProducerOk(s, p);
    PreparedIsPrivate(s, p, n);
    EnqPrepareSelf(s, s', p, ok);
    PreparedKeepsStructure(s, s', p, n);
  }

  lemma EnqPrepareSelf(s: State, s': State, p: nat, ok: bool)
    requires Ids(s) && 0 < p && Next(s, p, Step(ok), s') && ThreadOk(s, p) && ProducerOk(s, p) && ConsumerOk(s)
    requires s.pcs[p].EnqHead0? || s.pcs[p].EnqTail0? || s.pcs[p].EnqNext0?
    requires s.fl.place[s.pcs[p].n] == FL.Owned(FL.By(p)) && s.pcs[p].n !in s.chain && s.pcs[p].n != s.head
    requires SeenAt(s.pcs[p]) != s.pcs[p].n && OwnAt(s.pcs[0]) != s.pcs[p].n && !Retiring(s, s.pcs[p].n)
    ensures Prepared(s, s', p, s.pcs[p].n)
    ensures Ids(s') ==> ThreadOk(s', p) && ProducerOk(s', p) && ConsumerOk(s')
  {
  }

  lemma RewPrepareSteps(s: State, s': State, ok: bool)
    requires Structure(s) && Next(s, 0, Step(ok), s')
    requires s.pcs[0].RewHead0? || s.pcs[0].RewTail0? || s.pcs[0].RewNext0?
    ensures Structure(s')
  {
    assert ThreadOk(s, 0);
    PreparedIsPrivate(s, 0, s.pcs[0].n);
    if s.pcs[0].RewNext0? { RewNext0Self(s, s', ok); } else { RewPrepareSelf(s, s', ok); }
    PreparedKeepsStructure(s, s', 0, s.pcs[0].n);
  }

  lemma RewPrepareSelf(s: State, s': State, ok: bool)
    requires Ids(s) && Next(s, 0, Step(ok), s') && ThreadOk(s, 0) && ConsumerOk(s)
    requires (s.pcs[0].RewHead0? || s.pcs[0].RewTail0?) && s.pcs[0].n != s.head
    ensures Prepared(s, s', 0, s.pcs[0].n)
    ensures Ids(s') ==> ThreadOk(s', 0) && ProducerOk(s', 0) && ConsumerOk(s')
  {
  }

  lemma RewNext0Self(s: State, s': State, ok: bool)
    requires Ids(s) && Next(s, 0, Step(ok), s') && ThreadOk(s, 0) && ConsumerOk(s)
    requires s.pcs[0].RewNext0? && s.pcs[0].n != s.head
    ensures Prepared(s, s', 0, s.pcs[0].n)
    ensures Ids(s') ==> ThreadOk(s', 0) && ProducerOk(s', 0) && ConsumerOk(s')
  {
  }

  // ----- linking and opening a new tail block -----

  /** The producer between linking and opening a block knows which block that is. */
  lemma LinkerHasLast(s: State, p: nat)
    requires Structure(s) && p < |s.pcs| && Linking(s.pcs[p])
    ensures 0 < p == s.linker && s.pcs[p].n == Last(s.chain) && s.pcs[p].n in s.chain
    ensures forall p' :: 0 <= p' < |s.pcs| && p' != p ==> !Linking(s.pcs[p'])
    ensures forall p' :: 0 <= p' < |s.pcs| && SeenAt(s.pcs[p']) != NIL ==> SeenAt(s.pcs[p']) != Last(s.chain)
  {
    forall p' | 0 <= p' < |s.pcs| && SeenAt(s.pcs[p']) != NIL ensures SeenAt(s.pcs[p']) != Last(s.chain) {
      assert ProducerOk(s, p');
    }
  }

  predicate TailSet(s: State, s': State, p: nat) {
    && p < |s.pcs| && s.pcs[p].EnqSetTail?
    && s' == s.(tail := s.pcs[p].n, pcs := s.pcs[p := EnqUnfree(s.pcs[p].e, s.pcs[p].t, s.pcs[p].n)])
  }

  lemma TailSetShared(s: State, s': State, p: nat)
    requires Ids(s) && ChainOk(s) && LinkerOk(s) && TailSet(s, s', p) && 0 < p == s.linker
    ensures Ids(s') && ChainOk(s') && LinkerOk(s')
  {
    forall i | 0 <= i < |s'.chain| ensures LinkOk(s', i) { assert LinkOk(s, i); }
  }

  lemma TailSetRest(s: State, s': State, p: nat)
    requires Structure(s) && TailSet(s, s', p) && Ids(s') && s.pcs[p].n in s.chain && p > 0
    ensures forall p' :: 0 <= p' < |s.pcs| ==> ThreadOk(s', p') && ProducerOk(s', p')
    ensures forall u :: 0 <= u < |s.blocks| ==> FreedOk(s', u)
  {
    forall p' | 0 <= p' < |s.pcs| ensures ThreadOk(s', p') && ProducerOk(s', p') {
      assert ThreadOk(s, p') && ProducerOk(s, p');
    }
    forall u | 0 <= u < |s.blocks| ensures FreedOk(s', u) { assert FreedOk(s, u); }
  }

  lemma TailSetKeepsStructure(s: State, s': State, p: nat)
    requires Structure(s) && TailSet(s, s', p)
    ensures Structure(s')
  {
    LinkerHasLast(s, p);
    TailSetShared(s, s', p);
    TailSetRest(s, s', p);
  }

  predicate Unfreed(s: State, s': State, p: nat, n: nat)
    requires Ids(s)
  {
    && p < |s.pcs| && n < |s.blocks| && s.pcs[p].EnqUnfree? && s.pcs[p].n == n
    && s' == s.(fl := s'.fl, linker := NIL, pcs := s.pcs[p := EnqLeave(s.pcs[p].e, s.pcs[p].t, Again)])
    && s'.fl == s.fl.(nodes := s.fl.nodes[n := s.fl.nodes[n].(freed := false)])
  }

  lemma UnfreedShared(s: State, s': State, p: nat, n: nat)
    requires Ids(s) && ChainOk(s) && LinkerOk(s) && Unfreed(s, s', p, n) && 0 < p == s.linker && n == Last(s.chain)
    requires FL.Ids(s'.fl)
    ensures Ids(s') && ChainOk(s') && LinkerOk(s')
  {
    forall i | 0 <= i < |s'.chain| ensures LinkOk(s', i) { assert LinkOk(s, i); }
  }

  lemma UnfreedRest(s: State, s': State, p: nat, n: nat)
    requires Structure(s) && Unfreed(s, s', p, n) && Ids(s') && 0 < p && n == Last(s.chain) && n in s.chain
    requires forall p' :: 0 <= p' < |s.pcs| && SeenAt(s.pcs[p']) != NIL ==> SeenAt(s.pcs[p']) != Last(s.chain)
    ensures forall p' :: 0 <= p' < |s.pcs| ==> ThreadOk(s', p') && ProducerOk(s', p')
    ensures forall u :: 0 <= u < |s.blocks| ==> FreedOk(s', u)
  {
    forall p' | 0 <= p' < |s.pcs| ensures ThreadOk(s', p') && ProducerOk(s', p') {
      assert ThreadOk(s, p') && ProducerOk(s, p');
    }
    forall u | 0 <= u < |s.blocks| ensures FreedOk(s', u) { assert FreedOk(s, u); }
  }

  lemma UnfreedKeepsStructure(s: State, s': State, p: nat, n: nat)
    requires Structure(s) && Unfreed(s, s', p, n) && FL.Inv(s'.fl)
    ensures Structure(s')
  {
    LinkerHasLast(s, p);
    OwnersOfCalls(s, 0);
    UnfreedShared(s, s', p, n);
    UnfreedRest(s, s', p, n);
  }

  /** The compare-exchange that links n behind t: only the last block has no successor, and nobody else is linking. */
  lemma LinkTarget(s: State, p: nat)
    requires Structure(s) && 0 < p < |s.pcs| && s.pcs[p].EnqLink? && s.blocks[s.pcs[p].t].next == NIL
    ensures LinkReady(s, p)
  {
    var t, n := s.pcs[p].t, s.pcs[p].n;
    assert ProducerOk(s, p) && ThreadOk(s, p) && StillThere(s, t);
    PreparedIsPrivate(s, p, n);
    assert FreedOk(s, n);
    var i :| 0 <= i < |s.chain| && s.chain[i] == t;
    assert LinkOk(s, i);
  }

  /** t is the last block, full, and nobody is linking; n is an empty block of p's own, marked freed. */
  predicate LinkReady(s: State, p: nat)
    requires Ids(s)
  {
    && 0 < p < |s.pcs| && s.pcs[p].EnqLink?
    && var t, n := s.pcs[p].t, s.pcs[p].n;
       && t == Last(s.chain) && s.linker == NIL && s.blocks[t].tail == SIZE && n != t
       && n !in s.chain && s.fl.place[n] == FL.Owned(FL.By(p)) && s.fl.nodes[n].freed
       && s.blocks[n].head == 0 && s.blocks[n].tail == 0 && s.blocks[n].next == NIL == s.blocks[t].next
       && !Retiring(s, n) && OwnAt(s.pcs[0]) != n
       && (forall p' :: 0 <= p' < |s.pcs| ==> SeenAt(s.pcs[p']) != n)
       && (forall p' :: 0 <= p' < |s.pcs| && p' != p ==> OwnAt(s.pcs[p']) != n)
  }

  predicate LinkDone(s: State, s': State, p: nat)
    requires Ids(s) && p < |s.pcs| && s.pcs[p].EnqLink?
  {
    var e, t, n := s.pcs[p].e, s.pcs[p].t, s.pcs[p].n;
    && s' == s.(fl := s'.fl, blocks := s.blocks[t := s.blocks[t].(next := n)], chain := s.chain + [n], linker := p,
                pcs := s.pcs[p := EnqSetTail(e, t, n)])
    && s'.fl == s.fl.(place := s.fl.place[n := FL.Owned(FL.Shared)],
                      threads := s.fl.threads[p := s.fl.threads[p].(pc := FL.Idle)])
  }

  lemma LinkShared(s: State, s': State, p: nat)
    requires Ids(s) && LinkReady(s, p) && LinkDone(s, s', p) && ChainOk(s) && LinkerOk(s) && FL.Ids(s'.fl)
    ensures Ids(s') && ChainOk(s') && LinkerOk(s')
  {
    var n := s.pcs[p].n;
    forall i | 0 <= i < |s'.chain| ensures LinkOk(s', i) {
      if i < |s.chain| { assert LinkOk(s, i); }
    }
    forall u | 0 <= u < |s'.blocks| ensures u in s'.chain <==> s'.fl.place[u] == FL.Owned(FL.Shared) {
      assert u in s'.chain <==> u in s.chain || u == n;
    }
  }

  lemma LinkFlags(s: State, s': State, p: nat)
    requires Ids(s) && LinkReady(s, p) && LinkDone(s, s', p) && Ids(s') && ChainOk(s) && ConsumerOk(s)
    requires s.pcs[0] == Idle || Consuming(s.pcs[0])
    requires OwnAt(s.pcs[0]) != NIL ==> OwnAt(s.pcs[0]) !in s.chain
    ensures ConsumerOk(s')
    ensures forall u :: 0 <= u < |s.blocks| && FreedOk(s, u) ==> FreedOk(s', u)
  {
    assert s.head in s.chain && Last(s.chain) in s.chain;
    forall u | 0 <= u < |s.blocks| && FreedOk(s, u) ensures FreedOk(s', u) {
      if Unseen(s, u) { assert PtrAt(s'.pcs[p]) == PtrAt(s.pcs[p]) && Unseen(s', u); }
    }
  }

  lemma LinkThread(s: State, s': State, p: nat, p': nat)
    requires Ids(s) && LinkReady(s, p) && LinkDone(s, s', p) && Ids(s') && ChainOk(s)
    requires p' < |s.pcs| && ThreadOk(s, p') && ProducerOk(s, p')
    ensures ThreadOk(s', p') && ProducerOk(s', p')
  {
    forall u | u in s.chain ensures u in s'.chain { }
    assert Last(s.chain) in s.chain;
  }

  lemma LinkKeepsStructure(s: State, s': State, p: nat)
    requires Structure(s) && LinkReady(s, p) && LinkDone(s, s', p) && FL.Inv(s'.fl)
    ensures Structure(s')
  {
    LinkShared(s, s', p);
    assert ThreadOk(s, 0) && FL.Fits(s.fl, 0);
    LinkFlags(s, s', p);
    forall p' | 0 <= p' < |s.pcs| ensures ThreadOk(s', p') && ProducerOk(s', p') {
      LinkThread(s, s', p, p');
    }
  }

  /** The three steps, from the code. */
  lemma LinkSteps(s: State, s': State, p: nat, ok: bool)
    requires Ids(s) && 0 < p && Next(s, p, Step(ok), s')
    ensures s.pcs[p].EnqSetTail? ==> TailSet(s, s', p)
    ensures s.pcs[p].EnqUnfree? ==> Unfreed(s, s', p, s.pcs[p].n)
    ensures s.pcs[p].EnqLink? && ok ==> LinkDone(s, s', p)
  {
  }

  // ----- steps on a block of the chain -----

  /** Thread p changes block t of the chain but not its link. */
  predicate InChain(s: State, s': State, p: nat, t: nat)
    requires Ids(s)
  {
    && p < |s.pcs| == |s'.pcs| && t < |s.blocks| == |s'.blocks| && t in s.chain
    && s'.pcs == s.pcs[p := s'.pcs[p]] && s'.blocks == s.blocks[t := s'.blocks[t]]
    && s'.fl == s.fl && s'.chain == s.chain && s'.head == s.head && s'.tail == s.tail && s'.linker == s.linker
    && PcIds(|s.blocks|, s'.pcs[p]) && !Linking(s.pcs[p]) && !Linking(s'.pcs[p])
    && PtrAt(s'.pcs[p]) == PtrAt(s.pcs[p]) && HeldAt(s'.pcs[p]) == HeldAt(s.pcs[p])
    && s.pcs[p] != DeqPush(t) && !s.pcs[p].DeqPush? && !s'.pcs[p].DeqPush?
    && var b, b' := s.blocks[t], s'.blocks[t];
       && b'.next == b.next && b'.head <= b'.tail <= SIZE && (b.tail == SIZE ==> b'.tail == SIZE)
       && (if p == 0 then t == s.head && b'.writer == b.writer && b'.tail == b.tail else b'.head == b.head)
       && (forall i :: i in b.writer && b.writer[i] != p ==> i in b'.writer && b'.writer[i] == b.writer[i])
  }

  lemma InChainShared(s: State, s': State, p: nat, t: nat)
    requires Ids(s) && ChainOk(s) && LinkerOk(s) && InChain(s, s', p, t)
    ensures Ids(s') && ChainOk(s') && LinkerOk(s')
  {
    forall i | 0 <= i < |s'.chain| ensures LinkOk(s', i) { assert LinkOk(s, i); }
  }

  lemma InChainFreed(s: State, s': State, p: nat, t: nat, u: nat)
    requires Ids(s) && ChainOk(s) && InChain(s, s', p, t) && Ids(s') && u < |s.blocks| && FreedOk(s, u)
    ensures FreedOk(s', u)
  {
  }

  lemma InChainOther(s: State, s': State, p: nat, t: nat, p': nat)
    requires Structure(s) && InChain(s, s', p, t) && Ids(s') && p' < |s.pcs| && p' != p
    ensures ThreadOk(s', p') && ProducerOk(s', p')
  {
    assert ThreadOk(s, p') && ProducerOk(s, p') && FL.Fits(s.fl, p');
  }

  lemma InChainKeepsStructure(s: State, s': State, p: nat, t: nat)
    requires Structure(s) && InChain(s, s', p, t)
    requires Ids(s') ==> ThreadOk(s', p) && ProducerOk(s', p) && ConsumerOk(s')
    ensures Structure(s')
  {
    InChainShared(s, s', p, t);
    forall p' | 0 <= p' < |s.pcs| && p' != p ensures ThreadOk(s', p') && ProducerOk(s', p') {
      InChainOther(s, s', p, t, p');
    }
    forall u | 0 <= u < |s.blocks| ensures FreedOk(s', u) { InChainFreed(s, s', p, t, u); }
  }

  lemma ReserveSelf(s: State, s': State, p: nat)
    requires Ids(s) && 0 < p && Next(s, p, Step(true), s') && ThreadOk(s, p) && ProducerOk(s, p) && ConsumerOk(s)
    requires s.pcs[p].EnqReserve? && s.pcs[p].t in s.chain && s.pcs[p].i !in s.blocks[s.pcs[p].t].writer
    requires s.blocks[s.pcs[p].t].head <= s.blocks[s.pcs[p].t].tail <= SIZE
    ensures InChain(s, s', p, s.pcs[p].t)
    ensures Ids(s') ==> ThreadOk(s', p) && ProducerOk(s', p) && ConsumerOk(s')
  {
  }

  lemma WriteSelf(s: State, s': State, p: nat, ok: bool)
    requires Ids(s) && 0 < p && Next(s, p, Step(ok), s') && ThreadOk(s, p) && ProducerOk(s, p) && ConsumerOk(s)
    requires s.pcs[p].EnqWrite?
    requires s.blocks[s.pcs[p].t].head <= s.blocks[s.pcs[p].t].tail <= SIZE
    requires Live(s, s.pcs[p].t, s.pcs[p].i)
    ensures InChain(s, s', p, s.pcs[p].t)
    ensures Ids(s') ==> ThreadOk(s', p) && ProducerOk(s', p) && ConsumerOk(s')
  {
  }

  lemma PublishSelf(s: State, s': State, p: nat, ok: bool)
    requires Ids(s) && 0 < p && Next(s, p, Step(ok), s') && ThreadOk(s, p) && ProducerOk(s, p) && ConsumerOk(s)
    requires s.pcs[p].EnqPublish?
    requires s.blocks[s.pcs[p].t].head <= s.blocks[s.pcs[p].t].tail <= SIZE
    ensures InChain(s, s', p, s.pcs[p].t)
    ensures Ids(s') ==> ThreadOk(s', p) && ProducerOk(s', p) && ConsumerOk(s')
  {
  }

  lemma DeqSlotSelf(s: State, s': State, ok: bool)
    requires Ids(s) && Next(s, 0, Step(ok), s') && ThreadOk(s, 0) && ConsumerOk(s) && HeadInRange(s)
             && s.head in s.chain
    requires s.pcs[0].DeqBump? || s.pcs[0].DeqClear?
    ensures InChain(s, s', 0, s.head)
    ensures Ids(s') ==> ThreadOk(s', 0) && ProducerOk(s', 0) && ConsumerOk(s')
  {
  }

  lemma RewWriteSelf(s: State, s': State, ok: bool)
    requires Ids(s) && Next(s, 0, Step(ok), s') && ThreadOk(s, 0) && ConsumerOk(s) && HeadInRange(s)
    requires s.head in s.chain && s.pcs[0].RewWrite?
    ensures InChain(s, s', 0, s.head)
    ensures Ids(s') ==> ThreadOk(s', 0) && ProducerOk(s', 0) && ConsumerOk(s')
  {
  }

  lemma RewPublishSelf(s: State, s': State, ok: bool)
    requires Ids(s) && Next(s, 0, Step(ok), s') && ThreadOk(s, 0) && ConsumerOk(s) && HeadInRange(s)
    requires s.head in s.chain && s.pcs[0].RewPublish?
    ensures InChain(s, s', 0, s.head)
    ensures Ids(s') ==> ThreadOk(s', 0) && ProducerOk(s', 0) && ConsumerOk(s')
  {
  }

  lemma RewStoreSelf(s: State, s': State, ok: bool)
    requires Ids(s) && Next(s, 0, Step(ok), s') && ThreadOk(s, 0) && ConsumerOk(s) && HeadInRange(s)
             && s.head in s.chain
    requires s.pcs[0].RewStore?
    ensures InChain(s, s', 0, s.head)
    ensures Ids(s') ==> ThreadOk(s', 0) && ProducerOk(s', 0) && ConsumerOk(s')
  {
  }

  // ----- the head block changes -----

  /** The consumer moves head past an exhausted block and takes that block out of the chain. */
  predicate HeadMoved(s: State, s': State)
    requires Ids(s)
  {
    && s.pcs[0].DeqMove? && s.chain != []
    && var h := s.pcs[0].h;
       && s' == s.(fl := s'.fl, head := s.pcs[0].n, chain := s.chain[1..], pcs := s.pcs[0 := DeqPush(h)])
       && s'.fl == s.fl.(place := s.fl.place[h := FL.Owned(FL.By(0))])
  }

  lemma HeadMovedShared(s: State, s': State)
    requires Ids(s) && ChainOk(s) && LinkerOk(s) && ConsumerOk(s) && HeadMoved(s, s') && FL.Ids(s'.fl)
    ensures Ids(s') && ChainOk(s') && LinkerOk(s') && ConsumerOk(s')
  {
    HeadMovedChain(s, s');
  }

  lemma HeadMovedChain(s: State, s': State)
    requires Ids(s) && ChainOk(s) && ConsumerOk(s) && HeadMoved(s, s') && FL.Ids(s'.fl)
    ensures Ids(s') && ChainOk(s')
  {
    assert LinkOk(s, 0);
    var h := s.pcs[0].h;
    forall i | 0 <= i < |s'.chain| ensures LinkOk(s', i) { assert LinkOk(s, i + 1); }
    assert s.chain == [h] + s'.chain;
    forall u | 0 <= u < |s'.blocks| ensures u in s'.chain <==> s'.fl.place[u] == FL.Owned(FL.Shared) {
      assert u in s.chain <==> u == h || u in s'.chain;
    }
  }

  lemma HeadMovedThread(s: State, s': State, p: nat)
    requires Ids(s) && HeadMoved(s, s') && Ids(s') && ChainOk(s) && ChainOk(s') && LinkerOk(s) && ConsumerOk(s)
    requires p < |s.pcs| && ThreadOk(s, p) && ProducerOk(s, p)
    requires p > 0 && (s.pcs[p].EnqWrite? || s.pcs[p].EnqPublish?) ==> s.pcs[p].t != s.pcs[0].h
    ensures ThreadOk(s', p) && ProducerOk(s', p)
  {
    assert LinkOk(s, 0);
    assert s.chain == [s.pcs[0].h] + s'.chain;
  }

  lemma HeadMovedFreed(s: State, s': State, u: nat)
    requires Ids(s) && HeadMoved(s, s') && Ids(s') && ConsumerOk(s) && ChainOk(s) && u < |s.blocks| && FreedOk(s, u)
    requires s.fl.threads[0].pc.Idle?
    ensures FreedOk(s', u)
  {
    assert LinkOk(s, 0);
  }

  lemma HeadMovedKeepsStructure(s: State, s': State)
    requires Structure(s) && HeadMoved(s, s') && FL.Inv(s'.fl)
    requires s.blocks[s.pcs[0].h].writer == map[]
    ensures Structure(s')
  {
    HeadMovedShared(s, s');
    assert ThreadOk(s, 0);
    forall p | 0 <= p < |s.pcs| ensures ThreadOk(s', p) && ProducerOk(s', p) {
      assert ThreadOk(s, p) && ProducerOk(s, p);
      HeadMovedThread(s, s', p);
    }
    forall u | 0 <= u < |s.blocks| ensures FreedOk(s', u) { HeadMovedFreed(s, s', u); }
  }

  /** rewind puts a block with no elements in front. */
  predicate HeadLinked(s: State, s': State)
    requires Ids(s)
  {
    && s.pcs[0].RewLink?
    && var n := s.pcs[0].n;
       && s' == s.(fl := s'.fl, head := n, chain := [n] + s.chain, pcs := s.pcs[0 := RewTop(s.pcs[0].e)])
       && s'.fl == s.fl.(place := s.fl.place[n := FL.Owned(FL.Shared)],
                         threads := s.fl.threads[0 := s.fl.threads[0].(pc := FL.Idle)])
  }

  lemma HeadLinkedIds(s: State, s': State)
    requires Ids(s) && HeadLinked(s, s') && FL.Ids(s'.fl)
    ensures Ids(s')
  {
  }

  lemma HeadLinkedChain(s: State, s': State)
    requires Ids(s) && ChainOk(s) && ConsumerOk(s) && HeadLinked(s, s') && Ids(s') && s.pcs[0].n !in s.chain
    ensures ChainOk(s')
  {
    var n := s.pcs[0].n;
    forall i | 0 <= i < |s'.chain| ensures LinkOk(s', i) {
      if i > 0 { assert LinkOk(s, i - 1); }
    }
    forall u | 0 <= u < |s'.blocks| ensures u in s'.chain <==> s'.fl.place[u] == FL.Owned(FL.Shared) {
      assert u in s'.chain <==> u == n || u in s.chain;
    }
  }

  lemma HeadLinkedShared(s: State, s': State)
    requires Ids(s) && ChainOk(s) && LinkerOk(s) && ConsumerOk(s) && HeadLinked(s, s') && FL.Ids(s'.fl)
    requires s.pcs[0].n !in s.chain
    ensures Ids(s') && ChainOk(s') && LinkerOk(s') && ConsumerOk(s')
  {
    HeadLinkedIds(s, s');
    HeadLinkedChain(s, s');
    assert Last(s'.chain) == Last(s.chain);
  }

  lemma HeadLinkedThread(s: State, s': State, p: nat)
    requires Ids(s) && HeadLinked(s, s') && Ids(s') && ChainOk(s)
    requires p < |s.pcs| && ThreadOk(s, p) && ProducerOk(s, p) && ThreadOk(s, 0)
    requires SeenAt(s.pcs[p]) != s.pcs[0].n
    ensures ThreadOk(s', p) && ProducerOk(s', p)
  {
    assert forall u :: u in s'.chain <==> u == s.pcs[0].n || u in s.chain;
    assert Last(s'.chain) == Last(s.chain);
  }

  lemma HeadLinkedFreed(s: State, s': State, u: nat)
    requires Ids(s) && HeadLinked(s, s') && Ids(s') && u < |s.blocks| && FreedOk(s, u) && ThreadOk(s, 0)
    ensures FreedOk(s', u)
  {
    if Unseen(s, u) { assert Unseen(s', u); }
  }

  lemma HeadLinkedKeepsStructure(s: State, s': State)
    requires Structure(s) && HeadLinked(s, s') && FL.Inv(s'.fl)
    ensures Structure(s')
  {
    assert ThreadOk(s, 0);
    PreparedIsPrivate(s, 0, s.pcs[0].n);
    HeadLinkedShared(s, s');
    forall p | 0 <= p < |s.pcs| ensures ThreadOk(s', p) && ProducerOk(s', p) {
      assert ThreadOk(s, p) && ProducerOk(s, p);
      HeadLinkedThread(s, s', p);
    }
    forall u | 0 <= u < |s.blocks| ensures FreedOk(s', u) {
      assert FreedOk(s, u);
      HeadLinkedFreed(s, s', u);
    }
  }

  /** rewind allocates a block because the list is empty. */
  predicate Allocated(s: State, s': State)
    requires Ids(s)
  {
    && s.pcs[0].RewPop? && s.fl.threads[0].pc.Empty?
    && s' == s.(fl := s'.fl, blocks := s.blocks + [FRESH_BLOCK])
    && s'.fl == s.fl.(nodes := s.fl.nodes + [FL.Node(FL.NIL, 1, false)], place := s.fl.place + [FL.Owned(FL.By(0))],
                      threads := s.fl.threads[0 := s.fl.threads[0].(pc := FL.Popped(|s.blocks|))])
  }

  lemma PcIdsGrow(n: nat, m: nat, pc: Pc)
    requires n <= m && PcIds(n, pc)
    ensures PcIds(m, pc) && PtrAt(pc) < n && SeenAt(pc) < n && OwnAt(pc) < n
  {
  }

  lemma AllocatedShared(s: State, s': State)
    requires Ids(s) && ChainOk(s) && LinkerOk(s) && ConsumerOk(s) && Allocated(s, s') && FL.Ids(s'.fl)
    ensures Ids(s') && ChainOk(s') && LinkerOk(s') && ConsumerOk(s')
  {
    forall p | 0 <= p < |s'.pcs| ensures PcIds(|s'.blocks|, s'.pcs[p]) { PcIdsGrow(|s.blocks|, |s'.blocks|, s.pcs[p]); }
    forall i | 0 <= i < |s'.chain| ensures LinkOk(s', i) { assert LinkOk(s, i); }
  }

  lemma AllocatedThread(s: State, s': State, p: nat)
    requires Ids(s) && Allocated(s, s') && Ids(s')
    requires p < |s.pcs| && ThreadOk(s, p) && ProducerOk(s, p)
    ensures ThreadOk(s', p) && ProducerOk(s', p)
  {
    PcIdsGrow(|s.blocks|, |s'.blocks|, s.pcs[p]);
  }

  lemma AllocatedFreed(s: State, s': State, u: nat)
    requires Ids(s) && Allocated(s, s') && Ids(s') && u < |s'.blocks|
    requires u < |s.blocks| ==> FreedOk(s, u)
    ensures FreedOk(s', u)
  {
    if u == |s.blocks| {
      forall p | 0 <= p < |s'.pcs| ensures PtrAt(s'.pcs[p]) != u { PcIdsGrow(|s.blocks|, |s'.blocks|, s.pcs[p]); }
      assert Unseen(s', u);
    } else {
      if Unseen(s, u) { assert Unseen(s', u); }
    }
  }

  lemma AllocatedKeepsStructure(s: State, s': State)
    requires Structure(s) && Allocated(s, s') && FL.Inv(s'.fl)
    ensures Structure(s')
  {
    AllocatedShared(s, s');
    forall p | 0 <= p < |s.pcs| ensures ThreadOk(s', p) && ProducerOk(s', p) {
      assert ThreadOk(s, p) && ProducerOk(s, p);
      AllocatedThread(s, s', p);
    }
    forall u | 0 <= u < |s'.blocks| ensures FreedOk(s', u) {
      assert u < |s.blocks| ==> FreedOk(s, u);
      AllocatedFreed(s, s', u);
    }
  }

  /** The three steps, from the code. */
  lemma HeadSteps(s: State, s': State, ok: bool)
    requires Ids(s) && Next(s, 0, Step(ok), s') && s.chain != []
    ensures s.pcs[0].DeqMove? ==> HeadMoved(s, s')
    ensures s.pcs[0].RewLink? ==> HeadLinked(s, s')
    ensures s.pcs[0].RewPop? && s.fl.threads[0].pc.Empty? ==> Allocated(s, s')
  {
  }
}
