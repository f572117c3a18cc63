/**
 * The reference-counted free list (class FreeList in include/salticidae/queue.h) as a step machine.
 *
 * Every atomic load, store, fetch_sub and compare-exchange of release_ref, push and pop is one step
 * of one thread, and steps of any number of threads interleave freely.  A weak compare-exchange may
 * fail spuriously.  `list` and `place` are auxiliary: steps write them, no step is guarded by them
 * except the hand-over steps by which an owner of a node gives it away or takes it back.
 */
module FreeListMachine {
  const NIL: int := -1

  datatype Node = Node(next: int, refcnt: nat, freed: bool)

  /** Who is answerable for a node's base reference: one thread, or a structure shared by all. */
  datatype Owner = Shared | By(thread: nat)

  /** Where a node is: on the list, owned, or pushed while temporary references delay the push. */
  datatype Place = Listed | Owned(owner: Owner) | Awaiting

  /** What release_ref returns to: its client, the retry loop of pop, or the success exit of pop. */
  datatype Then = Return | Retry | Got

  datatype Pc =
    | Idle
    | Popped(u: nat)                      // pop returned true with r == u
    | Empty                               // pop returned false
    | PopTop                              // load top
    | PopCount(u: nat)                    // load u->refcnt
    | PopRef(u: nat, cnt: nat)            // CAS u->refcnt from cnt to cnt + 1
    | PopNext(u: nat)                     // load u->next
    | PopSwap(u: nat, nv: int)            // CAS top from u to nv
    | RelSub(u: nat, k: Then)          // fetch_sub u->refcnt
    | RelTop(u: nat, k: Then)          // load top
    | RelNext(u: nat, t: int, k: Then) // store u->next
    | RelSwap(u: nat, t: int, k: Then) // CAS top from t to u
    | RelReset(u: nat, k: Then)        // store u->refcnt := 1
    | PushFreed(u: nat)                   // store u->freed := true
    | PushSub(u: nat)                     // fetch_sub dropping the owner's reference

  /** A thread: its position in a free-list call, and a reference it took outside of pop. */
  datatype Thread = Thread(pc: Pc, held: int)

  datatype State = State(top: int, nodes: seq<Node>, threads: seq<Thread>, list: seq<nat>, place: seq<Place>)

  datatype Act =
    | Internal(ok: bool)          // the next step of the call in progress; ok is a CAS's outcome
    | BeginPop
    | BeginPush(v: nat)
    | Acquire(v: nat, cnt: nat)   // a client's successful CAS of v's refcnt from cnt, cnt != 0
    | Drop                        // call release_ref on the held reference
    | Give(v: nat)                // the owner hands v to the shared structure
    | Take(v: nat)                // a thread takes v out of the shared structure
    | Alloc                       // new Block()
    | Unfree(v: nat)              // a client's v->freed.store(false)

  // ----- counting references -----

  function PcRef(pc: Pc): int {
    match pc
    case PopNext(u) => u
    case PopSwap(u, _) => u
    case RelSub(u, _) => u
    case _ => NIL
  }

  /** The node whose delayed insertion this thread carries out, if any. */
  function PcPush(pc: Pc): int {
    match pc
    case RelTop(u, _) => u
    case RelNext(u, _, _) => u
    case RelSwap(u, _, _) => u
    case RelReset(u, _) => u
    case _ => NIL
  }

  function RefsOf(x: Thread, u: nat): nat {
    (if x.held == u then 1 else 0) + (if PcRef(x.pc) == u then 1 else 0)
  }

  function PushesOf(x: Thread, u: nat): nat {
    if PcPush(x.pc) == u then 1 else 0
  }

  /** Temporary references on u. */
  function Refs(th: seq<Thread>, u: nat): nat {
    if th == [] then 0 else Refs(th[..|th| - 1], u) + RefsOf(th[|th| - 1], u)
  }

  /** Threads inserting u. */
  function Pushes(th: seq<Thread>, u: nat): nat {
    if th == [] then 0 else Pushes(th[..|th| - 1], u) + PushesOf(th[|th| - 1], u)
  }

  lemma {:induction false} CountUpdate(th: seq<Thread>, t: nat, x: Thread, u: nat)
    requires t < |th|
    ensures Refs(th[t := x], u) + RefsOf(th[t], u) == Refs(th, u) + RefsOf(x, u)
    ensures Pushes(th[t := x], u) + PushesOf(th[t], u) == Pushes(th, u) + PushesOf(x, u)
  {
    var n := |th| - 1;
    if t == n {
      assert th[t := x][..n] == th[..n];
    } else {
      assert th[t := x][..n] == th[..n][t := x];
      CountUpdate(th[..n], t, x, u);
    }
  }

  lemma {:induction false} CountPositive(th: seq<Thread>, t: nat, u: nat)
    requires t < |th|
    ensures Refs(th, u) >= RefsOf(th[t], u)
    ensures Pushes(th, u) >= PushesOf(th[t], u)
  {
    var n := |th| - 1;
    if t < n {
      CountPositive(th[..n], t, u);
    }
  }

  lemma {:induction false} CountTwo(th: seq<Thread>, t: nat, t': nat, u: nat)
    requires t < t' < |th|
    ensures Refs(th, u) >= RefsOf(th[t], u) + RefsOf(th[t'], u)
    ensures Pushes(th, u) >= PushesOf(th[t], u) + PushesOf(th[t'], u)
  {
    var n := |th| - 1;
    if t' < n {
      CountTwo(th[..n], t, t', u);
    } else {
      CountPositive(th[..n], t, u);
    }
  }

  // ----- steps -----

  predicate IsPtr(s: State, p: int) { NIL <= p < |s.nodes| }

  predicate PcIds(s: State, pc: Pc) {
    match pc
    case Idle => true
    case Empty => true
    case PopTop => true
    case Popped(u) => u < |s.nodes|
    case PopCount(u) => u < |s.nodes|
    case PopRef(u, cnt) => u < |s.nodes| && cnt > 0
    case PopNext(u) => u < |s.nodes|
    case PopSwap(u, nv) => u < |s.nodes| && IsPtr(s, nv)
    case RelSub(u, _) => u < |s.nodes|
    case RelTop(u, _) => u < |s.nodes|
    case RelNext(u, t, _) => u < |s.nodes| && IsPtr(s, t)
    case RelSwap(u, t, _) => u < |s.nodes| && IsPtr(s, t)
    case RelReset(u, _) => u < |s.nodes|
    case PushFreed(u) => u < |s.nodes|
    case PushSub(u) => u < |s.nodes|
  }

  /** Every pointer a thread or the list holds denotes a node. */
  predicate Ids(s: State) {
    && |s.place| == |s.nodes|
    && IsPtr(s, s.top)
    && (forall t :: 0 <= t < |s.threads| ==> PcIds(s, s.threads[t].pc) && IsPtr(s, s.threads[t].held))
    && (forall u :: 0 <= u < |s.nodes| ==> IsPtr(s, s.nodes[u].next))
  }

  predicate AtRest(pc: Pc) { pc.Idle? || pc.Popped? || pc.Empty? }

  function AfterRelease(u: nat, k: Then): Pc {
    match k
    case Return => Idle
    case Retry => PopTop
    case Got => Popped(u)
  }

  /** The compare-exchange at pc, if pc is one, finds the value it expects. */
  predicate CasMatches(s: State, pc: Pc)
    requires PcIds(s, pc)
  {
    match pc
    case PopRef(u, cnt) => s.nodes[u].refcnt == cnt
    case PopSwap(u, _) => s.top == u
    case RelSwap(_, top, _) => s.top == top
    case _ => true
  }

  predicate Enabled(s: State, t: nat, a: Act)
    requires Ids(s) && t < |s.threads|
  {
    var x := s.threads[t];
    match a
    case Internal(ok) => !AtRest(x.pc) && (ok ==> CasMatches(s, x.pc))
    case BeginPop => AtRest(x.pc)
    case BeginPush(v) => AtRest(x.pc) && v < |s.nodes| && s.place[v] == Owned(By(t))
    case Acquire(v, cnt) => x.pc.Idle? && x.held == NIL && v < |s.nodes| && cnt > 0 && s.nodes[v].refcnt == cnt
    case Drop => AtRest(x.pc) && x.held != NIL
    case Give(v) => AtRest(x.pc) && v < |s.nodes| && s.place[v] == Owned(By(t))
    case Take(v) => x.pc.Idle? && v < |s.nodes| && s.place[v] == Owned(Shared)
    case Alloc => AtRest(x.pc)
    case Unfree(v) => v < |s.nodes|
  }

  function Goto(s: State, t: nat, pc: Pc): State
    requires t < |s.threads|
  {
    s.(threads := s.threads[t := s.threads[t].(pc := pc)])
  }

  function SetNode(s: State, u: nat, n: Node): State
    requires u < |s.nodes|
  {
    s.(nodes := s.nodes[u := n])
  }

  function SetPlace(s: State, u: nat, p: Place): State
    requires u < |s.place|
  {
    s.(place := s.place[u := p])
  }

  /** The step of the call in progress. */
  function Advance(s: State, t: nat, ok: bool): State
    requires Ids(s) && t < |s.threads| && Enabled(s, t, Internal(ok))
  {
    match s.threads[t].pc
    case PopTop => Goto(s, t, if s.top == NIL then Empty else PopCount(s.top))
    case PopCount(u) => Goto(s, t, if s.nodes[u].refcnt == 0 then PopTop else PopRef(u, s.nodes[u].refcnt))
    case PopRef(u, cnt) =>
      if !ok then Goto(s, t, PopTop)
      else Goto(SetNode(s, u, s.nodes[u].(refcnt := cnt + 1)), t, PopNext(u))
    case PopNext(u) => Goto(s, t, PopSwap(u, s.nodes[u].next))
    case PopSwap(u, nv) =>
      if !ok then Goto(s, t, RelSub(u, Retry))
      else
        var s1 := SetPlace(s, u, Owned(By(t)));
        Goto(s1.(top := nv, list := if s.list == [] then [] else s.list[1..]), t, RelSub(u, Got))
    case RelSub(u, k) =>
      var c := s.nodes[u].refcnt;
      var s1 := SetNode(s, u, s.nodes[u].(refcnt := if c == 0 then 0 else c - 1));
      Goto(s1, t, if c != 1 then AfterRelease(u, k) else RelTop(u, k))
    case RelTop(u, k) => Goto(s, t, RelNext(u, s.top, k))
    case RelNext(u, top, k) => Goto(SetNode(s, u, s.nodes[u].(next := top)), t, RelSwap(u, top, k))
    case RelSwap(u, _, k) =>
      if !ok then Goto(s, t, RelTop(u, k))
      else Goto(SetPlace(s, u, Listed).(top := u, list := [u] + s.list), t, RelReset(u, k))
    case RelReset(u, k) => Goto(SetNode(s, u, s.nodes[u].(refcnt := 1)), t, AfterRelease(u, k))
    case PushFreed(u) => Goto(SetNode(s, u, s.nodes[u].(freed := true)), t, PushSub(u))
    case PushSub(u) =>
      var c := s.nodes[u].refcnt;
      var s1 := SetNode(SetPlace(s, u, Awaiting), u, s.nodes[u].(refcnt := if c == 0 then 0 else c - 1));
      Goto(s1, t, if c != 1 then Idle else RelTop(u, Return))
    case _ => s
  }

  function Apply(s: State, t: nat, a: Act): State
    requires Ids(s) && t < |s.threads| && Enabled(s, t, a)
  {
    var x := s.threads[t];
    match a
    case Internal(ok) => Advance(s, t, ok)
    case BeginPop => Goto(s, t, PopTop)
    case BeginPush(v) => Goto(s, t, PushFreed(v))
    case Acquire(v, cnt) =>
      SetNode(s, v, s.nodes[v].(refcnt := cnt + 1)).(threads := s.threads[t := x.(held := v)])
    case Drop => s.(threads := s.threads[t := Thread(RelSub(x.held, Return), NIL)])
    case Give(v) => Goto(SetPlace(s, v, Owned(Shared)), t, Idle)
    case Take(v) => SetPlace(s, v, Owned(By(t)))
    case Alloc =>
      Goto(s.(nodes := s.nodes + [Node(NIL, 1, false)], place := s.place + [Owned(By(t))]), t, Popped(|s.nodes|))
    case Unfree(v) => SetNode(s, v, s.nodes[v].(freed := false))
  }

  // ----- the invariant -----

  /** `list` is exactly what following next from top visits. */
  predicate Linked(s: State) {
    && s.top == (if s.list == [] then NIL else s.list[0])
    && (forall i :: 0 <= i < |s.list| ==> s.list[i] < |s.nodes|)
    && (forall i, j :: 0 <= i < j < |s.list| ==> s.list[i] != s.list[j])
    && (forall i :: 0 <= i < |s.list| && s.list[i] < |s.nodes| ==> s.nodes[s.list[i]].next == Following(s.list, i))
  }

  function Following(list: seq<nat>, i: nat): int
    requires i < |list|
  {
    if i + 1 < |list| then list[i + 1] else NIL
  }

  predicate Placed(s: State) {
    && |s.place| == |s.nodes|
    && (forall u :: 0 <= u < |s.place| ==> (s.place[u] == Listed <==> u in s.list))
  }

  /** The reference count of u, by where u is. */
  predicate Counted(s: State, u: nat)
    requires u < |s.nodes| == |s.place|
  {
    var c, p, n := Refs(s.threads, u), Pushes(s.threads, u), s.nodes[u].refcnt;
    match s.place[u]
    case Owned(_) => p == 0 && n == c + 1
    case Awaiting => n == c && p == (if c == 0 then 1 else 0)
    case Listed => p <= 1 && n + p == c + 1 && (p == 1 ==> c == 0)
  }

  predicate Fits(s: State, t: nat)
    requires Ids(s) && t < |s.threads|
  {
    match s.threads[t].pc
    case Popped(u) => s.place[u] == Owned(By(t))
    case PopSwap(u, nv) => nv == s.nodes[u].next
    case RelSub(u, k) => k == Got ==> s.place[u] == Owned(By(t))
    case RelTop(u, k) => s.place[u] == Awaiting && k != Got
    case RelNext(u, _, k) => s.place[u] == Awaiting && k != Got
    case RelSwap(u, top, k) => s.place[u] == Awaiting && k != Got && s.nodes[u].next == top
    case RelReset(u, k) => s.place[u] == Listed && k != Got
    case PushFreed(u) => s.place[u] == Owned(By(t))
    case PushSub(u) => s.place[u] == Owned(By(t))
    case _ => true
  }

  predicate Inv(s: State) {
    && Ids(s)
    && Linked(s)
    && Placed(s)
    && (forall u :: 0 <= u < |s.nodes| ==> Counted(s, u))
    && (forall t :: 0 <= t < |s.threads| ==> Fits(s, t))
  }

  /** While a thread inserts u, nobody holds a temporary reference on u and nobody else inserts u. */
  lemma InserterIsAlone(s: State, t: nat, u: nat)
    requires Inv(s) && t < |s.threads| && u < |s.nodes| && PcPush(s.threads[t].pc) == u
    ensures Refs(s.threads, u) == 0 && s.nodes[u].refcnt == 0
    ensures forall t' :: 0 <= t' < |s.threads| && t' != t ==>
              RefsOf(s.threads[t'], u) == 0 && PcPush(s.threads[t'].pc) != u
  {
    CountPositive(s.threads, t, u);
    assert Counted(s, u);
    forall t' | 0 <= t' < |s.threads| && t' != t
      ensures RefsOf(s.threads[t'], u) == 0 && PcPush(s.threads[t'].pc) != u
    {
      CountPositive(s.threads, t', u);
      if t < t' { CountTwo(s.threads, t, t', u); } else { CountTwo(s.threads, t', t, u); }
    }
  }

  /**
   * The frame of every step: thread t moves, at most node u and its place change, and for every
   * other node t's move leaves the counts alone.
   */
  ghost predicate Moves(s: State, s': State, t: nat, u: nat) {
    && t < |s.threads| == |s'.threads| && u < |s.nodes| == |s'.nodes| == |s'.place| == |s.place|
    && s'.threads == s.threads[t := s'.threads[t]]
    && s'.nodes == s.nodes[u := s'.nodes[u]]
    && s'.place == s.place[u := s'.place[u]]
    && PcIds(s', s'.threads[t].pc) && IsPtr(s', s'.threads[t].held) && IsPtr(s', s'.nodes[u].next)
    && (forall v: nat :: v != u ==> RefsOf(s'.threads[t], v) == RefsOf(s.threads[t], v))
    && (forall v: nat :: v != u ==> PushesOf(s'.threads[t], v) == PushesOf(s.threads[t], v))
  }

  lemma MovesIds(s: State, s': State, t: nat, u: nat)
    requires Ids(s) && Moves(s, s', t, u) && IsPtr(s', s'.top)
    ensures Ids(s')
  {
    forall t' | 0 <= t' < |s'.threads| ensures PcIds(s', s'.threads[t'].pc) && IsPtr(s', s'.threads[t'].held) {
      assert PcIds(s, s.threads[t'].pc) && IsPtr(s, s.threads[t'].held);
    }
  }

  lemma MovesCounts(s: State, s': State, t: nat, u: nat)
    requires Inv(s) && Moves(s, s', t, u)
    requires Counted(s', u)
    ensures forall v :: 0 <= v < |s'.nodes| ==> Counted(s', v)
  {
    forall v | 0 <= v < |s'.nodes| ensures Counted(s', v) {
      assert Counted(s, v);
      CountUpdate(s.threads, t, s'.threads[t], v);
    }
  }

  predicate StandsOn(pc: Pc, u: nat) {
    PcPush(pc) == u || pc == Popped(u) || pc == RelSub(u, Got) || pc == PushFreed(u) || pc == PushSub(u)
  }

  /** An owned node is named, as popped or about to be pushed, by its owner alone; nobody inserts it. */
  lemma OnlyTheOwnerStands(s: State, u: nat)
    requires Inv(s) && u < |s.nodes| && s.place[u].Owned?
    ensures forall t :: 0 <= t < |s.threads| && s.place[u] != Owned(By(t)) ==> !StandsOn(s.threads[t].pc, u)
    ensures forall t :: 0 <= t < |s.threads| ==> PcPush(s.threads[t].pc) != u
  {
    forall t | 0 <= t < |s.threads|
      ensures s.place[u] != Owned(By(t)) ==> !StandsOn(s.threads[t].pc, u)
      ensures PcPush(s.threads[t].pc) != u
    {
      assert Fits(s, t) && Counted(s, u);
      CountPositive(s.threads, t, u);
    }
  }

  /** Another thread's position that a change of node u would contradict. */
  predicate Disturbs(s: State, s': State, pc: Pc, u: nat)
    requires u < |s.nodes| == |s'.nodes| == |s'.place| == |s.place|
  {
    || (s'.nodes[u].next != s.nodes[u].next && ((pc.PopSwap? && pc.u == u) || (pc.RelSwap? && pc.u == u)))
    || (s'.place[u] != s.place[u] && StandsOn(pc, u))
  }

  lemma MovesFits(s: State, s': State, t: nat, u: nat)
    requires Inv(s) && Moves(s, s', t, u) && Ids(s')
    requires Fits(s', t)
    requires forall t' :: 0 <= t' < |s.threads| && t' != t ==> !Disturbs(s, s', s.threads[t'].pc, u)
    ensures forall t' :: 0 <= t' < |s'.threads| ==> Fits(s', t')
  {
    forall t' | 0 <= t' < |s'.threads| ensures Fits(s', t') {
      assert Fits(s, t');
      if t' != t { assert !Disturbs(s, s', s.threads[t'].pc, u); }
    }
  }

  lemma SameList(s: State, s': State)
    requires Linked(s) && s'.list == s.list && s'.top == s.top && |s.nodes| <= |s'.nodes|
    requires forall u :: 0 <= u < |s.nodes| && u in s.list ==> s'.nodes[u].next == s.nodes[u].next
    ensures Linked(s')
  {
    forall i | 0 <= i < |s'.list| ensures s'.nodes[s'.list[i]].next == Following(s'.list, i) {
      assert s.list[i] in s.list;
    }
  }

  /** A step that reads, or writes only freed flags: the thread's references stay what they were. */
  lemma QuietKeepsInv(s: State, s': State, t: nat)
    requires Inv(s) && t < |s.threads| == |s'.threads|
    requires s'.threads == s.threads[t := s'.threads[t]]
    requires s'.top == s.top && s'.list == s.list && s'.place == s.place && |s'.nodes| == |s.nodes|
    requires forall u :: 0 <= u < |s.nodes| ==>
               s'.nodes[u].next == s.nodes[u].next && s'.nodes[u].refcnt == s.nodes[u].refcnt
    requires PcIds(s', s'.threads[t].pc) && s'.threads[t].held == s.threads[t].held
    requires PcRef(s'.threads[t].pc) == PcRef(s.threads[t].pc)
    requires PcPush(s'.threads[t].pc) == PcPush(s.threads[t].pc)
    requires Ids(s') ==> Fits(s', t)
    ensures Inv(s')
  {
    forall t' | 0 <= t' < |s'.threads| ensures PcIds(s', s'.threads[t'].pc) && IsPtr(s', s'.threads[t'].held) {
      assert PcIds(s, s.threads[t'].pc) && IsPtr(s, s.threads[t'].held);
    }
    SameList(s, s');
    forall u | 0 <= u < |s'.nodes| ensures Counted(s', u) {
      assert Counted(s, u);
      CountUpdate(s.threads, t, s'.threads[t], u);
    }
    forall t' | 0 <= t' < |s'.threads| ensures Fits(s', t') {
      assert Fits(s, t');
    }
  }

  /** A step that changes node u without moving it on or off the list. */
  lemma UnlistedKeepsInv(s: State, s': State, t: nat, u: nat)
    requires Inv(s) && Moves(s, s', t, u) && s'.top == s.top && s'.list == s.list
    requires s'.place[u] == Listed <==> s.place[u] == Listed
    requires s.place[u] == Listed ==> s'.nodes[u].next == s.nodes[u].next
    requires Counted(s', u)
    requires Ids(s') ==> Fits(s', t)
    requires forall t' :: 0 <= t' < |s.threads| && t' != t ==> !Disturbs(s, s', s.threads[t'].pc, u)
    ensures Inv(s')
  {
    MovesIds(s, s', t, u);
    MovesCounts(s, s', t, u);
    MovesFits(s, s', t, u);
    SameList(s, s');
  }

  lemma PopReadKeepsInv(s: State, t: nat)
    requires Inv(s) && t < |s.threads|
    requires s.threads[t].pc.PopTop? || s.threads[t].pc.PopCount? || s.threads[t].pc.PopNext?
    ensures Inv(Advance(s, t, false))
  {
    assert PcIds(s, s.threads[t].pc);
    QuietKeepsInv(s, Advance(s, t, false), t);
  }

  lemma PopRefKeepsInv(s: State, t: nat, ok: bool)
    requires Inv(s) && t < |s.threads| && Enabled(s, t, Internal(ok)) && s.threads[t].pc.PopRef?
    ensures Inv(Advance(s, t, ok))
  {
    var s', u := Advance(s, t, ok), s.threads[t].pc.u;
    if ok {
      assert Counted(s, u);
      CountUpdate(s.threads, t, s'.threads[t], u);
      UnlistedKeepsInv(s, s', t, u);
    } else {
      QuietKeepsInv(s, s', t);
    }
  }

  /**
   * ABA safety of pop: when the compare-exchange on top succeeds, the popped node is the first of
   * the list and the value installed is that node's current successor, however often the node was
   * popped and pushed back since top was read.
   */
  lemma PopInstallsSuccessor(s: State, t: nat)
    requires Inv(s) && t < |s.threads| && s.threads[t].pc.PopSwap? && s.top == s.threads[t].pc.u
    ensures s.list != [] && s.threads[t].pc.u == s.list[0]
    ensures s.threads[t].pc.nv == Following(s.list, 0)
    ensures s.place[s.threads[t].pc.u] == Listed
  {
    assert Fits(s, t);
    assert s.list[0] in s.list;
  }

  /** While a thread holds a reference on a listed node nobody is about to reset its count. */
  lemma HolderExcludesInserter(s: State, t: nat, u: nat)
    requires Inv(s) && t < |s.threads| && u < |s.nodes| && RefsOf(s.threads[t], u) > 0
    ensures s.nodes[u].refcnt > 0
    ensures forall t' :: 0 <= t' < |s.threads| ==> PcPush(s.threads[t'].pc) != u
  {
    CountPositive(s.threads, t, u);
    assert Counted(s, u);
    forall t' | 0 <= t' < |s.threads| ensures PcPush(s.threads[t'].pc) != u {
      CountPositive(s.threads, t', u);
    }
  }

  lemma UnlinkFirst(s: State, s': State)
    requires Linked(s) && Placed(s) && s.list != [] && |s'.nodes| == |s.nodes|
    requires s'.list == s.list[1..] && s'.top == Following(s.list, 0) && s'.nodes == s.nodes
    requires |s'.place| == |s.place| && s'.place == s.place[s.list[0] := s'.place[s.list[0]]]
             && s'.place[s.list[0]] != Listed
    ensures Linked(s') && Placed(s')
  {
    forall i | 0 <= i < |s'.list| ensures s'.nodes[s'.list[i]].next == Following(s'.list, i) {
      assert s.list[i + 1] == s'.list[i] && Following(s.list, i + 1) == Following(s'.list, i);
    }
    assert s.list == [s.list[0]] + s'.list;
    assert s.list[0] !in s'.list;
  }

  lemma LinkFirst(s: State, s': State, u: nat)
    requires Linked(s) && Placed(s) && u < |s.nodes| && s.place[u] != Listed && |s'.nodes| == |s.nodes|
    requires s'.list == [u] + s.list && s'.top == u && s'.nodes == s.nodes && s.nodes[u].next == s.top
    requires |s'.place| == |s.place| && s'.place == s.place[u := Listed]
    ensures Linked(s') && Placed(s')
  {
    forall i | 0 <= i < |s'.list| ensures s'.nodes[s'.list[i]].next == Following(s'.list, i) {
      if i > 0 { assert s'.list[i] == s.list[i - 1] && Following(s.list, i - 1) == Following(s'.list, i); }
    }
    assert u !in s.list;
  }

  lemma PopSwapKeepsInv(s: State, t: nat, ok: bool)
    requires Inv(s) && t < |s.threads| && Enabled(s, t, Internal(ok)) && s.threads[t].pc.PopSwap?
    ensures Inv(Advance(s, t, ok))
  {
    var s', u := Advance(s, t, ok), s.threads[t].pc.u;
    if ok {
      PopInstallsSuccessor(s, t);
      HolderExcludesInserter(s, t, u);
      UnlinkFirst(s, s');
      MovesIds(s, s', t, u);
      assert Counted(s', u) by {
        assert Counted(s, u);
        CountPositive(s.threads, t, u);
        CountUpdate(s.threads, t, s'.threads[t], u);
      }
      MovesCounts(s, s', t, u);
      forall t' | 0 <= t' < |s.threads| && t' != t ensures !Disturbs(s, s', s.threads[t'].pc, u) {
        assert Fits(s, t');
      }
      MovesFits(s, s', t, u);
    } else {
      QuietKeepsInv(s, s', t);
    }
  }

  lemma RelSubKeepsInv(s: State, t: nat)
    requires Inv(s) && t < |s.threads| && s.threads[t].pc.RelSub?
    ensures Inv(Advance(s, t, false))
  {
    var s', u := Advance(s, t, false), s.threads[t].pc.u;
    assert Fits(s, t);
    assert Counted(s, u);
    HolderExcludesInserter(s, t, u);
    CountPositive(s.threads, t, u);
    CountUpdate(s.threads, t, s'.threads[t], u);
    UnlistedKeepsInv(s, s', t, u);
  }

  /** The inserting thread reloads top, at first or after a failed compare-exchange. */
  lemma ReloadKeepsInv(s: State, t: nat)
    requires Inv(s) && t < |s.threads| && (s.threads[t].pc.RelTop? || s.threads[t].pc.RelSwap?)
    ensures Inv(Advance(s, t, false))
  {
    assert Fits(s, t);
    QuietKeepsInv(s, Advance(s, t, false), t);
  }

  /** Storing next into a node that nobody references. */
  lemma RelNextKeepsInv(s: State, t: nat)
    requires Inv(s) && t < |s.threads| && s.threads[t].pc.RelNext?
    ensures Inv(Advance(s, t, false))
  {
    var s', u := Advance(s, t, false), s.threads[t].pc.u;
    assert Fits(s, t);
    InserterIsAlone(s, t, u);
    assert Counted(s, u);
    CountUpdate(s.threads, t, s'.threads[t], u);
    UnlistedKeepsInv(s, s', t, u);
  }

  lemma RelSwapKeepsInv(s: State, t: nat)
    requires Inv(s) && t < |s.threads| && s.threads[t].pc.RelSwap? && s.top == s.threads[t].pc.t
    ensures Inv(Advance(s, t, true))
  {
    var s', u := Advance(s, t, true), s.threads[t].pc.u;
    assert Fits(s, t);
    InserterIsAlone(s, t, u);
    LinkFirst(s, s', u);
    MovesIds(s, s', t, u);
    assert Counted(s', u) by {
      assert Counted(s, u);
      CountUpdate(s.threads, t, s'.threads[t], u);
    }
    MovesCounts(s, s', t, u);
    forall t' | 0 <= t' < |s.threads| && t' != t ensures !StandsOn(s.threads[t'].pc, u) {
      assert Fits(s, t');
    }
    MovesFits(s, s', t, u);
  }

  lemma RelResetKeepsInv(s: State, t: nat)
    requires Inv(s) && t < |s.threads| && s.threads[t].pc.RelReset?
    ensures Inv(Advance(s, t, false))
  {
    var s', u := Advance(s, t, false), s.threads[t].pc.u;
    assert Fits(s, t);
    InserterIsAlone(s, t, u);
    assert Counted(s, u);
    CountPositive(s.threads, t, u);
    CountUpdate(s.threads, t, s'.threads[t], u);
    UnlistedKeepsInv(s, s', t, u);
  }

  lemma PushKeepsInv(s: State, t: nat)
    requires Inv(s) && t < |s.threads|
    requires s.threads[t].pc.PushFreed? || s.threads[t].pc.PushSub?
    ensures Inv(Advance(s, t, false))
  {
    var s', u := Advance(s, t, false), s.threads[t].pc.u;
    assert Fits(s, t);
    if s.threads[t].pc.PushFreed? {
      QuietKeepsInv(s, s', t);
    } else {
      assert Counted(s, u);
      CountUpdate(s.threads, t, s'.threads[t], u);
      OnlyTheOwnerStands(s, u);
      UnlistedKeepsInv(s, s', t, u);
    }
  }

  lemma InternalKeepsInv(s: State, t: nat, ok: bool)
    requires Inv(s) && t < |s.threads| && Enabled(s, t, Internal(ok))
    ensures Inv(Advance(s, t, ok))
  {
    match s.threads[t].pc
    case PopRef(_, _) => PopRefKeepsInv(s, t, ok);
    case PopSwap(_, _) => PopSwapKeepsInv(s, t, ok);
    case RelSub(_, _) => RelSubKeepsInv(s, t);
    case RelTop(_, _) => ReloadKeepsInv(s, t);
    case RelNext(_, _, _) => RelNextKeepsInv(s, t);
    case RelSwap(_, _, _) => if ok { RelSwapKeepsInv(s, t); } else { ReloadKeepsInv(s, t); }
    case RelReset(_, _) => RelResetKeepsInv(s, t);
    case PushFreed(_) => PushKeepsInv(s, t);
    case PushSub(_) => PushKeepsInv(s, t);
    case _ => PopReadKeepsInv(s, t);
  }

  /** A node that does not exist yet has no references. */
  lemma {:induction false} NobodyNames(s: State, th: seq<Thread>, n: nat)
    requires n >= |s.nodes|
    requires forall x :: x in th ==> PcIds(s, x.pc) && IsPtr(s, x.held)
    ensures Refs(th, n) == 0 && Pushes(th, n) == 0
  {
    if th != [] {
      assert th[|th| - 1] in th;
      NobodyNames(s, th[..|th| - 1], n);
    }
  }

  lemma AllocCounts(s: State, t: nat)
    requires Ids(s) && t < |s.threads| && Enabled(s, t, Alloc) && forall u :: 0 <= u < |s.nodes| ==> Counted(s, u)
    ensures var s' := Apply(s, t, Alloc); |s'.nodes| == |s.nodes| + 1 && |s'.place| == |s'.nodes|
    ensures var s' := Apply(s, t, Alloc); forall u :: 0 <= u < |s'.nodes| ==> Counted(s', u)
  {
    var s', n := Apply(s, t, Alloc), |s.nodes|;
    NobodyNames(s, s.threads, n);
    forall u | 0 <= u < |s'.nodes| ensures Counted(s', u) {
      if u < n { assert Counted(s, u); }
      CountUpdate(s.threads, t, s'.threads[t], u);
    }
  }

  lemma AllocKeepsInv(s: State, t: nat)
    requires Inv(s) && t < |s.threads| && Enabled(s, t, Alloc)
    ensures Inv(Apply(s, t, Alloc))
  {
    var s' := Apply(s, t, Alloc);
    AllocCounts(s, t);
    SameList(s, s');
    forall t' | 0 <= t' < |s'.threads| ensures Fits(s', t') {
      assert PcIds(s, s.threads[t'].pc) && Fits(s, t');
    }
  }

  /** A client's own compare-exchange or release of a reference. */
  lemma ReferenceKeepsInv(s: State, t: nat, a: Act)
    requires Inv(s) && t < |s.threads| && Enabled(s, t, a) && (a.Acquire? || a.Drop?)
    ensures Inv(Apply(s, t, a))
  {
    var s', u := Apply(s, t, a), if a.Acquire? then a.v else s.threads[t].held;
    assert Counted(s, u);
    CountUpdate(s.threads, t, s'.threads[t], u);
    UnlistedKeepsInv(s, s', t, u);
  }

  lemma GiveKeepsInv(s: State, t: nat, v: nat)
    requires Inv(s) && t < |s.threads| && Enabled(s, t, Give(v))
    ensures Inv(Apply(s, t, Give(v)))
  {
    var s' := Apply(s, t, Give(v));
    assert Counted(s, v);
    CountUpdate(s.threads, t, s'.threads[t], v);
    OnlyTheOwnerStands(s, v);
    UnlistedKeepsInv(s, s', t, v);
  }

  lemma TakeKeepsInv(s: State, t: nat, v: nat)
    requires Inv(s) && t < |s.threads| && Enabled(s, t, Take(v))
    ensures Inv(Apply(s, t, Take(v)))
  {
    var s' := Apply(s, t, Take(v));
    assert Counted(s, v);
    CountUpdate(s.threads, t, s'.threads[t], v);
    OnlyTheOwnerStands(s, v);
    UnlistedKeepsInv(s, s', t, v);
  }

  /** Every step of every thread keeps the invariant. */
  lemma StepKeepsInv(s: State, t: nat, a: Act)
    requires Inv(s) && t < |s.threads| && Enabled(s, t, a)
    ensures Inv(Apply(s, t, a))
  {
    match a
    case Internal(ok) => InternalKeepsInv(s, t, ok);
    case Alloc => AllocKeepsInv(s, t);
    case Acquire(_, _) => ReferenceKeepsInv(s, t, a);
    case Drop => ReferenceKeepsInv(s, t, a);
    case Give(v) => GiveKeepsInv(s, t, v);
    case Take(v) => TakeKeepsInv(s, t, v);
    case _ =>
      assert Fits(s, t);
      QuietKeepsInv(s, Apply(s, t, a), t);
  }

  // ----- runs -----

  /** An empty list, nodes that are all owned by somebody, and threads outside any call. */
  predicate Init(s: State) {
    && s.top == NIL && s.list == [] && |s.place| == |s.nodes|
    && (forall u :: 0 <= u < |s.nodes| ==> s.nodes[u].refcnt == 1 && s.nodes[u].next == NIL && s.place[u].Owned?)
    && (forall t :: 0 <= t < |s.threads| ==> s.threads[t] == Thread(Idle, NIL))
  }

  datatype Label = Label(t: nat, a: Act)

  predicate Next(s: State, l: Label, s': State) {
    Ids(s) && l.t < |s.threads| && Enabled(s, l.t, l.a) && s' == Apply(s, l.t, l.a)
  }

  predicate IsRun(states: seq<State>, labels: seq<Label>) {
    && |states| == |labels| + 1
    && Init(states[0])
    && (forall i :: 0 <= i < |labels| ==> Next(states[i], labels[i], states[i + 1]))
  }

  lemma {:induction false} IdleThreadsCount(th: seq<Thread>, u: nat)
    requires forall x :: x in th ==> AtRest(x.pc) && x.held == NIL
    ensures Refs(th, u) == 0 && Pushes(th, u) == 0
  {
    if th != [] {
      assert th[|th| - 1] in th;
      IdleThreadsCount(th[..|th| - 1], u);
    }
  }

  lemma InitInv(s: State)
    requires Init(s)
    ensures Inv(s)
  {
    forall u | 0 <= u < |s.nodes| ensures Counted(s, u) {
      IdleThreadsCount(s.threads, u);
    }
  }

  /** The invariant holds in every state of every run. */
  lemma {:induction false} RunInv(states: seq<State>, labels: seq<Label>, i: nat)
    requires IsRun(states, labels) && i < |states|
    ensures Inv(states[i])
  {
    if i == 0 {
      InitInv(states[0]);
    } else {
      RunInv(states, labels, i - 1);
      assert Next(states[i - 1], labels[i - 1], states[i]);
      StepKeepsInv(states[i - 1], labels[i - 1].t, labels[i - 1].a);
    }
  }

  /** The compare-exchange by which a pop takes node u off the list. */
  predicate PopsNode(s: State, l: Label, u: nat) {
    l.t < |s.threads| && l.a == Internal(true) && s.threads[l.t].pc.PopSwap? && s.threads[l.t].pc.u == u
  }

  /** u is owned and nobody has begun to push it. */
  predicate Kept(s: State, u: nat) {
    && u < |s.place| && s.place[u].Owned?
    && (forall t :: 0 <= t < |s.threads| ==> s.threads[t].pc != PushFreed(u) && s.threads[t].pc != PushSub(u))
  }

  lemma PopKeeps(s: State, l: Label, s': State, u: nat)
    requires Inv(s) && Next(s, l, s') && PopsNode(s, l, u)
    ensures Kept(s', u)
  {
    PopInstallsSuccessor(s, l.t);
    forall t | 0 <= t < |s'.threads| ensures s'.threads[t].pc != PushFreed(u) && s'.threads[t].pc != PushSub(u) {
      assert Fits(s, t);
    }
  }

  lemma KeptStays(s: State, l: Label, s': State, u: nat)
    requires Inv(s) && Next(s, l, s') && Kept(s, u) && l.a != BeginPush(u)
    ensures Kept(s', u) && !PopsNode(s, l, u)
  {
    KeptIsNotPopped(s, l, u);
    OnlyTheOwnerStands(s, u);
    assert Fits(s, l.t);
    if l.a.Internal? { KeptInside(s, l.t, l.a.ok, u); }
  }

  lemma KeptIsNotPopped(s: State, l: Label, u: nat)
    requires Inv(s) && Ids(s) && l.t < |s.threads| && Enabled(s, l.t, l.a) && Kept(s, u)
    ensures !PopsNode(s, l, u)
  {
    if PopsNode(s, l, u) { PopInstallsSuccessor(s, l.t); }
  }

  /** A step of a call leaves an owned node that nobody pushes with its owner. */
  lemma KeptInside(s: State, t: nat, ok: bool, u: nat)
    requires Inv(s) && t < |s.threads| && Enabled(s, t, Internal(ok)) && Kept(s, u)
    requires !PopsNode(s, Label(t, Internal(ok)), u) && PcPush(s.threads[t].pc) != u
    ensures Kept(Advance(s, t, ok), u)
  {
  }

  lemma {:induction false} KeptUntilPushed(states: seq<State>, labels: seq<Label>, u: nat, i: nat, j: nat)
    requires IsRun(states, labels) && i <= j <= |labels| && Kept(states[i], u)
    requires forall k :: i <= k < j ==> labels[k].a != BeginPush(u)
    ensures Kept(states[j], u)
  {
    if i < j {
      KeptUntilPushed(states, labels, u, i, j - 1);
      KeptNext(states, labels, u, j - 1);
    }
  }

  lemma KeptNext(states: seq<State>, labels: seq<Label>, u: nat, j: nat)
    requires IsRun(states, labels) && j < |labels| && Kept(states[j], u) && labels[j].a != BeginPush(u)
    ensures Kept(states[j + 1], u)
  {
    RunInv(states, labels, j);
    assert Next(states[j], labels[j], states[j + 1]);
    KeptStays(states[j], labels[j], states[j + 1], u);
  }

  /** No node is handed out twice: between two pops of a node its owner pushed it back. */
  lemma PopsAlternateWithPushes(states: seq<State>, labels: seq<Label>, u: nat, i: nat, j: nat)
    requires IsRun(states, labels) && i < j < |labels|
    requires PopsNode(states[i], labels[i], u) && PopsNode(states[j], labels[j], u)
    ensures exists k :: i < k < j && labels[k].a == BeginPush(u)
  {
    RunInv(states, labels, i);
    RunInv(states, labels, j);
    assert Next(states[i], labels[i], states[i + 1]) && Next(states[j], labels[j], states[j + 1]);
    PopKeeps(states[i], labels[i], states[i + 1], u);
    if forall k :: i < k < j ==> labels[k].a != BeginPush(u) {
      KeptUntilPushed(states, labels, u, i + 1, j);
      KeptStays(states[j], labels[j], states[j + 1], u);
    }
  }

  /**
   * ABA safety in every run: the successful compare-exchange of a pop takes the first node off the list and
   * installs the node that follows it at that moment, and the rest of the list is untouched.
   */
  lemma PopsTakeTheFirst(states: seq<State>, labels: seq<Label>, i: nat, u: nat)
    requires IsRun(states, labels) && i < |labels| && PopsNode(states[i], labels[i], u)
    ensures states[i].list == [u] + states[i + 1].list
    ensures Linked(states[i + 1]) && states[i + 1].place[u] == Owned(By(labels[i].t))
  {
    RunInv(states, labels, i);
    RunInv(states, labels, i + 1);
    assert Next(states[i], labels[i], states[i + 1]);
    PopInstallsSuccessor(states[i], labels[i].t);
  }

  /** The node a thread has popped, or is pushing back before its base reference is dropped. */
  function OwnedAt(pc: Pc): int {
    match pc
    case Popped(u) => u
    case RelSub(u, Got) => u
    case PushFreed(u) => u
    case PushSub(u) => u
    case _ => NIL
  }

  /** No two threads own the same node, in any run, and what a thread owns is neither listed nor awaiting a push. */
  lemma OneOwner(states: seq<State>, labels: seq<Label>, i: nat, t: nat, t': nat)
    requires IsRun(states, labels) && i < |states| && t < |states[i].threads| && t' < |states[i].threads|
    requires OwnedAt(states[i].threads[t].pc) == OwnedAt(states[i].threads[t'].pc) != NIL
    ensures t == t' && OwnedAt(states[i].threads[t].pc) !in states[i].list
  {
    RunInv(states, labels, i);
    assert Fits(states[i], t) && Fits(states[i], t');
  }

  /** In every run, a zero reference count is raised only by the store that ends a push, when no reference exists. */
  lemma ZeroIsNeverIncremented(states: seq<State>, labels: seq<Label>, i: nat, u: nat)
    requires IsRun(states, labels) && i < |labels| && u < |states[i].nodes| && u < |states[i + 1].nodes|
    requires states[i].nodes[u].refcnt == 0 && states[i + 1].nodes[u].refcnt > 0
    ensures var s, l := states[i], labels[i];
      && l.a.Internal? && l.t < |s.threads| && s.threads[l.t].pc.RelReset? && s.threads[l.t].pc.u == u
      && u in s.list && Refs(s.threads, u) == 0
  {
    var s, l := states[i], labels[i];
    RunInv(states, labels, i);
    assert Next(s, l, states[i + 1]);
    assert Counted(s, u) && Fits(s, l.t);
    CountPositive(s.threads, l.t, u);
  }

  /** When no call is in progress and no reference is held, every node not owned is on the list. */
  lemma NothingIsLost(s: State, u: nat)
    requires Inv(s) && u < |s.nodes|
    requires forall x :: x in s.threads ==> AtRest(x.pc) && x.held == NIL
    ensures s.nodes[u].refcnt == 1
    ensures s.place[u].Owned? <==> u !in s.list
  {
    IdleThreadsCount(s.threads, u);
    assert Counted(s, u);
  }
}
