/**
 * The atomic reference count with its deletion guard (struct _ARCCtl in include/salticidae/ref.h).
 *
 * Any number of threads hold strong and weak references and may pass them to each other; each atomic
 * access of release_ref and release_weak is one step.  `dcnt` counts releases in progress in eight bits and wraps.
 * Converting a weak reference into a strong one is not part of this machine.
 */
module ArcCount {
  datatype Pc =
    | Out                   // not inside the control block
    | RefDec                // --ref_cnt
    | RefTest               // load weak_cnt
    | RefLeave(last: bool)  // dcnt--, return last
    | RefFree               // if (!--dcnt) delete this, return true
    | WeakDec               // --weak_cnt
    | WeakTest              // load ref_cnt
    | WeakLeave             // dcnt--
    | WeakFree              // if (!--dcnt) delete this
    | DeleteObj             // release_ref returned true: run the deleter

  datatype Thread = Thread(pc: Pc, strong: nat, weak: nat)

  datatype State = State(ref: int, weak: int, dcnt: nat, freed: bool, objDeleted: nat, threads: seq<Thread>)

  datatype Act =
    | Step               // the next access of the release in progress
    | DropRef | DropWeak // start a release: dcnt++
    | CopyRef            // add_ref, from a strong reference
    | CopyWeak           // add_weak, from a weak reference
    | MakeWeak           // add_weak, from a strong reference
    | Pass(to: nat, strong: bool)  // move a strong or a weak reference to another thread

  // ----- sums over threads -----

  function Sum(th: seq<Thread>, f: Thread -> nat): nat {
    if th == [] then 0 else Sum(th[..|th| - 1], f) + f(th[|th| - 1])
  }

  lemma {:induction false} SumUpdate(th: seq<Thread>, t: nat, x: Thread, f: Thread -> nat)
    requires t < |th|
    ensures Sum(th[t := x], f) + f(th[t]) == Sum(th, f) + f(x)
    ensures Sum(th, f) >= f(th[t])
  {
    var n := |th| - 1;
    if t == n {
      assert th[t := x][..n] == th[..n];
    } else {
      assert th[t := x][..n] == th[..n][t := x];
      SumUpdate(th[..n], t, x, f);
    }
  }

  lemma {:induction false} SumBound(th: seq<Thread>, f: Thread -> nat)
    requires forall x :: f(x) <= 1
    ensures Sum(th, f) <= |th|
  {
    if th != [] { SumBound(th[..|th| - 1], f); }
  }

  lemma {:induction false} SumPair(th: seq<Thread>, t: nat, u: nat, f: Thread -> nat)
    requires t < u < |th|
    ensures Sum(th, f) >= f(th[t]) + f(th[u])
  {
    var n := |th| - 1;
    if u < n {
      SumPair(th[..n], t, u, f);
    } else {
      SumUpdate(th[..n], t, th[t], f);
    }
  }

  const STRONG := (x: Thread) => x.strong + (if x.pc == RefDec then 1 else 0)
  const WEAK := (x: Thread) => x.weak + (if x.pc == WeakDec then 1 else 0)
  const INSIDE := (x: Thread) => if x.pc == Out || x.pc == DeleteObj then 0 else 1
  /** Threads whose release_ref will return, or has just returned, true. */
  const LAST := (x: Thread) => if x.pc in {RefTest, RefLeave(true), RefFree, DeleteObj} then 1 else 0

  // ----- steps -----

  predicate Enabled(s: State, t: nat, a: Act) {
    && t < |s.threads|
    && var x := s.threads[t];
       match a
       case Step => x.pc != Out
       case DropRef => x.pc == Out && x.strong > 0
       case DropWeak => x.pc == Out && x.weak > 0
       case CopyRef => x.pc == Out && x.strong > 0
       case CopyWeak => x.pc == Out && x.weak > 0
       case MakeWeak => x.pc == Out && x.strong > 0
       case Pass(to, strong) => CanPass(s.threads, t, to, strong)
  }

  predicate CanPass(th: seq<Thread>, t: nat, to: nat, strong: bool)
    requires t < |th|
  {
    && to < |th| && to != t && th[t].pc == Out && th[to].pc == Out
    && (if strong then th[t].strong else th[t].weak) > 0
  }

  /** The step reads or writes the control block. */
  predicate Touches(s: State, t: nat, a: Act)
    requires Enabled(s, t, a)
  {
    !(a == Step && s.threads[t].pc == DeleteObj) && !a.Pass?
  }

  function Up(d: nat): nat { (d + 1) % 256 }
  function Down(d: nat): nat { (d + 255) % 256 }

  function Put(s: State, t: nat, x: Thread): State
    requires t < |s.threads|
  {
    s.(threads := s.threads[t := x])
  }

  function Advance(s: State, t: nat): State
    requires t < |s.threads|
  {
    var x := s.threads[t];
    match x.pc
    case Out => s
    case RefDec => Put(s.(ref := s.ref - 1), t, x.(pc := if s.ref - 1 != 0 then RefLeave(false) else RefTest))
    case RefTest => Put(s, t, x.(pc := if s.weak != 0 then RefLeave(true) else RefFree))
    case RefLeave(last) => Put(s.(dcnt := Down(s.dcnt)), t, x.(pc := if last then DeleteObj else Out))
    case RefFree => Put(s.(dcnt := Down(s.dcnt), freed := s.freed || Down(s.dcnt) == 0), t, x.(pc := DeleteObj))
    case WeakDec => Put(s.(weak := s.weak - 1), t, x.(pc := if s.weak - 1 != 0 then WeakLeave else WeakTest))
    case WeakTest => Put(s, t, x.(pc := if s.ref != 0 then WeakLeave else WeakFree))
    case WeakLeave => Put(s.(dcnt := Down(s.dcnt)), t, x.(pc := Out))
    case WeakFree => Put(s.(dcnt := Down(s.dcnt), freed := s.freed || Down(s.dcnt) == 0), t, x.(pc := Out))
    case DeleteObj => Put(s.(objDeleted := s.objDeleted + 1), t, x.(pc := Out))
  }

  function Passed(th: seq<Thread>, t: nat, to: nat, strong: bool): (r: seq<Thread>)
    requires t < |th| && CanPass(th, t, to, strong)
    ensures |r| == |th|
  {
    var x, y := th[t], th[to];
    if strong then th[t := x.(strong := x.strong - 1)][to := y.(strong := y.strong + 1)]
    else th[t := x.(weak := x.weak - 1)][to := y.(weak := y.weak + 1)]
  }

  function Apply(s: State, t: nat, a: Act): State
    requires Enabled(s, t, a)
  {
    var x := s.threads[t];
    match a
    case Step => Advance(s, t)
    case DropRef => Put(s.(dcnt := Up(s.dcnt)), t, x.(pc := RefDec, strong := x.strong - 1))
    case DropWeak => Put(s.(dcnt := Up(s.dcnt)), t, x.(pc := WeakDec, weak := x.weak - 1))
    case CopyRef => Put(s.(ref := s.ref + 1), t, x.(strong := x.strong + 1))
    case CopyWeak => Put(s.(weak := s.weak + 1), t, x.(weak := x.weak + 1))
    case MakeWeak => Put(s.(weak := s.weak + 1), t, x.(weak := x.weak + 1))
    case Pass(to, strong) => s.(threads := Passed(s.threads, t, to, strong))
  }

  /**
   * What a caller must avoid: making a weak reference from a strong one while some release_weak is
   * between its decrement and its test of ref_cnt, in a thread without a strong reference of its own.
   */
  predicate Allowed(s: State, a: Act) {
    a == MakeWeak ==> forall x :: x in s.threads && x.pc == WeakTest ==> x.strong > 0
  }

  // ----- the invariant -----

  predicate Inv(s: State) {
    && s.ref == Sum(s.threads, STRONG) && s.weak == Sum(s.threads, WEAK)
    && s.dcnt == Sum(s.threads, INSIDE) % 256
    && s.objDeleted + Sum(s.threads, LAST) == (if s.ref == 0 then 1 else 0)
    && (s.freed ==> s.ref == 0 && s.weak == 0 && Sum(s.threads, INSIDE) == 0)
    && (forall t :: 0 <= t < |s.threads| ==> PcOk(s, s.threads[t]))
  }

  predicate PcOk(s: State, x: Thread) {
    match x.pc
    case RefTest => s.ref == 0
    case RefFree => s.ref == 0 && s.weak == 0
    case WeakTest => s.weak == 0 || x.strong > 0
    case WeakFree => s.ref == 0 && s.weak == 0
    case _ => true
  }

  lemma Sums(s: State, s': State, t: nat)
    requires t < |s.threads| == |s'.threads| && s'.threads == s.threads[t := s'.threads[t]]
    ensures Sum(s'.threads, STRONG) + STRONG(s.threads[t]) == Sum(s.threads, STRONG) + STRONG(s'.threads[t])
    ensures Sum(s'.threads, WEAK) + WEAK(s.threads[t]) == Sum(s.threads, WEAK) + WEAK(s'.threads[t])
    ensures Sum(s'.threads, INSIDE) + INSIDE(s.threads[t]) == Sum(s.threads, INSIDE) + INSIDE(s'.threads[t])
    ensures Sum(s'.threads, LAST) + LAST(s.threads[t]) == Sum(s.threads, LAST) + LAST(s'.threads[t])
    ensures Sum(s.threads, STRONG) >= STRONG(s.threads[t]) && Sum(s.threads, WEAK) >= WEAK(s.threads[t])
    ensures Sum(s.threads, INSIDE) >= INSIDE(s.threads[t]) && Sum(s.threads, LAST) >= LAST(s.threads[t])
  {
    SumUpdate(s.threads, t, s'.threads[t], STRONG);
    SumUpdate(s.threads, t, s'.threads[t], WEAK);
    SumUpdate(s.threads, t, s'.threads[t], INSIDE);
    SumUpdate(s.threads, t, s'.threads[t], LAST);
  }

  lemma SumMove(th: seq<Thread>, t: nat, to: nat, x: Thread, y: Thread, f: Thread -> nat)
    requires t < |th| && to < |th| && t != to && f(x) + f(y) == f(th[t]) + f(th[to])
    ensures Sum(th[t := x][to := y], f) == Sum(th, f)
  {
    SumUpdate(th, t, x, f);
    SumUpdate(th[t := x], to, y, f);
  }

  lemma Moves(th: seq<Thread>, t: nat, to: nat, x: Thread, y: Thread)
    requires t < |th| && to < |th| && t != to && th[t].pc == th[to].pc == x.pc == y.pc == Out
    requires x.strong + y.strong == th[t].strong + th[to].strong && x.weak + y.weak == th[t].weak + th[to].weak
    ensures var th' := th[t := x][to := y];
      && Sum(th', STRONG) == Sum(th, STRONG) && Sum(th', WEAK) == Sum(th, WEAK)
      && Sum(th', INSIDE) == Sum(th, INSIDE) && Sum(th', LAST) == Sum(th, LAST)
  {
    SumMove(th, t, to, x, y, STRONG);
    SumMove(th, t, to, x, y, WEAK);
    SumMove(th, t, to, x, y, INSIDE);
    SumMove(th, t, to, x, y, LAST);
  }

  /** Moving a reference changes no sum, and no thread that is inside. */
  lemma PassedSums(th: seq<Thread>, t: nat, to: nat, strong: bool)
    requires t < |th| && CanPass(th, t, to, strong)
    ensures var th' := Passed(th, t, to, strong);
      && Sum(th', STRONG) == Sum(th, STRONG) && Sum(th', WEAK) == Sum(th, WEAK)
      && Sum(th', INSIDE) == Sum(th, INSIDE) && Sum(th', LAST) == Sum(th, LAST)
  {
    var th' := Passed(th, t, to, strong);
    Moves(th, t, to, th'[t], th'[to]);
    assert th' == th[t := th'[t]][to := th'[to]];
  }

  lemma PassKeeps(s: State, t: nat, a: Act)
    requires Enabled(s, t, a) && a.Pass?
    ensures var s' := Apply(s, t, a);
      && s' == s.(threads := s'.threads) && |s'.threads| == |s.threads|
      && Sum(s'.threads, STRONG) == Sum(s.threads, STRONG) && Sum(s'.threads, WEAK) == Sum(s.threads, WEAK)
      && Sum(s'.threads, INSIDE) == Sum(s.threads, INSIDE) && Sum(s'.threads, LAST) == Sum(s.threads, LAST)
    ensures forall u :: 0 <= u < |s.threads| ==>
      var x, y := s.threads[u], Apply(s, t, a).threads[u]; x.pc == y.pc && (x.pc != Out ==> x == y)
  {
    PassedSums(s.threads, t, a.to, a.strong);
  }

  /** Once freed, no enabled step touches the control block. */
  lemma NoTouchAfterFree(s: State, t: nat, a: Act)
    requires Inv(s) && Enabled(s, t, a) && s.freed
    ensures !Touches(s, t, a)
  {
    Sums(s, s, t);
  }

  lemma Wraps(n: nat)
    ensures Up(n % 256) == (n + 1) % 256
    ensures n > 0 ==> Down(n % 256) == (n - 1) % 256
    ensures 0 < n <= 256 ==> (Down(n % 256) == 0 <==> n == 1)
  {
  }

  /** dcnt moves with the number of threads inside. */
  lemma StepMovesGuard(s: State, t: nat, a: Act)
    requires Enabled(s, t, a)
    ensures var s' := Apply(s, t, a);
      var n, n' := Sum(s.threads, INSIDE), Sum(s'.threads, INSIDE);
      || (n' == n + 1 && s'.dcnt == Up(s.dcnt) && s'.freed == s.freed)
      || (n' == n && s'.dcnt == s.dcnt && s'.freed == s.freed)
      || (n' == n - 1 && s'.dcnt == Down(s.dcnt)
          && s'.freed == (s.freed || (s.threads[t].pc in {RefFree, WeakFree} && Down(s.dcnt) == 0)))
  {
    if a.Pass? { PassKeeps(s, t, a); } else { Sums(s, Apply(s, t, a), t); }
  }

  lemma StepKeepsFreed(s: State, t: nat, a: Act)
    requires Inv(s) && Enabled(s, t, a) && s.freed
    ensures var s' := Apply(s, t, a); s'.ref == 0 && s'.weak == 0 && Sum(s'.threads, INSIDE) == 0
  {
    NoTouchAfterFree(s, t, a);
    if a.Pass? { PassKeeps(s, t, a); } else { Sums(s, Apply(s, t, a), t); }
  }

  lemma StepKeepsGuard(s: State, t: nat, a: Act)
    requires Inv(s) && Enabled(s, t, a) && |s.threads| <= 256
    ensures var s' := Apply(s, t, a);
      && s'.dcnt == Sum(s'.threads, INSIDE) % 256
      && (s'.freed ==> s'.ref == 0 && s'.weak == 0 && Sum(s'.threads, INSIDE) == 0)
  {
    StepMovesGuard(s, t, a);
    SumBound(s.threads, INSIDE);
    Wraps(Sum(s.threads, INSIDE));
    assert PcOk(s, s.threads[t]);
    if s.freed { StepKeepsFreed(s, t, a); }
  }

  lemma StepKeepsCounts(s: State, t: nat, a: Act)
    requires Inv(s) && Enabled(s, t, a)
    ensures var s' := Apply(s, t, a);
      && s'.ref == Sum(s'.threads, STRONG) && s'.weak == Sum(s'.threads, WEAK)
      && s'.objDeleted + Sum(s'.threads, LAST) == (if s'.ref == 0 then 1 else 0)
  {
    if a.Pass? { PassKeeps(s, t, a); } else { Sums(s, Apply(s, t, a), t); }
    assert PcOk(s, s.threads[t]);
  }

  lemma StepKeepsPcs(s: State, t: nat, a: Act, u: nat)
    requires Inv(s) && Enabled(s, t, a) && Allowed(s, a) && u < |s.threads|
    ensures PcOk(Apply(s, t, a), Apply(s, t, a).threads[u])
  {
    var s' := Apply(s, t, a);
    if a.Pass? { PassKeeps(s, t, a); } else { Sums(s, s', t); }
    assert PcOk(s, s.threads[u]) && PcOk(s, s.threads[t]) && s.threads[u] in s.threads;
  }

  /** Every allowed step keeps the invariant when at most 256 threads exist. */
  lemma StepKeepsInv(s: State, t: nat, a: Act)
    requires Inv(s) && Enabled(s, t, a) && Allowed(s, a) && |s.threads| <= 256
    ensures Inv(Apply(s, t, a))
  {
    StepKeepsGuard(s, t, a);
    StepKeepsCounts(s, t, a);
    forall u | 0 <= u < |s.threads| ensures PcOk(Apply(s, t, a), Apply(s, t, a).threads[u]) {
      StepKeepsPcs(s, t, a, u);
    }
  }

  // ----- runs -----

  datatype Label = Label(t: nat, a: Act)

  /** A control block whose strong and weak references are held by threads outside it. */
  predicate Init(s: State) {
    && s.ref == Sum(s.threads, STRONG) > 0 && s.weak == Sum(s.threads, WEAK)
    && s.dcnt == 0 && !s.freed && s.objDeleted == 0
    && (forall t :: 0 <= t < |s.threads| ==> s.threads[t].pc == Out)
  }

  predicate Next(s: State, l: Label, s': State) { Enabled(s, l.t, l.a) && s' == Apply(s, l.t, l.a) }

  /** A run; in a careful one, callers avoid the window of release_weak. */
  predicate IsRun(states: seq<State>, labels: seq<Label>, careful: bool) {
    && |states| == |labels| + 1
    && Init(states[0])
    && (forall i :: 0 <= i < |labels| ==> Next(states[i], labels[i], states[i + 1]))
    && (careful ==> forall i :: 0 <= i < |labels| ==> Allowed(states[i], labels[i].a))
  }

  ghost predicate Reaches(s: State, careful: bool) {
    exists states, labels :: IsRun(states, labels, careful) && states[|labels|] == s
  }

  /** No enabled step reads or writes a deleted control block, or deletes it again. */
  ghost predicate Safe(s: State) {
    s.freed ==> forall t: nat, a :: Enabled(s, t, a) ==> !Touches(s, t, a)
  }

  lemma {:induction false} SumZero(th: seq<Thread>, f: Thread -> nat)
    requires forall x :: x in th ==> f(x) == 0
    ensures Sum(th, f) == 0
  {
    if th != [] {
      assert th[|th| - 1] in th;
      SumZero(th[..|th| - 1], f);
    }
  }

  lemma InitInv(s: State)
    requires Init(s)
    ensures Inv(s)
  {
    SumZero(s.threads, INSIDE);
    SumZero(s.threads, LAST);
  }

  lemma {:induction false} RunSize(states: seq<State>, labels: seq<Label>, careful: bool, i: nat)
    requires IsRun(states, labels, careful) && i < |states|
    ensures |states[i].threads| == |states[0].threads|
  {
    if i > 0 {
      RunSize(states, labels, careful, i - 1);
    }
  }

  lemma NextInv(s: State, l: Label, s': State)
    requires Inv(s) && Next(s, l, s') && Allowed(s, l.a) && |s.threads| <= 256
    ensures Inv(s')
  {
    StepKeepsInv(s, l.t, l.a);
  }

  lemma {:induction false} RunInv(states: seq<State>, labels: seq<Label>, i: nat)
    requires IsRun(states, labels, true) && i < |states| && |states[|labels|].threads| <= 256
    ensures Inv(states[i])
  {
    if i == 0 {
      InitInv(states[0]);
    } else {
      RunInv(states, labels, i - 1);
      RunSize(states, labels, true, |labels|);
      RunSize(states, labels, true, i - 1);
      NextInv(states[i - 1], labels[i - 1], states[i]);
    }
  }

  lemma ReachableInv(s: State)
    requires Reaches(s, true) && |s.threads| <= 256
    ensures Inv(s)
  {
    var states, labels :| IsRun(states, labels, true) && states[|labels|] == s;
    RunInv(states, labels, |labels|);
  }

  /** With at most 256 threads, every state reached with care is safe. */
  lemma CarefulIsSafe(s: State)
    requires Reaches(s, true) && |s.threads| <= 256
    ensures Safe(s)
  {
    ReachableInv(s);
    if s.freed {
      forall t: nat, a | Enabled(s, t, a) ensures !Touches(s, t, a) { NoTouchAfterFree(s, t, a); }
    }
  }

  /** The object is never deleted while a strong reference exists, and exactly once when all are gone. */
  lemma ObjectDeletedOnce(s: State)
    requires Reaches(s, true) && |s.threads| <= 256
    ensures s.objDeleted <= 1
    ensures s.ref > 0 ==> s.objDeleted == 0
    ensures s.ref == 0 && (forall x :: x in s.threads ==> x.pc == Out) ==> s.objDeleted == 1
  {
    ReachableInv(s);
    if forall x :: x in s.threads ==> x.pc == Out { SumZero(s.threads, LAST); }
  }

  // ----- what the code does not promise -----

  /** Extend a run by one step. */
  lemma Go(s: State, careful: bool, t: nat, a: Act, s': State)
    requires Reaches(s, careful) && Enabled(s, t, a) && Apply(s, t, a) == s' && (careful ==> Allowed(s, a))
    ensures Reaches(s', careful)
  {
    var states, labels :| IsRun(states, labels, careful) && states[|labels|] == s;
    var states', labels' := states + [s'], labels + [Label(t, a)];
    forall i | 0 <= i < |labels'| ensures Next(states'[i], labels'[i], states'[i + 1]) {
      if i < |labels| { assert Next(states[i], labels[i], states[i + 1]); }
    }
    assert IsRun(states', labels', careful) && states'[|labels'|] == s';
  }

  lemma Start(s: State, careful: bool)
    requires Init(s)
    ensures Reaches(s, careful)
  {
    var states, labels: seq<Label> := [s], [];
    assert IsRun(states, labels, careful) && states[|labels|] == s;
  }

  lemma Sum2(a: Thread, b: Thread, f: Thread -> nat)
    ensures Sum([a, b], f) == f(a) + f(b)
  {
    assert [a, b][..1] == [a] && [a][..0] == [];
    assert Sum([a], f) == Sum([a][..0], f) + f(a);
  }

  /** The same for two threads, of which t moves to x. */
  lemma Go2(a: Thread, b: Thread, s: State, careful: bool, t: nat, act: Act, x: Thread, s': State)
    requires s.threads == [a, b] && t < 2 && Reaches(s, careful) && Enabled(s, t, act)
    requires Apply(s, t, act) == s'.(threads := Apply(s, t, act).threads) && Apply(s, t, act).threads[t] == x
    requires s'.threads == (if t == 0 then [x, b] else [a, x]) && !act.Pass?
    requires careful ==> act != MakeWeak
    ensures Reaches(s', careful)
  {
    assert Apply(s, t, act).threads == s'.threads;
    Go(s, careful, t, act, s');
  }

  /** A strong and a weak holder: making a weak reference inside the window frees the block under it. */
  lemma CarelessWeakIsUnsafe() returns (s: State)
    ensures Reaches(s, false) && |s.threads| == 2 && !Safe(s)
  {
    var b, z, f := Thread(Out, 0, 1), Thread(WeakTest, 0, 0), Thread(WeakFree, 0, 0);
    CarelessDrop();
    var s8 := State(0, 1, 1, false, 1, [b, z]);
    var s9 := State(0, 1, 1, false, 1, [b, f]);
    Go2(b, z, s8, false, 1, Step, f, s9);
    s := State(0, 1, 0, true, 1, [b, Thread(Out, 0, 0)]);
    Go2(b, f, s9, false, 1, Step, Thread(Out, 0, 0), s);
    assert Enabled(s, 0, DropWeak) && Touches(s, 0, DropWeak);
  }

  /** The dropped strong reference was the last: the object is deleted, the weak reference remains. */
  lemma CarelessDrop()
    ensures Reaches(State(0, 1, 1, false, 1, [Thread(Out, 0, 1), Thread(WeakTest, 0, 0)]), false)
  {
    var z, x6, x7 := Thread(WeakTest, 0, 0), Thread(RefLeave(true), 0, 1), Thread(DeleteObj, 0, 1);
    CarelessLast();
    var s7 := State(0, 1, 1, false, 0, [x7, z]);
    Go2(x6, z, State(0, 1, 2, false, 0, [x6, z]), false, 0, Step, x7, s7);
    Go2(x7, z, s7, false, 0, Step, Thread(Out, 0, 1), State(0, 1, 1, false, 1, [Thread(Out, 0, 1), z]));
  }

  lemma CarelessLast()
    ensures Reaches(State(0, 1, 2, false, 0, [Thread(RefLeave(true), 0, 1), Thread(WeakTest, 0, 0)]), false)
  {
    var z, x4, x5, x6 := Thread(WeakTest, 0, 0), Thread(RefDec, 0, 1), Thread(RefTest, 0, 1),
        Thread(RefLeave(true), 0, 1);
    CarelessWindow();
    var s5 := State(0, 1, 2, false, 0, [x5, z]);
    Go2(x4, z, State(1, 1, 2, false, 0, [x4, z]), false, 0, Step, x5, s5);
    Go2(x5, z, s5, false, 0, Step, x6, State(0, 1, 2, false, 0, [x6, z]));
  }

  /**
   * One thread's release_weak has brought weak_cnt to 0; before its test the other makes a weak reference and
   * drops its strong one.
   */
  lemma CarelessWindow()
    ensures Reaches(State(1, 1, 2, false, 0, [Thread(RefDec, 0, 1), Thread(WeakTest, 0, 0)]), false)
  {
    var a, z := Thread(Out, 1, 0), Thread(WeakTest, 0, 0);
    WindowOpens();
    var s2 := State(1, 0, 1, false, 0, [a, z]);
    var s3 := State(1, 1, 1, false, 0, [Thread(Out, 1, 1), z]);
    Go2(a, z, s2, false, 0, MakeWeak, Thread(Out, 1, 1), s3);
    Go2(Thread(Out, 1, 1), z, s3, false, 0, DropRef, Thread(RefDec, 0, 1),
        State(1, 1, 2, false, 0, [Thread(RefDec, 0, 1), z]));
  }

  lemma WindowOpens()
    ensures Reaches(State(1, 0, 1, false, 0, [Thread(Out, 1, 0), Thread(WeakTest, 0, 0)]), false)
  {
    var a, b, d, z := Thread(Out, 1, 0), Thread(Out, 0, 1), Thread(WeakDec, 0, 0), Thread(WeakTest, 0, 0);
    Sum2(a, b, STRONG);
    Sum2(a, b, WEAK);
    var s0, s1 := State(1, 1, 0, false, 0, [a, b]), State(1, 1, 1, false, 0, [a, d]);
    Start(s0, false);
    Go2(a, b, s0, false, 1, DropWeak, d, s1);
    Go2(a, d, s1, false, 1, Step, z, State(1, 0, 1, false, 0, [a, z]));
  }

  /** Two strong holders: the control block can outlive all its references. */
  lemma ControlBlockCanLeak()
    ensures Reaches(State(0, 0, 0, false, 1, [Thread(Out, 0, 0), Thread(Out, 0, 0)]), true)
  {
    var z, d, o := Thread(RefLeave(false), 0, 0), Thread(Out, 0, 0), Thread(DeleteObj, 0, 0);
    NotFreed();
    var s7 := State(0, 0, 1, false, 1, [z, d]);
    Go2(z, o, State(0, 0, 1, false, 0, [z, o]), true, 1, Step, d, s7);
    Go2(z, d, s7, true, 0, Step, d, State(0, 0, 0, false, 1, [d, d]));
  }

  /** The second finds dcnt still raised by the first and does not delete. */
  lemma NotFreed()
    ensures Reaches(State(0, 0, 1, false, 0, [Thread(RefLeave(false), 0, 0), Thread(DeleteObj, 0, 0)]), true)
  {
    var z, x, d := Thread(RefLeave(false), 0, 0), Thread(RefFree, 0, 0), Thread(DeleteObj, 0, 0);
    ChoosesToFree();
    Go2(z, x, State(0, 0, 2, false, 0, [z, x]), true, 1, Step, d, State(0, 0, 1, false, 0, [z, d]));
  }

  lemma ChoosesToFree()
    ensures Reaches(State(0, 0, 2, false, 0, [Thread(RefLeave(false), 0, 0), Thread(RefFree, 0, 0)]), true)
  {
    var z, x, y := Thread(RefLeave(false), 0, 0), Thread(RefTest, 0, 0), Thread(RefFree, 0, 0);
    BothInside();
    Go2(z, x, State(0, 0, 2, false, 0, [z, x]), true, 1, Step, y, State(0, 0, 2, false, 0, [z, y]));
  }

  /** The first of two holders has decremented ref_cnt and has yet to leave. */
  lemma OneInside()
    ensures Reaches(State(1, 0, 1, false, 0, [Thread(RefLeave(false), 0, 0), Thread(Out, 1, 0)]), true)
  {
    var a, z, w := Thread(Out, 1, 0), Thread(RefLeave(false), 0, 0), Thread(RefDec, 0, 0);
    Sum2(a, a, STRONG);
    Sum2(a, a, WEAK);
    var s0 := State(2, 0, 0, false, 0, [a, a]);
    Start(s0, true);
    var s1 := State(2, 0, 1, false, 0, [w, a]);
    Go2(a, a, s0, true, 0, DropRef, w, s1);
    Go2(w, a, s1, true, 0, Step, z, State(1, 0, 1, false, 0, [z, a]));
  }

  /** Both releases have decremented ref_cnt, the first has yet to leave. */
  lemma BothInside()
    ensures Reaches(State(0, 0, 2, false, 0, [Thread(RefLeave(false), 0, 0), Thread(RefTest, 0, 0)]), true)
  {
    var a, z, w := Thread(Out, 1, 0), Thread(RefLeave(false), 0, 0), Thread(RefDec, 0, 0);
    OneInside();
    var s2 := State(1, 0, 1, false, 0, [z, a]);
    var s3 := State(1, 0, 2, false, 0, [z, w]);
    Go2(z, a, s2, true, 1, DropRef, w, s3);
    Go2(z, w, s3, true, 1, Step, Thread(RefTest, 0, 0), State(0, 0, 2, false, 0, [z, Thread(RefTest, 0, 0)]));
  }

  // 257 strong holders, each inside its release, wrap dcnt around to one.

  /** The first i of 257 holders have entered; further threads hold nothing. */
  function Entered(n: nat, i: nat): State
    requires i <= 257 <= n
  {
    State(257, 0, i % 256, false, 0,
          seq(n, j requires 0 <= j < n =>
                if j < i then Thread(RefDec, 0, 0) else if j < 257 then Thread(Out, 1, 0) else Thread(Out, 0, 0)))
  }

  /** All have entered and the first i have decremented ref_cnt. */
  function Decremented(n: nat, i: nat): State
    requires i <= 256 && 257 <= n
  {
    State(257 - i, 0, 1, false, 0,
          seq(n, j requires 0 <= j < n =>
                if j < i then Thread(RefLeave(false), 0, 0) else if j < 257 then Thread(RefDec, 0, 0)
                    else Thread(Out, 0, 0)))
  }

  lemma {:induction false} SumRange(th: seq<Thread>, f: Thread -> nat, k: nat)
    requires forall j :: 0 <= j < |th| ==> f(th[j]) == if j < k then 1 else 0
    ensures Sum(th, f) == if k < |th| then k else |th|
  {
    if th != [] { SumRange(th[..|th| - 1], f, k); }
  }

  lemma {:induction false} ReachEntered(n: nat, i: nat)
    requires i <= 257 <= n
    ensures Reaches(Entered(n, i), true)
  {
    if i == 0 {
      SumRange(Entered(n, 0).threads, STRONG, 257);
      SumRange(Entered(n, 0).threads, WEAK, 0);
      Start(Entered(n, 0), true);
    } else {
      ReachEntered(n, i - 1);
      assert Apply(Entered(n, i - 1), i - 1, DropRef).threads == Entered(n, i).threads;
      Wraps(i - 1);
      Go(Entered(n, i - 1), true, i - 1, DropRef, Entered(n, i));
    }
  }

  lemma {:induction false} ReachDecremented(n: nat, i: nat)
    requires i <= 256 && 257 <= n
    ensures Reaches(Decremented(n, i), true)
  {
    if i == 0 {
      ReachEntered(n, 257);
      assert Entered(n, 257).threads == Decremented(n, 0).threads;
    } else {
      ReachDecremented(n, i - 1);
      assert Apply(Decremented(n, i - 1), i - 1, Step).threads == Decremented(n, i).threads;
      Go(Decremented(n, i - 1), true, i - 1, Step, Decremented(n, i));
    }
  }

  /** With 257 threads or more, some state reached with care touches the control block after deleting it. */
  lemma TooManyThreadsAreUnsafe(n: nat) returns (s: State)
    requires n >= 257
    ensures Reaches(s, true) && |s.threads| == n && !Safe(s)
  {
    ReachDecremented(n, 256);
    var s0 := Decremented(n, 256);
    var s1 := Apply(s0, 256, Step);
    Go(s0, true, 256, Step, s1);
    var s2 := Apply(s1, 256, Step);
    Go(s1, true, 256, Step, s2);
    s := Apply(s2, 256, Step);
    Go(s2, true, 256, Step, s);
    assert s.freed && Enabled(s, 0, Step) && Touches(s, 0, Step);
  }

  /** The bound is exact: everything n threads reach with care is safe if and only if n is at most 256. */
  lemma SafeIffAtMost256(n: nat)
    ensures n <= 256 <==> forall s: State :: Reaches(s, true) && |s.threads| == n ==> Safe(s)
  {
    if n <= 256 {
      forall s: State | Reaches(s, true) && |s.threads| == n ensures Safe(s) { CarefulIsSafe(s); }
    } else {
      var s := TooManyThreadsAreUnsafe(n);
    }
  }
}
