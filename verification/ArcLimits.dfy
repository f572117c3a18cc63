/** When the control block is deleted, and why no weaker care than Allowed keeps it safe. */
module ArcLimits {
  import opened ArcCount

  // ----- deletion -----

  /** The step ends a release's stay in the control block. */
  predicate Leaves(s: State, l: Label) {
    && Enabled(s, l.t, l.a) && l.a == Step
    && var pc := s.threads[l.t].pc; pc.RefLeave? || pc.RefFree? || pc.WeakLeave? || pc.WeakFree?
  }

  /** It went out by the branch that deletes if nobody else is inside. */
  predicate ByFree(s: State, l: Label)
    requires Leaves(s, l)
  {
    s.threads[l.t].pc.RefFree? || s.threads[l.t].pc.WeakFree?
  }

  /** The last departure among the first i steps, or -1. */
  function LastLeave(states: seq<State>, labels: seq<Label>, i: nat): int
    requires |states| == |labels| + 1 && i <= |labels|
  {
    if i == 0 then -1
    else if Leaves(states[i - 1], labels[i - 1]) then i - 1
    else LastLeave(states, labels, i - 1)
  }

  predicate AtRest(s: State) { forall x :: x in s.threads ==> x.pc == Out }

  /** Only departures lower the number of threads inside, and only they delete. */
  lemma StayingKeepsFreed(s: State, l: Label)
    requires Enabled(s, l.t, l.a) && !Leaves(s, l)
    ensures var s' := Apply(s, l.t, l.a); Sum(s'.threads, INSIDE) >= Sum(s.threads, INSIDE) && s'.freed == s.freed
  {
    if l.a.Pass? { PassKeeps(s, l.t, l.a); } else { Sums(s, Apply(s, l.t, l.a), l.t); }
  }

  lemma {:induction false} SinceLastLeave(states: seq<State>, labels: seq<Label>, i: nat)
    requires IsRun(states, labels, true) && i <= |labels|
    ensures var j := LastLeave(states, labels, i);
      && -1 <= j < i && (j >= 0 ==> Leaves(states[j], labels[j]))
      && Sum(states[i].threads, INSIDE) >= Sum(states[j + 1].threads, INSIDE) && states[i].freed == states[j + 1].freed
  {
    if i > 0 && !Leaves(states[i - 1], labels[i - 1]) {
      SinceLastLeave(states, labels, i - 1);
      assert Next(states[i - 1], labels[i - 1], states[i]);
      StayingKeepsFreed(states[i - 1], labels[i - 1]);
    }
  }

  /** A departure that leaves nobody inside deletes the control block exactly if it is by the deleting branch. */
  lemma LastOut(s: State, l: Label)
    requires Inv(s) && Leaves(s, l) && Sum(Apply(s, l.t, l.a).threads, INSIDE) == 0
    ensures Apply(s, l.t, l.a).freed <==> ByFree(s, l)
  {
    Sums(s, Apply(s, l.t, l.a), l.t);
  }

  /**
   * In every careful run of at most 256 threads: at rest, the control block has been deleted if and only if some
   * release has ended and the last one to end went out by the deleting branch.
   */
  lemma DeletedExactly(states: seq<State>, labels: seq<Label>, i: nat)
    requires IsRun(states, labels, true) && |states[|labels|].threads| <= 256 && i <= |labels| && AtRest(states[i])
    ensures var j := LastLeave(states, labels, i);
      -1 <= j < i && (states[i].freed <==> j >= 0 && Leaves(states[j], labels[j]) && ByFree(states[j], labels[j]))
  {
    SinceLastLeave(states, labels, i);
    SumZero(states[i].threads, INSIDE);
    var j := LastLeave(states, labels, i);
    if j >= 0 {
      RunInv(states, labels, j);
      assert Next(states[j], labels[j], states[j + 1]);
      LastOut(states[j], labels[j]);
    }
  }

  /** At most one thread is inside the control block. */
  predicate Alone(s: State) { Sum(s.threads, INSIDE) <= 1 }

  /** What a thread alone inside knows of the counters it saw. */
  predicate SawMore(s: State, pc: Pc) {
    match pc
    case RefLeave(last) => if last then s.weak > 0 else s.ref > 0
    case WeakLeave => s.ref > 0 || s.weak > 0
    case _ => true
  }

  predicate AloneInv(s: State) {
    && (forall t :: 0 <= t < |s.threads| ==> SawMore(s, s.threads[t].pc))
    && (s.ref == 0 && s.weak == 0 && Sum(s.threads, INSIDE) == 0 ==> s.freed)
  }

  lemma AloneStep(s: State, l: Label)
    requires Inv(s) && Alone(s) && AloneInv(s) && Enabled(s, l.t, l.a)
    requires Inv(Apply(s, l.t, l.a)) && Alone(Apply(s, l.t, l.a))
    ensures AloneInv(Apply(s, l.t, l.a))
  {
    var s' := Apply(s, l.t, l.a);
    if l.a.Pass? { PassKeeps(s, l.t, l.a); } else { Sums(s, s', l.t); }
    assert SawMore(s, s.threads[l.t].pc);
    forall u | 0 <= u < |s'.threads| ensures SawMore(s', s'.threads[u].pc) { AloneSaw(s, l, u); }
  }

  lemma AloneSaw(s: State, l: Label, u: nat)
    requires Inv(s) && Alone(s) && Enabled(s, l.t, l.a) && u < |s.threads| && SawMore(s, s.threads[u].pc)
    ensures SawMore(Apply(s, l.t, l.a), Apply(s, l.t, l.a).threads[u].pc)
  {
    if l.a.Pass? {
      PassKeeps(s, l.t, l.a);
    } else if u == l.t {
      Sums(s, Apply(s, l.t, l.a), l.t);
    } else {
      SawStays(s, l, u);
    }
  }

  /** While one thread is inside, the others lower no counter. */
  lemma SawStays(s: State, l: Label, u: nat)
    requires Alone(s) && Enabled(s, l.t, l.a) && !l.a.Pass?
    requires u < |s.threads| && u != l.t && SawMore(s, s.threads[u].pc)
    ensures SawMore(Apply(s, l.t, l.a), s.threads[u].pc)
  {
    var t := l.t;
    if u < t { SumPair(s.threads, u, t, INSIDE); } else { SumPair(s.threads, t, u, INSIDE); }
  }

  lemma {:induction false} AloneRunInv(states: seq<State>, labels: seq<Label>, i: nat)
    requires IsRun(states, labels, true) && |states[|labels|].threads| <= 256 && i <= |labels|
    requires forall k :: 0 <= k < |states| ==> Alone(states[k])
    ensures AloneInv(states[i])
  {
    if i > 0 {
      AloneRunInv(states, labels, i - 1);
      RunInv(states, labels, i - 1);
      RunInv(states, labels, i);
      assert Next(states[i - 1], labels[i - 1], states[i]);
      AloneStep(states[i - 1], labels[i - 1]);
    }
  }

  /** Releases that never overlap delete the control block exactly when the last reference is gone. */
  lemma NoOverlapDeletes(states: seq<State>, labels: seq<Label>, i: nat)
    requires IsRun(states, labels, true) && |states[|labels|].threads| <= 256 && i <= |labels|
    requires forall k :: 0 <= k < |states| ==> Alone(states[k])
    requires AtRest(states[i])
    ensures states[i].freed <==> states[i].ref == 0 && states[i].weak == 0
  {
    AloneRunInv(states, labels, i);
    RunInv(states, labels, i);
    SumZero(states[i].threads, INSIDE);
  }

  // ----- Allowed is the weakest care -----

  /** Steps taken with care lead from s to u. */
  ghost predicate Leads(s: State, u: State) {
    exists labels: seq<Label> :: Follows(s, labels, u)
  }

  predicate Follows(s: State, labels: seq<Label>, u: State)
    decreases |labels|
  {
    if labels == [] then s == u
    else
      var l := labels[0];
      Enabled(s, l.t, l.a) && Allowed(s, l.a) && Follows(Apply(s, l.t, l.a), labels[1..], u)
  }

  lemma LeadsStep(s: State, t: nat, a: Act, u: State)
    requires Enabled(s, t, a) && Allowed(s, a) && Leads(Apply(s, t, a), u)
    ensures Leads(s, u)
  {
    var labels :| Follows(Apply(s, t, a), labels, u);
    assert ([Label(t, a)] + labels)[1..] == labels;
    assert Follows(s, [Label(t, a)] + labels, u);
  }

  lemma {:induction false} CarefulStays(s: State, labels: seq<Label>, u: State)
    requires Reaches(s, true) && Follows(s, labels, u)
    ensures Reaches(u, true) && |u.threads| == |s.threads|
    decreases |labels|
  {
    if labels != [] {
      var l := labels[0];
      Go(s, true, l.t, l.a, Apply(s, l.t, l.a));
      CarefulStays(Apply(s, l.t, l.a), labels[1..], u);
    }
  }

  /** Steps left until a thread that only releases is out with no strong reference. */
  const LEFT := (x: Thread) => 5 * x.strong + match x.pc
                                              case Out => 0
                                              case RefDec => 4
                                              case RefTest => 3
                                              case RefLeave(_) => 2
                                              case RefFree => 2
                                              case WeakDec => 3
                                              case WeakTest => 2
                                              case WeakLeave => 1
                                              case WeakFree => 1
                                              case DeleteObj => 1

  /**
   * Thread w is in the window, holding no strong reference; thread t keeps a weak one.  Another thread is in the
   * window only while t is out with a strong reference.
   */
  predicate Doomed(s: State, w: nat, t: nat) {
    && w < |s.threads| && t < |s.threads| && w != t && |s.threads| <= 256 && !s.freed
    && s.ref == Sum(s.threads, STRONG) && s.weak == Sum(s.threads, WEAK) && s.dcnt == Sum(s.threads, INSIDE) % 256
    && s.threads[w].pc == WeakTest && s.threads[w].strong == 0
    && s.threads[t].weak > 0
    && (forall u :: 0 <= u < |s.threads| ==> CanWait(s, w, t, u))
  }

  predicate CanWait(s: State, w: nat, t: nat, u: nat)
    requires t < |s.threads| && u < |s.threads|
  {
    match s.threads[u].pc
    case RefFree => false
    case WeakFree => false
    case WeakTest => u == w || (s.threads[t].pc == Out && s.threads[t].strong > 0)
    case _ => true
  }

  /** The counters are large enough for a thread other than w to leave without deleting. */
  lemma DoomedCounters(s: State, w: nat, t: nat, u: nat)
    requires Doomed(s, w, t) && u < |s.threads| && u != w
    ensures s.weak > 0 && (s.threads[u].pc.WeakDec? ==> s.weak > 1)
    ensures s.threads[t].pc == Out && s.threads[t].strong > 0 ==> s.ref > 0 && (s.threads[u].pc.RefDec? ==> s.ref > 1)
  {
    Sums(s, s, t);
    Sums(s, s, u);
    if u < t {
      SumPair(s.threads, u, t, WEAK);
      SumPair(s.threads, u, t, STRONG);
    } else if t < u {
      SumPair(s.threads, t, u, WEAK);
      SumPair(s.threads, t, u, STRONG);
    }
  }

  /** A release in progress, other than w's, moves on without deleting and without a new thread in the window. */
  predicate Moved(s: State, s': State, u: nat) {
    && u < |s.threads| == |s'.threads| && s'.threads == s.threads[u := s'.threads[u]] && !s'.freed
    && s'.threads[u].strong <= s.threads[u].strong && s'.threads[u].weak == s.threads[u].weak
    && !s'.threads[u].pc.RefFree? && !s'.threads[u].pc.WeakFree? && !s'.threads[u].pc.WeakTest?
    && LEFT(s'.threads[u]) < LEFT(s.threads[u])
  }

  /** The counters count. */
  predicate Counts(s: State) {
    s.ref == Sum(s.threads, STRONG) && s.weak == Sum(s.threads, WEAK) && s.dcnt == Sum(s.threads, INSIDE) % 256
  }

  lemma CountsStay(s: State, t: nat, a: Act)
    requires Counts(s) && Enabled(s, t, a)
    ensures Counts(Apply(s, t, a))
  {
    CountersStay(s, t, a);
    StepMovesGuard(s, t, a);
    Wraps(Sum(s.threads, INSIDE));
  }

  lemma CountersStay(s: State, t: nat, a: Act)
    requires s.ref == Sum(s.threads, STRONG) && s.weak == Sum(s.threads, WEAK) && Enabled(s, t, a)
    ensures var s' := Apply(s, t, a); s'.ref == Sum(s'.threads, STRONG) && s'.weak == Sum(s'.threads, WEAK)
  {
    if a.Pass? {
      PassKeeps(s, t, a);
    } else {
      var x := Apply(s, t, a).threads[t];
      SumUpdate(s.threads, t, x, STRONG);
      SumUpdate(s.threads, t, x, WEAK);
      CountersOfOne(s, t, a, x);
    }
  }

  /** The counters move as the thread's own shares do. */
  lemma CountersOfOne(s: State, t: nat, a: Act, x: Thread)
    requires Enabled(s, t, a) && !a.Pass? && x == Apply(s, t, a).threads[t]
    ensures var s' := Apply(s, t, a);
      && s'.threads == s.threads[t := x] && s'.ref - s.ref == STRONG(x) - STRONG(s.threads[t])
      && s'.weak - s.weak == WEAK(x) - WEAK(s.threads[t])
  {
  }

  lemma DoomedMoves(s: State, w: nat, t: nat, u: nat)
    requires Doomed(s, w, t) && u < |s.threads| && u != w && s.threads[u].pc != Out
    ensures Moved(s, Advance(s, u), u)
  {
    DoomedCounters(s, w, t, u);
    assert CanWait(s, w, t, u);
  }

  lemma MovedIsDoomed(s: State, s': State, w: nat, t: nat, u: nat)
    requires Doomed(s, w, t) && u != w && Moved(s, s', u) && Counts(s')
    requires u == t && s.threads[u].pc == Out ==>
      forall v :: 0 <= v < |s.threads| && v != w ==> s.threads[v].pc != WeakTest
    ensures Doomed(s', w, t) && Sum(s'.threads, LEFT) < Sum(s.threads, LEFT)
  {
    SumUpdate(s.threads, u, s'.threads[u], LEFT);
    forall v | 0 <= v < |s'.threads| ensures CanWait(s', w, t, v) { assert CanWait(s, w, t, v); }
  }

  /** Everybody but w leaves and drops what is strong; then w finds ref_cnt at zero and deletes under t. */
  lemma {:induction false} DoomedEnds(s: State, w: nat, t: nat) returns (u: State)
    requires Doomed(s, w, t)
    ensures Leads(s, u) && !Safe(u)
    decreases Sum(s.threads, LEFT)
  {
    if v :| 0 <= v < |s.threads| && v != w && s.threads[v].pc != Out {
      DoomedMoves(s, w, t, v);
      CountsStay(s, v, Step);
      MovedIsDoomed(s, Advance(s, v), w, t, v);
      u := DoomedEnds(Advance(s, v), w, t);
      LeadsStep(s, v, Step, u);
    } else if v :| 0 <= v < |s.threads| && s.threads[v].strong > 0 {
      CountsStay(s, v, DropRef);
      MovedIsDoomed(s, Apply(s, v, DropRef), w, t, v);
      u := DoomedEnds(Apply(s, v, DropRef), w, t);
      LeadsStep(s, v, DropRef, u);
    } else {
      u := LastTest(s, w, t);
    }
  }

  lemma LastTest(s: State, w: nat, t: nat) returns (u: State)
    requires Doomed(s, w, t) && forall v :: 0 <= v < |s.threads| && v != w ==> s.threads[v].pc == Out
    requires forall v :: 0 <= v < |s.threads| ==> s.threads[v].strong == 0
    ensures Leads(s, u) && !Safe(u)
  {
    OnlyOneInside(s, w);
    SumZero(s.threads, STRONG);
    var s1 := Advance(s, w);
    u := Advance(s1, w);
    assert u.freed && Enabled(u, t, DropWeak) && Touches(u, t, DropWeak);
    assert Follows(u, [], u) && Leads(u, u);
    LeadsStep(s1, w, Step, u);
    LeadsStep(s, w, Step, u);
  }

  lemma OnlyOneInside(s: State, w: nat)
    requires w < |s.threads| && INSIDE(s.threads[w]) == 1
    requires forall v :: 0 <= v < |s.threads| && v != w ==> s.threads[v].pc == Out
    ensures Sum(s.threads, INSIDE) == 1
  {
    var x := s.threads[w].(pc := Out);
    SumUpdate(s.threads, w, x, INSIDE);
    SumZero(s.threads[w := x], INSIDE);
  }

  /** A careless MakeWeak dooms the control block. */
  lemma CarelessIsDoomed(s: State, t: nat, w: nat)
    requires Inv(s) && |s.threads| <= 256 && Enabled(s, t, MakeWeak)
    requires w < |s.threads| && s.threads[w].pc == WeakTest && s.threads[w].strong == 0
    ensures Doomed(Apply(s, t, MakeWeak), w, t)
  {
    var s' := Apply(s, t, MakeWeak);
    CountsStay(s, t, MakeWeak);
    Sums(s, s', t);
    forall u | 0 <= u < |s'.threads| ensures CanWait(s', w, t, u) { assert PcOk(s, s.threads[u]); }
  }

  /**
   * The care is the weakest: a weak reference may be made from a strong one, in a state reached with care by at most
   * 256 threads, if and only if everything reached with care afterwards is safe.
   */
  lemma AllowedIsWeakest(s: State, t: nat)
    requires Reaches(s, true) && |s.threads| <= 256 && Enabled(s, t, MakeWeak)
    ensures Allowed(s, MakeWeak) <==> forall u :: Leads(Apply(s, t, MakeWeak), u) ==> Safe(u)
  {
    var s' := Apply(s, t, MakeWeak);
    if Allowed(s, MakeWeak) {
      Go(s, true, t, MakeWeak, s');
      forall u | Leads(s', u) ensures Safe(u) {
        var labels :| Follows(s', labels, u);
        CarefulStays(s', labels, u);
        CarefulIsSafe(u);
      }
    } else {
      ReachableInv(s);
      var x :| x in s.threads && x.pc == WeakTest && x.strong == 0;
      var w :| 0 <= w < |s.threads| && s.threads[w] == x;
      CarelessIsDoomed(s, t, w);
      var u := DoomedEnds(s', w, t);
    }
  }
}
