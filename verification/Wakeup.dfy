/** A thread inside MPSCQueueEventDriven::enqueue (include/salticidae/event.h). */
module Producers {
  datatype Producer =
    | Away       // not enqueueing
    | Exchange   // enqueued; wait_sig.exchange(false)
    | Notify     // the exchange returned true; write the notify fd

  /** Producers that have enqueued and not yet exchanged. */
  function Pending(ps: seq<Producer>): nat {
    if ps == [] then 0 else Pending(ps[..|ps| - 1]) + (if ps[|ps| - 1] == Exchange then 1 else 0)
  }

  lemma {:induction false} PendingUpdate(ps: seq<Producer>, p: nat, x: Producer)
    requires p < |ps|
    ensures Pending(ps[p := x]) + (if ps[p] == Exchange then 1 else 0) == Pending(ps) + (if x == Exchange then 1 else 0)
  {
    var n := |ps| - 1;
    if p == n {
      assert ps[p := x][..n] == ps[..n];
    } else {
      assert ps[p := x][..n] == ps[..n][p := x];
      PendingUpdate(ps[..n], p, x);
    }
  }

  lemma {:induction false} PendingHasAProducer(ps: seq<Producer>)
    requires Pending(ps) > 0
    ensures Exchange in ps
  {
    if ps[|ps| - 1] != Exchange { PendingHasAProducer(ps[..|ps| - 1]); }
  }

  /** A producer's move leaves the others' pending notifications. */
  lemma NotifyStays(ps: seq<Producer>, p: nat, x: Producer)
    requires p < |ps| && Notify in ps && ps[p] != Notify
    ensures Notify in ps[p := x]
  {
    var k :| 0 <= k < |ps| && ps[k] == Notify;
    assert ps[p := x][k] == Notify;
  }
}

/**
 * The wakeup handshake of the event-driven queue (MPSCQueueEventDriven in include/salticidae/event.h)
 * with a handler that drains the queue or asks to run again, as those of ThreadCall and of the
 * incoming message queue do.
 *
 * The queue itself is a counter here: enqueue and try_dequeue take effect in one step each.
 */
module Wakeup {
  import opened Producers

  datatype Consumer =
    | Waiting    // in the event loop
    | Arming     // nfd.reset() done; wait_sig.exchange(true)
    | Running    // inside the handler
    | Asking     // the handler returned true; write the notify fd

  datatype State = State(len: nat, waitSig: bool, fd: bool, producers: seq<Producer>, consumer: Consumer)

  datatype Act =
    | Produce(p: nat)      // the next step of producer p
    | Wake                 // the fd is readable: nfd.reset()
    | Arm
    | Take                 // try_dequeue succeeds
    | Drained              // try_dequeue fails and the handler returns false
    | Again                // the handler returns true
    | Ask

  predicate Enabled(s: State, a: Act) {
    match a
    case Produce(p) => p < |s.producers|
    case Wake => s.consumer == Waiting && s.fd
    case Arm => s.consumer == Arming
    case Take => s.consumer == Running && s.len > 0
    case Drained => s.consumer == Running && s.len == 0
    case Again => s.consumer == Running
    case Ask => s.consumer == Asking
  }

  function Apply(s: State, a: Act): State
    requires Enabled(s, a)
  {
    match a
    case Produce(p) =>
      (match s.producers[p]
       case Away => s.(len := s.len + 1, producers := s.producers[p := Exchange])
       case Exchange => s.(waitSig := false, producers := s.producers[p := if s.waitSig then Notify else Away])
       case Notify => s.(fd := true, producers := s.producers[p := Away]))
    case Wake => s.(fd := false, consumer := Arming)
    case Arm => s.(waitSig := true, consumer := Running)
    case Take => s.(len := s.len - 1)
    case Drained => s.(consumer := Waiting)
    case Again => s.(consumer := Asking)
    case Ask => s.(fd := true, consumer := Waiting)
  }

  /**
   * Who is responsible: while wait_sig is false a notification is on its way or being handled; while
   * it is true and the consumer waits unnotified, every queued element has a producer that has yet
   * to exchange.
   */
  predicate Inv(s: State) {
    && (!s.waitSig ==> s.fd || Notify in s.producers || s.consumer == Arming)
    && (s.waitSig && !s.fd && s.consumer == Waiting ==> s.len <= Pending(s.producers))
  }

  predicate Init(s: State) {
    s.len == 0 && s.waitSig && !s.fd && s.consumer == Waiting && forall p :: 0 <= p < |s.producers| ==>
        s.producers[p] == Away
  }

  lemma StepKeepsInv(s: State, a: Act)
    requires Inv(s) && Enabled(s, a)
    ensures Inv(Apply(s, a))
  {
    var s' := Apply(s, a);
    if a.Produce? {
      PendingUpdate(s.producers, a.p, s'.producers[a.p]);
      if s.producers[a.p] == Exchange && s.waitSig { assert s'.producers[a.p] == Notify; }
      if Notify in s.producers && s.producers[a.p] != Notify { NotifyStays(s.producers, a.p, s'.producers[a.p]); }
    }
  }

  predicate IsRun(states: seq<State>, acts: seq<Act>) {
    && |states| == |acts| + 1 && Init(states[0])
    && (forall i :: 0 <= i < |acts| ==> Enabled(states[i], acts[i]) && states[i + 1] == Apply(states[i], acts[i]))
  }

  lemma {:induction false} RunInv(states: seq<State>, acts: seq<Act>, i: nat)
    requires IsRun(states, acts) && i < |states|
    ensures Inv(states[i])
  {
    if i > 0 {
      RunInv(states, acts, i - 1);
      assert Enabled(states[i - 1], acts[i - 1]) && states[i] == Apply(states[i - 1], acts[i - 1]);
      StepKeepsInv(states[i - 1], acts[i - 1]);
    }
  }

  /** No lost wakeup: queued elements always have a set fd, a producer about to notify, or a running consumer. */
  lemma NoLostWakeup(states: seq<State>, acts: seq<Act>, i: nat)
    requires IsRun(states, acts) && i < |states| && states[i].len > 0
    ensures var s := states[i];
      s.fd || s.consumer != Waiting || Exchange in s.producers || Notify in s.producers
  {
    RunInv(states, acts, i);
    var s := states[i];
    if s.waitSig && !s.fd && s.consumer == Waiting { PendingHasAProducer(s.producers); }
  }

  /** In particular, once every producer has returned, a waiting consumer with queued elements will be woken. */
  lemma QuietProducersMeanWake(states: seq<State>, acts: seq<Act>, i: nat)
    requires IsRun(states, acts) && i < |states| && states[i].len > 0 && states[i].consumer == Waiting
    requires forall p :: p in states[i].producers ==> p == Away
    ensures Enabled(states[i], Wake)
  {
    NoLostWakeup(states, acts, i);
  }
}

/**
 * The send side of a connection: the same handshake under the handler of Worker::enable_send_buffer
 * (include/salticidae/conn.h) and Conn::_send_data (src/conn.cpp), with the `ready_send` flag and the
 * WRITE interest of the socket.  The queue holds the sizes of the written segments.
 */
module SendReady {
  import opened Producers

  datatype Worker =
    | Rest             // in the event loop
    | Arming           // nfd.reset() done; wait_sig.exchange(true)
    | Handling         // the queue's handler tests ready_send
    | Popping          // _send_data pops a segment
    | Sending(size: nat)
    | Masking          // nothing to send: drop WRITE interest, set ready_send

  datatype State = State(queue: seq<nat>, waitSig: bool, fd: bool, producers: seq<Producer>, worker: Worker,
                         readySend: bool, writeOn: bool)

  datatype Act =
    | Write(p: nat, size: nat)  // producer p enqueues a segment
    | Produce(p: nat)           // its exchange, then its notify
    | Wake | Arm | Handle
    | Writable                  // the socket's WRITE event
    | Pop
    | Sent(n: nat)              // send() takes n bytes of the segment
    | Mask

  predicate Enabled(s: State, a: Act) {
    match a
    case Write(p, _) => p < |s.producers| && s.producers[p] == Away
    case Produce(p) => p < |s.producers| && s.producers[p] != Away
    case Wake => s.worker == Rest && s.fd
    case Arm => s.worker == Arming
    case Handle => s.worker == Handling
    case Writable => s.worker == Rest && s.writeOn
    case Pop => s.worker == Popping
    case Sent(n) => s.worker.Sending? && n <= s.worker.size
    case Mask => s.worker == Masking
  }

  function Apply(s: State, a: Act): State
    requires Enabled(s, a)
  {
    match a
    case Write(p, n) => s.(queue := s.queue + [n], producers := s.producers[p := Exchange])
    case Produce(p) =>
      if s.producers[p] == Exchange
      then s.(waitSig := false, producers := s.producers[p := if s.waitSig then Notify else Away])
      else s.(fd := true, producers := s.producers[p := Away])
    case Wake => s.(fd := false, worker := Arming)
    case Arm => s.(waitSig := true, worker := Handling)
    case Handle => if s.readySend then s.(writeOn := true, worker := Popping) else s.(worker := Rest)
    case Writable => s.(worker := Popping)
    case Pop =>
      // move_pop yields an empty segment both when the queue is empty and when an empty segment is in front
      if s.queue == [] then s.(worker := Masking)
      else s.(queue := s.queue[1..], worker := if s.queue[0] == 0 then Masking else Sending(s.queue[0]))
    case Sent(n) =>
      if n == s.worker.size then s.(worker := Popping)
      else s.(queue := [s.worker.size - n] + s.queue, readySend := false, worker := Rest)
    case Mask => s.(writeOn := false, readySend := true, worker := Rest)
  }

  /** After activation: the socket is polled for WRITE. */
  predicate Init(s: State) {
    && s.queue == [] && s.waitSig && !s.fd && s.worker == Rest && !s.readySend && s.writeOn
    && (forall p :: 0 <= p < |s.producers| ==> s.producers[p] == Away)
  }

  /** Only the last of q may be empty. */
  predicate Solid(q: seq<nat>) { forall i :: 0 <= i < |q| - 1 ==> q[i] > 0 }

  predicate NoEmpty(q: seq<nat>) { forall i :: 0 <= i < |q| ==> q[i] > 0 }

  /** The worker has seen an empty queue and will not look again unless notified. */
  predicate Trusting(s: State) { s.worker == Masking || (s.worker == Rest && s.readySend) }

  /** The invariant after the segments of `written`, of which only the last may be empty. */
  predicate Inv(s: State, written: seq<nat>) {
    && Solid(s.queue) && (NoEmpty(written) ==> NoEmpty(s.queue)) && (s.worker.Sending? ==> s.worker.size > 0)
    && (!s.waitSig ==> s.fd || Notify in s.producers || s.worker == Arming)
    && (s.waitSig && !s.fd && Trusting(s) ==> |s.queue| <= Pending(s.producers))
    && (s.worker in {Rest, Arming, Handling} ==> s.writeOn == !s.readySend)
    && (s.worker == Popping || s.worker.Sending? ==> s.writeOn)
  }

  /** What is written after a step. */
  function Adds(written: seq<nat>, a: Act): seq<nat> { if a.Write? then written + [a.size] else written }

  lemma AddsOne(q: seq<nat>, n: nat)
    ensures Solid(q + [n]) <==> NoEmpty(q)
    ensures NoEmpty(q + [n]) <==> NoEmpty(q) && n > 0
  {
    assert forall i :: 0 <= i < |q| ==> (q + [n])[i] == q[i];
    assert (q + [n])[|q|] == n;
  }

  lemma StepKeepsInv(s: State, a: Act, written: seq<nat>)
    requires Inv(s, written) && Enabled(s, a) && Solid(Adds(written, a))
    ensures Inv(Apply(s, a), Adds(written, a))
  {
    var s' := Apply(s, a);
    if a.Write? { AddsOne(written, a.size); }
    if a.Write? || a.Produce? {
      PendingUpdate(s.producers, a.p, s'.producers[a.p]);
      if a.Produce? && s.producers[a.p] == Exchange && s.waitSig { assert s'.producers[a.p] == Notify; }
      if Notify in s.producers && s.producers[a.p] != Notify { NotifyStays(s.producers, a.p, s'.producers[a.p]); }
    }
  }

  predicate IsRun(states: seq<State>, acts: seq<Act>) {
    && |states| == |acts| + 1 && Init(states[0])
    && (forall i :: 0 <= i < |acts| ==> Enabled(states[i], acts[i]) && states[i + 1] == Apply(states[i], acts[i]))
  }

  /** The sizes written, in order. */
  function Written(acts: seq<Act>): seq<nat> {
    if acts == [] then [] else Adds(Written(acts[..|acts| - 1]), acts[|acts| - 1])
  }

  lemma {:induction false} RunInv(states: seq<State>, acts: seq<Act>, i: nat)
    requires IsRun(states, acts) && i < |states| && Solid(Written(acts[..i]))
    ensures Inv(states[i], Written(acts[..i]))
  {
    if i > 0 {
      var a := acts[i - 1];
      assert acts[..i][..i - 1] == acts[..i - 1];
      assert Enabled(states[i - 1], a) && states[i] == Apply(states[i - 1], a);
      var before := Written(acts[..i - 1]);
      if a.Write? { AddsOne(before, a.size); }
      RunInv(states, acts, i - 1);
      StepKeepsInv(states[i - 1], a, before);
    }
  }

  /** Queued segments that nothing will ever send: the worker rests, no WRITE interest, no notification due. */
  predicate Stalled(s: State) {
    && s.worker == Rest && s.queue != [] && !s.writeOn && !s.fd
    && Exchange !in s.producers && Notify !in s.producers
  }

  /**
   * No stalled sender as long as no empty segment is written before another, and WRITE interest is the negation of
   * ready_send whenever the worker rests.
   */
  lemma NoStall(states: seq<State>, acts: seq<Act>, i: nat)
    requires IsRun(states, acts) && i < |states| && Solid(Written(acts[..i]))
    ensures !Stalled(states[i])
    ensures states[i].worker == Rest ==> states[i].writeOn == !states[i].readySend
  {
    RunInv(states, acts, i);
    var s := states[i];
    if s.worker == Rest && s.queue != [] && s.readySend && s.waitSig && !s.fd { PendingHasAProducer(s.producers); }
  }

  // ----- every list with an empty segment before another can stall -----

  /** Some run writes ws and ends in s. */
  ghost predicate Reaches(ws: seq<nat>, s: State) {
    exists states, acts :: IsRun(states, acts) && Written(acts) == ws && states[|acts|] == s
  }

  lemma Extend(ws: seq<nat>, s: State, a: Act, s': State)
    requires Reaches(ws, s) && Enabled(s, a) && s' == Apply(s, a)
    ensures Reaches(Adds(ws, a), s')
  {
    var states, acts :| IsRun(states, acts) && Written(acts) == ws && states[|acts|] == s;
    var states', acts' := states + [s'], acts + [a];
    assert acts'[..|acts|] == acts;
    assert IsRun(states', acts') && states'[|acts'|] == s';
  }

  /** One writer; the worker rests, and the socket is polled for WRITE. */
  function Backlog(ws: seq<nat>, waitSig: bool, fd: bool): State {
    State(ws, waitSig, fd, [Away], Rest, false, true)
  }

  /** One more segment is written while a notification is already due. */
  lemma WriteMore(ws: seq<nat>, n: nat)
    requires Reaches(ws, Backlog(ws, false, true))
    ensures Reaches(ws + [n], Backlog(ws + [n], false, true))
  {
    var s := State(ws + [n], false, true, [Exchange], Rest, false, true);
    Extend(ws, Backlog(ws, false, true), Write(0, n), s);
    Extend(ws + [n], s, Produce(0), Backlog(ws + [n], false, true));
  }

  /** The worker has not looked at the queue yet. */
  lemma {:induction false} WriteAll(ws: seq<nat>)
    requires ws != []
    ensures Reaches(ws, Backlog(ws, false, true))
  {
    var init, n := ws[..|ws| - 1], ws[|ws| - 1];
    assert ws == init + [n];
    if init == [] {
      var s := Backlog([], true, false);
      var none: seq<Act> := [];
      assert IsRun([s], none) && Written(none) == [] && [s][|none|] == s;
      var s1 := State([n], true, false, [Exchange], Rest, false, true);
      Extend([], s, Write(0, n), s1);
      var s2 := State([n], false, false, [Notify], Rest, false, true);
      Extend([n], s1, Produce(0), s2);
      Extend([n], s2, Produce(0), Backlog([n], false, true));
    } else {
      WriteAll(init);
      WriteMore(init, n);
    }
  }

  /** The notification is consumed while the socket is not yet known to be writable; then it is. */
  lemma QuietBacklog(ws: seq<nat>)
    requires ws != []
    ensures Reaches(ws, Sends(ws))
  {
    WriteAll(ws);
    var s1 := State(ws, false, false, [Away], Arming, false, true);
    Extend(ws, Backlog(ws, false, true), Wake, s1);
    var s2 := State(ws, true, false, [Away], Handling, false, true);
    Extend(ws, s1, Arm, s2);
    Extend(ws, s2, Handle, Backlog(ws, true, false));
    Extend(ws, Backlog(ws, true, false), Writable, Sends(ws));
  }

  /** The worker is about to pop, or has masked WRITE, with q queued. */
  function Sends(q: seq<nat>): State { State(q, true, false, [Away], Popping, false, true) }

  function Masked(q: seq<nat>): State { State(q, true, false, [Away], Rest, true, false) }

  lemma PopEmpty(ws: seq<nat>, q: seq<nat>)
    requires q != [] && q[0] == 0 && Reaches(ws, Sends(q))
    ensures Reaches(ws, Masked(q[1..]))
  {
    var s := Sends(q[1..]).(worker := Masking);
    Extend(ws, Sends(q), Pop, s);
    Extend(ws, s, Mask, Masked(q[1..]));
  }

  lemma PopFull(ws: seq<nat>, q: seq<nat>)
    requires q != [] && q[0] > 0 && Reaches(ws, Sends(q))
    ensures Reaches(ws, Sends(q[1..]))
  {
    var s := Sends(q[1..]).(worker := Sending(q[0]));
    Extend(ws, Sends(q), Pop, s);
    Extend(ws, s, Sent(q[0]), Sends(q[1..]));
  }

  /** The worker sends up to the first empty segment and masks WRITE, whatever is behind it. */
  lemma {:induction false} SendToEmpty(ws: seq<nat>, q: seq<nat>, i: nat) returns (j: nat)
    requires i < |q| && q[i] == 0 && Reaches(ws, Sends(q))
    ensures j <= i && Reaches(ws, Masked(q[j + 1..]))
    decreases i
  {
    if q[0] == 0 {
      PopEmpty(ws, q);
      j := 0;
    } else {
      PopFull(ws, q);
      var k := SendToEmpty(ws, q[1..], i - 1);
      j := k + 1;
      assert q[1..][k + 1..] == q[j + 1..];
    }
  }

  /** Writing the segments ws can strand some of them if and only if an empty one comes before another. */
  lemma StallsExactly(ws: seq<nat>)
    ensures (exists s :: Reaches(ws, s) && Stalled(s)) <==> exists i :: 0 <= i < |ws| - 1 && ws[i] == 0
  {
    if s :| Reaches(ws, s) && Stalled(s) {
      var states, acts :| IsRun(states, acts) && Written(acts) == ws && states[|acts|] == s;
      assert acts[..|acts|] == acts;
      if Solid(ws) { NoStall(states, acts, |acts|); }
    }
    if i :| 0 <= i < |ws| - 1 && ws[i] == 0 {
      QuietBacklog(ws);
      var j := SendToEmpty(ws, ws, i);
      assert Stalled(Masked(ws[j + 1..]));
    }
  }
}
