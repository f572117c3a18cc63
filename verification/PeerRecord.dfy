/**
 * The Peer record of PeerNetwork (include/salticidae/network.h): what finish_handshake does with the queued
 * data of the previous connection, and the heartbeat that joins a timer with the Pongs.
 */
module PeerRecord {
  import opened SegBuffers
  import opened Connections
  import opened Handshake

  /** The part of a connection that finish_handshake touches: its send queue, front first. */
  class Outbox {
    var segs: seq<seq<byte>>
    var terminated: bool

    constructor ()
      ensures segs == [] && !terminated
    {
      segs, terminated := [], false;
    }

    /** write: a bounded queue may refuse. */
    method Write(data: seq<byte>, bounded: bool) returns (ok: bool)
      modifies this`segs
      ensures !bounded ==> ok
      ensures segs == if ok then old(segs) + [data] else old(segs)
    {
      ok := true;
      if bounded { ok := *; }
      if ok { segs := segs + [data]; }
    }

    /** move_pop: the front segment, or an empty one if there is none. */
    method MovePop() returns (data: seq<byte>)
      modifies this`segs
      ensures data == if old(segs) == [] then [] else old(segs)[0]
      ensures segs == if old(segs) == [] then [] else old(segs)[1..]
    {
      if segs == [] { return []; }
      data := segs[0];
      segs := segs[1..];
    }
  }

  /** How many segments come before the first empty one. */
  function Gap(segs: seq<seq<byte>>): (k: nat)
    ensures k <= |segs| && (forall i :: 0 <= i < k ==> segs[i] != []) && (k < |segs| ==> segs[k] == [])
  {
    if segs == [] || segs[0] == [] then 0 else 1 + Gap(segs[1..])
  }

  /** What is left after the loop stopped at the first empty segment, which is itself popped. */
  function Stranded(segs: seq<seq<byte>>): seq<seq<byte>> {
    var k := Gap(segs);
    if k == |segs| then [] else segs[k + 1..]
  }

  class Peer {
    const heartbeat: seq<byte>      // the bytes of a heartbeat Ping
    var state: PeerState
    var conn: Outbox
    var pingTimerOk: bool
    var pongMsgOk: bool
    var timerArmed: bool
    // since the record last became CONNECTED
    ghost var pings: nat
    ghost var pongs: nat
    ghost var fires: nat

    /** add_peer: a terminated placeholder takes what the user writes before there is a connection. */
    constructor (heartbeat: seq<byte>)
      ensures Valid() && state == Disconnected && fresh(conn) && conn.segs == [] && this.heartbeat == heartbeat
    {
      this.heartbeat, state := heartbeat, Disconnected;
      pingTimerOk, pongMsgOk, timerArmed := false, false, false;
      pings, pongs, fires := 0, 0, 0;
      conn := new Outbox();
      new;
      conn.terminated := true;
    }

    /** While connected, every timer fire and every Ping after the first is accounted for. */
    ghost predicate Heartbeat()
      reads this
    {
      && pings >= 1
      && fires == pings - 1 + (if pingTimerOk then 1 else 0)
      && pongs >= pings - 1 + (if pongMsgOk then 1 else 0)
      && !(pingTimerOk && pongMsgOk)
      && (timerArmed <==> !pingTimerOk)
    }

    ghost predicate Valid()
      reads this, conn
    {
      && (state.Connected? ==> Heartbeat())
      && (state.Disconnected? ==> conn.terminated)
    }

    /** send_ping, after reset_ping_timer */
    method SendPing(to: Outbox, bounded: bool)
      modifies this`pingTimerOk, this`pongMsgOk, this`timerArmed, this`pings, to`segs
      ensures !pingTimerOk && !pongMsgOk && timerArmed && pings == old(pings) + 1
      ensures !bounded ==> to.segs == old(to.segs) + [heartbeat]
      ensures to.segs == old(to.segs) || to.segs == old(to.segs) + [heartbeat]
    {
      timerArmed := true;
      pingTimerOk, pongMsgOk := false, false;
      pings := pings + 1;
      var _ := to.Write(heartbeat, bounded);
    }

    /** ping_timer */
    method PingTimer(bounded: bool)
      requires Valid() && state.Connected? && timerArmed
      modifies this`pingTimerOk, this`pongMsgOk, this`timerArmed, this`pings, this`fires, conn`segs
      ensures Valid() && fires == old(fires) + 1
      ensures pings == old(pings) + if old(pongMsgOk) then 1 else 0
    {
      timerArmed := false;
      fires := fires + 1;
      pingTimerOk := true;
      if pongMsgOk { SendPing(conn, bounded); }
    }

    /** pong_handler on a heartbeat Pong */
    method HeartbeatPong(bounded: bool)
      requires Valid() && state.Connected?
      modifies this`pingTimerOk, this`pongMsgOk, this`timerArmed, this`pings, this`pongs, conn`segs
      ensures Valid() && pongs == old(pongs) + 1
      ensures pings == old(pings) + if old(pingTimerOk) then 1 else 0
    {
      pongs := pongs + 1;
      pongMsgOk := true;
      if pingTimerOk { SendPing(conn, bounded); }
    }

    /**
     * finish_handshake: the chosen connection gets a heartbeat Ping and then what the previous connection still
     * had queued, in order.
     */
    method FinishHandshake(chosen: Outbox, bounded: bool)
      requires Valid() && state.Disconnected? && chosen != conn
      modifies this, conn, chosen
      ensures Valid() && state.Connected? && conn == chosen && pings == 1 && pongs == 0 && fires == 0
      ensures old(conn).segs == Stranded(old(conn.segs))
      ensures !bounded ==> conn.segs == old(chosen.segs) + [heartbeat] + old(conn.segs)[..Gap(old(conn.segs))]
    {
      timerArmed := false;
      state := Connected;
      pings, pongs, fires := 0, 0, 0;
      SendPing(chosen, bounded);
      ghost var before := conn.segs;
      ghost var k: nat := 0;
      while true
        invariant conn == old(conn) && before == old(conn.segs) && state.Connected? && Heartbeat()
        invariant pings == 1 && pongs == 0 && fires == 0
        invariant k <= Gap(before) && conn.segs == before[k..]
        invariant !bounded ==> chosen.segs == old(chosen.segs) + [heartbeat] + before[..k]
        decreases |conn.segs|
      {
        var seg := conn.MovePop();
        if seg == [] { break; }
        assert before[k] == seg && before[..k + 1] == before[..k] + [seg];
        var _ := chosen.Write(seg, bounded);
        k := k + 1;
      }
      conn := chosen;
    }

    /** The connection is torn down (on_dispatcher_teardown). */
    method Teardown()
      requires !state.Disconnected? && conn.terminated
      modifies this`state, this`timerArmed
      ensures Valid() && state.Disconnected? && conn == old(conn)
    {
      state, timerArmed := Disconnected, false;
    }

    /** Any order of timer fires and Pongs while the peer stays connected. */
    method Beat(steps: nat)
      requires Valid() && state.Connected? && pings == 1 && fires == 0 && pongs == 0
      modifies this`pingTimerOk, this`pongMsgOk, this`timerArmed, this`pings, this`pongs, this`fires, conn`segs
      ensures Valid()
      ensures pings <= 1 + pongs && pings <= 1 + fires && fires <= pings
      ensures !(pingTimerOk && pongMsgOk) && (!pingTimerOk ==> timerArmed)
    {
      for i := 0 to steps
        invariant Valid() && state.Connected?
      {
        var pong: bool, bounded: bool := *, *;
        if pong { HeartbeatPong(bounded); }
        else if timerArmed { PingTimer(bounded); }
      }
    }
  }

  /**
   * What the user writes to the placeholder of a new peer reaches the first chosen connection, in order, behind
   * that connection's own queue and a Ping.
   */
  method EarlyWritesSurvive(heartbeat: seq<byte>, writes: seq<seq<byte>>, chosen: Outbox)
    requires NoEmptySegs(writes)
    modifies chosen
    ensures chosen.segs == old(chosen.segs) + [heartbeat] + writes
  {
    var p := new Peer(heartbeat);
    for i := 0 to |writes|
      invariant fresh(p) && fresh(p.conn) && p.Valid() && p.state == Disconnected && p.heartbeat == heartbeat
      invariant p.conn.segs == writes[..i] && chosen.segs == old(chosen.segs)
    {
      var _ := p.conn.Write(writes[i], false);
    }
    assert writes[..|writes|] == writes && Gap(writes) == |writes|;
    p.FinishHandshake(chosen, false);
  }

  /** Segments are left behind exactly when an empty one comes before another. */
  lemma StrandedExactly(segs: seq<seq<byte>>)
    ensures Stranded(segs) != [] <==> exists i :: 0 <= i < |segs| - 1 && segs[i] == []
  {
    var k := Gap(segs);
    if k < |segs| - 1 { assert segs[k] == []; }
  }

  /** With neither bound nor empty segments the bytes are conserved: the chosen queue, a Ping, the old queue. */
  lemma TransferConserves(earlier: seq<seq<byte>>, ping: seq<byte>, previous: seq<seq<byte>>)
    requires NoEmptySegs(previous)
    ensures Stranded(previous) == []
    ensures Queued(earlier + [ping] + previous[..Gap(previous)]) == Queued(earlier) + ping + Queued(previous)
  {
    assert Gap(previous) == |previous| && previous[..|previous|] == previous;
    QueuedAppend(earlier, ping);
    QueuedConcat(earlier + [ping], previous);
  }

  lemma {:induction false} QueuedConcat(a: seq<seq<byte>>, b: seq<seq<byte>>)
    ensures Queued(a + b) == Queued(a) + Queued(b)
    decreases |b|
  {
    if b == [] {
      assert a + b == a;
    } else {
      assert a + b == (a + [b[0]]) + b[1..];
      QueuedAppend(a, b[0]);
      QueuedConcat(a + [b[0]], b[1..]);
      assert Queued(a) + b[0] + Queued(b[1..]) == Queued(a) + (b[0] + Queued(b[1..]));
    }
  }
}
