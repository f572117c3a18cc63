/**
 * Two connections joined by the kernel, in one direction: what the receiver hands to its incoming
 * queue is, in every run, a prefix of what the sender's write accepted.
 */
module EndToEnd {
  import opened SegBuffers
  import opened Codec
  import opened Framing
  import opened Connections

  ghost predicate AllGood(ck: Checksum, max: nat, ms: seq<Msg>) {
    forall i :: 0 <= i < |ms| ==> Good(ck, max, ms[i])
  }

  /**
   * The bytes received so far start the stream of the accepted messages, so the messages done with are a
   * prefix of the accepted ones.
   */
  lemma DoneIsPrefix(ck: Checksum, max: nat, ms: seq<Msg>, done: seq<Msg>, st: RxState, buffered: seq<byte>,
                     received: seq<byte>, rest: seq<byte>)
    requires AllGood(ck, max, ms) && Stream(ms) == received + rest
    requires Accounts(ck, max, done, st, buffered, received)
    ensures done <= ms
  {
    FramesOfPrefix(ck, max, ms, received, rest);
  }

  /** Once every byte has arrived and nothing more can be decoded, every accepted message is done with. */
  lemma DoneIsAll(ck: Checksum, max: nat, ms: seq<Msg>, done: seq<Msg>, st: RxState, buffered: seq<byte>)
    requires AllGood(ck, max, ms) && Accounts(ck, max, done, st, buffered, Stream(ms))
    requires Frames(ck, max, st, buffered).msgs == []
    ensures done == ms
  {
    FramesOfStream(ck, max, ms);
    assert done + [] == done;
  }

  /** One direction of a TCP connection. */
  class Channel {
    const a: Conn
    const b: Conn
    ghost var accepted: seq<Msg>
    var carried: nat              // how many bytes of a.socketOut reached b's socket

    constructor (a: Conn, b: Conn)
      requires a.Valid() && b.Valid() && a != b && a.recvBuffer != b.recvBuffer
      requires a.socketOut == [] && a.sendBuffer == [] && b.received == [] && b.socketIn == []
      ensures Inv() && this.a == a && this.b == b && accepted == []
    {
      this.a, this.b, accepted, carried := a, b, [], 0;
    }

    ghost predicate Bytes()
      reads this, a`socketOut, a`sendBuffer, b`received, b`socketIn
    {
      && AllGood(b.ck, b.maxMsgSize, accepted)
      && Stream(accepted) == a.socketOut + Queued(a.sendBuffer)
      && carried <= |a.socketOut|
      && b.received + b.socketIn == a.socketOut[..carried]
    }

    ghost predicate Inv()
      reads this, a, b, a.recvBuffer, b.recvBuffer
    {
      a != b && a.recvBuffer != b.recvBuffer && a.Valid() && b.Valid() && Bytes()
    }

    /** The user writes a message the receiver will take. */
    method Send(m: Msg, bounded: bool) returns (ok: bool)
      requires Inv() && Good(b.ck, b.maxMsgSize, m)
      modifies this`accepted, a`sendBuffer
      ensures Inv() && accepted == if ok then old(accepted) + [m] else old(accepted)
    {
      ok := a.Write(Serialize(m), bounded);
      if ok {
        StreamAppend(accepted, m, a.socketOut, old(Queued(a.sendBuffer)));
        accepted := accepted + [m];
      }
    }

    /** The kernels carry the next n bytes. */
    method Carry(n: nat)
      requires Inv() && carried + n <= |a.socketOut|
      modifies this`carried, b`socketIn
      ensures Inv() && accepted == old(accepted)
    {
      CarryMore(b.received, b.socketIn, a.socketOut, carried, n);
      b.socketIn := b.socketIn + a.socketOut[carried..carried + n];
      carried := carried + n;
    }

    /** Sending and receiving on the two sides keep the account of the bytes. */
    twostate lemma Moved()
      requires old(Bytes()) && accepted == old(accepted) && carried == old(carried)
      requires SendMoves(old(a.socketOut), old(Queued(a.sendBuffer)), a.socketOut, Queued(a.sendBuffer))
      requires b.received + b.socketIn == old(b.received + b.socketIn)
      ensures Bytes()
    {
      assert a.socketOut[..carried] == (a.socketOut + Queued(a.sendBuffer))[..carried];
      assert old(a.socketOut)[..carried] == (old(a.socketOut) + old(Queued(a.sendBuffer)))[..carried];
    }

    /** Any step of the sender's worker, known by its contract. */
    twostate lemma SenderMoved()
      requires old(Inv()) && a.Valid() && accepted == old(accepted) && carried == old(carried)
      requires unchanged(b) && unchanged(b.recvBuffer)
      requires SendMoves(old(a.socketOut), old(Queued(a.sendBuffer)), a.socketOut, Queued(a.sendBuffer))
      ensures Inv()
    {
      Moved();
    }

    /** Any step of the receiver's worker. */
    twostate lemma ReceiverMoved()
      requires old(Inv()) && b.Valid() && accepted == old(accepted) && carried == old(carried)
      requires unchanged(a) && unchanged(a.recvBuffer)
      requires b.received + b.socketIn == old(b.received + b.socketIn)
      ensures Inv()
    {
      Moved();
    }

    /** One step of the sender's worker. */
    method SenderWorks(kind: nat, read: bool, write: bool, error: bool,
        recvs: seq<Recv>, room: bool, rooms: seq<bool>)
      requires Inv()
      modifies a, a.recvBuffer
      ensures Inv() && accepted == old(accepted)
    {
      a.Work(kind, read, write, error, recvs, room, rooms);
      SenderMoved();
    }

    /** One step of the receiver's worker. */
    method ReceiverWorks(kind: nat, read: bool, write: bool, error: bool,
        recvs: seq<Recv>, room: bool, rooms: seq<bool>)
      requires Inv()
      modifies b, b.recvBuffer
      ensures Inv() && accepted == old(accepted) && old(b.incoming) <= b.incoming
    {
      b.Work(kind, read, write, error, recvs, room, rooms);
      ReceiverMoved();
    }

    /** Every run of the channel, of any length and any interleaving. */
    method Run(steps: nat)
      requires Inv()
      modifies this, a, b, a.recvBuffer, b.recvBuffer
      ensures Inv()
      ensures b.incoming <= accepted
      ensures old(b.incoming) <= b.incoming && old(accepted) <= accepted
    {
      for i := 0 to steps
        invariant Inv() && old(b.incoming) <= b.incoming && old(accepted) <= accepted
      {
        var kind: nat, n: nat, atA: bool := *, *, *;
        if kind == 0 {
          var m: Msg, bounded: bool := *, *;
          if GoodFor(m) {
            var _ := Send(m, bounded);
          }
        } else if kind == 1 {
          if carried + n <= |a.socketOut| { Carry(n); }
        } else {
          var read: bool, write: bool, error: bool := *, *, *;
          var recvs: seq<Recv>, room: bool, rooms: seq<bool> := *, *, *;
          if atA {
            SenderWorks(n, read, write, error, recvs, room, rooms);
          } else {
            ReceiverWorks(n, read, write, error, recvs, room, rooms);
          }
        }
      }
      InOrder();
    }

    predicate GoodFor(m: Msg)
      reads {}
    {
      Good(b.ck, b.maxMsgSize, m)
    }

    /** Once every byte written has arrived and the decoder waits for more, every accepted message was handed on. */
    lemma AllDelivered()
      requires Inv() && Queued(a.sendBuffer) == [] && carried == |a.socketOut| && b.socketIn == []
      requires b.recvBuffer.size < if b.inPayload then b.header.length else HEADER_SIZE
      ensures b.incoming + b.Held() == accepted
    {
      ReceivedStarts(b.received, [], a.socketOut, carried, []);
      assert b.received == Stream(accepted);
      assert Named(b.received);
      DoneIsAll(b.ck, b.maxMsgSize, accepted, b.incoming + b.Held(), b.State(), b.recvBuffer.Bytes());
    }

    /** What has been handed on, with the message being retried, is a prefix of what was accepted. */
    lemma InOrder()
      requires Inv()
      ensures b.incoming + b.Held() <= accepted
    {
      var rest := b.socketIn + (a.socketOut[carried..] + Queued(a.sendBuffer));
      ReceivedStarts(b.received, b.socketIn, a.socketOut, carried, Queued(a.sendBuffer));
      assert Named(b.received);
      DoneIsPrefix(b.ck, b.maxMsgSize, accepted, b.incoming + b.Held(), b.State(), b.recvBuffer.Bytes(), b.received,
          rest);
    }
  }

  lemma StreamAppend(ms: seq<Msg>, m: Msg, out: seq<byte>, queued: seq<byte>)
    requires Stream(ms) == out + queued
    ensures Stream(ms + [m]) == out + (queued + Serialize(m))
  {
    assert (ms + [m])[..|ms|] == ms;
    assert (out + queued) + Serialize(m) == out + (queued + Serialize(m));
  }

  lemma CarryMore(received: seq<byte>, inSocket: seq<byte>, out: seq<byte>, carried: nat, n: nat)
    requires carried + n <= |out| && received + inSocket == out[..carried]
    ensures received + (inSocket + out[carried..carried + n]) == out[..carried + n]
  {
    var more := out[carried..carried + n];
    assert out[..carried + n] == out[..carried] + more;
    assert received + (inSocket + more) == (received + inSocket) + more;
  }

  /** The bytes received start the bytes sent and queued. */
  lemma ReceivedStarts(received: seq<byte>, inSocket: seq<byte>, out: seq<byte>, carried: nat, queued: seq<byte>)
    requires carried <= |out| && received + inSocket == out[..carried]
    ensures out + queued == received + (inSocket + (out[carried..] + queued))
  {
    assert out == (received + inSocket) + out[carried..];
    var rest := out[carried..] + queued;
    assert out + queued == (received + inSocket) + rest;
    assert (received + inSocket) + rest == received + (inSocket + rest);
  }
}
