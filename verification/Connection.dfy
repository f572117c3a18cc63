/**
 * The worker's side of one plain TCP connection: Conn::_send_data and Conn::_recv_data (src/conn.cpp),
 * the send-buffer handler of Worker::enable_send_buffer (include/salticidae/conn.h), and
 * MsgNetwork::on_read with its retry timer (include/salticidae/network.h).
 *
 * The kernel is the two byte strings socketIn and socketOut: send moves any number of bytes, recv
 * returns any available number up to the chunk size, and either may refuse or fail.  What the calls to
 * recv return (recvs), and whether the incoming message queue has room for each message offered to it
 * (rooms), are parameters.
 */
module Connections {
  import opened SegBuffers
  import opened Codec
  import opened Framing

  /** The queued bytes of a send buffer, front first. */
  function Queued(q: seq<seq<byte>>): seq<byte> {
    if q == [] then [] else q[0] + Queued(q[1..])
  }

  lemma {:induction false} QueuedAppend(q: seq<seq<byte>>, d: seq<byte>)
    ensures Queued(q + [d]) == Queued(q) + d
  {
    if q == [] {
      assert q + [d] == [d] && [d][1..] == [];
    } else {
      assert (q + [d])[1..] == q[1..] + [d];
      QueuedAppend(q[1..], d);
    }
  }

  /**
   * Nothing received is lost, duplicated or reordered: the messages done with, and those still to be
   * decoded from state st and the buffered bytes, are the messages of everything received.
   */
  predicate Accounts(ck: Checksum, max: nat, done: seq<Msg>, st: RxState, buffered: seq<byte>, received: seq<byte>) {
    var r := Frames(ck, max, st, buffered);
    Frames(ck, max, AwaitHeader, received) == r.(msgs := done + r.msgs)
  }

  /** Names bytes whose account a proof is about; proofs that name none need not look into the decoder. */
  predicate Named(all: seq<byte>) { true }

  predicate ToDecode(b: seq<byte>) { true }

  /** A segment arrives. */
  lemma AccountsArrival(ck: Checksum, max: nat, done: seq<Msg>, st: RxState, buffered: seq<byte>, received: seq<byte>,
      seg: seq<byte>)
    requires Accounts(ck, max, done, st, buffered, received)
    ensures Accounts(ck, max, done, st, buffered + seg, received + seg)
  {
    FramesSplit(ck, max, AwaitHeader, received, seg);
    FramesSplit(ck, max, st, buffered, seg);
    ContinueAfter(ck, max, done, Frames(ck, max, st, buffered), seg);
  }

  /** Messages done with stay in front of what more bytes add. */
  lemma ContinueAfter(ck: Checksum, max: nat, done: seq<Msg>, r: Parsed, seg: seq<byte>)
    ensures var c := Continue(ck, max, r, seg);
      Continue(ck, max, r.(msgs := done + r.msgs), seg) == c.(msgs := done + c.msgs)
  {
    var more := Frames(ck, max, r.state, r.rest + seg).msgs;
    assert (done + r.msgs) + more == done + (r.msgs + more);
  }

  /** A complete header is taken. */
  lemma AccountsHeader(ck: Checksum, max: nat, done: seq<Msg>, b: seq<byte>, received: seq<byte>)
    requires Accounts(ck, max, done, AwaitHeader, b, received) && |b| >= HEADER_SIZE
    ensures var h := ParseHeader(b[..HEADER_SIZE]);
      Accounts(ck, max, done, if h.length > max then AwaitHeader else AwaitPayload(h), b[HEADER_SIZE..], received)
  {
  }

  /** A complete payload is taken. */
  lemma AccountsPayload(ck: Checksum, max: nat, done: seq<Msg>, h: Header, b: seq<byte>, received: seq<byte>)
    requires Accounts(ck, max, done, AwaitPayload(h), b, received) && |b| >= h.length
    ensures var p := b[..h.length];
      Accounts(ck, max, if ck(p) == h.checksum then done + [Msg(h, p)] else done, AwaitHeader, b[h.length..], received)
  {
    var r := Frames(ck, max, AwaitHeader, b[h.length..]);
    var m := [Msg(h, b[..h.length])];
    assert done + (m + r.msgs) == (done + m) + r.msgs;
  }

  /** The answer to one recv: up to n of the bytes waiting (EWOULDBLOCK if that is none), or the end of the stream. */
  datatype Recv = Upto(n: nat) | Ended

  /** The answers to the first k calls of recv are all full chunks. */
  predicate Fills(recvs: seq<Recv>, k: nat, waiting: nat, chunk: nat) {
    k == 0 || (recvs != [] && recvs[0].Upto? && chunk <= recvs[0].n && chunk <= waiting
               && Fills(recvs[1..], k - 1, waiting - chunk, chunk))
  }

  /** The same without recursion: so many answers of at least a chunk, and so many chunks waiting. */
  lemma {:induction false} FillsMeans(recvs: seq<Recv>, k: nat, waiting: nat, chunk: nat)
    ensures Fills(recvs, k, waiting, chunk) <==>
      k <= |recvs| && k * chunk <= waiting && forall i :: 0 <= i < k ==> recvs[i].Upto? && chunk <= recvs[i].n
  {
    if k > 0 {
      assert k * chunk == (k - 1) * chunk + chunk && (k - 1) * chunk >= 0;
      if recvs != [] && chunk <= waiting {
        FillsMeans(recvs[1..], k - 1, waiting - chunk, chunk);
        assert forall i :: 0 < i < |recvs| ==> recvs[i] == recvs[1..][i - 1];
        if k <= |recvs| && forall i :: 0 <= i < k ==> recvs[i].Upto? && chunk <= recvs[i].n {
          assert forall i :: 0 <= i < k - 1 ==> recvs[1..][i] == recvs[i + 1];
        }
      }
    }
  }

  /** How the loop of on_read ends: an oversized message, a message without room, or nothing left to decode. */
  datatype DecodeEnd = Threw | Waits | Ran
  datatype Option<T> = None | Some(value: T)
  datatype Decoding = Decoding(used: nat, end: DecodeEnd)

  function Shift(n: nat, d: Decoding): Decoding { d.(used := n + d.used) }

  /** How many of the bytes b the loop of on_read uses up, and how it ends. */
  function Decoded(ck: Checksum, max: nat, st: RxState, b: seq<byte>, rooms: seq<bool>): Decoding
    decreases |b|, if st.AwaitPayload? then 1 else 0
  {
    match st
    case AwaitHeader =>
      if |b| < HEADER_SIZE then Decoding(0, Ran) else
      var h := ParseHeader(b[..HEADER_SIZE]);
      if h.length > max then Decoding(HEADER_SIZE, Threw)
      else Shift(HEADER_SIZE, Decoded(ck, max, AwaitPayload(h), b[HEADER_SIZE..], rooms))
    case AwaitPayload(h) =>
      if |b| < h.length then Decoding(0, Ran)
      else if ck(b[..h.length]) != h.checksum then Decoding(h.length, Ran)
      else if rooms == [] || !rooms[0] then Decoding(h.length, Waits)
      else Shift(h.length, Decoded(ck, max, AwaitHeader, b[h.length..], rooms[1..]))
  }

  /**
   * With the socket masked because the buffer was full, on_read leaves it masked: the decoder throws, or
   * it frees no segment, or the resumed read fills the buffer again.
   */
  predicate StaysFull(ck: Checksum, max: nat, st: RxState, es: seq<Entry>, rooms: seq<bool>, recvs: seq<Recv>,
      waiting: nat, chunk: nat, segs: nat)
  {
    var d := Decoded(ck, max, st, Flatten(es), rooms);
    var left := |Left(es, d.used)|;
    d.end.Threw? || (d.end.Ran? && (left >= segs || Fills(recvs, segs - left, waiting, chunk)))
  }

  class Conn {
    const ck: Checksum
    const maxMsgSize: nat
    const chunkSize: nat
    const maxRecvSegs: nat
    const recvBuffer: SegBuffer

    // receiving
    var header: Header
    var payload: seq<byte>
    var inPayload: bool
    var msgSleep: bool
    var pollArmed: bool
    var incoming: seq<Msg>      // messages handed to the incoming queue
    var socketIn: seq<byte>
    ghost var received: seq<byte>

    // sending
    var sendBuffer: seq<seq<byte>>
    var socketOut: seq<byte>

    // readiness
    var readyRecv: bool
    var readySend: bool
    var readOn: bool
    var writeOn: bool
    var terminating: bool       // worker_terminate was called

    constructor (ck: Checksum, maxMsgSize: nat, chunkSize: nat, maxRecvSegs: nat)
      requires chunkSize > 0
      ensures Valid() && fresh(recvBuffer) && incoming == [] && received == [] && sendBuffer == [] && socketOut == []
              && socketIn == []
      ensures !readyRecv && !readySend && !readOn && !writeOn && !terminating && !msgSleep && recvBuffer.buffer == []
      ensures this.ck == ck && this.maxMsgSize == maxMsgSize
      ensures this.chunkSize == chunkSize && this.maxRecvSegs == maxRecvSegs
    {
      this.ck, this.maxMsgSize, this.chunkSize, this.maxRecvSegs := ck, maxMsgSize, chunkSize, maxRecvSegs;
      recvBuffer := new SegBuffer();
      header, payload, inPayload, msgSleep, pollArmed := Header(0, 0, 0, 0), [], false, false, false;
      incoming, socketIn, received := [], [], [];
      sendBuffer, socketOut := [], [];
      readyRecv, readySend, readOn, writeOn, terminating := false, false, false, false, false;
    }

    function State(): RxState
      reads this`header, this`inPayload
    {
      if inPayload then AwaitPayload(header) else AwaitHeader
    }

    /** The decoded message waiting for room in the incoming queue. */
    function Held(): seq<Msg>
      reads this`header, this`payload, this`msgSleep
    {
      if msgSleep then [Msg(header, payload)] else []
    }

    ghost predicate Accounted()
      reads this`header, this`payload, this`inPayload, this`msgSleep, this`incoming, this`received, recvBuffer
    {
      forall all {:trigger Named(all)} :: Named(all) && all == received ==>
        Accounts(ck, maxMsgSize, incoming + Held(), State(), recvBuffer.Bytes(), all)
    }

    ghost predicate Valid()
      reads this`header, this`payload, this`inPayload, this`msgSleep, this`pollArmed, this`incoming, this`received,
          recvBuffer
    {
      && chunkSize > 0
      && recvBuffer.Valid() && |recvBuffer.buffer| <= maxRecvSegs && Fits(recvBuffer.buffer, chunkSize)
      && NoneUsedUp(recvBuffer.buffer)
      && (inPayload ==> header.length <= maxMsgSize) && (msgSleep ==> !inPayload && pollArmed)
      && Accounted()
    }

    /** The receive buffer stays within its number of segments, and that many chunks of bytes. */
    lemma ReceiveBounded()
      requires Valid()
      ensures |recvBuffer.buffer| <= maxRecvSegs && recvBuffer.size <= maxRecvSegs * chunkSize
    {
      FitsWithin(recvBuffer.buffer, chunkSize, maxRecvSegs);
    }

    /** Nothing more can be decoded from what is buffered, or a message behind a bad checksum may wait there. */
    predicate Stopped()
      reads this`header, this`payload, this`inPayload, recvBuffer
    {
      || recvBuffer.size < (if inPayload then header.length else HEADER_SIZE)
      || (!inPayload && ck(payload) != header.checksum)
    }

    /** Interest in an event is exactly the negation of the matching ready flag. */
    predicate FlagsOk()
      reads this`readOn, this`writeOn, this`readyRecv, this`readySend
    {
      readOn == !readyRecv && writeOn == !readySend
    }

    /** READ is masked because the buffer was full, and no retry timer will decode what is in it. */
    predicate Stuck()
      reads this`readyRecv, this`readOn, this`msgSleep
    {
      readyRecv && !readOn && !msgSleep
    }

    /** The next reads fill the buffer before recv runs dry. */
    predicate WillFill(recvs: seq<Recv>)
      requires |recvBuffer.buffer| <= maxRecvSegs
      reads this`socketIn, recvBuffer
    {
      Fills(recvs, maxRecvSegs - |recvBuffer.buffer|, |socketIn|, chunkSize)
    }

    /** Decoding from state st, and the reads after it, leave the socket masked. */
    predicate WillStayFull(st: RxState, recvs: seq<Recv>, rooms: seq<bool>)
      reads this`socketIn, recvBuffer
    {
      StaysFull(ck, maxMsgSize, st, recvBuffer.buffer, rooms, recvs, |socketIn|, chunkSize, maxRecvSegs)
    }

    // ----- receiving -----

    /** Decoding from here comes to d; for proofs that name the bytes. */
    ghost predicate Ahead(d: Decoding, rooms: seq<bool>)
      reads this`header, this`inPayload, recvBuffer
    {
      forall b {:trigger ToDecode(b)} :: ToDecode(b) && b == recvBuffer.Bytes() ==>
        d == Decoded(ck, maxMsgSize, State(), b, rooms)
    }

    /** One header, if it is complete; throws on an oversized message. */
    method TakeHeader(ghost rooms: seq<bool>, ghost d: Decoding) returns (ok: bool, thrown: bool)
      requires Valid() && !inPayload && !msgSleep && Ahead(d, rooms)
      modifies this`header, this`inPayload, recvBuffer
      ensures Valid() && !msgSleep && |recvBuffer.buffer| <= old(|recvBuffer.buffer|)
      ensures ok == (old(recvBuffer.size) >= HEADER_SIZE && !thrown) && ok == inPayload
      ensures ok || thrown ==>
        && old(recvBuffer.size) >= HEADER_SIZE && header == ParseHeader(old(recvBuffer.Bytes())[..HEADER_SIZE])
        && recvBuffer.size == old(recvBuffer.size) - HEADER_SIZE
        && recvBuffer.buffer == Left(old(recvBuffer.buffer), HEADER_SIZE)
      ensures !ok && !thrown ==> unchanged(recvBuffer) && header == old(header)
      ensures thrown ==> header.length > maxMsgSize
      ensures if ok then d.used >= HEADER_SIZE && Ahead(d.(used := d.used - HEADER_SIZE), rooms)
              else d == if thrown then Decoding(HEADER_SIZE, Threw) else Decoding(0, Ran)
    {
      ghost var b := recvBuffer.Bytes();
      assert ToDecode(b);
      if recvBuffer.size < HEADER_SIZE { return false, false; }
      assert Named(received);
      AccountsHeader(ck, maxMsgSize, incoming + Held(), b, received);
      var h := recvBuffer.Pop(HEADER_SIZE);
      header := ParseHeader(h);
      if header.length > maxMsgSize { return false, true; }
      inPayload := true;
      return true, false;
    }

    /** One payload, if it is complete: dropped on a bad checksum, else offered to the incoming queue. */
    method TakePayload(rooms: seq<bool>, ghost d: Decoding) returns (out: Outcome, left: seq<bool>)
      requires Valid() && inPayload && !msgSleep && Ahead(d, rooms)
      modifies this`payload, this`inPayload, this`msgSleep, this`pollArmed, this`incoming, recvBuffer
      ensures Valid() && |recvBuffer.buffer| <= old(|recvBuffer.buffer|)
      ensures out.Short? <==> old(recvBuffer.size) < header.length
      ensures out.Short? ==> inPayload && unchanged(recvBuffer)
      ensures !out.Short? ==>
        && !inPayload && payload == old(recvBuffer.Bytes())[..header.length]
        && recvBuffer.size == old(recvBuffer.size) - header.length
        && recvBuffer.buffer == Left(old(recvBuffer.buffer), header.length)
      ensures msgSleep == out.Full?
      ensures !out.Short? ==> (out.Dropped? <==> ck(payload) != header.checksum)
      ensures incoming == if out.Delivered? then old(incoming) + [Msg(header, payload)] else old(incoming)
      ensures match out
        case Short => d == Decoding(0, Ran)
        case Dropped => d == Decoding(header.length, Ran)
        case Full => d == Decoding(header.length, Waits)
        case Delivered => d.used >= header.length && Ahead(d.(used := d.used - header.length), left)
    {
      left := rooms;
      ghost var b := recvBuffer.Bytes();
      assert ToDecode(b);
      if recvBuffer.size < header.length { return Short, left; }
      assert Named(received);
      AccountsPayload(ck, maxMsgSize, incoming, header, b, received);
      assert incoming + Held() == incoming;
      payload := recvBuffer.Pop(header.length);
      inPayload := false;
      if ck(payload) != header.checksum {
        assert incoming + Held() == incoming;
        return Dropped, left;
      }
      if left == [] || !left[0] {
        msgSleep := true;
        pollArmed := true;
        return Full, left;
      }
      left := left[1..];
      incoming := incoming + [Msg(header, payload)];
      assert incoming + Held() == incoming;
      return Delivered, left;
    }

    /** One round of the loop of on_read; it used n bytes, and ended the loop unless it delivered a message. */
    method DecodeOne(rooms: seq<bool>, ghost d: Decoding)
      returns (end: Option<DecodeEnd>, left: seq<bool>, ghost n: nat)
      requires Valid() && !msgSleep && Ahead(d, rooms)
      modifies this`header, this`payload, this`inPayload, this`msgSleep, this`pollArmed, this`incoming, recvBuffer
      ensures Valid() && |recvBuffer.buffer| <= old(|recvBuffer.buffer|) && old(incoming) <= incoming
      ensures end.None? ==> !inPayload && (recvBuffer.size < old(recvBuffer.size) || old(inPayload))
      ensures recvBuffer.size <= old(recvBuffer.size) && msgSleep == (end == Some(Waits))
      ensures end == Some(Ran) ==> Stopped()
      ensures recvBuffer.buffer == Left(old(recvBuffer.buffer), n)
      ensures if end.Some? then d == Decoding(n, end.value) else d.used >= n && Ahead(d.(used := d.used - n), left)
    {
      n, left := 0, rooms;
      LeftNone(recvBuffer.buffer);
      if !inPayload {
        var ok, bad := TakeHeader(rooms, d);
        if bad { return Some(Threw), left, HEADER_SIZE; }
        if !ok { return Some(Ran), left, 0; }
        n := HEADER_SIZE;
      }
      var out;
      out, left := TakePayload(rooms, d.(used := d.used - n));
      if out.Short? { return Some(Ran), left, n; }
      LeftMore(old(recvBuffer.buffer), n, header.length);
      n := n + header.length;
      if out.Dropped? { return Some(Ran), left, n; }
      if out.Full? { return Some(Waits), left, n; }
      return None, left, n;
    }

    /** The loop of on_read: decode until a part is incomplete, a checksum fails or the incoming queue is full. */
    method Decode(rooms: seq<bool>) returns (thrown: bool, left: seq<bool>)
      requires Valid() && !msgSleep
      modifies this`header, this`payload, this`inPayload, this`msgSleep, this`pollArmed, this`incoming, recvBuffer
      ensures Valid() && |recvBuffer.buffer| <= old(|recvBuffer.buffer|) && old(incoming) <= incoming
      ensures !thrown && !msgSleep ==> Stopped()
      ensures var d := Decoded(ck, maxMsgSize, old(State()), old(recvBuffer.Bytes()), rooms);
        && thrown == d.end.Threw? && msgSleep == d.end.Waits?
        && recvBuffer.buffer == Left(old(recvBuffer.buffer), d.used)
    {
      ghost var d := Decoded(ck, maxMsgSize, State(), recvBuffer.Bytes(), rooms);
      ghost var used: nat := 0;
      LeftNone(recvBuffer.buffer);
      left := rooms;
      while true
        invariant Valid() && !msgSleep && |recvBuffer.buffer| <= old(|recvBuffer.buffer|) && old(incoming) <= incoming
        invariant used <= d.used && Ahead(d.(used := d.used - used), left)
        invariant recvBuffer.buffer == Left(old(recvBuffer.buffer), used)
        decreases recvBuffer.size, inPayload
      {
        var end;
        ghost var n;
        end, left, n := DecodeOne(left, d.(used := d.used - used));
        LeftMore(old(recvBuffer.buffer), used, n);
        used := used + n;
        if end.Some? { return end.value.Threw?, left; }
      }
    }

    /**
     * on_read: decode what is buffered, and resume reading if the socket was masked because the
     * buffer was full.
     */
    method OnRead(recvs: seq<Recv>, rooms: seq<bool>) returns (thrown: bool)
      requires Valid()
      modifies this`header, this`payload, this`inPayload, this`msgSleep, this`pollArmed, this`incoming, this`socketIn,
        this`received, this`readyRecv, this`readOn, this`writeOn, this`terminating, recvBuffer
      ensures Valid() && Took(old(received), old(socketIn), old(incoming))
      ensures old(FlagsOk()) && !terminating ==> FlagsOk()
      ensures old(terminating) ==> terminating
      ensures old(msgSleep) ==> received == old(received) && incoming == old(incoming) && msgSleep
      ensures !old(msgSleep) && !thrown && !terminating && !readyRecv && !msgSleep ==> Stopped()
      ensures !old(readyRecv) ==> !readyRecv
      ensures old(Stuck()) ==> (Stuck() <==> old(WillStayFull(State(), recvs, rooms)))
      decreases if readyRecv then 2 else 0
    {
      if msgSleep { return false; }
      var left;
      thrown, left := Decode(rooms);
      if thrown || msgSleep { return; }
      if readyRecv && |recvBuffer.buffer| < maxRecvSegs {
        readOn, writeOn := true, !readySend;
        thrown := RecvData(recvs, left);
      }
    }

    /** The loop of _recv_data: read chunks until the socket or the buffer is exhausted. */
    method ReadChunks(recvs: seq<Recv>) returns (end: ReadEnd)
      requires Valid()
      modifies this`socketIn, this`received, recvBuffer
      ensures Valid() && received + socketIn == old(received + socketIn) && |received| >= old(|received|)
      ensures end.BufferFull? <==> old(WillFill(recvs))
      ensures end.BufferFull? ==> |recvBuffer.buffer| == maxRecvSegs
      ensures end.BufferFull? ==> |received| == old(|received| + (maxRecvSegs - |recvBuffer.buffer|) * chunkSize)
    {
      var more, rest := true, recvs;
      while more
        invariant Valid() && received + socketIn == old(received + socketIn) && |received| >= old(|received|)
        invariant old(WillFill(recvs)) <==> more && WillFill(rest)
        invariant more ==> |received| == old(|received|) + (|recvBuffer.buffer| - old(|recvBuffer.buffer|)) * chunkSize
        decreases more, maxRecvSegs - |recvBuffer.buffer|
      {
        if |recvBuffer.buffer| >= maxRecvSegs { return BufferFull; }
        var answer := if rest == [] then Upto(0) else rest[0];
        if answer.Ended? { return Closed; }
        var n := Min(answer.n, Min(chunkSize, |socketIn|));
        if n > 0 {
          assert received + socketIn == (received + socketIn[..n]) + socketIn[n..];
          Arrive(n);
          rest := rest[1..];
        }
        more := n == chunkSize;
      }
      return Exhausted;
    }

    /** _recv_data: read, then decode; a full buffer masks READ and a closed socket asks for termination. */
    method RecvData(recvs: seq<Recv>, rooms: seq<bool>) returns (thrown: bool)
      requires Valid() && readOn
      modifies this`header, this`payload, this`inPayload, this`msgSleep, this`pollArmed, this`incoming, this`socketIn,
        this`received, this`readyRecv, this`readOn, this`writeOn, this`terminating, recvBuffer
      ensures Valid() && Took(old(received), old(socketIn), old(incoming))
      ensures old(writeOn == !readySend) && !terminating ==> FlagsOk()
      ensures old(terminating) ==> terminating
      ensures !old(msgSleep) && !thrown && !terminating && !readyRecv && !msgSleep ==> Stopped()
      ensures Stuck() <==> old(!msgSleep && WillFill(recvs))
      ensures old(WillFill(recvs)) ==>
        && incoming == old(incoming) && |recvBuffer.buffer| == maxRecvSegs
        && |received| == old(|received| + (maxRecvSegs - |recvBuffer.buffer|) * chunkSize)
      decreases 1
    {
      var end := ReadChunks(recvs);
      match end
      case BufferFull =>
        readOn, writeOn := false, !readySend;
        readyRecv := true;
        thrown := false;
      case Closed =>
        terminating := true;
        thrown := false;
      case Exhausted =>
        readyRecv := false;
        thrown := OnRead([], rooms);
    }

    /** recv returned n bytes: they become one segment of the receive buffer. */
    method Arrive(n: nat)
      requires Valid() && 0 < n <= chunkSize && n <= |socketIn| && |recvBuffer.buffer| < maxRecvSegs
      modifies this`socketIn, this`received, recvBuffer
      ensures Valid() && received == old(received) + old(socketIn)[..n] && socketIn == old(socketIn)[n..]
      ensures |recvBuffer.buffer| == old(|recvBuffer.buffer|) + 1
    {
      var seg := socketIn[..n];
      assert Named(received);
      AccountsArrival(ck, maxMsgSize, incoming + Held(), State(), recvBuffer.Bytes(), received, seg);
      recvBuffer.Push(seg);
      received := received + seg;
      socketIn := socketIn[n..];
    }

    /** The incoming queue took the held message. */
    method DeliverHeld()
      requires Valid() && msgSleep
      modifies this`msgSleep, this`pollArmed, this`incoming
      ensures Valid() && !msgSleep && incoming == old(incoming) + [Msg(header, payload)]
    {
      assert Named(received);
      incoming := incoming + [Msg(header, payload)];
      pollArmed, msgSleep := false, false;
      assert incoming + Held() == incoming;
    }

    /** The retry timer: offer the held message again, and go on decoding once it is accepted. */
    method PollTimer(room: bool, recvs: seq<Recv>, rooms: seq<bool>) returns (thrown: bool)
      requires Valid() && msgSleep
      modifies this`header, this`payload, this`inPayload, this`msgSleep, this`pollArmed, this`incoming, this`socketIn,
        this`received, this`readyRecv, this`readOn, this`writeOn, this`terminating, recvBuffer
      ensures Valid() && Took(old(received), old(socketIn), old(incoming))
      ensures old(FlagsOk()) && !terminating ==> FlagsOk()
      ensures if room then |incoming| > old(|incoming|) else msgSleep && incoming == old(incoming)
      ensures old(FlagsOk()) ==> (Stuck() <==> room && old(readyRecv && WillStayFull(AwaitHeader, recvs, rooms)))
    {
      if !room {
        msgSleep := true;
        pollArmed := true;
        return false;
      }
      DeliverHeld();
      thrown := OnRead(recvs, rooms);
    }

    /** The receive side only moved bytes from the socket to `received`, and only added to `incoming`. */
    ghost predicate Took(received0: seq<byte>, socketIn0: seq<byte>, incoming0: seq<Msg>)
      reads this`received, this`socketIn, this`incoming
    {
      ReceiveMoves(received0, socketIn0, incoming0, received, socketIn, incoming)
    }

    // ----- sending -----

    /** write: a bounded send buffer may refuse, an unbounded one accepts. */
    method Write(data: seq<byte>, bounded: bool) returns (ok: bool)
      modifies this`sendBuffer
      ensures !bounded ==> ok
      ensures if ok then sendBuffer == old(sendBuffer) + [data] && Queued(sendBuffer) == old(Queued(sendBuffer)) + data
              else sendBuffer == old(sendBuffer)
    {
      ok := true;
      if bounded { ok := *; }
      if ok {
        QueuedAppend(sendBuffer, data);
        sendBuffer := sendBuffer + [data];
      }
    }

    /**
     * _send_data: send segments until the kernel refuses, putting back what it did not take.  When
     * nothing is left to send, WRITE is masked and ready_send set.
     */
    method SendData()
      requires writeOn
      modifies this`sendBuffer, this`socketOut, this`readySend, this`readOn, this`writeOn, this`terminating
      ensures SendMoves(old(socketOut), old(Queued(sendBuffer)), socketOut, Queued(sendBuffer))
      ensures old(readOn == !readyRecv) && !terminating ==> FlagsOk()
      ensures NoEmptySegs(old(sendBuffer)) ==> NoEmptySegs(sendBuffer)
      ensures NoEmptySegs(old(sendBuffer)) && !terminating && readySend ==> sendBuffer == []
      ensures !terminating && !readySend ==> sendBuffer != []
      ensures old(terminating) ==> terminating
      ensures readOn == old(readOn) || readOn == !readyRecv
    {
      while true
        invariant SendMoves(old(socketOut), old(Queued(sendBuffer)), socketOut, Queued(sendBuffer))
        invariant readySend == old(readySend) && readOn == old(readOn) && writeOn && terminating == old(terminating)
        invariant NoEmptySegs(old(sendBuffer)) ==> NoEmptySegs(sendBuffer)
        decreases |sendBuffer|
      {
        // move_pop yields an empty segment when the queue is empty
        var seg := [];
        if sendBuffer != [] { seg, sendBuffer := sendBuffer[0], sendBuffer[1..]; }
        if seg == [] { break; }
        var ret: int := *;
        if ret > |seg| { ret := |seg|; }
        if ret < |seg| {
          if ret < 1 {
            sendBuffer := [seg] + sendBuffer;
            var failed: bool := *;
            if ret < 0 && failed {
              terminating := true;
              return;
            }
          } else {
            sendBuffer := [seg[ret..]] + sendBuffer;
            assert seg == seg[..ret] + seg[ret..];
            socketOut := socketOut + seg[..ret];
          }
          readySend := false;
          return;
        }
        socketOut := socketOut + seg;
      }
      readOn, writeOn := !readyRecv, false;
      readySend := true;
    }

    /** The send buffer's queue handler. */
    method QueueHandler()
      modifies this`sendBuffer, this`socketOut, this`readySend, this`readOn, this`writeOn, this`terminating
      ensures SendMoves(old(socketOut), old(Queued(sendBuffer)), socketOut, Queued(sendBuffer))
      ensures old(FlagsOk()) && !terminating ==> FlagsOk()
      ensures old(terminating) ==> terminating
      ensures readOn == old(readOn) || readOn == !readyRecv
      ensures !old(readySend) ==> sendBuffer == old(sendBuffer) && writeOn == old(writeOn)
      ensures old(readySend) && NoEmptySegs(old(sendBuffer)) && !terminating ==> (readySend <==> sendBuffer == [])
    {
      if readySend {
        readOn, writeOn := !readyRecv, true;
        SendData();
      }
    }

    /** The user accepted the connection: start polling the socket. */
    method Activate()
      requires !readySend && !readyRecv
      modifies this`readOn, this`writeOn
      ensures FlagsOk()
    {
      readOn, writeOn := true, true;
    }

    /** The socket's event callback: READ takes precedence, an exception terminates the connection. */
    method Event(read: bool, write: bool, error: bool, recvs: seq<Recv>, rooms: seq<bool>)
      requires Valid() && (read ==> readOn) && (write ==> writeOn) && (read || write || error)
      modifies this`header, this`payload, this`inPayload, this`msgSleep, this`pollArmed, this`incoming, this`socketIn,
        this`received, this`readyRecv, this`readOn, this`writeOn, this`terminating, recvBuffer,
        this`sendBuffer, this`socketOut, this`readySend
      ensures Valid() && Took(old(received), old(socketIn), old(incoming))
      ensures SendMoves(old(socketOut), old(Queued(sendBuffer)), socketOut, Queued(sendBuffer))
      ensures old(FlagsOk()) && !terminating ==> FlagsOk()
      ensures old(terminating) || error ==> terminating
      ensures read || error ==> sendBuffer == old(sendBuffer) && socketOut == old(socketOut)
      ensures !read || error ==> received == old(received) && incoming == old(incoming) && unchanged(recvBuffer)
      ensures !read || error ==> readyRecv == old(readyRecv) && msgSleep == old(msgSleep)
      ensures !read || error ==> readOn == old(readOn) || readOn == !readyRecv
      ensures read && !error ==> (Stuck() <==> old(!msgSleep && WillFill(recvs)))
      ensures read && !error && old(WillFill(recvs)) ==>
        && incoming == old(incoming) && |recvBuffer.buffer| == maxRecvSegs
        && |received| == old(|received| + (maxRecvSegs - |recvBuffer.buffer|) * chunkSize)
    {
      if error {
        terminating := true;
      } else if read {
        var thrown := RecvData(recvs, rooms);
        if thrown { terminating := true; }
      } else {
        SendData();
      }
    }

    /** What lets a step of the worker get the connection stuck. */
    predicate Sticks(kind: nat, read: bool, error: bool, recvs: seq<Recv>, room: bool, rooms: seq<bool>)
      requires |recvBuffer.buffer| <= maxRecvSegs
      reads this`readOn, this`readyRecv, this`msgSleep, this`socketIn, recvBuffer
    {
      || (kind == 0 && read && readOn && !error && !msgSleep && WillFill(recvs))
      || (kind == 2 && msgSleep && room && readyRecv && WillStayFull(AwaitHeader, recvs, rooms))
    }

    /**
     * Any step of the worker: a socket event, the handler of the send queue, the retry timer, or activation.
     * A connection that is stuck stays stuck and receives nothing more.
     */
    method Work(kind: nat, read: bool, write: bool, error: bool, recvs: seq<Recv>, room: bool, rooms: seq<bool>)
      requires Valid()
      modifies this, recvBuffer
      ensures Valid() && Took(old(received), old(socketIn), old(incoming))
      ensures SendMoves(old(socketOut), old(Queued(sendBuffer)), socketOut, Queued(sendBuffer))
      ensures old(FlagsOk()) && !terminating ==> FlagsOk()
      ensures old(FlagsOk()) ==> (Stuck() <==> old(Stuck() || Sticks(kind, read, error, recvs, room, rooms)))
      ensures old(Stuck()) ==> Stuck() && received == old(received) && incoming == old(incoming)
      ensures old(Stuck()) ==> unchanged(recvBuffer)
    {
      if kind == 0 {
        if error || (read && readOn) || (write && writeOn) {
          Event(read && readOn, write && writeOn, error, recvs, rooms);
        }
      } else if kind == 1 {
        QueueHandler();
      } else if kind == 2 {
        if msgSleep { var _ := PollTimer(room, recvs, rooms); }
      } else if !readySend && !readyRecv {
        Activate();
      }
    }

    /** Whatever the worker does from now on, a stuck connection decodes and delivers nothing. */
    method StuckForever(steps: nat)
      requires Valid() && Stuck()
      modifies this, recvBuffer
      ensures Stuck() && received == old(received) && incoming == old(incoming)
      ensures recvBuffer.buffer == old(recvBuffer.buffer)
    {
      for i := 0 to steps
        invariant Valid() && Stuck() && received == old(received) && incoming == old(incoming)
        invariant recvBuffer.buffer == old(recvBuffer.buffer)
      {
        var kind: nat, read: bool, write: bool, error: bool := *, *, *, *;
        var recvs: seq<Recv>, room: bool, rooms: seq<bool> := *, *, *;
        Work(kind, read, write, error, recvs, room, rooms);
      }
    }
  }

  /** A new connection, after one READ event that found exactly as many bytes waiting as the buffer takes. */
  method FillUp(ck: Checksum, max: nat, chunk: nat, segs: nat, wire: seq<byte>) returns (c: Conn)
    requires chunk > 0 && |wire| == segs * chunk
    ensures fresh(c) && fresh(c.recvBuffer) && c.Valid() && c.Stuck() && c.received == wire && c.incoming == []
  {
    c := new Conn(ck, max, chunk, segs);
    c.Activate();
    c.socketIn := wire;
    var recvs := seq(segs, _ => Upto(chunk));
    FillsMeans(recvs, segs, |wire|, chunk);
    assert c.WillFill(recvs);
    c.Event(true, false, false, recvs, []);
    assert c.received + c.socketIn == wire && |c.received| == |wire|;
  }

  /**
   * Messages whose bytes fill the receive buffer exactly are read and never delivered, whatever the worker
   * does afterwards.
   */
  method ReadNotDelivered(ck: Checksum, max: nat, chunk: nat, segs: nat, ms: seq<Msg>, steps: nat) returns (c: Conn)
    requires chunk > 0 && |Stream(ms)| == segs * chunk && forall i :: 0 <= i < |ms| ==> Good(ck, max, ms[i])
    ensures Frames(ck, max, AwaitHeader, c.received).msgs == ms && c.incoming == [] && c.Stuck()
  {
    c := FillUp(ck, max, chunk, segs, Stream(ms));
    c.StuckForever(steps);
    FramesOfStream(ck, max, ms);
  }

  /** The smallest case: one segment of 13 bytes and one message without a payload. */
  method EmptyMessageNotDelivered(ck: Checksum, max: nat, m: Msg, steps: nat) returns (c: Conn)
    requires Good(ck, max, m) && m.payload == []
    ensures Frames(ck, max, AwaitHeader, c.received).msgs == [m] && c.incoming == [] && c.Stuck()
  {
    assert [m][..0] == [] && Stream([m]) == Serialize(m);
    c := ReadNotDelivered(ck, max, HEADER_SIZE, 1, [m], steps);
  }

  datatype Outcome = Short | Dropped | Full | Delivered
  datatype ReadEnd = BufferFull | Closed | Exhausted

  predicate NoEmptySegs(q: seq<seq<byte>>) { forall i :: 0 <= i < |q| ==> q[i] != [] }

  /** Sending only moves bytes from the front of the queue to the socket. */
  predicate SendMoves(out0: seq<byte>, queued0: seq<byte>, out1: seq<byte>, queued1: seq<byte>) {
    out1 + queued1 == out0 + queued0 && |out0| <= |out1|
  }

  /** Receiving only moves bytes from the socket to the received ones, and only adds messages. */
  predicate ReceiveMoves(received0: seq<byte>, in0: seq<byte>, incoming0: seq<Msg>,
                         received1: seq<byte>, in1: seq<byte>, incoming1: seq<Msg>) {
    received1 + in1 == received0 + in0 && |received0| <= |received1| && incoming0 <= incoming1
  }
}
