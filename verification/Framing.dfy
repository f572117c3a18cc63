/**
 * What a byte stream means as messages, whatever its segmentation (MsgNetwork::on_read in
 * include/salticidae/network.h).
 */
module Framing {
  import opened SegBuffers
  import opened Codec

  type Checksum = seq<byte> -> nat

  /** msg_state, with the header parsed so far. */
  datatype RxState = AwaitHeader | AwaitPayload(h: Header)

  /** The messages in a byte string, the state after the last complete part, and the bytes left over. */
  datatype Parsed = Parsed(msgs: seq<Msg>, state: RxState, rest: seq<byte>)

  /**
   * The pure decoder.  A message whose checksum fails is dropped.  A header announcing more than max
   * bytes is dropped alone, as the code does before it throws: what follows it is read as a header.
   */
  function Frames(ck: Checksum, max: nat, st: RxState, b: seq<byte>): Parsed
    decreases |b|, if st.AwaitPayload? then 1 else 0
  {
    match st
    case AwaitHeader =>
      if |b| < HEADER_SIZE then Parsed([], st, b)
      else
        var h := ParseHeader(b[..HEADER_SIZE]);
        Frames(ck, max, if h.length > max then AwaitHeader else AwaitPayload(h), b[HEADER_SIZE..])
    case AwaitPayload(h) =>
      if |b| < h.length then Parsed([], st, b)
      else
        var r := Frames(ck, max, AwaitHeader, b[h.length..]);
        if ck(b[..h.length]) == h.checksum then r.(msgs := [Msg(h, b[..h.length])] + r.msgs) else r
  }

  /** More bytes arriving continue the decoding where it stopped. */
  function Continue(ck: Checksum, max: nat, r: Parsed, b: seq<byte>): Parsed {
    var r' := Frames(ck, max, r.state, r.rest + b);
    r'.(msgs := r.msgs + r'.msgs)
  }

  /** Framing does not depend on segmentation. */
  lemma {:induction false} FramesSplit(ck: Checksum, max: nat, st: RxState, a: seq<byte>, b: seq<byte>)
    ensures Frames(ck, max, st, a + b) == Continue(ck, max, Frames(ck, max, st, a), b)
    decreases |a|, if st.AwaitPayload? then 1 else 0
  {
    match st
    case AwaitHeader =>
      if |a| >= HEADER_SIZE {
        assert (a + b)[..HEADER_SIZE] == a[..HEADER_SIZE] && (a + b)[HEADER_SIZE..] == a[HEADER_SIZE..] + b;
        var h := ParseHeader(a[..HEADER_SIZE]);
        FramesSplit(ck, max, if h.length > max then AwaitHeader else AwaitPayload(h), a[HEADER_SIZE..], b);
      }
    case AwaitPayload(h) =>
      if |a| >= h.length {
        assert (a + b)[..h.length] == a[..h.length] && (a + b)[h.length..] == a[h.length..] + b;
        FramesSplit(ck, max, AwaitHeader, a[h.length..], b);
        var r := Frames(ck, max, AwaitHeader, a[h.length..]);
        var r' := Frames(ck, max, r.state, r.rest + b);
        var m := [Msg(h, a[..h.length])];
        assert m + (r.msgs + r'.msgs) == (m + r.msgs) + r'.msgs;
      }
  }

  /** A message as send_msg builds it and the receiver's limits allow it. */
  predicate Good(ck: Checksum, max: nat, m: Msg) {
    m.header.Valid() && m.header.length == |m.payload| <= max && m.header.checksum == ck(m.payload)
  }

  /** The bytes of a sequence of messages. */
  function Stream(ms: seq<Msg>): seq<byte> {
    if ms == [] then [] else Stream(ms[..|ms| - 1]) + Serialize(ms[|ms| - 1])
  }

  lemma FrameOne(ck: Checksum, max: nat, m: Msg)
    requires Good(ck, max, m)
    ensures Frames(ck, max, AwaitHeader, Serialize(m)) == Parsed([m], AwaitHeader, [])
  {
    var b, h := Serialize(m), m.header;
    ParsePrint(h);
    assert b[..HEADER_SIZE] == PrintHeader(h) && b[HEADER_SIZE..] == m.payload;
    assert m.payload[..h.length] == m.payload && m.payload[h.length..] == [];
    assert Frames(ck, max, AwaitHeader, []) == Parsed([], AwaitHeader, []);
    assert Frames(ck, max, AwaitPayload(h), m.payload) == Parsed([m], AwaitHeader, []);
  }

  /** Decoding the stream of good messages yields exactly those messages. */
  lemma {:induction false} FramesOfStream(ck: Checksum, max: nat, ms: seq<Msg>)
    requires forall i :: 0 <= i < |ms| ==> Good(ck, max, ms[i])
    ensures Frames(ck, max, AwaitHeader, Stream(ms)) == Parsed(ms, AwaitHeader, [])
  {
    if ms == [] {
    } else {
      var init, m := ms[..|ms| - 1], ms[|ms| - 1];
      FramesOfStream(ck, max, init);
      FramesSplit(ck, max, AwaitHeader, Stream(init), Serialize(m));
      assert [] + Serialize(m) == Serialize(m);
      FrameOne(ck, max, m);
      assert ms == init + [m];
    }
  }

  /** The messages in part of a stream of good messages are a prefix of them. */
  lemma FramesOfPrefix(ck: Checksum, max: nat, ms: seq<Msg>, a: seq<byte>, b: seq<byte>)
    requires (forall i :: 0 <= i < |ms| ==> Good(ck, max, ms[i])) && Stream(ms) == a + b
    ensures Frames(ck, max, AwaitHeader, a).msgs <= ms
  {
    FramesOfStream(ck, max, ms);
    FramesSplit(ck, max, AwaitHeader, a, b);
  }
}
