/** Bytes and the segmented receive buffer (class SegBuffer in include/salticidae/buffer.h). */
module SegBuffers {
  import Basics

  type byte = x: int | 0 <= x < 256

  /** A segment, split at its offset into the bytes consumed and the bytes that remain. */
  datatype Entry = Entry(used: seq<byte>, rest: seq<byte>) {
    function Data(): seq<byte> { used + rest }
  }

  /** The bytes still to be read, in order. */
  function Flatten(es: seq<Entry>): seq<byte> {
    if es == [] then [] else es[0].rest + Flatten(es[1..])
  }

  lemma {:induction false} FlattenConcat(a: seq<Entry>, b: seq<Entry>)
    ensures Flatten(a + b) == Flatten(a) + Flatten(b)
  {
    if a == [] {
      assert a + b == b;
    } else {
      assert (a + b)[1..] == a[1..] + b;
      FlattenConcat(a[1..], b);
    }
  }

  /** Entry e after n more of its bytes were consumed. */
  function Consume(e: Entry, n: nat): Entry
    requires n <= |e.rest|
  {
    Entry(e.used + e.rest[..n], e.rest[n..])
  }

  function Min(a: nat, b: nat): nat { if a < b then a else b }

  /** No segment has more than c unread bytes. */
  predicate Fits(es: seq<Entry>, c: nat) { forall i :: 0 <= i < |es| ==> |es[i].rest| <= c }

  lemma {:induction false} FitsBound(es: seq<Entry>, c: nat)
    requires Fits(es, c)
    ensures |Flatten(es)| <= |es| * c
  {
    if es != [] { FitsBound(es[1..], c); }
  }

  lemma FitsWithin(es: seq<Entry>, c: nat, n: nat)
    requires Fits(es, c) && |es| <= n
    ensures |Flatten(es)| <= n * c
  {
    FitsBound(es, c);
    Basics.Times(|es|, n, c);
  }

  /** Copying n bytes out of entry i, with res holding what was copied before. */
  lemma PopStep(all: seq<byte>, res: seq<byte>, buffer: seq<Entry>, i: nat, n: nat)
    requires i < |buffer| && n <= |buffer[i].rest| && all == res + Flatten(buffer[i..])
    ensures var buffer' := buffer[i := Consume(buffer[i], n)];
      && all == (res + buffer[i].rest[..n]) + Flatten(buffer'[i..])
      && (n == |buffer[i].rest| ==> Flatten(buffer'[i..]) == Flatten(buffer'[i + 1..]))
  {
    var e := buffer[i];
    var buffer' := buffer[i := Consume(e, n)];
    var x, y, z := e.rest[..n], e.rest[n..], Flatten(buffer[i + 1..]);
    assert buffer[i..][1..] == buffer[i + 1..] && buffer'[i..][1..] == buffer[i + 1..] == buffer'[i + 1..];
    assert Flatten(buffer[i..]) == e.rest + z && Flatten(buffer'[i..]) == y + z;
    assert e.rest == x + y;
    assert res + ((x + y) + z) == (res + x) + (y + z);
  }

  lemma PopEnd(all: seq<byte>, res: seq<byte>, rest: seq<Entry>, len: nat)
    requires all == res + Flatten(rest) && |res| <= len && (|res| == len || rest == [])
    ensures var n := Min(len, |all|); res == all[..n] && Flatten(rest) == all[n..]
  {
    assert rest == [] ==> Flatten(rest) == [];
  }

  predicate NoneUsedUp(es: seq<Entry>) { forall i :: 0 <= i < |es| ==> es[i].rest != [] }

  /** What is left of the segments after n bytes were taken from the front. */
  function Left(es: seq<Entry>, n: nat): seq<Entry> {
    if es == [] then []
    else if n >= |es[0].rest| then Left(es[1..], n - |es[0].rest|)
    else [Consume(es[0], n)] + es[1..]
  }

  lemma ConsumeMore(e: Entry, m: nat, n: nat)
    requires m + n <= |e.rest|
    ensures Consume(Consume(e, m), n) == Consume(e, m + n)
  {
    assert e.rest[..m + n] == e.rest[..m] + e.rest[m..][..n];
    assert (e.used + e.rest[..m]) + e.rest[m..][..n] == e.used + (e.rest[..m] + e.rest[m..][..n]);
  }

  /** Taking bytes twice is taking them at once. */
  lemma {:induction false} LeftMore(es: seq<Entry>, m: nat, n: nat)
    ensures Left(Left(es, m), n) == Left(es, m + n)
  {
    if es != [] {
      var e := es[0];
      if m >= |e.rest| {
        LeftMore(es[1..], m - |e.rest|, n);
      } else {
        var d := Consume(e, m);
        assert ([d] + es[1..])[1..] == es[1..];
        if m + n < |e.rest| { ConsumeMore(e, m, n); }
      }
    }
  }

  lemma LeftNone(es: seq<Entry>)
    requires NoneUsedUp(es)
    ensures Left(es, 0) == es
  {
    if es != [] {
      assert es[0].used + es[0].rest[..0] == es[0].used;
      assert es == [es[0]] + es[1..];
    }
  }

  lemma {:induction false} LeftShrinks(es: seq<Entry>, n: nat)
    requires NoneUsedUp(es)
    ensures NoneUsedUp(Left(es, n)) && |Left(es, n)| <= |es|
  {
    if es != [] && n >= |es[0].rest| { LeftShrinks(es[1..], n - |es[0].rest|); }
  }

  /** Copying n bytes out of entry i, when the entries from i on are what k bytes left. */
  lemma LeftStep(es: seq<Entry>, k: nat, buffer: seq<Entry>, i: nat, n: nat)
    requires NoneUsedUp(es) && i < |buffer| && Left(es, k) == buffer[i..] && n <= |buffer[i].rest|
    ensures var at := if n == |buffer[i].rest| then i + 1 else i;
      buffer[i := Consume(buffer[i], n)][at..] == Left(es, k + n)
  {
    LeftMore(es, k, n);
    LeftShrinks(es, k);
    var rest, buffer' := buffer[i..], buffer[i := Consume(buffer[i], n)];
    assert NoneUsedUp(rest[1..]) && buffer'[i + 1..] == rest[1..] && rest[0] == buffer[i];
    LeftNone(rest[1..]);
    assert buffer'[i..] == [Consume(buffer[i], n)] + rest[1..];
  }

  /** rest is what the entries was became when res had been copied out of them. */
  ghost predicate Popped(was: seq<Entry>, res: seq<byte>, rest: seq<Entry>) {
    && Flatten(was) == res + Flatten(rest)
    && |rest| <= |was|
    && (forall c: nat :: Fits(was, c) ==> Fits(rest, c))
    && (NoneUsedUp(was) ==> rest == Left(was, |res|))
  }

  lemma PoppedStart(es: seq<Entry>)
    ensures Popped(es, [], es)
  {
    assert [] + Flatten(es) == Flatten(es);
    if NoneUsedUp(es) { LeftNone(es); }
  }

  lemma PoppedMore(was: seq<Entry>, res: seq<byte>, buffer: seq<Entry>, i: nat, n: nat)
    requires i < |buffer| && n <= |buffer[i].rest| && Popped(was, res, buffer[i..])
    ensures var at := if n == |buffer[i].rest| then i + 1 else i;
      Popped(was, res + buffer[i].rest[..n], buffer[i := Consume(buffer[i], n)][at..])
  {
    PopStep(Flatten(was), res, buffer, i, n);
    if NoneUsedUp(was) { LeftStep(was, |res|, buffer, i, n); }
    forall c: nat | Fits(was, c)
      ensures Fits(buffer[i := Consume(buffer[i], n)][i..], c)
    {
      assert buffer[i..][0] == buffer[i];
      assert forall j :: i < j < |buffer| ==> buffer[j] == buffer[i..][j - i];
    }
  }

  lemma PoppedEnd(was: seq<Entry>, res: seq<byte>, rest: seq<Entry>, len: nat)
    requires Popped(was, res, rest) && |res| <= len && (|res| < len ==> rest == [])
    ensures var n := Min(len, |Flatten(was)|); res == Flatten(was)[..n] && Flatten(rest) == Flatten(was)[n..]
    ensures NoneUsedUp(was) ==> NoneUsedUp(rest)
  {
    PopEnd(Flatten(was), res, rest, len);
    if NoneUsedUp(was) { LeftShrinks(was, |res|); }
  }

  class SegBuffer {
    var buffer: seq<Entry>
    var size: int

    ghost predicate Valid()
      reads this
    {
      size == |Flatten(buffer)|
    }

    ghost function Bytes(): seq<byte>
      reads this
    {
      Flatten(buffer)
    }

    constructor ()
      ensures Valid() && Bytes() == [] && buffer == []
    {
      buffer, size := [], 0;
    }

    /** rewind: put a segment in front. */
    method Rewind(data: seq<byte>)
      requires Valid()
      modifies this
      ensures Valid() && Bytes() == data + old(Bytes()) && |buffer| == old(|buffer|) + 1
    {
      size := size + |data|;
      buffer := [Entry([], data)] + buffer;
    }

    /** push: put a segment at the end. */
    method Push(data: seq<byte>)
      requires Valid()
      modifies this
      ensures Valid() && Bytes() == old(Bytes()) + data && buffer == old(buffer) + [Entry([], data)]
    {
      var e := Entry([], data);
      FlattenConcat(buffer, [e]);
      assert Flatten([e]) == data;
      size := size + |data|;
      buffer := buffer + [e];
    }

    /**
     * move_pop: take the whole front segment.  The bytes returned are those next in line, and the
     * size counter stays right, exactly when nothing of that segment was consumed before.
     */
    method MovePop() returns (res: seq<byte>)
      requires Valid() && buffer != []
      modifies this
      ensures res == old(buffer[0].Data()) && buffer == old(buffer[1..])
      ensures res + Bytes() == old(Bytes()) <==> old(buffer[0].used) == []
      ensures Valid() <==> old(buffer[0].used) == []
    {
      res := buffer[0].Data();
      assert |Flatten(buffer)| == |buffer[0].rest| + |Flatten(buffer[1..])|;
      buffer := buffer[1..];
      size := size - |res|;
    }

    /** pop: copy out up to len bytes, dropping the segments that are used up. */
    method Pop(len: nat) returns (res: seq<byte>)
      requires Valid()
      modifies this
      ensures Valid()
      ensures var n := Min(len, old(size)); res == old(Bytes())[..n] && Bytes() == old(Bytes())[n..]
      ensures |buffer| <= old(|buffer|) && forall c: nat :: old(Fits(buffer, c)) ==> Fits(buffer, c)
      ensures old(NoneUsedUp(buffer)) ==> NoneUsedUp(buffer) && buffer == Left(old(buffer), |res|)
    {
      res := [];
      var left, i := len, 0;
      ghost var was := buffer;
      PoppedStart(was);
      while left > 0 && i < |buffer|
        invariant 0 <= i <= |buffer| && size == old(size)
        invariant 0 <= left == len - |res|
        invariant Popped(was, res, buffer[i..])
        decreases |buffer| - i, left
      {
        var n := Min(|buffer[i].rest|, left);
        PoppedMore(was, res, buffer, i, n);
        res := res + buffer[i].rest[..n];
        buffer := buffer[i := Consume(buffer[i], n)];
        left := left - n;
        if buffer[i].rest == [] {
          i := i + 1;
        }
      }
      PoppedEnd(was, res, buffer[i..], len);
      buffer := buffer[i..];
      size := size - |res|;
    }

    method Clear()
      modifies this
      ensures Valid() && Bytes() == [] && buffer == []
    {
      buffer, size := [], 0;
    }
  }
}
