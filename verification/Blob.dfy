/**
 * DataStream and the fixed-width Blob of include/salticidae/stream.h, for every word size and number of words,
 * and the hash lists of include/salticidae/msg.h.
 */
module Blobs {
  import opened SegBuffers
  import opened Codec

  // ----- words and bytes -----

  /** n words of w bytes each, read from the front of b. */
  function ToWords(w: nat, n: nat, b: seq<byte>): (ws: seq<nat>)
    requires |b| >= n * w
    ensures |ws| == n && forall i :: 0 <= i < n ==> ws[i] < Pow(w)
  {
    if n == 0 then []
    else
      assert |b| - w >= (n - 1) * w;
      [Num(b[..w])] + ToWords(w, n - 1, b[w..])
  }

  function FromWords(w: nat, ws: seq<nat>): (b: seq<byte>)
    ensures |b| == |ws| * w
  {
    if ws == [] then [] else Le(w, ws[0]) + FromWords(w, ws[1..])
  }

  predicate Words(w: nat, ws: seq<nat>) { forall i :: 0 <= i < |ws| ==> ws[i] < Pow(w) }

  /** Reading inverts writing, whatever follows. */
  lemma {:induction false} ToFrom(w: nat, ws: seq<nat>, rest: seq<byte>)
    requires Words(w, ws)
    ensures ToWords(w, |ws|, FromWords(w, ws) + rest) == ws
  {
    if ws != [] {
      NumLe(w, ws[0]);
      var b := FromWords(w, ws) + rest;
      assert b[..w] == Le(w, ws[0]) && b[w..] == FromWords(w, ws[1..]) + rest;
      ToFrom(w, ws[1..], rest);
    }
  }

  /** Writing inverts reading. */
  lemma {:induction false} FromTo(w: nat, n: nat, b: seq<byte>)
    requires |b| >= n * w
    ensures FromWords(w, ToWords(w, n, b)) == b[..n * w]
  {
    if n > 0 {
      assert |b| - w >= (n - 1) * w;
      FromTo(w, n - 1, b[w..]);
      LeNum(b[..w]);
      assert b[..n * w] == b[..w] + b[w..][..(n - 1) * w];
    }
  }

  // ----- order -----

  /** The number that words stand for, least significant first. */
  function Value(w: nat, ws: seq<nat>): nat {
    if ws == [] then 0 else ws[0] + Pow(w) * Value(w, ws[1..])
  }

  lemma OneWordLess(w: nat, n: nat)
    requires n > 0
    ensures n * w == (n - 1) * w + w && (n - 1) * w >= 0
  {
  }

  /** ... which is the number its bytes stand for. */
  lemma {:induction false} ValueIsNum(w: nat, n: nat, b: seq<byte>)
    requires |b| == n * w
    ensures Value(w, ToWords(w, n, b)) == Num(b)
  {
    if n > 0 {
      OneWordLess(w, n);
      ValueIsNum(w, n - 1, b[w..]);
      NumConcat(b[..w], b[w..]);
      assert b == b[..w] + b[w..];
    }
  }

  lemma {:induction false} NumConcat(a: seq<byte>, b: seq<byte>)
    ensures Num(a + b) == Num(a) + Pow(|a|) * Num(b)
  {
    if a == [] {
      assert a + b == b;
    } else {
      assert (a + b)[1..] == a[1..] + b;
      NumConcat(a[1..], b);
      Scale(a[0], Num(a[1..]), Pow(|a| - 1), Num(b));
    }
  }

  lemma Scale(d: nat, x: nat, p: nat, y: nat)
    ensures d + 256 * (x + p * y) == (d + 256 * x) + (256 * p) * y
  {
    assert 256 * (p * y) == (256 * p) * y;
  }

  /** The order of words with equal tops is the order below them; the top word otherwise decides. */
  lemma {:induction false} ValueOrder(w: nat, a: seq<nat>, b: seq<nat>, i: nat)
    requires Words(w, a) && Words(w, b) && |a| == |b| && i < |a| && a[i + 1..] == b[i + 1..] && a[i] != b[i]
    ensures Value(w, a) < Value(w, b) <==> a[i] < b[i]
    ensures Value(w, a) != Value(w, b)
  {
    var p := Pow(w);
    if i == 0 {
    } else {
      assert a[1..][i..] == a[i + 1..] && b[1..][i..] == b[i + 1..];
      ValueOrder(w, a[1..], b[1..], i - 1);
      var x, y := Value(w, a[1..]), Value(w, b[1..]);
      if x < y { Dominates(p, a[0], b[0], x, y); } else { Dominates(p, b[0], a[0], y, x); }
    }
  }

  lemma Dominates(p: nat, a: nat, b: nat, x: nat, y: nat)
    requires a < p && b < p && x < y
    ensures a + p * x < b + p * y
  {
    assert p * (x + 1) <= p * y;
    assert p * (x + 1) == p * x + p;
  }

  // ----- streams -----

  class DataStream {
    var buffer: seq<byte>
    var offset: nat

    constructor ()
      ensures Valid() && Rest() == []
    {
      buffer, offset := [], 0;
    }

    predicate Valid()
      reads this
    {
      offset <= |buffer|
    }

    function Rest(): seq<byte>
      requires Valid()
      reads this
    {
      buffer[offset..]
    }

    /** operator<< for an integer of n bytes, stored little-endian */
    method Put(n: nat, x: nat)
      requires Valid()
      modifies this`buffer
      ensures Valid() && buffer == old(buffer) + Le(n, x) && Rest() == old(Rest()) + Le(n, x)
    {
      buffer := buffer + Le(n, x);
    }

    /** put_data */
    method PutData(d: seq<byte>)
      requires Valid()
      modifies this`buffer
      ensures Valid() && Rest() == old(Rest()) + d
    {
      buffer := buffer + d;
    }

    /** Words in order. */
    method PutWords(w: nat, ws: seq<nat>)
      requires Valid()
      modifies this`buffer
      ensures Valid() && Rest() == old(Rest()) + FromWords(w, ws)
    {
      ghost var before := Rest();
      for i := 0 to |ws|
        invariant Valid() && Rest() == before + FromWords(w, ws[..i])
      {
        SerializeStep(before, w, ws, i);
        Put(w, ws[i]);
      }
      assert ws[..|ws|] == ws;
    }

    /** operator>> for an integer of n bytes: throws, changing nothing, if they are not there */
    method Get(n: nat) returns (ok: bool, x: nat)
      requires Valid()
      modifies this`offset
      ensures Valid() && ok == (old(|Rest()|) >= n)
      ensures ok ==> x < Pow(n) && old(Rest()) == Le(n, x) + Rest() && offset == old(offset) + n
      ensures !ok ==> offset == old(offset)
    {
      if offset + n > |buffer| { return false, 0; }
      var b := buffer[offset..offset + n];
      LeNum(b);
      x := Num(b);
      offset := offset + n;
      ok := true;
    }
  }

  /** One more word read. */
  lemma GetStep(before: seq<byte>, w: nat, ws: seq<nat>, x: nat, rest: seq<byte>)
    requires before == FromWords(w, ws) + (Le(w, x) + rest)
    ensures before == FromWords(w, ws + [x]) + rest
  {
    FromWordsAppend(w, ws, x);
    assert (FromWords(w, ws) + Le(w, x)) + rest == FromWords(w, ws) + (Le(w, x) + rest);
  }

  lemma Short(w: nat, i: nat, len: nat, left: nat)
    requires i < len && left < w
    ensures i * w + left < len * w
  {
    Distribute(i, w);
    assert (i + 1) * w <= len * w;
  }

  // ----- blobs -----

  class Blob {
    const w: nat                  // bytes per word
    const len: nat
    const data: array<nat>
    var loaded: bool

    ghost predicate Valid()
      reads this, data
    {
      w > 0 && len > 0 && data.Length == len && Words(w, data[..])
    }

    constructor (w: nat, len: nat)
      requires w > 0 && len > 0
      ensures Valid() && !loaded && fresh(data) && this.w == w && this.len == len && forall i :: 0 <= i < len ==>
              data[i] == 0
    {
      this.w, this.len, loaded := w, len, false;
      data := new nat[len](_ => 0);
    }

    /** load: from the last byte to the first */
    method Load(arr: seq<byte>)
      requires Valid() && |arr| == len * w
      modifies this`loaded, data
      ensures Valid() && loaded && data[..] == ToWords(w, len, arr)
    {
      var p, pos := len, |arr|;
      LoadStart(w, len, arr);
      while p > 0
        invariant 0 <= p <= len && 0 <= pos <= |arr| && LoadedFrom(w, len, arr, p, pos, data[p..])
      {
        LoadStep(w, len, arr, p, pos, data[p..]);
        ghost var was := data[p..];
        var x := LoadWord(arr, pos - w);
        data[p - 1] := x;
        p, pos := p - 1, pos - w;
        assert data[p..] == [x] + was;
      }
      LoadEnd(w, len, arr, pos, data[0..]);
      assert data[..] == data[0..];
      loaded := true;
    }

    /** The inner loop of load, which builds a word from its highest byte down. */
    method LoadWord(arr: seq<byte>, start: nat) returns (x: nat)
      requires start + w <= |arr|
      ensures x == Num(arr[start..start + w]) && x < Pow(w)
    {
      x := 0;
      var i := start + w;
      while i > start
        invariant start <= i <= start + w && x == Num(arr[i..start + w])
      {
        i := i - 1;
        x := 256 * x + arr[i];
        assert arr[i..start + w][1..] == arr[i + 1..start + w];
      }
    }

    /** serialize: the words in order, or as many zeros if nothing was loaded */
    method Serialize(s: DataStream)
      requires Valid() && s.Valid()
      modifies s`buffer
      ensures s.Valid() && s.Rest() == old(s.Rest()) + FromWords(w, if loaded then data[..] else Zeros(len))
    {
      s.PutWords(w, if loaded then data[..] else Zeros(len));
    }

    /** unserialize: throws if the stream ends early, leaving it where it ended */
    method Unserialize(s: DataStream) returns (ok: bool)
      requires Valid() && s.Valid()
      modifies this`loaded, data, s`offset
      ensures Valid() && s.Valid() && ok == (old(|s.Rest()|) >= len * w)
      ensures ok ==> loaded && old(s.Rest()) == FromWords(w, data[..]) + s.Rest()
    {
      ghost var before := s.Rest();
      for i := 0 to len
        invariant Valid() && s.Valid() && before == FromWords(w, data[..i]) + s.Rest()
      {
        var x;
        ok, x := s.Get(w);
        if !ok {
          Short(w, i, len, |s.Rest()|);
          return;
        }
        GetStep(before, w, data[..i], x, s.Rest());
        data[i] := x;
        assert data[..i + 1] == data[..i] + [x];
      }
      assert data[..len] == data[..];
      ok, loaded := true, true;
    }

    /** operator<: numeric order, decided at the highest word that differs */
    method Less(other: Blob) returns (r: bool)
      requires Valid() && other.Valid() && w == other.w && len == other.len
      ensures r <==> Value(w, data[..]) < Value(w, other.data[..])
    {
      ghost var a, b := data[..], other.data[..];
      var i := len - 1;
      while i > 0
        invariant 0 <= i < len && a[i + 1..] == b[i + 1..]
      {
        if data[i] != other.data[i] {
          ValueOrder(w, a, b, i);
          return data[i] < other.data[i];
        }
        assert a[i..] == [a[i]] + a[i + 1..] && b[i..] == [b[i]] + b[i + 1..];
        i := i - 1;
      }
      if a[0] != b[0] { ValueOrder(w, a, b, 0); } else { assert a == [a[0]] + a[1..] && b == [b[0]] + b[1..]; }
      return data[0] < other.data[0];
    }

    /** operator== */
    method Equal(other: Blob) returns (r: bool)
      requires Valid() && other.Valid() && w == other.w && len == other.len
      ensures r <==> Value(w, data[..]) == Value(w, other.data[..])
    {
      for i := 0 to len
        invariant data[..i] == other.data[..i]
      {
        if data[i] != other.data[i] {
          ValueInjective(w, data[..], other.data[..]);
          return false;
        }
      }
      assert data[..len] == data[..] && other.data[..len] == other.data[..];
      return true;
    }
  }

  /** Different words stand for different numbers, so the order is strict and total. */
  lemma {:induction false} ValueInjective(w: nat, a: seq<nat>, b: seq<nat>)
    requires Words(w, a) && Words(w, b) && |a| == |b| && a != b
    ensures Value(w, a) != Value(w, b)
  {
    var x, y := Value(w, a[1..]), Value(w, b[1..]);
    if a[1..] == b[1..] {
      assert a == [a[0]] + a[1..] && b == [b[0]] + b[1..];
      ValueOrder(w, a, b, 0);
    } else {
      ValueInjective(w, a[1..], b[1..]);
      if x < y { Dominates(Pow(w), a[0], b[0], x, y); } else { Dominates(Pow(w), b[0], a[0], y, x); }
    }
  }

  /** Words p and up are read, from byte pos on. */
  ghost predicate LoadedFrom(w: nat, len: nat, arr: seq<byte>, p: nat, pos: nat, done: seq<nat>) {
    p <= len && pos <= |arr| && pos == p * w && |arr| - pos == (len - p) * w && done == ToWords(w, len - p, arr[pos..])
  }

  lemma LoadStart(w: nat, len: nat, arr: seq<byte>)
    requires |arr| == len * w
    ensures LoadedFrom(w, len, arr, len, |arr|, [])
  {
  }

  lemma LoadStep(w: nat, len: nat, arr: seq<byte>, p: nat, pos: nat, done: seq<nat>)
    requires p > 0 && LoadedFrom(w, len, arr, p, pos, done)
    ensures pos >= w && LoadedFrom(w, len, arr, p - 1, pos - w, [Num(arr[pos - w..pos])] + done)
  {
    Distribute(p - 1, w);
    Distribute(len - p, w);
    assert len - (p - 1) == len - p + 1;
    var b := arr[pos - w..];
    assert b[..w] == arr[pos - w..pos] && b[w..] == arr[pos..];
  }

  lemma Distribute(n: nat, w: nat)
    ensures (n + 1) * w == n * w + w
  {
  }

  lemma LoadEnd(w: nat, len: nat, arr: seq<byte>, pos: nat, done: seq<nat>)
    requires LoadedFrom(w, len, arr, 0, pos, done)
    ensures |arr| == len * w && done == ToWords(w, len, arr)
  {
    assert arr[0..] == arr;
  }

  lemma SerializeStep(before: seq<byte>, w: nat, ws: seq<nat>, i: nat)
    requires i < |ws|
    ensures (before + FromWords(w, ws[..i])) + Le(w, ws[i]) == before + FromWords(w, ws[..i + 1])
  {
    assert ws[..i + 1] == ws[..i] + [ws[i]];
    FromWordsAppend(w, ws[..i], ws[i]);
  }

  function Zeros(n: nat): seq<nat> { seq(n, _ => 0) }

  lemma {:induction false} FromWordsAppend(w: nat, ws: seq<nat>, x: nat)
    ensures FromWords(w, ws + [x]) == FromWords(w, ws) + Le(w, x)
  {
    if ws == [] {
      assert ws + [x] == [x] && [x][1..] == [];
    } else {
      assert (ws + [x])[1..] == ws[1..] + [x];
      FromWordsAppend(w, ws[1..], x);
    }
  }

  // ----- hash lists -----

  /** Hashes of len words each, as loaded blobs hold them. */
  predicate Hashes(w: nat, len: nat, hs: seq<seq<nat>>) {
    forall i :: 0 <= i < |hs| ==> |hs[i]| == len && Words(w, hs[i])
  }

  function Flat(w: nat, hs: seq<seq<nat>>): seq<byte> {
    if hs == [] then [] else FromWords(w, hs[0]) + Flat(w, hs[1..])
  }

  lemma {:induction false} FlatAppend(w: nat, hs: seq<seq<nat>>, h: seq<nat>)
    ensures Flat(w, hs + [h]) == Flat(w, hs) + FromWords(w, h)
  {
    if hs == [] {
      assert hs + [h] == [h] && [h][1..] == [];
    } else {
      assert (hs + [h])[1..] == hs[1..] + [h];
      FlatAppend(w, hs[1..], h);
    }
  }

  lemma {:induction false} FlatSize(w: nat, len: nat, hs: seq<seq<nat>>)
    requires Hashes(w, len, hs)
    ensures |Flat(w, hs)| == |hs| * (len * w)
  {
    if hs != [] {
      FlatSize(w, len, hs[1..]);
      Distribute(|hs| - 1, len * w);
    }
  }

  /** gen_hash_list: the number of hashes, cut to 32 bits, and the hashes */
  method GenHashList(s: DataStream, w: nat, hs: seq<seq<nat>>)
    requires s.Valid()
    modifies s`buffer
    ensures s.Valid() && s.Rest() == old(s.Rest()) + (Le(4, |hs| % WORD) + Flat(w, hs))
  {
    ghost var before := s.Rest();
    s.Put(4, |hs| % WORD);
    ghost var start := s.Rest();
    for i := 0 to |hs|
      invariant s.Valid() && s.Rest() == start + Flat(w, hs[..i])
    {
      FlatStep(start, w, hs, i);
      s.PutWords(w, hs[i]);
    }
    assert hs[..|hs|] == hs;
    assert (before + Le(4, |hs| % WORD)) + Flat(w, hs) == before + (Le(4, |hs| % WORD) + Flat(w, hs));
  }

  lemma FlatStep(start: seq<byte>, w: nat, hs: seq<seq<nat>>, i: nat)
    requires i < |hs|
    ensures (start + Flat(w, hs[..i])) + FromWords(w, hs[i]) == start + Flat(w, hs[..i + 1])
  {
    assert hs[..i + 1] == hs[..i] + [hs[i]];
    FlatAppend(w, hs[..i], hs[i]);
  }

  /** A whole list is there: its length, and as many hashes. */
  predicate WholeList(w: nat, len: nat, b: seq<byte>) { |b| >= 4 && |b| - 4 >= Num(b[..4]) * (len * w) }

  /** parse_hash_list: throws exactly when the list is cut short, and otherwise stops right after it */
  method ParseHashList(s: DataStream, w: nat, len: nat) returns (ok: bool, hs: seq<seq<nat>>)
    requires s.Valid() && w > 0 && len > 0
    modifies s`offset
    ensures s.Valid() && ok == WholeList(w, len, old(s.Rest()))
    ensures ok ==> |hs| < WORD && Hashes(w, len, hs) && old(s.Rest()) == Le(4, |hs|) + (Flat(w, hs) + s.Rest())
  {
    hs := [];
    ghost var before := s.Rest();
    var n;
    ok, n := s.Get(4);
    if !ok { return; }
    Pow4();
    NumLe(4, n);
    ghost var list := s.Rest();
    assert before[..4] == Le(4, n) && |before| - 4 == |list|;
    for i := 0 to n
      invariant s.Valid() && |hs| == i && Hashes(w, len, hs) && list == Flat(w, hs) + s.Rest()
    {
      var b := new Blob(w, len);
      ghost var left := s.Rest();
      ok := b.Unserialize(s);
      if !ok {
        FlatSize(w, len, hs);
        Short(len * w, i, n, |left|);
        return;
      }
      ParseStep(list, w, hs, b.data[..], s.Rest());
      hs := hs + [b.data[..]];
    }
    FlatSize(w, len, hs);
    ok := true;
  }

  lemma ParseStep(list: seq<byte>, w: nat, hs: seq<seq<nat>>, h: seq<nat>, rest: seq<byte>)
    requires list == Flat(w, hs) + (FromWords(w, h) + rest)
    ensures list == Flat(w, hs + [h]) + rest
  {
    FlatAppend(w, hs, h);
    assert (Flat(w, hs) + FromWords(w, h)) + rest == Flat(w, hs) + (FromWords(w, h) + rest);
  }

  lemma WordsUnique(w: nat, a: seq<nat>, x: seq<byte>, b: seq<nat>, y: seq<byte>)
    requires Words(w, a) && Words(w, b) && |a| == |b| && FromWords(w, a) + x == FromWords(w, b) + y
    ensures a == b && x == y
  {
    ToFrom(w, a, x);
    ToFrom(w, b, y);
    var n := |FromWords(w, a)|;
    assert x == (FromWords(w, a) + x)[n..] && y == (FromWords(w, b) + y)[n..];
  }

  /** A list of hashes can be read back in one way only. */
  lemma {:induction false} FlatUnique(w: nat, len: nat, a: seq<seq<nat>>, x: seq<byte>, b: seq<seq<nat>>, y: seq<byte>)
    requires Hashes(w, len, a) && Hashes(w, len, b) && |a| == |b| && Flat(w, a) + x == Flat(w, b) + y
    ensures a == b && x == y
  {
    if a == [] {
      assert Flat(w, a) + x == x && Flat(w, b) + y == y;
    } else {
      FlatHead(w, a, x);
      FlatHead(w, b, y);
      WordsUnique(w, a[0], Flat(w, a[1..]) + x, b[0], Flat(w, b[1..]) + y);
      FlatUnique(w, len, a[1..], x, b[1..], y);
      assert a == [a[0]] + a[1..] && b == [b[0]] + b[1..];
    }
  }

  lemma FlatHead(w: nat, a: seq<seq<nat>>, x: seq<byte>)
    requires a != []
    ensures Flat(w, a) + x == FromWords(w, a[0]) + (Flat(w, a[1..]) + x)
  {
    assert (FromWords(w, a[0]) + Flat(w, a[1..])) + x == FromWords(w, a[0]) + (Flat(w, a[1..]) + x);
  }

  lemma ListUnique(w: nat, len: nat, a: seq<seq<nat>>, x: seq<byte>, b: seq<seq<nat>>, y: seq<byte>)
    requires Hashes(w, len, a) && Hashes(w, len, b) && |a| < WORD && |b| < WORD
    requires Le(4, |a|) + (Flat(w, a) + x) == Le(4, |b|) + (Flat(w, b) + y)
    ensures a == b && x == y
  {
    Pow4();
    NumLe(4, |a|);
    NumLe(4, |b|);
    var s, t := Le(4, |a|) + (Flat(w, a) + x), Le(4, |b|) + (Flat(w, b) + y);
    assert s[..4] == Le(4, |a|) && t[..4] == Le(4, |b|) && s[4..] == Flat(w, a) + x && t[4..] == Flat(w, b) + y;
    FlatUnique(w, len, a, x, b, y);
  }

  lemma ListIsWhole(w: nat, len: nat, hs: seq<seq<nat>>, rest: seq<byte>)
    requires Hashes(w, len, hs) && |hs| < WORD
    ensures WholeList(w, len, Le(4, |hs|) + (Flat(w, hs) + rest))
  {
    FlatSize(w, len, hs);
    Pow4();
    NumLe(4, |hs|);
    assert (Le(4, |hs|) + (Flat(w, hs) + rest))[..4] == Le(4, |hs|);
  }

  lemma Join(a: seq<byte>, b: seq<byte>, c: seq<byte>)
    ensures ([] + (a + b)) + c == a + (b + c)
  {
  }

  /** A stream holding a list and what follows it. */
  method ListStream(w: nat, hs: seq<seq<nat>>, rest: seq<byte>) returns (s: DataStream)
    requires |hs| < WORD
    ensures fresh(s) && s.Valid() && s.Rest() == Le(4, |hs|) + (Flat(w, hs) + rest)
  {
    ghost var count, list := Le(4, |hs|), Flat(w, hs);
    assert |hs| % WORD == |hs|;
    s := new DataStream();
    GenHashList(s, w, hs);
    assert s.Rest() == [] + (count + list);
    s.PutData(rest);
    Join(count, list, rest);
  }

  /** parse_hash_list inverts gen_hash_list for every list shorter than 2^32, and leaves exactly what followed it. */
  method HashListRoundTrip(w: nat, len: nat, hs: seq<seq<nat>>, rest: seq<byte>)
    returns (ok: bool, back: seq<seq<nat>>, left: seq<byte>)
    requires w > 0 && len > 0 && Hashes(w, len, hs) && |hs| < WORD
    ensures ok && back == hs && left == rest
  {
    ListIsWhole(w, len, hs, rest);
    var s := ListStream(w, hs, rest);
    ok, back := ParseHashList(s, w, len);
    left := s.Rest();
    ListUnique(w, len, hs, rest, back, left);
  }
}
