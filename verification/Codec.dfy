/**
 * Little-endian integers and the message header (class MsgBase in include/salticidae/msg.h), for one-byte
 * opcodes and with checksums enabled.  The checksum itself, SHA-1 truncated to four bytes, is a parameter.
 */
module Codec {
  import opened SegBuffers

  // ----- little-endian integers -----

  function Pow(n: nat): (r: nat)
    ensures r > 0
  {
    if n == 0 then 1 else 256 * Pow(n - 1)
  }

  /** The n low-order bytes of x, lowest first. */
  function Le(n: nat, x: nat): (r: seq<byte>)
    ensures |r| == n
  {
    if n == 0 then [] else [x % 256] + Le(n - 1, x / 256)
  }

  /** The number a little-endian byte string denotes. */
  function Num(b: seq<byte>): (r: nat)
    ensures r < Pow(|b|)
  {
    if b == [] then 0 else b[0] + 256 * Num(b[1..])
  }

  lemma {:induction false} NumLe(n: nat, x: nat)
    requires x < Pow(n)
    ensures Num(Le(n, x)) == x
  {
    if n > 0 {
      assert Le(n, x)[1..] == Le(n - 1, x / 256);
      NumLe(n - 1, x / 256);
    }
  }

  lemma {:induction false} LeNum(b: seq<byte>)
    ensures Le(|b|, Num(b)) == b
  {
    if b != [] {
      LeNum(b[1..]);
      assert b == [b[0]] + b[1..];
    }
  }

  lemma Pow4()
    ensures Pow(4) == 0x1_0000_0000 && Pow(1) == 256
  {
    assert Pow(1) == 256 && Pow(2) == 65536 && Pow(3) == 16777216;
  }

  // ----- headers -----

  const WORD: nat := 0x1_0000_0000
  const HEADER_SIZE: nat := 13

  datatype Header = Header(magic: nat, opcode: byte, length: nat, checksum: nat) {
    predicate Valid() { magic < WORD && length < WORD && checksum < WORD }
  }

  datatype Msg = Msg(header: Header, payload: seq<byte>)

  function PrintHeader(h: Header): (r: seq<byte>)
    ensures |r| == HEADER_SIZE
  {
    Le(4, h.magic) + [h.opcode] + Le(4, h.length) + Le(4, h.checksum)
  }

  /** serialize */
  function Serialize(m: Msg): seq<byte> { PrintHeader(m.header) + m.payload }

  /** The constructor from a stream holding a header. */
  function ParseHeader(b: seq<byte>): (h: Header)
    requires |b| == HEADER_SIZE
  {
    Header(Num(b[..4]), b[4], Num(b[5..9]), Num(b[9..13]))
  }

  /** Parsing inverts printing. */
  lemma ParsePrint(h: Header)
    requires h.Valid()
    ensures ParseHeader(PrintHeader(h)) == h
  {
    Pow4();
    NumLe(4, h.magic);
    NumLe(4, h.length);
    NumLe(4, h.checksum);
    var b := PrintHeader(h);
    assert b[..4] == Le(4, h.magic) && b[4] == h.opcode && b[5..9] == Le(4, h.length) && b[9..13] == Le(4, h.checksum);
  }

  /** Printing inverts parsing: no two headers of a kind share an encoding. */
  lemma PrintParse(b: seq<byte>)
    requires |b| == HEADER_SIZE
    ensures ParseHeader(b).Valid() && PrintHeader(ParseHeader(b)) == b
  {
    Pow4();
    LeNum(b[..4]);
    LeNum(b[5..9]);
    LeNum(b[9..13]);
    assert b == b[..4] + [b[4]] + b[5..9] + b[9..13];
  }
}
