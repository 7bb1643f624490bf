/** Block descriptors: the BlockInfo record that heads every stream packet, and its
    eighteen byte packet form.
  */
module Blocks {
  import opened Words

  const STATUS_PIECE: u8 := 1
  const STATUS_SIMPLEBLOCK: u8 := 2
  const STATUS_BLOCK: u8 := 3
  const STATUS_INIT: u8 := 5

  const BLOCKINFO_BYTES := 18
  const MAX_BLOCK_BYTES := 1000
  const FIRST_BLOCK_SEQ := 1

  /** pos: offset of the block from the start of its cluster; number: position of the block
      in its cluster; bytes: its length. The piece fields describe an element too large for
      one block. (The C field `seq` is called number here.) */
  datatype BlockInfo = BlockInfo(
    pos: u32, number: u32, bytes: u16, totalPieceBytes: u16, clusterSeq: u16,
    totalPieces: u8, pieceSeq: u8, status: u8, layer: u8)

  /** What bzero leaves. */
  const NO_BLOCK := BlockInfo(0, 0, 0, 0, 0, 0, 0, 0, 0)

  const BLOCKINFO_START: seq<u8> := Filled(BLOCKINFO_BYTES, 0)
  const BLOCKINFO_END: seq<u8> := Filled(BLOCKINFO_BYTES, 0xff)

  /** CopyBlockInfoToBytes. */
  function Encode(i: BlockInfo): (s: seq<u8>)
    ensures |s| == BLOCKINFO_BYTES
  {
    ToBE(i.pos, 4) + ToBE(i.number, 4) + ToBE(i.bytes, 2) + ToBE(i.totalPieceBytes, 2)
    + ToBE(i.clusterSeq, 2) + [i.totalPieces, i.pieceSeq, i.status, i.layer]
  }

  function Field(s: seq<u8>, at: nat, n: nat): (v: nat)
    requires at + n <= |s|
    ensures v < Pow256(n)
  {
    FromBEBound(s[at..at + n]);
    FromBE(s[at..at + n])
  }

  /** CopyBytesToBlockInfo. */
  function Decode(s: seq<u8>): BlockInfo
    requires |s| >= BLOCKINFO_BYTES
  {
    assert Pow256(2) == 0x1_0000 && Pow256(4) == TWO_32;
    BlockInfo(Field(s, 0, 4), Field(s, 4, 4), Field(s, 8, 2), Field(s, 10, 2), Field(s, 12, 2),
              s[14], s[15], s[16], s[17])
  }

  lemma FieldOf(s: seq<u8>, at: nat, n: nat, v: nat)
    requires at + n <= |s| && s[at..at + n] == ToBE(v, n) && v < Pow256(n)
    ensures Field(s, at, n) == v
  {
    FromToBE(v, n);
  }

  lemma DecodeEncode(i: BlockInfo, tail: seq<u8>)
    ensures Decode(Encode(i) + tail) == i
  {
    hide Field, ToBE;
    var s := Encode(i) + tail;
    Widths();
    assert s[0..4] == ToBE(i.pos, 4) && s[4..8] == ToBE(i.number, 4);
    assert s[8..10] == ToBE(i.bytes, 2) && s[10..12] == ToBE(i.totalPieceBytes, 2);
    assert s[12..14] == ToBE(i.clusterSeq, 2);
    FieldOf(s, 0, 4, i.pos);
    FieldOf(s, 4, 4, i.number);
    FieldOf(s, 8, 2, i.bytes);
    FieldOf(s, 10, 2, i.totalPieceBytes);
    FieldOf(s, 12, 2, i.clusterSeq);
  }

  lemma Widths()
    ensures Pow256(2) == 0x1_0000 && Pow256(4) == TWO_32
  {
  }

  lemma FieldQuad(s: seq<u8>, at: nat)
    requires at + 4 <= |s|
    ensures Field(s, at, 4) == Quad(s[at], s[at + 1], s[at + 2], s[at + 3])
  {
    BEQuad(s[at], s[at + 1], s[at + 2], s[at + 3]);
    assert s[at..at + 4] == [s[at], s[at + 1], s[at + 2], s[at + 3]];
  }

  lemma FieldPair(s: seq<u8>, at: nat)
    requires at + 2 <= |s|
    ensures Field(s, at, 2) == Pair(s[at], s[at + 1])
  {
    BEPair(s[at], s[at + 1]);
    assert s[at..at + 2] == [s[at], s[at + 1]];
  }

  /** Where the packet form has each field: those of more than one byte most significant byte
      first. Other descriptors have other bytes, so this goes for what is written too. */
  lemma FieldPlaces(s: seq<u8>)
    requires |s| == 18
    ensures Encode(Decode(s)) == s
    ensures var i := Decode(s);
            && i.pos == Quad(s[0], s[1], s[2], s[3])
            && i.number == Quad(s[4], s[5], s[6], s[7])
            && i.bytes == Pair(s[8], s[9])
            && i.totalPieceBytes == Pair(s[10], s[11])
            && i.clusterSeq == Pair(s[12], s[13])
            && i.totalPieces == s[14] && i.pieceSeq == s[15] && i.status == s[16] && i.layer == s[17]
  {
    hide Field, Encode;
    EncodeDecode(s);
    FieldQuad(s, 0);
    FieldQuad(s, 4);
    FieldPair(s, 8);
    FieldPair(s, 10);
    FieldPair(s, 12);
  }

  lemma EncodeDecode(s: seq<u8>)
    requires |s| == BLOCKINFO_BYTES
    ensures Encode(Decode(s)) == s
  {
    ToFromBE(s[0..4]);
    ToFromBE(s[4..8]);
    ToFromBE(s[8..10]);
    ToFromBE(s[10..12]);
    ToFromBE(s[12..14]);
    assert s == s[0..4] + s[4..8] + s[8..10] + s[10..12] + s[12..14] + s[14..];
  }

  /** The status byte alone keeps real blocks apart from the stream markers. */
  lemma NoSentinelCollision(i: BlockInfo)
    requires i.status in {STATUS_PIECE, STATUS_SIMPLEBLOCK, STATUS_BLOCK}
    ensures Encode(i) != BLOCKINFO_START && Encode(i) != BLOCKINFO_END
  {
    assert Encode(i)[16] == i.status;
    assert BLOCKINFO_START[16] == 0 && BLOCKINFO_END[16] == 0xff;
  }
}
