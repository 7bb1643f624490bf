/** Packets that come again: which ones a peer drops, and that dropping is all there is to it. */
module Repeats {
  import opened Words
  import opened Ebml
  import opened Blocks
  import opened Timecodes
  import opened Partition
  import opened Clips
  import opened Files
  import opened Peers
  import opened Assembly
  import opened Reception
  import opened Totals
  import opened Adoption

  /** A peer that joined at cluster first and has j blocks of cluster n drops block k of cluster
      m: one of a cluster before the last closed one, which is taken to be 0 while there is
      none, or one of that with a number up to that of the latest block. */
  predicate Dropped(first: nat, n: nat, j: nat, m: nat, k: nat) {
    var closed := if n > first then n - 1 else 0;
    m < closed || (m == closed && k + 1 <= j)
  }

  /** Those and no others are old, whatever the time base they come with, and change nothing. */
  lemma DroppedExactly(s: State, header: seq<u8>, clip: seq<seq<seq<u8>>>, first: nat, n: nat, j: nat,
                       m: nat, k: nat, base: u64)
    requires IsClip(clip) && Receiving(s, header, clip, first, n, j)
    requires m < |clip| && k < |BlocksOf(clip, m)| && base <= Time(clip, m)
    ensures FileOk(s) && |s.infos| > 0
    ensures var p := PacketOf(clip, m, base, k);
            && WellFormed(p) && IsBlock(p)
            && (IsOld(s, Decode(p)) <==> Dropped(first, n, j, m, k))
            && (Dropped(first, n, j, m, k) ==> Assemble(s, p) == s)
  {
    hide IsClip, BlocksOf, GoodPayload, Time, ShapeAt, Holds, Accept, Wellmade, WellFormed, PacketOf;
    ReceivingFields(s, header, clip, first, n, j);
    PacketShape(clip, m, base, k);
    BlocksOfShape(clip, m);
    NoMarkers(PacketOf(clip, m, base, k));
  }

  /** A block of any other cluster than the open one is without effect if and only if it is
      dropped: a late one that is not closes the open cluster and opens its own again. */
  lemma RepeatIsHarmless(s: State, header: seq<u8>, clip: seq<seq<seq<u8>>>, first: nat, n: nat, j: nat,
                         m: nat, k: nat, base: u64)
    requires IsClip(clip) && Receiving(s, header, clip, first, n, j)
    requires m < |clip| && k < |BlocksOf(clip, m)| && base <= Time(clip, m) && m != n
    ensures FileOk(s) && |s.infos| > 0 && WellFormed(PacketOf(clip, m, base, k))
    ensures Assemble(s, PacketOf(clip, m, base, k)) == s <==> Dropped(first, n, j, m, k)
    ensures !Dropped(first, n, j, m, k) ==> Assemble(s, PacketOf(clip, m, base, k)).cluster.number == m
  {
    hide IsClip, BlocksOf, GoodPayload, Time, ShapeAt, Holds, Accept, Wellmade, WellFormed, PacketOf, Assemble,
         Retimable, ChankAt, IsOld, IsBlock, Decode;
    DroppedExactly(s, header, clip, first, n, j, m, k, base);
    ReceivingFields(s, header, clip, first, n, j);
    PacketShape(clip, m, base, k);
    BlocksOfShape(clip, m);
    if !Dropped(first, n, j, m, k) {
      AssembleIsAccept(s, PacketOf(clip, m, base, k));
      AcceptOpens(s, PacketOf(clip, m, base, k));
    }
  }

  /** A block of another cluster than the one before opens its cluster. */
  lemma AcceptOpens(s: State, p: seq<u8>)
    requires FileOk(s) && |s.infos| > 0 && WellFormed(p) && IsBlock(p) && s.running
    requires Decode(p).clusterSeq != s.prevBlock.clusterSeq
    requires Decode(p).number == FIRST_BLOCK_SEQ ==>
               Retimable(p[BLOCKINFO_BYTES..]) && ChankAt(p[BLOCKINFO_BYTES..]).id == TIMECODE_ID
    ensures Accept(s, p).cluster.number == Decode(p).clusterSeq
  {
    hide ChankAt, HasHeader, PacketStamp, WithStamp, Decode, IsBlock, Overwrite, ToBE, SumBytes;
  }

  /** A block of the open cluster is never recognised as one that is there, but for cluster 0:
      if it has any bytes they are written once more. */
  lemma OpenRepeatIsWritten(s: State, header: seq<u8>, clip: seq<seq<seq<u8>>>, first: nat, n: nat, j: nat,
                            k: nat, base: u64)
    requires IsClip(clip) && Receiving(s, header, clip, first, n, j) && |header| < 0x1_0000
    requires n < |clip| && k < |BlocksOf(clip, n)| && base <= Time(clip, n) && BlocksOf(clip, n)[k].bytes > 0
    ensures FileOk(s) && |s.infos| > 0 && WellFormed(PacketOf(clip, n, base, k))
    ensures var w := Assemble(s, PacketOf(clip, n, base, k));
            if n == 0 && k + 1 <= j then w == s else |w.file| == |s.file| + BlocksOf(clip, n)[k].bytes
  {
    hide IsClip, BlocksOf, GoodPayload, Time, ShapeAt, Holds, Accept, Wellmade, WellFormed, PacketOf, Assemble,
         Retimable, ChankAt, IsOld, IsBlock, Decode, Grown;
    DroppedExactly(s, header, clip, first, n, j, n, k, base);
    ReceivingFields(s, header, clip, first, n, j);
    PacketShape(clip, n, base, k);
    BlocksOfShape(clip, n);
    var p := PacketOf(clip, n, base, k);
    if !Dropped(first, n, j, n, k) {
      AssembleIsAccept(s, p);
      var shape := HeldShape(s, header, clip, first, n, j);
      AcceptHolds(s, p, header, shape);
      AcceptRuns(s, p);
      GrownExactly(s, p, header, shape);
      StaysOpen(s, p, shape);
    }
  }

  lemma AcceptRuns(s: State, p: seq<u8>)
    requires FileOk(s) && |s.infos| > 0 && WellFormed(p) && IsBlock(p) && s.running
    requires Decode(p).number == FIRST_BLOCK_SEQ ==>
               Retimable(p[BLOCKINFO_BYTES..]) && ChankAt(p[BLOCKINFO_BYTES..]).id == TIMECODE_ID
    ensures Accept(s, p).running
  {
    hide ChankAt, HasHeader, PacketStamp, WithStamp, Decode, IsBlock, Overwrite, ToBE, SumBytes;
  }

  lemma StaysOpen(s: State, p: seq<u8>, shape: Shape)
    requires FileOk(s) && WellFormed(p) && IsBlock(p) && s.prevBlock.clusterSeq == Decode(p).clusterSeq
    ensures Grown(s, p, shape).closed == shape.closed
  {
    hide Written, Decode;
  }
}
