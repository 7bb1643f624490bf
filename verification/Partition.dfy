/** What the blocks of a cluster add up to: the exact partition of the payload, and the
    accounting of pieces.
  */
module Partition {
  import opened Words
  import opened Ebml
  import opened Blocks
  import opened Segmentation
  import opened Plan

  function Total(bs: seq<BlockInfo>): nat {
    if bs == [] then 0 else bs[0].bytes + Total(bs[1..])
  }

  lemma {:induction false} TotalSplit(bs: seq<BlockInfo>, k: nat)
    requires k <= |bs|
    ensures Total(bs) == Total(bs[..k]) + Total(bs[k..])
  {
    if k == 0 {
      assert bs[..0] == [] && bs[0..] == bs;
    } else {
      TotalSplit(bs[1..], k - 1);
      assert bs[..k][1..] == bs[1..][..k - 1] && bs[1..][k - 1..] == bs[k..];
    }
  }

  /** Consecutive numbers from number, contiguous positions from pos. */
  ghost predicate Contiguous(bs: seq<BlockInfo>, number: nat, pos: nat) {
    forall i :: 0 <= i < |bs| ==> bs[i].number == number + i && bs[i].pos == pos + Total(bs[..i])
  }

  lemma ContiguousCons(b: BlockInfo, rest: seq<BlockInfo>)
    requires Contiguous(rest, b.number + 1, b.pos + b.bytes)
    ensures Contiguous([b] + rest, b.number, b.pos)
  {
    var bs := [b] + rest;
    forall i | 0 <= i < |bs| ensures bs[i].number == b.number + i && bs[i].pos == b.pos + Total(bs[..i]) {
      if i > 0 {
        assert bs[..i][1..] == rest[..i - 1];
      }
    }
  }

  /** Facts every block of a cut cluster satisfies. */
  predicate Wellmade(b: BlockInfo, clusterSeq: u16) {
    && b.bytes <= 1000
    && b.clusterSeq == clusterSeq
    && b.status in {1, 2, 3}
  }

  lemma {:induction false} CutAllContiguous(prev: BlockInfo, left: nat, sizes: seq<nat>)
    requires Tracks(prev, left) && WellSized(prev.status == STATUS_INIT, sizes)
    requires var first := Successor(prev);
             first.pos + left + Sum(sizes) < TWO_32 && first.number + left + Sum(sizes) < TWO_32
    ensures var bs := CutAll(prev, left, sizes);
            && Contiguous(bs, Successor(prev).number, Successor(prev).pos)
            && Total(bs) == left + Sum(sizes)
            && (forall i :: 0 <= i < |bs| ==> Wellmade(bs[i], prev.clusterSeq))
            && (forall i :: 0 <= i < |bs| - 1 ==> bs[i].bytes > 0)
    decreases left + Sum(sizes)
  {
    hide Sum, WellSized, Tracks, Cut, CutAll, Successor, Contiguous;
    CutInvariant(prev, left, sizes);
    var c := Cut(prev, left, sizes);
    CutSuccessor(prev, left, sizes);
    CutAllUnfold(prev, left, sizes);
    if c.status == CLUSTER_END {
      SumEmpty(c.sizes);
      ContiguousOne(c.info);
    } else {
      var rest := CutAll(c.info, c.left, c.sizes);
      SuccessorInRange(c.info);
      CutAllContiguous(c.info, c.left, c.sizes);
      ContiguousCons(c.info, rest);
      assert ([c.info] + rest)[1..] == rest;
    }
  }

  lemma ContiguousOne(b: BlockInfo)
    ensures Contiguous([b], b.number, b.pos) && Total([b]) == b.bytes
  {
  }

  lemma SuccessorInRange(prev: BlockInfo)
    requires prev.status != STATUS_INIT && prev.pos + prev.bytes < TWO_32 && prev.number + 1 < TWO_32
    ensures Successor(prev).pos == prev.pos + prev.bytes && Successor(prev).number == prev.number + 1
  {
  }

  lemma CutAllUnfold(prev: BlockInfo, left: nat, sizes: seq<nat>)
    requires Tracks(prev, left) && WellSized(prev.status == STATUS_INIT, sizes)
    ensures var c := Cut(prev, left, sizes);
            && SoundCut(prev, left, sizes, c)
            && CutAll(prev, left, sizes)
               == if c.status == CLUSTER_END then [c.info] else [c.info] + CutAll(c.info, c.left, c.sizes)
  {
    hide Tracks, WellSized, Cut, Sum;
    CutInvariant(prev, left, sizes);
  }

  lemma CutSuccessor(prev: BlockInfo, left: nat, sizes: seq<nat>)
    ensures var b := Cut(prev, left, sizes).info;
            && b.number == Successor(prev).number && b.pos == Successor(prev).pos
            && b.clusterSeq == prev.clusterSeq && b.layer == 0
  {
    hide Greedy, Sum, FillStatus, CeilDiv, U32, U16, U8;
  }

  /** Exact partition: the blocks of a cluster are numbered from 1, start behind the
      twelve byte header, lie end to end, carry at most 1000 bytes each, and carry exactly
      the payload; only the last one may be empty. */
  lemma ExactPartition(clusterSeq: u16, sizes: seq<nat>)
    requires WellSized(true, sizes) && CLUSTER_HEADER_BYTES + Sum(sizes) < TWO_32
    ensures var bs := CutAll(ClusterStart(clusterSeq), 0, sizes);
            && Contiguous(bs, 1, 12)
            && Total(bs) == Sum(sizes)
            && (forall i :: 0 <= i < |bs| ==> Wellmade(bs[i], clusterSeq))
            && (forall i :: 0 <= i < |bs| - 1 ==> bs[i].bytes > 0)
  {
    CutAllContiguous(ClusterStart(clusterSeq), 0, sizes);
  }

  /** What the next block is, by what fits. A unit is cut up exactly when what must start the
      block does not fit a block; its pieces but the last are full. Any other block ends where
      the next element does not fit, and the end of the cluster is told exactly when its ID
      fits behind the last element. */
  ghost predicate FullCut(prev: BlockInfo, left: nat, sizes: seq<nat>, c: Planned) {
    var n := |sizes| - |c.sizes|;
    && 0 <= n <= |sizes| && c.sizes == sizes[n..]
    && c.info.bytes + c.left == left + Sum(sizes[..n])
    && (c.left > 0 ==> c.info.status == 1 && c.info.bytes == 1000)
    && (c.left == 0 && c.sizes != [] ==> c.info.bytes + c.sizes[0] > 1000)
    && (c.status == CLUSTER_END <==> c.left == 0 && c.sizes == [] && c.info.bytes + 4 <= 1000)
    && (left > 0 ==> (c.left > 0 <==> left > 1000) && (c.left > 0 ==> n == 0))
    && (left == 0 ==> (c.left > 0 <==> StartsLarge(prev.status == 5, sizes)))
    && (left == 0 && c.left > 0 ==> c.info.pieceSeq == 1 && n == if sizes[0] > 1000 then 1 else 2)
    && (left == 0 && c.left == 0 ==> c.info.status == 2)
  }

  lemma CutIsFull(prev: BlockInfo, left: nat, sizes: seq<nat>)
    requires Tracks(prev, left) && WellSized(prev.status == STATUS_INIT, sizes)
    ensures FullCut(prev, left, sizes, Cut(prev, left, sizes))
  {
    if left > MAX_BLOCK_BYTES {
      assert sizes[..0] == [];
    } else if left > 0 {
      FullLast(prev, left, sizes);
    } else if StartsUnit(prev, sizes) {
      FullUnit(prev, sizes);
    } else {
      FullWhole(prev, sizes);
    }
  }

  lemma FullLast(prev: BlockInfo, left: nat, sizes: seq<nat>)
    requires 0 < left <= MAX_BLOCK_BYTES
    ensures FullCut(prev, left, sizes, Cut(prev, left, sizes))
  {
    hide U32, U16, Successor, Sum, Greedy;
    Behind(sizes, Greedy(sizes, MAX_BLOCK_BYTES - left));
  }

  /** The elements taken are told by those left. */
  lemma Behind(sizes: seq<nat>, k: nat)
    requires k <= |sizes|
    ensures |sizes| - |sizes[k..]| == k
    ensures sizes[k..] == [] <==> k == |sizes|
    ensures k < |sizes| ==> sizes[k..][0] == sizes[k]
  {
  }

  lemma FullUnit(prev: BlockInfo, sizes: seq<nat>)
    requires StartsUnit(prev, sizes) && WellSized(prev.status == STATUS_INIT, sizes)
    ensures FullCut(prev, 0, sizes, Cut(prev, 0, sizes))
  {
    hide U32, U16, U8, Successor, Greedy, Sum;
    var k := Greedy(sizes, MAX_BLOCK_BYTES);
    UnitBound(prev, sizes);
    Behind(sizes, k + 1);
    SumSnoc(sizes, k);
    SumOfTwo(sizes);
  }

  lemma FullWhole(prev: BlockInfo, sizes: seq<nat>)
    requires !StartsUnit(prev, sizes) && WellSized(prev.status == STATUS_INIT, sizes)
    ensures FullCut(prev, 0, sizes, Cut(prev, 0, sizes))
  {
    hide U32, U16, U8, Successor, Greedy, Sum;
    var k := Greedy(sizes, MAX_BLOCK_BYTES);
    Behind(sizes, k);
    SumOfTwo(sizes);
    SumFromFront(sizes, k);
  }

  lemma SumSnoc(s: seq<nat>, k: nat)
    requires k < |s|
    ensures Sum(s[..k + 1]) == Sum(s[..k]) + s[k]
  {
    hide Sum;
    SumSplit(s[..k + 1], k);
    assert s[..k + 1][..k] == s[..k] && s[..k + 1][k..] == [s[k]];
    SumOfOne(s[k]);
  }

  lemma SumOfOne(n: nat)
    ensures Sum([n]) == n
  {
    assert [n][1..] == [];
  }

  lemma SumOfTwo(s: seq<nat>)
    ensures Sum(s[..0]) == 0
    ensures |s| > 0 ==> Sum(s[..1]) == s[0]
    ensures |s| > 1 ==> Sum(s[..2]) == s[0] + s[1]
  {
    if |s| > 0 {
      SumSnoc(s, 0);
    }
    if |s| > 1 {
      SumSnoc(s, 1);
    }
  }

  /** The sum of a prefix is at least that of a shorter one. */
  lemma SumFromFront(s: seq<nat>, k: nat)
    requires k <= |s|
    ensures forall i :: 0 <= i <= k ==> Sum(s[..i]) <= Sum(s[..k])
  {
    hide Sum;
    forall i | 0 <= i <= k ensures Sum(s[..i]) <= Sum(s[..k]) {
      SumSplit(s[..k], i);
      assert s[..k][..i] == s[..i];
    }
  }

  /** A cluster starts with the Timecode and an element, any later block with an element. */
  predicate StartsLarge(opening: bool, sizes: seq<nat>) {
    if opening then |sizes| > 1 && sizes[0] + sizes[1] > 1000 else sizes != [] && sizes[0] > 1000
  }

  /** The pieces of one unit: bs starts with n pieces numbered from piece on, all but the
      last carrying 1000 bytes and the last carrying the remaining left - 1000(n-1) bytes
      and then as many whole elements as fit behind it. The last one tells that elements or
      the end of the cluster follow the unit in its window. */
  ghost predicate Pieces(bs: seq<BlockInfo>, left: nat, sizes: seq<nat>, piece: nat, totalPieces: nat, totalBytes: u16)
    requires left > 0
  {
    var n := (left + 999) / 1000;
    var last := left - 1000 * (n - 1);
    && 1 <= n <= |bs| && 1 <= last <= 1000
    && (forall i :: 0 <= i < n ==>
          && bs[i].pieceSeq == piece + i
          && bs[i].totalPieces == totalPieces && bs[i].totalPieceBytes == totalBytes
          && (i < n - 1 ==> bs[i].status == 1 && bs[i].bytes == 1000))
    && LastOfUnit(bs[n - 1], last, sizes)
  }

  ghost predicate LastOfUnit(b: BlockInfo, last: nat, sizes: seq<nat>)
    requires last <= 1000
  {
    var k := Greedy(sizes, 1000 - last);
    && b.bytes == last + Sum(sizes[..k])
    && b.status == if k > 0 || (sizes == [] && last + 4 <= 1000) then 3 else 1
  }

  lemma PiecesCons(b: BlockInfo, rest: seq<BlockInfo>, left: nat, sizes: seq<nat>)
    requires left > MAX_BLOCK_BYTES && b.status == STATUS_PIECE && b.bytes == MAX_BLOCK_BYTES
    requires Pieces(rest, left - MAX_BLOCK_BYTES, sizes, b.pieceSeq + 1, b.totalPieces, b.totalPieceBytes)
    ensures Pieces([b] + rest, left, sizes, b.pieceSeq, b.totalPieces, b.totalPieceBytes)
  {
    hide Sum, Greedy;
    assert CeilDiv(left, MAX_BLOCK_BYTES) == CeilDiv(left - MAX_BLOCK_BYTES, MAX_BLOCK_BYTES) + 1;
  }

  lemma {:induction false} LaterPieces(prev: BlockInfo, left: nat, sizes: seq<nat>)
    requires left > 0 && Tracks(prev, left) && WellSized(prev.status == STATUS_INIT, sizes)
    ensures Pieces(CutAll(prev, left, sizes), left, sizes, prev.pieceSeq + 1, prev.totalPieces, prev.totalPieceBytes)
    decreases left
  {
    hide Sum, WellSized, FillStatus, StartsUnit, U16, U32, Successor, Greedy, CutAll, LastOfUnit;
    CutAllUnfold(prev, left, sizes);
    var c := Cut(prev, left, sizes);
    if left > MAX_BLOCK_BYTES {
      var rest := CutAll(c.info, c.left, c.sizes);
      LaterPieces(c.info, c.left, c.sizes);
      assert CeilDiv(left, MAX_BLOCK_BYTES) == CeilDiv(c.left, MAX_BLOCK_BYTES) + 1;
      PiecesCons(c.info, rest, left, sizes);
    } else {
      assert CeilDiv(left, MAX_BLOCK_BYTES) == 1;
      LastPieceTells(prev, left, sizes);
    }
  }

  lemma LastPieceTells(prev: BlockInfo, left: nat, sizes: seq<nat>)
    requires 0 < left <= MAX_BLOCK_BYTES
    ensures LastOfUnit(Cut(prev, left, sizes).info, left, sizes)
  {
    hide U16, U32, Successor, Greedy, Sum;
    if sizes == [] {
      SumEmpty(sizes[..0]);
    }
  }

  /** Piece accounting: a unit of T bytes is emitted as exactly ceil(T/1000) blocks, for every
      T up to 255000; its length is recorded modulo 2^16, which still gives the last piece its
      right length. */
  lemma PieceAccounting(prev: BlockInfo, sizes: seq<nat>)
    requires Tracks(prev, 0) && WellSized(prev.status == STATUS_INIT, sizes) && StartsUnit(prev, sizes)
    ensures var k := Greedy(sizes, 1000);
            var T := Sum(sizes[..k]) + sizes[k];
            && T > 1000
            && Pieces(CutAll(prev, 0, sizes), T, sizes[k + 1..], 1, (T + 999) / 1000, T % 0x1_0000)
  {
    hide Sum, FillStatus, U32, Successor, Greedy, CutAll, WellSized, Pieces;
    var k := Greedy(sizes, MAX_BLOCK_BYTES);
    var T := Sum(sizes[..k]) + sizes[k];
    UnitBound(prev, sizes);
    CutAllUnfold(prev, 0, sizes);
    var c := Cut(prev, 0, sizes);
    var rest := CutAll(c.info, c.left, c.sizes);
    LaterPieces(c.info, c.left, c.sizes);
    assert CeilDiv(T, MAX_BLOCK_BYTES) == CeilDiv(c.left, MAX_BLOCK_BYTES) + 1;
    PiecesCons(c.info, rest, T, sizes[k + 1..]);
  }

  /** The piece count fits its u8 field exactly for units of up to 255000 bytes, the bytes of
      the Timecode in front of the element included. */
  lemma PieceCountFits(info: BlockInfo, buf: seq<u8>, req: u16, T: nat)
    requires HasHeader(buf) && info.bytes + ChankAt(buf).chankBytes == T && buf[Width(buf[0])] != 0
    ensures FirstPiece(info, buf, req).totalPieces == CeilDiv(T, MAX_BLOCK_BYTES) <==> T <= MAX_UNIT
  {
    hide ChankAt, HasHeader, Width, CeilDiv, U8;
    ElementBound(buf);
    CountFits(T);
  }

  lemma CountFits(T: nat)
    requires T < 3 * TWO_56
    ensures U64(T) == T
    ensures U8(CeilDiv(T, MAX_BLOCK_BYTES)) == CeilDiv(T, MAX_BLOCK_BYTES) <==> T <= MAX_UNIT
  {
    assert CeilDiv(T, MAX_BLOCK_BYTES) <= 255 <==> T <= MAX_UNIT;
  }

  lemma ElementBound(buf: seq<u8>)
    requires HasHeader(buf) && buf[Width(buf[0])] != 0
    ensures ChankAt(buf).chankBytes < 2 * TWO_56
  {
    NoWrap(buf);
  }

  /** The block after p pieces of an element, by the byte-level machine: reads are
      arbitrary. */
  function PieceAfter(first: BlockInfo, p: nat, windows: nat -> seq<u8>): NextResult {
    if p == 0 then Next(first, 0)
    else
      var r := PieceAfter(first, p - 1, windows);
      if r.Stuck? || |windows(p)| < MAX_BLOCK_BYTES + HEADER_REACH then Stuck
      else NextBlock(NO_BLOCK, r.info, windows(p), MAX_BLOCK_BYTES)
  }

  /** The piece count recorded for an element of T bytes. */
  function Recorded(T: nat): u8 { U8(CeilDiv(T, MAX_BLOCK_BYTES)) }

  /** How many full blocks the machine makes of it before it takes the unit to be finished
      (counts 0 and 1) or the next block to be its last. */
  function FullBlocks(T: nat): (n: nat)
    ensures 1 <= n <= 256
  {
    if Recorded(T) == 0 then 256 else if Recorded(T) == 1 then 1 else Recorded(T) - 1
  }

  /** Beyond 255000 bytes, those of the Timecode in front of the element included, the machine
      goes by the wrapped count: so many blocks of 1000 bytes, and with the last of them it
      believes the unit finished or about to be. */
  lemma {:induction false} UnitTooLarge(info: BlockInfo, buf: seq<u8>, T: nat, windows: nat -> seq<u8>, p: nat)
    requires HasHeader(buf) && info.bytes + ChankAt(buf).chankBytes == T && buf[Width(buf[0])] != 0 && MAX_UNIT < T
    requires info.bytes <= MAX_BLOCK_BYTES && p < FullBlocks(T)
    requires forall i :: |windows(i)| >= MAX_BLOCK_BYTES + HEADER_REACH
    ensures var r := PieceAfter(FirstPiece(info, buf, MAX_BLOCK_BYTES - info.bytes), p, windows);
            && r.Next? && r.status == 0 && r.info.bytes == MAX_BLOCK_BYTES && r.info.status == STATUS_PIECE
            && r.info.totalPieces == Recorded(T) && r.info.pieceSeq == U8(p + 1)
            && (p + 1 == FullBlocks(T) ==>
                  r.info.totalPieces == r.info.pieceSeq || r.info.totalPieces == r.info.pieceSeq + 1)
  {
    hide ChankAt, HasHeader, FirstPiece, OpeningBlock, BoundaryBlock, LastPiece, NextBlock, CeilDiv, Width;
    if p > 0 {
      UnitTooLarge(info, buf, T, windows, p - 1);
      var r := PieceAfter(FirstPiece(info, buf, MAX_BLOCK_BYTES - info.bytes), p - 1, windows);
      NextIsLater(r.info, windows(p), p);
    } else {
      FirstOfTooMany(info, buf, T);
    }
  }

  /** That belief is right for a single length: the blocks made carry all of the element, or
      all but a last block of at most 1000 bytes, only if it has 256000 bytes. */
  lemma BelievesWrongly(T: nat)
    requires MAX_UNIT < T
    ensures var done := MAX_BLOCK_BYTES * FullBlocks(T);
            (if Recorded(T) <= 1 then done == T else done < T <= done + MAX_BLOCK_BYTES) <==> T == 256_000
  {
    var n := CeilDiv(T, MAX_BLOCK_BYTES);
    assert n >= 256 && n == 256 * (n / 256) + Recorded(T);
    assert MAX_BLOCK_BYTES * (n - 1) < T <= MAX_BLOCK_BYTES * n;
  }

  lemma FirstOfTooMany(info: BlockInfo, buf: seq<u8>, T: nat)
    requires HasHeader(buf) && info.bytes + ChankAt(buf).chankBytes == T && MAX_UNIT < T && buf[Width(buf[0])] != 0
    requires info.bytes <= MAX_BLOCK_BYTES
    ensures var f := FirstPiece(info, buf, MAX_BLOCK_BYTES - info.bytes);
            && f.bytes == MAX_BLOCK_BYTES && f.status == STATUS_PIECE
            && f.totalPieces == Recorded(T) && f.pieceSeq == 1 == U8(1)
  {
    hide ChankAt, HasHeader, CeilDiv, Width;
    ElementBound(buf);
    assert U64(T) == T;
  }

  lemma NextIsLater(prev: BlockInfo, buf: seq<u8>, p: nat)
    requires |buf| >= MAX_BLOCK_BYTES + HEADER_REACH && 0 < p < 256
    requires prev.status == STATUS_PIECE && prev.pieceSeq == U8(p)
    requires prev.totalPieces != p && prev.totalPieces != p + 1
    ensures var r := NextBlock(NO_BLOCK, prev, buf, MAX_BLOCK_BYTES);
            && r.Next? && r.status == 0 && r.info.bytes == MAX_BLOCK_BYTES
            && r.info.status == STATUS_PIECE && r.info.totalPieces == prev.totalPieces && r.info.pieceSeq == U8(p + 1)
  {
    hide OpeningBlock, BoundaryBlock, LastPiece;
  }
}
