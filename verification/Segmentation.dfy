/** Cutting a cluster into blocks: the element scan GetChankByBytes and the block state
    machine GetNextBlockByBytes, as functions of the buffer and as the methods that update
    a Block.

    A read buffer has a window of req bytes that the caller filled; what lies behind the
    window is memory the scan may look at but nobody filled.
  */
module Segmentation {
  import opened Words
  import opened Ebml
  import opened Blocks

  const CLUSTER_END := 2
  const ONLY_TIMECODE := 3

  /** Bytes behind the window an element header can reach. */
  const HEADER_REACH := 18

  /** What one turn of the element scan does: stop at the cluster's end, refuse the element,
      find that the u64 position wrapped round to a place it does not advance from, or
      accept the element up to `end` with a new status. */
  datatype Turn = AtEnd | Refused | Wrapped | Accepted(end: nat, status: int)

  function TakeTurn(buf: seq<u8>, req: nat, p: nat): (t: Turn)
    requires p <= req && req + HEADER_REACH <= |buf|
    ensures t.Accepted? ==> p < t.end <= req && t.status in {1, ONLY_TIMECODE}
  {
    var c := ChankAt(buf[p..]);
    var end := U64(p + c.chankBytes);
    if c.id == CLUSTER_ID || c.id == CUE_ID then AtEnd
    else if req < end then Refused
    else if c.id != TIMECODE_ID && c.id != SIMPLEBLOCK_ID then Refused
    else if end <= p then Wrapped
    else Accepted(end, if c.id == TIMECODE_ID then ONLY_TIMECODE else 1)
  }

  /** How the element scan ends: with a status and the bytes it accepted, or by wrapping. */
  datatype ScanResult = Stopped(status: int, bytes: nat) | Backwards

  /** The loop of GetChankByBytes, from position p. */
  function Scan(buf: seq<u8>, req: nat, p: nat, status: int): (r: ScanResult)
    requires p <= req && req + HEADER_REACH <= |buf|
    decreases req - p
  {
    match TakeTurn(buf, req, p)
    case AtEnd => Stopped(CLUSTER_END, p)
    case Refused => Stopped(status, p)
    case Wrapped => Backwards
    case Accepted(end, status') => Scan(buf, req, end, status')
  }

  /** At p the scan looks at a header that runs past the window. */
  predicate Straddles(buf: seq<u8>, req: nat, p: nat)
    requires p <= req && req + HEADER_REACH <= |buf|
  {
    p + HeaderBytes(buf[p..]) > req
  }

  /** Bytes behind the window decide nothing: a Cluster or Cue ID counts only if it lies in
      the window, and no element is accepted, nor the position wrapped, on the strength of a
      header that runs past the window. */
  predicate Clean(buf: seq<u8>, req: nat, p: nat)
    requires p <= req && req + HEADER_REACH <= |buf|
    decreases req - p
  {
    match TakeTurn(buf, req, p)
    case AtEnd => p + Width(buf[p]) <= req
    case Refused => true
    case Wrapped => !Straddles(buf, req, p)
    case Accepted(end, _) => !Straddles(buf, req, p) && Clean(buf, req, end)
  }

  lemma HeaderReach(buf: seq<u8>)
    requires |buf| >= HEADER_REACH
    ensures HasHeader(buf)
  {
  }

  lemma AtEndIsId(buf: seq<u8>, req: nat, p: nat)
    requires p <= req && req + HEADER_REACH <= |buf|
    ensures TakeTurn(buf, req, p) == AtEnd
            <==> IdValue(buf[p..]) == CLUSTER_ID || IdValue(buf[p..]) == CUE_ID
  {
    hide IdValue, VintValue, Width;
  }

  /** The scan by IDs: it ends at a Cluster or Cues and takes a Timecode or a SimpleBlock that
      fits the request. */
  lemma TurnById(buf: seq<u8>, req: nat, p: nat)
    requires p <= req && req + HEADER_REACH <= |buf|
    ensures var t := TakeTurn(buf, req, p);
            var id := IdValue(buf[p..]);
            var end := (p + ChankAt(buf[p..]).chankBytes) % 0x1_0000_0000_0000_0000;
            && (t.AtEnd? <==> id == 0x1f43b675 || id == 0x1c53bb6b)
            && (t.Accepted? <==> (id == 0xe7 || id == 0xa3) && p < end <= req)
            && (t.Accepted? ==> t.end == end && t.status == if id == 0xe7 then 3 else 1)
            && (t.Wrapped? <==> (id == 0xe7 || id == 0xa3) && end <= p)
  {
    hide IdValue, VintValue, Width;
  }

  /** Inside the window equal windows show equal headers and equal IDs. */
  lemma SameWindow(a: seq<u8>, b: seq<u8>, req: nat, p: nat)
    requires p <= req && req + HEADER_REACH <= |a| && req + HEADER_REACH <= |b|
    requires a[..req] == b[..req]
    ensures Straddles(a, req, p) == Straddles(b, req, p)
    ensures !Straddles(a, req, p) ==> TakeTurn(a, req, p) == TakeTurn(b, req, p)
    ensures p + Width(a[p]) <= req <==> p + Width(b[p]) <= req
    ensures p + Width(a[p]) <= req ==> (TakeTurn(a, req, p) == AtEnd <==> TakeTurn(b, req, p) == AtEnd)
  {
    hide TakeTurn, ChankAt;
    SameHeader(a, b, req, p);
    if p < req {
      assert a[p] == a[..req][p] == b[p];
    }
    if p + Width(a[p]) <= req {
      SliceEq(a, b, req, p, Width(a[p]));
      AtEndIsId(a, req, p);
      AtEndIsId(b, req, p);
    }
  }

  lemma SameHeader(a: seq<u8>, b: seq<u8>, req: nat, p: nat)
    requires p <= req && req + HEADER_REACH <= |a| && req + HEADER_REACH <= |b|
    requires a[..req] == b[..req]
    ensures Straddles(a, req, p) == Straddles(b, req, p)
    ensures !Straddles(a, req, p) ==> TakeTurn(a, req, p) == TakeTurn(b, req, p)
  {
    hide ChankAt, Width;
    if !Straddles(a, req, p) {
      SliceEq(a, b, req, p, HeaderBytes(a[p..]));
      ChankAtLocal(a[p..], b[p..]);
    } else if !Straddles(b, req, p) {
      SliceEq(a, b, req, p, HeaderBytes(b[p..]));
      ChankAtLocal(b[p..], a[p..]);
    }
  }

  lemma SliceEq(a: seq<u8>, b: seq<u8>, req: nat, p: nat, n: nat)
    requires p + n <= req <= |a| && req <= |b| && a[..req] == b[..req]
    ensures a[p..][..n] == b[p..][..n]
  {
    assert a[p..][..n] == a[..req][p..p + n];
    assert b[p..][..n] == b[..req][p..p + n];
  }

  /** Window independence, exactly: two buffers with the same window, one of them clean,
      are scanned alike if and only if the other one is clean too. */
  lemma {:induction false} WindowIndependence(a: seq<u8>, b: seq<u8>, req: nat, p: nat, status: int)
    requires p <= req && req + HEADER_REACH <= |a| && req + HEADER_REACH <= |b|
    requires a[..req] == b[..req] && Clean(a, req, p) && status != CLUSTER_END
    ensures Scan(b, req, p, status) == Scan(a, req, p, status) <==> Clean(b, req, p)
    decreases req - p
  {
    SameWindow(a, b, req, p);
    hide TakeTurn, Straddles, Width;
    var t := TakeTurn(b, req, p);
    if t.Accepted? {
      if Straddles(b, req, p) {
        ScanBytes(b, req, t.end, t.status);
      } else {
        WindowIndependence(a, b, req, t.end, t.status);
      }
    }
  }

  lemma {:induction false} ScanBytes(buf: seq<u8>, req: nat, p: nat, status: int)
    requires p <= req && req + HEADER_REACH <= |buf|
    ensures Scan(buf, req, p, status).Stopped? ==> p <= Scan(buf, req, p, status).bytes <= req
    decreases req - p
  {
    var t := TakeTurn(buf, req, p);
    if t.Accepted? {
      ScanBytes(buf, req, t.end, t.status);
    }
  }

  /** No header the scan looks at has a size field that starts with a zero byte. */
  predicate NoZeroSizes(buf: seq<u8>, req: nat, p: nat)
    requires p <= req && req + HEADER_REACH <= |buf|
    decreases req - p
  {
    && buf[p + Width(buf[p])] != 0
    && var t := TakeTurn(buf, req, p); t.Accepted? ==> NoZeroSizes(buf, req, t.end)
  }

  /** Then the bytes accepted never depend on what lies behind the window, even when an ID or
      a header straddles its end; only the status can. */
  lemma {:induction false} BytesIndependent(a: seq<u8>, b: seq<u8>, req: nat, p: nat, s: int, t: int)
    requires p <= req < 0x1_0000 && req + HEADER_REACH <= |a| && req + HEADER_REACH <= |b|
    requires a[..req] == b[..req] && NoZeroSizes(a, req, p) && NoZeroSizes(b, req, p)
    ensures Scan(a, req, p, s).Stopped? && Scan(b, req, p, t).Stopped?
    ensures Scan(a, req, p, s).bytes == Scan(b, req, p, t).bytes
    decreases req - p
  {
    SameWindow(a, b, req, p);
    StraddlingIsRefused(a, req, p);
    StraddlingIsRefused(b, req, p);
    hide TakeTurn, Straddles, Width;
    var turn := TakeTurn(a, req, p);
    if turn.Accepted? {
      BytesIndependent(a, b, req, turn.end, turn.status, turn.status);
    }
  }

  lemma StraddlingIsRefused(buf: seq<u8>, req: nat, p: nat)
    requires p <= req < 0x1_0000 && req + HEADER_REACH <= |buf| && buf[p + Width(buf[p])] != 0
    ensures !TakeTurn(buf, req, p).Wrapped?
    ensures Straddles(buf, req, p) ==> TakeTurn(buf, req, p).AtEnd? || TakeTurn(buf, req, p).Refused?
  {
    hide ChankAt, HeaderBytes, Width, HasHeader;
    HeaderReach(buf[p..]);
    NoWrap(buf[p..]);
    ElementFits(buf[p..]);
  }

  lemma ElementFits(buf: seq<u8>)
    requires HasHeader(buf) && buf[Width(buf[0])] != 0
    ensures ChankAt(buf).chankBytes == HeaderBytes(buf) + ChankAt(buf).dataBytes < TWO_56 + 18
  {
    NoWrap(buf);
  }

  /** A Cluster ID split by the window's end is such a case: whether the two bytes behind the
      window complete it decides the status, and nothing but the status. */
  lemma SplitId(a: seq<u8>, b: seq<u8>)
    requires |a| == |b| == 2 + HEADER_REACH
    requires a[..5] == [0x1f, 0x43, 0xb6, 0x75, 0x81] && b[..5] == [0x1f, 0x43, 0, 0, 0x81]
    ensures a[..2] == b[..2] && !Clean(a, 2, 0) && Clean(b, 2, 0)
    ensures Scan(a, 2, 0, 0) == Stopped(CLUSTER_END, 0) && Scan(b, 2, 0, 0) == Stopped(0, 0)
  {
    assert a[..2] == a[..5][..2] == b[..5][..2] == b[..2];
    assert a[0] == a[..5][0] && a[..4] == a[..5][..4] && b[0] == b[..5][0];
    assert a[0..] == a && b[0..] == b;
    ClusterIdReads(a);
    AtEndIsId(a, 2, 0);
    SplitIdUnknown(b);
  }

  lemma SplitIdUnknown(b: seq<u8>)
    requires |b| == 2 + HEADER_REACH && b[..5] == [0x1f, 0x43, 0, 0, 0x81]
    ensures TakeTurn(b, 2, 0) == Refused
  {
    assert b[0..] == b && b[0] == b[..5][0] && b[..4] == b[..5][..4];
    var s := b[..4];
    assert s[..3][..2] == s[..2] && s[..2][..1] == s[..1] && s[..1][..0] == [];
    assert FromBE(s[..1]) == s[0];
    assert FromBE(s[..2]) == 256 * FromBE(s[..1]) + s[1];
    assert FromBE(s[..3]) == 256 * FromBE(s[..2]) + s[2];
    assert IdValue(b) == 0x1f430000;
    hide VintValue, IdValue;
  }

  /** One call of GetNextBlockByBytes: the new descriptor and the status returned, or no
      result because the scan wraps or the last piece would be read behind the buffer. */
  datatype NextResult = Next(info: BlockInfo, status: int) | Stuck

  /** GetChankByBytes: the accepted bytes are added to the descriptor. */
  function Scanned(info: BlockInfo, buf: seq<u8>, req: u16): NextResult
    requires req + HEADER_REACH <= |buf|
  {
    match Scan(buf, req, 0, 0)
    case Stopped(status, bytes) => Next(info.(bytes := U16(info.bytes + bytes)), status)
    case Backwards => Stuck
  }

  /** AssignBlockInfoByPiece with flag 1: buf starts with the element to cut. */
  function FirstPiece(info: BlockInfo, buf: seq<u8>, req: u16): BlockInfo
    requires HasHeader(buf)
  {
    var element := ChankAt(buf).chankBytes;
    info.(status := STATUS_PIECE,
          totalPieces := U8(CeilDiv(U64(element + info.bytes), MAX_BLOCK_BYTES)),
          bytes := U16(info.bytes + req),
          pieceSeq := 1,
          totalPieceBytes := U16(info.totalPieceBytes + element))
  }

  /** Flags 2 and 3 differ only in the length. */
  function LaterPiece(info: BlockInfo, prev: BlockInfo, bytes: u16): BlockInfo {
    info.(status := STATUS_PIECE, bytes := bytes, totalPieces := prev.totalPieces,
          pieceSeq := U8(prev.pieceSeq + 1), totalPieceBytes := prev.totalPieceBytes)
  }

  /** AssignBlockInfoBySB. */
  function WholeElements(info: BlockInfo): BlockInfo {
    info.(status := STATUS_SIMPLEBLOCK, totalPieceBytes := 0, totalPieces := 0, pieceSeq := 0)
  }

  /** Flag 3, followed by the elements that still fit behind the last piece. */
  function LastPiece(info: BlockInfo, prev: BlockInfo, buf: seq<u8>, req: u16): NextResult
    requires req + HEADER_REACH <= |buf|
  {
    var piece := LaterPiece(info, prev, U16(prev.totalPieceBytes - req * prev.pieceSeq));
    if piece.bytes > req then Stuck
    else
      var r := Scanned(piece, buf[piece.bytes..], req - piece.bytes);
      if r.Next? && r.status > 0 then r.(info := r.info.(status := STATUS_BLOCK)) else r
  }

  /** A block that starts at an element boundary inside the cluster. */
  function BoundaryBlock(info: BlockInfo, buf: seq<u8>, req: u16): NextResult
    requires req + HEADER_REACH <= |buf|
  {
    var r := Scanned(info, buf, req);
    if r.Stuck? then Stuck
    else if r.status > 0 then r.(info := WholeElements(r.info))
    else r.(info := FirstPiece(r.info, buf, req))
  }

  /** The first block of a cluster. */
  function OpeningBlock(info: BlockInfo, buf: seq<u8>, req: u16): NextResult
    requires req + HEADER_REACH <= |buf|
  {
    var r := Scanned(info, buf, req);
    if r.Stuck? then Stuck
    else if r.status == 0 then r.(info := FirstPiece(r.info, buf, req))
    else if r.status == ONLY_TIMECODE then
      var timecode := U16(ChankAt(buf).chankBytes);
      if timecode > req then Stuck
      else r.(info := FirstPiece(r.info.(bytes := timecode, totalPieceBytes := timecode),
                                 buf[timecode..], req - timecode))
    else r.(info := WholeElements(r.info))
  }

  /** GetNextBlockByBytes. */
  function NextBlock(info: BlockInfo, prev: BlockInfo, buf: seq<u8>, req: u16): NextResult
    requires req + HEADER_REACH <= |buf|
  {
    if prev.status == STATUS_INIT then
      OpeningBlock(info.(clusterSeq := prev.clusterSeq, number := 1, pos := CLUSTER_HEADER_BYTES), buf, req)
    else
      var here := info.(clusterSeq := prev.clusterSeq, number := U32(prev.number + 1),
                        pos := U32(prev.pos + prev.bytes));
      if prev.status != STATUS_PIECE then BoundaryBlock(here, buf, req)
      else if prev.totalPieces == prev.pieceSeq + 1 then LastPiece(here, prev, buf, req)
      else if prev.totalPieces == prev.pieceSeq then BoundaryBlock(here, buf, req)
      else Next(LaterPiece(here, prev, req), 0)
  }

  /** The piece fields of a block, whatever the descriptor held before: a block of whole elements
      clears them, the first piece of a unit starts them, and a later one counts on. */
  lemma PieceFields(info: BlockInfo, prev: BlockInfo, buf: seq<u8>, req: u16)
    requires req + HEADER_REACH <= |buf| && NextBlock(info, prev, buf, req).Next?
    ensures var b := NextBlock(info, prev, buf, req).info;
            if prev.status == 1 && prev.totalPieces != prev.pieceSeq then
              && b.totalPieces == prev.totalPieces && b.totalPieceBytes == prev.totalPieceBytes
              && b.pieceSeq == (prev.pieceSeq + 1) % 0x100 && b.status in {1, 3}
            else if b.status == 2 then b.totalPieces == b.pieceSeq == b.totalPieceBytes == 0
            else b.status == 1 && b.pieceSeq == 1
  {
    hide Scan, ChankAt, CeilDiv;
  }

  /** The scan NextBlock performs, if any, is clean. */
  predicate CleanRead(info: BlockInfo, prev: BlockInfo, buf: seq<u8>, req: u16)
    requires req + HEADER_REACH <= |buf|
  {
    if prev.status != STATUS_PIECE || prev.totalPieces == prev.pieceSeq then Clean(buf, req, 0)
    else if prev.totalPieces == prev.pieceSeq + 1 then
      var n := U16(prev.totalPieceBytes - req * prev.pieceSeq);
      n <= req ==> Clean(buf[n..], req - n, 0)
    else true
  }

  /** struct Block: the block being made and the one before it. */
  class Block {
    var info: BlockInfo
    var prev: BlockInfo

    /** InitBlock. */
    constructor ()
      ensures info == NO_BLOCK.(pos := CLUSTER_HEADER_BYTES)
      ensures prev == NO_BLOCK.(status := STATUS_INIT)
    {
      info := NO_BLOCK.(pos := CLUSTER_HEADER_BYTES);
      prev := NO_BLOCK.(status := STATUS_INIT);
    }

    method ShiftToPreBlock()
      modifies this
      ensures prev == old(info) && info == NO_BLOCK
    {
      prev := info;
      info := NO_BLOCK;
    }

    /** Moves on to the next cluster. */
    method RenewBlock()
      modifies this
      ensures info == NO_BLOCK && prev == ClusterStart(U16(old(info.clusterSeq) + 1))
    {
      var clusterSeq: int := info.clusterSeq;
      info := NO_BLOCK;
      prev := NO_BLOCK.(status := STATUS_INIT, clusterSeq := U16(clusterSeq + 1), pos := CLUSTER_HEADER_BYTES);
    }

    method GetChankByBytes(buf: seq<u8>, req: u16) returns (status: int)
      requires req + HEADER_REACH <= |buf| && Scan(buf, req, 0, 0).Stopped?
      modifies this`info
      ensures Scanned(old(info), buf, req) == Next(info, status)
    {
      hide ChankAt, HeaderBytes, Width, HasHeader;
      var position: nat := 0;
      status := 0;
      while true
        invariant position <= req && info == old(info)
        invariant Scan(buf, req, position, status) == Scan(buf, req, 0, 0)
        decreases req - position
      {
        ghost var t := TakeTurn(buf, req, position);
        HeaderReach(buf[position..]);
        var c := GetChank(buf[position..]);
        if c.id == CLUSTER_ID {
          status := CLUSTER_END;
          break;
        } else if c.id == CUE_ID {
          status := CLUSTER_END;
          break;
        }
        if req < U64(position + c.chankBytes) {
          break;
        }
        if c.id == TIMECODE_ID {
          status := ONLY_TIMECODE;
        } else if c.id == SIMPLEBLOCK_ID {
          status := 1;
        } else {
          break;
        }
        position := U64(position + c.chankBytes);
      }
      info := info.(bytes := U16(info.bytes + position));
    }

    method AssignFirstPiece(buf: seq<u8>, req: u16)
      requires HasHeader(buf)
      modifies this`info
      ensures info == FirstPiece(old(info), buf, req)
    {
      hide HeaderBytes, Width, VintValue, IdValue, HasHeader;
      var next := GetChank(buf);
      info := info.(status := STATUS_PIECE);
      info := info.(totalPieces := U8(CeilDiv(U64(next.chankBytes + info.bytes), MAX_BLOCK_BYTES)));
      info := info.(bytes := U16(info.bytes + req));
      info := info.(pieceSeq := 1);
      info := info.(totalPieceBytes := U16(info.totalPieceBytes + next.chankBytes));
    }

    method AssignLaterPiece(bytes: u16)
      modifies this`info
      ensures info == LaterPiece(old(info), prev, bytes)
    {
      info := info.(status := STATUS_PIECE, bytes := bytes);
      info := info.(totalPieces := prev.totalPieces, pieceSeq := U8(prev.pieceSeq + 1));
      info := info.(totalPieceBytes := prev.totalPieceBytes);
    }

    method AssignWholeElements()
      modifies this`info
      ensures info == WholeElements(old(info))
    {
      info := info.(status := STATUS_SIMPLEBLOCK);
      info := info.(totalPieceBytes := 0, totalPieces := 0, pieceSeq := 0);
    }

    method GetNextBlockByBytes(req: u16, buf: seq<u8>) returns (status: int)
      requires req + HEADER_REACH <= |buf|
      requires NextBlock(info, prev, buf, req).Next?
      modifies this`info
      ensures NextBlock(old(info), prev, buf, req) == Next(info, status)
    {
      hide Scan, ChankAt, HeaderBytes, CeilDiv;
      status := 0;
      info := info.(clusterSeq := prev.clusterSeq);
      if prev.status == STATUS_INIT {
        info := info.(number := 1, pos := CLUSTER_HEADER_BYTES);
        status := GetChankByBytes(buf, req);
        if status == 0 {
          AssignFirstPiece(buf, req);
        } else if status == ONLY_TIMECODE {
          var timecode := GetChank(buf);
          info := info.(totalPieceBytes := U16(timecode.chankBytes), bytes := U16(timecode.chankBytes));
          AssignFirstPiece(buf[info.bytes..], req - info.bytes);
        } else {
          AssignWholeElements();
        }
      } else {
        info := info.(number := U32(prev.number + 1), pos := U32(prev.pos + prev.bytes));
        if prev.status == STATUS_PIECE {
          var isCurrentPieceLast := prev.totalPieces == prev.pieceSeq + 1;
          var isPrevPieceLast := prev.totalPieces == prev.pieceSeq;
          if isCurrentPieceLast {
            AssignLaterPiece(U16(prev.totalPieceBytes - req * prev.pieceSeq));
            status := GetChankByBytes(buf[info.bytes..], req - info.bytes);
            if status > 0 {
              info := info.(status := STATUS_BLOCK);
            }
          } else if isPrevPieceLast {
            status := GetChankByBytes(buf, req);
            if status > 0 {
              AssignWholeElements();
            } else {
              AssignFirstPiece(buf, req);
            }
          } else {
            AssignLaterPiece(req);
          }
        } else {
          status := GetChankByBytes(buf, req);
          if status > 0 {
            AssignWholeElements();
          } else {
            AssignFirstPiece(buf, req);
          }
        }
      }
    }
  }

  /** The cursor RenewBlock leaves in front of a cluster. */
  function ClusterStart(clusterSeq: u16): BlockInfo {
    NO_BLOCK.(status := STATUS_INIT, clusterSeq := clusterSeq, pos := CLUSTER_HEADER_BYTES)
  }
}
