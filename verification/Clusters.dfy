/** Cluster payloads as sequences of elements, and the proof that the byte-level segmenter
    cuts them as Plan says.
  */
module Clusters {
  import opened Words
  import opened Ebml
  import opened Blocks
  import opened Segmentation
  import opened Plan

  /** The raw bytes of one Timecode or SimpleBlock element, header and data. */
  predicate IsElement(raw: seq<u8>) {
    && |raw| >= 2 && (raw[0] == TIMECODE_ID || raw[0] == SIMPLEBLOCK_ID) && raw[1] != 0
    && HasHeader(raw) && ChankAt(raw).chankBytes == |raw|
    && |raw| <= MAX_UNIT
  }

  predicate AreElements(es: seq<seq<u8>>) {
    forall i :: 0 <= i < |es| ==> IsElement(es[i])
  }

  function Flat(es: seq<seq<u8>>): seq<u8> {
    if es == [] then [] else es[0] + Flat(es[1..])
  }

  function Sizes(es: seq<seq<u8>>): (s: seq<nat>)
    ensures |s| == |es|
  {
    seq(|es|, i requires 0 <= i < |es| => |es[i]|)
  }

  /** Elements a segmenter still has ahead of it. A cluster opens with its one Timecode; all
      other elements are SimpleBlocks. */
  predicate Ahead(opening: bool, es: seq<seq<u8>>) {
    && AreElements(es)
    && WellSized(opening, Sizes(es))
    && (forall i :: 0 <= i < |es| ==> es[i][0] == if opening && i == 0 then TIMECODE_ID else SIMPLEBLOCK_ID)
  }

  /** A payload the segmenter handles: one Timecode, then SimpleBlocks only. */
  predicate IsPayload(es: seq<seq<u8>>) {
    Ahead(true, es)
  }

  /** What follows a payload on disk: a Cluster or a Cue. */
  predicate StartsWithEndId(s: seq<u8>) {
    |s| >= 4 && (s[..4] == CLUSTER_ID_STRING || s[..4] == CUE_ID_STRING)
  }

  lemma {:induction false} FlatSize(es: seq<seq<u8>>)
    ensures |Flat(es)| == Sum(Sizes(es))
  {
    if es != [] {
      assert Sizes(es)[1..] == Sizes(es[1..]);
      FlatSize(es[1..]);
    }
  }

  lemma {:induction false} FlatSplit(es: seq<seq<u8>>, k: nat)
    requires k <= |es|
    ensures Flat(es) == Flat(es[..k]) + Flat(es[k..])
    ensures Sizes(es)[..k] == Sizes(es[..k]) && Sizes(es)[k..] == Sizes(es[k..])
  {
    if k == 0 {
      assert es[0..] == es;
    } else {
      FlatSplit(es[1..], k - 1);
      assert es[..k][1..] == es[1..][..k - 1] && es[1..][k - 1..] == es[k..];
    }
  }

  /** From position p the window of buf shows the start of s. */
  predicate Shows(buf: seq<u8>, req: nat, p: nat, s: seq<u8>)
    requires p <= req <= |buf|
  {
    var n := Min(req - p, |s|);
    buf[p..p + n] == s[..n]
  }

  lemma ShowsByte(buf: seq<u8>, req: nat, p: nat, s: seq<u8>, i: nat)
    requires p <= req <= |buf| && Shows(buf, req, p, s) && i < |s| && p + i < req
    ensures buf[p..][i] == s[i]
  {
    var n := Min(req - p, |s|);
    assert buf[p..p + n][i] == s[..n][i];
  }

  lemma ShowsPrefix(buf: seq<u8>, req: nat, p: nat, s: seq<u8>, n: nat)
    requires p <= req <= |buf| && Shows(buf, req, p, s) && n <= |s| && p + n <= req
    ensures buf[p..][..n] == s[..n]
  {
    var m := Min(req - p, |s|);
    assert buf[p..][..n] == buf[p..p + m][..n] == s[..m][..n] == s[..n];
  }

  lemma ShowsRest(buf: seq<u8>, req: nat, p: nat, s: seq<u8>, k: nat)
    requires p <= req <= |buf| && Shows(buf, req, p, s) && k <= |s| && p + k <= req
    ensures Shows(buf, req, p + k, s[k..])
  {
    var n := Min(req - p, |s|);
    assert buf[p + k..p + n] == buf[p..p + n][k..] == s[..n][k..] == s[k..][..n - k];
  }

  /** A visible end ID stops the scan; one that straddles the window's end is not seen. */
  lemma TurnAtEnd(buf: seq<u8>, req: nat, p: nat, s: seq<u8>)
    requires p <= req && req + HEADER_REACH <= |buf|
    requires Shows(buf, req, p, s) && StartsWithEndId(s) && Clean(buf, req, p)
    ensures TakeTurn(buf, req, p) == if p + 4 <= req then AtEnd else Refused
  {
    if p + 4 <= req {
      hide ChankAt, HeaderBytes;
      ShowsPrefix(buf, req, p, s, 4);
      ClusterIdReads(buf[p..]);
      IdOfChank(buf[p..]);
    } else if p < req {
      ShowsByte(buf, req, p, s, 0);
      assert s[0] == s[..4][0];
    }
  }

  lemma IdOfChank(buf: seq<u8>)
    requires HasHeader(buf)
    ensures ChankAt(buf).id == IdValue(buf)
  {
  }

  /** An element is accepted exactly when all of it fits the window. */
  lemma TurnAtElement(buf: seq<u8>, req: nat, p: nat, e: seq<u8>, s: seq<u8>)
    requires p <= req < 0x1_0000 && req + HEADER_REACH <= |buf|
    requires IsElement(e) && Shows(buf, req, p, e + s) && Clean(buf, req, p)
    ensures TakeTurn(buf, req, p)
         == if p + |e| <= req then Accepted(p + |e|, if e[0] == TIMECODE_ID then ONLY_TIMECODE else 1)
            else Refused
  {
    ElementHeader(e);
    if p + HeaderBytes(e) <= req {
      TurnInWindow(buf, req, p, e, s);
    } else {
      hide TakeTurn, HasHeader, HeaderBytes, Shows, ChankAt;
      StraddlingElement(buf, req, p, e, s);
    }
  }

  lemma TurnInWindow(buf: seq<u8>, req: nat, p: nat, e: seq<u8>, s: seq<u8>)
    requires p <= req < 0x1_0000 && req + HEADER_REACH <= |buf|
    requires IsElement(e) && Shows(buf, req, p, e + s) && p + HeaderBytes(e) <= req
    ensures TakeTurn(buf, req, p)
         == if p + |e| <= req then Accepted(p + |e|, if e[0] == TIMECODE_ID then ONLY_TIMECODE else 1)
            else Refused
  {
    hide Width, HasHeader, VintValue, IdValue, IsElement, Shows;
    ElementHeader(e);
    var h := HeaderBytes(e);
    ShowsPrefix(buf, req, p, e + s, h);
    assert (e + s)[..h] == e[..h];
    ChankAtLocal(e, buf[p..]);
    hide ChankAt, HeaderBytes;
  }

  lemma ElementHeader(e: seq<u8>)
    requires IsElement(e)
    ensures HasHeader(e) && HeaderBytes(e) <= |e| && ChankAt(e).id == e[0]
    ensures ChankAt(e).chankBytes == |e| <= MAX_UNIT
    ensures Width(e[0]) == 1 && (e[0] == TIMECODE_ID || e[0] == SIMPLEBLOCK_ID)
  {
    assert e[..1] == [e[0]];
    FromBESingle(e[0]);
  }

  lemma StraddlingElement(buf: seq<u8>, req: nat, p: nat, e: seq<u8>, s: seq<u8>)
    requires p <= req && req + HEADER_REACH <= |buf|
    requires IsElement(e) && Shows(buf, req, p, e + s) && p + HeaderBytes(e) > req
    ensures Straddles(buf, req, p)
    ensures p + Width(buf[p]) <= req ==> TakeTurn(buf, req, p) != AtEnd
  {
    hide TakeTurn;
    ElementHeader(e);
    hide ChankAt, Shows;
    if p < req {
      ShowsByte(buf, req, p, e + s, 0);
      MediaId(buf, req, p);
      if p + 1 < req {
        ShowsByte(buf, req, p, e + s, 1);
      }
    }
  }

  /** The one byte ID of a media element is not mistaken for an end ID. */
  lemma MediaId(buf: seq<u8>, req: nat, p: nat)
    requires p <= req && req + HEADER_REACH <= |buf|
    requires buf[p] == TIMECODE_ID || buf[p] == SIMPLEBLOCK_ID
    ensures TakeTurn(buf, req, p) != AtEnd
  {
    AtEndIsId(buf, req, p);
    assert buf[p..][..1] == [buf[p]];
    FromBESingle(buf[p]);
    hide TakeTurn;
  }

  /** The scan is greedy: it accepts the elements that fit, and reports the end of the
      cluster when all fit and the ID behind them is visible. */
  lemma {:induction false} ScanIsGreedy(buf: seq<u8>, req: nat, p: nat, status: int, es: seq<seq<u8>>, s: seq<u8>)
    requires p <= req < 0x1_0000 && req + HEADER_REACH <= |buf|
    requires AreElements(es) && StartsWithEndId(s)
    requires Shows(buf, req, p, Flat(es) + s) && Clean(buf, req, p)
    ensures var k := Greedy(Sizes(es), req - p);
            Scan(buf, req, p, status)
            == Stopped(if k == |es| && Sum(Sizes(es)[..k]) + 4 <= req - p then CLUSTER_END
                       else if k == 0 then status
                       else if es[k - 1][0] == TIMECODE_ID then ONLY_TIMECODE else 1,
                       p + Sum(Sizes(es)[..k]))
    decreases |es|
  {
    hide TakeTurn, HeaderBytes, IsElement, Shows, Straddles, Clean, Greedy, Sum, Flat, StartsWithEndId, Sizes;
    if es == [] {
      NothingToTake(req - p, s);
      TurnAtEnd(buf, req, p, s);
    } else {
      var e, rest := es[0], es[1..];
      assert IsElement(e);
      FlatStep(es, s);
      GreedyStep(es, req - p);
      TurnAtElement(buf, req, p, e, Flat(rest) + s);
      if p + |e| <= req {
        ShowsRest(buf, req, p, e + (Flat(rest) + s), |e|);
        CleanAfter(buf, req, p);
        ScanIsGreedy(buf, req, p + |e|, if e[0] == TIMECODE_ID then ONLY_TIMECODE else 1, rest, s);
      }
    }
  }

  lemma NothingToTake(room: nat, s: seq<u8>)
    ensures Flat([]) + s == s && Greedy(Sizes([]), room) == 0 && Sum(Sizes([])[..0]) == 0
  {
  }

  lemma FlatStep(es: seq<seq<u8>>, s: seq<u8>)
    requires es != []
    ensures Flat(es) + s == es[0] + (Flat(es[1..]) + s)
    ensures (es[0] + (Flat(es[1..]) + s))[|es[0]|..] == Flat(es[1..]) + s
  {
  }

  lemma GreedyStep(es: seq<seq<u8>>, room: nat)
    requires es != []
    ensures room < |es[0]| ==> Greedy(Sizes(es), room) == 0 && Sum(Sizes(es)[..0]) == 0
    ensures room >= |es[0]| ==>
              var k := Greedy(Sizes(es[1..]), room - |es[0]|);
              && Greedy(Sizes(es), room) == k + 1
              && Sum(Sizes(es)[..k + 1]) == |es[0]| + Sum(Sizes(es[1..])[..k])
  {
    assert Sizes(es)[1..] == Sizes(es[1..]);
    if room >= |es[0]| {
      var k := Greedy(Sizes(es[1..]), room - |es[0]|);
      assert Sizes(es)[..k + 1][1..] == Sizes(es[1..])[..k];
    }
  }

  lemma CleanAfter(buf: seq<u8>, req: nat, p: nat)
    requires p <= req && req + HEADER_REACH <= |buf| && Clean(buf, req, p)
    ensures var t := TakeTurn(buf, req, p); t.Accepted? ==> Clean(buf, req, t.end)
  {
  }

  /** The state of a cursor in a cluster: the cursor proper, the bytes left of the current
      unit, and the elements behind it. */
  ghost predicate At(prev: BlockInfo, unit: seq<u8>, es: seq<seq<u8>>) {
    && Tracks(prev, |unit|)
    && Ahead(prev.status == STATUS_INIT, es)
  }

  predicate Fresh(info: BlockInfo) {
    info.(pos := 0) == NO_BLOCK
  }

  /** The read a block is cut from: 1000 bytes of window, showing what is left of the cluster
      and the ID behind it as far as it reaches. */
  ghost predicate GoodRead(info: BlockInfo, prev: BlockInfo, buf: seq<u8>, ahead: seq<u8>) {
    && |buf| >= MAX_BLOCK_BYTES + HEADER_REACH
    && Shows(buf, MAX_BLOCK_BYTES, 0, ahead)
    && CleanRead(info, prev, buf, MAX_BLOCK_BYTES)
  }

  /** The byte-level machine makes the block the size-level plan says. */
  lemma NextBlockIsCut(info: BlockInfo, prev: BlockInfo, unit: seq<u8>, es: seq<seq<u8>>, s: seq<u8>, buf: seq<u8>)
    requires Fresh(info) && At(prev, unit, es) && StartsWithEndId(s)
    requires GoodRead(info, prev, buf, unit + (Flat(es) + s))
    ensures var c := Cut(prev, |unit|, Sizes(es));
            NextBlock(info, prev, buf, MAX_BLOCK_BYTES) == Next(c.info, c.status)
  {
    if |unit| > MAX_BLOCK_BYTES {
      NextIsMiddle(info, prev, unit, es, buf);
    } else if |unit| > 0 {
      NextIsLast(info, prev, unit, es, s, buf);
    } else {
      assert unit + (Flat(es) + s) == Flat(es) + s;
      if prev.status == STATUS_INIT {
        NextIsOpening(info, prev, es, s, buf);
      } else {
        NextIsBoundary(info, prev, es, s, buf);
      }
    }
  }

  lemma NextIsMiddle(info: BlockInfo, prev: BlockInfo, unit: seq<u8>, es: seq<seq<u8>>, buf: seq<u8>)
    requires Fresh(info) && At(prev, unit, es) && |unit| > MAX_BLOCK_BYTES
    requires |buf| >= MAX_BLOCK_BYTES + HEADER_REACH
    ensures var c := Cut(prev, |unit|, Sizes(es));
            NextBlock(info, prev, buf, MAX_BLOCK_BYTES) == Next(c.info, c.status)
  {
    hide U32, Greedy, Sum, AreElements, WellSized, Ahead;
    assert CeilDiv(|unit|, MAX_BLOCK_BYTES) > 1;
  }

  lemma SmallResidue(a: int, n: nat)
    requires U16(a - n) == 0 && n < 0x1_0000
    ensures U16(a) == n
  {
  }

  lemma ShowsSuffix(buf: seq<u8>, req: nat, k: nat, unit: seq<u8>, s: seq<u8>)
    requires k == |unit| <= req <= |buf| && Shows(buf, req, 0, unit + s)
    ensures Shows(buf[k..], req - k, 0, s)
  {
    ShowsRest(buf, req, 0, unit + s, k);
    assert (unit + s)[k..] == s;
    var n := Min(req - k, |s|);
    assert buf[k..][0..n] == buf[k..k + n];
  }

  /** The scan from an element boundary, as the descriptor sees it. */
  lemma ScannedElements(here: BlockInfo, es: seq<seq<u8>>, s: seq<u8>, buf: seq<u8>, req: nat)
    requires here.bytes + req <= MAX_BLOCK_BYTES && |buf| >= req + HEADER_REACH
    requires AreElements(es) && StartsWithEndId(s)
    requires Shows(buf, req, 0, Flat(es) + s) && Clean(buf, req, 0)
    ensures var k := Greedy(Sizes(es), req);
            Scanned(here, buf, req)
            == Next(here.(bytes := here.bytes + Sum(Sizes(es)[..k])),
                    if k == |es| && Sum(Sizes(es)[..k]) + 4 <= req then CLUSTER_END
                    else if k == 0 then 0
                    else if es[k - 1][0] == TIMECODE_ID then ONLY_TIMECODE else 1)
  {
    hide Greedy, Sum, Clean, Scan, Flat, StartsWithEndId, IsElement, Shows, AreElements, Sizes;
    ScanIsGreedy(buf, req, 0, 0, es, s);
  }

  lemma NextIsLast(info: BlockInfo, prev: BlockInfo, unit: seq<u8>, es: seq<seq<u8>>, s: seq<u8>, buf: seq<u8>)
    requires Fresh(info) && At(prev, unit, es) && StartsWithEndId(s) && 0 < |unit| <= MAX_BLOCK_BYTES
    requires GoodRead(info, prev, buf, unit + (Flat(es) + s))
    ensures var c := Cut(prev, |unit|, Sizes(es));
            NextBlock(info, prev, buf, MAX_BLOCK_BYTES) == Next(c.info, c.status)
  {
    hide U32, Greedy, Sum, Shows, Clean, Scanned, Flat, AreElements, WellSized, StartsWithEndId, IsElement;
    var n := |unit|;
    assert CeilDiv(n, MAX_BLOCK_BYTES) == 1;
    SmallResidue(prev.totalPieceBytes - MAX_BLOCK_BYTES * prev.pieceSeq, n);
    ShowsSuffix(buf, MAX_BLOCK_BYTES, n, unit, Flat(es) + s);
    var here := info.(clusterSeq := prev.clusterSeq, number := U32(prev.number + 1),
                      pos := U32(prev.pos + prev.bytes));
    var piece := LaterPiece(here, prev, n);
    ScannedElements(piece, es, s, buf[n..], MAX_BLOCK_BYTES - n);
  }

  lemma FirstPieceOf(info: BlockInfo, buf: seq<u8>, req: u16, size: nat)
    requires HasHeader(buf) && ChankAt(buf).chankBytes == size <= MAX_UNIT
    ensures FirstPiece(info, buf, req)
            == info.(status := STATUS_PIECE, pieceSeq := 1,
                     totalPieces := U8(CeilDiv(size + info.bytes, MAX_BLOCK_BYTES)),
                     bytes := U16(info.bytes + req), totalPieceBytes := U16(info.totalPieceBytes + size))
  {
    hide ChankAt, HasHeader, CeilDiv;
  }

  lemma NextIsBoundary(info: BlockInfo, prev: BlockInfo, es: seq<seq<u8>>, s: seq<u8>, buf: seq<u8>)
    requires Fresh(info) && At(prev, [], es) && StartsWithEndId(s) && prev.status != STATUS_INIT
    requires GoodRead(info, prev, buf, Flat(es) + s)
    ensures var c := Cut(prev, 0, Sizes(es));
            NextBlock(info, prev, buf, MAX_BLOCK_BYTES) == Next(c.info, c.status)
  {
    hide U32, Greedy, Sum, Clean, Scanned, Flat, StartsWithEndId, IsElement, Shows, FirstPiece, CeilDiv;
    var here := info.(clusterSeq := prev.clusterSeq, number := U32(prev.number + 1),
                      pos := U32(prev.pos + prev.bytes));
    ScannedElements(here, es, s, buf, MAX_BLOCK_BYTES);
    SumEmpty(Sizes(es)[..0]);
    if StartsUnit(prev, Sizes(es)) {
      NextElement(buf, 0, es, s);
      assert buf[0..] == buf;
      FirstPieceOf(here, buf, MAX_BLOCK_BYTES, |es[0]|);
    }
  }

  /** The header of the element a unit starts or goes on with is inside the window. */
  lemma NextElement(buf: seq<u8>, p: nat, es: seq<seq<u8>>, s: seq<u8>)
    requires p + HEADER_REACH <= MAX_BLOCK_BYTES && |buf| >= MAX_BLOCK_BYTES + HEADER_REACH
    requires AreElements(es) && es != [] && Shows(buf, MAX_BLOCK_BYTES, p, Flat(es) + s)
    ensures HasHeader(buf[p..]) && ChankAt(buf[p..]).chankBytes == |es[0]| <= MAX_UNIT
  {
    ElementHeader(es[0]);
    var h := HeaderBytes(es[0]);
    assert (Flat(es) + s)[..h] == es[0][..h];
    ShowsPrefix(buf, MAX_BLOCK_BYTES, p, Flat(es) + s, h);
    ChankAtLocal(es[0], buf[p..]);
  }

  lemma NextIsOpening(info: BlockInfo, prev: BlockInfo, es: seq<seq<u8>>, s: seq<u8>, buf: seq<u8>)
    requires Fresh(info) && At(prev, [], es) && StartsWithEndId(s) && prev.status == STATUS_INIT
    requires GoodRead(info, prev, buf, Flat(es) + s)
    ensures var c := Cut(prev, 0, Sizes(es));
            NextBlock(info, prev, buf, MAX_BLOCK_BYTES) == Next(c.info, c.status)
  {
    hide U32, Clean, Scanned, Flat, StartsWithEndId, IsElement, Shows, Greedy, Sum, FirstPiece, CeilDiv, ChankAt,
         HasHeader;
    var here := info.(clusterSeq := prev.clusterSeq, number := 1, pos := CLUSTER_HEADER_BYTES);
    ScannedElements(here, es, s, buf, MAX_BLOCK_BYTES);
    OneSize(es);
    NextElement(buf, 0, es, s);
    assert buf[0..] == buf;
    if StartsUnit(prev, Sizes(es)) {
      var n := |es[0]|;
      SecondElement(buf, es, s);
      FirstPieceOf(here.(bytes := n, totalPieceBytes := n), buf[n..], MAX_BLOCK_BYTES - n, |es[1]|);
    }
  }

  lemma SecondElement(buf: seq<u8>, es: seq<seq<u8>>, s: seq<u8>)
    requires |buf| >= MAX_BLOCK_BYTES + HEADER_REACH
    requires AreElements(es) && |es| > 1 && |es[0]| <= MAX_TIMECODE
    requires Shows(buf, MAX_BLOCK_BYTES, 0, Flat(es) + s)
    ensures HasHeader(buf[|es[0]|..]) && ChankAt(buf[|es[0]|..]).chankBytes == |es[1]| <= MAX_UNIT
  {
    hide IsElement, HasHeader, ChankAt, Flat, Shows, Greedy, Sum;
    FlatStep(es, s);
    ShowsRest(buf, MAX_BLOCK_BYTES, 0, Flat(es) + s, |es[0]|);
    NextElement(buf, |es[0]|, es[1..], s);
  }

  lemma OneSize(es: seq<seq<u8>>)
    requires |es| > 0
    ensures Sum(Sizes(es)[..1]) == |es[0]| && Sum(Sizes(es)[..0]) == 0
  {
    assert Sizes(es)[..1] == [|es[0]|];
  }
}
