/** When the memory behind the packet buffer is clear, every read of a well-formed stream is
    clean.
  */
module CleanReads {
  import opened Words
  import opened Ebml
  import opened Blocks
  import opened Segmentation
  import opened Plan
  import opened Clusters
  import opened Serving
  import opened Cursors
  import opened Streams

  predicate ZeroFrom(buf: seq<u8>, at: nat) {
    forall i :: at <= i < |buf| ==> buf[i] == 0
  }

  /** An ID that ends in a zero byte is none the scan knows. */
  lemma ZeroEndedId(buf: seq<u8>, req: nat, p: nat)
    requires p <= req && req + HEADER_REACH <= |buf|
    requires buf[p + Width(buf[p]) - 1] == 0
    ensures TakeTurn(buf, req, p) == Refused
  {
    var w := Width(buf[p]);
    var id := buf[p..][..w];
    assert id[w - 1] == 0;
    assert FromBE(id) == 256 * FromBE(id[..w - 1]);
    ZeroLowByte(FromBE(id[..w - 1]));
    hide ChankAt, FromBE, Width, HeaderBytes, HasHeader;
    IdOfChank(buf[p..]);
    RefusedById(buf, req, p);
  }

  lemma ZeroLowByte(n: nat)
    ensures U32(256 * n) % 256 == 0
  {
  }

  lemma RefusedById(buf: seq<u8>, req: nat, p: nat)
    requires p <= req && req + HEADER_REACH <= |buf|
    requires IdValue(buf[p..]) % 256 == 0
    ensures TakeTurn(buf, req, p) == Refused
  {
    hide VintValue, IdValue, Width;
  }

  lemma PartialEndId(buf: seq<u8>, req: nat, p: nat, s: seq<u8>)
    requires p <= req && req + HEADER_REACH <= |buf| && ZeroFrom(buf, req)
    requires Shows(buf, req, p, s) && StartsWithEndId(s) && p + 4 > req
    ensures Clean(buf, req, p)
  {
    hide TakeTurn;
    if p < req {
      ShowsByte(buf, req, p, s, 0);
      assert s[0] == s[..4][0];
    }
    ZeroEndedId(buf, req, p);
  }

  lemma FullEndId(buf: seq<u8>, req: nat, p: nat, s: seq<u8>)
    requires p + 4 <= req && req + HEADER_REACH <= |buf|
    requires Shows(buf, req, p, s) && StartsWithEndId(s)
    ensures Clean(buf, req, p)
  {
    hide TakeTurn, Straddles;
    ShowsPrefix(buf, req, p, s, 4);
    ClusterIdReads(buf[p..]);
    AtEndIsId(buf, req, p);
  }

  /** An element whose header runs past the window does not look as if it fitted. */
  lemma PartialElement(buf: seq<u8>, req: nat, p: nat, e: seq<u8>, s: seq<u8>)
    requires p <= req < 0x1_0000 && req + HEADER_REACH <= |buf| && ZeroFrom(buf, req)
    requires IsElement(e) && Shows(buf, req, p, e + s) && p + HeaderBytes(e) > req
    ensures Clean(buf, req, p)
  {
    hide TakeTurn, ChankAt;
    if p == req {
      ZeroEndedId(buf, req, p);
    } else {
      StraddlingElement(buf, req, p, e, s);
      ShowsByte(buf, req, p, e + s, 0);
      MediaId(buf, req, p);
      if p + 1 < req {
        ShowsByte(buf, req, p, e + s, 1);
        hide Shows, IsElement, ZeroFrom;
        NoWrap(buf[p..]);
      } else {
        hide Shows, IsElement;
        ZeroSize(buf[p..]);
      }
      hide HeaderBytes, Width, HasHeader;
      TooLong(buf, req, p);
    }
  }

  lemma ZeroSize(buf: seq<u8>)
    requires |buf| >= HEADER_REACH && Width(buf[0]) == 1 && forall i :: 1 <= i < |buf| ==> buf[i] == 0
    ensures ChankAt(buf).chankBytes == HeaderBytes(buf)
  {
    AllZero([Unmarked(buf[1])] + buf[1..][1..9]);
  }

  lemma {:induction false} AllZero(s: seq<u8>)
    requires forall i :: 0 <= i < |s| ==> s[i] == 0
    ensures FromBE(s) == 0
  {
    if s != [] {
      AllZero(s[..|s| - 1]);
    }
  }

  lemma TooLong(buf: seq<u8>, req: nat, p: nat)
    requires p <= req < 0x1_0000 && req + HEADER_REACH <= |buf|
    requires TakeTurn(buf, req, p) != AtEnd && Straddles(buf, req, p)
    requires HeaderBytes(buf[p..]) <= ChankAt(buf[p..]).chankBytes < TWO_64 - 0x1_0000
    ensures TakeTurn(buf, req, p) == Refused
  {
    hide ChankAt, HeaderBytes, Width, HasHeader;
  }

  lemma {:induction false} ZerosAreClean(buf: seq<u8>, req: nat, p: nat, es: seq<seq<u8>>, s: seq<u8>)
    requires p <= req < 0x1_0000 && req + HEADER_REACH <= |buf| && ZeroFrom(buf, req)
    requires AreElements(es) && StartsWithEndId(s) && Shows(buf, req, p, Flat(es) + s)
    ensures Clean(buf, req, p)
    decreases |es|
  {
    hide TakeTurn, HeaderBytes, IsElement, Shows, Straddles, Flat, StartsWithEndId, ZeroFrom;
    if es == [] {
      NothingToTake(0, s);
      if p + 4 <= req {
        FullEndId(buf, req, p, s);
      } else {
        PartialEndId(buf, req, p, s);
      }
    } else {
      var e, rest := es[0], es[1..];
      assert IsElement(e);
      ElementHeader(e);
      FlatStep(es, s);
      if p + HeaderBytes(e) > req {
        PartialElement(buf, req, p, e, Flat(rest) + s);
      } else {
        TurnInWindow(buf, req, p, e, Flat(rest) + s);
        WindowHeader(buf, req, p, e, Flat(rest) + s);
        if p + |e| <= req {
          ShowsRest(buf, req, p, e + (Flat(rest) + s), |e|);
          ZerosAreClean(buf, req, p + |e|, rest, s);
        }
      }
    }
  }

  lemma WindowHeader(buf: seq<u8>, req: nat, p: nat, e: seq<u8>, s: seq<u8>)
    requires p <= req < 0x1_0000 && req + HEADER_REACH <= |buf|
    requires IsElement(e) && Shows(buf, req, p, e + s) && p + HeaderBytes(e) <= req
    ensures !Straddles(buf, req, p)
  {
    ElementHeader(e);
    var h := HeaderBytes(e);
    ShowsPrefix(buf, req, p, e + s, h);
    assert (e + s)[..h] == e[..h];
    ChankAtLocal(e, buf[p..]);
    hide ChankAt, HeaderBytes;
  }

  /** The hypothesis of NextBlockIsCut is met when the bytes behind the window are clear. */
  lemma ClearMemoryIsClean(info: BlockInfo, prev: BlockInfo, unit: seq<u8>, es: seq<seq<u8>>, s: seq<u8>, buf: seq<u8>)
    requires At(prev, unit, es) && StartsWithEndId(s)
    requires |buf| >= MAX_BLOCK_BYTES + HEADER_REACH && ZeroFrom(buf, MAX_BLOCK_BYTES)
    requires Shows(buf, MAX_BLOCK_BYTES, 0, unit + (Flat(es) + s))
    ensures CleanRead(info, prev, buf, MAX_BLOCK_BYTES)
  {
    hide Clean, Flat, Shows, StartsWithEndId, IsElement, WellSized, Sizes;
    var n := |unit|;
    if n == 0 {
      assert unit + (Flat(es) + s) == Flat(es) + s;
      ZerosAreClean(buf, MAX_BLOCK_BYTES, 0, es, s);
    } else if n <= MAX_BLOCK_BYTES {
      assert CeilDiv(n, MAX_BLOCK_BYTES) == 1;
      SmallResidue(prev.totalPieceBytes - MAX_BLOCK_BYTES * prev.pieceSeq, n);
      ShowsSuffix(buf, MAX_BLOCK_BYTES, n, unit, Flat(es) + s);
      ZerosAreClean(buf[n..], MAX_BLOCK_BYTES - n, 0, es, s);
    } else {
      assert CeilDiv(n, MAX_BLOCK_BYTES) > 1;
    }
  }

  /** A clear memory behind the packet buffer is clean for every cursor. */
  lemma ClearMemory(src: Source, ss: seq<Section>, size: nat)
    requires Serves(src.file, src.headerBytes, ss) && size >= HEADER_REACH
    ensures CleanBeyond(src, ss, Filled(size, 0))
  {
    hide Serves, CursorAt, At, Offset, CanWalk, CleanRead, Shows;
    var beyond := Filled(size, 0);
    forall prev, i, unit, es | CursorAt(src.firstClusterSeq, ss, prev, i, unit, es)
      ensures CleanFor(src, prev, beyond)
    {
      CursorIsAt(src.firstClusterSeq, ss, prev, i, unit, es);
      var after := OffsetIsNextByte(src, ss, prev, i, unit, es);
      var ahead := src.file[Offset(src, prev)..];
      BufferShows(ahead, beyond);
      BufferTail(ahead, beyond);
      ClearMemoryIsClean(NO_BLOCK, prev, unit, es, after, ReadBuffer(ahead, beyond));
    }
  }

  lemma BufferTail(ahead: seq<u8>, beyond: seq<u8>)
    requires forall i :: 0 <= i < |beyond| ==> beyond[i] == 0
    ensures ZeroFrom(ReadBuffer(ahead, beyond), MAX_BLOCK_BYTES)
  {
  }
}
