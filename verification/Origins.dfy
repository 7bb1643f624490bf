/** The origin: main reads cluster after cluster of a growing file, cutting blocks with one
    file position that SendMulStream also uses, and serves its children while it waits.
  */
module Origins {
  import opened Words
  import opened Ebml
  import opened Blocks
  import opened Segmentation
  import opened Plan
  import opened Clusters
  import opened Partition
  import opened Serving
  import opened Cursors
  import opened Streams
  import opened Membership
  import opened Files
  import opened LiveFiles
  import opened Senders

  /** InitBlock leaves a cursor that differs from RenewBlock's in a field nobody reads. */
  function Normal(prev: BlockInfo): BlockInfo {
    if prev.status == STATUS_INIT then ClusterStart(prev.clusterSeq) else prev
  }

  lemma NormalNext(info: BlockInfo, prev: BlockInfo, buf: seq<u8>, req: u16)
    requires req + HEADER_REACH <= |buf|
    ensures NextBlock(info, Normal(prev), buf, req) == NextBlock(info, prev, buf, req)
  {
    hide OpeningBlock;
  }

  /** The origin's own cursor in cluster i, with the blocks it still has to read counted. */
  ghost predicate ReadingAt(ss: seq<Section>, prev: BlockInfo, i: nat, unit: seq<u8>, es: seq<seq<u8>>) {
    && i < |ss| && GoodSection(ss[i])
    && CursorAt(0, ss, prev, i, unit, es)
    && prev.number + |Rest(prev, unit, es)| == |Packets(prev.clusterSeq, ss[i].es)|
  }

  /** A read at the cursor cuts the planned block. Either the cluster ends with it, just
      before the next header and with all blocks counted, or the cursor moves on. */
  lemma ReadStep(src: Source, ss: seq<Section>, prev: BlockInfo, info: BlockInfo, i: nat,
                 unit: seq<u8>, es: seq<seq<u8>>, junk: seq<u8>)
    requires src.firstClusterSeq == 0 && Serves(src.file, src.headerBytes, ss) && AllGood(ss)
    requires ReadingAt(ss, prev, i, unit, es) && Fresh(info) && CleanJunk(src, ss, junk)
    ensures CanWalk(src.file, src.headerBytes, Count(src, prev)) && Offset(src, prev) <= |src.file|
    ensures var c := Cut(prev, |unit|, Sizes(es));
            && NextBlock(info, prev, Spilled(src.file[Offset(src, prev)..], junk), MAX_BLOCK_BYTES)
               == Next(c.info, c.status)
            && c.info.clusterSeq == prev.clusterSeq
            && (c.status == CLUSTER_END ==>
                  && Offset(src, prev) + c.info.bytes == Base(src.headerBytes, ss, i + 1)
                  && c.info.number == |Packets(prev.clusterSeq, ss[i].es)|)
            && (c.status != CLUSTER_END ==>
                  && ReadingAt(ss, c.info, i, UnitBehind(prev, unit, es), ElementsBehind(prev, unit, es))
                  && Offset(src, prev) + c.info.bytes
                     == Base(src.headerBytes, ss, i) + CLUSTER_HEADER_BYTES + Consumed(c.info)
                  && c.info.number == prev.number + 1)
  {
    hide Serves, AllGood, GoodSection, Flat, StartsWithEndId, CanWalk, Offset, Sizes, Cut, CursorAt, At, Rest, Packets,
         UnitBehind, ElementsBehind, NextBlock, CleanRead, Shows, JunkFor, Base;
    CursorIsAt(0, ss, prev, i, unit, es);
    var after := OffsetIsNextByte(src, ss, prev, i, unit, es);
    var ahead := src.file[Offset(src, prev)..];
    assert JunkFor(src, prev, junk);
    SpilledShows(ahead, junk);
    JunkIsClean(src, prev, info, junk);
    NextBlockIsCut(info, prev, unit, es, after, Spilled(ahead, junk));
    CutFits(prev, unit, es);
    if Cut(prev, |unit|, Sizes(es)).status == CLUSTER_END {
      ClusterEnds(ss, prev, i, unit, es);
      EndIdAfter(src.file, src.headerBytes, ss, i);
    } else {
      ReadingGoesOn(ss, prev, i, unit, es);
    }
  }

  lemma ClusterEnds(ss: seq<Section>, prev: BlockInfo, i: nat, unit: seq<u8>, es: seq<seq<u8>>)
    requires ReadingAt(ss, prev, i, unit, es) && Cut(prev, |unit|, Sizes(es)).status == CLUSTER_END
    ensures var c := Cut(prev, |unit|, Sizes(es));
            && Consumed(prev) + c.info.bytes == |Flat(ss[i].es)|
            && c.info.number == |Packets(prev.clusterSeq, ss[i].es)|
  {
    CursorIsAt(0, ss, prev, i, unit, es);
    RestStep(prev, unit, es);
    LastBlock(prev, unit, es);
    CutSuccessor(prev, |unit|, Sizes(es));
    hide GoodSection, Flat, Sizes, Cut, At, Rest, Packets, Successor;
    SuccessorSmall(prev, |Flat(ss[i].es)|) by {
      assert GoodSection(ss[i]);
      SmallSection(ss[i]);
    }
    assert |Flat(ss[i].es)[Consumed(prev)..]| == |unit + Flat(es)|;
  }

  lemma LastBlock(prev: BlockInfo, unit: seq<u8>, es: seq<seq<u8>>)
    requires At(prev, unit, es) && Cut(prev, |unit|, Sizes(es)).status == CLUSTER_END
    ensures Cut(prev, |unit|, Sizes(es)).info.bytes == |unit + Flat(es)|
  {
    hide Flat, Cut, Sizes, Tracks, WellSized, Sum;
    CutInvariant(prev, |unit|, Sizes(es));
    FlatSize(es);
    SumEmpty([]);
  }

  lemma ReadingGoesOn(ss: seq<Section>, prev: BlockInfo, i: nat, unit: seq<u8>, es: seq<seq<u8>>)
    requires ReadingAt(ss, prev, i, unit, es) && Cut(prev, |unit|, Sizes(es)).status != CLUSTER_END
    ensures var c := Cut(prev, |unit|, Sizes(es));
            && ReadingAt(ss, c.info, i, UnitBehind(prev, unit, es), ElementsBehind(prev, unit, es))
            && Consumed(c.info) == Consumed(prev) + c.info.bytes && c.info.number == prev.number + 1
  {
    CursorIsAt(0, ss, prev, i, unit, es);
    RestStep(prev, unit, es);
    CursorMoves(0, ss, prev, i, unit, es);
    CutSuccessor(prev, |unit|, Sizes(es));
    hide Flat, Sizes, Cut, At, Rest, Packets, Successor, UnitBehind, ElementsBehind;
    SmallSection(ss[i]);
    hide GoodSection;
    SuccessorSmall(prev, |Flat(ss[i].es)|);
  }

  lemma JunkIsClean(src: Source, prev: BlockInfo, info: BlockInfo, junk: seq<u8>)
    requires |junk| >= MAX_BLOCK_BYTES + HEADER_REACH && JunkFor(src, prev, junk)
    requires CanWalk(src.file, src.headerBytes, Count(src, prev)) && Offset(src, prev) <= |src.file|
    ensures CleanRead(info, prev, Spilled(src.file[Offset(src, prev)..], junk), MAX_BLOCK_BYTES)
  {
    hide Clean, CanWalk, Offset;
  }

  lemma SpilledShows(ahead: seq<u8>, junk: seq<u8>)
    requires |junk| >= MAX_BLOCK_BYTES + HEADER_REACH
    ensures Shows(Spilled(ahead, junk), MAX_BLOCK_BYTES, 0, ahead)
  {
    var n := Min(MAX_BLOCK_BYTES, |ahead|);
    assert Spilled(ahead, junk)[0..n] == ahead[..n];
  }

  /** The origin: what it sends with, CURRENT_BLOCK, CURRENT_READ_BYTES, the number of
      CURRENT_CLUSTER, and whether there was a cluster before it. clock counts the moments, and
      look is the moment of the last look at the file. */
  class Origin {
    const sender: Sender
    const block: Block
    var readBytes: nat
    var clusterSeq: u32
    var hasPrev: bool
    var clock: nat
    ghost var look: nat

    /** main up to its loops: the header has been found, and the first Cluster begins behind
        it. */
    constructor (moments: nat -> Moment, headerBytes: nat, ghost sections: nat -> seq<Section>)
      requires Growing(moments, headerBytes, sections) && CleanMoments(headerBytes, moments, sections)
      ensures fresh(sender) && fresh(sender.webm) && fresh(sender.children) && fresh(block)
      ensures Watching(moments, sections) && Before(0, sections(look)) && clock == 0
      ensures sender.webm.headerBytes == headerBytes && sender.connected == 0
    {
      hide Growing, CleanMoments, Serves, AllGood, ChildOk, Ready, BlockCount, Grown, Partial, Bit;
      LaterLook(moments, headerBytes, sections, 0, 0);
      BaseInFile(moments(0).file, headerBytes, sections(0), 0);
      var webm := new WebM(moments(0).file, headerBytes);
      sender := new Sender(webm);
      block := new Block();
      readBytes, clusterSeq, hasPrev, clock, look := 0, 0, false, 0, 0;
      new;
      NoChildren();
      ServesGood(moments(0).file, headerBytes, sections(0));
    }

    /** The file is what it was at the last look. */
    ghost predicate Watching(moments: nat -> Moment, sections: nat -> seq<Section>)
      reads this`look, this`clock, sender, sender.webm
    {
      && Growing(moments, sender.webm.headerBytes, sections)
      && CleanMoments(sender.webm.headerBytes, moments, sections)
      && look <= clock && sender.webm.file == moments(look).file
    }

    /** The file holds the sections, and every child's cursor is in order on them. */
    ghost predicate Steady(ss: seq<Section>)
      reads sender, sender.webm, sender.children
    {
      && block !in sender.children && sender.webm.firstClusterSeq == 0 && |ss| < 0x1_0000
      && Serves(sender.webm.file, sender.webm.headerBytes, ss) && sender.InOrder(ss)
      && (sender.webm.prevCluster.number == 0 || sender.webm.prevCluster.number < |ss|)
    }

    /** The rounds of SendMulStream until no child is due. */
    ghost function Rounds(ss: seq<Section>): nat
      requires Steady(ss)
      reads sender, sender.webm, sender.children
    {
      sender.Backlog(ss)
    }

    /** Everything but the position is in front of cluster i, which may not be there yet. */
    ghost predicate Poised(i: nat, ss: seq<Section>)
      requires |ss| < 0x1_0000 && AllGood(ss)
      reads this`hasPrev, sender.webm`prevCluster, sender.webm`latest, block
    {
      && i <= |ss| && Fresh(block.info) && block.prev.status == STATUS_INIT && block.prev.clusterSeq == i
      && Tracks(Normal(block.prev), 0)
      && (if hasPrev then i == sender.webm.prevCluster.number + 1 else i == 0 == sender.webm.prevCluster.number)
      && (i > 0 ==> BlockCount(ss, i - 1) <= sender.webm.latest)
    }

    /** Between two clusters: position and cursor in front of cluster i. */
    ghost predicate Before(i: nat, ss: seq<Section>)
      reads this`hasPrev, sender, sender.webm, sender.children, block
    {
      && Steady(ss) && Poised(i, ss)
      && sender.webm.readPos == sender.webm.fpos == Base(sender.webm.headerBytes, ss, i)
    }

    /** The state behind a read in cluster i: the cursor before it, the block it cut, and the
        position behind the bytes read. */
    ghost predicate JustRead(i: nat, ss: seq<Section>, unit: seq<u8>, es: seq<seq<u8>>, status: int)
      reads this, sender, sender.webm, sender.children, block
    {
      var prev := Normal(block.prev);
      && i < |ss| && Steady(ss) && ReadingAt(ss, prev, i, unit, es)
      && prev.number + 1 == block.info.number <= BlockCount(ss, i)
      && block.info == Cut(prev, |unit|, Sizes(es)).info && status == Cut(prev, |unit|, Sizes(es)).status
      && sender.webm.readPos <= sender.webm.fpos
      && sender.webm.fpos
         == Base(sender.webm.headerBytes, ss, i) + CLUSTER_HEADER_BYTES + Consumed(prev) + readBytes
    }

    method ReadBlock(junk: seq<u8>) returns (status: int)
      requires sender.webm.readPos <= sender.webm.fpos <= |sender.webm.file|
      requires |junk| >= MAX_BLOCK_BYTES + HEADER_REACH
      requires NextBlock(block.info, block.prev, Spilled(sender.webm.file[sender.webm.fpos..], junk),
                         MAX_BLOCK_BYTES).Next?
      modifies this`readBytes, sender.webm`fpos, block`info
      ensures NextBlock(old(block.info), block.prev, Spilled(sender.webm.file[old(sender.webm.fpos)..], junk),
                        MAX_BLOCK_BYTES)
              == Next(block.info, status)
      ensures sender.webm.fpos == old(sender.webm.fpos) + readBytes <= |sender.webm.file|
    {
      hide NextBlock;
      ghost var ahead := sender.webm.file[sender.webm.fpos..];
      var data := sender.webm.ImportWebM(MAX_BLOCK_BYTES);
      var buf := data + junk[|data|..];
      assert ahead[..|data|] == data;
      assert buf == Spilled(ahead, junk);
      readBytes := |data|;
      status := block.GetNextBlockByBytes(MAX_BLOCK_BYTES, buf);
    }

    method SeekForNextBlock()
      requires sender.webm.fpos + block.info.bytes >= readBytes
      modifies sender.webm`readPos, sender.webm`fpos
      ensures sender.webm.readPos == sender.webm.fpos == old(sender.webm.fpos) + block.info.bytes - readBytes
    {
      sender.webm.SeekRLTWebM(block.info.bytes - readBytes);
    }

    /** SendMulStream. */
    method Serve(memory: nat -> seq<u8>, ghost ss: seq<Section>)
      requires Steady(ss) && forall i :: CleanBeyond(sender.View(), ss, memory(i)) && |memory(i)| >= HEADER_REACH
      modifies sender.webm`fpos, sender.webm`readPos, sender`wire, sender.children
      ensures Steady(ss) && sender.webm.fpos == sender.webm.readPos == old(sender.webm.fpos)
      ensures Rounds(ss) == 0 || Rounds(ss) < old(Rounds(ss))
      ensures sender.RoundSent(memory) && sender.SentUpTo(sender.webm.prevCluster.number, sender.webm.latest)
    {
      hide Serves, Ready, AllGood, ChildOk, CleanBeyond, Bit, Counted, CanSend, Send;
      var ret := sender.StreamRound(memory, ss);
    }

    /** Who is a child after what the receiving thread did. */
    twostate predicate Arrived(arrival: Arrival)
      reads sender, sender.webm`prevCluster, sender.children
    {
      match arrival
      case Nobody => sender.connected == old(sender.connected)
      case Setup => sender.NewChild(sender.webm.prevCluster.number)
      case Connects(clusterSeq) => sender.NewChild(U16(clusterSeq + 1))
      case Leaves(slot) => sender.Gone(slot)
    }

    /** What the receiving thread does. */
    method Arrive(arrival: Arrival, ghost ss: seq<Section>)
      requires Steady(ss) && (Joins(arrival) ==> |ss| > 0)
      modifies sender`wire, sender`connected, sender`childNum, sender`starts, sender.children
      ensures Steady(ss) && Arrived(arrival) && sender.NothingSent()
      ensures arrival.Nobody? ==>
                && Rounds(ss) == old(Rounds(ss)) && unchanged(sender)
                && forall i :: 0 <= i < MAX_CHILD_NUM ==> unchanged(sender.children[i])
    {
      hide Serves, AllGood, ChildOk, Bit, Counted;
      match arrival {
        case Nobody =>
        case Setup =>
          var slot := sender.Admit(ss);
        case Connects(clusterSeq) =>
          var slot := sender.Readmit(clusterSeq, ss);
        case Leaves(slot) =>
          if slot < MAX_CHILD_NUM {
            sender.Release(slot, ss);
          }
      }
    }

    /** The block's number becomes the latest; a round of sends, and then what the receiving
        thread does. */
    method ServeAndArrive(number: u32, memory: nat -> seq<u8>, arrival: Arrival, ghost ss: seq<Section>)
      requires Steady(ss) && (Joins(arrival) ==> |ss| > 0)
      requires forall i :: CleanBeyond(sender.View().(latest := number), ss, memory(i)) && |memory(i)| >= HEADER_REACH
      modifies sender.webm`fpos, sender.webm`readPos, sender.webm`latest
      modifies sender`wire, sender`connected, sender`childNum, sender`starts, sender.children
      ensures sender.webm.fpos == sender.webm.readPos == old(sender.webm.fpos)
      ensures sender.View() == old(sender.View()).(latest := number)
      ensures sender.SentUpTo(sender.webm.prevCluster.number, number) && Arrived(arrival)
      ensures arrival.Nobody? ==> sender.RoundSent(memory)
      ensures Steady(ss)
    {
      hide Serves, AllGood, ChildOk, Bit, Counted, CanSend, Send, CleanBeyond, Place, FreeSlot;
      sender.webm.latest := number;
      Serve(memory, ss);
      Arrive(arrival, ss);
    }

    /** In front of a read in cluster i. */
    ghost predicate AtCursor(i: nat, ss: seq<Section>, unit: seq<u8>, es: seq<seq<u8>>)
      reads this, sender, sender.webm, sender.children, block
    {
      && i < |ss| && Steady(ss)
      && ReadingAt(ss, Normal(block.prev), i, unit, es) && Fresh(block.info)
      && sender.webm.readPos <= sender.webm.fpos
      && sender.webm.fpos
         == Base(sender.webm.headerBytes, ss, i) + CLUSTER_HEADER_BYTES + Consumed(Normal(block.prev))
    }

    method ReadNext(junk: seq<u8>, ghost ss: seq<Section>, ghost i: nat, ghost unit: seq<u8>, ghost es: seq<seq<u8>>)
      returns (status: int)
      requires AtCursor(i, ss, unit, es) && CleanJunk(sender.View(), ss, junk)
      requires |junk| >= MAX_BLOCK_BYTES + HEADER_REACH
      modifies this`readBytes, sender.webm`fpos, block`info
      ensures JustRead(i, ss, unit, es, status)
    {
      hide Serves, AllGood, ChildOk, Bit, Cut, Sizes, NextBlock, ReadingAt, Normal, CanWalk, Offset, Base, Consumed,
           UnitBehind, ElementsBehind, Packets, CleanJunk, Counted, Ready;
      ghost var prev := Normal(block.prev);
      ghost var src := sender.View();
      ReadStep(src, ss, prev, block.info, i, unit, es, junk);
      NumberFits(ss, prev, i, unit, es);
      CursorOffset(src, ss, prev, i, unit, es);
      NormalNext(block.info, block.prev, Spilled(sender.webm.file[sender.webm.fpos..], junk), MAX_BLOCK_BYTES);
      status := ReadBlock(junk);
    }

    /** Moves on behind a block that did not end the cluster. */
    method Advance(ghost ss: seq<Section>, ghost i: nat, ghost unit: seq<u8>, ghost es: seq<seq<u8>>)
      requires JustRead(i, ss, unit, es, Cut(Normal(block.prev), |unit|, Sizes(es)).status)
      requires Cut(Normal(block.prev), |unit|, Sizes(es)).status != CLUSTER_END
      modifies sender.webm`readPos, sender.webm`fpos, block
      ensures AtCursor(i, ss, old(UnitBehind(Normal(block.prev), unit, es)),
                       old(ElementsBehind(Normal(block.prev), unit, es)))
      ensures Normal(block.prev) == old(block.info)
    {
      hide Serves, AllGood, ChildOk, Bit, Cut, Sizes, ReadingAt, Base, UnitBehind, ElementsBehind, Packets, Counted,
           Ready;
      ReadingGoesOn(ss, Normal(block.prev), i, unit, es);
      CutIsLive(Normal(block.prev), i, ss, unit, es);
      CursorOffset(sender.View(), ss, block.info, i, UnitBehind(Normal(block.prev), unit, es),
                   ElementsBehind(Normal(block.prev), unit, es));
      SeekForNextBlock();
      block.ShiftToPreBlock();
    }

    /** CheckWebMSize at this moment. */
    method Look(moments: nat -> Moment, ghost sections: nat -> seq<Section>) returns (grown: bool)
      requires Watching(moments, sections) && Steady(sections(look))
      modifies this`look, sender.webm`file
      ensures Watching(moments, sections) && Steady(sections(look)) && look == clock
      ensures grown <==> old(|sender.webm.file|) < |sender.webm.file|
      ensures Grown(old(sender.webm.file), sender.webm.file, sender.webm.headerBytes,
                    old(sections(look)), sections(look))
      ensures |sections(look)| == old(|sections(look)|) ==>
                sections(look) == old(sections(look))
                && Rounds(sections(look)) == old(Rounds(sections(look)))
    {
      hide Growing, CleanMoments, Serves, ChildOk, AllGood, Bit, Counted, Partial, Announces, End;
      ghost var ss, ss' := sections(look), sections(clock);
      LaterLook(moments, sender.webm.headerBytes, sections, look, clock);
      ServesGood(moments(clock).file, sender.webm.headerBytes, ss');
      forall i | 0 <= i < MAX_CHILD_NUM && Bit(sender.connected, i)
        ensures ChildOk(0, ss', sender.starts[i], sender.children[i].prev, sender.wire[i])
      {
        Grow(0, ss, ss', sender.starts[i], sender.children[i].prev, sender.wire[i]);
      }
      grown := sender.webm.CheckWebMSize(moments(clock).file);
      look := clock;
      if |ss'| == |ss| {
        assert ss' == ss;
        sender.SameBacklog(ss);
      }
    }

    /** A round of sends with that block as the latest, and the next moment's arrival. */
    twostate predicate RoundOf(moments: nat -> Moment, number: u32)
      reads this`clock, sender, sender.children, sender.webm`file, sender.webm`headerBytes
      reads sender.webm`firstClusterSeq, sender.webm`prevCluster, sender.webm`latest
    {
      && sender.SentUpTo(sender.webm.prevCluster.number, number) && Arrived(moments(clock).arrival)
      && (moments(clock).arrival.Nobody? ==> sender.RoundSent(moments(old(clock)).memory))
    }

    /** The body of main's inner loop up to the seek: the block's number becomes the latest, and
        children are served. */
    method SendBlocks(moments: nat -> Moment, ghost sections: nat -> seq<Section>, ghost i: nat,
                      ghost unit: seq<u8>, ghost es: seq<seq<u8>>, ghost status: int)
      requires Watching(moments, sections) && JustRead(i, sections(look), unit, es, status)
      modifies this`clock, sender`wire, sender`connected, sender`childNum, sender`starts, sender.children
      modifies sender.webm`fpos, sender.webm`readPos, sender.webm`latest
      ensures clock == old(clock) + 1
      ensures sender.View() == old(sender.View()).(latest := block.info.number)
      ensures RoundOf(moments, block.info.number)
      ensures Watching(moments, sections) && JustRead(i, sections(look), unit, es, status)
    {
      hide Serves, AllGood, ChildOk, Bit, Cut, Sizes, ReadingAt, Base, Packets, CleanMoments, Normal, BlockCount,
           Growing, Counted, CanSend, Send;
      ghost var ss, src := sections(look), sender.View().(latest := block.info.number);
      CleanNow(sender.webm.headerBytes, moments, sections, clock, look, src);
      ServeAndArrive(block.info.number, moments(clock).memory, moments(clock + 1).arrival, ss);
      clock := clock + 1;
    }

    /** The body of main's inner loop and the read that ends it: children are served, and the
        next block is cut. */
    method NextOfCluster(moments: nat -> Moment, ghost sections: nat -> seq<Section>, ghost i: nat,
                         ghost unit: seq<u8>, ghost es: seq<seq<u8>>, ghost status: int)
      returns (next: int, ghost unit': seq<u8>, ghost es': seq<seq<u8>>)
      requires Watching(moments, sections) && JustRead(i, sections(look), unit, es, status) && status != CLUSTER_END
      modifies this`clock, this`readBytes, block
      modifies sender`wire, sender`connected, sender`childNum, sender`starts, sender.children
      modifies sender.webm`fpos, sender.webm`readPos, sender.webm`latest
      ensures clock == old(clock) + 1 && look == old(look)
      ensures block.info.number == old(block.info.number) + 1
      ensures sender.View() == old(sender.View()).(latest := old(block.info.number))
      ensures RoundOf(moments, old(block.info.number))
      ensures Watching(moments, sections) && JustRead(i, sections(look), unit', es', next)
    {
      hide Serves, AllGood, ChildOk, Bit, Cut, Sizes, ReadingAt, Base, UnitBehind, ElementsBehind, Packets,
           CleanMoments, Normal, BlockCount, Growing, Counted, Ready, RoundOf;
      ghost var ss := sections(look);
      SendBlocks(moments, sections, i, unit, es, status);
      unit', es' := UnitBehind(Normal(block.prev), unit, es), ElementsBehind(Normal(block.prev), unit, es);
      Advance(ss, i, unit, es);
      CleanNow(sender.webm.headerBytes, moments, sections, clock, look, sender.View());
      next := ReadNext(moments(clock).junk, ss, i, unit', es');
    }

    /** Behind the loop: the cluster is closed, with the number of its blocks as the latest. */
    method CloseCluster(ghost ss: seq<Section>, ghost i: nat, ghost unit: seq<u8>, ghost es: seq<seq<u8>>)
      requires JustRead(i, ss, unit, es, CLUSTER_END) && clusterSeq == i
      modifies this`hasPrev, block
      modifies sender.webm`fpos, sender.webm`readPos, sender.webm`latest, sender.webm`prevCluster
      ensures Before(i + 1, ss)
      ensures sender.View() == old(sender.View()).(closedSeq := i, latest := old(block.info.number))
    {
      hide Serves, AllGood, ChildOk, Bit, Cut, Sizes, ReadingAt, Base, Packets, BlockCount, Counted;
      NextHeader(sender.View(), ss, Normal(block.prev), i, unit, es);
      sender.webm.latest := block.info.number;
      SeekForNextBlock();
      block.RenewBlock();
      sender.webm.prevCluster := sender.webm.prevCluster.(number := clusterSeq);
      hasPrev := true;
    }

    /** The cluster at the position: all its blocks are read, their number is recorded, and the
        position is in front of the next header; children are served after each block but the
        last. */
    method SendCluster(moments: nat -> Moment, ghost sections: nat -> seq<Section>, ghost i: nat)
      requires Watching(moments, sections) && i < |sections(look)| && clusterSeq == i
      requires AtCursor(i, sections(look), [], sections(look)[i].es) && Normal(block.prev) == ClusterStart(i)
      modifies this`clock, this`readBytes, this`hasPrev, block
      modifies sender`wire, sender`connected, sender`childNum, sender`starts, sender.children
      modifies sender.webm`fpos, sender.webm`readPos, sender.webm`latest, sender.webm`prevCluster
      ensures Watching(moments, sections) && Before(i + 1, sections(look))
      ensures clock == old(clock) + BlockCount(sections(look), i) - 1
      ensures sender.View() == old(sender.View()).(closedSeq := i, latest := BlockCount(sections(look), i))
    {
      hide Serves, AllGood, ChildOk, Bit, Cut, Sizes, ReadingAt, Base, Packets, CleanMoments, Normal, BlockCount,
           Growing, Counted;
      ghost var ss := sections(look);
      ghost var unit, es := [], ss[i].es;
      CleanNow(sender.webm.headerBytes, moments, sections, clock, look, sender.View());
      var status := ReadNext(moments(clock).junk, ss, i, unit, es);
      while status != CLUSTER_END
        invariant Watching(moments, sections) && ss == sections(look)
        invariant clock == old(clock) + block.info.number - 1
        invariant sender.View() == old(sender.View()).(latest := sender.webm.latest)
        invariant JustRead(i, ss, unit, es, status) && clusterSeq == i
        decreases BlockCount(ss, i) - block.info.number
      {
        status, unit, es := NextOfCluster(moments, sections, i, unit, es, status);
      }
      NextHeader(sender.View(), ss, Normal(block.prev), i, unit, es);
      CloseCluster(ss, i, unit, es);
    }

    /** CheckWebMSize in front of a cluster. */
    method LookBefore(moments: nat -> Moment, ghost sections: nat -> seq<Section>, ghost i: nat)
      returns (grown: bool)
      requires Watching(moments, sections) && Steady(sections(look)) && Before(i, sections(look))
      modifies this`look, sender.webm`file
      ensures Watching(moments, sections) && Steady(sections(look)) && Before(i, sections(look)) && look == clock
      ensures i <= old(|sections(look)|) <= |sections(look)|
      ensures grown <==> old(|sender.webm.file|) < |sender.webm.file|
      ensures old(|sender.webm.file|) <= |sender.webm.file|
      ensures |sections(look)| == old(|sections(look)|) ==>
                sections(look) == old(sections(look)) && Rounds(sections(look)) == old(Rounds(sections(look)))
    {
      hide Watching, Serves, AllGood, ChildOk, Ready, Counted, Base, Announces, End, Rounds, Steady, Poised;
      ghost var ss := sections(look);
      SteadyParts(ss);
      PoisedAt(i, ss);
      grown := Look(moments, sections);
      SteadyParts(sections(look));
      PoisedGrows(i, ss, sections(look));
    }

    /** A turn of the wait for the file to grow. */
    method GrowthTurn(moments: nat -> Moment, ghost sections: nat -> seq<Section>, ghost i: nat)
      returns (grown: bool)
      requires Watching(moments, sections) && Steady(sections(look)) && Before(i, sections(look))
      modifies this`clock, this`look, sender.webm`file
      modifies sender`wire, sender`connected, sender`childNum, sender`starts, sender.children
      ensures Watching(moments, sections) && Steady(sections(look)) && Before(i, sections(look))
      ensures old(look) <= clock == look == old(clock) + 1 && old(|sender.webm.file|) <= |sender.webm.file|
      ensures grown <==> old(|sender.webm.file|) < |sender.webm.file|
      ensures Arrived(moments(clock).arrival) && sender.NothingSent()
    {
      hide Growing, CleanMoments, Steady, Poised, Rounds, Base, Bit, FreeSlot, ClusterStart, U16;
      clock := clock + 1;
      grown := LookBefore(moments, sections, i);
      JoinsLate(moments, sections);
      SteadyParts(sections(look));
      Arrive(moments(clock).arrival, sections(look));
    }

    /** The wait for the file to grow at all, which serves nobody. */
    method AwaitGrowth(moments: nat -> Moment, turns: nat, ghost sections: nat -> seq<Section>, ghost i: nat)
      returns (grown: bool)
      requires Watching(moments, sections) && Steady(sections(look)) && Before(i, sections(look)) && look == clock
      modifies this`clock, this`look, sender.webm`file
      modifies sender`wire, sender`connected, sender`childNum, sender`starts, sender.children
      ensures Watching(moments, sections) && Steady(sections(look)) && Before(i, sections(look))
      ensures old(clock) <= clock == look && (!grown ==> clock == old(clock) + turns)
      ensures old(|sender.webm.file|) <= |sender.webm.file|
      ensures grown <==> old(|sender.webm.file|) < |sender.webm.file|
    {
      hide Watching, Steady, Before, Arrived;
      grown := false;
      var left := turns;
      while !grown && left > 0
        invariant Watching(moments, sections) && Steady(sections(look)) && Before(i, sections(look))
        invariant 0 <= left <= turns && look == clock == old(clock) + (turns - left)
        invariant old(|sender.webm.file|) <= |sender.webm.file|
        invariant grown <==> old(|sender.webm.file|) < |sender.webm.file|
      {
        grown := GrowthTurn(moments, sections, i);
        left := left - 1;
      }
    }

    /** What is ready for one file is ready for a longer one. */
    lemma PoisedGrows(i: nat, ss: seq<Section>, ss': seq<Section>)
      requires ss <= ss' && |ss'| < 0x1_0000 && AllGood(ss) && AllGood(ss') && Poised(i, ss)
      ensures Poised(i, ss') && Base(sender.webm.headerBytes, ss', i) == Base(sender.webm.headerBytes, ss, i)
    {
      hide AllGood, Tracks, Normal, Base, Packets;
      SameBase(sender.webm.headerBytes, ss, ss', i);
    }

    /** Children have been served, and then somebody may have come or gone. */
    twostate predicate Waited(moments: nat -> Moment)
      reads this`clock, sender, sender.webm`prevCluster, sender.webm`latest, sender.children
    {
      sender.SentUpTo(sender.webm.prevCluster.number, sender.webm.latest) && Arrived(moments(clock).arrival)
    }

    /** What both waiting loops do in a turn: children are served, and the file is looked at
        again. If nobody comes or goes and no cluster is added, fewer rounds are
        left. */
    method WaitRound(moments: nat -> Moment, ghost sections: nat -> seq<Section>)
      requires Watching(moments, sections) && Steady(sections(look))
      modifies this`clock, this`look, sender.webm`file, sender.webm`fpos, sender.webm`readPos
      modifies sender`wire, sender`connected, sender`childNum, sender`starts, sender.children
      ensures Watching(moments, sections) && Steady(sections(look)) && clock == look == old(clock) + 1
      ensures sender.webm.readPos == sender.webm.fpos == old(sender.webm.fpos)
      ensures Waited(moments)
      ensures Grown(old(sender.webm.file), sender.webm.file, sender.webm.headerBytes,
                    old(sections(look)), sections(look))
      ensures moments(clock).arrival.Nobody? && |sections(look)| == old(|sections(look)|) ==>
                && sections(look) == old(sections(look))
                && (Rounds(sections(look)) == 0
                    || Rounds(sections(look)) < old(Rounds(sections(look))))
    {
      hide Growing, CleanMoments, Steady, Grown, Place, Bit, FreeSlot, ClusterStart, Rounds, U16;
      CleanHere(moments, sections);
      Serve(moments(clock).memory, sections(look));
      clock := clock + 1;
      var grown := Look(moments, sections);
      JoinsLate(moments, sections);
      Arrive(moments(clock).arrival, sections(look));
    }

    lemma CleanHere(moments: nat -> Moment, sections: nat -> seq<Section>)
      requires Watching(moments, sections) && Steady(sections(look))
      ensures CleanJunk(sender.View(), sections(look), moments(clock).junk)
      ensures |moments(clock).junk| >= MAX_BLOCK_BYTES + HEADER_REACH
      ensures forall i :: CleanBeyond(sender.View(), sections(look), moments(clock).memory(i))
                          && |moments(clock).memory(i)| >= HEADER_REACH
    {
      hide Growing, CleanMoments, Serves, CleanJunk, CleanBeyond;
      CleanNow(sender.webm.headerBytes, moments, sections, clock, look, sender.View());
    }

    lemma JoinsLate(moments: nat -> Moment, sections: nat -> seq<Section>)
      requires Watching(moments, sections)
      ensures Joins(moments(clock).arrival) ==> |sections(clock)| > 0
    {
      hide Growing, CleanMoments, Serves, Partial, Grown, Joins;
      LaterLook(moments, sender.webm.headerBytes, sections, clock, clock);
    }

    /** SeekRLTWebM by a header's length. */
    method StepBack(ghost ss: seq<Section>)
      requires Steady(ss) && sender.webm.fpos >= CLUSTER_HEADER_BYTES
      modifies sender.webm`fpos, sender.webm`readPos
      ensures Steady(ss) && Rounds(ss) == old(Rounds(ss))
      ensures sender.webm.readPos == sender.webm.fpos == old(sender.webm.fpos) - CLUSTER_HEADER_BYTES
    {
      hide Serves, AllGood, ChildOk, Bit, Counted, Ready;
      sender.webm.SeekRLTWebM(-CLUSTER_HEADER_BYTES);
      sender.SameBacklog(ss);
    }

    /** Reads what there is of a header, over what was in the buffer, and tests it. */
    method ReadHeader(stale: seq<u8>, ghost ss: seq<Section>) returns (found: bool, head: seq<u8>)
      requires Steady(ss) && |stale| == CLUSTER_HEADER_BYTES && sender.webm.readPos <= sender.webm.fpos
      modifies sender.webm`fpos
      ensures Steady(ss) && Rounds(ss) == old(Rounds(ss))
      ensures var ahead := HeadAt(sender.webm.file, old(sender.webm.fpos));
              && sender.webm.fpos == old(sender.webm.fpos) + |ahead|
              && head == ahead + stale[|ahead|..] && (found <==> IsFinal(head))
    {
      hide Serves, AllGood, ChildOk, Bit, Counted, Ready, IdValue;
      var read := sender.webm.ImportWebM(CLUSTER_HEADER_BYTES);
      head := read + stale[|read|..];
      sender.SameBacklog(ss);
      IdInHeader(head);
      var id, idBytes := GetEBMLID(head);
      found := id == CLUSTER_ID && head != FOOTER;
    }

    method WaitAndStepBack(moments: nat -> Moment, ghost sections: nat -> seq<Section>)
      requires Watching(moments, sections) && Steady(sections(look)) && sender.webm.fpos >= CLUSTER_HEADER_BYTES
      modifies this`clock, this`look, sender.webm`file, sender.webm`fpos, sender.webm`readPos
      modifies sender`wire, sender`connected, sender`childNum, sender`starts, sender.children
      ensures Waited(moments) && clock == look == old(clock) + 1
      ensures sender.webm.readPos == sender.webm.fpos == old(sender.webm.fpos) - CLUSTER_HEADER_BYTES
      ensures Watching(moments, sections) && Steady(sections(look))
      ensures Grown(old(sender.webm.file), sender.webm.file, sender.webm.headerBytes,
                    old(sections(look)), sections(look))
      ensures moments(clock).arrival.Nobody? && |sections(look)| == old(|sections(look)|) ==>
                && sections(look) == old(sections(look))
                && (Rounds(sections(look)) == 0
                    || Rounds(sections(look)) < old(Rounds(sections(look))))
    {
      hide Growing, CleanMoments, Grown, Steady, Rounds, Waited;
      WaitRound(moments, sections);
      StepBack(sections(look));
    }

    /** One turn of the waiting loop: unless there is the final header of a Cluster, children
        are served, the file is looked at again, and the position goes back by twelve, however
        many bytes have been read. */
    method WaitTurn(moments: nat -> Moment, stale: seq<u8>, ghost sections: nat -> seq<Section>)
      returns (found: bool, head: seq<u8>)
      requires Watching(moments, sections) && Steady(sections(look)) && |stale| == CLUSTER_HEADER_BYTES
      requires sender.webm.readPos == sender.webm.fpos && TurnEnd(|sender.webm.file|, sender.webm.fpos) >= 0
      modifies this`clock, this`look, sender.webm`file, sender.webm`fpos, sender.webm`readPos
      modifies sender`wire, sender`connected, sender`childNum, sender`starts, sender.children
      ensures Watching(moments, sections) && Steady(sections(look))
      ensures var ahead := old(HeadAt(sender.webm.file, sender.webm.fpos));
              && head == ahead + stale[|ahead|..] && (found <==> IsFinal(head))
              && (found ==> sender.webm.fpos == old(sender.webm.fpos) + |ahead|)
      ensures found ==>
                && unchanged(this) && unchanged(sender.webm`file) && unchanged(sender.webm`readPos)
                && Rounds(sections(look)) == old(Rounds(sections(look)))
      ensures !found ==>
                && Waited(moments)
                && clock == look == old(clock) + 1
                && sender.webm.readPos == sender.webm.fpos
                   == TurnEnd(old(|sender.webm.file|), old(sender.webm.fpos))
                && Grown(old(sender.webm.file), sender.webm.file, sender.webm.headerBytes,
                         old(sections(look)), sections(look))
      ensures !found && moments(clock).arrival.Nobody? && |sections(look)| == old(|sections(look)|) ==>
                && sections(look) == old(sections(look))
                && (Rounds(sections(look)) == 0
                    || Rounds(sections(look)) < old(Rounds(sections(look))))
    {
      hide Growing, CleanMoments, Grown, IsFinal, Serves, AllGood, ChildOk, Bit, Counted, Ready, Place, FreeSlot,
           ClusterStart, U16;
      found, head := ReadHeader(stale, sections(look));
      if !found {
        WaitAndStepBack(moments, sections);
      }
    }

    /** Behind the final header of cluster i, which need not be all there. */
    ghost predicate HeaderRead(i: nat, ss: seq<Section>, head: seq<u8>)
      reads this`hasPrev, sender, sender.webm, sender.children, block
    {
      && i <= |ss|
      && var p := Base(sender.webm.headerBytes, ss, i);
      && Steady(ss) && Poised(i, ss) && |head| == CLUSTER_HEADER_BYTES && IsFinal(head)
      && sender.webm.readPos in {p, p + CLUSTER_HEADER_BYTES}
      && sender.webm.fpos == p + CLUSTER_HEADER_BYTES <= |sender.webm.file|
      && sender.webm.file[p..p + CLUSTER_HEADER_BYTES] == head
    }

    /** The children have been served for that many turns during which nobody came or went and
        no cluster was added. */
    ghost predicate Drained(ss: seq<Section>, turns: nat, backlog: int)
      requires Steady(ss)
      reads sender, sender.webm, sender.children
    {
      Rounds(ss) == 0 || Rounds(ss) + turns <= backlog
    }

    lemma SteadyParts(ss: seq<Section>)
      requires Steady(ss)
      ensures |ss| < 0x1_0000 && AllGood(ss) && sender.webm.fpos <= |sender.webm.file| && block !in sender.children
      ensures Serves(sender.webm.file, sender.webm.headerBytes, ss)
    {
      hide Serves, AllGood, ChildOk, Ready;
    }

    lemma PoisedAt(i: nat, ss: seq<Section>)
      requires |ss| < 0x1_0000 && AllGood(ss) && Poised(i, ss)
      ensures i <= |ss|
    {
    }

    /** A look at the file in front of a cluster. */
    lemma StillBefore(i: nat, file: seq<u8>, ss: seq<Section>, ss': seq<Section>)
      requires |ss| < 0x1_0000 && AllGood(ss) && Poised(i, ss) && Steady(ss')
      requires Grown(file, sender.webm.file, sender.webm.headerBytes, ss, ss')
      requires sender.webm.readPos == sender.webm.fpos == Base(sender.webm.headerBytes, ss, i)
      ensures Before(i, ss') && |file| <= |sender.webm.file| && |ss| <= |ss'|
    {
      hide Serves, AllGood, ChildOk, Ready, Base, Announces, Poised;
      PoisedGrows(i, ss, ss');
    }

    /** A turn in front of the next cluster, with twelve bytes there to read, ends behind its
        final header or in front of the cluster again. */
    method HeaderTurn(moments: nat -> Moment, stale: seq<u8>, ghost sections: nat -> seq<Section>, ghost i: nat)
      returns (found: bool, head: seq<u8>)
      requires Watching(moments, sections) && Steady(sections(look)) && |stale| == CLUSTER_HEADER_BYTES
      requires InFront(i, sections(look))
      modifies this`clock, this`look, sender.webm`file, sender.webm`fpos, sender.webm`readPos
      modifies sender`wire, sender`connected, sender`childNum, sender`starts, sender.children
      ensures Watching(moments, sections) && Steady(sections(look)) && |head| == CLUSTER_HEADER_BYTES
      ensures found ==> HeaderRead(i, sections(look), head)
      ensures found ==>
                && clock == old(clock) && look == old(look)
                && sender.webm.readPos + CLUSTER_HEADER_BYTES == sender.webm.fpos
                && Rounds(sections(look)) == old(Rounds(sections(look)))
      ensures !found ==> InFront(i, sections(look)) && clock == look == old(clock) + 1
      ensures !found ==> Waited(moments)
      ensures i < old(|sections(look)|) ==> found
      ensures old(|sections(look)|) <= |sections(look)|
      ensures !found && moments(clock).arrival.Nobody? && |sections(look)| == old(|sections(look)|) ==>
                sections(look) == old(sections(look))
                && (Rounds(sections(look)) == 0 || Rounds(sections(look)) < old(Rounds(sections(look))))
    {
      hide Growing, CleanMoments, Grown, IsFinal, Serves, AllGood, ChildOk, Bit, Counted, Ready, Base, Steady, Poised,
           Rounds;
      ghost var file, ss := sender.webm.file, sections(look);
      SteadyParts(ss);
      PoisedAt(i, ss);
      found, head := WaitTurn(moments, stale, sections);
      FinalAhead(file, sender.webm.headerBytes, ss, i);
      ghost var ahead := HeadAt(file, Base(sender.webm.headerBytes, ss, i));
      assert |ahead| == CLUSTER_HEADER_BYTES ==> ahead + stale[|ahead|..] == ahead;
      if found {
        assert head == sender.webm.file[old(sender.webm.fpos)..old(sender.webm.fpos) + CLUSTER_HEADER_BYTES];
      } else {
        StillBefore(i, file, ss, sections(look));
      }
    }

    /** In front of cluster i, with a header's bytes there to read. */
    ghost predicate InFront(i: nat, ss: seq<Section>)
      reads this`hasPrev, sender, sender.webm, sender.children, block
    {
      Before(i, ss) && sender.webm.fpos + CLUSTER_HEADER_BYTES <= |sender.webm.file|
    }

    /** The waiting loop, for at most that many turns. The position is always in front of the
        next header; a header that is there is found by the next turn. */
    method AwaitHeader(moments: nat -> Moment, turns: nat, ghost sections: nat -> seq<Section>, ghost i: nat)
      returns (found: bool, head: seq<u8>)
      requires Watching(moments, sections) && Steady(sections(look)) && InFront(i, sections(look)) && look == clock
      modifies this`clock, this`look, sender.webm`file, sender.webm`fpos, sender.webm`readPos
      modifies sender`wire, sender`connected, sender`childNum, sender`starts, sender.children
      ensures Watching(moments, sections) && Steady(sections(look)) && old(clock) <= clock == look
      ensures found ==>
                HeaderRead(i, sections(look), head) && sender.webm.readPos + CLUSTER_HEADER_BYTES == sender.webm.fpos
      ensures !found ==> InFront(i, sections(look)) && clock == old(clock) + turns
      ensures !found && turns > 0 ==> |sections(old(clock))| <= |sections(clock - 1)| <= i
      ensures old(|sections(look)|) <= |sections(look)|
      ensures Quiet(moments, old(clock), clock) && |sections(look)| == old(|sections(look)|) ==>
                && sections(look) == old(sections(look))
                && Drained(sections(look), if found then 0 else turns, old(Rounds(sections(look))))
    {
      hide Watching, Steady, InFront, HeaderRead, Rounds, Waited;
      found := false;
      CleanHere(moments, sections);
      head := moments(clock).junk[..CLUSTER_HEADER_BYTES];
      var left := turns;
      while !found && left > 0
        invariant Watching(moments, sections) && Steady(sections(look)) && |head| == CLUSTER_HEADER_BYTES
        invariant 0 <= left <= turns && old(clock) <= clock == look
        invariant if found then
                    && HeaderRead(i, sections(look), head)
                    && sender.webm.readPos + CLUSTER_HEADER_BYTES == sender.webm.fpos
                  else InFront(i, sections(look)) && clock == old(clock) + (turns - left)
        invariant !found && left < turns ==> |sections(old(clock))| <= |sections(clock - 1)| <= i
        invariant old(|sections(look)|) <= |sections(look)|
        invariant Quiet(moments, old(clock), clock) && |sections(look)| == old(|sections(look)|) ==>
                    && sections(look) == old(sections(look))
                    && Drained(sections(look), if found then 0 else turns - left, old(Rounds(sections(look))))
      {
        found, head := HeaderTurn(moments, head, sections, i);
        left := left - 1;
      }
    }

    /** RenewClusterForRead on a header just read, which is regular. */
    method RenewClusterForRead(head: seq<u8>, moments: nat -> Moment, ghost sections: nat -> seq<Section>, ghost i: nat)
      returns (chankBytes: nat)
      requires Watching(moments, sections) && HeaderRead(i, sections(look), head)
      modifies this`clusterSeq
      ensures clusterSeq == i && HasHeader(head) && chankBytes == ChankAt(head).chankBytes
    {
      hide Growing, CleanMoments, Serves, AllGood, ChildOk, Ready, Counted, Bit, BlockCount, ChankAt, HasHeader,
           IsFinal, Base, Partial, Grown, Tracks;
      LaterLook(moments, sender.webm.headerBytes, sections, look, look);
      HeaderIsRegular(sender.webm.file, sender.webm.headerBytes, sections(look), i);
      var chank := GetChank(head);
      chankBytes := chank.chankBytes;
      clusterSeq := if hasPrev then U32(sender.webm.prevCluster.number + 1) else 0;
    }

    /** The wait for the rest of a cluster, for at most that many turns. When it ends the
        cluster is all there. It ends at once if the cluster is; later, with the position
        remembered behind the header, it takes twelve bytes more. */
    method AwaitCluster(moments: nat -> Moment, turns: nat, chankBytes: nat, head: seq<u8>,
                        ghost sections: nat -> seq<Section>, ghost i: nat)
      returns (whole: bool)
      requires Watching(moments, sections) && Steady(sections(look)) && HeaderRead(i, sections(look), head)
      requires HasHeader(head) && chankBytes == ChankAt(head).chankBytes && look == clock
      requires sender.webm.readPos + CLUSTER_HEADER_BYTES == sender.webm.fpos
      modifies this`clock, this`look, sender.webm`file, sender.webm`fpos, sender.webm`readPos
      modifies sender`wire, sender`connected, sender`childNum, sender`starts, sender.children
      ensures Watching(moments, sections) && Steady(sections(look)) && old(clock) <= clock == look
      ensures HeaderRead(i, sections(look), head) && (whole ==> i < |sections(look)|)
      ensures sender.webm.fpos == old(sender.webm.fpos)
      ensures whole <==>
                || old(sender.webm.readPos) + chankBytes <= old(|sender.webm.file|)
                || old(sender.webm.readPos) + chankBytes + CLUSTER_HEADER_BYTES <= |sender.webm.file|
      ensures !whole ==> clock == old(clock) + turns
      ensures old(|sections(look)|) <= |sections(look)|
      ensures !whole && Quiet(moments, old(clock), clock) && |sections(look)| == old(|sections(look)|) ==>
                && sections(look) == old(sections(look))
                && Drained(sections(look), turns, old(Rounds(sections(look))))
    {
      hide Watching, Steady, HeaderRead, Rounds, ChankAt, HasHeader, Waited;
      var left := turns;
      HeaderInFile(i, sections(look), head);
      while |sender.webm.file| - sender.webm.readPos < chankBytes && left > 0
        invariant Watching(moments, sections) && Steady(sections(look)) && HeaderRead(i, sections(look), head)
        invariant 0 <= left <= turns && clock == look == old(clock) + (turns - left)
        invariant old(|sections(look)|) <= |sections(look)| && old(|sender.webm.file|) <= |sender.webm.file|
        invariant sender.webm.fpos == old(sender.webm.fpos)
        invariant sender.webm.readPos == if left == turns then old(sender.webm.readPos) else sender.webm.fpos
        invariant if left < turns then old(|sender.webm.file|) - old(sender.webm.readPos) < chankBytes
                  else |sender.webm.file| == old(|sender.webm.file|)
        invariant Quiet(moments, old(clock), clock) && |sections(look)| == old(|sections(look)|) ==>
                    && sections(look) == old(sections(look))
                    && Drained(sections(look), turns - left, old(Rounds(sections(look))))
        decreases left
      {
        ClusterTurn(moments, head, sections, i);
        left := left - 1;
      }
      whole := |sender.webm.file| - sender.webm.readPos >= chankBytes;
      if whole {
        ClusterIsWhole(moments, head, sections, i);
      }
    }

    /** A turn behind a final header: it is still there. */
    method ClusterTurn(moments: nat -> Moment, head: seq<u8>, ghost sections: nat -> seq<Section>, ghost i: nat)
      requires Watching(moments, sections) && Steady(sections(look)) && HeaderRead(i, sections(look), head)
      modifies this`clock, this`look, sender.webm`file, sender.webm`fpos, sender.webm`readPos
      modifies sender`wire, sender`connected, sender`childNum, sender`starts, sender.children
      ensures Watching(moments, sections) && Steady(sections(look)) && HeaderRead(i, sections(look), head)
      ensures clock == look == old(clock) + 1 && old(|sections(look)|) <= |sections(look)|
      ensures Waited(moments)
      ensures sender.webm.readPos == sender.webm.fpos == old(sender.webm.fpos)
      ensures old(|sender.webm.file|) <= |sender.webm.file|
      ensures moments(clock).arrival.Nobody? && |sections(look)| == old(|sections(look)|) ==>
                sections(look) == old(sections(look))
                && (Rounds(sections(look)) == 0 || Rounds(sections(look)) < old(Rounds(sections(look))))
    {
      hide Watching, Grown, IsFinal, Serves, AllGood, ChildOk, Bit, Counted, Ready, Base, Steady, Poised, Rounds;
      ghost var file, ss := sender.webm.file, sections(look);
      SteadyParts(ss);
      PoisedAt(i, ss);
      WaitRound(moments, sections);
      SteadyParts(sections(look));
      HeadStays(file, sender.webm.file, sender.webm.headerBytes, ss, sections(look), i);
      PoisedGrows(i, ss, sections(look));
    }

    lemma HeaderInFile(i: nat, ss: seq<Section>, head: seq<u8>)
      requires HeaderRead(i, ss, head)
      ensures sender.webm.readPos <= sender.webm.fpos <= |sender.webm.file|
    {
      hide Serves, AllGood, ChildOk, Ready, Base, Poised, Steady, IsFinal;
    }

    /** If there is room for the cluster behind the position remembered, the cluster is there. */
    lemma ClusterIsWhole(moments: nat -> Moment, head: seq<u8>, sections: nat -> seq<Section>, i: nat)
      requires Watching(moments, sections) && HeaderRead(i, sections(look), head) && HasHeader(head)
      requires |sender.webm.file| - sender.webm.readPos >= ChankAt(head).chankBytes
      ensures i < |sections(look)|
    {
      hide Growing, CleanMoments, Serves, AllGood, ChildOk, Ready, Counted, Bit, ChankAt, HasHeader, IsFinal, Base,
           Poised, Grown, Steady;
      LaterLook(moments, sender.webm.headerBytes, sections, look, look);
    }

    /** What is true when a wait of that many turns has found no cluster i: it was not there when
        the wait began, nor, with a header's length behind it, when the last turn began; and
        if no cluster is left and nobody has come or gone meanwhile, every child that was due
        anything has been sent it, provided that there was a header's length to read. */
    ghost predicate WaitedFor(moments: nat -> Moment, sections: nat -> seq<Section>, turns: nat, i: nat)
      requires Steady(sections(look))
      reads this`look, this`clock, sender, sender.webm, sender.children
    {
      && turns <= clock == look
      && (turns > 0 ==>
            && |sections(clock - turns)| <= i
            && Missed(moments, sender.webm.headerBytes, sections, i, clock - 1))
      && (|sections(look)| == i && turns > 2 * AllPackets(sections(look)) && Quiet(moments, clock - turns, clock)
          && End(sender.webm.headerBytes, sections(look)) + CLUSTER_HEADER_BYTES <= |moments(clock - turns).file| ==>
            Rounds(sections(look)) == 0)
    }

    lemma TurnsEnough(moments: nat -> Moment, sections: nat -> seq<Section>, turns: nat, i: nat, backlog: nat)
      requires Steady(sections(look)) && turns <= clock == look
      requires turns > 0 ==>
                 && |sections(clock - turns)| <= i
                 && Missed(moments, sender.webm.headerBytes, sections, i, clock - 1)
      requires Quiet(moments, clock - turns, clock) && |sections(look)| == i ==>
                 Drained(sections(look), turns, backlog) && backlog <= 1 + 2 * AllPackets(sections(look))
      ensures WaitedFor(moments, sections, turns, i)
    {
      hide Steady, Rounds, Missed, Quiet, AllPackets;
    }

    /** The waiting loop, and the wait for the cluster whose header it found. */
    method AwaitNext(moments: nat -> Moment, turns: nat, ghost sections: nat -> seq<Section>, ghost i: nat)
      returns (found: bool)
      requires Watching(moments, sections) && Steady(sections(look)) && InFront(i, sections(look)) && look == clock
      modifies this`clock, this`look, this`clusterSeq, sender.webm`file, sender.webm`fpos, sender.webm`readPos
      modifies sender`wire, sender`connected, sender`childNum, sender`starts, sender.children
      ensures Watching(moments, sections) && Steady(sections(look)) && Poised(i, sections(look))
      ensures old(clock) <= clock && i <= |sections(look)|
      ensures found ==>
                && i < |sections(look)| && clusterSeq == i
                && AtCursor(i, sections(look), [], sections(look)[i].es) && Normal(block.prev) == ClusterStart(i)
      ensures !found ==> old(clock) + turns <= clock && WaitedFor(moments, sections, turns, i)
    {
      hide Watching, Steady, HeaderRead, InFront, Rounds, AtCursor, Poised, Base, WaitedFor, Quiet, AllPackets, Drained;
      RoundsBound(sections(look));
      FrontPoised(i, sections(look));
      ghost var backlog := Rounds(sections(look));
      var head;
      found, head := AwaitHeader(moments, turns, sections, i);
      if found {
        found := AwaitWhole(moments, turns, head, sections, i);
      } else {
        FrontPoised(i, sections(look));
        TurnsEnough(moments, sections, turns, i, backlog);
      }
    }

    /** Behind a header: the cluster is prepared and waited for. */
    method AwaitWhole(moments: nat -> Moment, turns: nat, head: seq<u8>, ghost sections: nat -> seq<Section>,
                      ghost i: nat)
      returns (whole: bool)
      requires Watching(moments, sections) && Steady(sections(look)) && HeaderRead(i, sections(look), head)
      requires look == clock && sender.webm.readPos + CLUSTER_HEADER_BYTES == sender.webm.fpos
      modifies this`clock, this`look, this`clusterSeq, sender.webm`file, sender.webm`fpos, sender.webm`readPos
      modifies sender`wire, sender`connected, sender`childNum, sender`starts, sender.children
      ensures Watching(moments, sections) && Steady(sections(look)) && Poised(i, sections(look))
      ensures old(clock) <= clock && i <= |sections(look)|
      ensures whole ==>
                && i < |sections(look)| && clusterSeq == i
                && AtCursor(i, sections(look), [], sections(look)[i].es) && Normal(block.prev) == ClusterStart(i)
      ensures !whole ==> clock == old(clock) + turns && WaitedFor(moments, sections, turns, i)
    {
      hide Watching, Steady, HeaderRead, Rounds, ChankAt, HasHeader, AtCursor, Poised, Base, WaitedFor, Quiet,
           AllPackets, Drained, Missed;
      RoundsBound(sections(look));
      HeaderPoised(i, sections(look), head);
      FileSeen(moments, sections);
      ghost var backlog, start := Rounds(sections(look)), clock;
      var chankBytes := RenewClusterForRead(head, moments, sections, i);
      whole := AwaitCluster(moments, turns, chankBytes, head, sections, i);
      HeaderPoised(i, sections(look), head);
      if whole {
        HeaderCursor(i, sections(look), head);
      } else {
        NotWhole(moments, head, sections, i, turns, start);
        TurnsEnough(moments, sections, turns, i, backlog);
      }
    }

    /** When the wait for a cluster announced ends without it. */
    lemma NotWhole(moments: nat -> Moment, head: seq<u8>, sections: nat -> seq<Section>, i: nat, turns: nat, start: nat)
      requires Watching(moments, sections) && HeaderRead(i, sections(look), head) && HasHeader(head)
      requires start + turns == clock == look
      requires sender.webm.fpos + ChankAt(head).chankBytes > |sender.webm.file|
      requires sender.webm.fpos - CLUSTER_HEADER_BYTES + ChankAt(head).chankBytes > |moments(start).file|
      ensures |sections(start)| <= i
      ensures turns > 0 ==> Missed(moments, sender.webm.headerBytes, sections, i, clock - 1)
    {
      hide Growing, CleanMoments, Serves, AllGood, ChildOk, Ready, Counted, Bit, ChankAt, HasHeader, IsFinal, Base,
           Poised, Grown, Partial, Steady, Announces;
      var hb, ss := sender.webm.headerBytes, sections(look);
      LaterLook(moments, hb, sections, start, start);
      LaterLook(moments, hb, sections, start, look);
      GrownPrefix(moments(start).file, sender.webm.file, hb, sections(start), ss);
      if i < |sections(start)| {
        HeaderAhead(moments(start).file, hb, sections(start), i);
        HeaderAhead(sender.webm.file, hb, ss, i);
        SameBase(hb, sections(start), ss, i);
      }
      if i < |ss| {
        HeaderAhead(sender.webm.file, hb, ss, i);
        if i + 1 < |ss| {
          HeaderAhead(sender.webm.file, hb, ss, i + 1);
        }
      }
      if turns > 0 {
        MissedBefore(moments, hb, sections, i, clock - 1, clock);
      }
    }

    /** When the wait for the file to grow ends without its growing. */
    lemma NotGrown(moments: nat -> Moment, sections: nat -> seq<Section>, i: nat, turns: nat)
      requires Watching(moments, sections) && Steady(sections(look)) && Before(i, sections(look))
      requires turns <= clock == look && |moments(clock - turns).file| == |sender.webm.file|
      requires |sender.webm.file| < sender.webm.fpos + CLUSTER_HEADER_BYTES
      ensures WaitedFor(moments, sections, turns, i)
    {
      hide Growing, CleanMoments, Serves, AllGood, ChildOk, Ready, Counted, Bit, ChankAt, HasHeader, IsFinal, Base,
           Poised, Grown, Partial, Steady, Announces, Rounds;
      var hb, ss := sender.webm.headerBytes, sections(look);
      LaterLook(moments, hb, sections, clock - turns, look);
      LaterLook(moments, hb, sections, look, look);
      GrownPrefix(moments(clock - turns).file, sender.webm.file, hb, sections(clock - turns), ss);
      SteadyParts(ss);
      BeforeParts(i, ss);
      if i < |ss| {
        HeaderAhead(sender.webm.file, hb, ss, i);
      }
      if turns > 0 {
        MissedBefore(moments, hb, sections, i, clock - 1, clock);
      }
    }

    lemma FrontPoised(i: nat, ss: seq<Section>)
      requires InFront(i, ss)
      ensures |ss| < 0x1_0000 && AllGood(ss) && Poised(i, ss) && i <= |ss|
    {
      hide Serves, AllGood, ChildOk, Ready, Base, Poised;
      BeforeParts(i, ss);
    }

    /** UpdateClusterFromWebM, for at most that many turns of each of its loops. A cluster that is
        there is found; it gets the next number. If none is found, it was waited for that many
        turns, and if there was a header's length to read and nobody came or went meanwhile,
        then after enough turns every child has been sent everything. */
    method UpdateClusterFromWebM(moments: nat -> Moment, turns: nat, ghost sections: nat -> seq<Section>, ghost i: nat)
      returns (found: bool)
      requires Watching(moments, sections) && Steady(sections(look)) && Before(i, sections(look))
      modifies this`clock, this`look, this`clusterSeq, sender.webm`file, sender.webm`fpos, sender.webm`readPos
      modifies sender`wire, sender`connected, sender`childNum, sender`starts, sender.children
      ensures Watching(moments, sections) && Steady(sections(look)) && Poised(i, sections(look))
      ensures old(clock) <= clock && i <= |sections(look)|
      ensures turns > 0 && i < |sections(old(clock))| ==> found
      ensures found ==>
                && i < |sections(look)| && clusterSeq == i
                && AtCursor(i, sections(look), [], sections(look)[i].es) && Normal(block.prev) == ClusterStart(i)
      ensures !found ==> old(clock) + turns <= clock && WaitedFor(moments, sections, turns, i)
    {
      hide Watching, Steady, HeaderRead, Rounds, ChankAt, HasHeader, AtCursor, Poised, Base, Missed;
      found := false;
      var grown := LookBefore(moments, sections, i);
      FileSeen(moments, sections);
      ghost var first := look;
      if CLUSTER_HEADER_BYTES > |sender.webm.file| - sender.webm.readPos {
        grown := AwaitGrowth(moments, turns, sections, i);
        FileSeen(moments, sections);
        if !grown {
          NotGrown(moments, sections, i, turns);
          BeforeParts(i, sections(look));
          MoreLater(moments, sections, first, clock - turns);
          return;
        }
        GrownEnough(moments, sections, i, first);
      }
      found := AwaitNext(moments, turns, sections, i);
      if !found {
        MoreLater(moments, sections, first, clock - turns);
      }
    }

    lemma MoreLater(moments: nat -> Moment, sections: nat -> seq<Section>, t: nat, u: nat)
      requires Watching(moments, sections) && t <= u
      ensures |sections(t)| <= |sections(u)|
    {
      hide Growing, CleanMoments, Serves, Partial, Grown;
      LaterLook(moments, sender.webm.headerBytes, sections, t, u);
      GrownPrefix(moments(t).file, moments(u).file, sender.webm.headerBytes, sections(t), sections(u));
    }

    lemma RoundsBound(ss: seq<Section>)
      requires Steady(ss)
      ensures |ss| < 0x1_0000 && AllGood(ss) && Rounds(ss) <= 1 + 2 * AllPackets(ss)
    {
      hide Serves, AllGood, ChildOk, Ready, Stream;
      sender.BacklogBound(ss);
    }

    lemma FileSeen(moments: nat -> Moment, sections: nat -> seq<Section>)
      requires Watching(moments, sections)
      ensures sender.webm.file == moments(look).file
    {
      hide Growing, CleanMoments;
    }

    lemma HeaderPoised(i: nat, ss: seq<Section>, head: seq<u8>)
      requires HeaderRead(i, ss, head)
      ensures i <= |ss| < 0x1_0000 && AllGood(ss) && Poised(i, ss)
    {
      hide Serves, AllGood, ChildOk, Ready, Base, IsFinal, Poised;
    }

    /** After a growth there is a header's length to read. */
    lemma GrownEnough(moments: nat -> Moment, sections: nat -> seq<Section>, i: nat, first: nat)
      requires Watching(moments, sections) && Steady(sections(look)) && Before(i, sections(look)) && first <= look
      requires i <= |sections(first)| && |moments(first).file| < sender.webm.fpos + CLUSTER_HEADER_BYTES
      requires |moments(first).file| < |sender.webm.file|
      ensures InFront(i, sections(look))
    {
      hide Growing, CleanMoments, Serves, AllGood, ChildOk, Ready, Counted, Bit, Poised, Base, Announces, Steady,
           Partial, HasHeader, ChankAt, IsFinal;
      var hb := sender.webm.headerBytes;
      LaterLook(moments, hb, sections, first, first);
      LaterLook(moments, hb, sections, first, look);
      SteadyParts(sections(look));
      SameBase(hb, sections(first), sections(look), i);
      if i < |sections(first)| {
        HeaderAhead(moments(first).file, hb, sections(first), i);
      }
    }

    /** The cursor behind a header just read is at the start of the cluster. */
    lemma HeaderCursor(i: nat, ss: seq<Section>, head: seq<u8>)
      requires HeaderRead(i, ss, head) && i < |ss|
      ensures AtCursor(i, ss, [], ss[i].es) && Normal(block.prev) == ClusterStart(i)
    {
      hide Serves, AllGood, ChildOk, Ready, Counted, Bit, Base, IsFinal, Steady, BlockCount, ReadingAt, Tracks,
           Consumed, ClusterStart, GoodSection;
      SteadyParts(ss);
      OneGood(ss, i);
      FirstCursor(ss, i);
      assert Normal(block.prev) == ClusterStart(i);
    }

    /** When no round is due and no cluster is left, every child has been sent everything. */
    lemma AllComplete(i: nat, ss: seq<Section>)
      requires Steady(ss) && Poised(i, ss) && |ss| == i && Rounds(ss) == 0
      ensures forall slot :: 0 <= slot < MAX_CHILD_NUM ==> sender.Complete(slot, ss)
    {
      hide Serves, AllGood, ChildOk, StreamFrom, Counted, ClusterStart, BlockCount, Tracks, Normal, AllClosed, Bit;
      if i > 0 {
        AllBlocksCounted(sender.View(), ss);
        sender.MissingBound(0, ss);
        sender.MissingBound(1, ss);
        forall slot | 0 <= slot < MAX_CHILD_NUM ensures sender.Complete(slot, ss) {
          sender.NotDueIsComplete(slot, ss);
        }
      }
    }

    /** One turn of main's outer loop: the next cluster is waited for, and then sent. */
    method StreamCluster(moments: nat -> Moment, turns: nat, ghost sections: nat -> seq<Section>, ghost i: nat)
      returns (found: bool)
      requires Watching(moments, sections) && Steady(sections(look)) && Before(i, sections(look))
      modifies this, block, sender.webm
      modifies sender`wire, sender`connected, sender`childNum, sender`starts, sender.children
      ensures Watching(moments, sections) && Steady(sections(look)) && old(clock) <= clock
      ensures sender.webm.headerBytes == old(sender.webm.headerBytes)
      ensures turns > 0 && i < |sections(old(clock))| ==> found
      ensures found ==> Before(i + 1, sections(look))
      ensures !found ==>
                && Poised(i, sections(look)) && i <= |sections(look)|
                && old(clock) + turns <= clock && WaitedFor(moments, sections, turns, i)
    {
      hide Watching, Steady, AtCursor, Poised, Base, Counted, WaitedFor;
      found := UpdateClusterFromWebM(moments, turns, sections, i);
      if found {
        SendCluster(moments, sections, i);
      }
    }

    /** Cluster i is the next one. */
    ghost predicate Past(i: nat, ss: seq<Section>)
      reads this`hasPrev, sender, sender.webm, sender.children, block
    {
      Steady(ss) && Poised(i, ss) && i <= |ss|
    }

    /** The loops of main, for at most count clusters and at most that many turns of each wait.
        The origin ends behind cluster count, or it has waited that many turns for one that was
        not there, behind all that were. Then, if there was a header's length behind the last
        cluster and nobody came or went during the wait, turns enough for every packet to go to
        every child leave every child with all packets from the cluster it joined at to the
        last one. */
    method StreamFile(moments: nat -> Moment, turns: nat, count: nat, ghost sections: nat -> seq<Section>)
      returns (i: nat)
      requires Watching(moments, sections) && Steady(sections(look)) && Before(0, sections(look))
      modifies this, block, sender.webm
      modifies sender`wire, sender`connected, sender`childNum, sender`starts, sender.children
      ensures Watching(moments, sections) && Steady(sections(look)) && Poised(i, sections(look))
      ensures sender.webm.headerBytes == old(sender.webm.headerBytes)
      ensures i <= count && i <= |sections(look)|
      ensures i == count ==> Before(count, sections(look))
      ensures i < count ==> old(clock) + turns <= clock == look
      ensures i < count && turns > 0 ==>
                && |sections(clock - turns)| <= i
                && Missed(moments, sender.webm.headerBytes, sections, i, clock - 1)
      ensures i < count && |sections(look)| == i
              && End(sender.webm.headerBytes, sections(look)) + CLUSTER_HEADER_BYTES <= |moments(clock - turns).file|
              && Quiet(moments, clock - turns, clock) && turns > 2 * |Stream(0, sections(look), 0, i)| ==>
                forall slot :: 0 <= slot < MAX_CHILD_NUM ==> sender.Complete(slot, sections(look))
    {
      hide Watching, Steady, Poised, Base, Stream, Counted, Before, Rounds, Missed;
      i := 0;
      var found := true;
      while found && i < count
        invariant Watching(moments, sections) && Steady(sections(look)) && i <= count && old(clock) <= clock
        invariant sender.webm.headerBytes == old(sender.webm.headerBytes)
        invariant if found then Before(i, sections(look))
                  else
                    && i < count && Past(i, sections(look))
                    && old(clock) + turns <= clock && WaitedFor(moments, sections, turns, i)
      {
        found := StreamCluster(moments, turns, sections, i);
        if found {
          i := i + 1;
        }
      }
      if found {
        BeforeParts(i, sections(look));
      } else if |sections(look)| == i && Rounds(sections(look)) == 0 {
        AllComplete(i, sections(look));
      }
    }

    lemma BeforeParts(i: nat, ss: seq<Section>)
      requires Before(i, ss)
      ensures i <= |ss| < 0x1_0000 && AllGood(ss) && Poised(i, ss)
    {
      hide Serves, AllGood, ChildOk, Ready, Base, Poised;
      PoisedAt(i, ss);
    }
  }

  /** main on a file that is complete, with the footer or a Cue behind its clusters: all of them
      are streamed, the last one is closed with the number of its blocks, and once nobody comes
      or goes for enough turns every child connected has been sent all packets from the cluster
      it joined at to the last one. */
  method StreamCompleteFile(file: seq<u8>, headerBytes: nat, moments: nat -> Moment, turns: nat, count: nat,
                            ghost ss: seq<Section>, ghost sections: nat -> seq<Section>)
    returns (origin: Origin)
    requires Serves(file, headerBytes, ss) && 0 < |ss| < count && |ss| < 0x1_0000 && !Announces(file, headerBytes, ss)
    requires End(headerBytes, ss) + CLUSTER_HEADER_BYTES <= |file|
    requires forall t :: moments(t).file == file && sections(t) == ss
    requires CleanMoments(headerBytes, moments, sections)
    requires AllGood(ss) && turns > 2 * |Stream(0, ss, 0, |ss|)|
    ensures origin.sender.webm.file == file && turns <= origin.clock && origin.Steady(ss)
    ensures origin.sender.webm.prevCluster.number == |ss| - 1 && BlockCount(ss, |ss| - 1) <= origin.sender.webm.latest
    ensures Quiet(moments, origin.clock - turns, origin.clock) ==>
              forall slot :: 0 <= slot < MAX_CHILD_NUM ==> origin.sender.Complete(slot, ss)
  {
    hide Serves, Growing, CleanMoments, AllGood, ChildOk, Ready, Counted, Base, Announces, Stream, Tracks, Normal,
         BlockCount;
    CompleteFile(file, headerBytes, ss, moments, sections);
    origin := new Origin(moments, headerBytes, sections);
    var i := origin.StreamFile(moments, turns, count, sections);
    origin.FileSeen(moments, sections);
  }

  /** How many packets all sections are sent as. */
  ghost function AllPackets(ss: seq<Section>): nat {
    if |ss| < 0x1_0000 && AllGood(ss) then |Stream(0, ss, 0, |ss|)| else 0
  }

  /** How many blocks cluster i has. */
  ghost function BlockCount(ss: seq<Section>, i: nat): nat
    requires i < |ss| <= 0x1_0000 && AllGood(ss)
  {
    OneGood(ss, i);
    |Packets(i, ss[i].es)|
  }

  lemma NumberFits(ss: seq<Section>, prev: BlockInfo, i: nat, unit: seq<u8>, es: seq<seq<u8>>)
    requires i < |ss| <= 0x1_0000 && AllGood(ss) && ReadingAt(ss, prev, i, unit, es)
    ensures prev.number + 1 == Cut(prev, |unit|, Sizes(es)).info.number <= BlockCount(ss, i)
  {
    hide AllGood, Flat, Sizes, Cut, At, Rest, Packets, Successor;
    CursorIsAt(0, ss, prev, i, unit, es);
    SomethingLeft(prev, unit, es);
    CutSuccessor(prev, |unit|, Sizes(es));
    SmallSection(ss[i]);
    hide GoodSection;
    SuccessorSmall(prev, |Flat(ss[i].es)|);
  }

  lemma AllBlocksCounted(src: Source, ss: seq<Section>)
    requires src.firstClusterSeq == 0 && 0 < |ss| < 0x1_0000 && AllGood(ss)
    requires src.closedSeq + 1 == |ss| && BlockCount(ss, |ss| - 1) <= src.latest
    ensures AllClosed(src, ss)
  {
    hide AllGood, Packets;
  }

  lemma SomethingLeft(prev: BlockInfo, unit: seq<u8>, es: seq<seq<u8>>)
    requires At(prev, unit, es)
    ensures |Rest(prev, unit, es)| > 0
  {
    hide Flat, Sizes, Cut, At, Rest, UnitBehind, ElementsBehind;
    RestStep(prev, unit, es);
  }

  /** Behind the last block of a cluster is the next header. */
  lemma NextHeader(src: Source, ss: seq<Section>, prev: BlockInfo, i: nat, unit: seq<u8>, es: seq<seq<u8>>)
    requires Serves(src.file, src.headerBytes, ss) && AllGood(ss) && |ss| <= 0x1_0000
    requires ReadingAt(ss, prev, i, unit, es) && Cut(prev, |unit|, Sizes(es)).status == CLUSTER_END
    ensures var info := Cut(prev, |unit|, Sizes(es)).info;
            && info.number == BlockCount(ss, i) && info.clusterSeq == i
            && Base(src.headerBytes, ss, i) + CLUSTER_HEADER_BYTES + Consumed(prev) + info.bytes
               == Base(src.headerBytes, ss, i + 1) <= |src.file|
  {
    hide Serves, AllGood, GoodSection, Flat, Sizes, Cut, Rest, Packets, Base, At;
    ClusterEnds(ss, prev, i, unit, es);
    EndIdAfter(src.file, src.headerBytes, ss, i);
    CutSuccessor(prev, |unit|, Sizes(es));
  }

  /** A block that was cut is no fresh cursor. */
  lemma CutIsLive(prev: BlockInfo, i: nat, ss: seq<Section>, unit: seq<u8>, es: seq<seq<u8>>)
    requires ReadingAt(ss, prev, i, unit, es)
    ensures var info := Cut(prev, |unit|, Sizes(es)).info; info.status != STATUS_INIT && Normal(info) == info
  {
    hide Flat, Cut, Sizes, Tracks, WellSized, Sum, Rest, Packets, GoodSection;
    CursorIsAt(0, ss, prev, i, unit, es);
    AtCut(prev, unit, es);
  }

  lemma AtCut(prev: BlockInfo, unit: seq<u8>, es: seq<seq<u8>>)
    requires At(prev, unit, es)
    ensures Cut(prev, |unit|, Sizes(es)).info.status in {STATUS_PIECE, STATUS_SIMPLEBLOCK, STATUS_BLOCK}
  {
    hide Flat, Cut, Sizes, Tracks, WellSized, Sum;
    CutInvariant(prev, |unit|, Sizes(es));
  }

  lemma CursorOffset(src: Source, ss: seq<Section>, prev: BlockInfo, i: nat, unit: seq<u8>, es: seq<seq<u8>>)
    requires src.firstClusterSeq == 0 && Serves(src.file, src.headerBytes, ss) && ReadingAt(ss, prev, i, unit, es)
    ensures CanWalk(src.file, src.headerBytes, Count(src, prev))
    ensures Offset(src, prev) == Base(src.headerBytes, ss, i) + CLUSTER_HEADER_BYTES + Consumed(prev) <= |src.file|
  {
    hide Serves, GoodSection, CursorAt, CanWalk, Offset, Rest, Packets;
    var after := OffsetIsNextByte(src, ss, prev, i, unit, es);
  }

  lemma HeaderAhead(file: seq<u8>, headerBytes: nat, ss: seq<Section>, i: nat)
    requires Serves(file, headerBytes, ss) && i < |ss|
    ensures GoodSection(ss[i])
    ensures var b := Base(headerBytes, ss, i);
            b + CLUSTER_HEADER_BYTES <= |file|
            && var head := file[b..Min(b + CLUSTER_HEADER_BYTES, |file|)];
            && |head| == CLUSTER_HEADER_BYTES && HasHeader(head) && IsFinal(head) && head == ss[i].head
            && b + ChankAt(head).chankBytes == Base(headerBytes, ss, i + 1) <= |file|
  {
    hide Serves, Flat, StartsWithEndId, Base, GoodSection, ChankAt, HasHeader, TrueHead;
    AtSection(file, headerBytes, ss, i);
    EndIdAfter(file, headerBytes, ss, i);
    SectionSmall(file, headerBytes, ss, i);
    HeadIsCluster(ss[i]);
  }

  lemma HeadIsCluster(c: Section)
    requires GoodSection(c)
    ensures |c.head| == CLUSTER_HEADER_BYTES && HasHeader(c.head) && IsFinal(c.head)
    ensures ChankAt(c.head).chankBytes == CLUSTER_HEADER_BYTES + |Flat(c.es)|
  {
    hide ChankAt, HasHeader, IsElement;
    ClusterIdReads(c.head);
    IdOfChank(c.head);
    FooterReadsEmpty([]);
    assert FOOTER + [] == FOOTER;
    FlatSize(c.es);
    PayloadBytes(c.es);
  }

  lemma PayloadBytes(es: seq<seq<u8>>)
    requires IsPayload(es)
    ensures |Flat(es)| > 0
  {
    FlatSize(es);
  }

  lemma FirstCursor(ss: seq<Section>, i: nat)
    requires i < |ss| < 0x1_0000 && GoodSection(ss[i])
    ensures ReadingAt(ss, ClusterStart(i), i, [], ss[i].es) && Consumed(ClusterStart(i)) == 0
  {
    hide GoodSection, Rest;
    CursorAtStart(0, ss, i);
  }

  lemma ServesGood(file: seq<u8>, headerBytes: nat, ss: seq<Section>)
    requires Serves(file, headerBytes, ss)
    ensures AllGood(ss)
  {
    hide GoodSection;
  }

  /** A final header in front of cluster i is a Cluster's. */
  lemma HeaderIsRegular(file: seq<u8>, headerBytes: nat, ss: seq<Section>, i: nat)
    requires Serves(file, headerBytes, ss) && Partial(file, headerBytes, ss) && i <= |ss|
    requires var p := Base(headerBytes, ss, i);
             p + CLUSTER_HEADER_BYTES <= |file| && IsFinal(file[p..p + CLUSTER_HEADER_BYTES])
    ensures var p := Base(headerBytes, ss, i); HasHeader(file[p..p + CLUSTER_HEADER_BYTES])
  {
    hide Serves, HasHeader, ChankAt, Base, GoodSection, IsFinal;
    if i < |ss| {
      HeaderAhead(file, headerBytes, ss, i);
    }
  }

  lemma GrownPrefix(file: seq<u8>, file': seq<u8>, headerBytes: nat, ss: seq<Section>, ss': seq<Section>)
    requires Grown(file, file', headerBytes, ss, ss')
    ensures |file| <= |file'| && ss <= ss' && |ss| <= |ss'|
  {
    hide Announces, End;
  }

  /** A cluster on file shows its final header to a read. */
  lemma FinalAhead(file: seq<u8>, headerBytes: nat, ss: seq<Section>, i: nat)
    requires Serves(file, headerBytes, ss) && i <= |ss|
    ensures Base(headerBytes, ss, i) <= |file|
    ensures i < |ss| ==>
              var head := HeadAt(file, Base(headerBytes, ss, i)); |head| == CLUSTER_HEADER_BYTES && IsFinal(head)
  {
    hide Serves, Base, GoodSection, IsFinal, HasHeader, ChankAt;
    BaseInFile(file, headerBytes, ss, i);
    if i < |ss| {
      HeaderAhead(file, headerBytes, ss, i);
    }
  }

  /** A final header stays in place while the file grows. */
  lemma HeadStays(file: seq<u8>, file': seq<u8>, headerBytes: nat, ss: seq<Section>, ss': seq<Section>, i: nat)
    requires Serves(file, headerBytes, ss) && Serves(file', headerBytes, ss')
    requires Grown(file, file', headerBytes, ss, ss')
    requires i <= |ss|
    requires var p := Base(headerBytes, ss, i);
             p + CLUSTER_HEADER_BYTES <= |file| && IsFinal(file[p..p + CLUSTER_HEADER_BYTES])
    ensures |file| <= |file'| && ss <= ss'
    ensures var p := Base(headerBytes, ss, i);
            file'[p..p + CLUSTER_HEADER_BYTES] == file[p..p + CLUSTER_HEADER_BYTES]
  {
    hide Serves, HasHeader, ChankAt, Base, GoodSection, IsFinal;
    if i < |ss| {
      SameBase(headerBytes, ss, ss', i);
      HeaderAhead(file, headerBytes, ss, i);
      HeaderAhead(file', headerBytes, ss', i);
    }
  }

  lemma IdInHeader(head: seq<u8>)
    requires |head| == CLUSTER_HEADER_BYTES
    ensures |head| >= Width(head[0])
  {
  }

  lemma NoChildren()
    ensures forall i :: 0 <= i < MAX_CHILD_NUM ==> !Bit(0, i)
  {
  }
}
