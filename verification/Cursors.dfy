/** The cursor of a child: where it stands in the file, and how one send moves it. */
module Cursors {
  import opened Words
  import opened Ebml
  import opened Blocks
  import opened Segmentation
  import opened Plan
  import opened Clusters
  import opened Partition
  import opened Disk
  import opened Serving

  /** The payload bytes before the cursor. */
  function Consumed(prev: BlockInfo): int {
    prev.pos + prev.bytes - CLUSTER_HEADER_BYTES
  }

  /** The cursor stands in section i, whose first section has number first; unit and then es
      are what is left of the payload. */
  ghost predicate CursorAt(first: nat, ss: seq<Section>, prev: BlockInfo, i: nat, unit: seq<u8>, es: seq<seq<u8>>) {
    && i < |ss| && prev.clusterSeq == first + i
    && At(prev, unit, es)
    && (prev.status == STATUS_INIT ==> prev == ClusterStart(prev.clusterSeq) && unit == [] && es == ss[i].es)
    && var p := Flat(ss[i].es);
       0 <= prev.number <= Consumed(prev) <= |p| && p[Consumed(prev)..] == unit + Flat(es)
  }

  /** A cursor at the start of a section. */
  lemma CursorAtStart(first: nat, ss: seq<Section>, i: nat)
    requires i < |ss| && first + i < 0x1_0000 && GoodSection(ss[i])
    ensures CursorAt(first, ss, ClusterStart(first + i), i, [], ss[i].es)
  {
    hide Flat, Ahead, TrueHead;
    assert [] + Flat(ss[i].es) == Flat(ss[i].es);
  }

  /** CalOffset of the cursor is the file offset of the first payload byte not yet sent. */
  lemma OffsetIsNextByte(src: Source, ss: seq<Section>, prev: BlockInfo, i: nat, unit: seq<u8>, es: seq<seq<u8>>)
    returns (after: seq<u8>)
    requires Serves(src.file, src.headerBytes, ss) && CursorAt(src.firstClusterSeq, ss, prev, i, unit, es)
    ensures CanWalk(src.file, src.headerBytes, Count(src, prev))
    ensures Offset(src, prev) == Base(src.headerBytes, ss, i) + CLUSTER_HEADER_BYTES + Consumed(prev) <= |src.file|
    ensures StartsWithEndId(after) && src.file[Offset(src, prev)..] == unit + (Flat(es) + after)
  {
    hide Serves, GoodSection, Flat, At, StartsWithEndId, Offset, CanWalk, Base, Count;
    SectionSmall(src.file, src.headerBytes, ss, i);
    AtSection(src.file, src.headerBytes, ss, i);
    OffsetOfCursor(src, ss, prev, i);
    var p := Flat(ss[i].es);
    var at := Base(src.headerBytes, ss, i) + CLUSTER_HEADER_BYTES;
    after := src.file[at + |p|..];
    AheadAt(src.file, at, p, prev, unit, Flat(es));
  }

  lemma SectionSmall(file: seq<u8>, headerBytes: nat, ss: seq<Section>, i: nat)
    requires Serves(file, headerBytes, ss) && i < |ss|
    ensures GoodSection(ss[i]) && CLUSTER_HEADER_BYTES + |Flat(ss[i].es)| < TWO_32
  {
    hide Flat, Region, TrueHead, IsPayload;
    assert GoodSection(ss[i]);
  }

  lemma OffsetOfCursor(src: Source, ss: seq<Section>, prev: BlockInfo, i: nat)
    requires Serves(src.file, src.headerBytes, ss) && i <= |ss| && prev.clusterSeq == src.firstClusterSeq + i
    requires prev.pos + prev.bytes < TWO_32
    ensures CanWalk(src.file, src.headerBytes, Count(src, prev))
    ensures Offset(src, prev) == Base(src.headerBytes, ss, i) + prev.pos + prev.bytes
  {
    hide Serves, Walk, CanWalk;
    CountIs(src, prev, i);
    assert ss[..0] == [] && Base(src.headerBytes, ss, 0) == src.headerBytes;
    WalkLands(src.file, src.headerBytes, ss, 0, i);
  }

  lemma AheadAt(file: seq<u8>, at: nat, p: seq<u8>, prev: BlockInfo, unit: seq<u8>, rest: seq<u8>)
    requires at + |p| <= |file| && file[at..at + |p|] == p
    requires 0 <= Consumed(prev) <= |p| && p[Consumed(prev)..] == unit + rest
    ensures file[at + Consumed(prev)..] == unit + (rest + file[at + |p|..])
  {
    var after := file[at + |p|..];
    BytesAhead(file, at, p, Consumed(prev));
    assert (unit + rest) + after == unit + (rest + after);
  }

  lemma BytesAhead(file: seq<u8>, at: nat, p: seq<u8>, o: nat)
    requires at + |p| <= |file| && file[at..at + |p|] == p && o <= |p|
    ensures file[at + o..] == p[o..] + file[at + |p|..]
  {
    assert file[at + o..at + |p|] == file[at..at + |p|][o..];
  }

  lemma CountIs(src: Source, prev: BlockInfo, i: nat)
    requires prev.clusterSeq == src.firstClusterSeq + i
    ensures Count(src, prev) == i
  {
  }

  /** The read at the cursor has a clean scan: no header it sees only in part, behind the
      1000 bytes read, is mistaken for an ID or an element that fits. */
  predicate CleanAt(src: Source, prev: BlockInfo, beyond: seq<u8>)
    requires CanWalk(src.file, src.headerBytes, Count(src, prev)) && Offset(src, prev) <= |src.file|
    requires |beyond| >= HEADER_REACH
  {
    CleanRead(NO_BLOCK, prev, ReadBuffer(src.file[Offset(src, prev)..], beyond), MAX_BLOCK_BYTES)
  }

  lemma BufferShows(ahead: seq<u8>, beyond: seq<u8>)
    requires |beyond| >= HEADER_REACH
    ensures Shows(ReadBuffer(ahead, beyond), MAX_BLOCK_BYTES, 0, ahead)
  {
    var n := Min(MAX_BLOCK_BYTES, |ahead|);
    assert ReadBuffer(ahead, beyond)[0..n] == ahead[..n];
  }

  /** One send cuts the planned block and ships exactly the next payload bytes. */
  lemma SendIsCut(src: Source, ss: seq<Section>, prev: BlockInfo, i: nat, unit: seq<u8>, es: seq<seq<u8>>,
                  beyond: seq<u8>)
    requires Serves(src.file, src.headerBytes, ss) && CursorAt(src.firstClusterSeq, ss, prev, i, unit, es)
    requires |beyond| >= HEADER_REACH
    requires CanWalk(src.file, src.headerBytes, Count(src, prev)) && Offset(src, prev) <= |src.file|
             ==> CleanAt(src, prev, beyond)
    ensures CanSend(src, prev, beyond)
    ensures var c := Cut(prev, |unit|, Sizes(es));
            var r := Send(src, prev, beyond);
            && c.info.bytes <= |unit + Flat(es)|
            && r.packet == Encode(c.info) + (unit + Flat(es))[..c.info.bytes]
            && r.status == c.status
            && r.prev == if c.status == CLUSTER_END then ClusterStart(U16(prev.clusterSeq + 1)) else c.info
  {
    hide Serves, StartsWithEndId, CanWalk, Offset, Flat, Sizes, Cut, CursorAt, At, CanSend, Send, ReadBuffer;
    CursorIsAt(src.firstClusterSeq, ss, prev, i, unit, es);
    var after := OffsetIsNextByte(src, ss, prev, i, unit, es);
    var ahead := src.file[Offset(src, prev)..];
    BufferShows(ahead, beyond);
    NextBlockIsCut(NO_BLOCK, prev, unit, es, after, ReadBuffer(ahead, beyond));
    CutFits(prev, unit, es);
    SendFrom(src, prev, beyond, unit + Flat(es), after, Cut(prev, |unit|, Sizes(es)));
  }

  lemma CursorIsAt(first: nat, ss: seq<Section>, prev: BlockInfo, i: nat, unit: seq<u8>, es: seq<seq<u8>>)
    requires CursorAt(first, ss, prev, i, unit, es)
    ensures At(prev, unit, es)
  {
  }

  lemma CutFits(prev: BlockInfo, unit: seq<u8>, es: seq<seq<u8>>)
    requires At(prev, unit, es)
    ensures var c := Cut(prev, |unit|, Sizes(es));
            && c.info.bytes <= MAX_BLOCK_BYTES && c.info.bytes <= |unit + Flat(es)|
            && c.info.clusterSeq == prev.clusterSeq
  {
    hide Flat, Cut, Sizes, Sum, Tracks, WellSized;
    CutInvariant(prev, |unit|, Sizes(es));
    CutSuccessor(prev, |unit|, Sizes(es));
    FlatSize(es);
  }

  lemma SendFrom(src: Source, prev: BlockInfo, beyond: seq<u8>, mine: seq<u8>, after: seq<u8>, c: Planned)
    requires |beyond| >= HEADER_REACH
    requires CanWalk(src.file, src.headerBytes, Count(src, prev)) && Offset(src, prev) <= |src.file|
    requires src.file[Offset(src, prev)..] == mine + after
    requires NextBlock(NO_BLOCK, prev, ReadBuffer(mine + after, beyond), MAX_BLOCK_BYTES) == Next(c.info, c.status)
    requires c.info.bytes <= |mine| && c.info.bytes <= MAX_BLOCK_BYTES && c.info.clusterSeq == prev.clusterSeq
    ensures CanSend(src, prev, beyond)
    ensures var r := Send(src, prev, beyond);
            && r.packet == Encode(c.info) + mine[..c.info.bytes]
            && r.status == c.status
            && r.prev == if c.status == CLUSTER_END then ClusterStart(U16(prev.clusterSeq + 1)) else c.info
  {
    hide NextBlock, CanWalk, Offset, Encode;
    var n := c.info.bytes;
    assert ReadBuffer(mine + after, beyond)[..n] == (mine + after)[..n] == mine[..n];
  }

  /** What is left behind a block. */
  function UnitBehind(prev: BlockInfo, unit: seq<u8>, es: seq<seq<u8>>): seq<u8> {
    if |unit| > MAX_BLOCK_BYTES then unit[MAX_BLOCK_BYTES..]
    else if |unit| == 0 && StartsUnit(prev, Sizes(es)) then
      var k := Greedy(Sizes(es), MAX_BLOCK_BYTES);
      var u := Flat(es[..k + 1]);
      if |u| >= MAX_BLOCK_BYTES then u[MAX_BLOCK_BYTES..] else []
    else []
  }

  function ElementsBehind(prev: BlockInfo, unit: seq<u8>, es: seq<seq<u8>>): (r: seq<seq<u8>>)
    ensures |r| <= |es| && r == es[|es| - |r|..]
  {
    if |unit| > MAX_BLOCK_BYTES then es
    else if |unit| > 0 then es[Greedy(Sizes(es), MAX_BLOCK_BYTES - |unit|)..]
    else
      var k := Greedy(Sizes(es), MAX_BLOCK_BYTES);
      if StartsUnit(prev, Sizes(es)) then es[k + 1..] else es[k..]
  }

  lemma BehindIsRest(prev: BlockInfo, unit: seq<u8>, es: seq<seq<u8>>)
    requires At(prev, unit, es)
    ensures var c := Cut(prev, |unit|, Sizes(es));
            var unit', es' := UnitBehind(prev, unit, es), ElementsBehind(prev, unit, es);
            && c.info.bytes <= |unit + Flat(es)|
            && (unit + Flat(es))[c.info.bytes..] == unit' + Flat(es')
            && |unit'| == c.left && Sizes(es') == c.sizes
  {
    CutFits(prev, unit, es);
    if |unit| > MAX_BLOCK_BYTES {
      BehindMiddle(prev, unit, es);
    } else if |unit| > 0 {
      BehindLast(prev, unit, es);
    } else if StartsUnit(prev, Sizes(es)) {
      assert unit + Flat(es) == Flat(es);
      BehindUnit(prev, es);
    } else {
      assert unit + Flat(es) == Flat(es);
      BehindWhole(prev, es);
    }
  }

  lemma BehindMiddle(prev: BlockInfo, unit: seq<u8>, es: seq<seq<u8>>)
    requires |unit| > MAX_BLOCK_BYTES
    ensures var c := Cut(prev, |unit|, Sizes(es));
            && (unit + Flat(es))[c.info.bytes..] == UnitBehind(prev, unit, es) + Flat(ElementsBehind(prev, unit, es))
            && |UnitBehind(prev, unit, es)| == c.left && Sizes(ElementsBehind(prev, unit, es)) == c.sizes
  {
    hide Flat, Sizes, Successor;
    assert (unit + Flat(es))[MAX_BLOCK_BYTES..] == unit[MAX_BLOCK_BYTES..] + Flat(es);
  }

  lemma BehindLast(prev: BlockInfo, unit: seq<u8>, es: seq<seq<u8>>)
    requires 0 < |unit| <= MAX_BLOCK_BYTES
    ensures var c := Cut(prev, |unit|, Sizes(es));
            && c.info.bytes <= |unit + Flat(es)|
            && (unit + Flat(es))[c.info.bytes..] == UnitBehind(prev, unit, es) + Flat(ElementsBehind(prev, unit, es))
            && |UnitBehind(prev, unit, es)| == c.left && Sizes(ElementsBehind(prev, unit, es)) == c.sizes
  {
    hide Flat, Sizes, Sum, Greedy, Cut;
    var k := Greedy(Sizes(es), MAX_BLOCK_BYTES - |unit|);
    TakeFlat(unit, es, k);
    CutLastShape(prev, |unit|, Sizes(es));
  }

  lemma CutLastShape(prev: BlockInfo, left: nat, sizes: seq<nat>)
    requires 0 < left <= MAX_BLOCK_BYTES
    ensures var k, c := Greedy(sizes, MAX_BLOCK_BYTES - left), Cut(prev, left, sizes);
            c.info.bytes == left + Sum(sizes[..k]) && c.left == 0 && c.sizes == sizes[k..]
  {
    hide Successor, Sum, Greedy, FillStatus;
  }

  /** What is left behind a unit and the k elements after it. */
  lemma TakeFlat(unit: seq<u8>, es: seq<seq<u8>>, k: nat)
    requires k <= |es|
    ensures |unit| + Sum(Sizes(es)[..k]) <= |unit + Flat(es)|
    ensures (unit + Flat(es))[|unit| + Sum(Sizes(es)[..k])..] == [] + Flat(es[k..])
    ensures Sizes(es)[k..] == Sizes(es[k..])
  {
    hide Flat, Sizes, Sum;
    SplitFlat(es, k);
    DropTwo(unit, Flat(es[..k]), Flat(es[k..]));
  }

  lemma DropTwo(a: seq<u8>, b: seq<u8>, c: seq<u8>)
    ensures (a + (b + c))[|a| + |b|..] == [] + c
  {
  }

  lemma BehindWhole(prev: BlockInfo, es: seq<seq<u8>>)
    requires !StartsUnit(prev, Sizes(es))
    ensures var c := Cut(prev, 0, Sizes(es));
            && c.info.bytes <= |Flat(es)|
            && Flat(es)[c.info.bytes..] == UnitBehind(prev, [], es) + Flat(ElementsBehind(prev, [], es))
            && |UnitBehind(prev, [], es)| == c.left && Sizes(ElementsBehind(prev, [], es)) == c.sizes
  {
    hide Flat, Sizes, Sum, Greedy, Cut, StartsUnit;
    var k := Greedy(Sizes(es), MAX_BLOCK_BYTES);
    TakeFlat([], es, k);
    assert [] + Flat(es) == Flat(es);
    CutWholeShape(prev, Sizes(es));
  }

  lemma CutWholeShape(prev: BlockInfo, sizes: seq<nat>)
    requires !StartsUnit(prev, sizes)
    ensures var k, c := Greedy(sizes, MAX_BLOCK_BYTES), Cut(prev, 0, sizes);
            c.info.bytes == Sum(sizes[..k]) && c.left == 0 && c.sizes == sizes[k..]
  {
    hide Successor, Sum, Greedy, FillStatus, StartsUnit;
  }

  lemma SplitFlat(es: seq<seq<u8>>, k: nat)
    requires k <= |es|
    ensures Flat(es) == Flat(es[..k]) + Flat(es[k..])
    ensures Sizes(es)[k..] == Sizes(es[k..])
    ensures Sum(Sizes(es)[..k]) == |Flat(es[..k])|
  {
    FlatSplit(es, k);
    FlatSize(es[..k]);
  }

  lemma BehindUnit(prev: BlockInfo, es: seq<seq<u8>>)
    requires At(prev, [], es) && StartsUnit(prev, Sizes(es))
    ensures var c := Cut(prev, 0, Sizes(es));
            && c.info.bytes <= |Flat(es)|
            && Flat(es)[c.info.bytes..] == UnitBehind(prev, [], es) + Flat(ElementsBehind(prev, [], es))
            && |UnitBehind(prev, [], es)| == c.left && Sizes(ElementsBehind(prev, [], es)) == c.sizes
  {
    hide Flat, Sizes, Sum, Greedy, At, WellSized, StartsUnit, Cut, UnitBehind, ElementsBehind;
    AtSized(prev, [], es);
    var k := Greedy(Sizes(es), MAX_BLOCK_BYTES);
    StartsBefore(prev, Sizes(es));
    UnitSize(es, k);
    SplitFlat(es, k + 1);
    CutUnitShape(prev, Sizes(es));
    BehindUnitShape(prev, es);
    DropConcat(Flat(es[..k + 1]), Flat(es[k + 1..]), MAX_BLOCK_BYTES);
  }

  lemma StartsBefore(prev: BlockInfo, sizes: seq<nat>)
    requires StartsUnit(prev, sizes)
    ensures Greedy(sizes, MAX_BLOCK_BYTES) < |sizes|
  {
  }

  lemma DropConcat(a: seq<u8>, b: seq<u8>, n: nat)
    requires n <= |a|
    ensures (a + b)[n..] == a[n..] + b
  {
  }

  lemma CutUnitShape(prev: BlockInfo, sizes: seq<nat>)
    requires StartsUnit(prev, sizes) && WellSized(prev.status == STATUS_INIT, sizes)
    ensures var k := Greedy(sizes, MAX_BLOCK_BYTES);
            var c := Cut(prev, 0, sizes);
            && c.info.bytes == MAX_BLOCK_BYTES
            && c.left == Sum(sizes[..k]) + sizes[k] - MAX_BLOCK_BYTES && c.sizes == sizes[k + 1..]
  {
    UnitBound(prev, sizes);
    hide Successor, Sum, Greedy, CeilDiv, U16, U8, StartsUnit, WellSized;
  }

  lemma BehindUnitShape(prev: BlockInfo, es: seq<seq<u8>>)
    requires StartsUnit(prev, Sizes(es)) && WellSized(prev.status == STATUS_INIT, Sizes(es))
    ensures var k := Greedy(Sizes(es), MAX_BLOCK_BYTES);
            var u := Flat(es[..k + 1]);
            && |u| >= MAX_BLOCK_BYTES
            && UnitBehind(prev, [], es) == u[MAX_BLOCK_BYTES..] && ElementsBehind(prev, [], es) == es[k + 1..]
  {
    UnitBound(prev, Sizes(es));
    UnitSize(es, Greedy(Sizes(es), MAX_BLOCK_BYTES));
    hide Sum, Greedy, Flat, Sizes, StartsUnit, WellSized;
  }

  lemma UnitSize(es: seq<seq<u8>>, k: nat)
    requires k < |es|
    ensures |Flat(es[..k + 1])| == Sum(Sizes(es)[..k]) + Sizes(es)[k]
  {
    hide Flat, Sum;
    SplitFlat(es, k);
    SplitFlat(es[..k + 1], k);
    assert es[..k + 1][..k] == es[..k] && es[..k + 1][k..] == [es[k]];
    FlatOne(es[k]);
  }

  lemma FlatOne(e: seq<u8>)
    ensures Flat([e]) == e
  {
    assert [e][1..] == [];
    assert Flat([e]) == e + [];
  }

  /** Unless it ended its cluster, a send leaves the cursor in the same section, behind the
      bytes sent. */
  lemma CursorMoves(first: nat, ss: seq<Section>, prev: BlockInfo, i: nat, unit: seq<u8>, es: seq<seq<u8>>)
    requires CursorAt(first, ss, prev, i, unit, es) && GoodSection(ss[i])
    requires Cut(prev, |unit|, Sizes(es)).status != CLUSTER_END
    ensures CursorAt(first, ss, Cut(prev, |unit|, Sizes(es)).info, i,
                     UnitBehind(prev, unit, es), ElementsBehind(prev, unit, es))
    ensures Cut(prev, |unit|, Sizes(es)).info.number == prev.number + 1
  {
    hide Cut, Flat, Sizes, UnitBehind, ElementsBehind, Tracks, Ahead, GoodSection, Sum, WellSized, Successor,
         ClusterStart;
    var c := Cut(prev, |unit|, Sizes(es));
    AtSized(prev, unit, es);
    CutInvariant(prev, |unit|, Sizes(es));
    BehindIsRest(prev, unit, es);
    StillAhead(prev, unit, es);
    CutSuccessor(prev, |unit|, Sizes(es));
    SmallSection(ss[i]);
    SuccessorSmall(prev, |Flat(ss[i].es)|);
    ConsumedMoves(prev, c.info, Flat(ss[i].es), unit + Flat(es));
  }

  lemma AtSized(prev: BlockInfo, unit: seq<u8>, es: seq<seq<u8>>)
    requires At(prev, unit, es)
    ensures Tracks(prev, |unit|) && WellSized(prev.status == STATUS_INIT, Sizes(es))
  {
  }

  lemma SmallSection(c: Section)
    requires GoodSection(c)
    ensures CLUSTER_HEADER_BYTES + |Flat(c.es)| < TWO_32
  {
  }

  lemma ConsumedMoves(prev: BlockInfo, info: BlockInfo, p: seq<u8>, ahead: seq<u8>)
    requires 0 <= prev.number <= Consumed(prev) <= |p| && p[Consumed(prev)..] == ahead
    requires info.pos == prev.pos + prev.bytes && info.number == prev.number + 1 && 0 < info.bytes <= |ahead|
    ensures 0 <= info.number <= Consumed(info) <= |p| && p[Consumed(info)..] == ahead[info.bytes..]
  {
    assert p[Consumed(prev) + info.bytes..] == p[Consumed(prev)..][info.bytes..];
  }

  lemma SuccessorSmall(prev: BlockInfo, n: nat)
    requires prev.number <= Consumed(prev) <= n < TWO_32 - CLUSTER_HEADER_BYTES
    requires prev.status == STATUS_INIT ==> prev == ClusterStart(prev.clusterSeq)
    ensures Successor(prev).pos == prev.pos + prev.bytes && Successor(prev).number == prev.number + 1
  {
  }

  lemma StillAhead(prev: BlockInfo, unit: seq<u8>, es: seq<seq<u8>>)
    requires At(prev, unit, es)
    ensures Ahead(false, ElementsBehind(prev, unit, es))
  {
    hide IsElement, Sum, Greedy, StartsUnit, ElementsBehind, CeilDiv;
    var es' := ElementsBehind(prev, unit, es);
    if prev.status == STATUS_INIT {
      OpeningTakesTimecode(prev, es);
    }
    SuffixAhead(prev.status == STATUS_INIT, es, |es| - |es'|);
  }

  lemma SuffixAhead(opening: bool, es: seq<seq<u8>>, k: nat)
    requires Ahead(opening, es) && k <= |es| && (opening ==> k > 0)
    ensures Ahead(false, es[k..])
  {
    hide IsElement;
    forall i | 0 <= i < |es[k..]| ensures es[k..][i] == es[k + i] && Sizes(es[k..])[i] == Sizes(es)[k + i] {
    }
  }

  lemma OpeningTakesTimecode(prev: BlockInfo, es: seq<seq<u8>>)
    requires At(prev, [], es) && prev.status == STATUS_INIT
    ensures |ElementsBehind(prev, [], es)| < |es|
  {
    OneSize(es);
  }
}
