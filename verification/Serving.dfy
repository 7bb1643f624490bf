/** Sending from the file: the cursor of a child, its file offset, and the packet cut there. */
module Serving {
  import opened Words
  import opened Ebml
  import opened Blocks
  import opened Segmentation
  import opened Clusters
  import opened Disk

  /** A cluster on disk that can be served: its header, and the elements of its payload. */
  datatype Section = Section(head: seq<u8>, es: seq<seq<u8>>)

  function OnFile(ss: seq<Section>): (cs: seq<Stored>)
    ensures |cs| == |ss|
  {
    seq(|ss|, i requires 0 <= i < |ss| => Stored(ss[i].head, Flat(ss[i].es)))
  }

  /** A header of twelve bytes that tells the payload's length. */
  predicate TrueHead(head: seq<u8>, n: nat) {
    && |head| == CLUSTER_HEADER_BYTES && head[..CLUSTER_ID_BYTES] == CLUSTER_ID_STRING
    && HasHeader(head) && ChankAt(head).chankBytes == CLUSTER_HEADER_BYTES + n
  }

  predicate GoodSection(c: Section) {
    && TrueHead(c.head, |Flat(c.es)|) && IsPayload(c.es)
    && CLUSTER_HEADER_BYTES + |Flat(c.es)| < TWO_32
  }

  /** Behind headerBytes the file holds the sections, and then another Cluster or a Cue. */
  ghost predicate Serves(file: seq<u8>, headerBytes: nat, ss: seq<Section>) {
    var end := headerBytes + |Region(OnFile(ss))|;
    && end <= |file|
    && file[headerBytes..end] == Region(OnFile(ss))
    && StartsWithEndId(file[end..])
    && forall i :: 0 <= i < |ss| ==> GoodSection(ss[i])
  }

  /** Where section i starts. */
  function Base(headerBytes: nat, ss: seq<Section>, i: nat): nat
    requires i <= |ss|
  {
    headerBytes + |Region(OnFile(ss[..i]))|
  }

  lemma OnFileSplit(ss: seq<Section>, i: nat)
    requires i <= |ss|
    ensures OnFile(ss) == OnFile(ss[..i]) + OnFile(ss[i..])
    ensures Region(OnFile(ss)) == Region(OnFile(ss[..i])) + Region(OnFile(ss[i..]))
  {
    assert OnFile(ss) == OnFile(ss[..i]) + OnFile(ss[i..]);
    RegionSplit(OnFile(ss[..i]), OnFile(ss[i..]));
  }

  lemma RegionFirst(ss: seq<Section>)
    requires ss != []
    ensures Region(OnFile(ss)) == ss[0].head + (Flat(ss[0].es) + Region(OnFile(ss[1..])))
  {
    assert OnFile(ss)[1..] == OnFile(ss[1..]);
  }

  lemma BaseNext(headerBytes: nat, ss: seq<Section>, i: nat)
    requires i < |ss|
    ensures Base(headerBytes, ss, i + 1) == Base(headerBytes, ss, i) + |ss[i].head| + |Flat(ss[i].es)|
  {
    OnFileSplit(ss[..i + 1], i);
    assert ss[..i + 1][..i] == ss[..i] && ss[..i + 1][i..] == [ss[i]];
    RegionFirst([ss[i]]);
  }

  /** What the file shows at a section: its header, its payload, and an end ID behind it. */
  lemma AtSection(file: seq<u8>, headerBytes: nat, ss: seq<Section>, i: nat)
    requires Serves(file, headerBytes, ss) && i < |ss|
    ensures var b := Base(headerBytes, ss, i);
            var p := b + CLUSTER_HEADER_BYTES;
            var payload := Flat(ss[i].es);
            && p + |payload| <= |file|
            && file[b..p] == ss[i].head
            && file[p..p + |payload|] == payload
            && StartsWithEndId(file[p + |payload|..])
  {
    hide GoodSection, Flat, Region, StartsWithEndId, HasHeader, ChankAt, OnFile;
    assert GoodSection(ss[i]);
    SectionHead(ss[i]);
    var payload := Flat(ss[i].es);
    var before, rest := Region(OnFile(ss[..i])), Region(OnFile(ss[i + 1..]));
    RegionAround(ss, i);
    SliceIs(file, headerBytes, before, ss[i].head + (payload + rest));
    var b := headerBytes + |before|;
    SliceIs(file, b, ss[i].head, payload + rest);
    SliceIs(file, b + CLUSTER_HEADER_BYTES, payload, rest);
    EndIdAfter(file, headerBytes, ss, i);
  }

  lemma RegionAround(ss: seq<Section>, i: nat)
    requires i < |ss|
    ensures Region(OnFile(ss))
            == Region(OnFile(ss[..i])) + (ss[i].head + (Flat(ss[i].es) + Region(OnFile(ss[i + 1..]))))
  {
    hide Region, OnFile, Flat;
    OnFileSplit(ss, i);
    RegionFirst(ss[i..]);
    assert ss[i..][1..] == ss[i + 1..];
  }

  /** Behind a section come the next header or what follows all sections. */
  lemma EndIdAfter(file: seq<u8>, headerBytes: nat, ss: seq<Section>, i: nat)
    requires Serves(file, headerBytes, ss) && i < |ss|
    ensures var q := Base(headerBytes, ss, i + 1); q <= |file| && StartsWithEndId(file[q..])
    ensures |ss[i].head| == CLUSTER_HEADER_BYTES
    ensures Base(headerBytes, ss, i + 1) == Base(headerBytes, ss, i) + CLUSTER_HEADER_BYTES + |Flat(ss[i].es)|
  {
    hide GoodSection, Flat, Region, HasHeader, ChankAt, OnFile;
    assert GoodSection(ss[i]);
    SectionHead(ss[i]);
    BaseNext(headerBytes, ss, i);
    OnFileSplit(ss, i + 1);
    if i + 1 < |ss| {
      assert GoodSection(ss[i + 1]);
      SectionHead(ss[i + 1]);
      var rest := ss[i + 1..];
      RegionFirst(rest);
      var q := Base(headerBytes, ss, i + 1);
      SliceIs(file, headerBytes, Region(OnFile(ss[..i + 1])), Region(OnFile(rest)));
      SliceIs(file, q, ss[i + 1].head, Flat(ss[i + 1].es) + Region(OnFile(rest[1..])));
      HeadIsEndId(file, q, ss[i + 1].head);
    } else {
      assert ss[..i + 1] == ss;
    }
  }

  lemma HeadIsEndId(file: seq<u8>, q: nat, head: seq<u8>)
    requires q + CLUSTER_HEADER_BYTES <= |file| && |head| == CLUSTER_HEADER_BYTES
    requires file[q..q + CLUSTER_HEADER_BYTES] == head && head[..CLUSTER_ID_BYTES] == CLUSTER_ID_STRING
    ensures StartsWithEndId(file[q..])
  {
    assert file[q..][..4] == file[q..q + CLUSTER_HEADER_BYTES][..4];
  }

  lemma SectionHead(c: Section)
    requires GoodSection(c)
    ensures TrueHead(c.head, |Flat(c.es)|)
  {
  }

  /** What SearchWebM reads for a cluster header: at most twelve bytes. */
  function HeadAt(file: seq<u8>, offset: nat): seq<u8>
    requires offset <= |file|
  {
    file[offset..Min(offset + CLUSTER_HEADER_BYTES, |file|)]
  }

  /** The header walk of CalOffset can be made. */
  predicate CanWalk(file: seq<u8>, offset: nat, count: nat)
    decreases count
  {
    && offset <= |file|
    && (count > 0 ==>
          && HasHeader(HeadAt(file, offset))
          && CanWalk(file, offset + ChankAt(HeadAt(file, offset)).chankBytes, count - 1))
  }

  function Walk(file: seq<u8>, offset: nat, count: nat): nat
    requires CanWalk(file, offset, count)
    decreases count
  {
    if count == 0 then offset
    else Walk(file, offset + ChankAt(HeadAt(file, offset)).chankBytes, count - 1)
  }

  /** Walking headers lands exactly on each cluster. */
  lemma {:induction false} WalkLands(file: seq<u8>, headerBytes: nat, ss: seq<Section>, i: nat, k: nat)
    requires Serves(file, headerBytes, ss) && i <= k <= |ss|
    ensures CanWalk(file, Base(headerBytes, ss, i), k - i)
    ensures Walk(file, Base(headerBytes, ss, i), k - i) == Base(headerBytes, ss, k)
    decreases k - i
  {
    hide Serves, ChankAt, HasHeader, Base, HeadAt, CanWalk, Walk;
    var b := Base(headerBytes, ss, i);
    BaseInFile(file, headerBytes, ss, i);
    WalkNothing(file, b);
    if i < k {
      HeadLands(file, headerBytes, ss, i);
      WalkLands(file, headerBytes, ss, i + 1, k);
      WalkStep(file, b, k - i, Base(headerBytes, ss, i + 1));
    }
  }

  lemma WalkNothing(file: seq<u8>, offset: nat)
    requires offset <= |file|
    ensures CanWalk(file, offset, 0) && Walk(file, offset, 0) == offset
  {
  }

  lemma WalkStep(file: seq<u8>, offset: nat, count: nat, next: nat)
    requires count > 0 && offset <= |file| && HasHeader(HeadAt(file, offset))
    requires next == offset + ChankAt(HeadAt(file, offset)).chankBytes && CanWalk(file, next, count - 1)
    ensures CanWalk(file, offset, count) && Walk(file, offset, count) == Walk(file, next, count - 1)
  {
    hide ChankAt, HasHeader, HeadAt;
  }

  lemma HeadLands(file: seq<u8>, headerBytes: nat, ss: seq<Section>, i: nat)
    requires Serves(file, headerBytes, ss) && i < |ss|
    ensures var b := Base(headerBytes, ss, i);
            && b <= |file| && HasHeader(HeadAt(file, b))
            && b + ChankAt(HeadAt(file, b)).chankBytes == Base(headerBytes, ss, i + 1)
  {
    AtSection(file, headerBytes, ss, i);
    EndIdAfter(file, headerBytes, ss, i);
    assert GoodSection(ss[i]);
    SectionHead(ss[i]);
    hide Serves, ChankAt, HasHeader, GoodSection, Flat, StartsWithEndId, Base;
    assert HeadAt(file, Base(headerBytes, ss, i)) == ss[i].head;
  }

  lemma BaseInFile(file: seq<u8>, headerBytes: nat, ss: seq<Section>, i: nat)
    requires Serves(file, headerBytes, ss) && i <= |ss|
    ensures Base(headerBytes, ss, i) <= |file|
  {
    OnFileSplit(ss, i);
  }

  /** The globals a node sends from: the file, the header length, the number of its first
      cluster, of the last closed one (CURRENT_CLUSTER->prev->seq), and of the latest block. */
  datatype Source = Source(file: seq<u8>, headerBytes: nat, firstClusterSeq: u32, closedSeq: u32, latest: u32)

  /** The headers CalOffset passes over, as its u32 loop bound. */
  function Count(src: Source, info: BlockInfo): u32 {
    U32(info.clusterSeq - src.firstClusterSeq)
  }

  /** CalOffset. */
  function Offset(src: Source, info: BlockInfo): nat
    requires CanWalk(src.file, src.headerBytes, Count(src, info))
  {
    Walk(src.file, src.headerBytes, Count(src, info)) + U32(info.pos + info.bytes)
  }

  /** A read of 1000 bytes into a cleared packet buffer: what the file still has, zeros to
      the window's end, and the memory behind the packet buffer. */
  function ReadBuffer(ahead: seq<u8>, beyond: seq<u8>): (buf: seq<u8>)
    ensures |buf| == MAX_BLOCK_BYTES + |beyond|
  {
    var n := Min(MAX_BLOCK_BYTES, |ahead|);
    ahead[..n] + Filled(MAX_BLOCK_BYTES - n, 0) + beyond
  }

  /** What one SendCacheBlock and the cursor update of SendMulStream do for a child. */
  datatype Sent = Sent(packet: seq<u8>, status: int, prev: BlockInfo)

  predicate CanSend(src: Source, prev: BlockInfo, beyond: seq<u8>) {
    && CanWalk(src.file, src.headerBytes, Count(src, prev))
    && Offset(src, prev) <= |src.file|
    && |beyond| >= HEADER_REACH
    && var r := NextBlock(NO_BLOCK, prev, ReadBuffer(src.file[Offset(src, prev)..], beyond), MAX_BLOCK_BYTES);
       r.Next? && r.info.bytes <= MAX_BLOCK_BYTES
  }

  function Send(src: Source, prev: BlockInfo, beyond: seq<u8>): Sent
    requires CanSend(src, prev, beyond)
  {
    var buf := ReadBuffer(src.file[Offset(src, prev)..], beyond);
    var r := NextBlock(NO_BLOCK, prev, buf, MAX_BLOCK_BYTES);
    Sent(Encode(r.info) + buf[..r.info.bytes], r.status,
         if r.status == CLUSTER_END then ClusterStart(U16(r.info.clusterSeq + 1)) else r.info)
  }
}
