/** The packets a cluster is sent as, and what a child has been sent: the invariant of child
    cursors over every interleaving of joins, sends and a growing file.
  */
module Streams {
  import opened Words
  import opened Blocks
  import opened Segmentation
  import opened Plan
  import opened Clusters
  import opened Partition
  import opened Serving
  import opened Cursors

  /** Blocks dealt out of the bytes ahead, each packet its descriptor and its bytes. */
  function Deal(ahead: seq<u8>, bs: seq<BlockInfo>): (packets: seq<seq<u8>>)
    requires Total(bs) <= |ahead|
    ensures |packets| == |bs|
  {
    if bs == [] then []
    else [Encode(bs[0]) + ahead[..bs[0].bytes]] + Deal(ahead[bs[0].bytes..], bs[1..])
  }

  lemma {:induction false} CutAllTotal(prev: BlockInfo, left: nat, sizes: seq<nat>)
    requires Tracks(prev, left) && WellSized(prev.status == STATUS_INIT, sizes)
    ensures Total(CutAll(prev, left, sizes)) == left + Sum(sizes)
    decreases left + Sum(sizes)
  {
    hide Sum, WellSized, Tracks, Cut, CutAll;
    CutAllUnfold(prev, left, sizes);
    var c := Cut(prev, left, sizes);
    if c.status == CLUSTER_END {
      SumEmpty(c.sizes);
      ContiguousOne(c.info);
    } else {
      CutAllTotal(c.info, c.left, c.sizes);
      assert ([c.info] + CutAll(c.info, c.left, c.sizes))[1..] == CutAll(c.info, c.left, c.sizes);
    }
  }

  /** The packets still to come of a cluster, from a cursor. */
  ghost function Rest(prev: BlockInfo, unit: seq<u8>, es: seq<seq<u8>>): seq<seq<u8>>
    requires At(prev, unit, es)
  {
    CutAllTotal(prev, |unit|, Sizes(es));
    FlatSize(es);
    Deal(unit + Flat(es), CutAll(prev, |unit|, Sizes(es)))
  }

  /** The packets of a cluster. */
  ghost function Packets(clusterSeq: u16, es: seq<seq<u8>>): seq<seq<u8>>
    requires IsPayload(es)
  {
    Rest(ClusterStart(clusterSeq), [], es)
  }

  /** The first of the packets to come, and the others. */
  lemma RestStep(prev: BlockInfo, unit: seq<u8>, es: seq<seq<u8>>)
    requires At(prev, unit, es)
    ensures var c := Cut(prev, |unit|, Sizes(es));
            var unit', es' := UnitBehind(prev, unit, es), ElementsBehind(prev, unit, es);
            && c.info.bytes <= |unit + Flat(es)|
            && var packet := Encode(c.info) + (unit + Flat(es))[..c.info.bytes];
            && (c.status == CLUSTER_END ==> Rest(prev, unit, es) == [packet])
            && (c.status != CLUSTER_END ==>
                  At(c.info, unit', es') && Rest(prev, unit, es) == [packet] + Rest(c.info, unit', es'))
  {
    var c := Cut(prev, |unit|, Sizes(es));
    var unit', es' := UnitBehind(prev, unit, es), ElementsBehind(prev, unit, es);
    CutAllTotal(prev, |unit|, Sizes(es));
    FlatSize(es);
    CutAllUnfold(prev, |unit|, Sizes(es));
    BehindIsRest(prev, unit, es);
    StillAhead(prev, unit, es);
    hide Sum, WellSized, Tracks, Cut, CutAll, Flat, Ahead, UnitBehind, ElementsBehind, Sizes;
    var bs := CutAll(prev, |unit|, Sizes(es));
    assert bs[0] == c.info;
    if c.status == CLUSTER_END {
      assert bs[1..] == [];
    } else {
      assert bs[1..] == CutAll(c.info, c.left, c.sizes);
      assert At(c.info, unit', es');
    }
  }

  predicate AllGood(ss: seq<Section>) {
    forall i :: 0 <= i < |ss| ==> GoodSection(ss[i])
  }

  /** The packets of sections a to b, in order. */
  ghost function Stream(first: nat, ss: seq<Section>, a: nat, b: nat): seq<seq<u8>>
    requires a <= b <= |ss| && first + |ss| <= 0x1_0000
    requires AllGood(ss)
  {
    if a == b then [] else Stream(first, ss, a, b - 1) + Packets(first + b - 1, ss[b - 1].es)
  }

  lemma {:induction false} StreamGrows(first: nat, ss: seq<Section>, ss': seq<Section>, a: nat, b: nat)
    requires a <= b <= |ss| && ss <= ss' && first + |ss'| <= 0x1_0000
    requires AllGood(ss')
    ensures AllGood(ss)
            && Stream(first, ss', a, b) == Stream(first, ss, a, b)
  {
    hide GoodSection, Rest, Packets, IsPayload;
    assert forall i :: 0 <= i < |ss| ==> ss[i] == ss'[i];
    if a < b {
      StreamGrows(first, ss, ss', a, b - 1);
      hide AllGood, Rest, Packets;
    }
  }

  /** A node that can send: its file holds sections, every cluster up to the last closed one
      is among them, and cluster numbers do not wrap. */
  ghost predicate Ready(src: Source, ss: seq<Section>) {
    && Serves(src.file, src.headerBytes, ss)
    && src.closedSeq < src.firstClusterSeq + |ss| < 0x1_0000
  }

  /** All packets there are for a child that joined at cluster start, which may be a cluster
      that is not there yet. */
  ghost function StreamFrom(first: nat, ss: seq<Section>, start: nat): seq<seq<u8>>
    requires first <= start && first + |ss| <= 0x1_0000 && AllGood(ss)
  {
    if start <= first + |ss| then Stream(first, ss, start - first, |ss|) else []
  }

  /** What a child that joined at cluster start has been sent: whole consecutive clusters and
      a prefix of the packets of the one its cursor is in; the rest of that one is what the
      cursor will yield. A cursor behind the last cluster waits in front of the next one, or
      where its child joined. */
  ghost predicate ChildOk(first: nat, ss: seq<Section>, start: nat, prev: BlockInfo, sent: seq<seq<u8>>)
    requires first + |ss| < 0x1_0000 && AllGood(ss)
  {
    && first <= start <= prev.clusterSeq
    && if prev.clusterSeq < first + |ss| then exists unit, es :: MidCluster(first, ss, start, prev, sent, unit, es)
       else
         && prev == ClusterStart(prev.clusterSeq) && sent == StreamFrom(first, ss, start)
         && (prev.clusterSeq > first + |ss| ==> start == prev.clusterSeq)
  }

  ghost predicate MidCluster(first: nat, ss: seq<Section>, start: nat, prev: BlockInfo, sent: seq<seq<u8>>,
                             unit: seq<u8>, es: seq<seq<u8>>)
    requires first + |ss| < 0x1_0000 && AllGood(ss)
  {
    && first <= start <= prev.clusterSeq < first + |ss|
    && CursorAt(first, ss, prev, prev.clusterSeq - first, unit, es)
    && sent + Rest(prev, unit, es) == Stream(first, ss, start - first, prev.clusterSeq - first + 1)
    && prev.number + |Rest(prev, unit, es)| == |Packets(prev.clusterSeq, ss[prev.clusterSeq - first].es)|
  }

  /** A cursor in front of a cluster, with all clusters since start sent, is in order whether
      or not that cluster is there yet. */
  lemma AtClusterStart(first: nat, ss: seq<Section>, start: nat, i: nat, sent: seq<seq<u8>>)
    requires first + |ss| < 0x1_0000 && AllGood(ss)
    requires first <= start <= first + i && i <= |ss|
    requires sent == Stream(first, ss, start - first, i)
    ensures ChildOk(first, ss, start, ClusterStart(first + i), sent)
  {
    hide GoodSection, AllGood, CursorAt, Rest, At;
    if i < |ss| {
      OneGood(ss, i);
      CursorAtStart(first, ss, i);
      StartsCluster(first, ss, start, i, sent);
      assert MidCluster(first, ss, start, ClusterStart(first + i), sent, [], ss[i].es);
    }
  }

  lemma StartsCluster(first: nat, ss: seq<Section>, start: nat, i: nat, sent: seq<seq<u8>>)
    requires first + |ss| < 0x1_0000 && AllGood(ss) && first <= start <= first + i && i < |ss|
    requires sent == Stream(first, ss, start - first, i) && GoodSection(ss[i])
    requires CursorAt(first, ss, ClusterStart(first + i), i, [], ss[i].es)
    ensures MidCluster(first, ss, start, ClusterStart(first + i), sent, [], ss[i].es)
  {
    hide GoodSection, AllGood, CursorAt, Rest, At, ClusterStart;
    StartFields(first + i);
    CursorIsAt(first, ss, ClusterStart(first + i), i, [], ss[i].es);
    StreamSnoc(first, ss, start - first, i);
  }

  lemma StartFields(clusterSeq: u16)
    ensures ClusterStart(clusterSeq).clusterSeq == clusterSeq && ClusterStart(clusterSeq).number == 0
  {
  }

  lemma StreamSnoc(first: nat, ss: seq<Section>, a: nat, i: nat)
    requires first + |ss| < 0x1_0000 && AllGood(ss) && a <= i < |ss| && GoodSection(ss[i])
    ensures Stream(first, ss, a, i + 1) == Stream(first, ss, a, i) + Packets(first + i, ss[i].es)
  {
    hide GoodSection, Packets;
  }

  /** Join: NodeSetup and NodeConnect put the cursor in front of a cluster. */
  lemma Join(first: nat, ss: seq<Section>, start: u16)
    requires first <= start && first + |ss| < 0x1_0000 && AllGood(ss)
    ensures ChildOk(first, ss, start, ClusterStart(start), [])
  {
    hide AllGood, MidCluster, GoodSection;
    if start <= first + |ss| {
      AtClusterStart(first, ss, start, start - first, []);
    }
  }

  /** A child may join at any cluster but one before the node's first: for that one the count of
      headers CalOffset passes over wraps around, exactly then, and it is due at once. */
  lemma JoinedTooEarly(src: Source, start: u16)
    requires src.firstClusterSeq <= src.closedSeq < 0x1_0000
    ensures Count(src, ClusterStart(start)) == start - src.firstClusterSeq <==> src.firstClusterSeq <= start
    ensures start < src.firstClusterSeq ==>
              && Pending(src, ClusterStart(start))
              && Count(src, ClusterStart(start)) == TWO_32 - (src.firstClusterSeq - start)
  {
    assert ClusterStart(start).clusterSeq == start;
  }

  /** More clusters on file disturb no cursor. */
  lemma Grow(first: nat, ss: seq<Section>, ss': seq<Section>, start: nat, prev: BlockInfo, sent: seq<seq<u8>>)
    requires first + |ss'| < 0x1_0000 && ss <= ss'
    requires AllGood(ss')
    requires AllGood(ss) && ChildOk(first, ss, start, prev, sent)
    ensures ChildOk(first, ss', start, prev, sent)
  {
    hide AllGood, MidCluster, GoodSection, Stream, ClusterStart, ChildOk;
    var i := prev.clusterSeq - first;
    var unit, es := ChildStands(first, ss, start, prev, sent);
    if i > |ss| {
      Join(first, ss', start);
    } else if i == |ss| {
      StreamGrows(first, ss, ss', start - first, i);
      AtClusterStart(first, ss', start, i, sent);
    } else {
      MidGrows(first, ss, ss', start, prev, sent, unit, es);
      MidInSection(first, ss, start, prev, sent, unit, es);
      MidIsOk(first, ss', start, prev, sent, unit, es);
    }
  }

  lemma MidInSection(first: nat, ss: seq<Section>, start: nat, prev: BlockInfo, sent: seq<seq<u8>>,
                     unit: seq<u8>, es: seq<seq<u8>>)
    requires first + |ss| < 0x1_0000 && AllGood(ss) && MidCluster(first, ss, start, prev, sent, unit, es)
    ensures first <= start <= prev.clusterSeq < first + |ss|
  {
  }

  /** A child's cursor waits in front of the next cluster, or stands in one. */
  lemma ChildStands(first: nat, ss: seq<Section>, start: nat, prev: BlockInfo, sent: seq<seq<u8>>)
    returns (unit: seq<u8>, es: seq<seq<u8>>)
    requires first + |ss| < 0x1_0000 && AllGood(ss) && ChildOk(first, ss, start, prev, sent)
    ensures first <= start <= prev.clusterSeq
    ensures if prev.clusterSeq < first + |ss| then MidCluster(first, ss, start, prev, sent, unit, es)
            else
              && prev == ClusterStart(prev.clusterSeq) && sent == StreamFrom(first, ss, start)
              && (prev.clusterSeq > first + |ss| ==> start == prev.clusterSeq)
  {
    hide AllGood, MidCluster, ClusterStart, Stream;
    unit, es := [], [];
    if prev.clusterSeq < first + |ss| {
      unit, es :| MidCluster(first, ss, start, prev, sent, unit, es);
    }
  }

  lemma MidGrows(first: nat, ss: seq<Section>, ss': seq<Section>, start: nat, prev: BlockInfo, sent: seq<seq<u8>>,
                 unit: seq<u8>, es: seq<seq<u8>>)
    requires first + |ss'| < 0x1_0000 && ss <= ss' && AllGood(ss) && AllGood(ss')
    requires MidCluster(first, ss, start, prev, sent, unit, es)
    ensures MidCluster(first, ss', start, prev, sent, unit, es)
  {
    hide AllGood, GoodSection, At, Flat, Rest, Stream;
    var i := prev.clusterSeq - first;
    StreamGrows(first, ss, ss', start - first, i + 1);
    assert ss'[i] == ss[i];
  }

  /** IsOldBlockSeq, on the last block a child was sent. */
  predicate Pending(src: Source, prev: BlockInfo) {
    || prev.clusterSeq < src.closedSeq
    || (prev.clusterSeq == src.closedSeq && prev.number <= src.latest)
  }

  /** Blocks in the order of the stream: by cluster, and then by number. */
  function Place(clusterSeq: nat, number: nat): nat { clusterSeq * TWO_32 + number }

  /** A child is due exactly when the place of its last block is not past the latest block's
      number in the last closed cluster. */
  lemma DueByPlace(src: Source, prev: BlockInfo)
    ensures Pending(src, prev) <==> Place(prev.clusterSeq, prev.number) <= Place(src.closedSeq, src.latest)
  {
  }

  /** A send for a child whose cursor is in front of the end of the file's sections ships
      the next packet of the stream. */
  lemma SendFromChild(src: Source, ss: seq<Section>, start: nat, prev: BlockInfo, sent: seq<seq<u8>>, beyond: seq<u8>)
    requires Ready(src, ss) && AllGood(ss) && |beyond| >= HEADER_REACH
    requires ChildOk(src.firstClusterSeq, ss, start, prev, sent) && prev.clusterSeq < src.firstClusterSeq + |ss|
    requires CleanFor(src, prev, beyond)
    ensures CanSend(src, prev, beyond)
    ensures var r := Send(src, prev, beyond);
            ChildOk(src.firstClusterSeq, ss, start, r.prev, sent + [r.packet])
  {
    hide AllGood, MidCluster, Serves, CleanAt, CanWalk, CanSend, Send, ChildOk;
    var unit, es := ChildStands(src.firstClusterSeq, ss, start, prev, sent);
    SendFromMid(src, ss, start, prev, sent, unit, es, beyond);
  }

  /** The read a cursor leads to, if it leads anywhere, is clean. */
  predicate CleanFor(src: Source, prev: BlockInfo, beyond: seq<u8>)
    requires |beyond| >= HEADER_REACH
  {
    CanWalk(src.file, src.headerBytes, Count(src, prev)) && Offset(src, prev) <= |src.file|
    ==> CleanAt(src, prev, beyond)
  }

  /** SendMulStream serves a child only when it has something pending, so it only ever reads
      clusters that are complete on file; what it ships is the next packet of the stream. */
  lemma SendKeepsChild(src: Source, ss: seq<Section>, start: nat, prev: BlockInfo, sent: seq<seq<u8>>, beyond: seq<u8>)
    requires Ready(src, ss) && Pending(src, prev) && |beyond| >= HEADER_REACH && AllGood(ss)
    requires ChildOk(src.firstClusterSeq, ss, start, prev, sent) && CleanFor(src, prev, beyond)
    ensures src.firstClusterSeq <= prev.clusterSeq < src.firstClusterSeq + |ss|
    ensures CanSend(src, prev, beyond)
    ensures var r := Send(src, prev, beyond);
            ChildOk(src.firstClusterSeq, ss, start, r.prev, sent + [r.packet])
  {
    hide AllGood, MidCluster, Serves, CleanAt, CanWalk, CanSend, Send, CleanFor;
    SendFromChild(src, ss, start, prev, sent, beyond);
  }

  /** Whatever a child has been sent is a prefix of the stream from where it joined. */
  lemma SentIsPrefix(first: nat, ss: seq<Section>, start: nat, prev: BlockInfo, sent: seq<seq<u8>>)
    requires first + |ss| < 0x1_0000 && AllGood(ss) && ChildOk(first, ss, start, prev, sent)
    ensures first <= start <= prev.clusterSeq
    ensures sent <= StreamFrom(first, ss, start)
    ensures prev.clusterSeq >= first + |ss| ==> sent == StreamFrom(first, ss, start)
  {
    hide AllGood, MidCluster, ChildOk, Stream, GoodSection;
    var unit, es := ChildStands(first, ss, start, prev, sent);
    if prev.clusterSeq < first + |ss| {
      MidPrefix(first, ss, start, prev, sent, unit, es);
      StreamPrefix(first, ss, start - first, prev.clusterSeq - first + 1, |ss|);
    }
  }

  lemma MidPrefix(first: nat, ss: seq<Section>, start: nat, prev: BlockInfo, sent: seq<seq<u8>>,
                  unit: seq<u8>, es: seq<seq<u8>>)
    requires first + |ss| < 0x1_0000 && AllGood(ss) && MidCluster(first, ss, start, prev, sent, unit, es)
    ensures first <= start <= prev.clusterSeq < first + |ss|
    ensures sent <= Stream(first, ss, start - first, prev.clusterSeq - first + 1)
  {
    hide AllGood, CursorAt, Stream, Rest;
  }

  lemma {:induction false} StreamPrefix(first: nat, ss: seq<Section>, a: nat, b: nat, c: nat)
    requires first + |ss| <= 0x1_0000 && AllGood(ss) && a <= b <= c <= |ss|
    ensures Stream(first, ss, a, b) <= Stream(first, ss, a, c)
    decreases c
  {
    hide GoodSection, Packets;
    if b < c {
      StreamPrefix(first, ss, a, b, c - 1);
    }
  }

  /** A later start leaves no more packets. */
  lemma {:induction false} LaterIsShorter(first: nat, ss: seq<Section>, a: nat, b: nat)
    requires first + |ss| <= 0x1_0000 && AllGood(ss) && a <= b <= |ss|
    ensures |Stream(first, ss, a, b)| <= |Stream(first, ss, 0, b)|
    decreases b
  {
    hide GoodSection, Packets;
    if a < b {
      LaterIsShorter(first, ss, a, b - 1);
    }
  }

  /** A run of sends for one child, each with its own memory behind the packet buffer. */
  datatype Run = Run(packets: seq<seq<u8>>, prev: BlockInfo)

  function SendMany(src: Source, prev: BlockInfo, count: nat, memory: nat -> seq<u8>): Run {
    if count == 0 then Run([], prev)
    else
      var r := SendMany(src, prev, count - 1, memory);
      if CanSend(src, r.prev, memory(count - 1)) then
        var x := Send(src, r.prev, memory(count - 1));
        Run(r.packets + [x.packet], x.prev)
      else r
  }

  /** This memory behind the packet buffer spoils no read at a cursor. */
  ghost predicate CleanBeyond(src: Source, ss: seq<Section>, beyond: seq<u8>) {
    && |beyond| >= HEADER_REACH
    && forall prev, i, unit, es ::
         CursorAt(src.firstClusterSeq, ss, prev, i, unit, es) ==> CleanFor(src, prev, beyond)
  }

  ghost predicate CleanMemory(src: Source, ss: seq<Section>, memory: nat -> seq<u8>) {
    forall k :: CleanBeyond(src, ss, memory(k))
  }

  lemma CleanAtCursor(src: Source, ss: seq<Section>, start: nat, prev: BlockInfo, sent: seq<seq<u8>>, beyond: seq<u8>)
    requires src.firstClusterSeq + |ss| < 0x1_0000 && AllGood(ss) && CleanBeyond(src, ss, beyond)
    requires ChildOk(src.firstClusterSeq, ss, start, prev, sent) && prev.clusterSeq < src.firstClusterSeq + |ss|
    ensures |beyond| >= HEADER_REACH && CleanFor(src, prev, beyond)
  {
    hide AllGood, ChildOk, CursorAt, CleanFor, Stream, Rest;
    var unit, es := ChildStands(src.firstClusterSeq, ss, start, prev, sent);
    assert CursorAt(src.firstClusterSeq, ss, prev, prev.clusterSeq - src.firstClusterSeq, unit, es);
  }

  /** n sends yield the first n packets of the stream, as long as there are that many. */
  lemma {:induction false} SendManyIsStream(src: Source, ss: seq<Section>, start: u16, n: nat, memory: nat -> seq<u8>)
    requires Ready(src, ss) && AllGood(ss) && CleanMemory(src, ss, memory)
    requires src.firstClusterSeq <= start <= src.firstClusterSeq + |ss|
    requires n <= |Stream(src.firstClusterSeq, ss, start - src.firstClusterSeq, |ss|)|
    ensures var r := SendMany(src, ClusterStart(start), n, memory);
            && r.packets == Stream(src.firstClusterSeq, ss, start - src.firstClusterSeq, |ss|)[..n]
            && ChildOk(src.firstClusterSeq, ss, start, r.prev, r.packets)
    decreases n
  {
    hide AllGood, ChildOk, CursorAt, CleanFor, Stream, Serves, CleanBeyond, Send, CanSend, ClusterStart;
    var first := src.firstClusterSeq;
    if n == 0 {
      Join(first, ss, start);
    } else {
      SendManyIsStream(src, ss, start, n - 1, memory);
      var r := SendMany(src, ClusterStart(start), n - 1, memory);
      SentIsPrefix(first, ss, start, r.prev, r.packets);
      assert CleanBeyond(src, ss, memory(n - 1));
      CleanAtCursor(src, ss, start, r.prev, r.packets, memory(n - 1));
      SendFromChild(src, ss, start, r.prev, r.packets, memory(n - 1));
      var x := Send(src, r.prev, memory(n - 1));
      SentIsPrefix(first, ss, start, x.prev, r.packets + [x.packet]);
    }
  }

  lemma SendFromMid(src: Source, ss: seq<Section>, start: nat, prev: BlockInfo, sent: seq<seq<u8>>,
                    unit: seq<u8>, es: seq<seq<u8>>, beyond: seq<u8>)
    requires Ready(src, ss) && AllGood(ss) && |beyond| >= HEADER_REACH
    requires MidCluster(src.firstClusterSeq, ss, start, prev, sent, unit, es)
    requires CleanFor(src, prev, beyond)
    ensures CanSend(src, prev, beyond)
    ensures var r := Send(src, prev, beyond);
            ChildOk(src.firstClusterSeq, ss, start, r.prev, sent + [r.packet])
  {
    hide AllGood, GoodSection, Serves, CleanAt, CanWalk, CanSend, Send, ChildOk, Stream, Rest, CursorAt, At;
    var first, i := src.firstClusterSeq, prev.clusterSeq - src.firstClusterSeq;
    CursorIsAt(first, ss, prev, i, unit, es);
    SendIsCut(src, ss, prev, i, unit, es, beyond);
    RestStep(prev, unit, es);
    hide Flat, Sizes, Cut, Encode, ClusterStart, UnitBehind, ElementsBehind, Ready, Count;
    var r := Send(src, prev, beyond);
    var c := Cut(prev, |unit|, Sizes(es));
    if c.status == CLUSTER_END {
      AtClusterStart(first, ss, start, i + 1, sent + [r.packet]);
    } else {
      StaysInCluster(first, ss, start, prev, sent, unit, es, r.packet);
    }
  }

  lemma StaysInCluster(first: nat, ss: seq<Section>, start: nat, prev: BlockInfo, sent: seq<seq<u8>>,
                       unit: seq<u8>, es: seq<seq<u8>>, packet: seq<u8>)
    requires first + |ss| < 0x1_0000 && AllGood(ss)
    requires MidCluster(first, ss, start, prev, sent, unit, es)
    requires Cut(prev, |unit|, Sizes(es)).status != CLUSTER_END
    requires var c := Cut(prev, |unit|, Sizes(es));
             var unit', es' := UnitBehind(prev, unit, es), ElementsBehind(prev, unit, es);
             At(c.info, unit', es') && Rest(prev, unit, es) == [packet] + Rest(c.info, unit', es')
    ensures ChildOk(first, ss, start, Cut(prev, |unit|, Sizes(es)).info, sent + [packet])
  {
    hide AllGood, GoodSection, ChildOk, Stream, Rest, CursorAt, At, Flat, Sizes, Cut, UnitBehind, ElementsBehind;
    var i := prev.clusterSeq - first;
    var c := Cut(prev, |unit|, Sizes(es));
    var unit', es' := UnitBehind(prev, unit, es), ElementsBehind(prev, unit, es);
    OneGood(ss, i);
    CursorMoves(first, ss, prev, i, unit, es);
    CutSuccessor(prev, |unit|, Sizes(es));
    assert sent + ([packet] + Rest(c.info, unit', es')) == (sent + [packet]) + Rest(c.info, unit', es');
    MidIsOk(first, ss, start, c.info, sent + [packet], unit', es');
  }

  lemma OneGood(ss: seq<Section>, i: nat)
    requires AllGood(ss) && i < |ss|
    ensures GoodSection(ss[i])
  {
  }

  lemma MidIsOk(first: nat, ss: seq<Section>, start: nat, prev: BlockInfo, sent: seq<seq<u8>>,
                unit: seq<u8>, es: seq<seq<u8>>)
    requires first + |ss| < 0x1_0000 && AllGood(ss)
    requires MidCluster(first, ss, start, prev, sent, unit, es)
    ensures ChildOk(first, ss, start, prev, sent)
  {
    hide AllGood, CursorAt, Rest, Stream;
  }
}
