/** Relaying: a peer serves from the file it is writing. What it sends is, block for block,
    what its own parent sent, over any number of hops, and the times stored at every node stay
    absolute, whoever the parents are.
  */
module Relay {
  import opened Words
  import opened Ebml
  import opened Clusters
  import opened Timecodes
  import opened Disk
  import opened Serving
  import opened Streams
  import opened Clips
  import opened Peers
  import opened Assembly
  import opened Reception
  import opened RoundTrip

  /** The globals a peer sends from. */
  function SourceOf(s: State): Source {
    Source(s.file, s.headerBytes, s.firstClusterSeq, s.prevCluster.number, s.latest)
  }

  /** The closed clusters first..n-1 of a node that joined at first. */
  ghost function Relayed(clip: seq<seq<seq<u8>>>, first: nat, n: nat): (ss: seq<Section>)
    requires IsClip(clip) && first <= n <= |clip|
    ensures |ss| == n - first
  {
    if n == first then []
    else
      LaterThan(clip, first, n - 1);
      var es := Shown(clip, n - 1, Time(clip, first));
      Relayed(clip, first, n - 1) + [Section(ClusterHeader(|Flat(es)|), es)]
  }

  lemma {:induction false} RelayedOnFile(clip: seq<seq<seq<u8>>>, first: nat, n: nat)
    requires IsClip(clip) && first <= n <= |clip|
    ensures OnFile(Relayed(clip, first, n)) == Closed(StoredPayloads(clip, first, n))
    ensures AllGood(Relayed(clip, first, n))
    decreases n
  {
    hide IsClip, Flat, ClusterHeader, GoodSection, Shown, Region, GoodPayload, Time, Closed, OnFile;
    if first < n {
      RelayedOnFile(clip, first, n - 1);
      LaterThan(clip, first, n - 1);
      var es := Shown(clip, n - 1, Time(clip, first));
      ClosedSnoc(StoredPayloads(clip, first, n - 1), Flat(es));
      RelayedSection(clip, n - 1, Time(clip, first));
      OnFileSnoc(Relayed(clip, first, n - 1), Section(ClusterHeader(|Flat(es)|), es));
    } else {
      NothingOnFile();
    }
  }

  lemma NothingOnFile()
    ensures OnFile([]) == Closed([])
  {
  }

  lemma OnFileSnoc(ss: seq<Section>, c: Section)
    ensures OnFile(ss + [c]) == OnFile(ss) + [Stored(c.head, Flat(c.es))]
  {
    hide Flat;
  }

  lemma RelayedSection(clip: seq<seq<seq<u8>>>, n: nat, offset: u64)
    requires IsClip(clip) && n < |clip| && offset <= Time(clip, n)
    ensures var es := Shown(clip, n, offset); GoodSection(Section(ClusterHeader(|Flat(es)|), es))
  {
    ShownIsGood(clip, n, offset);
    hide IsClip, Flat, Shown, IsPayload, IsTimecode;
    var m := |Flat(Shown(clip, n, offset))|;
    assert GoodPayload(Shown(clip, n, offset));
    ClusterHeaderReadsBack(m, []);
    assert ClusterHeader(m) + [] == ClusterHeader(m);
  }

  ghost predicate Carries(src: Source, ss: seq<Section>, clip: seq<seq<seq<u8>>>, offset: u64)
    requires IsClip(clip)
  {
    && Ready(src, ss) && AllGood(ss)
    && src.firstClusterSeq + |ss| <= |clip|
    && forall k :: 0 <= k < |ss| ==> Carried(ss[k], clip, src.firstClusterSeq + k, offset)
  }

  ghost predicate Carried(c: Section, clip: seq<seq<seq<u8>>>, n: nat, offset: u64)
    requires IsClip(clip) && n < |clip|
  {
    GoodPayload(clip[n]) && offset <= Time(clip, n) && c.es == Shown(clip, n, offset)
  }

  lemma {:induction false} RelayedCarried(clip: seq<seq<seq<u8>>>, first: nat, n: nat)
    requires IsClip(clip) && first <= n <= |clip| && first < |clip| && GoodPayload(clip[first])
    ensures forall k :: 0 <= k < n - first ==> Carried(Relayed(clip, first, n)[k], clip, first + k, Time(clip, first))
    decreases n
  {
    hide IsClip, GoodPayload, Shown, Flat, ClusterHeader, Time;
    if first < n {
      RelayedCarried(clip, first, n - 1);
      LaterThan(clip, first, n - 1);
    }
  }

  /** A peer that has closed a cluster can serve every cluster it has closed. */
  lemma PeerServes(s: State, header: seq<u8>, clip: seq<seq<seq<u8>>>, first: nat, n: nat, j: nat)
    requires IsClip(clip) && first < n && Receiving(s, header, clip, first, n, j)
    ensures Carries(SourceOf(s), Relayed(clip, first, n), clip, s.offset)
  {
    hide Serves, IsClip, AllGood, ShapeAt, Carried, Layout, Time, GoodPayload, Region, Closed;
    RelayedOnFile(clip, first, n);
    RelayedCarried(clip, first, n);
    ClipLength(clip);
    var shape := ShapeAt(clip, first, n, j);
    HeldLayout(s, header, shape);
    ShapeClosed(clip, first, n, j);
    LayoutServes(s.file, s.cluster.pos, s.cluster.dataBytes, header, shape.closed, shape.open, Relayed(clip, first, n));
  }

  lemma HeldLayout(s: State, header: seq<u8>, shape: Shape)
    requires Holds(s, header, shape)
    ensures s.headerBytes == |header|
    ensures Layout(s.file, s.cluster.pos, s.cluster.dataBytes, header, shape.closed, shape.open)
  {
    hide Layout;
  }

  lemma ShapeClosed(clip: seq<seq<seq<u8>>>, first: nat, n: nat, j: nat)
    requires IsClip(clip) && first <= n < |clip| && j <= |BlocksOf(clip, n)|
    ensures ShapeAt(clip, first, n, j).closed == StoredPayloads(clip, first, n)
  {
    hide StoredPayloads, BlocksOf, IsClip, Shown, Flat;
  }

  lemma ClipLength(clip: seq<seq<seq<u8>>>)
    requires IsClip(clip)
    ensures |clip| < 0x1_0000
  {
  }

  lemma LayoutServes(file: seq<u8>, pos: nat, dataBytes: nat, header: seq<u8>, closed: seq<seq<u8>>, open: seq<u8>,
                     ss: seq<Section>)
    requires Layout(file, pos, dataBytes, header, closed, open)
    requires OnFile(ss) == Closed(closed) && AllGood(ss)
    ensures Serves(file, |header|, ss)
  {
    hide ClusterHeader, GoodSection, Region, Closed, OnFile;
    var region := Region(Closed(closed));
    assert pos == |header| + |region|;
    assert file[|header|..pos] == file[..pos][|header|..] == region;
    FooterIsMarked(dataBytes);
    var head := file[pos..pos + CLUSTER_HEADER_BYTES];
    assert head[..4] == head[..5][..4] == FOOTER[..5][..4];
    HeadIsEndId(file, pos, head);
  }

  /** The packets of a carried section are those of the clip. */
  lemma CarriedPackets(c: Section, clip: seq<seq<seq<u8>>>, n: nat, offset: u64)
    requires IsClip(clip) && n < |clip| && Carried(c, clip, n, offset) && GoodSection(c)
    ensures IsPayload(c.es) && Packets(n, c.es) == Prefix(clip, offset, n, |BlocksOf(clip, n)|)
  {
    PacketsAreTheClips(clip, n, offset);
    hide BlocksOf, PacketOf, Shown, Packets;
  }

  lemma {:induction false} CarriedStream(src: Source, ss: seq<Section>, clip: seq<seq<seq<u8>>>, offset: u64, a: nat,
                                         b: nat)
    requires IsClip(clip) && Carries(src, ss, clip, offset) && a < b <= |ss|
    ensures src.firstClusterSeq + |ss| <= 0x1_0000 && AllGood(ss)
    ensures var first := src.firstClusterSeq;
            && first + b - 1 < |clip| && GoodPayload(clip[first + a]) && offset <= Time(clip, first + a)
            && Stream(first, ss, a, b) == LiveStream(clip, offset, first + a, first + b - 1)
    decreases b
  {
    hide IsClip, AllGood, Serves, Carried, GoodSection, BlocksOf, Prefix, Packets, GoodPayload, Time, Stream,
         LiveStream;
    var first := src.firstClusterSeq;
    CarriesFits(src, ss, clip, offset);
    hide Carries;
    OneCarried(src, ss, clip, offset, a);
    OneCarried(src, ss, clip, offset, b - 1);
    CarriedPackets(ss[b - 1], clip, first + b - 1, offset);
    LaterThan(clip, first + a, first + b - 1);
    StreamStep(first, ss, a, b);
    LiveStep(clip, offset, first + a, first + b - 1);
    if a + 1 < b {
      CarriedStream(src, ss, clip, offset, a, b - 1);
    }
  }

  lemma CarriesFits(src: Source, ss: seq<Section>, clip: seq<seq<seq<u8>>>, offset: u64)
    requires IsClip(clip) && Carries(src, ss, clip, offset)
    ensures AllGood(ss) && src.firstClusterSeq + |ss| <= |clip| < 0x1_0000
  {
  }

  lemma StreamStep(first: nat, ss: seq<Section>, a: nat, b: nat)
    requires a < b <= |ss| && first + |ss| <= 0x1_0000 && AllGood(ss)
    ensures IsPayload(ss[b - 1].es)
    ensures Stream(first, ss, a, a) == []
    ensures Stream(first, ss, a, b) == Stream(first, ss, a, b - 1) + Packets(first + b - 1, ss[b - 1].es)
  {
    OneGood(ss, b - 1);
    hide AllGood, Packets, IsPayload;
  }

  lemma LiveStep(clip: seq<seq<seq<u8>>>, offset: u64, first: nat, last: nat)
    requires IsClip(clip) && first <= last < |clip| && GoodPayload(clip[first]) && offset <= Time(clip, first)
    requires GoodPayload(clip[last]) && offset <= Time(clip, last)
    ensures LiveStream(clip, offset, first, last)
            == (if first == last then [] else LiveStream(clip, offset, first, last - 1))
               + Prefix(clip, offset, last, |BlocksOf(clip, last)|)
  {
    hide IsClip, GoodPayload, BlocksOf, Prefix, Time;
  }

  lemma CarriesServes(src: Source, ss: seq<Section>, clip: seq<seq<seq<u8>>>, offset: u64)
    requires IsClip(clip) && Carries(src, ss, clip, offset)
    ensures Serves(src.file, src.headerBytes, ss) && src.firstClusterSeq + |ss| <= |clip|
  {
    hide Serves;
  }

  lemma OneCarried(src: Source, ss: seq<Section>, clip: seq<seq<seq<u8>>>, offset: u64, k: nat)
    requires IsClip(clip) && Carries(src, ss, clip, offset) && k < |ss|
    ensures src.firstClusterSeq + |ss| <= |clip| && Carried(ss[k], clip, src.firstClusterSeq + k, offset)
            && GoodSection(ss[k])
    ensures GoodPayload(clip[src.firstClusterSeq + k]) && offset <= Time(clip, src.firstClusterSeq + k)
  {
  }
}
