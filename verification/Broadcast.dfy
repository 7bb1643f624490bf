/** The whole system at once: from an origin's file, over any path of peers, to the file the
    last peer is left with.
  */
module Broadcast {
  import opened Words
  import opened Ebml
  import opened Blocks
  import opened Segmentation
  import opened Plan
  import opened Clusters
  import opened Timecodes
  import opened CleanReads
  import opened Disk
  import opened Serving
  import opened Streams
  import opened Clips
  import opened Peers
  import opened Reception
  import opened RoundTrip
  import opened Relay
  import opened Rebasing
  import opened Adoption
  import opened Hops
  import opened NodeRuns

  /** The clusters of an origin's file, under whatever headers tell their lengths. */
  predicate HeadsFit(clip: seq<seq<seq<u8>>>, heads: seq<seq<u8>>) {
    |heads| == |clip| && forall n :: 0 <= n < |clip| ==> TrueHead(heads[n], |Flat(clip[n])|)
  }

  function Originals(clip: seq<seq<seq<u8>>>, heads: seq<seq<u8>>): (ss: seq<Section>)
    requires |heads| == |clip|
    ensures |ss| == |clip|
  {
    seq(|clip|, n requires 0 <= n < |clip| => Section(heads[n], clip[n]))
  }

  function OriginFile(header: seq<u8>, clip: seq<seq<seq<u8>>>, heads: seq<seq<u8>>, tail: seq<u8>): seq<u8>
    requires |heads| == |clip|
  {
    header + Region(OnFile(Originals(clip, heads))) + tail
  }

  /** The origin carries its own stream, relative to time 0. */
  lemma OriginCarries(header: seq<u8>, clip: seq<seq<seq<u8>>>, heads: seq<seq<u8>>, tail: seq<u8>, closedSeq: u32,
                      latest: u32)
    requires IsClip(clip) && HeadsFit(clip, heads) && StartsWithEndId(tail) && closedSeq < |clip|
    ensures Carries(Source(OriginFile(header, clip, heads, tail), |header|, 0, closedSeq, latest),
                    Originals(clip, heads), clip, 0)
  {
    hide TrueHead, IsPayload, Region, OnFile, StartsWithEndId, Time, Shown, IsTimecode;
    var ss := Originals(clip, heads);
    forall n | 0 <= n < |clip| ensures GoodSection(ss[n]) && Carried(ss[n], clip, n, 0) {
      assert GoodPayload(clip[n]);
      ShownAtOrigin(clip, n);
    }
    var region := Region(OnFile(ss));
    FileParts(header, region, tail);
  }

  lemma FileParts(a: seq<u8>, b: seq<u8>, c: seq<u8>)
    ensures (a + b + c)[|a|..|a| + |b|] == b && (a + b + c)[|a| + |b|..] == c
  {
  }

  /** Zeros behind the packet buffers of a node are always clean. */
  lemma ZerosAlwaysClean(size: nat)
    requires size >= HEADER_REACH
    ensures AlwaysClean((k: nat) => Filled(size, 0))
  {
    hide Serves, CleanBeyond, Filled;
    var memory := (k: nat) => Filled(size, 0);
    forall src: Source, ss | Serves(src.file, src.headerBytes, ss) ensures CleanMemory(src, ss, memory) {
      ClearMemory(src, ss, size);
    }
  }

  /** SendWebMHeader's packet, with nothing written over its zeroed descriptor, starts the
      stream, and SendEndStatus's ends it. */
  lemma MarkersAreRead(s: State, header: seq<u8>)
    requires s.fpos <= |s.file| && |s.infos| > 0
    ensures WellFormed(BLOCKINFO_START + header) && (BLOCKINFO_START + header)[..BLOCKINFO_BYTES] == BLOCKINFO_START
    ensures Assemble(s, BLOCKINFO_START + header) == Start(s, header)
    ensures FileOk(s) ==> WellFormed(BLOCKINFO_END) && Assemble(s, BLOCKINFO_END) == End(s)
  {
    hide Start, End, Accept, Decode;
    var data := BLOCKINFO_START + header;
    assert data[..BLOCKINFO_BYTES] == BLOCKINFO_START && data[BLOCKINFO_BYTES..] == header;
    assert BLOCKINFO_END[..BLOCKINFO_BYTES] == BLOCKINFO_END;
    assert BLOCKINFO_START[0] == 0 && BLOCKINFO_END[0] == 0xff;
  }

  /** What a peer that joined at cluster first stores of cluster m: the original payload with
      the value of its Timecode relative to cluster first. */
  function StoredAs(clip: seq<seq<seq<u8>>>, first: nat, m: nat): seq<u8>
    requires first < |clip| && m < |clip| && GoodPayload(clip[first]) && GoodPayload(clip[m])
    requires Time(clip, first) <= Time(clip, m)
  {
    Restamp(clip[m][0], Time(clip, m) - Time(clip, first)) + Flat(clip[m][1..])
  }

  /** After END the file is the header, the clusters first..last, each under a header of its
      length and with the original bytes except the value of its Timecode, and the footer. */
  ghost predicate LeavesFile(s: State, header: seq<u8>, clip: seq<seq<seq<u8>>>, first: nat, last: nat)
    requires IsClip(clip) && first <= last < |clip|
  {
    && FileOk(s) && GoodPayload(clip[first])
    && End(s).file == header + Region(Closed(StoredPayloads(clip, first, last + 1))) + FOOTER
    && |StoredPayloads(clip, first, last + 1)| == last + 1 - first
    && forall m :: first <= m <= last ==>
         && GoodPayload(clip[first]) && GoodPayload(clip[m]) && Time(clip, first) <= Time(clip, m)
         && StoredPayloads(clip, first, last + 1)[m - first] == StoredAs(clip, first, m)
  }

  /** From end to end: for every header, every stream of well-formed clusters and every path of
      peers, whatever they have read as their parents' time bases, that is what the last peer is
      left with. */
  lemma EndToEnd(header: seq<u8>, clip: seq<seq<seq<u8>>>, heads: seq<seq<u8>>, tail: seq<u8>,
                 closedSeq: u32, latest: u32, hops: seq<Hop>)
    requires IsClip(clip) && HeadsFit(clip, heads) && StartsWithEndId(tail) && closedSeq < |clip| && |header| < 0x1_0000
    requires |hops| > 0 && Possible(hops, 0, |clip|)
    ensures forall i :: 0 <= i < |hops| ==> hops[i].start <= hops[i].last < |clip|
    ensures var src := Source(OriginFile(header, clip, heads, tail), |header|, 0, closedSeq, latest);
            LeavesFile(AtEndOf(hops, src, clip, header), header, clip, hops[|hops| - 1].start, hops[|hops| - 1].last)
  {
    hide IsClip, HeadsFit, Possible, Carries, HasWritten, AtEndOf, StartsWithEndId, BlocksOf, LeavesFile, OriginFile,
         Originals;
    HeadCount(clip, heads);
    var src := Source(OriginFile(header, clip, heads, tail), |header|, 0, closedSeq, latest);
    var k := |hops| - 1;
    PossibleInRange(hops, |clip|);
    OriginCarries(header, clip, heads, tail, closedSeq, latest);
    PathDelivers(hops, src, Originals(clip, heads), clip, 0, header);
    WrittenLeavesFile(AtEndOf(hops, src, clip, header), header, clip, hops[k].start, hops[k].last);
  }

  lemma WrittenLeavesFile(s: State, header: seq<u8>, clip: seq<seq<seq<u8>>>, first: nat, last: nat)
    requires IsClip(clip) && first <= last < |clip| && |header| < 0x1_0000
    requires HasWritten(s, header, clip, first, last, |BlocksOf(clip, last)|)
    ensures LeavesFile(s, header, clip, first, last)
  {
    hide IsClip, Receiving, StoredPayloads, StoredAs, BlocksOf, GoodPayload, Time, Region, Closed;
    var t := s.(offset := Time(clip, first));
    ReceivedLeavesFile(t, header, clip, first, last);
    ReceivingFields(t, header, clip, first, last, |BlocksOf(clip, last)|);
    EndOtherBase(s, Time(clip, first));
  }

  /** What END writes has nothing to do with the time base. */
  lemma EndOtherBase(s: State, own: u64)
    requires FileOk(s.(offset := own))
    ensures FileOk(s) && End(s.(offset := own)).file == End(s).file
  {
    hide Flush, Export;
    FlushBase(s, s.nodeOffset, own);
    ExportBase(Flush(s, s.blockNum), s.nodeOffset, own, FOOTER);
  }

  lemma HeadCount(clip: seq<seq<seq<u8>>>, heads: seq<seq<u8>>)
    requires HeadsFit(clip, heads)
    ensures |heads| == |clip|
  {
  }

  lemma ReceivedLeavesFile(s: State, header: seq<u8>, clip: seq<seq<seq<u8>>>, first: nat, last: nat)
    requires IsClip(clip) && first <= last < |clip| && |header| < 0x1_0000
    requires Receiving(s, header, clip, first, last, |BlocksOf(clip, last)|)
    ensures LeavesFile(s, header, clip, first, last)
  {
    hide IsClip, Receiving, StoredPayloads, StoredAs, FileOk, End, Region, Closed, GoodPayload, Time, BlocksOf,
         Shown, Flat;
    RoundTripFile(s, header, clip, first, last);
    ReceivingFields(s, header, clip, first, last, |BlocksOf(clip, last)|);
    forall m | first <= m <= last
      ensures GoodPayload(clip[first]) && GoodPayload(clip[m]) && Time(clip, first) <= Time(clip, m)
      ensures StoredPayloads(clip, first, last + 1)[m - first] == StoredAs(clip, first, m)
    {
      LaterThan(clip, first, m);
      StoredAt(clip, first, last + 1, m);
      ShownBytes(clip, first, m);
    }
  }

  lemma ShownBytes(clip: seq<seq<seq<u8>>>, first: nat, m: nat)
    requires IsClip(clip) && first <= m < |clip|
    requires GoodPayload(clip[first]) && GoodPayload(clip[m]) && Time(clip, first) <= Time(clip, m)
    ensures Flat(Shown(clip, m, Time(clip, first))) == StoredAs(clip, first, m)
  {
    GoodIsPayload(clip[m]);
    hide IsClip, IsTimecode, Restamp, Stamp, IsElement;
    var es := Shown(clip, m, Time(clip, first));
    assert es[1..] == clip[m][1..];
  }

  lemma {:induction false} PossibleInRange(hops: seq<Hop>, n: nat)
    requires |hops| > 0 && Possible(hops, 0, n)
    ensures forall i :: 0 <= i < |hops| ==> hops[i].start <= hops[i].last < n
  {
    hide AlwaysClean;
    if |hops| > 1 {
      var k := |hops| - 1;
      PossiblePrefix(hops, 0, n, k);
      PossibleInRange(hops[..k], n);
      assert forall i :: 0 <= i < k ==> hops[..k][i] == hops[i];
      assert hops[k].last < hops[k - 1].last;
    }
  }

  /** The hypotheses of EndToEnd can be met: by one cluster of a Timecode and a SimpleBlock, and
      a peer that takes it. */
  lemma HypothesesMet() returns (clip: seq<seq<seq<u8>>>, heads: seq<seq<u8>>, tail: seq<u8>, hops: seq<Hop>)
    ensures |clip| == 1 && IsClip(clip) && HeadsFit(clip, heads) && StartsWithEndId(tail)
    ensures |hops| == 1 && Possible(hops, 0, |clip|) && hops[0].start < |clip|
  {
    hide IsTimecode, IsPayload, TrueHead, AlwaysClean, Filled, Time, Flat;
    var es: seq<seq<u8>> := [[0xe7, 0x81, 0x00], [0xa3, 0x81, 0x00]];
    SmallPayload(es);
    clip, tail := [es], FOOTER;
    ClusterHeaderReadsBack(6, []);
    heads := [ClusterHeader(6)];
    SmallHead();
    ZerosAlwaysClean(HEADER_REACH);
    hops := [Hop(1, 0, 0, 0, (k: nat) => Filled(HEADER_REACH, 0))];
  }

  lemma SmallHead()
    ensures TrueHead(ClusterHeader(6), 6)
  {
    ClusterHeaderReadsBack(6, []);
    assert ClusterHeader(6) + [] == ClusterHeader(6);
    hide ChankAt, HasHeader;
  }

  lemma SmallPayload(es: seq<seq<u8>>)
    requires es == [[0xe7, 0x81, 0x00], [0xa3, 0x81, 0x00]]
    ensures GoodPayload(es) && |Flat(es)| == 6
  {
    SmallElement(es[0]);
    SmallElement(es[1]);
    hide IsElement, ChankAt, Flat;
    FlatSize(es);
    assert Sizes(es) == [3, 3];
    SmallSum();
    assert IsTimecode(es[0]);
    assert Ahead(true, es);
  }

  lemma SmallSum()
    ensures Sum([3, 3]) == 6
  {
    assert [3, 3][1..] == [3] && [3][1..] == [];
    assert Sum([3]) == 3;
  }

  lemma SmallElement(e: seq<u8>)
    requires |e| == 3 && e[0] in {0xe7, 0xa3} && e[1] == 0x81
    ensures IsElement(e) && ChankAt(e).dataBytes == 1
  {
    assert e[..1] == [e[0]] && e[1..][1..1] == [];
    FromBESingle(e[0]);
    FromBESingle(1);
  }
}
