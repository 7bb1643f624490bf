/** The whole delivery path: origin to peer to peer, by induction on the number of hops; and
    the times stored on the way, under any change of parents.
  */
module Hops {
  import opened Words
  import opened Ebml
  import opened Blocks
  import opened Segmentation
  import opened Clusters
  import opened Timecodes
  import opened Serving
  import opened Streams
  import opened Clips
  import opened Peers
  import opened Assembly
  import opened Reception
  import opened RoundTrip
  import opened Relay
  import opened StatusMessages
  import opened Adoption

  /** The number of packets of clusters first..last. */
  ghost function PacketCount(clip: seq<seq<seq<u8>>>, first: nat, last: nat): nat
    requires IsClip(clip) && first <= last < |clip|
  {
    (if first == last then 0 else PacketCount(clip, first, last - 1)) + |BlocksOf(clip, last)|
  }

  lemma {:induction false} LiveLength(clip: seq<seq<seq<u8>>>, offset: u64, first: nat, last: nat)
    requires IsClip(clip) && first <= last < |clip| && GoodPayload(clip[first]) && offset <= Time(clip, first)
    ensures |LiveStream(clip, offset, first, last)| == PacketCount(clip, first, last)
    decreases last
  {
    hide IsClip, GoodPayload, BlocksOf, Prefix, Time;
    LaterThan(clip, first, last);
    if first < last {
      LiveLength(clip, offset, first, last - 1);
      LaterThan(clip, first, last - 1);
    }
  }

  /** One hop: a peer that joins a serving node, reads the time base told as whatever number,
      and is sent as many packets as clusters start..last have, has exactly those clusters on
      file, relative to the right time base. Its own base register is right if and only if it
      has read the sender's base. */
  lemma OneHop(src: Source, ss: seq<Section>, clip: seq<seq<seq<u8>>>, offset: u64, header: seq<u8>,
               maxBlocks: nat, start: u16, last: nat, told: u64, memory: nat -> seq<u8>)
    requires IsClip(clip) && Carries(src, ss, clip, offset) && CleanMemory(src, ss, memory)
    requires src.firstClusterSeq <= start <= last < src.firstClusterSeq + |ss| && last < |clip|
    requires maxBlocks > 0 && |header| < 0x1_0000
    ensures GoodPayload(clip[start])
    ensures var packets := SendMany(src, ClusterStart(start), PacketCount(clip, start, last), memory).packets;
            var s := Start(Joining(maxBlocks, start, told), header);
            && FileOk(s) && |s.infos| > 0 && (forall p :: p in packets ==> WellFormed(p))
            && var w := Feed(s, packets);
               && HasWritten(w, header, clip, start, last, |BlocksOf(clip, last)|)
               && (w.offset == Time(clip, start) <==> told == offset)
  {
    hide IsClip, HasWritten, Feed, LiveStream, SendMany, BlocksOf, FileOk, WellFormed, GoodPayload, Time, Start,
         Waiting, Carries, CleanMemory;
    SentIsLive(src, ss, clip, offset, start, last, memory);
    LaterThan(clip, start, start);
    JoinedIsWaiting(maxBlocks, start, told, header);
    StreamReceived(Start(Joining(maxBlocks, start, told), header), offset, header, clip, start, last);
  }

  lemma SentIsLive(src: Source, ss: seq<Section>, clip: seq<seq<seq<u8>>>, offset: u64,
                   start: u16, last: nat, memory: nat -> seq<u8>)
    requires IsClip(clip) && Carries(src, ss, clip, offset) && CleanMemory(src, ss, memory)
    requires src.firstClusterSeq <= start <= last < src.firstClusterSeq + |ss| && last < |clip|
    ensures GoodPayload(clip[start]) && offset <= Time(clip, start)
    ensures SendMany(src, ClusterStart(start), PacketCount(clip, start, last), memory).packets
            == LiveStream(clip, offset, start, last)
  {
    hide IsClip, Carries, AllGood, CleanMemory, LiveStream, Stream, SendMany, BlocksOf, ClusterStart, GoodPayload,
         Time, ChildOk, PacketCount, Carried, Serves, GoodSection, CleanBeyond, Shown, PacketOf;
    var first := src.firstClusterSeq;
    CarriesFits(src, ss, clip, offset);
    OneCarried(src, ss, clip, offset, start - first);
    CarriedStream(src, ss, clip, offset, start - first, last + 1 - first);
    LiveLength(clip, offset, start, last);
    SentPrefix(src, ss, clip, offset, start, last + 1 - first, PacketCount(clip, start, last), memory);
  }

  lemma SentPrefix(src: Source, ss: seq<Section>, clip: seq<seq<seq<u8>>>, offset: u64,
                   start: u16, b: nat, n: nat, memory: nat -> seq<u8>)
    requires IsClip(clip) && Carries(src, ss, clip, offset) && CleanMemory(src, ss, memory)
    requires AllGood(ss) && src.firstClusterSeq + |ss| < 0x1_0000
    requires src.firstClusterSeq <= start && start - src.firstClusterSeq <= b <= |ss|
    requires n == |Stream(src.firstClusterSeq, ss, start - src.firstClusterSeq, b)|
    ensures SendMany(src, ClusterStart(start), n, memory).packets
            == Stream(src.firstClusterSeq, ss, start - src.firstClusterSeq, b)
  {
    hide IsClip, AllGood, CleanMemory, Stream, SendMany, ClusterStart, ChildOk, Carried, Serves;
    StreamPrefix(src.firstClusterSeq, ss, start - src.firstClusterSeq, b, |ss|);
    SendManyIsStream(src, ss, start, n, memory);
  }

  /** A peer on the path: it joins its parent at cluster start and is sent clusters start..last.
      It can serve those before last, which it has closed. told is what it reads as its
      parent's time base. */
  datatype Hop = Hop(maxBlocks: nat, start: u16, last: nat, told: u64, memory: nat -> seq<u8>)

  ghost predicate AlwaysClean(memory: nat -> seq<u8>) {
    forall src: Source, ss :: Serves(src.file, src.headerBytes, ss) ==> CleanMemory(src, ss, memory)
  }

  /** The hops are possible: each peer asks for clusters its parent has closed. */
  ghost predicate Possible(hops: seq<Hop>, first: nat, n: nat) {
    && (forall i :: 0 <= i < |hops| ==>
          hops[i].maxBlocks > 0 && hops[i].start <= hops[i].last && AlwaysClean(hops[i].memory))
    && (|hops| > 0 ==> first <= hops[0].start && hops[0].last < first + n)
    && forall i :: 1 <= i < |hops| ==> hops[i - 1].start <= hops[i].start && hops[i].last < hops[i - 1].last
  }

  /** The time base of what peer i of a path is sent: the time of the cluster its parent
      joined at. */
  ghost function BaseSent(hops: seq<Hop>, offset: u64, clip: seq<seq<seq<u8>>>, i: nat): u64
    requires IsClip(clip) && i < |hops| && forall k :: 0 <= k < |hops| ==> hops[k].start < |clip|
  {
    if i == 0 then offset
    else
      LaterThan(clip, hops[i - 1].start, hops[i - 1].start);
      Time(clip, hops[i - 1].start)
  }

  /** The state of a peer that has read its parent's time base in its Initial Status message
      and has then been sent count packets. */
  ghost function Peered(hop: Hop, src: Source, count: nat, header: seq<u8>): State {
    var packets := SendMany(src, ClusterStart(hop.start), count, hop.memory).packets;
    var s := Start(Joining(hop.maxBlocks, hop.start, hop.told), header);
    if FileOk(s) && |s.infos| > 0 && forall p :: p in packets ==> WellFormed(p) then Feed(s, packets) else s
  }

  /** The last peer of a path. */
  ghost function AtEndOf(hops: seq<Hop>, src: Source, clip: seq<seq<seq<u8>>>, header: seq<u8>): State
    requires IsClip(clip) && |hops| > 0 && forall i :: 0 <= i < |hops| ==> hops[i].start <= hops[i].last < |clip|
    decreases |hops|
  {
    var k := |hops| - 1;
    var count := PacketCount(clip, hops[k].start, hops[k].last);
    if k == 0 then Peered(hops[0], src, count, header)
    else Peered(hops[k], SourceOf(AtEndOf(hops[..k], src, clip, header)), count, header)
  }

  lemma PossibleLast(hops: seq<Hop>, first: nat, n: nat)
    requires |hops| > 0 && Possible(hops, first, n)
    ensures var k := |hops| - 1;
            && hops[k].maxBlocks > 0 && AlwaysClean(hops[k].memory)
            && hops[k].start <= hops[k].last < first + n && first <= hops[k].start
            && (k > 0 ==> Possible(hops[..k], first, n)
                          && hops[k - 1].start <= hops[k].start && hops[k].last < hops[k - 1].last)
    decreases |hops|
  {
    hide AlwaysClean;
    var k := |hops| - 1;
    if k > 0 {
      PossiblePrefix(hops, first, n, k);
      PossibleLast(hops[..k], first, n);
      assert hops[..k][k - 1] == hops[k - 1];
    }
  }

  lemma PossiblePrefix(hops: seq<Hop>, first: nat, n: nat, k: nat)
    requires k <= |hops| && Possible(hops, first, n)
    ensures Possible(hops[..k], first, n)
  {
    hide AlwaysClean;
  }

  lemma CleanHere(src: Source, ss: seq<Section>, memory: nat -> seq<u8>)
    requires AlwaysClean(memory) && Serves(src.file, src.headerBytes, ss)
    ensures CleanMemory(src, ss, memory)
  {
    hide Serves, CleanMemory;
  }

  /** End to end: after any number of hops, whatever the peers have read as their parents' time
      bases, the last one has exactly the clip's clusters on file, relative to the time of the
      first. Its own base register is that time if and only if it has read the base of what it
      was sent. */
  lemma {:induction false} PathDelivers(hops: seq<Hop>, src: Source, ss: seq<Section>, clip: seq<seq<seq<u8>>>,
                                        offset: u64, header: seq<u8>)
    requires IsClip(clip) && Carries(src, ss, clip, offset) && |header| < 0x1_0000
    requires |hops| > 0 && Possible(hops, src.firstClusterSeq, |ss|)
    requires forall i :: 0 <= i < |hops| ==> hops[i].start <= hops[i].last < |clip|
    ensures var hop, s := hops[|hops| - 1], AtEndOf(hops, src, clip, header);
            && HasWritten(s, header, clip, hop.start, hop.last, |BlocksOf(clip, hop.last)|)
            && GoodPayload(clip[hop.start])
            && (s.offset == Time(clip, hop.start) <==> hop.told == BaseSent(hops, offset, clip, |hops| - 1))
    decreases |hops|
  {
    hide IsClip, Carries, Possible, HasWritten, BlocksOf, SendMany, AlwaysClean, Feed, Serves, FileOk, WellFormed,
         Joining, Start, CleanMemory, Relayed, GoodPayload, Time;
    var k := |hops| - 1;
    var hop := hops[k];
    PossibleLast(hops, src.firstClusterSeq, |ss|);
    if k == 0 {
      CarriesServes(src, ss, clip, offset);
      CleanHere(src, ss, hop.memory);
      OneHop(src, ss, clip, offset, header, hop.maxBlocks, hop.start, hop.last, hop.told, hop.memory);
    } else {
      PathDelivers(hops[..k], src, ss, clip, offset, header);
      var parent := SourceOf(AtEndOf(hops[..k], src, clip, header));
      var a, b := hops[k - 1].start, hops[k - 1].last;
      ParentServes(AtEndOf(hops[..k], src, clip, header), header, clip, a, b);
      var relayed, base := Relayed(clip, a, b), Time(clip, a);
      CarriesServes(parent, relayed, clip, base);
      CleanHere(parent, relayed, hop.memory);
      OneHop(parent, relayed, clip, base, header, hop.maxBlocks, hop.start, hop.last, hop.told, hop.memory);
    }
  }

  lemma ParentServes(s: State, header: seq<u8>, clip: seq<seq<seq<u8>>>, first: nat, n: nat)
    requires IsClip(clip) && first < n < |clip| && HasWritten(s, header, clip, first, n, |BlocksOf(clip, n)|)
    ensures GoodPayload(clip[first]) && Carries(SourceOf(s), Relayed(clip, first, n), clip, Time(clip, first))
    ensures SourceOf(s).firstClusterSeq == first
  {
    PeerServes(s.(offset := Time(clip, first)), header, clip, first, n, |BlocksOf(clip, n)|);
    hide Carries, Holds, ShapeAt;
  }

  /** The base register of peer i's parent. */
  ghost function Register(hops: seq<Hop>, src: Source, offset: u64, clip: seq<seq<seq<u8>>>, header: seq<u8>,
                          i: nat): u64
    requires IsClip(clip) && i <= |hops| && forall k :: 0 <= k < |hops| ==> hops[k].start <= hops[k].last < |clip|
  {
    if i == 0 then offset else AtEndOf(hops[..i], src, clip, header).offset
  }

  /** What the peers read is what the messages carry of their parents' registers: nothing is
      known of what a base of 2^32 or more is read as. */
  ghost predicate TheyReadMessages(hops: seq<Hop>, src: Source, offset: u64, clip: seq<seq<seq<u8>>>, header: seq<u8>)
    requires IsClip(clip) && forall k :: 0 <= k < |hops| ==> hops[k].start <= hops[k].last < |clip|
  {
    forall i :: 0 <= i < |hops| ==>
      var r := Register(hops, src, offset, clip, header, i); r < TWO_32 ==> hops[i].told == Told(r)
  }

  /** The bases of what the first n peers are sent are below 2^31. */
  ghost predicate BasesFit(hops: seq<Hop>, offset: u64, clip: seq<seq<seq<u8>>>, n: nat)
    requires IsClip(clip) && n <= |hops| && forall k :: 0 <= k < |hops| ==> hops[k].start < |clip|
  {
    forall i :: 0 <= i < n ==> BaseSent(hops, offset, clip, i) < 0x8000_0000
  }

  /** The registers along a path: where all bases before were below 2^31, the last peer's is
      right if and only if the base of what it was sent is below 2^31 too. */
  lemma {:induction false} PathBases(hops: seq<Hop>, src: Source, ss: seq<Section>, clip: seq<seq<seq<u8>>>,
                                     offset: u64, header: seq<u8>)
    requires IsClip(clip) && Carries(src, ss, clip, offset) && |header| < 0x1_0000
    requires |hops| > 0 && Possible(hops, src.firstClusterSeq, |ss|)
    requires forall i :: 0 <= i < |hops| ==> hops[i].start <= hops[i].last < |clip|
    requires TheyReadMessages(hops, src, offset, clip, header)
    requires BasesFit(hops, offset, clip, |hops| - 1) && BaseSent(hops, offset, clip, |hops| - 1) < TWO_32
    ensures var k := |hops| - 1;
            && GoodPayload(clip[hops[k].start])
            && (AtEndOf(hops, src, clip, header).offset == Time(clip, hops[k].start)
                <==> BaseSent(hops, offset, clip, k) < 0x8000_0000)
    decreases |hops|
  {
    hide IsClip, Carries, Possible, HasWritten, BlocksOf, AtEndOf, GoodPayload, Time, Told;
    var k := |hops| - 1;
    PathDelivers(hops, src, ss, clip, offset, header);
    var base := BaseSent(hops, offset, clip, k);
    assert Register(hops, src, offset, clip, header, k) == base by {
      if k > 0 {
        PossibleLast(hops, src.firstClusterSeq, |ss|);
        ShorterPath(hops, src, offset, clip, header, k);
        PathBases(hops[..k], src, ss, clip, offset, header);
      }
    }
    ToldIs(base);
  }

  lemma ShorterPath(hops: seq<Hop>, src: Source, offset: u64, clip: seq<seq<seq<u8>>>, header: seq<u8>, k: nat)
    requires IsClip(clip) && 0 < k < |hops| && forall i :: 0 <= i < |hops| ==> hops[i].start <= hops[i].last < |clip|
    requires TheyReadMessages(hops, src, offset, clip, header) && BasesFit(hops, offset, clip, k)
    ensures TheyReadMessages(hops[..k], src, offset, clip, header) && BasesFit(hops[..k], offset, clip, k)
    ensures BaseSent(hops[..k], offset, clip, k - 1) == BaseSent(hops, offset, clip, k - 1)
  {
    hide IsClip, AtEndOf, GoodPayload, Time, Told;
    forall i | 0 <= i < k
      ensures BaseSent(hops[..k], offset, clip, i) == BaseSent(hops, offset, clip, i)
      ensures hops[..k][i] == hops[i] && Register(hops[..k], src, offset, clip, header, i)
                                         == Register(hops, src, offset, clip, header, i)
    {
      assert hops[..k][..i] == hops[..i];
    }
  }

  /** Two packet sequences with the same descriptors, sizes and bytes, except that y's first
      packet has another Timecode value than x's. */
  ghost predicate SameCluster(x: seq<seq<u8>>, y: seq<seq<u8>>, stamp: u64) {
    && |x| == |y| > 0
    && (forall j :: 0 <= j < |x| ==> SamePacket(x[j], y[j], j))
    && |x[0]| >= BLOCKINFO_BYTES
    && var data := x[0][BLOCKINFO_BYTES..];
       Retimable(data) && ChankAt(data).id == TIMECODE_ID && WithStamp(data, stamp) == y[0][BLOCKINFO_BYTES..]
  }

  predicate SamePacket(x: seq<u8>, y: seq<u8>, j: nat) {
    |x| == |y| >= BLOCKINFO_BYTES && x[..BLOCKINFO_BYTES] == y[..BLOCKINFO_BYTES] && (j > 0 ==> x == y)
  }

  /** Relay transparency: any two nodes that hold cluster n, whatever their time bases a and
      b, send it as the same packets; the Timecode in the first one tells the time relative
      to each node's own base. */
  lemma RelayTransparency(c: Section, a: u64, c': Section, b: u64, clip: seq<seq<seq<u8>>>, n: nat)
    requires IsClip(clip) && n < |clip| && Carried(c, clip, n, a) && Carried(c', clip, n, b)
    ensures IsPayload(c.es) && IsPayload(c'.es) && GoodPayload(clip[n]) && b <= Time(clip, n)
    ensures SameCluster(Packets(n, c.es), Packets(n, c'.es), Time(clip, n) - b)
  {
    hide IsClip, SameCluster, GoodPayload, Time, Shown, Packets, IsPayload;
    ClipLength(clip);
    CarriedIs(c, clip, n, a);
    CarriedIs(c', clip, n, b);
    SamePackets(clip, n, a, b);
    GoodIsPayload(c.es);
    GoodIsPayload(c'.es);
  }

  lemma CarriedIs(c: Section, clip: seq<seq<seq<u8>>>, n: nat, offset: u64)
    requires IsClip(clip) && n < |clip| && Carried(c, clip, n, offset)
    ensures GoodPayload(clip[n]) && offset <= Time(clip, n) && c.es == Shown(clip, n, offset)
  {
  }

  lemma SamePackets(clip: seq<seq<seq<u8>>>, n: nat, a: u64, b: u64)
    requires IsClip(clip) && n < |clip| && a <= Time(clip, n) && b <= Time(clip, n)
    ensures GoodPayload(Shown(clip, n, a)) && GoodPayload(Shown(clip, n, b))
    ensures SameCluster(Packets(n, Shown(clip, n, a)), Packets(n, Shown(clip, n, b)), Time(clip, n) - b)
  {
    hide Shown, IsClip, BlocksOf, Encode, Packets, Retimable, ChankAt, WithStamp, Stamp, Flat, IsTimecode, IsPayload;
    ClipLength(clip);
    ShownIsGood(clip, n, a);
    ShownIsGood(clip, n, b);
    PacketsAreTheClips(clip, n, a);
    PacketsAreTheClips(clip, n, b);
    var x := Packets(n, Shown(clip, n, a));
    var y := Packets(n, Shown(clip, n, b));
    hide GoodPayload, Time;
    forall j | 0 <= j < |x| ensures SamePacket(x[j], y[j], j) {
      PacketParts(clip, n, a, j);
      PacketParts(clip, n, b, j);
      if j > 0 {
        LaterPacket(clip, n, a, b, j);
      }
    }
    PacketParts(clip, n, a, 0);
    PacketParts(clip, n, b, 0);
    FirstPacket(clip, n, a, b);
  }

  lemma PacketParts(clip: seq<seq<seq<u8>>>, n: nat, offset: u64, j: nat)
    requires IsClip(clip) && n < |clip| && offset <= Time(clip, n) && j < |BlocksOf(clip, n)|
    ensures var p := PacketOf(clip, n, offset, j);
            var d := Encode(BlocksOf(clip, n)[j]);
            && p == d + PacketBytes(clip, n, offset, j)
            && p[..BLOCKINFO_BYTES] == d && p[BLOCKINFO_BYTES..] == PacketBytes(clip, n, offset, j)
  {
    hide IsClip, BlocksOf, Encode, Shown, Flat, Time;
  }
}
