/** A peer receiving a live stream: the state after every packet, in closed form. */
module Reception {
  import opened Words
  import opened Ebml
  import opened Blocks
  import opened Clusters
  import opened Timecodes
  import opened Partition
  import opened Clips
  import opened Files
  import opened Peers
  import opened Disk
  import opened Assembly

  /** Payloads first..n as a node that joined at first stores them. */
  ghost function StoredPayloads(clip: seq<seq<seq<u8>>>, first: nat, n: nat): (ps: seq<seq<u8>>)
    requires IsClip(clip) && first <= n <= |clip|
    ensures |ps| == n - first
  {
    if n == first then []
    else
      LaterThan(clip, first, n - 1);
      StoredPayloads(clip, first, n - 1) + [Flat(Shown(clip, n - 1, Time(clip, first)))]
  }

  lemma LaterThan(clip: seq<seq<seq<u8>>>, m: nat, n: nat)
    requires IsClip(clip) && m <= n < |clip|
    ensures GoodPayload(clip[m]) && GoodPayload(clip[n]) && Time(clip, m) <= Time(clip, n)
  {
  }

  /** The file of a node that joined at cluster first and has received j blocks of cluster n. */
  ghost function ShapeAt(clip: seq<seq<seq<u8>>>, first: nat, n: nat, j: nat): Shape
    requires IsClip(clip) && first <= n < |clip| && j <= |BlocksOf(clip, n)|
  {
    LaterThan(clip, first, n);
    ShownIsGood(clip, n, Time(clip, first));
    BlocksOfShape(clip, n);
    TotalSplit(BlocksOf(clip, n), j);
    Shape(StoredPayloads(clip, first, n), Flat(Shown(clip, n, Time(clip, first)))[..Total(BlocksOf(clip, n)[..j])])
  }

  /** The state of a peer that has received j >= 1 blocks of cluster n, having joined at
      first. */
  ghost predicate Receiving(s: State, header: seq<u8>, clip: seq<seq<seq<u8>>>, first: nat, n: nat, j: nat)
    requires IsClip(clip)
  {
    && first <= n < |clip| && 1 <= j <= |BlocksOf(clip, n)|
    && s.running && s.hasOffset && GoodPayload(clip[first]) && s.offset == Time(clip, first)
    && s.prevBlock.clusterSeq == n && s.cluster.number == n
    && s.prevCluster.number == (if n > first then n - 1 else 0)
    && s.latest == j
    && !s.isFirstCluster && s.firstClusterSeq == first
    && Holds(s, header, ShapeAt(clip, first, n, j))
  }

  /** The state between the START packet and the first block. */
  ghost predicate Waiting(s: State, header: seq<u8>, first: nat) {
    && s.running && !s.hasOffset
    && s.prevBlock.clusterSeq == first && s.cluster.number == first && s.prevCluster.number == 0
    && s.latest == 0 && s.isFirstCluster
    && Holds(s, header, Shape([], []))
  }

  lemma JoinedIsWaiting(maxBlocks: nat, first: u16, nodeOffset: u64, header: seq<u8>)
    requires maxBlocks > 0
    ensures var s := Start(Joining(maxBlocks, first, nodeOffset), header);
            Waiting(s, header, first) && s.nodeOffset == nodeOffset
  {
    StartHolds(maxBlocks, first, nodeOffset, header);
    hide OnDisk;
  }

  /** A packet of the stream is well formed, is no marker, and decodes to its block. */
  lemma PacketShape(clip: seq<seq<seq<u8>>>, n: nat, offset: u64, j: nat)
    requires IsClip(clip) && n < |clip| && offset <= Time(clip, n) && j < |BlocksOf(clip, n)|
    ensures var p := PacketOf(clip, n, offset, j);
            && |p| >= BLOCKINFO_BYTES && IsBlock(p) && WellFormed(p)
            && Decode(p) == BlocksOf(clip, n)[j]
            && p[BLOCKINFO_BYTES..] == PacketBytes(clip, n, offset, j)
            && (j == 0 ==> Retimable(p[BLOCKINFO_BYTES..])
                           && ChankAt(p[BLOCKINFO_BYTES..]).id == TIMECODE_ID
                           && PacketStamp(p[BLOCKINFO_BYTES..]) + offset == Time(clip, n))
  {
    var p := PacketOf(clip, n, offset, j);
    var b := BlocksOf(clip, n)[j];
    var bytes := PacketBytes(clip, n, offset, j);
    BlocksOfShape(clip, n);
    hide Flat, Shown, IsClip, GoodPayload, Time, Encode, Decode;
    assert p == Encode(b) + bytes;
    assert p[..BLOCKINFO_BYTES] == Encode(b) && p[BLOCKINFO_BYTES..] == bytes;
    DecodeEncode(b, bytes);
    NoSentinelCollision(b);
    if j == 0 {
      FirstPacket(clip, n, offset, 0);
    }
  }

  ghost function PacketBytes(clip: seq<seq<seq<u8>>>, n: nat, offset: u64, j: nat): (bytes: seq<u8>)
    requires IsClip(clip) && n < |clip| && offset <= Time(clip, n) && j < |BlocksOf(clip, n)|
    ensures |bytes| == BlocksOf(clip, n)[j].bytes
  {
    var bs := BlocksOf(clip, n);
    BlocksOfShape(clip, n);
    TotalSplit(bs, j);
    TotalSplit(bs[j..], 1);
    ShownIsGood(clip, n, offset);
    Flat(Shown(clip, n, offset))[Total(bs[..j])..Total(bs[..j]) + bs[j].bytes]
  }

  /** The first packet's payload starts with the whole Timecode; restamping it for time base
      to makes it the packet payload a node with that base would store. */
  lemma FirstPacket(clip: seq<seq<seq<u8>>>, n: nat, from: u64, to: u64)
    requires IsClip(clip) && n < |clip| && from <= Time(clip, n) && to <= Time(clip, n)
    ensures var data := PacketBytes(clip, n, from, 0);
            && Retimable(data) && ChankAt(data).id == TIMECODE_ID
            && PacketStamp(data) + from == Time(clip, n)
            && WithStamp(data, Time(clip, n) - to) == PacketBytes(clip, n, to, 0)
  {
    hide Flat, Shown, IsClip, GoodPayload, Restamp, IsTimecode, Stamp, BlocksOf, Wellmade, WithStamp, PacketStamp,
         Retimable, Restamped;
    LaterThan(clip, n, n);
    var x, y := Shown(clip, n, from), Shown(clip, n, to);
    var e := x[0];
    var k := BlocksOf(clip, n)[0].bytes;
    BlocksOfShape(clip, n);
    ShownIsGood(clip, n, from);
    ShownIsGood(clip, n, to);
    ShownDiffer(clip, n, from, to);
    ShownDiffer(clip, n, to, from);
    ShownTwice(clip, n, from, to);
    FirstBytes(clip, n, from);
    FirstBytes(clip, n, to);
    PrefixGrows(Flat(x), |e|, k);
    PrefixGrows(Flat(y), |e|, k);
    SameSlice(Flat(x), Flat(y), |e|, |e|, k);
    PacketTimecode(e, Flat(x)[|e|..k], Time(clip, n) - to);
  }

  lemma FirstBytes(clip: seq<seq<seq<u8>>>, n: nat, offset: u64)
    requires IsClip(clip) && n < |clip| && offset <= Time(clip, n)
    ensures |BlocksOf(clip, n)| > 0 && BlocksOf(clip, n)[0].bytes <= |Flat(Shown(clip, n, offset))|
    ensures PacketBytes(clip, n, offset, 0) == Flat(Shown(clip, n, offset))[..BlocksOf(clip, n)[0].bytes]
  {
    hide Flat, Shown, IsClip, GoodPayload, BlocksOf, Wellmade;
    BlocksOfShape(clip, n);
    OpenGrows(clip, n, offset, 0);
    var bs := BlocksOf(clip, n);
    assert bs[..0] == [] && bs[..1] == [bs[0]];
    ContiguousOne(bs[0]);
  }

  /** Later packets are the same whatever the time base. */
  lemma LaterPacket(clip: seq<seq<seq<u8>>>, n: nat, a: u64, b: u64, j: nat)
    requires IsClip(clip) && n < |clip| && a <= Time(clip, n) && b <= Time(clip, n)
    requires 0 < j < |BlocksOf(clip, n)|
    ensures PacketBytes(clip, n, a, j) == PacketBytes(clip, n, b, j)
  {
    hide Flat, Shown, IsClip, GoodPayload, BlocksOf, Wellmade;
    var x, y := Shown(clip, n, a), Shown(clip, n, b);
    var bs := BlocksOf(clip, n);
    BlocksOfShape(clip, n);
    ShownIsGood(clip, n, a);
    ShownDiffer(clip, n, a, b);
    TotalSplit(bs[..j], 1);
    TotalSplit(bs, j);
    TotalSplit(bs[j..], 1);
    assert bs[..j][..1] == [bs[0]] && bs[j..][..1] == [bs[j]];
    ContiguousOne(bs[0]);
    ContiguousOne(bs[j]);
    hide Flat, Shown, IsClip, GoodPayload, BlocksOf, Wellmade, Total;
    SameSlice(Flat(x), Flat(y), |x[0]|, Total(bs[..j]), Total(bs[..j]) + bs[j].bytes);
  }

  /** The bytes before and in block j. */
  lemma OpenGrows(clip: seq<seq<seq<u8>>>, n: nat, offset: u64, j: nat)
    requires IsClip(clip) && n < |clip| && offset <= Time(clip, n) && j < |BlocksOf(clip, n)|
    ensures var bs := BlocksOf(clip, n);
            var p := Flat(Shown(clip, n, offset));
            && Total(bs[..j + 1]) <= |p|
            && Total(bs[..j]) <= |p|
            && p[..Total(bs[..j])] + PacketBytes(clip, n, offset, j) == p[..Total(bs[..j + 1])]
  {
    hide Flat, Shown, IsClip, GoodPayload, BlocksOf, Wellmade;
    var bs := BlocksOf(clip, n);
    BlocksOfShape(clip, n);
    ShownIsGood(clip, n, offset);
    TotalSplit(bs, j + 1);
    TotalSplit(bs[..j + 1], j);
    assert bs[..j + 1][..j] == bs[..j] && bs[..j + 1][j..] == [bs[j]];
    ContiguousOne(bs[j]);
    hide Total;
    PrefixGrows(Flat(Shown(clip, n, offset)), Total(bs[..j]), Total(bs[..j + 1]));
  }

  /** What an accepted block does to the fields of a state other than the file. */
  ghost predicate Stepped(s: State, w: State, info: BlockInfo) {
    && w.running && w.prevBlock.clusterSeq == info.clusterSeq && w.latest == info.number
    && !w.isFirstCluster && |w.infos| == |s.infos| && w.nodeOffset == s.nodeOffset
    && w.firstClusterSeq == (if s.isFirstCluster then info.clusterSeq else s.firstClusterSeq)
    && (if s.prevBlock.clusterSeq == info.clusterSeq then
          w.cluster.number == s.cluster.number && w.prevCluster.number == s.prevCluster.number
        else
          w.cluster.number == info.clusterSeq && w.prevCluster.number == s.cluster.number)
  }

  lemma StoreFields(s: State, info: BlockInfo, payload: seq<u8>)
    requires FileOk(s) && |s.infos| > 0 && s.blockNum < |s.infos| && info.bytes <= |payload| && s.block == info
    requires !s.isFirstCluster && s.running
    ensures Stepped(s, Store(s, info, payload), info)
    ensures var w := Store(s, info, payload); w.hasOffset == s.hasOffset && w.offset == s.offset
  {
    hide Overwrite, SumBytes, ToBE;
  }

  lemma AcceptFields(s: State, data: seq<u8>, header: seq<u8>, shape: Shape)
    requires Holds(s, header, shape) && |s.file| < TWO_56 && s.running
    requires WellFormed(data) && IsBlock(data)
    requires var info, payload := Decode(data), data[BLOCKINFO_BYTES..];
             info.number == FIRST_BLOCK_SEQ ==> ChankAt(payload).id == TIMECODE_ID
    ensures FileOk(s) && Stepped(s, Accept(s, data), Decode(data))
    ensures var info, payload, w := Decode(data), data[BLOCKINFO_BYTES..], Accept(s, data);
            if info.number == FIRST_BLOCK_SEQ && !s.hasOffset then
              w.hasOffset && w.offset == U64(PacketStamp(payload) + s.nodeOffset)
            else w.hasOffset == s.hasOffset && w.offset == s.offset
  {
    hide OnDisk, Store, Prepare, ChankAt, HasHeader, FileOk, PacketStamp, WithStamp, Decode, Retimed, RetimedData,
         Retimable, WellFormed, IsBlock;
    WellFormedParts(data);
    var info := Decode(data);
    var payload := data[BLOCKINFO_BYTES..];
    PrepareHolds(s, info, header, shape);
    var w := Prepare(s, info);
    PreparedFileOk(w, header, shape);
    if info.number != FIRST_BLOCK_SEQ {
      StoreFields(w, info, payload);
    } else {
      var r := Retime(w, payload);
      RetimedFileOk(w, payload);
      StoreFields(r, info, RetimedData(r, payload));
    }
  }

  lemma WellFormedParts(p: seq<u8>)
    requires WellFormed(p) && IsBlock(p)
    ensures |p| >= BLOCKINFO_BYTES && BLOCKINFO_BYTES + Decode(p).bytes <= |p|
    ensures Decode(p).number == FIRST_BLOCK_SEQ ==> Retimable(p[BLOCKINFO_BYTES..])
  {
    hide Retimable, Decode;
  }

  lemma PreparedFileOk(s: State, header: seq<u8>, shape: Shape)
    requires Holds(s, header, shape)
    ensures FileOk(s) && |s.infos| > 0
  {
    OnDiskFileOk(s, header, shape.closed, shape.open);
  }

  lemma RetimedFileOk(s: State, data: seq<u8>)
    requires Retimable(data) && FileOk(s)
    ensures FileOk(Retime(s, data)) && Retime(s, data).infos == s.infos && Retime(s, data).blockNum == s.blockNum
    ensures Retime(s, data).block == s.block
  {
    hide ChankAt, HasHeader, PacketStamp;
  }

  /** The bytes an accepted stream packet adds are the ones shown at the node's own time
      base. */
  lemma WrittenIsShown(s: State, clip: seq<seq<seq<u8>>>, first: nat, n: nat, j: nat, header: seq<u8>, shape: Shape)
    requires Holds(s, header, shape) && |s.file| < TWO_56 && s.running
    requires IsClip(clip) && first <= n < |clip| && j < |BlocksOf(clip, n)|
    requires GoodPayload(clip[n]) && GoodPayload(clip[first])
    requires s.nodeOffset <= Time(clip, n) && Time(clip, first) <= Time(clip, n)
    requires if s.hasOffset then s.offset == Time(clip, first) else n == first && j == 0
    ensures FileOk(s)
    ensures var p := PacketOf(clip, n, s.nodeOffset, j);
            && WellFormed(p) && IsBlock(p)
            && Written(s, p) == PacketBytes(clip, n, Time(clip, first), j)
  {
    hide OnDisk, FileOk, Time, IsClip, GoodPayload, BlocksOf, Wellmade, PacketOf, Written, WellFormed, IsBlock,
         Retimable, WithStamp, PacketStamp, Retimed, Decode, ChankAt;
    var p := PacketOf(clip, n, s.nodeOffset, j);
    PreparedFileOk(s, header, shape);
    PacketShape(clip, n, s.nodeOffset, j);
    BlocksOfShape(clip, n);
    WrittenCases(s, p, header, shape);
    if j == 0 {
      FirstPacket(clip, n, s.nodeOffset, Time(clip, first));
      WholeStamp(PacketBytes(clip, n, s.nodeOffset, 0), s.nodeOffset, Time(clip, first));
    } else {
      LaterPacket(clip, n, s.nodeOffset, Time(clip, first), j);
    }
  }

  lemma WholeStamp(data: seq<u8>, nodeOffset: u64, offset: u64)
    requires Retimable(data) && ChankAt(data).id == TIMECODE_ID
    requires offset <= PacketStamp(data) + nodeOffset < TWO_64
    ensures Retimed(PacketStamp(data), nodeOffset, offset) == PacketStamp(data) + nodeOffset - offset
    ensures U64(PacketStamp(data) + nodeOffset) == PacketStamp(data) + nodeOffset
    ensures |WithStamp(data, PacketStamp(data) + nodeOffset - offset)| == |data|
  {
    hide ChankAt, HasHeader, PacketStamp, WithStamp;
  }

  /** What an accepted packet writes, by cases. */
  lemma WrittenCases(s: State, p: seq<u8>, header: seq<u8>, shape: Shape)
    requires Holds(s, header, shape) && |s.file| < TWO_56
    requires WellFormed(p) && IsBlock(p)
    ensures FileOk(s)
    ensures var info, data := Decode(p), p[BLOCKINFO_BYTES..];
            && info.bytes <= |data|
            && if info.number == FIRST_BLOCK_SEQ then
                 Retimable(data) &&
                 (ChankAt(data).id == TIMECODE_ID ==>
                    var offset := if s.hasOffset then s.offset else U64(PacketStamp(data) + s.nodeOffset);
                    Written(s, p) == WithStamp(data, Retimed(PacketStamp(data), s.nodeOffset, offset))[..info.bytes])
               else Written(s, p) == data[..info.bytes]
  {
    hide OnDisk, Prepare, ChankAt, HasHeader, FileOk, PacketStamp, WithStamp, Decode, Retimed, Retimable, WellFormed;
    WellFormedParts(p);
    PreparedFileOk(s, header, shape);
    PrepareHolds(s, Decode(p), header, shape);
  }
}
