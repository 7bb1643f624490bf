/** Runs of AssembleBlock: what every packet keeps true of the peer's file. */
module Assembly {
  import opened Words
  import opened Ebml
  import opened Blocks
  import opened Timecodes
  import opened Files
  import opened Peers
  import opened Disk

  /** What a peer's file holds. */
  datatype Shape = Shape(closed: seq<seq<u8>>, open: seq<u8>)

  ghost predicate Holds(s: State, header: seq<u8>, shape: Shape) {
    OnDisk(s, header, shape.closed, shape.open)
  }

  /** The bytes an accepted packet adds to the file. */
  function Written(s: State, data: seq<u8>): seq<u8>
    requires FileOk(s) && WellFormed(data) && IsBlock(data)
  {
    var info := Decode(data);
    var payload := data[BLOCKINFO_BYTES..];
    (if info.number == FIRST_BLOCK_SEQ then RetimedData(Retime(Prepare(s, info), payload), payload)
     else payload)[..info.bytes]
  }

  /** The file after an accepted packet: a packet of another cluster than the last one
      closes the open cluster. */
  function Grown(s: State, data: seq<u8>, shape: Shape): Shape
    requires FileOk(s) && WellFormed(data) && IsBlock(data)
  {
    if s.prevBlock.clusterSeq == Decode(data).clusterSeq then shape.(open := shape.open + Written(s, data))
    else Shape(shape.closed + [shape.open], Written(s, data))
  }

  lemma HoldsOtherBlock(s: State, info: BlockInfo, header: seq<u8>, shape: Shape)
    requires Holds(s, header, shape)
    ensures Holds(s.(block := info), header, shape)
  {
  }

  lemma FlushIfFullHolds(s: State, header: seq<u8>, shape: Shape)
    requires Holds(s, header, shape) && |s.file| < TWO_56
    ensures FileOk(s)
    ensures var w := FlushIfFull(s);
            && Holds(w, header, shape) && w.blockNum < |w.infos| == |s.infos|
            && w == s.(cluster := w.cluster, file := w.file, writePos := w.writePos,
                       blockNum := w.blockNum, infos := w.infos)
            && w.cluster.number == s.cluster.number && |w.file| == |s.file|
  {
    OnDiskFileOk(s, header, shape.closed, shape.open);
    hide Layout, SumBytes;
    if s.blockNum == |s.infos| {
      FlushOnDisk(s, header, shape.closed, shape.open);
      hide Flush;
      assert NoBlocks(|s.infos|)[..0] == [] == s.infos[..0];
    }
  }

  lemma PrepareHolds(s: State, info: BlockInfo, header: seq<u8>, shape: Shape)
    requires Holds(s, header, shape) && |s.file| < TWO_56
    ensures FileOk(s)
    ensures var w := Prepare(s, info);
            && Holds(w, header, shape) && w.blockNum < |w.infos| && |w.file| == |s.file|
            && w.block == info && w.prevBlock == s.prevBlock && w.prevCluster == s.prevCluster
            && w.latest == s.latest && w.running == s.running && w.offset == s.offset
            && w.nodeOffset == s.nodeOffset && w.hasOffset == s.hasOffset && !w.isFirstCluster
            && w.firstClusterSeq == (if s.isFirstCluster then info.clusterSeq else s.firstClusterSeq)
            && w.cluster.number == s.cluster.number && |w.infos| == |s.infos|
  {
    OnDiskFileOk(s, header, shape.closed, shape.open);
    var s1 := if s.isFirstCluster then s.(firstClusterSeq := info.clusterSeq, isFirstCluster := false) else s;
    FlushIfFullHolds(s1, header, shape);
    hide OnDisk, FlushIfFull;
    HoldsOtherBlock(FlushIfFull(s1), info, header, shape);
  }

  lemma RetimeHolds(s: State, data: seq<u8>, header: seq<u8>, shape: Shape)
    requires Retimable(data) && Holds(s, header, shape)
    ensures Holds(Retime(s, data), header, shape)
  {
    hide Layout, ChankAt, HasHeader, PacketStamp;
  }

  lemma StoreHolds(s: State, info: BlockInfo, payload: seq<u8>, header: seq<u8>, shape: Shape)
    requires Holds(s, header, shape) && s.blockNum < |s.infos| && info.bytes <= |payload|
    requires |s.file| < TWO_56 && s.block == info
    ensures FileOk(s)
    ensures var bytes := payload[..info.bytes];
            var w := Store(s, info, payload);
            Holds(w, header,
                  if s.prevBlock.clusterSeq == info.clusterSeq then shape.(open := shape.open + bytes)
                  else Shape(shape.closed + [shape.open], bytes))
  {
    hide Layout, ClusterHeader;
    OnDiskFileOk(s, header, shape.closed, shape.open);
    var bytes := payload[..info.bytes];
    var l := s.(latest := info.number);
    assert OnDisk(l, header, shape.closed, shape.open);
    if s.prevBlock.clusterSeq == info.clusterSeq {
      AppendOnDisk(l, header, shape.closed, shape.open, info, bytes);
      hide Export, OnDisk;
    } else {
      RolloverOnDisk(l, header, shape.closed, shape.open);
      var c := Flush(l, l.blockNum);
      var w := OpenCluster(c.(prevCluster := c.cluster, cluster := NO_CLUSTER)).(blockNum := 0);
      AppendOnDisk(w, header, shape.closed + [shape.open], [], info, bytes);
      hide Export, Flush, OpenCluster, OnDisk;
      assert [] + bytes == bytes;
    }
  }

  /** An accepted block leaves the layout intact and adds exactly the bytes written. */
  lemma AcceptHolds(s: State, data: seq<u8>, header: seq<u8>, shape: Shape)
    requires Holds(s, header, shape) && |s.file| < TWO_56 && s.running
    requires WellFormed(data) && IsBlock(data)
    ensures FileOk(s)
    ensures var w := Accept(s, data);
            Holds(w, header, if w.running then Grown(s, data, shape) else shape)
  {
    hide OnDisk, Store, Prepare, ChankAt, HasHeader, FileOk, PacketStamp, WithStamp, Decode;
    var info := Decode(data);
    var payload := data[BLOCKINFO_BYTES..];
    PrepareHolds(s, info, header, shape);
    var w := Prepare(s, info);
    StoreRuns(w, info, payload);
    if info.number != FIRST_BLOCK_SEQ {
      StoreHolds(w, info, payload, header, shape);
    } else {
      RetimeHolds(w, payload, header, shape);
      var r := Retime(w, payload);
      if r.running {
        StoreHolds(r, info, RetimedData(r, payload), header, shape);
        StoreRuns(r, info, RetimedData(r, payload));
      }
    }
  }

  lemma StoreRuns(s: State, info: BlockInfo, payload: seq<u8>)
    requires FileOk(s) && |s.infos| > 0 && s.blockNum < |s.infos| && info.bytes <= |payload|
    ensures Store(s, info, payload).running == s.running
  {
  }

  /** A packet ends the process exactly if it is the END packet, or the first block of a cluster
      that is not old and does not start with a Timecode; such a block leaves the file as long
      as it was, and the cluster open that was. */
  lemma WhenItStops(s: State, data: seq<u8>)
    requires FileOk(s) && |s.infos| > 0 && s.running && WellFormed(data)
    ensures var w := Assemble(s, data);
            var untimed := IsBlock(data) && !IsOld(s, Decode(data)) && Decode(data).number == 1
                           && ChankAt(data[BLOCKINFO_BYTES..]).id != 0xe7;
            && (!w.running <==> data[..BLOCKINFO_BYTES] == BLOCKINFO_END || untimed)
            && (untimed ==> w.fpos == s.fpos && w.cluster.pos == s.cluster.pos && w.prevCluster == s.prevCluster)
  {
    hide Flush, Insert, ChankAt, HasHeader, Decode, PacketStamp, WithStamp, IsOld, FileOk, Store;
    MarkersDiffer();
    if IsBlock(data) {
      var info := Decode(data);
      PrepareStays(s, info);
      var w := Prepare(s, info);
      if info.number != FIRST_BLOCK_SEQ {
        StoreRuns(w, info, data[BLOCKINFO_BYTES..]);
      } else {
        var payload := data[BLOCKINFO_BYTES..];
        if Retime(w, payload).running {
          RetimeFileOk(w, payload);
          StoreRuns(Retime(w, payload), info, RetimedData(Retime(w, payload), payload));
        }
      }
    }
  }

  lemma MarkersDiffer()
    ensures BLOCKINFO_START != BLOCKINFO_END
  {
    assert BLOCKINFO_START[0] != BLOCKINFO_END[0];
  }

  lemma PrepareStays(s: State, info: BlockInfo)
    requires FileOk(s) && |s.infos| > 0
    ensures var w := Prepare(s, info);
            && w.running == s.running && w.fpos == s.fpos && w.cluster.pos == s.cluster.pos
            && w.prevCluster == s.prevCluster && FileOk(w) && w.blockNum < |w.infos|
  {
  }

  lemma RetimeFileOk(s: State, data: seq<u8>)
    requires Retimable(data) && FileOk(s)
    ensures FileOk(Retime(s, data))
  {
    hide PacketStamp;
  }

  /** The START packet turns a joining peer's empty file into a header and an open cluster. */
  lemma StartHolds(maxBlocks: nat, clusterSeq: u16, nodeOffset: u64, header: seq<u8>)
    requires maxBlocks > 0
    ensures Holds(Start(Joining(maxBlocks, clusterSeq, nodeOffset), header), header, Shape([], []))
  {
    var s := Start(Joining(maxBlocks, clusterSeq, nodeOffset), header);
    assert s.file == header + FOOTER;
    assert s.file[..|header|] == header;
    assert s.file[|header|..|header| + CLUSTER_HEADER_BYTES] == FOOTER;
    assert NoBlocks(maxBlocks)[..0] == [];
    assert header + Region(Closed([])) == header;
  }

  /** A run of packets; after exit nothing more is received. */
  function Feed(s: State, packets: seq<seq<u8>>): State
    requires FileOk(s) && |s.infos| > 0
    requires forall p :: p in packets ==> WellFormed(p)
    decreases |packets|
  {
    if packets == [] || !s.running then s
    else
      var w := Assemble(s, packets[0]);
      if FileOk(w) && |w.infos| > 0 then Feed(w, packets[1..]) else w
  }

  function TotalBytes(packets: seq<seq<u8>>): nat {
    if packets == [] then 0 else |packets[0]| + TotalBytes(packets[1..])
  }

  /** Sizes agree with content in every reachable state: whatever well-formed packets follow
      the START packet, and whatever MAX_BLOCKS_NUM is, a peer that is still running has a
      file that is the header, closed clusters each under a header that tells its payload's
      length, and one open cluster whose counted and pending bytes are what is written; a
      peer that received END has only closed clusters. */
  lemma {:induction false} FeedHolds(s: State, packets: seq<seq<u8>>, header: seq<u8>, shape: Shape)
    returns (shape': Shape)
    requires Holds(s, header, shape) && s.running
    requires forall p :: p in packets ==> WellFormed(p) && p[..BLOCKINFO_BYTES] != BLOCKINFO_START
    requires |s.file| + TotalBytes(packets) < TWO_56
    ensures FileOk(s)
    ensures var w := Feed(s, packets);
            if w.running then Holds(w, header, shape')
            else w.file == header + Region(Closed(shape'.closed)) + FOOTER || Holds(w, header, shape')
    ensures shape.closed <= shape'.closed
    decreases |packets|
  {
    OnDiskFileOk(s, header, shape.closed, shape.open);
    hide OnDisk, Accept, End, IsOld, Written, Region, Closed;
    if packets == [] {
      shape' := shape;
    } else {
      var p := packets[0];
      assert WellFormed(p);
      var w := Assemble(s, p);
      var mid := shape;
      if p[..BLOCKINFO_BYTES] == BLOCKINFO_END {
        EndOnDisk(s, header, shape.closed, shape.open);
        mid := Shape(shape.closed + [shape.open], []);
      } else if !IsOld(s, Decode(p)) {
        AcceptHolds(s, p, header, shape);
        mid := if w.running then Grown(s, p, shape) else shape;
        GrownSize(s, p, header, shape);
      }
      assert shape.closed <= mid.closed;
      if w.running {
        OnDiskFileOk(w, header, mid.closed, mid.open);
        HoldsRoom(w, header, mid);
        shape' := FeedHolds(w, packets[1..], header, mid);
        assert Feed(s, packets) == Feed(w, packets[1..]);
      } else {
        shape' := mid;
        FeedStops(s, packets);
      }
    }
  }

  lemma HoldsRoom(s: State, header: seq<u8>, shape: Shape)
    requires Holds(s, header, shape)
    ensures |s.infos| > 0
  {
  }

  lemma FeedStops(s: State, packets: seq<seq<u8>>)
    requires FileOk(s) && |s.infos| > 0 && s.running && packets != []
    requires forall p :: p in packets ==> WellFormed(p)
    requires !Assemble(s, packets[0]).running
    ensures Feed(s, packets) == Assemble(s, packets[0])
  {
    hide Assemble;
  }

  /** A packet, eighteen bytes of descriptor included, covers what it adds to the file. */
  lemma GrownSize(s: State, data: seq<u8>, header: seq<u8>, shape: Shape)
    requires FileOk(s) && Holds(s, header, shape) && WellFormed(data) && IsBlock(data)
    requires Holds(Accept(s, data), header, Grown(s, data, shape)) || !Accept(s, data).running
    ensures Accept(s, data).running ==> |Accept(s, data).file| <= |s.file| + |data|
  {
    ClosedSnoc(shape.closed, shape.open);
  }
}
