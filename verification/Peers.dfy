/** A receiving peer: AssembleBlock and the file it writes, as functions of the peer's state
    and as the methods that update it.

    The file is a byte string with one position, shared by reading and writing.
  */
module Peers {
  import opened Words
  import opened Ebml
  import opened Blocks
  import opened Segmentation
  import opened Timecodes
  import opened Files

  /** The globals AssembleBlock works on. infos is CURRENT_BLOCKINFO, whose length is
      MAX_BLOCKS_NUM; blockNum is CURRENT_BLOCK_NUM; running is false after exit. */
  datatype State = State(
    file: seq<u8>, fpos: nat, writePos: nat, headerBytes: nat,
    cluster: Cluster, prevCluster: Cluster, block: BlockInfo, prevBlock: BlockInfo,
    infos: seq<BlockInfo>, blockNum: nat, latest: u32,
    isFirstCluster: bool, firstClusterSeq: u32,
    offset: u64, nodeOffset: u64, hasOffset: bool, running: bool)

  function Export(s: State, bytes: seq<u8>): State
    requires s.fpos <= |s.file|
  {
    s.(file := Overwrite(s.file, s.fpos, bytes), fpos := s.fpos + |bytes|)
  }

  function NoBlocks(n: nat): (s: seq<BlockInfo>)
    ensures |s| == n
  {
    seq(n, _ => NO_BLOCK)
  }

  function SumBytes(infos: seq<BlockInfo>): nat {
    if infos == [] then 0 else SumBytes(infos[..|infos| - 1]) + infos[|infos| - 1].bytes
  }

  /** Where the seven size bytes of the open cluster are. */
  function SizeField(s: State): nat {
    s.cluster.pos + s.cluster.idBytes + 1
  }

  /** The place every operation on the file needs. */
  predicate FileOk(s: State) {
    && s.fpos <= |s.file|
    && SizeField(s) <= |s.file|
    && s.blockNum <= |s.infos|
  }

  /** UpdateClusterToWebM: the pending bytes are added to the open cluster and its size
      field is patched. The position ends where it was. */
  function Flush(s: State, count: nat): (w: State)
    requires FileOk(s) && count <= |s.infos|
    ensures w.fpos == s.fpos <= |w.file|
  {
    var n := SumBytes(s.infos[..count]);
    var dataBytes := U64(s.cluster.dataBytes + n);
    s.(cluster := s.cluster.(dataBytes := dataBytes, chankBytes := U64(s.cluster.chankBytes + n)),
       file := Overwrite(s.file, SizeField(s), ToBE(dataBytes, 7)),
       writePos := s.fpos)
  }

  /** RenewClusterForWrite. */
  function OpenCluster(s: State): State
    requires s.fpos <= |s.file|
  {
    Export(s.(cluster := Cluster(s.writePos, s.block.clusterSeq, CLUSTER_ID_BYTES, 0, CLUSTER_HEADER_BYTES)), FOOTER)
  }

  /** IsOldBlockSeq. */
  predicate IsOld(s: State, info: BlockInfo) {
    || info.clusterSeq < s.prevCluster.number
    || (info.clusterSeq == s.prevCluster.number && info.number <= s.latest)
  }

  /** The block start message: the WebM header, and the first cluster opens behind it. */
  function Start(s: State, header: seq<u8>): State
    requires s.fpos <= |s.file|
  {
    var w := Export(s.(headerBytes := |header|), header);
    OpenCluster(w.(writePos := w.fpos))
  }

  /** The block end message. */
  function End(s: State): State
    requires FileOk(s)
  {
    Export(Flush(s, s.blockNum), FOOTER).(running := false)
  }

  /** Blocks pending in CURRENT_BLOCKINFO go to the size field when it is full. */
  function FlushIfFull(s: State): State
    requires FileOk(s)
  {
    if s.blockNum == |s.infos| && s.blockNum != 0 then
      Flush(s, |s.infos|).(blockNum := 0, infos := NoBlocks(|s.infos|), writePos := s.fpos)
    else s
  }

  /** ChangeTimecode: the first Timecode a node sees fixes its own offset. Anything but a
      Timecode at the start of a cluster ends the process. */
  function Retime(s: State, data: seq<u8>): State
    requires Retimable(data)
  {
    if ChankAt(data).id != TIMECODE_ID then s.(running := false)
    else if s.hasOffset then s
    else s.(offset := U64(PacketStamp(data) + s.nodeOffset), hasOffset := true)
  }

  /** What ChangeTimecode leaves of the packet payload, told by the state it leaves. */
  function RetimedData(w: State, data: seq<u8>): (r: seq<u8>)
    requires Retimable(data)
    ensures |r| == |data|
  {
    if ChankAt(data).id != TIMECODE_ID then data
    else WithStamp(data, Retimed(PacketStamp(data), w.nodeOffset, w.offset))
  }

  /** InsertBlockToCluster: a new cluster number closes the open cluster first. */
  function Insert(s: State, bytes: seq<u8>): (r: State)
    requires FileOk(s)
    ensures r.blockNum <= s.blockNum && r.infos == s.infos
  {
    var w := if s.prevBlock.clusterSeq == s.block.clusterSeq then s
             else
               var c := Flush(s, s.blockNum);
               OpenCluster(c.(prevCluster := c.cluster, cluster := NO_CLUSTER)).(blockNum := 0);
    Export(w, bytes)
  }

  /** A packet AssembleBlock reads wholly inside its bounds. */
  predicate WellFormed(data: seq<u8>) {
    && |data| >= BLOCKINFO_BYTES
    && (IsBlock(data) ==>
          && BLOCKINFO_BYTES + Decode(data).bytes <= |data|
          && (Decode(data).number == FIRST_BLOCK_SEQ ==> Retimable(data[BLOCKINFO_BYTES..])))
  }

  predicate IsBlock(data: seq<u8>)
    requires |data| >= BLOCKINFO_BYTES
  {
    data[..BLOCKINFO_BYTES] != BLOCKINFO_START && data[..BLOCKINFO_BYTES] != BLOCKINFO_END
  }

  /** The block arm, up to the packet's payload: the first cluster number is noted, and
      pending blocks are flushed when there is no room for one more. */
  function Prepare(s: State, info: BlockInfo): (w: State)
    requires FileOk(s)
    ensures FileOk(w) && |w.infos| == |s.infos|
  {
    var s1 := if s.isFirstCluster then s.(firstClusterSeq := info.clusterSeq, isFirstCluster := false) else s;
    FlushIfFull(s1).(block := info)
  }

  /** The block arm from the payload on. */
  function Store(s: State, info: BlockInfo, payload: seq<u8>): State
    requires FileOk(s) && |s.infos| > 0 && s.blockNum < |s.infos| && info.bytes <= |payload|
  {
    var w := Insert(s.(latest := info.number), payload[..info.bytes]);
    w.(infos := w.infos[w.blockNum := info], blockNum := w.blockNum + 1,
       prevBlock := w.block, block := NO_BLOCK)
  }

  /** The block arm of AssembleBlock, behind the test for old blocks. */
  function Accept(s: State, data: seq<u8>): State
    requires FileOk(s) && |s.infos| > 0 && WellFormed(data) && IsBlock(data)
  {
    var info := Decode(data);
    var payload := data[BLOCKINFO_BYTES..];
    var w := Prepare(s, info);
    if info.number != FIRST_BLOCK_SEQ then Store(w, info, payload)
    else if !Retime(w, payload).running then Retime(w, payload)
    else Store(Retime(w, payload), info, RetimedData(Retime(w, payload), payload))
  }

  /** AssembleBlock. */
  function Assemble(s: State, data: seq<u8>): State
    requires WellFormed(data) && |s.infos| > 0
    requires FileOk(s) || (data[..BLOCKINFO_BYTES] == BLOCKINFO_START && s.fpos <= |s.file|)
  {
    if data[..BLOCKINFO_BYTES] == BLOCKINFO_START then Start(s, data[BLOCKINFO_BYTES..])
    else if data[..BLOCKINFO_BYTES] == BLOCKINFO_END then End(s)
    else if IsOld(s, Decode(data)) then s
    else Accept(s, data)
  }

  /** The other globals AssembleBlock works on, beside those of the file. */
  class Peer {
    const webm: WebM
    var cluster: Cluster
    const block: Block
    const infos: array<BlockInfo>
    var blockNum: nat
    var isFirstCluster: bool
    var offset: u64
    var nodeOffset: u64
    var hasOffset: bool
    var running: bool

    ghost function View(): State
      reads this, webm, block, infos
    {
      State(webm.file, webm.fpos, webm.writePos, webm.headerBytes, cluster, webm.prevCluster, block.info, block.prev,
            infos[..], blockNum, webm.latest, isFirstCluster, webm.firstClusterSeq, offset, nodeOffset, hasOffset,
            running)
    }

    /** A peer that has been told where its stream starts: InitCluster, InitBlock and the
        cluster numbers NodeInitialStatus sets. */
    constructor (maxBlocks: nat, clusterSeq: u16, nodeOffset: u64)
      requires maxBlocks > 0
      ensures fresh(webm) && fresh(block) && fresh(infos)
      ensures View() == Joining(maxBlocks, clusterSeq, nodeOffset)
    {
      webm := new WebM([], 0);
      cluster := NO_CLUSTER;
      var b := new Block();
      block := b;
      infos := new BlockInfo[maxBlocks](_ => NO_BLOCK);
      blockNum := 0;
      isFirstCluster := true;
      offset, hasOffset, running := 0, false, true;
      this.nodeOffset := nodeOffset;
      new;
      block.info := block.info.(clusterSeq := clusterSeq);
      block.prev := block.prev.(clusterSeq := clusterSeq);
      assert infos[..] == NoBlocks(maxBlocks);
    }

    /** Seeks to the size field, writes seven bytes, seeks back. */
    method UpdateClusterDataBytesToWebM()
      requires webm.fpos <= |webm.file| && SizeField(View()) <= |webm.file|
      modifies webm`file, webm`fpos, webm`writePos
      ensures View() == old(View()).(
                          file := Overwrite(old(webm.file), old(SizeField(View())), ToBE(cluster.dataBytes, 7)),
                          writePos := old(webm.fpos))
    {
      var position := cluster.idBytes + 1;
      var updateDataBuf: seq<u8> := [];
      var i := 0;
      while i < 7
        invariant 0 <= i == |updateDataBuf| <= 7
        invariant forall j :: 0 <= j < i ==> updateDataBuf[j] == cluster.dataBytes / Pow256(6 - j) % 256
      {
        updateDataBuf := updateDataBuf + [cluster.dataBytes / Pow256(6 - i) % 256];
        i := i + 1;
      }
      ToBEFromShifts(cluster.dataBytes, updateDataBuf);
      var here := webm.fpos;
      webm.writePos := cluster.pos + position;
      webm.fpos := webm.writePos;
      webm.ExportWebM(updateDataBuf);
      webm.writePos := here;
      webm.fpos := here;
    }

    method UpdateClusterToWebM(count: nat)
      requires FileOk(View()) && count <= infos.Length
      modifies webm`file, webm`fpos, webm`writePos, this`cluster
      ensures View() == Flush(old(View()), count)
    {
      hide Overwrite, ToBE;
      var totalDataBytes := 0;
      for i := 0 to count
        invariant totalDataBytes == SumBytes(infos[..i])
      {
        assert infos[..i + 1][..i] == infos[..i];
        totalDataBytes := totalDataBytes + infos[i].bytes;
      }
      assert infos[..][..count] == infos[..count];
      cluster := cluster.(dataBytes := U64(cluster.dataBytes + totalDataBytes),
                          chankBytes := U64(cluster.chankBytes + totalDataBytes));
      UpdateClusterDataBytesToWebM();
    }

    method RenewClusterForWrite()
      requires webm.fpos <= |webm.file|
      modifies webm`file, webm`fpos, this`cluster
      ensures View() == OpenCluster(old(View()))
    {
      cluster := Cluster(webm.writePos, block.info.clusterSeq, CLUSTER_ID_BYTES, 0, CLUSTER_HEADER_BYTES);
      webm.ExportWebM(FOOTER);
    }

    method InsertBlockToCluster(bytes: seq<u8>)
      requires FileOk(View())
      modifies webm`file, webm`fpos, webm`writePos, this`cluster, webm`prevCluster, this`blockNum
      ensures View() == Insert(old(View()), bytes)
    {
      if block.prev.clusterSeq != block.info.clusterSeq {
        UpdateClusterToWebM(blockNum);
        webm.prevCluster := cluster;
        cluster := NO_CLUSTER;
        RenewClusterForWrite();
        blockNum := 0;
      }
      webm.ExportWebM(bytes);
    }

    /** Rewrites the Timecode value of a packet payload. */
    method ChangeTimecode(data: seq<u8>) returns (changed: seq<u8>)
      requires Retimable(data)
      modifies this`offset, this`hasOffset, this`running
      ensures View() == Retime(old(View()), data) && changed == RetimedData(View(), data)
    {
      hide PacketStamp, WithStamp, ChankAt;
      var timecode := GetChank(data);
      if timecode.id == TIMECODE_ID {
        var timestamp := ReadTimestamp(data, timecode);
        if !hasOffset {
          offset := U64(timestamp + nodeOffset);
          hasOffset := true;
        }
        RetimedTwice(timestamp, nodeOffset, offset);
        var modified := U64(U64(timestamp + nodeOffset) - offset);
        changed := WriteTimestamp(data, timecode, modified);
      } else {
        changed := data;
        running := false;
      }
    }

    /** The arms of AssembleBlock. */
    method AssembleStart(payload: seq<u8>)
      requires webm.fpos <= |webm.file|
      modifies webm`file, webm`fpos, webm`writePos, webm`headerBytes, this`cluster
      ensures View() == Start(old(View()), payload)
    {
      webm.ExportWebM(payload);
      webm.headerBytes := |payload|;
      webm.writePos := webm.fpos;
      RenewClusterForWrite();
    }

    method AssembleEnd()
      requires FileOk(View())
      modifies webm`file, webm`fpos, webm`writePos, this`cluster, this`running
      ensures View() == End(old(View()))
    {
      hide Flush, Overwrite;
      UpdateClusterToWebM(blockNum);
      webm.ExportWebM(FOOTER);
      running := false;
    }

    method PrepareBlock(info: BlockInfo)
      requires FileOk(View())
      modifies this, webm, block, infos
      ensures View() == Prepare(old(View()), info)
    {
      if isFirstCluster {
        webm.firstClusterSeq := info.clusterSeq;
        isFirstCluster := false;
      }
      if blockNum == 0 {
      } else if blockNum == infos.Length {
        UpdateClusterToWebM(infos.Length);
        webm.writePos := webm.fpos;
        blockNum := 0;
        forall i | 0 <= i < infos.Length {
          infos[i] := NO_BLOCK;
        }
        assert infos[..] == NoBlocks(infos.Length);
      }
      block.info := info;
    }

    method StoreBlock(info: BlockInfo, payload: seq<u8>)
      requires FileOk(View()) && blockNum < infos.Length && info.bytes <= |payload|
      modifies this, webm, block, infos
      ensures View() == Store(old(View()), info, payload)
    {
      hide Flush, OpenCluster, Export, Insert;
      webm.latest := info.number;
      InsertBlockToCluster(payload[..info.bytes]);
      ghost var w := View();
      infos[blockNum] := info;
      assert infos[..] == w.infos[blockNum := info];
      block.ShiftToPreBlock();
      blockNum := blockNum + 1;
    }

    method AssembleBlock(data: seq<u8>)
      requires WellFormed(data) && infos.Length > 0
      requires FileOk(View()) || (data[..BLOCKINFO_BYTES] == BLOCKINFO_START && webm.fpos <= |webm.file|)
      modifies this, webm, block, infos
      ensures View() == Assemble(old(View()), data)
    {
      hide Flush, OpenCluster, Export, Insert, Start, End, Store, RetimedData, Retimable;
      var payload := data[BLOCKINFO_BYTES..];
      if data[..BLOCKINFO_BYTES] == BLOCKINFO_START {
        AssembleStart(payload);
      } else if data[..BLOCKINFO_BYTES] == BLOCKINFO_END {
        AssembleEnd();
      } else {
        var info := Decode(data);
        var isOld := IsOldBlockSeq(info);
        if isOld {
          return;
        }
        PrepareBlock(info);
        if info.number == FIRST_BLOCK_SEQ {
          payload := ChangeTimecode(payload);
          if !running {
            return;
          }
        }
        StoreBlock(info, payload);
      }
    }

    method IsOldBlockSeq(info: BlockInfo) returns (old': bool)
      ensures old' == IsOld(View(), info)
    {
      if info.clusterSeq < webm.prevCluster.number {
        return true;
      } else if info.clusterSeq == webm.prevCluster.number {
        return info.number <= webm.latest;
      } else {
        return false;
      }
    }
  }

  /** The byte loops of ChangeTimecode: the value is read most significant byte first... */
  method ReadTimestamp(data: seq<u8>, timecode: Chank) returns (timestamp: u64)
    requires Retimable(data) && timecode == ChankAt(data) && timecode.id == TIMECODE_ID
    ensures timestamp == PacketStamp(data)
  {
    var h, n := timecode.dataHeaderPosition, timecode.dataBytes;
    ghost var value := data[h..h + n];
    var sum: nat := 0;
    var i := 0;
    while i < n
      invariant 0 <= i <= n && sum == FromBE(value[..i])
    {
      assert value[..i + 1][..i] == value[..i] && value[i] == data[h + i];
      sum := 256 * sum + data[h + i];
      i := i + 1;
    }
    assert value[..n] == value;
    assert sum == PacketStamp(data);
    timestamp := sum;
  }

  /** ...and the new one is written back in the same bytes. */
  method WriteTimestamp(data: seq<u8>, timecode: Chank, modified: u64) returns (changed: seq<u8>)
    requires Retimable(data) && timecode == ChankAt(data) && timecode.id == TIMECODE_ID
    ensures changed == WithStamp(data, modified)
  {
    hide ChankAt, HasHeader, Pow256;
    var h, n := timecode.dataHeaderPosition, timecode.dataBytes;
    ghost var stamp := ToBE(modified, n);
    changed := data;
    var i := 0;
    while i < n
      invariant 0 <= i <= n
      invariant changed == data[..h] + stamp[..i] + data[h + i..]
    {
      ToBEAt(modified, n, i);
      changed := changed[h + i := modified / Pow256(n - i - 1) % 256];
      i := i + 1;
    }
  }

  function Joining(maxBlocks: nat, clusterSeq: u16, nodeOffset: u64): State {
    State([], 0, 0, 0, NO_CLUSTER, NO_CLUSTER,
          NO_BLOCK.(pos := CLUSTER_HEADER_BYTES, clusterSeq := clusterSeq),
          NO_BLOCK.(status := STATUS_INIT, clusterSeq := clusterSeq),
          NoBlocks(maxBlocks), 0, 0, true, 0, 0, nodeOffset, false, true)
  }
}
