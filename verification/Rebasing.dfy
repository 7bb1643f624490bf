/** What a peer was told of its parent's time base, and the one it takes of its own: they reach
    the file only as their difference, so what a joining peer was told cancels out.
  */
module Rebasing {
  import opened Words
  import opened Ebml
  import opened Blocks
  import opened Timecodes
  import opened Files
  import opened Peers
  import opened Assembly

  /** A node with another time base, and another one told of its parent. */
  function Rebased(s: State, told: u64, own: u64): State {
    s.(nodeOffset := told, offset := own)
  }

  lemma PrepareBase(s: State, a: u64, o: u64, info: BlockInfo)
    requires FileOk(s) && |s.infos| > 0
    ensures Prepare(Rebased(s, a, o), info) == Rebased(Prepare(s, info), a, o)
    ensures Prepare(s, info).blockNum < |Prepare(s, info).infos|
  {
    hide FlushIfFull, Flush;
    FlushIfFullBase(s, a, o);
    FlushIfFullBase(s.(firstClusterSeq := info.clusterSeq, isFirstCluster := false), a, o);
  }

  lemma FlushIfFullBase(s: State, a: u64, o: u64)
    requires FileOk(s) && |s.infos| > 0
    ensures FlushIfFull(Rebased(s, a, o)) == Rebased(FlushIfFull(s), a, o)
    ensures FlushIfFull(s).blockNum < |FlushIfFull(s).infos|
  {
    hide Flush;
    FlushBase(s, a, o);
  }

  lemma StoreBase(s: State, a: u64, o: u64, info: BlockInfo, payload: seq<u8>)
    requires FileOk(s) && |s.infos| > 0 && s.blockNum < |s.infos| && info.bytes <= |payload|
    ensures Store(Rebased(s, a, o), info, payload) == Rebased(Store(s, info, payload), a, o)
  {
    hide Insert;
    InsertBase(s.(latest := info.number), a, o, payload[..info.bytes]);
  }

  lemma InsertBase(s: State, a: u64, o: u64, bytes: seq<u8>)
    requires FileOk(s)
    ensures Insert(Rebased(s, a, o), bytes) == Rebased(Insert(s, bytes), a, o)
  {
    hide Flush, OpenCluster, Export;
    FlushBase(s, a, o);
    var c := Flush(s, s.blockNum);
    var d := c.(prevCluster := c.cluster, cluster := NO_CLUSTER);
    OpenBase(d, a, o);
    var w := if s.prevBlock.clusterSeq == s.block.clusterSeq then s else OpenCluster(d).(blockNum := 0);
    OpenInFile(d);
    ExportBase(w, a, o, bytes);
  }

  lemma FlushBase(s: State, a: u64, o: u64)
    requires FileOk(s)
    ensures Flush(Rebased(s, a, o), s.blockNum) == Rebased(Flush(s, s.blockNum), a, o)
  {
    hide Overwrite, ToBE, SumBytes;
  }

  lemma ExportBase(s: State, a: u64, o: u64, bytes: seq<u8>)
    requires s.fpos <= |s.file|
    ensures Export(Rebased(s, a, o), bytes) == Rebased(Export(s, bytes), a, o)
  {
    hide Overwrite;
  }

  lemma OpenBase(s: State, a: u64, o: u64)
    requires s.fpos <= |s.file|
    ensures OpenCluster(Rebased(s, a, o)) == Rebased(OpenCluster(s), a, o)
  {
    hide Overwrite;
  }

  lemma OpenInFile(s: State)
    requires s.fpos <= |s.file|
    ensures OpenCluster(s).fpos <= |OpenCluster(s).file|
  {
  }

  /** Once fixed, a node's time base stays; what it was told of its parent's stays anyway. */
  lemma AssembleKeepsBase(s: State, p: seq<u8>)
    requires FileOk(s) && |s.infos| > 0 && WellFormed(p)
    ensures Assemble(s, p).nodeOffset == s.nodeOffset
    ensures s.hasOffset ==> Assemble(s, p).hasOffset && Assemble(s, p).offset == s.offset
  {
    hide Start, End, Prepare, Store, Retime, RetimedData, Decode, IsOld, Retimable;
    StartKeepsTimes(s, p[BLOCKINFO_BYTES..]);
    EndKeepsTimes(s);
    if IsBlock(p) && !IsOld(s, Decode(p)) {
      var info, payload := Decode(p), p[BLOCKINFO_BYTES..];
      PrepareKeepsTimes(s, info);
      var w := Prepare(s, info);
      if info.number != FIRST_BLOCK_SEQ {
        StoreKeepsTimes(w, info, payload);
      } else {
        RetimeKeepsTimes(w, payload);
        if Retime(w, payload).running {
          StoreKeepsTimes(Retime(w, payload), info, RetimedData(Retime(w, payload), payload));
        }
      }
    }
  }

  predicate SameTimes(s: State, w: State) {
    w.nodeOffset == s.nodeOffset && w.hasOffset == s.hasOffset && w.offset == s.offset
  }

  lemma StartKeepsTimes(s: State, header: seq<u8>)
    requires s.fpos <= |s.file|
    ensures SameTimes(s, Start(s, header))
  {
    hide Overwrite;
  }

  lemma EndKeepsTimes(s: State)
    requires FileOk(s)
    ensures SameTimes(s, End(s))
  {
    hide Overwrite, ToBE, SumBytes;
  }

  lemma PrepareKeepsTimes(s: State, info: BlockInfo)
    requires FileOk(s)
    ensures SameTimes(s, Prepare(s, info)) && (|s.infos| > 0 ==> Prepare(s, info).blockNum < |s.infos|)
  {
    hide Overwrite, ToBE, SumBytes;
  }

  lemma RetimeKeepsTimes(s: State, data: seq<u8>)
    requires Retimable(data)
    ensures var w := Retime(s, data);
            && w.nodeOffset == s.nodeOffset && (s.hasOffset ==> SameTimes(s, w))
            && w == s.(running := w.running, hasOffset := w.hasOffset, offset := w.offset) && (FileOk(s) ==> FileOk(w))
  {
    hide ChankAt, PacketStamp, Retimable;
  }

  lemma StoreKeepsTimes(s: State, info: BlockInfo, payload: seq<u8>)
    requires FileOk(s) && |s.infos| > 0 && s.blockNum < |s.infos| && info.bytes <= |payload|
    ensures SameTimes(s, Store(s, info, payload))
  {
    hide Overwrite, ToBE, SumBytes;
  }

  lemma {:induction false} FeedKeepsBase(s: State, packets: seq<seq<u8>>)
    requires FileOk(s) && |s.infos| > 0 && (forall p :: p in packets ==> WellFormed(p))
    ensures Feed(s, packets).nodeOffset == s.nodeOffset
    ensures s.hasOffset ==> Feed(s, packets).hasOffset && Feed(s, packets).offset == s.offset
    decreases |packets|
  {
    hide FileOk, WellFormed, Assemble;
    if packets != [] && s.running {
      AssembleKeepsBase(s, packets[0]);
      var w := Assemble(s, packets[0]);
      if FileOk(w) && |w.infos| > 0 {
        FeedKeepsBase(w, packets[1..]);
      }
    }
  }

  /** Two states that are the same but for the bases, which are as far apart in both. */
  ghost predicate Same(x: State, y: State) {
    && y == Rebased(x, y.nodeOffset, y.offset)
    && (x.hasOffset ==> U64(x.nodeOffset - x.offset) == U64(y.nodeOffset - y.offset))
  }

  /** They stay so, whatever packet arrives. */
  lemma AssembleSame(x: State, y: State, p: seq<u8>)
    requires FileOk(x) && FileOk(y) && |x.infos| > 0 && WellFormed(p) && Same(x, y)
    ensures Same(Assemble(x, p), Assemble(y, p))
  {
    hide FileOk, Start, End, Accept, IsBlock, Decode;
    AssembleKeepsBase(x, p);
    AssembleKeepsBase(y, p);
    if p[..BLOCKINFO_BYTES] == BLOCKINFO_START {
      StartSame(x, y, p[BLOCKINFO_BYTES..]);
    } else if p[..BLOCKINFO_BYTES] == BLOCKINFO_END {
      EndSame(x, y);
    } else if !IsOld(x, Decode(p)) {
      NoMarker(p);
      AcceptSame(x, y, p);
    }
  }

  lemma NoMarker(p: seq<u8>)
    requires |p| >= BLOCKINFO_BYTES && p[..BLOCKINFO_BYTES] != BLOCKINFO_START && p[..BLOCKINFO_BYTES] != BLOCKINFO_END
    ensures IsBlock(p)
  {
  }

  lemma StartSame(x: State, y: State, header: seq<u8>)
    requires FileOk(x) && FileOk(y) && Same(x, y)
    ensures Same(Start(x, header), Start(y, header))
  {
    hide Overwrite;
  }

  lemma EndSame(x: State, y: State)
    requires FileOk(x) && FileOk(y) && Same(x, y)
    ensures Same(End(x), End(y)) && End(x).file == End(y).file
  {
    hide Flush, Export;
    FlushBase(x, y.nodeOffset, y.offset);
    ExportBase(Flush(x, x.blockNum), y.nodeOffset, y.offset, FOOTER);
    EndKeepsTimes(x);
  }

  lemma AcceptSame(x: State, y: State, p: seq<u8>)
    requires FileOk(x) && FileOk(y) && |x.infos| > 0 && WellFormed(p) && IsBlock(p) && Same(x, y)
    ensures Same(Accept(x, p), Accept(y, p))
  {
    hide FileOk, Prepare, Store, Retime, RetimedData, Decode, Retimable;
    var info, data := Decode(p), p[BLOCKINFO_BYTES..];
    var v, w := Prepare(x, info), Prepare(y, info);
    PrepareBase(x, y.nodeOffset, y.offset, info);
    PrepareBase(y, y.nodeOffset, y.offset, info);
    PrepareKeepsTimes(x, info);
    PrepareKeepsTimes(y, info);
    if info.number != FIRST_BLOCK_SEQ {
      StoreSame(v, w, info, data);
    } else {
      RetimeSame(v, w, data);
      RetimeKeepsTimes(v, data);
      RetimeKeepsTimes(w, data);
      if Retime(v, data).running {
        StoreSame(Retime(v, data), Retime(w, data), info, RetimedData(Retime(v, data), data));
      }
    }
  }

  lemma StoreSame(x: State, y: State, info: BlockInfo, payload: seq<u8>)
    requires FileOk(x) && FileOk(y) && |x.infos| > 0 && x.blockNum < |x.infos| && info.bytes <= |payload|
    requires Same(x, y)
    ensures Same(Store(x, info, payload), Store(y, info, payload))
  {
    hide FileOk, Store;
    StoreBase(x, y.nodeOffset, y.offset, info, payload);
    StoreKeepsTimes(x, info, payload);
    StoreKeepsTimes(y, info, payload);
  }

  /** Both write the same time, zero if it fixes their bases. */
  lemma RetimeSame(x: State, y: State, data: seq<u8>)
    requires Retimable(data) && Same(x, y)
    ensures Same(Retime(x, data), Retime(y, data))
    ensures Retime(x, data).running ==> RetimedData(Retime(x, data), data) == RetimedData(Retime(y, data), data)
  {
    hide ChankAt, PacketStamp, HasHeader, WithStamp, U64;
    var v, w := Retime(x, data), Retime(y, data);
    if ChankAt(data).id == TIMECODE_ID {
      if !x.hasOffset {
        OwnDistance(PacketStamp(data), x.nodeOffset);
        OwnDistance(PacketStamp(data), y.nodeOffset);
      }
      SameDistance(PacketStamp(data), v.nodeOffset, v.offset, w.nodeOffset, w.offset);
    }
  }

  /** A base just taken from a stamp is as far from the one told as the stamp says. */
  lemma OwnDistance(stamp: u64, told: u64)
    ensures U64(told - U64(stamp + told)) == U64(0 - stamp)
  {
  }

  lemma SameDistance(stamp: u64, a: u64, b: u64, c: u64, d: u64)
    requires U64(a - b) == U64(c - d)
    ensures Retimed(stamp, a, b) == Retimed(stamp, c, d)
  {
    Shifted(stamp, a - b);
    Shifted(stamp, c - d);
  }

  lemma Shifted(stamp: u64, n: int)
    requires -TWO_64 < n < TWO_64
    ensures U64(stamp + n) == U64(stamp + U64(n))
  {
  }

  /** So do whole runs of packets. */
  lemma {:induction false} FeedSame(x: State, y: State, packets: seq<seq<u8>>)
    requires FileOk(x) && FileOk(y) && |x.infos| > 0 && Same(x, y) && forall p :: p in packets ==> WellFormed(p)
    ensures Same(Feed(x, packets), Feed(y, packets))
    decreases |packets|
  {
    hide WellFormed, Assemble;
    if packets != [] && x.running {
      AssembleSame(x, y, packets[0]);
      var v, w := Assemble(x, packets[0]), Assemble(y, packets[0]);
      if FileOk(v) && |v.infos| > 0 {
        FeedSame(v, w, packets[1..]);
      }
    }
  }
}
