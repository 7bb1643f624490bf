/** TOTAL_FILE_BYTES on a peer: how far the counter falls behind the file, and which reads that
    cuts short.
  */
module Totals {
  import opened Words
  import opened Ebml
  import opened Blocks
  import opened Peers
  import opened Disk
  import opened Assembly

  /** What AssembleBlock adds to the counter: the packet's payload, unless it drops the block. */
  function Counted(s: State, p: seq<u8>): nat
    requires WellFormed(p)
  {
    if IsBlock(p) && IsOld(s, Decode(p)) then 0 else |p| - BLOCKINFO_BYTES
  }

  /** The counter after a run of packets. */
  function Counter(s: State, packets: seq<seq<u8>>, total: nat): nat
    requires FileOk(s) && |s.infos| > 0
    requires forall p :: p in packets ==> WellFormed(p)
    decreases |packets|
  {
    if packets == [] || !s.running then total
    else
      var w := Assemble(s, packets[0]);
      var next := total + Counted(s, packets[0]);
      if FileOk(w) && |w.infos| > 0 then Counter(w, packets[1..], next) else next
  }

  /** A block whose packet carries its bytes and nothing more. */
  predicate Exact(p: seq<u8>) {
    WellFormed(p) && IsBlock(p) && |p| == BLOCKINFO_BYTES + Decode(p).bytes
  }

  /** The counter misses the headers of the clusters: it is behind the file by twelve bytes for
      every cluster the peer has opened, whatever blocks it gets. */
  lemma {:induction false} CounterLags(s: State, packets: seq<seq<u8>>, header: seq<u8>, shape: Shape, total: nat)
    returns (shape': Shape)
    requires Behind(s, header, shape, total) && s.running
    requires (forall p :: p in packets ==> WellFormed(p) && Exact(p)) && |s.file| + TotalBytes(packets) < TWO_56
    ensures FileOk(s) && |s.infos| > 0
    ensures Feed(s, packets).running ==> Behind(Feed(s, packets), header, shape', Counter(s, packets, total))
    decreases |packets|
  {
    hide Behind, FileOk, WellFormed, Exact, Assemble, Counted;
    BehindRuns(s, header, shape, total);
    shape' := shape;
    if packets != [] {
      var p := packets[0];
      var w := Assemble(s, p);
      shape' := CounterStep(s, p, header, shape, total);
      if w.running {
        BehindRuns(w, header, shape', total + Counted(s, p));
        shape' := CounterLags(w, packets[1..], header, shape', total + Counted(s, p));
      } else {
        FeedStops(s, packets);
      }
    }
  }

  /** The peer holds the shape, and the counter is behind by twelve bytes a cluster. */
  ghost predicate Behind(s: State, header: seq<u8>, shape: Shape, total: nat) {
    Holds(s, header, shape) && total + CLUSTER_HEADER_BYTES * (|shape.closed| + 1) == |s.file|
  }

  lemma BehindRuns(s: State, header: seq<u8>, shape: Shape, total: nat)
    requires Behind(s, header, shape, total)
    ensures FileOk(s) && |s.infos| > 0
  {
    OnDiskFileOk(s, header, shape.closed, shape.open);
    HoldsRoom(s, header, shape);
  }

  lemma CounterStep(s: State, p: seq<u8>, header: seq<u8>, shape: Shape, total: nat) returns (shape': Shape)
    requires FileOk(s) && |s.infos| > 0 && Behind(s, header, shape, total) && s.running
    requires WellFormed(p) && Exact(p) && |s.file| + |p| < TWO_56
    ensures var w := Assemble(s, p);
            w.running ==> Behind(w, header, shape', total + Counted(s, p)) && |w.file| <= |s.file| + |p|
  {
    hide Holds, Accept, IsOld, Grown, FileOk, Decode;
    shape' := shape;
    NoMarkers(p);
    if !IsOld(s, Decode(p)) {
      AcceptHolds(s, p, header, shape);
      if Accept(s, p).running {
        shape' := Grown(s, p, shape);
        GrownExactly(s, p, header, shape);
      }
    }
  }

  lemma NoMarkers(p: seq<u8>)
    requires WellFormed(p) && IsBlock(p)
    ensures p[..BLOCKINFO_BYTES] != BLOCKINFO_START && p[..BLOCKINFO_BYTES] != BLOCKINFO_END
  {
  }

  /** An accepted block adds its bytes to the file, and twelve more if it opens a cluster. */
  lemma GrownExactly(s: State, p: seq<u8>, header: seq<u8>, shape: Shape)
    requires FileOk(s) && |s.infos| > 0 && Holds(s, header, shape) && Exact(p)
    requires Holds(Accept(s, p), header, Grown(s, p, shape))
    ensures |Accept(s, p).file|
            == |s.file| + |p| - BLOCKINFO_BYTES
               + CLUSTER_HEADER_BYTES * (|Grown(s, p, shape).closed| - |shape.closed|)
    ensures |Accept(s, p).file| <= |s.file| + |p|
  {
    hide Accept, Decode, Prepare, Retime, RetimedData, IsBlock;
    HeldSize(s, header, shape);
    HeldSize(Accept(s, p), header, Grown(s, p, shape));
    ClosedSnoc(shape.closed, shape.open);
  }

  lemma HeldSize(s: State, header: seq<u8>, shape: Shape)
    requires Holds(s, header, shape)
    ensures |s.file| == |header| + |Region(Closed(shape.closed))| + CLUSTER_HEADER_BYTES + |shape.open|
  {
    hide Region, Closed, OpenHead;
  }

  /** So from the header packet on. */
  lemma CounterFromStart(maxBlocks: nat, clusterSeq: u16, nodeOffset: u64, header: seq<u8>, packets: seq<seq<u8>>)
    returns (shape: Shape)
    requires maxBlocks > 0 && (forall p :: p in packets ==> WellFormed(p) && Exact(p))
    requires |header| + CLUSTER_HEADER_BYTES + TotalBytes(packets) < TWO_56
    ensures var s := Start(Joining(maxBlocks, clusterSeq, nodeOffset), header);
            && FileOk(s) && |s.infos| > 0
            && (Feed(s, packets).running ==> Behind(Feed(s, packets), header, shape, Counter(s, packets, |header|)))
  {
    StartHolds(maxBlocks, clusterSeq, nodeOffset, header);
    hide Holds, Feed, Counter;
    var s := Start(Joining(maxBlocks, clusterSeq, nodeOffset), header);
    shape := CounterLags(s, packets, header, Shape([], []), |header|);
  }

  /** What SearchWebM gets of the bytes asked for at a place of a file of that size: it compares
      a signed difference with an unsigned length, so a negative one limits nothing. */
  function Got(total: nat, at: nat, size: nat, asked: nat): nat
    requires at <= size
  {
    var rest := total - at;
    Min(if 0 <= rest <= asked then rest else asked, size - at)
  }

  /** A send reads less than there is exactly while the counter is less than a block past the
      place it reads at. */
  lemma ReadsShort(total: nat, at: nat, size: nat)
    requires at <= size && total < size
    ensures Got(total, at, size, MAX_BLOCK_BYTES) < Min(MAX_BLOCK_BYTES, size - at)
            <==> 0 <= total - at < MAX_BLOCK_BYTES
  {
  }

  /** A peer misses bytes of its last closed cluster, of which left are still to be sent, if and
      only if the bytes of the open one do not make up for the headers not counted, but with
      those left they do. */
  lemma LosesBytes(s: State, header: seq<u8>, shape: Shape, total: nat, left: nat)
    requires Behind(s, header, shape, total) && shape.closed != []
    requires 0 < left <= MAX_BLOCK_BYTES && left <= |shape.closed[|shape.closed| - 1]|
    ensures |s.file| >= left + CLUSTER_HEADER_BYTES + |shape.open|
    ensures var at := |s.file| - |shape.open| - CLUSTER_HEADER_BYTES - left;
            var missed := CLUSTER_HEADER_BYTES * |shape.closed|;
            Got(total, at, |s.file|, MAX_BLOCK_BYTES) < left <==> |shape.open| < missed <= |shape.open| + left
  {
    hide Region, Closed, Holds;
    HeldSize(s, header, shape);
    var n := |shape.closed| - 1;
    ClosedSnoc(shape.closed[..n], shape.closed[n]);
    assert shape.closed == shape.closed[..n] + [shape.closed[n]];
  }

  /** The failing input: after a header of any length, a first cluster of 500 bytes and one byte
      of the second, the only block of the first is read as 489 bytes. */
  lemma ShortBlock(header: nat)
    ensures Got(header + 501, header + 12, header + 525, MAX_BLOCK_BYTES) == 489
    ensures header + 501 + CLUSTER_HEADER_BYTES * 2 == header + 525
  {
  }
}
