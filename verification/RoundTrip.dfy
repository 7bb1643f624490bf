/** The end-to-end round trip: the packets of a live stream, in order, leave a peer with the
    header and the payloads, each under a header that tells its length.
  */
module RoundTrip {
  import opened Words
  import opened Ebml
  import opened Blocks
  import opened Clusters
  import opened Timecodes
  import opened Partition
  import opened Clips
  import opened Peers
  import opened Disk
  import opened Assembly
  import opened Reception

  /** Stream files stay far below the unknown size. */
  lemma {:induction false} RegionBound(clip: seq<seq<seq<u8>>>, first: nat, n: nat)
    requires IsClip(clip) && first <= n <= |clip|
    ensures |Region(Closed(StoredPayloads(clip, first, n)))| <= (n - first) * TWO_32
    decreases n
  {
    hide Flat, Shown, IsClip, GoodPayload, ClusterHeader;
    if first < n {
      RegionBound(clip, first, n - 1);
      LaterThan(clip, first, n - 1);
      ShownIsGood(clip, n - 1, Time(clip, first));
      PayloadSmall(clip, n - 1);
      ClosedSnoc(StoredPayloads(clip, first, n - 1), Flat(Shown(clip, n - 1, Time(clip, first))));
    } else {
      assert Closed([]) == [];
    }
  }

  lemma PayloadSmall(clip: seq<seq<seq<u8>>>, n: nat)
    requires IsClip(clip) && n < |clip|
    ensures CLUSTER_HEADER_BYTES + |Flat(clip[n])| < TWO_32 && |clip| < 0x1_0000
  {
    assert GoodPayload(clip[n]);
    hide Flat;
  }

  lemma FileBound(s: State, header: seq<u8>, clip: seq<seq<seq<u8>>>, first: nat, n: nat, j: nat)
    requires IsClip(clip) && first <= n < |clip| && j <= |BlocksOf(clip, n)| && |header| < 0x1_0000
    requires Holds(s, header, ShapeAt(clip, first, n, j))
    ensures |s.file| < TWO_56
  {
    hide Flat, Shown, IsClip, GoodPayload, BlocksOf, Wellmade;
    RegionBound(clip, first, n);
    PayloadSmall(clip, n);
    LaterThan(clip, first, n);
    ShownIsGood(clip, n, Time(clip, first));
    BlocksOfShape(clip, n);
    TotalSplit(BlocksOf(clip, n), j);
  }

  /** The first packet of a joining peer opens its file with its first cluster. */
  lemma FirstStep(s: State, header: seq<u8>, clip: seq<seq<seq<u8>>>, first: nat)
    requires IsClip(clip) && first < |clip| && Waiting(s, header, first) && |header| < 0x1_0000
    requires GoodPayload(clip[first]) && s.nodeOffset <= Time(clip, first)
    ensures FileOk(s) && |s.infos| > 0
    ensures var p := PacketOf(clip, first, s.nodeOffset, 0);
            && WellFormed(p) && IsBlock(p) && !IsOld(s, Decode(p))
            && var w := Assemble(s, p);
               Receiving(w, header, clip, first, first, 1) && w.nodeOffset == s.nodeOffset && FileOk(w) && |w.infos| > 0
  {
    hide Flat, Shown, IsClip, GoodPayload, BlocksOf, Wellmade, OnDisk, FileOk, WellFormed, Accept, Written,
         PacketStamp, ChankAt, Retimable, PacketOf, Decode;
    var p := PacketOf(clip, first, s.nodeOffset, 0);
    var shape := Shape([], []);
    LaterThan(clip, first, first);
    WaitingBound(s, header, first);
    BlocksOfShape(clip, first);
    PacketShape(clip, first, s.nodeOffset, 0);
    WrittenIsShown(s, clip, first, first, 0, header, shape);
    AcceptHolds(s, p, header, shape);
    AcceptFields(s, p, header, shape);
    ShapeStarts(clip, first, first, Shape([], []));
    PreparedFileOk(Accept(s, p), header, Grown(s, p, shape));
  }

  lemma WaitingBound(s: State, header: seq<u8>, first: nat)
    requires Waiting(s, header, first) && |header| < 0x1_0000
    ensures |s.file| < TWO_56 && FileOk(s) && |s.infos| > 0
  {
    assert Closed([]) == [];
  }

  lemma ShapeStarts(clip: seq<seq<seq<u8>>>, first: nat, n: nat, shape: Shape)
    requires IsClip(clip) && first <= n < |clip| && GoodPayload(clip[first]) && GoodPayload(clip[n])
    requires Time(clip, first) <= Time(clip, n)
    ensures Shape(StoredPayloads(clip, first, n), [] + PacketBytes(clip, n, Time(clip, first), 0))
            == ShapeAt(clip, first, n, 1)
    ensures [] + PacketBytes(clip, n, Time(clip, first), 0) == PacketBytes(clip, n, Time(clip, first), 0)
  {
    hide Flat, Shown, IsClip, GoodPayload, BlocksOf, Wellmade, StoredPayloads;
    OpenGrows(clip, n, Time(clip, first), 0);
    assert BlocksOf(clip, n)[..0] == [];
  }

  /** The next packet of the same cluster. */
  lemma NextStep(s: State, header: seq<u8>, clip: seq<seq<seq<u8>>>, first: nat, n: nat, j: nat)
    requires IsClip(clip) && Receiving(s, header, clip, first, n, j) && j < |BlocksOf(clip, n)| && |header| < 0x1_0000
    requires GoodPayload(clip[n]) && s.nodeOffset <= Time(clip, n)
    ensures FileOk(s) && |s.infos| > 0
    ensures var p := PacketOf(clip, n, s.nodeOffset, j);
            && WellFormed(p) && IsBlock(p) && !IsOld(s, Decode(p))
            && var w := Assemble(s, p);
               Receiving(w, header, clip, first, n, j + 1) && w.nodeOffset == s.nodeOffset && FileOk(w) && |w.infos| > 0
  {
    hide Flat, Shown, IsClip, GoodPayload, BlocksOf, Wellmade, OnDisk, FileOk, WellFormed, Accept, Written,
         PacketStamp, ChankAt, Retimable, PacketOf, Decode, ShapeAt;
    var p := PacketOf(clip, n, s.nodeOffset, j);
    var shape := ShapeAt(clip, first, n, j);
    LaterThan(clip, first, n);
    FileBound(s, header, clip, first, n, j);
    PreparedFileOk(s, header, shape);
    BlocksOfShape(clip, n);
    PacketShape(clip, n, s.nodeOffset, j);
    WrittenIsShown(s, clip, first, n, j, header, shape);
    AcceptHolds(s, p, header, shape);
    AcceptFields(s, p, header, shape);
    ShapeGoesOn(clip, first, n, j);
    PreparedFileOk(Accept(s, p), header, Grown(s, p, shape));
  }

  lemma ShapeGoesOn(clip: seq<seq<seq<u8>>>, first: nat, n: nat, j: nat)
    requires IsClip(clip) && first <= n < |clip| && j < |BlocksOf(clip, n)|
    requires GoodPayload(clip[first]) && GoodPayload(clip[n]) && Time(clip, first) <= Time(clip, n)
    ensures var shape := ShapeAt(clip, first, n, j);
            shape.(open := shape.open + PacketBytes(clip, n, Time(clip, first), j)) == ShapeAt(clip, first, n, j + 1)
  {
    hide Flat, Shown, IsClip, GoodPayload, BlocksOf, Wellmade, StoredPayloads;
    OpenGrows(clip, n, Time(clip, first), j);
  }

  /** The first packet of the next cluster closes the cluster received before. */
  lemma RollStep(s: State, header: seq<u8>, clip: seq<seq<seq<u8>>>, first: nat, n: nat)
    requires IsClip(clip) && n < |clip| && Receiving(s, header, clip, first, n, |BlocksOf(clip, n)|)
    requires n + 1 < |clip| && |header| < 0x1_0000
    requires GoodPayload(clip[n + 1]) && s.nodeOffset <= Time(clip, n + 1)
    ensures FileOk(s) && |s.infos| > 0
    ensures var p := PacketOf(clip, n + 1, s.nodeOffset, 0);
            && WellFormed(p) && IsBlock(p) && !IsOld(s, Decode(p))
            && var w := Assemble(s, p);
               Receiving(w, header, clip, first, n + 1, 1) && w.nodeOffset == s.nodeOffset && FileOk(w) && |w.infos| > 0
  {
    hide Flat, Shown, IsClip, GoodPayload, BlocksOf, Wellmade, OnDisk, FileOk, WellFormed, Accept, Written,
         PacketStamp, ChankAt, Retimable, PacketOf, Decode, ShapeAt;
    var p := PacketOf(clip, n + 1, s.nodeOffset, 0);
    var shape := ShapeAt(clip, first, n, |BlocksOf(clip, n)|);
    LaterThan(clip, first, n + 1);
    LaterThan(clip, first, n);
    FileBound(s, header, clip, first, n, |BlocksOf(clip, n)|);
    PreparedFileOk(s, header, shape);
    BlocksOfShape(clip, n + 1);
    PacketShape(clip, n + 1, s.nodeOffset, 0);
    WrittenIsShown(s, clip, first, n + 1, 0, header, shape);
    AcceptHolds(s, p, header, shape);
    AcceptFields(s, p, header, shape);
    ShapeComplete(clip, first, n);
    ShapeStarts(clip, first, n + 1, Shape([], []));
    PreparedFileOk(Accept(s, p), header, Grown(s, p, shape));
  }

  /** With all its blocks received, the open cluster holds its whole payload. */
  lemma ShapeComplete(clip: seq<seq<seq<u8>>>, first: nat, n: nat)
    requires IsClip(clip) && first <= n < |clip|
    ensures var shape := ShapeAt(clip, first, n, |BlocksOf(clip, n)|);
            shape.closed + [shape.open] == StoredPayloads(clip, first, n + 1)
  {
    hide Flat, Shown, IsClip, GoodPayload, Wellmade;
    LaterThan(clip, first, n);
    ShownIsGood(clip, n, Time(clip, first));
    BlocksOfShape(clip, n);
    var bs := BlocksOf(clip, n);
    assert bs[..|bs|] == bs;
    var p := Flat(Shown(clip, n, Time(clip, first)));
    assert p[..|p|] == p;
    assert ShapeAt(clip, first, n, |bs|).open == p;
    assert StoredPayloads(clip, first, n + 1) == StoredPayloads(clip, first, n) + [p];
  }

  /** Feeding in two parts. */
  lemma {:induction false} FeedConcat(s: State, a: seq<seq<u8>>, b: seq<seq<u8>>)
    requires FileOk(s) && |s.infos| > 0
    requires (forall p :: p in a ==> WellFormed(p)) && (forall p :: p in b ==> WellFormed(p))
    ensures var w := Feed(s, a);
            FileOk(w) && |w.infos| > 0 ==> Feed(s, a + b) == Feed(w, b)
    decreases |a|
  {
    hide WellFormed, FileOk, Assemble;
    if a == [] {
      assert a + b == b;
    } else if s.running {
      assert (a + b)[0] == a[0] && (a + b)[1..] == a[1..] + b;
      var w := Assemble(s, a[0]);
      if FileOk(w) && |w.infos| > 0 {
        FeedConcat(w, a[1..], b);
      }
    }
  }

  lemma FeedOne(s: State, p: seq<u8>)
    requires FileOk(s) && |s.infos| > 0 && WellFormed(p) && s.running
    ensures Feed(s, [p]) == Assemble(s, p)
  {
    hide WellFormed, FileOk, Assemble;
  }

  /** The stream of clusters first..last as a node with time base offset sends it. */
  ghost function LiveStream(clip: seq<seq<seq<u8>>>, offset: u64, first: nat, last: nat): (ps: seq<seq<u8>>)
    requires IsClip(clip) && first <= last < |clip| && GoodPayload(clip[first]) && offset <= Time(clip, first)
    decreases last
  {
    LaterThan(clip, first, last);
    if first == last then Prefix(clip, offset, last, |BlocksOf(clip, last)|)
    else
      LaterThan(clip, first, last - 1);
      LiveStream(clip, offset, first, last - 1) + Prefix(clip, offset, last, |BlocksOf(clip, last)|)
  }

  /** The first j packets of cluster n. */
  ghost function Prefix(clip: seq<seq<seq<u8>>>, offset: u64, n: nat, j: nat): (ps: seq<seq<u8>>)
    requires IsClip(clip) && n < |clip| && offset <= Time(clip, n) && j <= |BlocksOf(clip, n)|
    ensures |ps| == j && forall i :: 0 <= i < j ==> ps[i] == PacketOf(clip, n, offset, i)
  {
    if j == 0 then [] else Prefix(clip, offset, n, j - 1) + [PacketOf(clip, n, offset, j - 1)]
  }

  lemma PrefixWellFormed(clip: seq<seq<seq<u8>>>, offset: u64, n: nat, j: nat)
    requires IsClip(clip) && n < |clip| && offset <= Time(clip, n) && j <= |BlocksOf(clip, n)|
    ensures forall p :: p in Prefix(clip, offset, n, j) ==> WellFormed(p)
  {
    hide IsClip, BlocksOf, WellFormed, PacketOf;
    forall p | p in Prefix(clip, offset, n, j) ensures WellFormed(p) {
      var i :| 0 <= i < j && Prefix(clip, offset, n, j)[i] == p;
      PacketShape(clip, n, offset, i);
    }
  }

  /** Receiving the packets of cluster n, from a state the first of them leaves in order. */
  lemma {:induction false} FeedPrefix(s: State, header: seq<u8>, clip: seq<seq<seq<u8>>>, first: nat, n: nat, j: nat)
    requires IsClip(clip) && first <= n < |clip| && 1 <= j <= |BlocksOf(clip, n)| && |header| < 0x1_0000
    requires GoodPayload(clip[n]) && s.nodeOffset <= Time(clip, n)
    requires FileOk(s) && |s.infos| > 0 && s.running
    requires var p := PacketOf(clip, n, s.nodeOffset, 0);
             && WellFormed(p)
             && var w := Assemble(s, p);
                Receiving(w, header, clip, first, n, 1) && w.nodeOffset == s.nodeOffset && FileOk(w) && |w.infos| > 0
    ensures forall p :: p in Prefix(clip, s.nodeOffset, n, j) ==> WellFormed(p)
    ensures var w := Feed(s, Prefix(clip, s.nodeOffset, n, j));
            Receiving(w, header, clip, first, n, j) && w.nodeOffset == s.nodeOffset && FileOk(w) && |w.infos| > 0
    decreases j
  {
    hide IsClip, BlocksOf, WellFormed, PacketOf, FileOk, Assemble, Receiving, Prefix, Feed;
    PrefixWellFormed(clip, s.nodeOffset, n, j);
    PrefixLast(clip, s.nodeOffset, n, j);
    var p := PacketOf(clip, n, s.nodeOffset, j - 1);
    var before := Prefix(clip, s.nodeOffset, n, j - 1);
    if j == 1 {
      FeedOne(s, p);
    } else {
      FeedPrefix(s, header, clip, first, n, j - 1);
      var w := Feed(s, before);
      ReceivingRuns(w, header, clip, first, n, j - 1);
      NextStep(w, header, clip, first, n, j - 1);
      FeedConcat(s, before, [p]);
      FeedOne(w, p);
    }
  }

  lemma PrefixLast(clip: seq<seq<seq<u8>>>, offset: u64, n: nat, j: nat)
    requires IsClip(clip) && n < |clip| && offset <= Time(clip, n) && 1 <= j <= |BlocksOf(clip, n)|
    ensures Prefix(clip, offset, n, j) == Prefix(clip, offset, n, j - 1) + [PacketOf(clip, n, offset, j - 1)]
    ensures Prefix(clip, offset, n, 1) == [PacketOf(clip, n, offset, 0)]
  {
    hide IsClip, BlocksOf, PacketOf;
  }

  lemma ReceivingRuns(s: State, header: seq<u8>, clip: seq<seq<seq<u8>>>, first: nat, n: nat, j: nat)
    requires IsClip(clip) && Receiving(s, header, clip, first, n, j)
    ensures s.running && GoodPayload(clip[first]) && first <= n < |clip| && 1 <= j <= |BlocksOf(clip, n)|
  {
  }

  /** Round trip: a peer that joined at cluster first and was fed, in order, the packets of
      clusters first to last holds exactly those payloads, relative to its own time base;
      no packet was dropped as old or taken for a marker. */
  lemma {:induction false} StreamIsReceived(s: State, header: seq<u8>, clip: seq<seq<seq<u8>>>, first: nat, last: nat)
    requires IsClip(clip) && first <= last < |clip| && |header| < 0x1_0000
    requires Waiting(s, header, first) && GoodPayload(clip[first]) && s.nodeOffset <= Time(clip, first)
    ensures FileOk(s) && |s.infos| > 0
    ensures forall p :: p in LiveStream(clip, s.nodeOffset, first, last) ==> WellFormed(p)
    ensures var w := Feed(s, LiveStream(clip, s.nodeOffset, first, last));
            && Receiving(w, header, clip, first, last, |BlocksOf(clip, last)|)
            && w.nodeOffset == s.nodeOffset && FileOk(w) && |w.infos| > 0
    decreases last
  {
    hide IsClip, BlocksOf, WellFormed, PacketOf, FileOk, Assemble, Receiving, Prefix, Feed, OnDisk, GoodPayload, Time;
    WaitingBound(s, header, first);
    LaterThan(clip, first, last);
    var m := |BlocksOf(clip, last)|;
    if first == last {
      FirstStep(s, header, clip, first);
      FeedPrefix(s, header, clip, first, first, m);
    } else {
      LaterThan(clip, first, last - 1);
      StreamIsReceived(s, header, clip, first, last - 1);
      var before := LiveStream(clip, s.nodeOffset, first, last - 1);
      var w := Feed(s, before);
      ReceivingRuns(w, header, clip, first, last - 1, |BlocksOf(clip, last - 1)|);
      RollStep(w, header, clip, first, last - 1);
      FeedPrefix(w, header, clip, first, last, m);
      FeedConcat(s, before, Prefix(clip, s.nodeOffset, last, m));
    }
  }

  /** ...and END then leaves the header, every payload under a header of its length, and a
      trailing header of unknown size. */
  lemma RoundTripFile(s: State, header: seq<u8>, clip: seq<seq<seq<u8>>>, first: nat, last: nat)
    requires IsClip(clip) && first <= last < |clip| && |header| < 0x1_0000
    requires Receiving(s, header, clip, first, last, |BlocksOf(clip, last)|)
    ensures FileOk(s)
    ensures End(s).file == header + Region(Closed(StoredPayloads(clip, first, last + 1))) + FOOTER
  {
    hide IsClip, BlocksOf, ShapeAt, OnDisk;
    var shape := ShapeAt(clip, first, last, |BlocksOf(clip, last)|);
    FileBound(s, header, clip, first, last, |BlocksOf(clip, last)|);
    EndOnDisk(s, header, shape.closed, shape.open);
    ShapeComplete(clip, first, last);
  }
}
