/** A live stream as its origin knows it: numbered cluster payloads with nondecreasing
    times, and the same payloads as a node with another time base stores them.
  */
module Clips {
  import opened Words
  import opened Ebml
  import opened Blocks
  import opened Segmentation
  import opened Plan
  import opened Clusters
  import opened Timecodes
  import opened Partition
  import opened Streams

  /** A payload whose first element a node can restamp. */
  predicate GoodPayload(es: seq<seq<u8>>) {
    && IsPayload(es) && IsTimecode(es[0])
    && CLUSTER_HEADER_BYTES + |Flat(es)| < TWO_32
  }

  function Time(clip: seq<seq<seq<u8>>>, n: nat): u64
    requires n < |clip| && GoodPayload(clip[n])
  {
    Stamp(clip[n][0])
  }

  /** Payloads numbered from 0, in order of time; the numbers fit a u16. */
  ghost predicate IsClip(clip: seq<seq<seq<u8>>>) {
    && |clip| < 0x1_0000
    && (forall n :: 0 <= n < |clip| ==> GoodPayload(clip[n]))
    && (forall m, n :: 0 <= m <= n < |clip| ==> Time(clip, m) <= Time(clip, n))
  }

  /** A payload restamped. */
  function Restamped(es: seq<seq<u8>>, t: u64): seq<seq<u8>>
    requires |es| > 0 && IsTimecode(es[0])
  {
    [Restamp(es[0], t)] + es[1..]
  }

  /** Payload n as a node stores whose own time base is offset. */
  ghost function Shown(clip: seq<seq<seq<u8>>>, n: nat, offset: u64): (es: seq<seq<u8>>)
    requires IsClip(clip) && n < |clip| && offset <= Time(clip, n)
    ensures |es| > 0
  {
    Restamped(clip[n], Time(clip, n) - offset)
  }

  /** Restamping changes no element size and keeps the payload good; the time told is the
      original one relative to the offset. */
  lemma ShownIsGood(clip: seq<seq<seq<u8>>>, n: nat, offset: u64)
    requires IsClip(clip) && n < |clip| && offset <= Time(clip, n)
    ensures GoodPayload(Shown(clip, n, offset))
    ensures Sizes(Shown(clip, n, offset)) == Sizes(clip[n])
    ensures Stamp(Shown(clip, n, offset)[0]) + offset == Time(clip, n)
    ensures |Flat(Shown(clip, n, offset))| == |Flat(clip[n])|
  {
    hide IsElement, Stamp;
    var es := clip[n];
    assert GoodPayload(es);
    var t := Time(clip, n) - offset;
    RestampKeepsShape(es[0], t);
    StampFits(es[0]);
    hide IsTimecode, Restamp, Value;
    var r := Restamped(es, t);
    TimecodeIsElement(r[0]);
    assert Sizes(r) == Sizes(es);
    assert forall i :: 0 < i < |es| ==> r[i] == es[i];
    FlatSize(r);
    FlatSize(es);
  }

  lemma StampFits(e: seq<u8>)
    requires IsTimecode(e)
    ensures Stamp(e) < Pow256(|Value(e)|)
  {
  }

  lemma TimecodeIsElement(e: seq<u8>)
    requires IsTimecode(e)
    ensures IsElement(e) && e[0] == TIMECODE_ID
  {
  }

  /** The origin's own payloads are the ones shown at offset 0. */
  lemma ShownAtOrigin(clip: seq<seq<seq<u8>>>, n: nat)
    requires IsClip(clip) && n < |clip|
    ensures Shown(clip, n, 0) == clip[n]
  {
    var e := clip[n][0];
    assert GoodPayload(clip[n]);
    TimecodeShape(e);
    ToFromBE(Value(e));
    assert Restamp(e, Stamp(e)) == e;
  }

  /** Restamping a restamped payload. */
  lemma ShownTwice(clip: seq<seq<seq<u8>>>, n: nat, a: u64, b: u64)
    requires IsClip(clip) && n < |clip| && a <= Time(clip, n) && b <= Time(clip, n)
    ensures IsTimecode(Shown(clip, n, a)[0])
    ensures Restamped(Shown(clip, n, a), Time(clip, n) - b) == Shown(clip, n, b)
    ensures Shown(clip, n, b)[0] == Restamp(Shown(clip, n, a)[0], Time(clip, n) - b)
  {
    hide IsElement;
    assert GoodPayload(clip[n]);
    RestampKeepsShape(clip[n][0], Time(clip, n) - a);
  }

  /** Two showings of a payload differ only inside the Timecode element. */
  lemma ShownDiffer(clip: seq<seq<seq<u8>>>, n: nat, a: u64, b: u64)
    requires IsClip(clip) && n < |clip| && a <= Time(clip, n) && b <= Time(clip, n)
    ensures var x, y := Shown(clip, n, a), Shown(clip, n, b);
            && |x[0]| == |y[0]| == |clip[n][0]| <= |Flat(x)| == |Flat(y)|
            && Flat(x)[|x[0]|..] == Flat(y)[|y[0]|..]
            && Flat(x)[..|x[0]|] == x[0]
  {
    var x, y := Shown(clip, n, a), Shown(clip, n, b);
    assert GoodPayload(clip[n]);
    ShownIsGood(clip, n, a);
    ShownIsGood(clip, n, b);
    hide Flat, Restamp, IsTimecode, Stamp;
    FlatFirst(x);
    FlatFirst(y);
    assert x[1..] == y[1..];
  }

  lemma FlatFirst(es: seq<seq<u8>>)
    requires |es| > 0
    ensures |es[0]| <= |Flat(es)| && Flat(es)[..|es[0]|] == es[0] && Flat(es)[|es[0]|..] == Flat(es[1..])
  {
  }

  /** The blocks of payload n, the same at every node. */
  ghost function BlocksOf(clip: seq<seq<seq<u8>>>, n: nat): (bs: seq<BlockInfo>)
    requires IsClip(clip) && n < |clip|
    ensures |bs| > 0
  {
    assert GoodPayload(clip[n]);
    CutAll(ClusterStart(n), 0, Sizes(clip[n]))
  }

  /** The partition theorem for payload n. */
  lemma BlocksOfShape(clip: seq<seq<seq<u8>>>, n: nat)
    requires IsClip(clip) && n < |clip|
    ensures var bs := BlocksOf(clip, n);
            && |bs| > 0
            && (forall i :: 0 <= i < |bs| ==> bs[i].number == i + 1 && bs[i].clusterSeq == n && Wellmade(bs[i], n))
            && Total(bs) == |Flat(clip[n])|
            && bs[0].bytes >= |clip[n][0]|
  {
    assert GoodPayload(clip[n]);
    FlatSize(clip[n]);
    ExactPartition(n, Sizes(clip[n]));
    FirstBlockHasTimecode(n, clip[n]);
  }

  lemma FirstBlockHasTimecode(n: u16, es: seq<seq<u8>>)
    requires IsPayload(es)
    ensures Cut(ClusterStart(n), 0, Sizes(es)).info.bytes >= |es[0]|
    ensures CutAll(ClusterStart(n), 0, Sizes(es))[0] == Cut(ClusterStart(n), 0, Sizes(es)).info
  {
    hide IsElement, Flat;
    var k := Greedy(Sizes(es), MAX_BLOCK_BYTES);
    SumAtLeast(Sizes(es), k);
    hide CutAll;
    CutAllUnfold(ClusterStart(n), 0, Sizes(es));
  }

  /** Packet j of payload n, sent by a node whose time base is offset. */
  ghost function PacketOf(clip: seq<seq<seq<u8>>>, n: nat, offset: u64, j: nat): seq<u8>
    requires IsClip(clip) && n < |clip| && offset <= Time(clip, n) && j < |BlocksOf(clip, n)|
  {
    var bs := BlocksOf(clip, n);
    BlocksOfShape(clip, n);
    TotalSplit(bs, j);
    ShownIsGood(clip, n, offset);
    Encode(bs[j]) + Flat(Shown(clip, n, offset))[Total(bs[..j])..Total(bs[..j]) + bs[j].bytes]
  }

  lemma {:induction false} DealAt(ahead: seq<u8>, bs: seq<BlockInfo>, j: nat)
    requires Total(bs) <= |ahead| && j < |bs|
    ensures Total(bs[..j]) + bs[j].bytes <= |ahead|
    ensures Deal(ahead, bs)[j] == Encode(bs[j]) + ahead[Total(bs[..j])..Total(bs[..j]) + bs[j].bytes]
  {
    hide Encode, Deal, Total;
    DealFirst(ahead, bs);
    if j == 0 {
      NoTotal(bs);
    } else {
      DealAt(ahead[bs[0].bytes..], bs[1..], j - 1);
      TotalFirst(bs, j);
      SliceOfSuffix(ahead, bs[0].bytes, Total(bs[1..][..j - 1]), Total(bs[1..][..j - 1]) + bs[j].bytes);
    }
  }

  lemma DealFirst(ahead: seq<u8>, bs: seq<BlockInfo>)
    requires bs != [] && Total(bs) <= |ahead|
    ensures Total(bs) == bs[0].bytes + Total(bs[1..])
    ensures Deal(ahead, bs) == [Encode(bs[0]) + ahead[..bs[0].bytes]] + Deal(ahead[bs[0].bytes..], bs[1..])
  {
    hide Encode;
  }

  lemma NoTotal(bs: seq<BlockInfo>)
    ensures Total(bs[..0]) == 0
  {
  }

  lemma TotalFirst(bs: seq<BlockInfo>, j: nat)
    requires 0 < j <= |bs|
    ensures Total(bs[..j]) == bs[0].bytes + Total(bs[1..][..j - 1])
  {
    assert bs[..j][1..] == bs[1..][..j - 1];
  }

  lemma GoodIsPayload(es: seq<seq<u8>>)
    requires GoodPayload(es)
    ensures IsPayload(es)
  {
  }

  /** Relay transparency for one cluster: whatever its time base, a node sends payload n as
      the same blocks; packet j is the origin's descriptor j and the bytes at its place. */
  lemma PacketsAreTheClips(clip: seq<seq<seq<u8>>>, n: nat, offset: u64)
    requires IsClip(clip) && n < |clip| && offset <= Time(clip, n)
    ensures GoodPayload(Shown(clip, n, offset))
    ensures var packets := Packets(n, Shown(clip, n, offset));
            && |packets| == |BlocksOf(clip, n)|
            && forall j :: 0 <= j < |packets| ==> packets[j] == PacketOf(clip, n, offset, j)
  {
    hide Flat, CutAll, Encode, Shown, IsClip, GoodPayload, Wellmade;
    ShownIsGood(clip, n, offset);
    var es := Shown(clip, n, offset);
    GoodIsPayload(es);
    var bs := BlocksOf(clip, n);
    assert [] + Flat(es) == Flat(es);
    BlocksOfShape(clip, n);
    forall j | 0 <= j < |bs| ensures Packets(n, es)[j] == PacketOf(clip, n, offset, j) {
      DealAt(Flat(es), bs, j);
    }
  }
}
