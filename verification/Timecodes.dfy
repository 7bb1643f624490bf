/** Timecode elements and the rewriting ChangeTimecode does to them in a received packet. */
module Timecodes {
  import opened Words
  import opened Ebml
  import opened Plan
  import opened Clusters

  /** A Timecode element whose value a u64 holds. */
  predicate IsTimecode(e: seq<u8>) {
    && IsElement(e) && e[0] == TIMECODE_ID
    && ChankAt(e).dataBytes <= 8
  }

  lemma TimecodeShape(e: seq<u8>)
    requires IsTimecode(e)
    ensures var c := ChankAt(e);
            && c.id == TIMECODE_ID
            && c.dataHeaderPosition == HeaderBytes(e) && c.dataHeaderPosition + c.dataBytes == |e|
            && |e| <= MAX_TIMECODE
  {
    ElementHeader(e);
    NoWrap(e);
  }

  function Value(e: seq<u8>): seq<u8>
    requires IsTimecode(e)
  {
    TimecodeShape(e);
    e[HeaderBytes(e)..]
  }

  /** The time a Timecode element tells. */
  function Stamp(e: seq<u8>): (t: u64)
    requires IsTimecode(e)
    ensures t < Pow256(|Value(e)|)
  {
    StampBound(e);
    FromBE(Value(e))
  }

  lemma StampBound(e: seq<u8>)
    requires IsTimecode(e)
    ensures FromBE(Value(e)) < Pow256(|Value(e)|) <= TWO_64
  {
    TimecodeShape(e);
    FromBEBound(Value(e));
    Pow256Table();
    var n := |Value(e)|;
    assert n == 0 || n == 1 || n == 2 || n == 3 || n == 4 || n == 5 || n == 6 || n == 7 || n == 8;
  }

  /** The element with the low bytes of t as its value, in the original width. */
  function Restamp(e: seq<u8>, t: u64): (r: seq<u8>)
    requires IsTimecode(e)
    ensures |r| == |e|
  {
    TimecodeShape(e);
    e[..HeaderBytes(e)] + ToBE(t, |Value(e)|)
  }

  /** Restamping keeps everything the segmenter looks at. */
  lemma RestampKeepsShape(e: seq<u8>, t: u64)
    requires IsTimecode(e)
    ensures IsTimecode(Restamp(e, t)) && |Value(Restamp(e, t))| == |Value(e)|
    ensures t < Pow256(|Value(e)|) ==> Stamp(Restamp(e, t)) == t
    ensures forall u: u64 :: Restamp(Restamp(e, t), u) == Restamp(e, u)
  {
    var r := Restamp(e, t);
    var h := HeaderBytes(e);
    TimecodeShape(e);
    assert r[..h] == e[..h];
    ChankAtLocal(e, r);
    assert r[0] == r[..h][0] && r[1] == r[..h][1];
    assert Value(r) == ToBE(t, |Value(e)|);
    if t < Pow256(|Value(e)|) {
      FromToBE(t, |Value(e)|);
    }
  }

  /** The value ChangeTimecode computes: the packet's time made absolute with the parent's
      offset, then relative to the node's own. */
  function Retimed(stamp: u64, nodeOffset: u64, offset: u64): u64 {
    U64(stamp + nodeOffset - offset)
  }

  lemma RetimedTwice(stamp: u64, nodeOffset: u64, offset: u64)
    ensures U64(U64(stamp + nodeOffset) - offset) == Retimed(stamp, nodeOffset, offset)
  {
    if stamp + nodeOffset >= TWO_64 {
      assert U64(stamp + nodeOffset) == stamp + nodeOffset - TWO_64;
    }
  }

  /** While times are not below the node's own offset nothing wraps, and adding the offset
      back gives the absolute time. */
  lemma RetimedIsRelative(stamp: u64, nodeOffset: u64, offset: u64)
    requires offset <= stamp + nodeOffset < TWO_64
    ensures Retimed(stamp, nodeOffset, offset) + offset == stamp + nodeOffset
  {
  }

  /** A packet payload ChangeTimecode can work on: an element whose value is in the packet. */
  predicate Retimable(data: seq<u8>) {
    && HasHeader(data)
    && (ChankAt(data).id == TIMECODE_ID ==>
          ChankAt(data).dataBytes <= 8 && ChankAt(data).dataHeaderPosition + ChankAt(data).dataBytes <= |data|)
  }

  /** The value bytes of the Timecode at the start of a packet payload. */
  function PacketStamp(data: seq<u8>): (t: u64)
    requires Retimable(data) && ChankAt(data).id == TIMECODE_ID
  {
    var c := ChankAt(data);
    var value := data[c.dataHeaderPosition..c.dataHeaderPosition + c.dataBytes];
    FromBEBound(value);
    SmallPow256(|value|);
    FromBE(value)
  }

  lemma SmallPow256(n: nat)
    requires n <= 8
    ensures Pow256(n) <= TWO_64
  {
    Pow256Table();
    assert n == 0 || n == 1 || n == 2 || n == 3 || n == 4 || n == 5 || n == 6 || n == 7 || n == 8;
  }

  /** The packet payload with the value replaced. */
  function WithStamp(data: seq<u8>, t: u64): (r: seq<u8>)
    requires Retimable(data) && ChankAt(data).id == TIMECODE_ID
    ensures |r| == |data|
  {
    var c := ChankAt(data);
    data[..c.dataHeaderPosition] + ToBE(t, c.dataBytes) + data[c.dataHeaderPosition + c.dataBytes..]
  }

  /** In a packet that starts with a whole Timecode element, exactly that element is
      restamped. */
  lemma PacketTimecode(e: seq<u8>, rest: seq<u8>, t: u64)
    requires IsTimecode(e)
    ensures Retimable(e + rest) && ChankAt(e + rest).id == TIMECODE_ID
    ensures PacketStamp(e + rest) == Stamp(e)
    ensures WithStamp(e + rest, t) == Restamp(e, t) + rest
  {
    TimecodeShape(e);
    var h := HeaderBytes(e);
    assert (e + rest)[..h] == e[..h];
    ChankAtLocal(e, e + rest);
    assert (e + rest)[h..h + |Value(e)|] == Value(e);
    assert (e + rest)[h + |Value(e)|..] == rest;
  }
}
