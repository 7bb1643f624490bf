/** Receiving from a parent that told its time base in a message: exactly when the times come
    out right, for a node that joins and for one that changes parents.
  */
module Adoption {
  import opened Words
  import opened Ebml
  import opened Blocks
  import opened Clusters
  import opened Timecodes
  import opened Partition
  import opened Disk
  import opened Clips
  import opened Peers
  import opened Assembly
  import opened Reception
  import opened RoundTrip
  import opened Rebasing
  import opened StatusMessages
  import opened TimeBases

  /** NodeAccept installs what the parent's Accept message told; AssembleBlock then takes its
      packet. */
  ghost function Received(s: State, offset: u64, p: seq<u8>): State
    requires offset < TWO_32
  {
    var from := s.(nodeOffset := Told(offset));
    if FileOk(from) && |from.infos| > 0 && WellFormed(p) then Assemble(from, p) else s
  }

  /** The parent's time base does no harm to packet j of cluster n: the packet carries no time,
      or the base is below 2^31, or the Timecode has at most four value bytes. */
  ghost predicate BaseKept(clip: seq<seq<seq<u8>>>, n: nat, j: nat, offset: u64)
    requires n < |clip| && GoodPayload(clip[n])
  {
    j > 0 || offset < 0x8000_0000 || |Value(clip[n][0])| <= 4
  }

  /** A node that has its own time base uses its parent's only to restamp first packets. */
  lemma SameAssembled(s: State, a: u64, b: u64, p: seq<u8>)
    requires s.hasOffset && FileOk(s) && |s.infos| > 0 && WellFormed(p) && IsBlock(p)
    requires Decode(p).number == FIRST_BLOCK_SEQ ==> SameStamp(s, a, b, p[BLOCKINFO_BYTES..])
    ensures Assemble(s.(nodeOffset := a), p) == Assemble(s.(nodeOffset := b), p).(nodeOffset := a)
  {
    hide ChankAt, HasHeader, PacketStamp, WithStamp, Decode, Retimed, Prepare, Store, Retimable;
    var info, data := Decode(p), p[BLOCKINFO_BYTES..];
    WellFormedParts(p);
    var x, y := Prepare(s.(nodeOffset := a), info), Prepare(s.(nodeOffset := b), info);
    PrepareBase(s, a, s.offset, info);
    PrepareBase(s, b, s.offset, info);
    PrepareKeepsTimes(s, info);
    var w := Prepare(s, info);
    var bytes := if info.number == FIRST_BLOCK_SEQ then RetimedData(Retime(y, data), data) else data;
    StoreBase(w, a, s.offset, info, bytes);
    StoreBase(w, b, s.offset, info, bytes);
  }

  predicate SameStamp(s: State, a: u64, b: u64, data: seq<u8>) {
    Retimable(data) && ChankAt(data).id == TIMECODE_ID
    && WithStamp(data, Retimed(PacketStamp(data), a, s.offset))
       == WithStamp(data, Retimed(PacketStamp(data), b, s.offset))
  }

  lemma StampBytes(data: seq<u8>, t: u64, u: u64)
    requires Retimable(data) && ChankAt(data).id == TIMECODE_ID
    ensures ChankAt(data).dataBytes <= 8
    ensures WithStamp(data, t) == WithStamp(data, u)
            <==> ToBE(t, ChankAt(data).dataBytes) == ToBE(u, ChankAt(data).dataBytes)
  {
    hide ChankAt, HasHeader, ToBE;
    var h, k := ChankAt(data).dataHeaderPosition, ChankAt(data).dataBytes;
    assert WithStamp(data, t)[h..h + k] == ToBE(t, k);
    assert WithStamp(data, u)[h..h + k] == ToBE(u, k);
  }

  /** The first packet's Timecode has as many value bytes as the original. */
  lemma FirstWidth(clip: seq<seq<seq<u8>>>, n: nat, offset: u64)
    requires IsClip(clip) && n < |clip| && offset <= Time(clip, n)
    ensures GoodPayload(clip[n])
    ensures var data := PacketBytes(clip, n, offset, 0);
            && Retimable(data) && HasHeader(data) && ChankAt(data).id == TIMECODE_ID
            && ChankAt(data).dataBytes == |Value(clip[n][0])| <= 8
  {
    hide Flat, IsClip, GoodPayload, BlocksOf, Wellmade, Restamp, Retimable, HasHeader;
    LaterThan(clip, n, n);
    var x := Shown(clip, n, offset);
    var k := BlocksOf(clip, n)[0].bytes;
    BlocksOfShape(clip, n);
    ShownIsGood(clip, n, offset);
    ShownDiffer(clip, n, offset, offset);
    FirstBytes(clip, n, offset);
    PrefixGrows(Flat(x), |x[0]|, k);
    PayloadTimecode(clip[n]);
    WidthKept(clip[n][0], Time(clip, n) - offset, Flat(x)[|x[0]|..k]);
  }

  lemma PayloadTimecode(es: seq<seq<u8>>)
    requires GoodPayload(es)
    ensures |es| > 0 && IsTimecode(es[0])
  {
  }

  lemma WidthKept(e: seq<u8>, t: u64, rest: seq<u8>)
    requires IsTimecode(e)
    ensures IsTimecode(Restamp(e, t)) && |Restamp(e, t)| == |e|
    ensures var data := Restamp(e, t) + rest;
            && Retimable(data) && HasHeader(data) && ChankAt(data).id == TIMECODE_ID
            && ChankAt(data).dataBytes == |Value(e)| <= 8
  {
    hide ChankAt, HasHeader, ToBE;
    RestampKeepsShape(e, t);
    TimecodeShape(Restamp(e, t));
    PacketTimecode(Restamp(e, t), rest, 0);
    TimecodeShape(e);
    var r := Restamp(e, t);
    assert (r + rest)[..HeaderBytes(r)] == r[..HeaderBytes(r)];
    ChankAtLocal(r, r + rest);
  }

  /** A later packet of a cluster is received alike whatever base the parent told. */
  lemma PacketReceived(s: State, offset: u64, header: seq<u8>, clip: seq<seq<seq<u8>>>, first: nat, n: nat, j: nat)
    requires IsClip(clip) && Receiving(s, header, clip, first, n, j) && |header| < 0x1_0000
    requires n < |clip| && j < |BlocksOf(clip, n)| && offset <= Time(clip, n) && offset < TWO_32
    ensures Receiving(Received(s, offset, PacketOf(clip, n, offset, j)), header, clip, first, n, j + 1)
  {
    hide IsClip, Receiving, BlocksOf, WellFormed, FileOk, GoodPayload, Time, Assemble, PacketOf, IsBlock, Decode, Told,
         Wellmade, ChankAt, Retimable, PacketStamp;
    var p := PacketOf(clip, n, offset, j);
    ReceivingFields(s, header, clip, first, n, j);
    LaterThan(clip, n, n);
    SameReceiving(s, offset, header, clip, first, n, j);
    NextStep(s.(nodeOffset := offset), header, clip, first, n, j);
    PacketShape(clip, n, offset, j);
    BlocksOfShape(clip, n);
    SameFileOk(s, offset);
    SameFileOk(s, Told(offset));
    SameAssembled(s, Told(offset), offset, p);
    SameReceiving(Assemble(s.(nodeOffset := offset), p), Told(offset), header, clip, first, n, j + 1);
  }

  /** The first packet of the next cluster is received as it should be exactly when the base
      the parent told does it no harm: below 2^31, or at most four bytes of Timecode. */
  lemma ClusterReceived(s: State, offset: u64, header: seq<u8>, clip: seq<seq<seq<u8>>>, first: nat, n: nat)
    requires IsClip(clip) && n + 1 < |clip| && Receiving(s, header, clip, first, n, |BlocksOf(clip, n)|)
    requires |header| < 0x1_0000 && offset <= Time(clip, n + 1) && offset < TWO_32
    ensures GoodPayload(clip[n + 1])
    ensures Receiving(Received(s, offset, PacketOf(clip, n + 1, offset, 0)), header, clip, first, n + 1, 1)
            <==> BaseKept(clip, n + 1, 0, offset)
  {
    hide IsClip, Receiving, BlocksOf, WellFormed, FileOk, GoodPayload, Time, Assemble, PacketOf, IsBlock, Decode, Told,
         Wellmade, ChankAt, Retimable, PacketStamp, PacketBytes, WithStamp, Retimed, BaseKept;
    var p := PacketOf(clip, n + 1, offset, 0);
    LaterThan(clip, n + 1, n + 1);
    ReceivingFields(s, header, clip, first, n, |BlocksOf(clip, n)|);
    SameFileOk(s, Told(offset));
    PacketShape(clip, n + 1, offset, 0);
    BlocksOfShape(clip, n + 1);
    StampsAgree(clip, first, n + 1, offset);
    if BaseKept(clip, n + 1, 0, offset) {
      SameReceiving(s, offset, header, clip, first, n, |BlocksOf(clip, n)|);
      RollStep(s.(nodeOffset := offset), header, clip, first, n);
      SameFileOk(s, offset);
      SameAssembled(s, Told(offset), offset, p);
      SameReceiving(Assemble(s.(nodeOffset := offset), p), Told(offset), header, clip, first, n + 1, 1);
    } else {
      WrongOnFile(s, offset, header, clip, first, n);
    }
  }

  lemma ReceivingFields(s: State, header: seq<u8>, clip: seq<seq<seq<u8>>>, first: nat, n: nat, j: nat)
    requires IsClip(clip) && Receiving(s, header, clip, first, n, j)
    ensures first <= n < |clip| && 1 <= j <= |BlocksOf(clip, n)| && s.running && s.hasOffset
    ensures GoodPayload(clip[first]) && s.offset == Time(clip, first)
    ensures FileOk(s) && |s.infos| > 0 && s.prevBlock.clusterSeq == n
  {
    hide BlocksOf, GoodPayload, Time, ShapeAt;
    var shape := ShapeAt(clip, first, n, j);
    PreparedFileOk(s, header, shape);
  }

  lemma SameFileOk(s: State, offset: u64)
    ensures FileOk(s.(nodeOffset := offset)) == FileOk(s)
  {
  }

  lemma SameReceiving(s: State, offset: u64, header: seq<u8>, clip: seq<seq<seq<u8>>>, first: nat, n: nat, j: nat)
    requires IsClip(clip) && Receiving(s, header, clip, first, n, j)
    ensures Receiving(s.(nodeOffset := offset), header, clip, first, n, j)
  {
    hide ShapeAt, Layout, BlocksOf, IsClip, GoodPayload, Time;
  }

  /** The stamp written with the base told is the one due exactly when the base does no harm. */
  lemma StampsAgree(clip: seq<seq<seq<u8>>>, first: nat, n: nat, offset: u64)
    requires IsClip(clip) && first <= n < |clip| && offset <= Time(clip, n) && offset < TWO_32
    ensures GoodPayload(clip[first]) && GoodPayload(clip[n]) && Time(clip, first) <= Time(clip, n)
    ensures var data := PacketBytes(clip, n, offset, 0);
            && Retimable(data) && ChankAt(data).id == TIMECODE_ID
            && var own := Time(clip, first);
               var due := WithStamp(data, Retimed(PacketStamp(data), offset, own));
               && due == PacketBytes(clip, n, own, 0)
               && (WithStamp(data, Retimed(PacketStamp(data), Told(offset), own)) == due
                   <==> BaseKept(clip, n, 0, offset))
  {
    hide IsClip, GoodPayload, Time, PacketBytes, ChankAt, Retimable, PacketStamp, WithStamp, Told, Value, Retimed, ToBE;
    LaterThan(clip, first, n);
    var data := PacketBytes(clip, n, offset, 0);
    var own := Time(clip, first);
    FirstPacket(clip, n, offset, own);
    FirstWidth(clip, n, offset);
    var t := PacketStamp(data);
    RetimedIs(t, offset, own);
    StampBytes(data, Retimed(t, Told(offset), own), t + offset - own);
    WrittenTime(t, offset, own, ChankAt(data).dataBytes);
  }

  lemma RetimedIs(stamp: u64, offset: u64, own: u64)
    requires own <= stamp + offset < TWO_64
    ensures Retimed(stamp, offset, own) == stamp + offset - own
  {
  }

  /** If it is not, the file shows the wrong bytes. */
  lemma WrongOnFile(s: State, offset: u64, header: seq<u8>, clip: seq<seq<seq<u8>>>, first: nat, n: nat)
    requires IsClip(clip) && n + 1 < |clip| && Receiving(s, header, clip, first, n, |BlocksOf(clip, n)|)
    requires |header| < 0x1_0000 && offset <= Time(clip, n + 1) && offset < TWO_32
    requires GoodPayload(clip[n + 1]) && !BaseKept(clip, n + 1, 0, offset)
    ensures !Receiving(Received(s, offset, PacketOf(clip, n + 1, offset, 0)), header, clip, first, n + 1, 1)
  {
    hide IsClip, Receiving, BlocksOf, WellFormed, FileOk, GoodPayload, Time, Accept, PacketOf, IsBlock, Decode, Told,
         Wellmade, ChankAt, Retimable, PacketStamp, PacketBytes, WithStamp, Retimed, BaseKept, Holds, Written, ShapeAt,
         IsOld, Assemble;
    var from := s.(nodeOffset := Told(offset));
    var p := PacketOf(clip, n + 1, offset, 0);
    var bytes := PacketBytes(clip, n + 1, offset, 0);
    ReceivingFields(s, header, clip, first, n, |BlocksOf(clip, n)|);
    SameFileOk(s, Told(offset));
    SameReceiving(s, Told(offset), header, clip, first, n, |BlocksOf(clip, n)|);
    var shape := HeldShape(from, header, clip, first, n, |BlocksOf(clip, n)|);
    PacketShape(clip, n + 1, offset, 0);
    BlocksOfShape(clip, n + 1);
    NotOld(from, header, clip, first, n);
    StampsAgree(clip, first, n + 1, offset);
    WrittenCases(from, p, header, shape);
    AcceptHolds(from, p, header, shape);
    AcceptFields(from, p, header, shape);
    AssembleIsAccept(from, p);
    var w := Accept(from, p);
    var own := Time(clip, first);
    assert Written(from, p) == WithStamp(bytes, Retimed(PacketStamp(bytes), Told(offset), own))[..|bytes|];
    if Receiving(w, header, clip, first, n + 1, 1) {
      OpenIs(w, header, clip, first, n + 1);
      OpenUnique(w, header, Grown(from, p, shape),
                 Shape(StoredPayloads(clip, first, n + 1), PacketBytes(clip, n + 1, own, 0)));
      assert false;
    }
  }

  lemma AssembleIsAccept(s: State, p: seq<u8>)
    requires FileOk(s) && |s.infos| > 0 && WellFormed(p) && IsBlock(p) && !IsOld(s, Decode(p))
    ensures Assemble(s, p) == Accept(s, p)
  {
    hide Accept, Decode, WellFormed;
  }

  lemma HeldShape(s: State, header: seq<u8>, clip: seq<seq<seq<u8>>>, first: nat, n: nat, j: nat) returns (shape: Shape)
    requires IsClip(clip) && Receiving(s, header, clip, first, n, j)
    ensures Holds(s, header, shape) && (|header| < 0x1_0000 ==> |s.file| < TWO_56)
  {
    hide BlocksOf, GoodPayload, Time, ShapeAt, Holds;
    shape := ShapeAt(clip, first, n, j);
    if |header| < 0x1_0000 {
      FileBound(s, header, clip, first, n, j);
    }
  }

  lemma NotOld(s: State, header: seq<u8>, clip: seq<seq<seq<u8>>>, first: nat, n: nat)
    requires IsClip(clip) && n + 1 < |clip| && Receiving(s, header, clip, first, n, |BlocksOf(clip, n)|)
    ensures forall info: BlockInfo :: info.clusterSeq == n + 1 ==> !IsOld(s, info)
  {
    hide BlocksOf, GoodPayload, Time, ShapeAt, Holds;
  }

  lemma OpenIs(s: State, header: seq<u8>, clip: seq<seq<seq<u8>>>, first: nat, n: nat)
    requires IsClip(clip) && Receiving(s, header, clip, first, n, 1)
    ensures first <= n < |clip| && GoodPayload(clip[first]) && GoodPayload(clip[n])
    ensures Time(clip, first) <= Time(clip, n)
    ensures Holds(s, header, Shape(StoredPayloads(clip, first, n), PacketBytes(clip, n, Time(clip, first), 0)))
  {
    hide GoodPayload, Time, ShapeAt, Holds, StoredPayloads, PacketBytes, IsClip, BlocksOf;
    LaterThan(clip, first, n);
    ShapeStarts(clip, first, n, Shape([], []));
  }

  /** The bytes behind the open cluster's header are what the file shows there. */
  lemma OpenUnique(s: State, header: seq<u8>, a: Shape, b: Shape)
    requires Holds(s, header, a) && Holds(s, header, b)
    ensures a.open == b.open
  {
    hide Region, Closed, OpenHead;
  }

  /** The first packet a joining node gets fixes its time base: rightly exactly when the base
      its parent told it is below 2^31. */
  lemma FirstReceived(s: State, offset: u64, header: seq<u8>, clip: seq<seq<seq<u8>>>, first: nat)
    requires IsClip(clip) && first < |clip| && Waiting(s, header, first) && |header| < 0x1_0000
    requires offset <= Time(clip, first) && offset < TWO_32 && s.nodeOffset == Told(offset)
    ensures GoodPayload(clip[first]) && FileOk(s) && |s.infos| > 0
    ensures var p := PacketOf(clip, first, offset, 0);
            && WellFormed(p)
            && var w := Assemble(s, p);
               w.hasOffset && (w.offset == Time(clip, first) <==> offset < 0x8000_0000)
  {
    hide IsClip, BlocksOf, WellFormed, FileOk, GoodPayload, Time, Assemble, Accept, PacketOf, IsBlock, Decode, Told,
         Wellmade, ChankAt, Retimable, PacketStamp, IsOld, Holds;
    var p := PacketOf(clip, first, offset, 0);
    LaterThan(clip, first, first);
    WaitingBound(s, header, first);
    PacketShape(clip, first, offset, 0);
    BlocksOfShape(clip, first);
    WaitingNotOld(s, header, first);
    AssembleIsAccept(s, p);
    AcceptFields(s, p, header, Shape([], []));
    FirstBase(PacketStamp(p[BLOCKINFO_BYTES..]), offset);
  }

  lemma WaitingNotOld(s: State, header: seq<u8>, first: nat)
    requires Waiting(s, header, first)
    ensures forall info: BlockInfo :: info.clusterSeq == first && info.number == FIRST_BLOCK_SEQ ==> !IsOld(s, info)
    ensures Holds(s, header, Shape([], [])) && s.running && !s.hasOffset
  {
    hide Holds;
  }

  /** The node has received j blocks of cluster n as it should, whatever its own time base. */
  ghost predicate HasWritten(s: State, header: seq<u8>, clip: seq<seq<seq<u8>>>, first: nat, n: nat, j: nat)
    requires IsClip(clip)
  {
    first < |clip| && GoodPayload(clip[first])
    && Receiving(s.(offset := Time(clip, first)), header, clip, first, n, j)
  }

  lemma WrittenReceiving(s: State, header: seq<u8>, clip: seq<seq<seq<u8>>>, first: nat, n: nat, j: nat)
    requires IsClip(clip) && HasWritten(s, header, clip, first, n, j)
    ensures first < |clip| && GoodPayload(clip[first])
    ensures Receiving(s, header, clip, first, n, j) <==> s.offset == Time(clip, first)
  {
    hide IsClip, BlocksOf, GoodPayload, Time, ShapeAt, Holds;
    assert s.offset == Time(clip, first) ==> s.(offset := Time(clip, first)) == s;
  }

  /** A joining node that is fed a stream has it on file as it should, whatever it was told of
      its parent's time base: that cancels out. Its own base is off by as much as what it was
      told, and so right exactly when that was. */
  lemma StreamReceived(s: State, offset: u64, header: seq<u8>, clip: seq<seq<seq<u8>>>, first: nat, last: nat)
    requires IsClip(clip) && first <= last < |clip| && Waiting(s, header, first) && |header| < 0x1_0000
    requires GoodPayload(clip[first]) && offset <= Time(clip, first)
    ensures FileOk(s) && |s.infos| > 0
    ensures forall p :: p in LiveStream(clip, offset, first, last) ==> WellFormed(p)
    ensures var w := Feed(s, LiveStream(clip, offset, first, last));
            && HasWritten(w, header, clip, first, last, |BlocksOf(clip, last)|)
            && w.offset == U64(Time(clip, first) - offset + s.nodeOffset)
            && (w.offset == Time(clip, first) <==> s.nodeOffset == offset)
  {
    hide IsClip, BlocksOf, WellFormed, FileOk, GoodPayload, Time, Assemble, PacketOf, Receiving, Waiting, LiveStream,
         Feed, U64;
    var ps := LiveStream(clip, offset, first, last);
    SameWaiting(s, offset, header, first);
    var t := s.(nodeOffset := offset);
    StreamIsReceived(t, header, clip, first, last);
    WaitingSame(s, offset, header, first);
    FeedSame(s, t, ps);
    FeedKeepsBase(s, ps);
    FeedKeepsBase(t, ps);
    var v, w := Feed(s, ps), Feed(t, ps);
    ReceivingFields(w, header, clip, first, last, |BlocksOf(clip, last)|);
    SameReceiving(w, v.nodeOffset, header, clip, first, last, |BlocksOf(clip, last)|);
    assert v.(offset := Time(clip, first)) == w.(nodeOffset := v.nodeOffset);
    Apart(Time(clip, first), v.offset, offset, s.nodeOffset);
  }

  lemma WaitingSame(s: State, offset: u64, header: seq<u8>, first: nat)
    requires Waiting(s, header, first)
    ensures Same(s, s.(nodeOffset := offset)) && FileOk(s.(nodeOffset := offset)) == FileOk(s)
  {
    hide Holds;
  }

  lemma Apart(time: u64, own: u64, base: u64, told: u64)
    requires base <= time && U64(told - own) == U64(base - time)
    ensures own == U64(time - base + told) && (own == time <==> told == base)
  {
  }

  lemma SameWaiting(s: State, offset: u64, header: seq<u8>, first: nat)
    requires Waiting(s, header, first)
    ensures Waiting(s.(nodeOffset := offset), header, first)
  {
  }
}
