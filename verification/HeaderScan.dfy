/** Finding where the WebM header ends: AnalyzeChankToWebMHeader walks the elements at the
    start of a file up to the first Cluster, entering a Segment instead of skipping it.
  */
module HeaderScan {
  import opened Words
  import opened Ebml

  const KNOWN_IDS: set<u32> := {EBML_ID, SEGMENT_ID, SEEKHEAD_ID, VOID_ID, INFO_ID, TRACKS_ID}

  /** How the walk ends: at a Cluster, with status -1 at an element longer than the file, with
      -2 at an unknown ID, with 0 at a zero byte; or it leaves the buffer, or its u64 position
      wraps to where it does not advance. */
  datatype Walked = AtCluster(at: nat) | TooLong | Unknown | Nothing | Outside | Backwards

  /** How far the element at the start of buf takes the walk: behind it, or for a Segment of
      known size behind its header only. */
  function Stride(buf: seq<u8>): u64
    requires HasHeader(buf)
  {
    var c := ChankAt(buf);
    if c.id == SEGMENT_ID && c.dataBytes != 0 then c.dataHeaderPosition else c.chankBytes
  }

  /** The test against the file's length, which a Segment of known size escapes. */
  predicate Fits(buf: seq<u8>, total: nat)
    requires HasHeader(buf)
  {
    var c := ChankAt(buf);
    (c.id == SEGMENT_ID && c.dataBytes != 0) || c.chankBytes <= total
  }

  /** What one turn of the loop does: end the walk or move it on. */
  datatype Step = End(walked: Walked) | Go(next: nat)

  /** The turn at position p; total is TOTAL_FILE_BYTES. */
  function TakeStep(buf: seq<u8>, total: nat, p: nat): (s: Step)
    requires p <= |buf|
    ensures s.Go? ==> p < s.next <= |buf|
  {
    if p == |buf| then End(Outside)
    else if buf[p] == 0 then End(Nothing)
    else if !HasHeader(buf[p..]) then End(Outside)
    else
      var id := ChankAt(buf[p..]).id;
      if id == CLUSTER_ID then End(AtCluster(p))
      else if id !in KNOWN_IDS then End(Unknown)
      else if !Fits(buf[p..], total) then End(TooLong)
      else
        var next := U64(p + Stride(buf[p..]));
        if next <= p then End(Backwards)
        else if next > |buf| then End(Outside)
        else Go(next)
  }

  function WalkFrom(buf: seq<u8>, total: nat, p: nat): Walked
    requires p <= |buf|
    decreases |buf| - p
  {
    match TakeStep(buf, total, p)
    case End(walked) => walked
    case Go(next) => WalkFrom(buf, total, next)
  }

  /** One part of a WebM header: a whole element of a known kind, or the header of a Segment
      whose size is known. A Segment of unknown size is an element without data. */
  predicate IsPart(e: seq<u8>, total: nat) {
    && HasHeader(e) && e[0] != 0
    && ChankAt(e).id in KNOWN_IDS && Fits(e, total)
    && |e| == Stride(e)
  }

  function Joined(parts: seq<seq<u8>>): seq<u8> {
    if parts == [] then [] else parts[0] + Joined(parts[1..])
  }

  /** Parts of a WebM header fill the buffer from p to n. */
  ghost predicate PartsUpTo(buf: seq<u8>, total: nat, p: nat, parts: seq<seq<u8>>, n: nat) {
    && p <= n <= |buf| && buf[p..n] == Joined(parts)
    && forall i :: 0 <= i < |parts| ==> IsPart(parts[i], total)
  }

  /** A WebM header in front of a Cluster. */
  ghost predicate HeaderBefore(buf: seq<u8>, total: nat, p: nat, parts: seq<seq<u8>>, n: nat) {
    && PartsUpTo(buf, total, p, parts, n)
    && n < |buf| && buf[n] != 0 && HasHeader(buf[n..]) && ChankAt(buf[n..]).id == CLUSTER_ID
  }

  lemma PartAhead(buf: seq<u8>, total: nat, p: nat, e: seq<u8>)
    requires p + |e| <= |buf| < TWO_64 && buf[p..p + |e|] == e && IsPart(e, total)
    ensures |e| > 0 && buf[p] == e[0] && HasHeader(buf[p..])
    ensures ChankAt(buf[p..]) == ChankAt(e) && Stride(buf[p..]) == |e| && Fits(buf[p..], total)
  {
    StrideCovers(e);
    assert buf[p..][..HeaderBytes(e)] == buf[p..p + |e|][..HeaderBytes(e)];
    ChankAtLocal(e, buf[p..]);
    assert buf[p] == buf[p..p + |e|][0];
    hide ChankAt, HasHeader;
  }

  lemma StrideCovers(e: seq<u8>)
    requires HasHeader(e)
    ensures ChankAt(e).dataHeaderPosition == HeaderBytes(e)
  {
    hide VintValue, IdValue, Width, HasHeader;
  }

  /** The walk goes on behind the parts of a header. */
  lemma {:induction false} PassesParts(buf: seq<u8>, total: nat, p: nat, parts: seq<seq<u8>>, n: nat)
    requires |buf| < TWO_64 && PartsUpTo(buf, total, p, parts, n)
    ensures WalkFrom(buf, total, p) == WalkFrom(buf, total, n)
    decreases |parts|
  {
    hide IsPart, ChankAt, HasHeader, Stride, Fits, WalkFrom;
    if parts != [] {
      var e := parts[0];
      assert IsPart(e, total);
      SliceIs(buf, p, e, Joined(parts[1..]));
      PassesPart(buf, total, p, e);
      PassesParts(buf, total, p + |e|, parts[1..], n);
    }
  }

  /** Whenever a WebM header is followed by a Cluster that starts in the buffer, the walk
      stops exactly at that Cluster, whether the Segment's size is known or not... */
  lemma StopsAtCluster(buf: seq<u8>, total: nat, p: nat, parts: seq<seq<u8>>, n: nat)
    requires |buf| < TWO_64 && HeaderBefore(buf, total, p, parts, n)
    ensures WalkFrom(buf, total, p) == AtCluster(n)
  {
    hide PartsUpTo, ChankAt, HasHeader, WalkFrom;
    PassesParts(buf, total, p, parts, n);
    WalkEnds(buf, total, n);
  }

  lemma WalkEnds(buf: seq<u8>, total: nat, n: nat)
    requires n < |buf| && buf[n] != 0 && HasHeader(buf[n..]) && ChankAt(buf[n..]).id == CLUSTER_ID
    ensures WalkFrom(buf, total, n) == AtCluster(n)
  {
    hide ChankAt, HasHeader;
  }

  lemma PassesPart(buf: seq<u8>, total: nat, p: nat, e: seq<u8>)
    requires p + |e| <= |buf| < TWO_64 && buf[p..p + |e|] == e && IsPart(e, total)
    ensures WalkFrom(buf, total, p) == WalkFrom(buf, total, p + |e|)
  {
    hide IsPart, TakeStep;
    GoesBehindPart(buf, total, p, e);
  }

  lemma GoesBehindPart(buf: seq<u8>, total: nat, p: nat, e: seq<u8>)
    requires p + |e| <= |buf| < TWO_64 && buf[p..p + |e|] == e && IsPart(e, total)
    ensures TakeStep(buf, total, p) == Go(p + |e|)
  {
    hide IsPart, ChankAt, HasHeader, Stride, Fits;
    PartAhead(buf, total, p, e);
    PartKnown(e, total);
  }

  lemma PartKnown(e: seq<u8>, total: nat)
    requires IsPart(e, total)
    ensures HasHeader(e) && ChankAt(e).id in KNOWN_IDS && ChankAt(e).id != CLUSTER_ID && e[0] != 0
  {
  }

  /** No element the walk meets has a size field that starts with a zero byte, which no EBML
      size does and whose sum with the header could wrap. */
  predicate Regular(buf: seq<u8>, total: nat, p: nat)
    requires p <= |buf|
    decreases |buf| - p
  {
    p < |buf| && HasHeader(buf[p..]) ==>
      && buf[p + Width(buf[p])] != 0
      && var next := U64(p + Stride(buf[p..]));
         p < next <= |buf| ==> Regular(buf, total, next)
  }

  /** ...and it stops at no other place: in front of the place where it ends, however it ends,
      are parts of a WebM header. */
  lemma {:induction false} EndsBehindParts(buf: seq<u8>, total: nat, p: nat) returns (parts: seq<seq<u8>>, n: nat)
    requires p <= |buf| < TWO_64 && Regular(buf, total, p)
    ensures PartsUpTo(buf, total, p, parts, n) && TakeStep(buf, total, n) == End(WalkFrom(buf, total, p))
    decreases |buf| - p
  {
    hide ChankAt, HasHeader, Stride, Fits, IsPart, Regular, TakeStep;
    match TakeStep(buf, total, p) {
      case End(_) => parts, n := [], p;
      case Go(next) =>
        GoesOnRegularly(buf, total, p, next);
        var rest;
        rest, n := EndsBehindParts(buf, total, next);
        parts := [buf[p..next]] + rest;
        HeaderCons(buf, total, p, next, rest, n);
    }
  }

  lemma StopsBehindHeader(buf: seq<u8>, total: nat, p: nat) returns (parts: seq<seq<u8>>)
    requires p <= |buf| < TWO_64 && WalkFrom(buf, total, p).AtCluster? && Regular(buf, total, p)
    ensures HeaderBefore(buf, total, p, parts, WalkFrom(buf, total, p).at)
  {
    hide ChankAt, HasHeader, Stride, Fits, PartsUpTo, Regular, WalkFrom;
    var n;
    parts, n := EndsBehindParts(buf, total, p);
    PartsInRange(buf, total, p, parts, n);
  }

  lemma PartsInRange(buf: seq<u8>, total: nat, p: nat, parts: seq<seq<u8>>, n: nat)
    requires PartsUpTo(buf, total, p, parts, n)
    ensures p <= n <= |buf|
  {
  }

  lemma HeaderCons(buf: seq<u8>, total: nat, p: nat, next: nat, rest: seq<seq<u8>>, n: nat)
    requires p < next && PartsUpTo(buf, total, next, rest, n) && IsPart(buf[p..next], total)
    ensures PartsUpTo(buf, total, p, [buf[p..next]] + rest, n)
  {
    hide ChankAt, HasHeader, IsPart;
    var parts := [buf[p..next]] + rest;
    assert parts[1..] == rest;
    assert buf[p..n] == buf[p..next] + buf[next..n];
  }

  lemma GoesOnRegularly(buf: seq<u8>, total: nat, p: nat, next: nat)
    requires p <= |buf| < TWO_64 && Regular(buf, total, p) && TakeStep(buf, total, p) == Go(next)
    ensures p < next <= |buf| && Regular(buf, total, next) && IsPart(buf[p..next], total)
  {
    hide ChankAt, HasHeader, Stride, Fits, IsPart, Regular;
    RegularStride(buf, total, p);
    RegularNext(buf, total, p);
    PartBehind(buf, total, p, next);
  }

  lemma RegularStride(buf: seq<u8>, total: nat, p: nat)
    requires p < |buf| < TWO_64 && HasHeader(buf[p..]) && Regular(buf, total, p)
    ensures buf[p + Width(buf[p])] != 0 && 0 < Stride(buf[p..])
    ensures p < U64(p + Stride(buf[p..])) <= |buf| ==> U64(p + Stride(buf[p..])) == p + Stride(buf[p..])
  {
    NoWrap(buf[p..]);
    StrideCovers(buf[p..]);
    hide ChankAt, HasHeader;
  }

  lemma RegularNext(buf: seq<u8>, total: nat, p: nat)
    requires p < |buf| < TWO_64 && HasHeader(buf[p..]) && Regular(buf, total, p)
    requires p + Stride(buf[p..]) <= |buf| && Stride(buf[p..]) > 0
    ensures Regular(buf, total, p + Stride(buf[p..])) && buf[p + Width(buf[p])] != 0
  {
    hide ChankAt, HasHeader;
  }

  lemma PartBehind(buf: seq<u8>, total: nat, p: nat, next: nat)
    requires p < next <= |buf| && HasHeader(buf[p..]) && buf[p] != 0 && buf[p + Width(buf[p])] != 0
    requires next == p + Stride(buf[p..]) && ChankAt(buf[p..]).id in KNOWN_IDS && Fits(buf[p..], total)
    ensures IsPart(buf[p..next], total)
  {
    var e := buf[p..next];
    StrideCovers(buf[p..]);
    NoWrap(buf[p..]);
    assert buf[p..][..HeaderBytes(buf[p..])] == e[..HeaderBytes(buf[p..])];
    ChankAtLocal(buf[p..], e);
    hide ChankAt, HasHeader;
  }

  /** So with regular size fields the walk finds n exactly when a WebM header fills the buffer
      up to n and a Cluster starts there. */
  lemma FindsExactly(buf: seq<u8>, total: nat, n: nat)
    requires |buf| < TWO_64 && Regular(buf, total, 0)
    ensures WalkFrom(buf, total, 0) == AtCluster(n) <==> exists parts :: HeaderBefore(buf, total, 0, parts, n)
  {
    hide HeaderBefore, Regular;
    if WalkFrom(buf, total, 0) == AtCluster(n) {
      var parts := StopsBehindHeader(buf, total, 0);
    }
    if parts :| HeaderBefore(buf, total, 0, parts, n) {
      StopsAtCluster(buf, total, 0, parts, n);
    }
  }

  /** The IDs the walk knows what to do with, the Cluster's included. */
  predicate IsWebMId(id: u32) {
    id in {0x1a45dfa3, 0x18538067, 0x114d9b74, 0xec, 0x1549a966, 0x1654ae6b, 0x1f43b675}
  }

  /** However the walk ends, it ends behind parts of a header, where its last turn ends it so. */
  lemma EndsExactly(buf: seq<u8>, total: nat, walked: Walked)
    requires |buf| < TWO_64 && Regular(buf, total, 0)
    ensures WalkFrom(buf, total, 0) == walked <==>
              exists parts, n :: PartsUpTo(buf, total, 0, parts, n) && EndsAt(buf, total, n, walked)
  {
    hide PartsUpTo, Regular, WalkFrom, TakeStep;
    if WalkFrom(buf, total, 0) == walked {
      var parts, n := EndsBehindParts(buf, total, 0);
      PartsInRange(buf, total, 0, parts, n);
      assert PartsUpTo(buf, total, 0, parts, n) && EndsAt(buf, total, n, walked);
    }
    if parts, n :| PartsUpTo(buf, total, 0, parts, n) && EndsAt(buf, total, n, walked) {
      PassesParts(buf, total, 0, parts, n);
      PartsInRange(buf, total, 0, parts, n);
      LastTurn(buf, total, n);
    }
  }

  predicate EndsAt(buf: seq<u8>, total: nat, n: nat, walked: Walked) {
    n <= |buf| && TakeStep(buf, total, n) == End(walked)
  }

  lemma LastTurn(buf: seq<u8>, total: nat, n: nat)
    requires n <= |buf| && TakeStep(buf, total, n).End?
    ensures WalkFrom(buf, total, n) == TakeStep(buf, total, n).walked
  {
    hide TakeStep;
  }

  /** So it ends with status -2 exactly in front of an element with any other ID, ... */
  lemma UnknownExactly(buf: seq<u8>, total: nat)
    requires |buf| < TWO_64 && Regular(buf, total, 0)
    ensures WalkFrom(buf, total, 0) == Unknown <==>
              exists parts, n :: PartsUpTo(buf, total, 0, parts, n) && AtOther(buf, n)
  {
    hide PartsUpTo, Regular, AtOther, EndsAt, WalkFrom;
    EndsExactly(buf, total, Unknown);
    forall n: nat ensures EndsAt(buf, total, n, Unknown) <==> AtOther(buf, n) {
      OtherIsUnknown(buf, total, n);
    }
  }

  predicate AtOther(buf: seq<u8>, n: nat) {
    n < |buf| && buf[n] != 0 && HasHeader(buf[n..]) && !IsWebMId(IdValue(buf[n..]))
  }

  lemma OtherIsUnknown(buf: seq<u8>, total: nat, n: nat)
    ensures EndsAt(buf, total, n, Unknown) <==> AtOther(buf, n)
  {
    if n < |buf| && HasHeader(buf[n..]) {
      ChankId(buf[n..]);
    }
    hide ChankAt, HasHeader, Stride, Fits, IdValue;
  }

  /** ...with -1 exactly in front of one longer than the file, unless it is a Segment of known
      size, ... */
  lemma TooLongExactly(buf: seq<u8>, total: nat)
    requires |buf| < TWO_64 && Regular(buf, total, 0)
    ensures WalkFrom(buf, total, 0) == TooLong <==>
              exists parts, n :: PartsUpTo(buf, total, 0, parts, n) && AtTooLong(buf, total, n)
  {
    hide PartsUpTo, Regular, AtTooLong, EndsAt, WalkFrom;
    EndsExactly(buf, total, TooLong);
    forall n: nat ensures EndsAt(buf, total, n, TooLong) <==> AtTooLong(buf, total, n) {
      LongIsTooLong(buf, total, n);
    }
  }

  predicate AtTooLong(buf: seq<u8>, total: nat, n: nat) {
    && n < |buf| && buf[n] != 0 && HasHeader(buf[n..])
    && IsWebMId(IdValue(buf[n..])) && IdValue(buf[n..]) != 0x1f43b675
    && total < ChankAt(buf[n..]).chankBytes
    && (IdValue(buf[n..]) == 0x18538067 ==> ChankAt(buf[n..]).dataBytes == 0)
  }

  lemma LongIsTooLong(buf: seq<u8>, total: nat, n: nat)
    ensures EndsAt(buf, total, n, TooLong) <==> AtTooLong(buf, total, n)
  {
    if n < |buf| && HasHeader(buf[n..]) {
      ChankId(buf[n..]);
    }
    hide ChankAt, HasHeader, Stride, IdValue;
  }

  /** ...and with 0 exactly in front of a zero byte. */
  lemma NothingExactly(buf: seq<u8>, total: nat)
    requires |buf| < TWO_64 && Regular(buf, total, 0)
    ensures WalkFrom(buf, total, 0) == Nothing <==>
              exists parts, n :: PartsUpTo(buf, total, 0, parts, n) && AtZero(buf, n)
  {
    hide PartsUpTo, Regular, AtZero, EndsAt, WalkFrom;
    EndsExactly(buf, total, Nothing);
    forall n: nat ensures EndsAt(buf, total, n, Nothing) <==> AtZero(buf, n) {
      ZeroIsNothing(buf, total, n);
    }
  }

  predicate AtZero(buf: seq<u8>, n: nat) { n < |buf| && buf[n] == 0 }

  lemma ZeroIsNothing(buf: seq<u8>, total: nat, n: nat)
    ensures EndsAt(buf, total, n, Nothing) <==> AtZero(buf, n)
  {
    hide ChankAt, HasHeader, Stride, Fits;
  }

  /** The elements in front of the first Cluster, by the bytes of their IDs: EBML, SeekHead,
      Void, Info and Tracks. */
  const WHOLE_PARTS: seq<seq<u8>> :=
    [[0x1a, 0x45, 0xdf, 0xa3], [0x11, 0x4d, 0x9b, 0x74], [0xec], [0x15, 0x49, 0xa9, 0x66], [0x16, 0x54, 0xae, 0x6b]]

  /** They are parts of a header with data of any length, told in any number of bytes. */
  lemma ElementIsPart(k: nat, w: nat, data: seq<u8>, total: nat)
    requires k < |WHOLE_PARTS| && 1 <= w <= 8 && |data| < Pow2(8 - w) * Pow256(w - 1) && |data| < UNKNOWN_SIZE
    requires total >= |WHOLE_PARTS[k] + Vint(|data|, w) + data|
    ensures IsPart(WHOLE_PARTS[k] + Vint(|data|, w) + data, total)
  {
    var id := WHOLE_PARTS[k];
    hide Vint, IdValue, ChankAt, HasHeader, Width, Pow256, Pow2;
    var e := id + Vint(|data|, w) + data;
    assert e[..|id|] == id && e[0] == id[0];
    assert e[|id|..] == Vint(|data|, w) + data;
    WholeIdReads(e, k);
    ElementHeaderReads(e, |id|, w, data);
  }

  /** An element header, from the parts it is made of. */
  lemma ElementHeaderReads(e: seq<u8>, idBytes: nat, w: nat, data: seq<u8>)
    requires 1 <= w <= 8 && |data| < Pow2(8 - w) * Pow256(w - 1) && |data| < UNKNOWN_SIZE
    requires 1 <= idBytes <= 4 && |e| == idBytes + w + |data| && Width(e[0]) == idBytes
    requires e[idBytes..] == Vint(|data|, w) + data
    ensures HasHeader(e) && ChankAt(e) == Chank(IdValue(e), idBytes, idBytes + w, |data|, |e|)
  {
    VintRoundTrip(|data|, w, data);
    VintWidth(|data|, w, data);
    assert e[idBytes] == (Vint(|data|, w) + data)[0];
    VintValueBound(e[idBytes..]);
    hide Vint, IdValue, VintValue, Width;
  }

  lemma VintWidth(n: nat, w: nat, tail: seq<u8>)
    requires 1 <= w <= 8 && n < Pow2(8 - w) * Pow256(w - 1)
    ensures |Vint(n, w) + tail| >= w && Width((Vint(n, w) + tail)[0]) == w
  {
    VintRoundTrip(n, w, tail);
  }

  lemma WholeIdReads(h: seq<u8>, k: nat)
    requires k < |WHOLE_PARTS| && |h| > |WHOLE_PARTS[k]| && h[..|WHOLE_PARTS[k]|] == WHOLE_PARTS[k]
    ensures h[0] != 0 && Width(h[0]) == |WHOLE_PARTS[k]|
    ensures IdValue(h) in KNOWN_IDS && IdValue(h) != SEGMENT_ID
  {
    var s := WHOLE_PARTS[k];
    assert h[0] == s[0];
    if k == 2 {
      FromBESingle(0xec);
    } else {
      BEQuad(s[0], s[1], s[2], s[3]);
      assert s == [s[0], s[1], s[2], s[3]];
    }
  }

  /** What stands in front of the first Cluster of a WebM file. */
  ghost predicate IsHeaderElement(e: seq<u8>, total: nat) {
    |e| <= total && (IsSegmentHead(e) || exists k, w, data :: IsWholeElement(e, k, w, data))
  }

  ghost predicate IsSegmentHead(e: seq<u8>) {
    exists n, w :: IsSizedHead(e, n, w)
  }

  predicate IsSizedHead(e: seq<u8>, n: nat, w: nat) {
    1 <= w <= 8 && n < Pow2(8 - w) * Pow256(w - 1) && e == [0x18, 0x53, 0x80, 0x67] + Vint(n, w)
  }

  predicate IsWholeElement(e: seq<u8>, k: nat, w: nat, data: seq<u8>) {
    && k < |WHOLE_PARTS| && 1 <= w <= 8 && |data| < Pow2(8 - w) * Pow256(w - 1) && |data| < UNKNOWN_SIZE
    && e == WHOLE_PARTS[k] + Vint(|data|, w) + data
  }

  /** Any such elements in any order in front of the bytes of a Cluster ID and a size are walked
      over to the Cluster. */
  lemma EveryHeaderIsWalked(parts: seq<seq<u8>>, cluster: seq<u8>, total: nat)
    requires forall i :: 0 <= i < |parts| ==> IsHeaderElement(parts[i], total)
    requires |cluster| >= 5 && cluster[..4] == [0x1f, 0x43, 0xb6, 0x75] && HasHeader(cluster)
    requires |Joined(parts) + cluster| < TWO_64
    ensures WalkFrom(Joined(parts) + cluster, total, 0) == AtCluster(|Joined(parts)|)
  {
    hide HasHeader, ChankAt, IsPart, WalkFrom, Joined;
    var buf, n := Joined(parts) + cluster, |Joined(parts)|;
    forall i | 0 <= i < |parts| ensures IsPart(parts[i], total) {
      assert IsHeaderElement(parts[i], total);
      HeaderElementIsPart(parts[i], total);
    }
    assert buf[0..n] == Joined(parts) && buf[n..] == cluster && buf[n] == cluster[0] == cluster[..4][0];
    ClusterIdReads(cluster);
    assert ChankAt(cluster).id == CLUSTER_ID by {
      ChankId(cluster);
    }
    StopsAtCluster(buf, total, 0, parts, n);
  }

  lemma ChankId(buf: seq<u8>)
    requires HasHeader(buf)
    ensures ChankAt(buf).id == IdValue(buf)
  {
  }

  lemma HeaderElementIsPart(e: seq<u8>, total: nat)
    requires IsHeaderElement(e, total)
    ensures IsPart(e, total)
  {
    hide IsPart, Vint;
    if IsSegmentHead(e) {
      var n, w :| IsSizedHead(e, n, w);
      SegmentHeadIsPart(n, w, total);
    } else {
      var k, w, data :| IsWholeElement(e, k, w, data);
      ElementIsPart(k, w, data, total);
    }
  }

  /** The header of a Segment is such a part for every size, known or unknown. */
  lemma SegmentHeadIsPart(n: nat, w: nat, total: nat)
    requires 1 <= w <= 8 && n < Pow2(8 - w) * Pow256(w - 1) && total >= 4 + w
    ensures IsPart([0x18, 0x53, 0x80, 0x67] + Vint(n, w), total)
  {
    var head := [0x18, 0x53, 0x80, 0x67] + Vint(n, w);
    SegmentIdReads(head);
    SegmentSize(n, w);
    hide Vint, IdValue, VintValue, Width;
  }

  lemma SegmentSize(n: nat, w: nat)
    requires 1 <= w <= 8 && n < Pow2(8 - w) * Pow256(w - 1)
    ensures var head := [0x18, 0x53, 0x80, 0x67] + Vint(n, w);
            Width(head[4]) == w && VintValue(head[4..]) == n && n < TWO_56
  {
    hide IdValue, VintValue, Width, ToBE, FromBE;
    var head := [0x18, 0x53, 0x80, 0x67] + Vint(n, w);
    assert head[4..] == Vint(n, w) + [];
    VintRoundTrip(n, w, []);
    VintValueBound(head[4..]);
  }

  lemma SegmentIdReads(h: seq<u8>)
    requires |h| >= 5 && h[..4] == [0x18, 0x53, 0x80, 0x67]
    ensures Width(h[0]) == 4 && h[0] == 0x18 && IdValue(h) == SEGMENT_ID
  {
    var s := h[..4];
    assert h[0] == s[0];
    assert s[..3][..2] == s[..2] && s[..2][..1] == s[..1] && s[..1][..0] == [];
    assert FromBE(s[..1]) == s[0];
    assert FromBE(s[..2]) == 256 * FromBE(s[..1]) + s[1];
    assert FromBE(s[..3]) == 256 * FromBE(s[..2]) + s[2];
  }

  /** The status the function returns and, if it is 1, the WEBM_HEADER.total_bytes it sets. */
  method AnalyzeChankToWebMHeader(buf: seq<u8>, total: nat) returns (status: int, totalBytes: u16)
    requires WalkFrom(buf, total, 0) != Outside && WalkFrom(buf, total, 0) != Backwards
    ensures match WalkFrom(buf, total, 0)
            case AtCluster(n) => status == 1 && totalBytes == U16(n)
            case TooLong => status == -1
            case Unknown => status == -2
            case _ => status == 0
  {
    hide ChankAt, HasHeader, Stride, Fits;
    var position: nat := 0;
    status := 0;
    while buf[position] != 0
      invariant position < |buf| && status == 0 && WalkFrom(buf, total, position) == WalkFrom(buf, total, 0)
      decreases |buf| - position
    {
      var chank := GetChank(buf[position..]);
      ghost var ahead := buf[position..];
      StrideIs(ahead, total);
      if chank.id == SEGMENT_ID && chank.dataBytes != 0 {
        position := U64(position + chank.dataHeaderPosition);
        continue;
      } else if chank.id == CLUSTER_ID {
        status := 1;
        break;
      } else if chank.id !in KNOWN_IDS {
        status := -2;
        break;
      }
      if total < chank.chankBytes {
        status := -1;
        break;
      }
      position := U64(position + chank.chankBytes);
    }
    totalBytes := if status == 1 then U16(position) else 0;
  }

  lemma StrideIs(buf: seq<u8>, total: nat)
    requires HasHeader(buf)
    ensures var c := ChankAt(buf);
            if c.id == SEGMENT_ID && c.dataBytes != 0 then Stride(buf) == c.dataHeaderPosition && Fits(buf, total)
            else Stride(buf) == c.chankBytes && (Fits(buf, total) <==> c.chankBytes <= total)
  {
    hide ChankAt, HasHeader;
  }
}
