/** The file an origin streams from while it grows: what a look at it shows, what has to hold
    of it, and when the origin's reads are clean.
  */
module LiveFiles {
  import opened Words
  import opened Ebml
  import opened Blocks
  import opened Segmentation
  import opened Clusters
  import opened Disk
  import opened Serving
  import opened Cursors
  import opened Streams
  import opened CleanReads

  /** What ReadBlock looks at: the bytes read, over whatever was in its buffer before. */
  function Spilled(ahead: seq<u8>, junk: seq<u8>): (buf: seq<u8>)
    requires |junk| >= MAX_BLOCK_BYTES
    ensures |buf| == |junk|
  {
    var n := Min(MAX_BLOCK_BYTES, |ahead|);
    ahead[..n] + junk[n..]
  }

  /** What was in the buffer before spoils no read at a cursor. */
  ghost predicate CleanJunk(src: Source, ss: seq<Section>, junk: seq<u8>) {
    && |junk| >= MAX_BLOCK_BYTES + HEADER_REACH
    && forall prev, i, unit, es :: CursorAt(src.firstClusterSeq, ss, prev, i, unit, es) ==> JunkFor(src, prev, junk)
  }

  predicate JunkFor(src: Source, prev: BlockInfo, junk: seq<u8>)
    requires |junk| >= MAX_BLOCK_BYTES + HEADER_REACH
  {
    CanWalk(src.file, src.headerBytes, Count(src, prev)) && Offset(src, prev) <= |src.file|
    ==> CleanRead(NO_BLOCK, prev, Spilled(src.file[Offset(src, prev)..], junk), MAX_BLOCK_BYTES)
  }

  /** What another thread does between two steps of main: a node is set up or connects as a
      child, or a child leaves. */
  datatype Arrival = Nobody | Setup | Connects(clusterSeq: u16) | Leaves(slot: nat)

  /** One moment: the file as a look finds it, what the read buffer holds, the memory the sends
      run into, and who arrives. */
  datatype Moment = Moment(file: seq<u8>, junk: seq<u8>, memory: nat -> seq<u8>, arrival: Arrival)

  ghost predicate CleanMoment(src: Source, ss: seq<Section>, moment: Moment) {
    CleanJunk(src, ss, moment.junk) && forall i :: CleanBeyond(src, ss, moment.memory(i))
  }

  /** No moment's memory spoils a read of any file of the run. */
  ghost predicate CleanMoments(headerBytes: nat, moments: nat -> Moment, sections: nat -> seq<Section>) {
    forall t: nat, u: nat, closedSeq: u32, latest: u32 ::
      CleanMoment(Source(moments(u).file, headerBytes, 0, closedSeq, latest), sections(u), moments(t))
  }

  lemma CleanNow(headerBytes: nat, moments: nat -> Moment, sections: nat -> seq<Section>, t: nat, u: nat,
                 src: Source)
    requires CleanMoments(headerBytes, moments, sections)
    requires src.firstClusterSeq == 0 && src.headerBytes == headerBytes && src.file == moments(u).file
    ensures CleanJunk(src, sections(u), moments(t).junk) && |moments(t).junk| >= MAX_BLOCK_BYTES + HEADER_REACH
    ensures forall i :: CleanBeyond(src, sections(u), moments(t).memory(i)) && |moments(t).memory(i)| >= HEADER_REACH
  {
    hide JunkFor, CleanFor;
    assert CleanMoment(Source(moments(u).file, headerBytes, 0, src.closedSeq, src.latest), sections(u), moments(t));
    forall i ensures CleanBeyond(src, sections(u), moments(t).memory(i)) && |moments(t).memory(i)| >= HEADER_REACH {
      assert CleanBeyond(src, sections(u), moments(t).memory(i));
    }
  }

  /** Zeros everywhere are clean, so the hypothesis can be met by every run. */
  lemma ZerosAreCleanMoments(headerBytes: nat, moments: nat -> Moment, sections: nat -> seq<Section>)
    requires forall u :: Serves(moments(u).file, headerBytes, sections(u))
    requires forall t :: moments(t).junk == Filled(MAX_BLOCK_BYTES + HEADER_REACH, 0)
    requires forall t, i :: moments(t).memory(i) == Filled(HEADER_REACH, 0)
    ensures CleanMoments(headerBytes, moments, sections)
  {
    hide Serves, CleanJunk, CleanBeyond;
    forall t: nat, u: nat, closedSeq: u32, latest: u32
      ensures CleanMoment(Source(moments(u).file, headerBytes, 0, closedSeq, latest), sections(u), moments(t))
    {
      var src := Source(moments(u).file, headerBytes, 0, closedSeq, latest);
      assert Serves(moments(u).file, headerBytes, sections(u));
      ClearMemory(src, sections(u), HEADER_REACH);
      ClearJunk(src, sections(u));
      assert moments(t).junk == Filled(MAX_BLOCK_BYTES + HEADER_REACH, 0);
    }
  }

  /** A cleared read buffer is the cleared packet buffer with clear memory behind it. */
  lemma ClearJunk(src: Source, ss: seq<Section>)
    requires Serves(src.file, src.headerBytes, ss)
    ensures CleanJunk(src, ss, Filled(MAX_BLOCK_BYTES + HEADER_REACH, 0))
  {
    hide Serves, CursorAt, CleanFor, JunkFor;
    var junk := Filled(MAX_BLOCK_BYTES + HEADER_REACH, 0);
    ClearMemory(src, ss, HEADER_REACH);
    forall prev, i, unit, es | CursorAt(src.firstClusterSeq, ss, prev, i, unit, es) ensures JunkFor(src, prev, junk) {
      assert CleanFor(src, prev, Filled(HEADER_REACH, 0));
      ClearJunkFor(src, prev);
    }
  }

  lemma ClearJunkFor(src: Source, prev: BlockInfo)
    requires CleanFor(src, prev, Filled(HEADER_REACH, 0))
    ensures JunkFor(src, prev, Filled(MAX_BLOCK_BYTES + HEADER_REACH, 0))
  {
    hide CanWalk, Offset, CleanRead;
    if CanWalk(src.file, src.headerBytes, Count(src, prev)) && Offset(src, prev) <= |src.file| {
      SpilledOnZeros(src.file[Offset(src, prev)..]);
    }
  }

  lemma SpilledOnZeros(ahead: seq<u8>)
    ensures Spilled(ahead, Filled(MAX_BLOCK_BYTES + HEADER_REACH, 0)) == ReadBuffer(ahead, Filled(HEADER_REACH, 0))
  {
  }

  /** Where the clusters on file end. */
  function End(headerBytes: nat, ss: seq<Section>): nat {
    Base(headerBytes, ss, |ss|)
  }

  /** What UpdateClusterFromWebM waits for: a Cluster header that is not the unknown-size one. */
  predicate IsFinal(head: seq<u8>)
    requires |head| == CLUSTER_HEADER_BYTES
  {
    IdValue(head) == CLUSTER_ID && head != FOOTER
  }

  /** So neither the footer nor a Cue nor anything but a Cluster's ID ends the wait. */
  lemma FinalBytes(head: seq<u8>)
    requires |head| == CLUSTER_HEADER_BYTES && Width(head[0]) == 4
    ensures IsFinal(head) <==>
              head[..4] == [0x1f, 0x43, 0xb6, 0x75] && head[4..] != [0x01, 0xff, 0xff, 0xff, 0xff, 0xff, 0xff, 0xff]
  {
    var id := head[..4];
    ToFromBE(id);
    ToFromBE(CLUSTER_ID_STRING);
    BEQuad(0x1f, 0x43, 0xb6, 0x75);
    FromBEBound(id);
    assert Pow256(4) == TWO_32;
    assert head == id + head[4..];
    assert FOOTER[..4] == CLUSTER_ID_STRING && FOOTER == FOOTER[..4] + FOOTER[4..];
  }

  /** Behind its whole clusters the file shows the final header of the next one. */
  predicate Announces(file: seq<u8>, headerBytes: nat, ss: seq<Section>) {
    var p := End(headerBytes, ss);
    p + CLUSTER_HEADER_BYTES <= |file| && IsFinal(file[p..p + CLUSTER_HEADER_BYTES])
  }

  /** How the file grows: it serves more and more clusters; one that is all there has an end
      ID behind it; a final header stays as it is; and a file with less than a header behind
      its clusters grows at once to hold one. */
  ghost predicate Growing(moments: nat -> Moment, headerBytes: nat, sections: nat -> seq<Section>) {
    && (forall t: nat :: Serves(moments(t).file, headerBytes, sections(t)) && |sections(t)| < 0x1_0000)
    && (forall t: nat :: Partial(moments(t).file, headerBytes, sections(t)))
    && (forall t: nat, u: nat :: t <= u ==>
          Grown(moments(t).file, moments(u).file, headerBytes, sections(t), sections(u)))
    && (forall t: nat :: Joins(moments(t).arrival) ==> |sections(t)| > 0)
  }

  /** Nobody joins before there is a cluster to join at. */
  predicate Joins(arrival: Arrival) {
    arrival.Setup? || arrival.Connects?
  }

  /** The cluster announced is not all there. */
  predicate Partial(file: seq<u8>, headerBytes: nat, ss: seq<Section>) {
    Announces(file, headerBytes, ss) ==>
      var p := End(headerBytes, ss);
      var head := file[p..p + CLUSTER_HEADER_BYTES];
      HasHeader(head) && |file| < p + ChankAt(head).chankBytes
  }

  predicate Grown(file: seq<u8>, file': seq<u8>, headerBytes: nat, ss: seq<Section>, ss': seq<Section>) {
    var p := End(headerBytes, ss);
    && |file| <= |file'| && ss <= ss'
    && (Announces(file, headerBytes, ss) ==>
          file'[p..p + CLUSTER_HEADER_BYTES] == file[p..p + CLUSTER_HEADER_BYTES])
    && (|file| < p + CLUSTER_HEADER_BYTES && |file| < |file'| ==> p + CLUSTER_HEADER_BYTES <= |file'|)
  }

  /** A file that is complete from the start, with the footer or a Cue behind its clusters, is
      the case of no growth. */
  lemma CompleteFile(file: seq<u8>, headerBytes: nat, ss: seq<Section>, moments: nat -> Moment,
                     sections: nat -> seq<Section>)
    requires Serves(file, headerBytes, ss) && 0 < |ss| < 0x1_0000 && !Announces(file, headerBytes, ss)
    requires forall t :: moments(t).file == file && sections(t) == ss
    ensures Growing(moments, headerBytes, sections)
  {
    hide Serves, Announces, End, HasHeader, ChankAt;
    forall t: nat, u: nat | t <= u
      ensures Grown(moments(t).file, moments(u).file, headerBytes, sections(t), sections(u))
      ensures Partial(moments(t).file, headerBytes, sections(t))
      ensures Serves(moments(t).file, headerBytes, sections(t)) && |sections(t)| < 0x1_0000
    {
    }
  }

  /** A file that grows by a whole cluster at some moment: the footer of the cluster being
      written is overwritten with its final header, and a new footer comes behind it. */
  lemma ClusterComes(header: seq<u8>, c: Section, when: nat, moments: nat -> Moment, sections: nat -> seq<Section>)
    requires GoodSection(c) && forall t: nat :: t < when ==> !Joins(moments(t).arrival)
    requires forall t: nat :: moments(t).file == header + if t < when then FOOTER else c.head + Flat(c.es) + FOOTER
    requires forall t: nat :: sections(t) == if t < when then [] else [c]
    ensures Growing(moments, |header|, sections)
  {
    hide Flat, GoodSection, HasHeader, ChankAt, Serves, Announces, End;
    var a, b := header + FOOTER, header + (c.head + Flat(c.es) + FOOTER);
    NoCluster(header);
    OneCluster(header, c);
    forall t: nat, u: nat | t <= u
      ensures Grown(moments(t).file, moments(u).file, |header|, sections(t), sections(u))
      ensures Partial(moments(t).file, |header|, sections(t))
      ensures Serves(moments(t).file, |header|, sections(t)) && |sections(t)| < 0x1_0000
    {
      assert moments(t).file == if t < when then a else b;
      assert moments(u).file == if u < when then a else b;
    }
  }

  lemma NoCluster(header: seq<u8>)
    ensures var file := header + FOOTER;
            && Serves(file, |header|, []) && !Announces(file, |header|, [])
            && End(|header|, []) + CLUSTER_HEADER_BYTES == |file|
  {
    hide IdValue;
    var file := header + FOOTER;
    assert file[|header|..] == FOOTER == file[|header|..|header| + CLUSTER_HEADER_BYTES];
    assert FOOTER[..4] == CLUSTER_ID_STRING;
  }

  lemma OneCluster(header: seq<u8>, c: Section)
    requires GoodSection(c)
    ensures var file := header + (c.head + Flat(c.es) + FOOTER);
            && Serves(file, |header|, [c]) && !Announces(file, |header|, [c])
            && End(|header|, [c]) + CLUSTER_HEADER_BYTES == |file|
  {
    hide IdValue, Flat, TrueHead, IsPayload, Region, OnFile;
    var file := header + (c.head + Flat(c.es) + FOOTER);
    OneRegion(c);
    var end := |header| + |c.head| + |Flat(c.es)|;
    assert file[|header|..end] == c.head + Flat(c.es);
    assert file[end..] == FOOTER == file[end..end + CLUSTER_HEADER_BYTES];
    assert FOOTER[..4] == CLUSTER_ID_STRING;
    assert [c][..1] == [c];
  }

  lemma OneRegion(c: Section)
    ensures Region(OnFile([c])) == c.head + Flat(c.es)
  {
    hide Flat;
    RegionFirst([c]);
    assert OnFile([c][1..]) == [];
  }

  /** Nobody arrives after the one time and up to the other. */
  ghost predicate Quiet(moments: nat -> Moment, from: nat, to: nat) {
    forall t :: from < t <= to ==> moments(t).arrival == Nobody
  }

  /** Cluster i is not all there, or it is the last one and less than a header is behind it. */
  ghost predicate Missed(moments: nat -> Moment, headerBytes: nat, sections: nat -> seq<Section>, i: nat, t: nat) {
    || |sections(t)| <= i
    || (|sections(t)| == i + 1
        && |moments(t).file| < End(headerBytes, sections(t)) + CLUSTER_HEADER_BYTES)
  }

  lemma MissedBefore(moments: nat -> Moment, headerBytes: nat, sections: nat -> seq<Section>, i: nat, t: nat, u: nat)
    requires Growing(moments, headerBytes, sections) && t <= u && Missed(moments, headerBytes, sections, i, u)
    ensures Missed(moments, headerBytes, sections, i, t)
  {
    hide Serves, Partial, Base, Announces;
    assert Grown(moments(t).file, moments(u).file, headerBytes, sections(t), sections(u));
    if |sections(t)| == |sections(u)| {
      assert sections(t) == sections(u);
    }
  }

  /** Where a turn of the waiting loop leaves the position: the read moves it on by what there
      is to read, and the seek goes back by a whole header. */
  function TurnEnd(size: nat, at: int): int {
    at + (if size >= at + CLUSTER_HEADER_BYTES then CLUSTER_HEADER_BYTES else size - at) - CLUSTER_HEADER_BYTES
  }

  /** Turn after turn, over a file of the sizes given. */
  function TurnsEnd(sizes: seq<nat>, at: int): int {
    if sizes == [] then at else TurnsEnd(sizes[1..], TurnEnd(sizes[0], at))
  }

  /** However long the loop waits for a header, it is in front of it if and only if the first
      read found twelve bytes; after a short first read it stands twelve bytes before where
      that read ended, for ever. */
  lemma {:induction false} WaitingPosition(sizes: seq<nat>, at: nat)
    requires |sizes| > 0 && at <= sizes[0] && forall i, j :: 0 <= i <= j < |sizes| ==> sizes[i] <= sizes[j]
    ensures TurnsEnd(sizes, at) == if sizes[0] >= at + CLUSTER_HEADER_BYTES then at else sizes[0] - CLUSTER_HEADER_BYTES
    ensures TurnsEnd(sizes, at) == at <==> sizes[0] >= at + CLUSTER_HEADER_BYTES
  {
    StaysPut(sizes[1..], TurnEnd(sizes[0], at));
  }

  lemma {:induction false} StaysPut(sizes: seq<nat>, at: int)
    requires forall i :: 0 <= i < |sizes| ==> sizes[i] >= at + CLUSTER_HEADER_BYTES
    ensures TurnsEnd(sizes, at) == at
  {
    if sizes != [] {
      StaysPut(sizes[1..], at);
    }
  }

  /** A header expected at 100, of which four bytes are there at the first look: the loop waits
      at 92 and never sees it. */
  lemma ShortRead()
    ensures TurnsEnd([104, 500, 500], 100) == 92
  {
    WaitingPosition([104, 500, 500], 100);
  }

  /** A later look at the file. */
  lemma LaterLook(moments: nat -> Moment, headerBytes: nat, sections: nat -> seq<Section>, t: nat, u: nat)
    requires Growing(moments, headerBytes, sections) && t <= u
    ensures Serves(moments(u).file, headerBytes, sections(u)) && |sections(u)| < 0x1_0000
    ensures Grown(moments(t).file, moments(u).file, headerBytes, sections(t), sections(u))
    ensures Partial(moments(u).file, headerBytes, sections(u))
    ensures Joins(moments(u).arrival) ==> |sections(u)| > 0
  {
    hide Serves, Partial, Grown;
  }

  lemma SameBase(headerBytes: nat, ss: seq<Section>, ss': seq<Section>, i: nat)
    requires ss <= ss' && i <= |ss|
    ensures Base(headerBytes, ss', i) == Base(headerBytes, ss, i)
  {
    assert ss'[..i] == ss[..i];
  }
}
