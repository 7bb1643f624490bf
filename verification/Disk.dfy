/** The layout of a stream file: a header, then clusters, each a twelve byte header and a
    payload; and the proof that a peer's file has that layout after every packet.
  */
module Disk {
  import opened Words
  import opened Ebml
  import opened Blocks
  import opened Files
  import opened Peers

  /** A cluster on disk. */
  datatype Stored = Stored(head: seq<u8>, payload: seq<u8>)

  function Region(cs: seq<Stored>): seq<u8> {
    if cs == [] then [] else cs[0].head + cs[0].payload + Region(cs[1..])
  }

  lemma {:induction false} RegionSplit(a: seq<Stored>, b: seq<Stored>)
    ensures Region(a + b) == Region(a) + Region(b)
  {
    if a == [] {
      assert a + b == b;
    } else {
      assert (a + b)[1..] == a[1..] + b;
      RegionSplit(a[1..], b);
    }
  }

  lemma RegionSnoc(cs: seq<Stored>, c: Stored)
    ensures Region(cs + [c]) == Region(cs) + (c.head + c.payload)
  {
    RegionSplit(cs, [c]);
    assert [c][1..] == [];
  }

  /** A cluster as a peer closes it. */
  function Close(payload: seq<u8>): Stored {
    Stored(ClusterHeader(|payload|), payload)
  }

  function Closed(payloads: seq<seq<u8>>): (cs: seq<Stored>)
    ensures |cs| == |payloads|
  {
    seq(|payloads|, i requires 0 <= i < |payloads| => Close(payloads[i]))
  }

  lemma ClosedSnoc(payloads: seq<seq<u8>>, p: seq<u8>)
    ensures Closed(payloads + [p]) == Closed(payloads) + [Close(p)]
    ensures Region(Closed(payloads + [p])) == Region(Closed(payloads)) + (ClusterHeader(|p|) + p)
  {
    assert Closed(payloads + [p]) == Closed(payloads) + [Close(p)];
    RegionSnoc(Closed(payloads), Close(p));
  }

  /** The header of the open cluster: as first written, or patched with the flushed bytes. */
  predicate OpenHead(head: seq<u8>, dataBytes: nat) {
    head == ClusterHeader(dataBytes) || (dataBytes == 0 && head == FOOTER)
  }

  /** The file is a header, closed clusters whose size fields tell their payloads, and an
      open cluster at pos with its payload so far. */
  ghost predicate Layout(file: seq<u8>, pos: nat, dataBytes: nat,
                         header: seq<u8>, closed: seq<seq<u8>>, open: seq<u8>)
  {
    && pos == |header + Region(Closed(closed))|
    && |file| == pos + CLUSTER_HEADER_BYTES + |open|
    && file[..pos] == header + Region(Closed(closed))
    && OpenHead(file[pos..pos + CLUSTER_HEADER_BYTES], dataBytes)
    && file[pos + CLUSTER_HEADER_BYTES..] == open
  }

  /** The file is laid out so, the bytes already counted in the open cluster and the pending
      blocks add up to what is written behind its header, and the position is the end. */
  ghost predicate OnDisk(s: State, header: seq<u8>, closed: seq<seq<u8>>, open: seq<u8>) {
    && 0 < |s.infos| && s.blockNum <= |s.infos|
    && s.fpos == |s.file|
    && s.headerBytes == |header|
    && s.cluster.idBytes == CLUSTER_ID_BYTES
    && s.cluster.chankBytes == CLUSTER_HEADER_BYTES + s.cluster.dataBytes
    && s.cluster.dataBytes + SumBytes(s.infos[..s.blockNum]) == |open|
    && Layout(s.file, s.cluster.pos, s.cluster.dataBytes, header, closed, open)
  }

  lemma FooterIsMarked(n: nat)
    ensures FOOTER[..5] == ClusterHeader(n)[..5]
    ensures ClusterHeader(n)[5..] == ToBE(n, 7)
  {
  }

  lemma PatchHead(file: seq<u8>, p: nat, was: nat, n: nat)
    requires p + CLUSTER_HEADER_BYTES <= |file|
    requires OpenHead(file[p..p + CLUSTER_HEADER_BYTES], was)
    ensures var f := Overwrite(file, p + 5, ToBE(n, 7));
            && |f| == |file|
            && f[..p] == file[..p] && f[p + CLUSTER_HEADER_BYTES..] == file[p + CLUSTER_HEADER_BYTES..]
            && f[p..p + CLUSTER_HEADER_BYTES] == ClusterHeader(n)
  {
    hide ToBE;
    var f := Overwrite(file, p + 5, ToBE(n, 7));
    FooterIsMarked(was);
    FooterIsMarked(n);
    var head := file[p..p + CLUSTER_HEADER_BYTES];
    assert head[..5] == ClusterHeader(n)[..5];
    assert f[p..p + 5] == head[..5];
    assert f[p + 5..p + CLUSTER_HEADER_BYTES] == ToBE(n, 7);
    assert f[p..p + CLUSTER_HEADER_BYTES] == f[p..p + 5] + f[p + 5..p + CLUSTER_HEADER_BYTES];
    assert ClusterHeader(n) == ClusterHeader(n)[..5] + ClusterHeader(n)[5..];
  }

  lemma PatchLayout(file: seq<u8>, pos: nat, was: nat, n: nat, header: seq<u8>, closed: seq<seq<u8>>, open: seq<u8>)
    requires Layout(file, pos, was, header, closed, open)
    ensures pos + CLUSTER_HEADER_BYTES <= |file|
    ensures var f := Overwrite(file, pos + 5, ToBE(n, 7));
            && Layout(f, pos, n, header, closed, open)
            && f[pos..pos + CLUSTER_HEADER_BYTES] == ClusterHeader(n)
  {
    hide Region, Closed, ClusterHeader;
    PatchHead(file, pos, was, n);
  }

  /** A cluster whose size field is up to date becomes closed when the next one opens. */
  lemma CloseLayout(file: seq<u8>, pos: nat, header: seq<u8>, closed: seq<seq<u8>>, open: seq<u8>)
    requires Layout(file, pos, |open|, header, closed, open)
    requires file[pos..pos + CLUSTER_HEADER_BYTES] == ClusterHeader(|open|)
    ensures file == header + Region(Closed(closed + [open]))
    ensures Layout(file + FOOTER, |file|, 0, header, closed + [open], [])
  {
    hide ClusterHeader, Closed;
    ClosedSnoc(closed, open);
    assert file == file[..pos] + (file[pos..pos + CLUSTER_HEADER_BYTES] + file[pos + CLUSTER_HEADER_BYTES..]);
    var g := file + FOOTER;
    assert g[..|file|] == file && g[|file|..|file| + CLUSTER_HEADER_BYTES] == FOOTER;
  }

  lemma AppendLayout(file: seq<u8>, pos: nat, dataBytes: nat, header: seq<u8>, closed: seq<seq<u8>>, open: seq<u8>,
                     bytes: seq<u8>)
    requires Layout(file, pos, dataBytes, header, closed, open)
    ensures Layout(file + bytes, pos, dataBytes, header, closed, open + bytes)
  {
    hide Region, Closed, OpenHead;
    var g := file + bytes;
    assert g[..pos] == file[..pos];
    assert g[pos..pos + CLUSTER_HEADER_BYTES] == file[pos..pos + CLUSTER_HEADER_BYTES];
    assert g[pos + CLUSTER_HEADER_BYTES..] == open + bytes;
  }

  lemma OnDiskFileOk(s: State, header: seq<u8>, closed: seq<seq<u8>>, open: seq<u8>)
    requires OnDisk(s, header, closed, open)
    ensures FileOk(s) && |open| <= |s.file|
  {
  }

  lemma ExportAtEnd(s: State, bytes: seq<u8>)
    requires s.fpos == |s.file|
    ensures Export(s, bytes) == s.(file := s.file + bytes, fpos := |s.file| + |bytes|)
  {
  }

  lemma FlushShape(s: State, n: nat)
    requires FileOk(s) && s.cluster.idBytes == CLUSTER_ID_BYTES && n < TWO_56
    requires s.cluster.dataBytes + SumBytes(s.infos[..s.blockNum]) == n
    requires s.cluster.chankBytes == CLUSTER_HEADER_BYTES + s.cluster.dataBytes
    ensures Flush(s, s.blockNum)
            == s.(cluster := s.cluster.(dataBytes := n, chankBytes := CLUSTER_HEADER_BYTES + n),
                  file := Overwrite(s.file, s.cluster.pos + 5, ToBE(n, 7)),
                  writePos := s.fpos)
  {
    hide Overwrite, ToBE;
  }

  /** Flushing the pending blocks brings the size field up to date. */
  lemma FlushOnDisk(s: State, header: seq<u8>, closed: seq<seq<u8>>, open: seq<u8>)
    requires OnDisk(s, header, closed, open) && |s.file| < TWO_56
    ensures FileOk(s)
    ensures var w := Flush(s, s.blockNum);
            && w.file[w.cluster.pos..w.cluster.pos + CLUSTER_HEADER_BYTES] == ClusterHeader(|open|)
            && w.cluster.dataBytes == |open| && w.fpos == w.writePos == |w.file|
            && OnDisk(w.(blockNum := 0), header, closed, open)
            && w == s.(cluster := w.cluster, file := w.file, writePos := w.writePos)
            && w.cluster.number == s.cluster.number && |w.file| == |s.file|
  {
    OnDiskFileOk(s, header, closed, open);
    PatchLayout(s.file, s.cluster.pos, s.cluster.dataBytes, |open|, header, closed, open);
    FlushShape(s, |open|);
    hide Layout, ClusterHeader, Flush, Overwrite, ToBE;
    assert s.infos[..0] == [];
  }

  /** END: the last cluster is closed and a header of unknown size ends the file. */
  lemma EndOnDisk(s: State, header: seq<u8>, closed: seq<seq<u8>>, open: seq<u8>)
    requires OnDisk(s, header, closed, open) && |s.file| < TWO_56
    ensures FileOk(s)
    ensures End(s).file == header + Region(Closed(closed + [open])) + FOOTER && !End(s).running
  {
    FlushOnDisk(s, header, closed, open);
    var w := Flush(s, s.blockNum);
    hide Flush;
    CloseLayout(w.file, w.cluster.pos, header, closed, open);
    ExportAtEnd(w, FOOTER);
  }

  /** Closing the open cluster and opening the next. */
  lemma RolloverOnDisk(s: State, header: seq<u8>, closed: seq<seq<u8>>, open: seq<u8>)
    requires OnDisk(s, header, closed, open) && |s.file| < TWO_56
    ensures FileOk(s)
    ensures var c := Flush(s, s.blockNum);
            var w := OpenCluster(c.(prevCluster := c.cluster, cluster := NO_CLUSTER)).(blockNum := 0);
            OnDisk(w, header, closed + [open], []) && w.infos == s.infos
  {
    FlushOnDisk(s, header, closed, open);
    var c := Flush(s, s.blockNum);
    hide Flush;
    CloseLayout(c.file, c.cluster.pos, header, closed, open);
    hide Layout;
    var next := Cluster(c.writePos, c.block.clusterSeq, CLUSTER_ID_BYTES, 0, CLUSTER_HEADER_BYTES);
    ExportAtEnd(c.(prevCluster := c.cluster, cluster := next), FOOTER);
    assert c.infos[..0] == [];
  }

  /** A block's bytes go behind the open cluster; its descriptor becomes pending. */
  lemma AppendOnDisk(s: State, header: seq<u8>, closed: seq<seq<u8>>, open: seq<u8>, info: BlockInfo, bytes: seq<u8>)
    requires OnDisk(s, header, closed, open) && s.blockNum < |s.infos| && |bytes| == info.bytes
    ensures var w := Export(s, bytes);
            OnDisk(w.(infos := w.infos[w.blockNum := info], blockNum := w.blockNum + 1,
                      prevBlock := w.block, block := NO_BLOCK), header, closed, open + bytes)
  {
    ExportAtEnd(s, bytes);
    AppendLayout(s.file, s.cluster.pos, s.cluster.dataBytes, header, closed, open, bytes);
    hide Layout;
    var infos := s.infos[s.blockNum := info];
    assert infos[..s.blockNum + 1][..s.blockNum] == s.infos[..s.blockNum];
  }
}
