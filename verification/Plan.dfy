/** What the segmenter does, told in element sizes alone.

    Cut takes the sizes of the elements still ahead and says what the next block is. It
    never looks at a byte of the cluster, so two clusters whose elements have the same sizes
    are cut alike. NextBlockIsCut shows that the byte-level machine refines it.
  */
module Plan {
  import opened Words
  import opened Ebml
  import opened Blocks
  import opened Segmentation

  /** The most bytes an oversized unit may have: 255 pieces, the range of a u8 counter. */
  const MAX_UNIT := 255_000

  /** One Timecode: a one byte ID, a size of at most eight bytes, at most eight data bytes. */
  const MAX_TIMECODE := 17

  function Sum(s: seq<nat>): nat {
    if s == [] then 0 else s[0] + Sum(s[1..])
  }

  /** How many leading elements fit into room bytes. */
  function Greedy(sizes: seq<nat>, room: nat): (k: nat)
    ensures k <= |sizes| && Sum(sizes[..k]) <= room
    ensures k < |sizes| ==> room < Sum(sizes[..k]) + sizes[k]
  {
    if sizes == [] || room < sizes[0] then
      assert sizes[..0] == [];
      0
    else
      var k := Greedy(sizes[1..], room - sizes[0]);
      assert sizes[..k + 1][1..] == sizes[1..][..k];
      k + 1
  }

  lemma {:induction false} SumSplit(s: seq<nat>, k: nat)
    requires k <= |s|
    ensures Sum(s) == Sum(s[..k]) + Sum(s[k..])
  {
    if k == 0 {
      assert s[..0] == [] && s[0..] == s;
    } else {
      SumSplit(s[1..], k - 1);
      assert s[..k][1..] == s[1..][..k - 1] && s[1..][k - 1..] == s[k..];
    }
  }

  /** The outcome of one cut: the block, the status returned, the bytes of the current unit
      still to come, and the sizes of the elements behind it. */
  datatype Planned = Planned(info: BlockInfo, status: int, left: nat, sizes: seq<nat>)

  function Successor(prev: BlockInfo): BlockInfo {
    NO_BLOCK.(clusterSeq := prev.clusterSeq,
              number := if prev.status == STATUS_INIT then 1 else U32(prev.number + 1),
              pos := if prev.status == STATUS_INIT then CLUSTER_HEADER_BYTES else U32(prev.pos + prev.bytes))
  }

  /** The scan sees the ID behind the last element when four more bytes fit the window. */
  function FillStatus(k: nat, sizes: seq<nat>, room: nat): int
    requires k <= |sizes|
  {
    if k == |sizes| && Sum(sizes[..k]) + 4 <= room then CLUSTER_END else if k > 0 then 1 else 0
  }

  /** A cluster opens with a unit when the Timecode fits and the element behind it does not;
      later on a single element that does not fit is a unit. */
  predicate StartsUnit(prev: BlockInfo, sizes: seq<nat>) {
    var k := Greedy(sizes, MAX_BLOCK_BYTES);
    k < |sizes| && (k == 0 || (k == 1 && prev.status == STATUS_INIT))
  }

  function Cut(prev: BlockInfo, left: nat, sizes: seq<nat>): Planned {
    var next := Successor(prev);
    if left > MAX_BLOCK_BYTES then
      Planned(LaterPiece(next, prev, MAX_BLOCK_BYTES), 0, left - MAX_BLOCK_BYTES, sizes)
    else if left > 0 then
      var k := Greedy(sizes, MAX_BLOCK_BYTES - left);
      var status := FillStatus(k, sizes, MAX_BLOCK_BYTES - left);
      Planned(LaterPiece(next, prev, left + Sum(sizes[..k]))
              .(status := if status > 0 then STATUS_BLOCK else STATUS_PIECE), status, 0, sizes[k..])
    else if StartsUnit(prev, sizes) then
      var k := Greedy(sizes, MAX_BLOCK_BYTES);
      var unit := Sum(sizes[..k]) + sizes[k];
      Planned(next.(status := STATUS_PIECE, bytes := MAX_BLOCK_BYTES, pieceSeq := 1,
                    totalPieceBytes := U16(unit), totalPieces := U8(CeilDiv(unit, MAX_BLOCK_BYTES))),
              if k == 0 then 0 else ONLY_TIMECODE, unit - MAX_BLOCK_BYTES, sizes[k + 1..])
    else
      var k := Greedy(sizes, MAX_BLOCK_BYTES);
      Planned(next.(status := STATUS_SIMPLEBLOCK, bytes := Sum(sizes[..k])),
              FillStatus(k, sizes, MAX_BLOCK_BYTES), 0, sizes[k..])
  }

  /** Sizes a segmenter that has gone past the Timecode (or not yet, if opening) copes with. */
  predicate WellSized(opening: bool, sizes: seq<nat>) {
    && (forall i :: 0 <= i < |sizes| ==> 2 <= sizes[i] <= MAX_UNIT)
    && (opening ==> |sizes| > 0 && sizes[0] <= MAX_TIMECODE)
    && (opening && |sizes| > 1 ==> sizes[0] + sizes[1] <= MAX_UNIT)
  }

  /** The piece fields of prev agree with the bytes left of the current unit. */
  predicate Tracks(prev: BlockInfo, left: nat) {
    if left == 0 then
      prev.status == STATUS_PIECE ==> prev.totalPieces == prev.pieceSeq
    else
      && prev.status == STATUS_PIECE
      && prev.totalPieces - prev.pieceSeq == CeilDiv(left, MAX_BLOCK_BYTES)
      && U16(prev.totalPieceBytes - MAX_BLOCK_BYTES * prev.pieceSeq - left) == 0
  }

  /** A cut keeps the relation, never makes a block of more than 1000 bytes, accounts for
      every byte, and makes an empty block only to report the end. */
  ghost predicate SoundCut(prev: BlockInfo, left: nat, sizes: seq<nat>, c: Planned) {
    && Tracks(c.info, c.left) && WellSized(false, c.sizes)
    && c.info.bytes <= MAX_BLOCK_BYTES
    && c.info.bytes + c.left + Sum(c.sizes) == left + Sum(sizes)
    && (c.info.bytes == 0 ==> c.status == CLUSTER_END)
    && (c.status == CLUSTER_END ==> c.left == 0 && c.sizes == [])
    && c.info.status in {STATUS_PIECE, STATUS_SIMPLEBLOCK, STATUS_BLOCK}
  }

  lemma CutInvariant(prev: BlockInfo, left: nat, sizes: seq<nat>)
    requires Tracks(prev, left) && WellSized(prev.status == STATUS_INIT, sizes)
    ensures SoundCut(prev, left, sizes, Cut(prev, left, sizes))
  {
    if left > MAX_BLOCK_BYTES {
      CutMiddle(prev, left, sizes);
    } else if left > 0 {
      CutLast(prev, left, sizes);
    } else if StartsUnit(prev, sizes) {
      CutUnit(prev, sizes);
    } else {
      CutWhole(prev, sizes);
    }
  }

  lemma CutMiddle(prev: BlockInfo, left: nat, sizes: seq<nat>)
    requires left > MAX_BLOCK_BYTES
    requires Tracks(prev, left) && WellSized(prev.status == STATUS_INIT, sizes)
    ensures SoundCut(prev, left, sizes, Cut(prev, left, sizes))
  {
    hide Sum, Greedy, WellSized;
    assert CeilDiv(left, MAX_BLOCK_BYTES) == CeilDiv(left - MAX_BLOCK_BYTES, MAX_BLOCK_BYTES) + 1;
    NotOpening(prev, sizes);
  }

  lemma NotOpening(prev: BlockInfo, sizes: seq<nat>)
    requires WellSized(prev.status == STATUS_INIT, sizes)
    ensures WellSized(false, sizes)
  {
  }

  lemma CutLast(prev: BlockInfo, left: nat, sizes: seq<nat>)
    requires 0 < left <= MAX_BLOCK_BYTES
    requires Tracks(prev, left) && WellSized(prev.status == STATUS_INIT, sizes)
    ensures SoundCut(prev, left, sizes, Cut(prev, left, sizes))
  {
    hide Sum, Greedy, U16, U32;
    SumSplit(sizes, Greedy(sizes, MAX_BLOCK_BYTES - left));
    assert CeilDiv(left, MAX_BLOCK_BYTES) == 1;
    EmptyRest(sizes, Greedy(sizes, MAX_BLOCK_BYTES - left));
  }

  lemma EmptyRest(sizes: seq<nat>, k: nat)
    requires k <= |sizes|
    ensures k == |sizes| ==> sizes[k..] == []
  {
  }

  lemma CutUnit(prev: BlockInfo, sizes: seq<nat>)
    requires StartsUnit(prev, sizes)
    requires WellSized(prev.status == STATUS_INIT, sizes)
    ensures SoundCut(prev, 0, sizes, Cut(prev, 0, sizes))
  {
    hide Sum, Greedy, U32, U16, U8, CeilDiv;
    var k := Greedy(sizes, MAX_BLOCK_BYTES);
    UnitBound(prev, sizes);
    SumSplit(sizes, k);
    SumTail(sizes, k);
    UnitTracks(Sum(sizes[..k]) + sizes[k]);
  }

  lemma UnitTracks(unit: nat)
    requires MAX_BLOCK_BYTES < unit <= MAX_UNIT
    ensures U8(CeilDiv(unit, MAX_BLOCK_BYTES)) - 1 == CeilDiv(unit - MAX_BLOCK_BYTES, MAX_BLOCK_BYTES)
    ensures U16(U16(unit) - MAX_BLOCK_BYTES * 1 - (unit - MAX_BLOCK_BYTES)) == 0
  {
    assert CeilDiv(unit, MAX_BLOCK_BYTES) == CeilDiv(unit - MAX_BLOCK_BYTES, MAX_BLOCK_BYTES) + 1 <= 255;
  }

  lemma SumTail(sizes: seq<nat>, k: nat)
    requires k < |sizes|
    ensures Sum(sizes[k..]) == sizes[k] + Sum(sizes[k + 1..])
  {
    assert sizes[k..][1..] == sizes[k + 1..];
  }

  lemma CutWhole(prev: BlockInfo, sizes: seq<nat>)
    requires !StartsUnit(prev, sizes)
    requires Tracks(prev, 0) && WellSized(prev.status == STATUS_INIT, sizes)
    ensures SoundCut(prev, 0, sizes, Cut(prev, 0, sizes))
  {
    hide Sum, Greedy, U32;
    var k := Greedy(sizes, MAX_BLOCK_BYTES);
    SumSplit(sizes, k);
    EmptyRest(sizes, k);
    SumAtLeast(sizes, k);
    if k == 0 {
      assert sizes == [];
      SumEmpty(sizes[..0]);
    }
  }

  lemma SumEmpty(sizes: seq<nat>)
    requires sizes == []
    ensures Sum(sizes) == 0
  {
  }

  lemma SumAtLeast(sizes: seq<nat>, k: nat)
    requires k <= |sizes|
    ensures k > 0 ==> Sum(sizes[..k]) >= sizes[0]
  {
    if k > 0 {
      assert sizes[..k][0] == sizes[0];
    }
  }

  lemma UnitBound(prev: BlockInfo, sizes: seq<nat>)
    requires WellSized(prev.status == STATUS_INIT, sizes) && StartsUnit(prev, sizes)
    ensures var k := Greedy(sizes, MAX_BLOCK_BYTES);
            MAX_BLOCK_BYTES < Sum(sizes[..k]) + sizes[k] <= MAX_UNIT
  {
    var k := Greedy(sizes, MAX_BLOCK_BYTES);
    if k == 1 {
      assert sizes[..1][1..] == [];
    }
  }

  /** The blocks a cluster is cut into. */
  function CutAll(prev: BlockInfo, left: nat, sizes: seq<nat>): (bs: seq<BlockInfo>)
    requires Tracks(prev, left) && WellSized(prev.status == STATUS_INIT, sizes)
    ensures |bs| > 0
    decreases left + Sum(sizes)
  {
    CutInvariant(prev, left, sizes);
    var c := Cut(prev, left, sizes);
    if c.status == CLUSTER_END then [c.info] else [c.info] + CutAll(c.info, c.left, c.sizes)
  }
}
