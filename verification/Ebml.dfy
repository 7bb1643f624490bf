/** EBML element headers: the variable-size integers of section 4 of RFC 8794 and the
    element reader GetChank built on them.
  */
module Ebml {
  import opened Words

  const EBML_ID: u32 := 0x1a45dfa3
  const VOID_ID: u32 := 0xec
  const SEGMENT_ID: u32 := 0x18538067
  const SEEKHEAD_ID: u32 := 0x114d9b74
  const TRACKS_ID: u32 := 0x1654ae6b
  const INFO_ID: u32 := 0x1549a966
  const CLUSTER_ID: u32 := 0x1f43b675
  const SIMPLEBLOCK_ID: u32 := 0xa3
  const TIMECODE_ID: u32 := 0xe7
  const CUE_ID: u32 := 0x1c53bb6b

  const CLUSTER_ID_BYTES := 4
  const CLUSTER_HEADER_BYTES := 12

  /** The data size meaning "unknown" in an eight byte size field (section 6.2 of RFC 8794). */
  const UNKNOWN_SIZE := TWO_56 - 1

  /** A Cluster header of unknown size. */
  const FOOTER: seq<u8> := [0x1f, 0x43, 0xb6, 0x75, 0x01, 0xff, 0xff, 0xff, 0xff, 0xff, 0xff, 0xff]

  const CLUSTER_ID_STRING: seq<u8> := [0x1f, 0x43, 0xb6, 0x75]
  const CUE_ID_STRING: seq<u8> := [0x1c, 0x53, 0xbb, 0x6b]

  /** An element header and the extent of the element. */
  datatype Chank = Chank(id: u32, idBytes: u16, dataHeaderPosition: u16, dataBytes: u64, chankBytes: u64)

  /** The length an EBML integer declares in its first byte: one more than its leading
      zero bits, so 9 for a zero byte, which no valid integer starts with. */
  function Width(b: u8): (w: nat)
    ensures 1 <= w <= 9
    ensures w <= 8 ==> Pow2(8 - w) <= b < 2 * Pow2(8 - w)
    ensures w == 9 <==> b == 0
  {
    if b >= 128 then 1 else if b >= 64 then 2 else if b >= 32 then 3
    else if b >= 16 then 4 else if b >= 8 then 5 else if b >= 4 then 6
    else if b >= 2 then 7 else if b >= 1 then 8 else 9
  }

  /** The data bits of the first byte. */
  function Unmarked(b: u8): u8 {
    if Width(b) == 9 then 0 else b % Pow2(8 - Width(b))
  }

  /** The value of the EBML integer at the start of buf. */
  function VintValue(buf: seq<u8>): (n: nat)
    requires |buf| >= 1 && |buf| >= Width(buf[0])
  {
    FromBE([Unmarked(buf[0])] + buf[1..Width(buf[0])])
  }

  /** The ID at the start of buf; the C function returns its low 32 bits. */
  function IdValue(buf: seq<u8>): u32
    requires |buf| >= 1 && |buf| >= Width(buf[0])
  {
    U32(FromBE(buf[..Width(buf[0])]))
  }

  /** The encoding of n in w bytes by section 4 of RFC 8794. */
  function Vint(n: nat, w: nat): (s: seq<u8>)
    requires 1 <= w <= 8 && n < Pow2(8 - w) * Pow256(w - 1)
    ensures |s| == w
  {
    VintFirstByte(n, w);
    [ToBE(n, w)[0] + Pow2(8 - w)] + ToBE(n, w)[1..]
  }

  lemma VintFirstByte(n: nat, w: nat)
    requires 1 <= w <= 8 && n < Pow2(8 - w) * Pow256(w - 1)
    ensures n < Pow256(w)
    ensures ToBE(n, w)[0] < Pow2(8 - w) <= 128
  {
    hide ToBE, Pow256;
    var P := Pow256(w - 1);
    var m := Pow2(8 - w);
    Pow256Step(w - 1);
    MulMonotonic(m, 256, P);
    ToBEAt(n, w, 0);
    DivLess(n, m, P);
    assert n / P < m <= 128;
  }

  lemma Pow256Step(k: nat)
    ensures Pow256(k + 1) == 256 * Pow256(k)
  {
  }

  lemma DivLess(n: nat, q: nat, d: nat)
    requires d > 0 && n < q * d
    ensures n / d < q
  {
    if n / d >= q {
      MulMonotonic(q, n / d, d);
    }
  }

  lemma MulMonotonic(a: nat, b: nat, m: nat)
    requires a <= b
    ensures a * m <= b * m
  {
  }

  /** GetDataBytes undoes the encoding, whatever follows it in the buffer. */
  lemma VintRoundTrip(n: nat, w: nat, tail: seq<u8>)
    requires 1 <= w <= 8 && n < Pow2(8 - w) * Pow256(w - 1)
    ensures Width((Vint(n, w) + tail)[0]) == w
    ensures VintValue(Vint(n, w) + tail) == n
  {
    VintFirstByte(n, w);
    var buf := Vint(n, w) + tail;
    var first := ToBE(n, w)[0];
    assert buf[0] == first + Pow2(8 - w);
    WidthUnique(buf[0], w);
    assert Unmarked(buf[0]) == first by {
      DivUnique(buf[0], Pow2(8 - w), 1, first);
    }
    assert [first] + buf[1..w] == ToBE(n, w);
    FromToBE(n, w);
  }

  lemma WidthUnique(b: u8, w: nat)
    requires 1 <= w <= 8 && Pow2(8 - w) <= b < 2 * Pow2(8 - w)
    ensures Width(b) == w
  {
    assert w == 1 || w == 2 || w == 3 || w == 4 || w == 5 || w == 6 || w == 7 || w == 8;
  }

  /** Every valid integer is the encoding of its value in its own width. */
  lemma VintCanonical(buf: seq<u8>)
    requires |buf| >= 1 && Width(buf[0]) <= 8 && |buf| >= Width(buf[0])
    ensures var w := Width(buf[0]);
            VintValue(buf) < Pow2(8 - w) * Pow256(w - 1) && Vint(VintValue(buf), w) == buf[..w]
  {
    var w := Width(buf[0]);
    var s := [Unmarked(buf[0])] + buf[1..w];
    assert |s| == w;
    UnmarkedBit(buf[0]);
    VintValueSplit(buf);
    ToFromBE(s);
    assert ToBE(VintValue(buf), w) == s;
  }

  lemma UnmarkedBit(b: u8)
    requires Width(b) <= 8
    ensures Unmarked(b) == b - Pow2(8 - Width(b)) < Pow2(8 - Width(b))
  {
    DivUnique(b, Pow2(8 - Width(b)), 1, b - Pow2(8 - Width(b)));
  }

  lemma VintValueSplit(buf: seq<u8>)
    requires |buf| >= 1 && |buf| >= Width(buf[0])
    ensures var w := Width(buf[0]);
            && VintValue(buf) == Unmarked(buf[0]) * Pow256(w - 1) + FromBE(buf[1..w])
            && VintValue(buf) < (Unmarked(buf[0]) + 1) * Pow256(w - 1)
            && (w <= 8 ==> VintValue(buf) < Pow2(8 - w) * Pow256(w - 1))
  {
    hide Pow256, FromBE, Width;
    var w := Width(buf[0]);
    var first := Unmarked(buf[0]);
    FromBEConcat([first], buf[1..w]);
    FromBEBound(buf[1..w]);
    FromBESingle(first);
    MulSucc(first, Pow256(w - 1), FromBE(buf[1..w]));
    if w <= 8 {
      UnmarkedBit(buf[0]);
      MulMonotonic(first + 1, Pow2(8 - w), Pow256(w - 1));
    }
  }

  lemma FromBEStep(s: seq<u8>, k: nat)
    requires k < |s|
    ensures FromBE(s[..k + 1]) == 256 * FromBE(s[..k]) + s[k]
  {
    assert s[..k + 1][..k] == s[..k];
  }

  lemma FromBESingle(b: u8)
    ensures FromBE([b]) == b
  {
    assert [b][..0] == [];
  }

  lemma MulSucc(x: nat, p: nat, y: nat)
    requires y < p
    ensures x * p + y < (x + 1) * p
  {
  }

  /** No value overflows a u64, and only eight or nine byte integers reach the unknown size. */
  lemma VintValueBound(buf: seq<u8>)
    requires |buf| >= 1 && |buf| >= Width(buf[0])
    ensures VintValue(buf) < TWO_64
    ensures Width(buf[0]) <= 8 ==> VintValue(buf) < TWO_56
  {
    Pow256Table();
    VintValueSplit(buf);
    if Width(buf[0]) <= 8 {
      Pow2TimesPow256(Width(buf[0]));
    }
  }

  lemma Pow256Table()
    ensures Pow256(0) == 1 && Pow256(1) == 0x100 && Pow256(2) == 0x1_0000 && Pow256(3) == 0x100_0000
    ensures Pow256(4) == TWO_32 && Pow256(5) == 0x100_0000_0000 && Pow256(6) == 0x1_0000_0000_0000
    ensures Pow256(7) == TWO_56 && Pow256(8) == TWO_64
  {
  }

  lemma Pow2TimesPow256(w: nat)
    requires 1 <= w <= 8
    ensures Pow2(8 - w) * Pow256(w - 1) <= TWO_56
  {
    Pow256Table();
    assert w == 1 || w == 2 || w == 3 || w == 4 || w == 5 || w == 6 || w == 7 || w == 8;
  }

  /** The buffer holds the whole element header at its start. */
  predicate HasHeader(buf: seq<u8>) {
    && |buf| >= 1
    && |buf| > Width(buf[0])
    && |buf| >= Width(buf[0]) + Width(buf[Width(buf[0])])
  }

  function HeaderBytes(buf: seq<u8>): (n: nat)
    requires HasHeader(buf)
    ensures 2 <= n <= 18 && n <= |buf|
  {
    Width(buf[0]) + Width(buf[Width(buf[0])])
  }

  /** The element at the start of buf. A size of 2^56 - 1 reads as unknown: no data. The
      sum of header and data wraps in a u64. */
  function ChankAt(buf: seq<u8>): (c: Chank)
    requires HasHeader(buf)
  {
    var w := Width(buf[0]);
    var n := VintValue(buf[w..]);
    VintValueBound(buf[w..]);
    if n == UNKNOWN_SIZE then
      Chank(IdValue(buf), w, HeaderBytes(buf), 0, HeaderBytes(buf))
    else
      Chank(IdValue(buf), w, HeaderBytes(buf), n, U64(HeaderBytes(buf) + n))
  }

  /** GetChank reads nothing past the header. */
  lemma ChankAtLocal(a: seq<u8>, b: seq<u8>)
    requires HasHeader(a)
    requires |b| >= HeaderBytes(a) && b[..HeaderBytes(a)] == a[..HeaderBytes(a)]
    ensures HasHeader(b) && HeaderBytes(b) == HeaderBytes(a) && ChankAt(b) == ChankAt(a)
  {
    hide FromBE;
    var h := HeaderBytes(a);
    var w := Width(a[0]);
    assert b[0] == b[..h][0] == a[..h][0] == a[0];
    assert b[w] == b[..h][w] == a[..h][w] == a[w];
    assert b[..w] == b[..h][..w] == a[..h][..w] == a[..w];
    var v := Width(a[w]);
    assert h == w + v;
    SliceOfSuffix(a, w, 1, v);
    SliceOfSuffix(b, w, 1, v);
    assert b[w + 1..h] == b[..h][w + 1..] == a[..h][w + 1..] == a[w + 1..h];
  }

  /** A first size byte other than zero rules out the wrap. */
  lemma NoWrap(buf: seq<u8>)
    requires HasHeader(buf) && buf[Width(buf[0])] != 0
    ensures ChankAt(buf).chankBytes == HeaderBytes(buf) + ChankAt(buf).dataBytes < TWO_64
    ensures ChankAt(buf).dataBytes < UNKNOWN_SIZE
  {
    VintValueBound(buf[Width(buf[0])..]);
  }

  /** Reads the ID at the start of buf and its length. */
  method GetEBMLID(buf: seq<u8>) returns (id: u32, idBytes: u16)
    requires |buf| >= 1 && |buf| >= Width(buf[0])
    ensures idBytes == Width(buf[0]) && id == IdValue(buf)
  {
    idBytes := GetWidth(buf[0]);
    var ebmlId: nat := buf[0];
    var i := 1;
    assert buf[..1] == [buf[0]] && [buf[0]][..0] == [];
    while i < idBytes
      invariant 1 <= i <= idBytes
      invariant ebmlId == FromBE(buf[..i])
    {
      assert buf[..i + 1][..i] == buf[..i];
      ebmlId := 256 * ebmlId + buf[i];
      i := i + 1;
    }
    id := U32(ebmlId);
  }

  /** The scan for the highest set bit that both readers start with. */
  method GetWidth(b: u8) returns (w: u16)
    ensures w == Width(b)
  {
    var i := 7;
    assert Pow2(8) == 256;
    while i >= 0
      invariant -1 <= i <= 7
      invariant b < Pow2(i + 1)
      decreases i
    {
      var nthBit := b / Pow2(i) % 2;
      if nthBit == 1 {
        assert Pow2(i) <= b by {
          if b < Pow2(i) {
            DivUnique(b, Pow2(i), 0, b);
          }
        }
        break;
      }
      assert b < Pow2(i) by {
        if b >= Pow2(i) {
          DivUnique(b, Pow2(i), 1, b - Pow2(i));
        }
      }
      i := i - 1;
    }
    w := 8 - i;
    if i >= 0 {
      WidthUnique(b, w);
    }
  }

  /** Reads the size at the start of buf and its length. */
  method GetDataBytes(buf: seq<u8>) returns (dataBytes: u64, sizeBytes: u16)
    requires |buf| >= 1 && |buf| >= Width(buf[0])
    ensures sizeBytes == Width(buf[0]) && dataBytes == VintValue(buf)
  {
    hide FromBE, Width, Pow2, Pow256;
    sizeBytes := GetWidth(buf[0]);
    ghost var s := [Unmarked(buf[0])] + buf[1..sizeBytes];
    var value: nat := if sizeBytes == 9 then 0 else buf[0] % Pow2(8 - sizeBytes);
    var i := 0;
    assert s[..1] == [s[0]];
    FromBESingle(s[0]);
    while i < sizeBytes - 1
      invariant 0 <= i <= sizeBytes - 1
      invariant value == FromBE(s[..i + 1])
    {
      FromBEStep(s, i + 1);
      value := 256 * value + buf[i + 1];
      i := i + 1;
    }
    assert s[..sizeBytes] == s;
    VintValueBound(buf);
    dataBytes := value;
  }

  lemma HeaderFits(buf: seq<u8>)
    requires HasHeader(buf)
    ensures |buf| > Width(buf[0]) && |buf| >= Width(buf[0]) + Width(buf[Width(buf[0])])
  {
  }

  /** Reads an element header. */
  method GetChank(buf: seq<u8>) returns (c: Chank)
    requires HasHeader(buf)
    ensures c == ChankAt(buf)
  {
    hide VintValue, IdValue, Width, HasHeader, U64;
    HeaderFits(buf);
    VintValueBound(buf[Width(buf[0])..]);
    WrapBack(HeaderBytes(buf), VintValue(buf[Width(buf[0])..]));
    var id, sizeBytes := GetEBMLID(buf);
    var idBytes := sizeBytes;
    var position: u64 := sizeBytes;
    var dataBytes;
    dataBytes, sizeBytes := GetDataBytes(buf[position..]);
    position := position + sizeBytes;
    if dataBytes == UNKNOWN_SIZE {
      c := Chank(id, idBytes, position, 0, position);
    } else {
      position := U64(position + dataBytes);
      c := Chank(id, idBytes, U16(U64(position - dataBytes)), dataBytes, position);
    }
  }

  /** The bytes a closed Cluster header of n data bytes has on disk: the ID, the marker
      of an eight byte size, and the seven bytes patched in place. */
  function ClusterHeader(n: nat): (h: seq<u8>)
    ensures |h| == CLUSTER_HEADER_BYTES
  {
    CLUSTER_ID_STRING + [0x01] + ToBE(n, 7)
  }

  /** The patched size field reads back as n data bytes exactly while n is below the
      unknown size. */
  lemma ClusterHeaderReadsBack(n: nat, tail: seq<u8>)
    requires n < TWO_56
    ensures var h := ClusterHeader(n) + tail;
            && HasHeader(h) && HeaderBytes(h) == CLUSTER_HEADER_BYTES
            && ChankAt(h).id == CLUSTER_ID
            && ChankAt(h).dataHeaderPosition == CLUSTER_HEADER_BYTES
            && (ChankAt(h).dataBytes == n <==> n != UNKNOWN_SIZE)
            && (n != UNKNOWN_SIZE ==> ChankAt(h).chankBytes == CLUSTER_HEADER_BYTES + n)
            && (n == UNKNOWN_SIZE ==> ChankAt(h).chankBytes == CLUSTER_HEADER_BYTES)
  {
    var h := ClusterHeader(n) + tail;
    ClusterIdReads(h);
    Pow256Table();
    ClusterSizeIsVint(n);
    assert h[4..] == Vint(n, 8) + tail;
    VintRoundTrip(n, 8, tail);
  }

  lemma ClusterSizeIsVint(n: nat)
    requires n < TWO_56
    ensures n < Pow2(0) * Pow256(7) && Vint(n, 8) == [0x01] + ToBE(n, 7)
  {
    Pow256Table();
    VintFirstByte(n, 8);
    var s := ToBE(n, 8);
    assert s[0] == 0;
    forall i | 0 <= i < 7 ensures s[i + 1] == ToBE(n, 7)[i] {
      ToBEAt(n, 8, i + 1);
      ToBEAt(n, 7, i);
    }
    assert s[1..] == ToBE(n, 7);
  }

  lemma ClusterIdReads(h: seq<u8>)
    requires |h| >= 5 && (h[..4] == CLUSTER_ID_STRING || h[..4] == CUE_ID_STRING)
    ensures Width(h[0]) == 4
    ensures IdValue(h) == if h[..4] == CLUSTER_ID_STRING then CLUSTER_ID else CUE_ID
  {
    var s := h[..4];
    assert h[0] == s[0];
    assert s[..3][..2] == s[..2] && s[..2][..1] == s[..1] && s[..1][..0] == [];
    assert FromBE(s[..1]) == s[0];
    assert FromBE(s[..2]) == 256 * FromBE(s[..1]) + s[1];
    assert FromBE(s[..3]) == 256 * FromBE(s[..2]) + s[2];
  }

  /** The header written for an open cluster is the unknown-size one. */
  lemma FooterReadsEmpty(tail: seq<u8>)
    ensures FOOTER == ClusterHeader(UNKNOWN_SIZE)
    ensures HasHeader(FOOTER + tail) && ChankAt(FOOTER + tail).id == CLUSTER_ID
    ensures ChankAt(FOOTER + tail).dataBytes == 0 && ChankAt(FOOTER + tail).chankBytes == CLUSTER_HEADER_BYTES
  {
    var ones: seq<u8> := [0xff, 0xff, 0xff, 0xff, 0xff, 0xff, 0xff];
    assert ToBE(UNKNOWN_SIZE, 7) == ones by {
      AllOnes(7);
    }
    ClusterHeaderReadsBack(UNKNOWN_SIZE, tail);
  }

  lemma {:induction false} AllOnes(k: nat)
    ensures ToBE(Pow256(k) - 1, k) == seq(k, _ => 0xff)
  {
    if k > 0 {
      AllOnes(k - 1);
      DivUnique(Pow256(k) - 1, 256, Pow256(k - 1) - 1, 255);
    }
  }
}
