/** The Internet checksum of IP and UDP headers (RFC 1071), computed on the host's own
    little-endian words.
  */
module Checksum {
  import opened Words

  const PSEUDO_HEADER_BYTES := 12
  const MAX_CHECKED_BYTES := 65535

  /** The sum of the u16 words a little-endian host sees in buf; an odd byte at the end is
      added as it is. */
  function SumLE(buf: seq<u8>): nat {
    if buf == [] then 0
    else if |buf| == 1 then buf[0]
    else buf[0] + 256 * buf[1] + SumLE(buf[2..])
  }

  /** The sum of the words in network byte order, an odd byte padded with zero: what RFC 1071
      prescribes. */
  function SumBE(buf: seq<u8>): nat {
    if buf == [] then 0
    else if |buf| == 1 then 256 * buf[0]
    else 256 * buf[0] + buf[1] + SumBE(buf[2..])
  }

  /** One addition of the carries: (sum >> 16) + (sum & 0xffff). */
  function Fold(sum: nat): nat { sum / 0x1_0000 + sum % 0x1_0000 }

  /** Two folds and a flip of all bits. */
  function Complement(sum: u32): u16 {
    TwoFolds(sum);
    0xffff - Fold(Fold(sum))
  }

  /** Two folds leave sixteen bits, congruent to the sum, and zero only for a zero sum. */
  lemma TwoFolds(sum: u32)
    ensures Fold(Fold(sum)) <= 0xffff
    ensures Fold(Fold(sum)) % 0xffff == sum % 0xffff
    ensures Fold(Fold(sum)) == 0 <==> sum == 0
  {
    FoldCongruent(sum);
    FoldCongruent(Fold(sum));
  }

  lemma FoldCongruent(sum: nat)
    ensures Fold(sum) % 0xffff == sum % 0xffff
  {
    var q := sum / 0x1_0000;
    assert sum == 0xffff * q + Fold(sum);
    AddMultiple(Fold(sum), q);
  }

  lemma AddMultiple(x: int, q: int)
    ensures (x + 0xffff * q) % 0xffff == x % 0xffff
  {
    DivUnique(x + 0xffff * q, 0xffff, x / 0xffff + q, x % 0xffff);
  }

  /** A sixteen bit number is known by its residue and whether it is zero. */
  lemma SameResidue(a: nat, b: nat)
    requires a <= 0xffff && b <= 0xffff && a % 0xffff == b % 0xffff && (a == 0 <==> b == 0)
    ensures a == b
  {
    if a < 0xffff {
      DivUnique(a, 0xffff, 0, a);
    } else {
      DivUnique(a, 0xffff, 1, 0);
    }
    if b < 0xffff {
      DivUnique(b, 0xffff, 0, b);
    } else {
      DivUnique(b, 0xffff, 1, 0);
    }
  }

  /** The u32 accumulator cannot overflow on 65535 bytes and a pseudo header. */
  lemma {:induction false} SumBound(buf: seq<u8>)
    ensures 2 * SumLE(buf) <= 0xffff * (|buf| + 1) && 2 * SumBE(buf) <= 0xffff * (|buf| + 1)
    ensures |buf| <= MAX_CHECKED_BYTES + PSEUDO_HEADER_BYTES ==> SumLE(buf) < TWO_32 && SumBE(buf) < TWO_32
  {
    if |buf| >= 2 {
      SumBound(buf[2..]);
    }
  }

  /** Words add up over a split at an even place. */
  lemma {:induction false} SumConcat(a: seq<u8>, b: seq<u8>)
    requires |a| % 2 == 0
    ensures SumLE(a + b) == SumLE(a) + SumLE(b)
  {
    if a == [] {
      assert a + b == b;
    } else {
      SumConcat(a[2..], b);
      assert (a + b)[2..] == a[2..] + b;
    }
  }

  /** Every byte counts once in both sums: in network order one at an even place as the high
      byte of its word, on the host as the low one. */
  lemma {:induction false} EveryByteCounts(buf: seq<u8>, b: u8)
    ensures SumBE([]) == SumLE([]) == 0
    ensures SumBE(buf + [b]) == SumBE(buf) + if |buf| % 2 == 0 then 0x100 * (b as int) else b
    ensures SumLE(buf + [b]) == SumLE(buf) + if |buf| % 2 == 0 then b else 0x100 * (b as int)
  {
    if |buf| >= 2 {
      EveryByteCounts(buf[2..], b);
      assert (buf + [b])[2..] == buf[2..] + [b];
    }
  }

  /** Storing a word in a zeroed field at an even place. */
  function Stored(buf: seq<u8>, at: nat, word: u16): seq<u8>
    requires at + 2 <= |buf|
  {
    buf[..at] + [word % 256, word / 256] + buf[at + 2..]
  }

  lemma StoredSum(buf: seq<u8>, at: nat, word: u16)
    requires at % 2 == 0 && at + 2 <= |buf| && buf[at] == buf[at + 1] == 0
    ensures SumLE(Stored(buf, at, word)) == SumLE(buf) + word
  {
    hide SumLE, Pair;
    var field: seq<u8> := [word % 256, word / 256];
    WordBetween(buf[..at], field, buf[at + 2..]);
    WordBetween(buf[..at], buf[at..at + 2], buf[at + 2..]);
    WordPair(word);
    assert Stored(buf, at, word) == buf[..at] + (field + buf[at + 2..]);
    assert buf == buf[..at] + (buf[at..at + 2] + buf[at + 2..]);
  }

  lemma WordPair(word: u16)
    ensures Pair(word / 256, word % 256) == word && Pair(0, 0) == 0
  {
    var n: int := word;
    assert n == 256 * (n / 256) + n % 256;
  }

  lemma WordBetween(before: seq<u8>, word: seq<u8>, after: seq<u8>)
    requires |before| % 2 == 0 && |word| == 2
    ensures SumLE(before + (word + after)) == SumLE(before) + Pair(word[1], word[0]) + SumLE(after)
  {
    SumConcat(before, word + after);
    SumConcat(word, after);
    assert word[2..] == [];
  }

  /** A buffer whose zeroed checksum field received the checksum has checksum 0. */
  lemma ChecksReceived(buf: seq<u8>, at: nat)
    requires |buf| <= MAX_CHECKED_BYTES + PSEUDO_HEADER_BYTES
    requires at % 2 == 0 && at + 2 <= |buf| && buf[at] == buf[at + 1] == 0
    ensures SumLE(buf) < TWO_32
    ensures var sent := Stored(buf, at, Complement(SumLE(buf)));
            SumLE(sent) < TWO_32 && Complement(SumLE(sent)) == 0
  {
    hide SumLE, Fold;
    SumBound(buf);
    var sum := SumLE(buf);
    var word := Complement(sum);
    var sent := Stored(buf, at, word);
    StoredSum(buf, at, word);
    SumBound(sent);
    TwoFolds(sum);
    TwoFolds(sum + word);
    FullSum(sum, word);
    SameResidue(Fold(Fold(sum + word)), 0xffff);
  }

  lemma FullSum(sum: u32, word: u16)
    requires word == Complement(sum)
    ensures sum + word > 0 && (sum + word) % 0xffff == 0xffff % 0xffff == 0
  {
    TwoFolds(sum);
    var f := Fold(Fold(sum));
    hide Fold;
    var q := sum / 0xffff - f / 0xffff;
    assert sum == f + 0xffff * q;
    AddMultiple(0xffff, q);
  }

  /** The two bytes of a word exchanged. */
  function Swap(word: u16): u16 { word % 256 * 256 + word / 256 }

  lemma {:induction false} SumsCongruent(buf: seq<u8>)
    ensures (SumBE(buf) - 256 * SumLE(buf)) % 0xffff == 0
    ensures SumBE(buf) == 0 <==> SumLE(buf) == 0
  {
    if |buf| >= 2 {
      SumsCongruent(buf[2..]);
      var d := SumBE(buf[2..]) - 256 * SumLE(buf[2..]);
      var second: int := buf[1];
      assert SumBE(buf) - 256 * SumLE(buf) == d + 0xffff * -second;
      AddMultiple(d, -second);
    }
  }

  /** Byte order does not matter: the checksum computed on little-endian words and stored as
      it is puts the same two bytes into the packet as RFC 1071's. */
  lemma OrderIndependent(buf: seq<u8>)
    requires |buf| <= MAX_CHECKED_BYTES + PSEUDO_HEADER_BYTES
    ensures SumLE(buf) < TWO_32 && SumBE(buf) < TWO_32
    ensures Complement(SumLE(buf)) == Swap(Complement(SumBE(buf)))
  {
    hide SumLE, SumBE, Fold;
    SumBound(buf);
    SumsCongruent(buf);
    var le, be := SumLE(buf), SumBE(buf);
    TwoFolds(le);
    TwoFolds(be);
    var a, b := Fold(Fold(le)), Fold(Fold(be));
    SwapCongruent(a);
    SameClass(le, a, be, b);
    hide Swap;
    SameResidue(Swap(a), b);
    SwapComplement(a);
  }

  lemma SwapComplement(word: u16)
    ensures Swap(word) <= 0xffff && Swap(0xffff - Swap(word)) == 0xffff - word
  {
    var high, low := word / 256, word % 256;
    assert Swap(word) == low * 256 + high;
    DivUnique(0xffff - Swap(word), 256, 255 - low, 255 - high);
  }

  lemma SwapCongruent(word: u16)
    ensures (Swap(word) - 256 * word) % 0xffff == 0
    ensures Swap(word) == 0 <==> word == 0
    ensures Swap(Swap(word)) == word
  {
    assert Swap(word) - 256 * word == 0 + 0xffff * -(word / 256);
    AddMultiple(0, -(word / 256));
  }

  lemma SameClass(le: nat, a: u16, be: nat, b: u16)
    requires a % 0xffff == le % 0xffff && b % 0xffff == be % 0xffff && (be - 256 * le) % 0xffff == 0
    ensures (Swap(a) - 256 * a) % 0xffff == 0
    ensures Swap(a) % 0xffff == b % 0xffff
  {
    SwapCongruent(a);
    var p, q := (Swap(a) - 256 * a) / 0xffff, le / 0xffff - a / 0xffff;
    var r, s := (be - 256 * le) / 0xffff, be / 0xffff - b / 0xffff;
    assert le == a + 0xffff * q && be == b + 0xffff * s;
    assert be - 256 * le == 0xffff * r && Swap(a) - 256 * a == 0xffff * p;
    assert Swap(a) == b + 0xffff * (p + s - r - 256 * q);
    AddMultiple(b, p + s - r - 256 * q);
  }

  method CalSumEach16bit(buf: seq<u8>) returns (sum: u32)
    ensures sum == U32(SumLE(buf))
  {
    sum := 0;
    var at: nat, size: int := 0, |buf|;
    assert buf[0..] == buf;
    while size > 1
      invariant size >= 0 && at + size == |buf| && U32(sum + SumLE(buf[at..])) == U32(SumLE(buf))
    {
      assert buf[at..][2..] == buf[at + 2..];
      var high: nat := buf[at + 1];
      var word := 256 * high + buf[at];
      WrapAdd(sum + word, SumLE(buf[at + 2..]));
      sum := U32(sum + word);
      at := at + 2;
      size := size - 2;
    }
    if size == 1 {
      sum := U32(sum + buf[at]);
    } else {
      assert buf[at..] == [];
    }
  }

  lemma WrapAdd(a: int, b: int)
    ensures U32(U32(a) + b) == U32(a + b)
  {
    var q := a / TWO_32;
    assert a == TWO_32 * q + U32(a);
    var r := (U32(a) + b) / TWO_32;
    DivUnique(a + b, TWO_32, q + r, U32(U32(a) + b));
  }

  lemma SmallSum(sum: nat)
    requires sum < TWO_32
    ensures U32(sum) == sum
  {
  }

  method CalIPChecksum(buf: seq<u8>) returns (checksum: u16)
    requires |buf| <= MAX_CHECKED_BYTES
    ensures SumLE(buf) < TWO_32 && checksum == Complement(SumLE(buf))
  {
    hide SumLE, U32;
    SumBound(buf);
    SmallSum(SumLE(buf));
    var sum: nat := CalSumEach16bit(buf);
    checksum := FoldAndFlip(sum);
  }

  method CalL4Checksum(buf: seq<u8>, pseudoHeader: seq<u8>) returns (checksum: u16)
    requires |buf| <= MAX_CHECKED_BYTES && |pseudoHeader| == PSEUDO_HEADER_BYTES
    ensures SumLE(pseudoHeader + buf) < TWO_32 && checksum == Complement(SumLE(pseudoHeader + buf))
  {
    hide SumLE, U32, Complement;
    SumBound(pseudoHeader + buf);
    SumConcat(pseudoHeader, buf);
    SmallSum(SumLE(pseudoHeader));
    SmallSum(SumLE(buf));
    SmallSum(SumLE(pseudoHeader + buf));
    var sum: nat := CalSumEach16bit(pseudoHeader);
    var more := CalSumEach16bit(buf);
    checksum := FoldAndFlip(U32(sum + more));
  }

  /** How both functions end: the carries are added twice and every bit is flipped. */
  method FoldAndFlip(sum: u32) returns (checksum: u16)
    ensures checksum == Complement(sum)
  {
    hide Fold;
    TwoFolds(sum);
    var folded: nat := Fold(sum);
    folded := Fold(folded);
    checksum := 0xffff - folded % 0x1_0000;
  }
}
