/** Machine words and big-endian byte strings.

    The C sources work on u8, u16, u32 and u64. Here a word is an integer in range, and
    every place where the C code truncates or wraps is written out with one of the U8..U64
    functions (Dafny's % is never negative, so they wrap below zero as well).
  */
module Words {
  type u8 = x: int | 0 <= x < 0x100
  type u16 = x: int | 0 <= x < 0x1_0000
  type u32 = x: int | 0 <= x < 0x1_0000_0000
  type u64 = x: int | 0 <= x < 0x1_0000_0000_0000_0000

  const TWO_32 := 0x1_0000_0000
  const TWO_56 := 0x100_0000_0000_0000
  const TWO_64 := 0x1_0000_0000_0000_0000

  function U8(x: int): u8 { x % 0x100 }

  function U16(x: int): u16 { x % 0x1_0000 }

  function U32(x: int): u32 { x % 0x1_0000_0000 }

  function U64(x: int): u64 { x % 0x1_0000_0000_0000_0000 }

  function Min(a: int, b: int): int { if a <= b then a else b }

  /** Division rounded up, as ceil( n*1.0 / d ). */
  function CeilDiv(n: nat, d: nat): nat
    requires d > 0
  {
    (n + d - 1) / d
  }

  /** n equal bytes; memory that bzero cleared is Filled(n, 0). */
  function Filled(n: nat, b: u8): (s: seq<u8>)
    ensures |s| == n && forall i :: 0 <= i < n ==> s[i] == b
  {
    seq(n, _ => b)
  }

  lemma SliceOfSuffix<T>(s: seq<T>, n: nat, i: nat, j: nat)
    requires i <= j && n + j <= |s|
    ensures s[n..][i..j] == s[n + i..n + j]
  {
  }

  lemma SameSlice<T>(x: seq<T>, y: seq<T>, e: nat, lo: nat, hi: nat)
    requires e <= lo <= hi <= |x| == |y| && x[e..] == y[e..]
    ensures x[lo..hi] == y[lo..hi]
  {
    assert x[lo..hi] == x[e..][lo - e..hi - e];
  }

  lemma SliceIs<T>(file: seq<T>, at: nat, a: seq<T>, b: seq<T>)
    requires at + |a + b| <= |file| && file[at..at + |a + b|] == a + b
    ensures file[at..at + |a|] == a
    ensures file[at + |a|..at + |a| + |b|] == b
  {
    var s := file[at..at + |a + b|];
    assert file[at..at + |a|] == s[..|a|];
    assert file[at + |a|..at + |a| + |b|] == s[|a|..];
  }

  lemma PrefixGrows<T>(s: seq<T>, a: nat, b: nat)
    requires a <= b <= |s|
    ensures s[..a] + s[a..b] == s[..b]
  {
  }

  function Pow2(k: nat): (p: nat)
    requires k <= 8
    ensures p > 0
  {
    [1, 2, 4, 8, 16, 32, 64, 128, 256][k]
  }

  /** Bit i of a byte: (w >> i) & 1. */
  predicate Bit(w: u8, i: nat)
    requires i <= 7
  {
    w / Pow2(i) % 2 == 1
  }

  function Pow256(k: nat): (p: nat)
    ensures p > 0
  {
    if k == 0 then 1 else 256 * Pow256(k - 1)
  }

  /** The number a big-endian byte string denotes. */
  function FromBE(s: seq<u8>): nat {
    if s == [] then 0 else 256 * FromBE(s[..|s| - 1]) + s[|s| - 1]
  }

  /** The k low bytes of n, most significant first. */
  function ToBE(n: nat, k: nat): (s: seq<u8>)
    ensures |s| == k
  {
    if k == 0 then [] else ToBE(n / 256, k - 1) + [n % 256]
  }

  lemma {:induction false} FromBEBound(s: seq<u8>)
    ensures FromBE(s) < Pow256(|s|)
  {
    if s != [] {
      FromBEBound(s[..|s| - 1]);
    }
  }

  lemma {:induction false} FromToBE(n: nat, k: nat)
    requires n < Pow256(k)
    ensures FromBE(ToBE(n, k)) == n
  {
    if k > 0 {
      FromToBE(n / 256, k - 1);
      assert ToBE(n, k)[..k - 1] == ToBE(n / 256, k - 1);
    }
  }

  lemma {:induction false} ToFromBE(s: seq<u8>)
    ensures ToBE(FromBE(s), |s|) == s
  {
    if s != [] {
      ToFromBE(s[..|s| - 1]);
      assert s == s[..|s| - 1] + [s[|s| - 1]];
    }
  }

  function Pair(a: int, b: int): int { 0x100 * a + b }

  function Quad(a: int, b: int, c: int, d: int): int { 0x100_0000 * a + 0x1_0000 * b + 0x100 * c + d }

  lemma BEPair(a: u8, b: u8)
    ensures FromBE([a, b]) == Pair(a, b)
  {
    var s := [a, b];
    assert s[..1] == [a] && s[..1][..0] == [];
    assert FromBE(s[..1]) == a;
  }

  lemma BEQuad(a: u8, b: u8, c: u8, d: u8)
    ensures FromBE([a, b, c, d]) == Quad(a, b, c, d)
  {
    var s := [a, b, c, d];
    assert s[..3] == [a, b, c] && s[..3][..2] == [a, b];
    assert FromBE(s[..3]) == 0x100 * FromBE([a, b]) + c;
    BEPair(a, b);
  }

  /** Leading bytes weigh as much as the length of what follows. */
  lemma {:induction false} FromBEConcat(a: seq<u8>, b: seq<u8>)
    ensures FromBE(a + b) == FromBE(a) * Pow256(|b|) + FromBE(b)
  {
    if b == [] {
      assert a + b == a;
    } else {
      var b' := b[..|b| - 1];
      assert (a + b)[..|a + b| - 1] == a + b';
      FromBEConcat(a, b');
      Carry(FromBE(a), Pow256(|b'|), FromBE(b'), b[|b| - 1]);
    }
  }

  lemma Carry(x: nat, p: nat, y: nat, d: nat)
    ensures 256 * (x * p + y) + d == x * (256 * p) + (256 * y + d)
  {
  }

  lemma WrapBack(h: u64, n: u64)
    ensures U64(U64(h + n) - n) == h
  {
    if h + n >= TWO_64 {
      assert U64(h + n) == h + n - TWO_64;
    }
  }

  lemma DivDiv(n: nat, a: nat, b: nat)
    requires a > 0 && b > 0
    ensures a * b > 0 && n / a / b == n / (a * b)
  {
    var q := n / a / b;
    var r := n / a % b;
    assert n == a * (b * q + r) + n % a;
    assert a * (b * q + r) == a * b * q + a * r;
    assert n == a * b * q + (a * r + n % a);
    assert a * r + n % a < a * b by {
      assert a * r <= a * (b - 1);
    }
    DivUnique(n, a * b, q, a * r + n % a);
  }

  lemma DivUnique(n: int, d: int, q: int, r: int)
    requires d > 0 && n == d * q + r && 0 <= r < d
    ensures n / d == q && n % d == r
  {
    var k := n / d - q;
    assert d * (n / d) == d * q + d * k;
    assert d * k == r - n % d;
    if k >= 1 {
      MulAtLeast(d, k);
    } else if k <= -1 {
      MulAtLeast(d, -k);
    }
  }

  lemma MulAtLeast(d: int, k: int)
    requires d > 0 && k >= 1
    ensures d * k >= d
  {
  }

  /** Byte i of ToBE is what the shift loops of the sources extract. */
  lemma {:induction false} ToBEAt(n: nat, k: nat, i: nat)
    requires i < k
    ensures ToBE(n, k)[i] == n / Pow256(k - 1 - i) % 256
  {
    if i == k - 1 {
      assert ToBE(n, k)[i] == n % 256;
    } else {
      ToBEAt(n / 256, k - 1, i);
      DivDiv(n, 256, Pow256(k - 2 - i));
    }
  }

  /** Bytes that are pairwise the shifted words are ToBE. */
  lemma ToBEFromShifts(n: nat, s: seq<u8>)
    requires forall i :: 0 <= i < |s| ==> s[i] == n / Pow256(|s| - 1 - i) % 256
    ensures s == ToBE(n, |s|)
  {
    forall i | 0 <= i < |s| ensures s[i] == ToBE(n, |s|)[i] {
      ToBEAt(n, |s|, i);
    }
  }
}
