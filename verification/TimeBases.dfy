/** How a time base travels: told to a child in a message, added to the times of packets, and
    what is left of it in a Timecode of k bytes.
  */
module TimeBases {
  import opened Words
  import opened Ebml
  import opened Timecodes
  import opened StatusMessages

  /** The low bytes of two numbers are the same exactly when the numbers are congruent. */
  lemma {:induction false} LowBytesSame(a: nat, b: nat, k: nat)
    ensures ToBE(a, k) == ToBE(b, k) <==> a % Pow256(k) == b % Pow256(k)
  {
    if k == 0 {
      assert a % 1 == b % 1;
    } else {
      LowBytesSame(a / 256, b / 256, k - 1);
      LowBytesStep(a, k);
      LowBytesStep(b, k);
      var x, y := ToBE(a / 256, k - 1), ToBE(b / 256, k - 1);
      assert (x + [a % 256])[..k - 1] == x && (y + [b % 256])[..k - 1] == y;
      assert (x + [a % 256])[k - 1] == a % 256 && (y + [b % 256])[k - 1] == b % 256;
    }
  }

  lemma LowBytesStep(a: nat, k: nat)
    requires k > 0
    ensures a % Pow256(k) == 256 * (a / 256 % Pow256(k - 1)) + a % 256
  {
    var q, r := a / 256 / Pow256(k - 1), a / 256 % Pow256(k - 1);
    assert a / 256 == Pow256(k - 1) * q + r;
    assert Pow256(k) == 256 * Pow256(k - 1);
    assert a == 256 * (Pow256(k - 1) * q + r) + a % 256;
    assert 256 * (Pow256(k - 1) * q) == Pow256(k) * q;
    DivUnique(a, Pow256(k), q, 256 * r + a % 256);
  }

  /** Two numbers 2^32 apart have the same four low bytes, and different ones from the fifth
      on. */
  lemma FourBytesSame(x: u64, k: nat)
    requires k <= 8
    ensures ToBE(U64(x - TWO_32), k) == ToBE(x, k) <==> k <= 4
  {
    hide ToBE, Pow256;
    Pow256Table();
    LowBytesSame(U64(x - TWO_32), x, k);
    assert k == 0 || k == 1 || k == 2 || k == 3 || k == 4 || k == 5 || k == 6 || k == 7 || k == 8;
    var y := U64(x - TWO_32);
    if x >= TWO_32 {
      assert y == x - TWO_32;
    } else {
      assert y == x + TWO_64 - TWO_32;
    }
    ApartBy(x, y, k);
  }

  lemma ApartBy(x: u64, y: u64, k: nat)
    requires k <= 8 && (y == x - TWO_32 || y == x - TWO_32 + TWO_64)
    ensures y % Pow256(k) == x % Pow256(k) <==> k <= 4
  {
    hide Pow256;
    Pow256Table();
    var d := Pow256(k);
    var e := WordPower(k);
    var c := if y == x - TWO_32 then 0 else 1;
    assert y == x - TWO_32 + c * (d * e);
    if k <= 4 {
      var q := HalfPower(k);
      assert x - TWO_32 + c * (d * e) == d * (x / d - q + c * e) + x % d;
      DivUnique(y, d, x / d - q + c * e, x % d);
    } else if y % d == x % d {
      assert d * (x / d - y / d + c * e) == x - y + c * (d * e);
      NoMultiple(d, x / d - y / d + c * e);
    }
  }

  lemma WordPower(k: nat) returns (e: nat)
    requires k <= 8
    ensures Pow256(k) * e == TWO_64 && Pow256(k) > 0 && (k > 4 ==> Pow256(k) > TWO_32)
  {
    Pow256Table();
    e := Pow256(8 - k);
    assert k == 0 || k == 1 || k == 2 || k == 3 || k == 4 || k == 5 || k == 6 || k == 7 || k == 8;
  }

  lemma HalfPower(k: nat) returns (q: nat)
    requires k <= 4
    ensures Pow256(k) * q == TWO_32
  {
    Pow256Table();
    q := Pow256(4 - k);
    assert k == 0 || k == 1 || k == 2 || k == 3 || k == 4;
  }

  lemma NoMultiple(d: nat, z: int)
    requires d > TWO_32
    ensures d * z != TWO_32
  {
    if z >= 1 {
      assert d * z >= d;
    } else {
      assert d * z <= 0;
    }
  }

  /** What a node whose own time base is own writes into a Timecode of k bytes when its parent
      has told it the time base offset: the absolute time less its own base, exactly when the
      parent's base is below 2^31 or the value has at most four bytes. */
  lemma WrittenTime(stamp: u64, offset: u64, own: u64, k: nat)
    requires offset < TWO_32 && k <= 8 && own <= stamp + offset < TWO_64
    ensures ToBE(Retimed(stamp, Told(offset), own), k) == ToBE(stamp + offset - own, k)
            <==> offset < 0x8000_0000 || k <= 4
  {
    hide ToBE, Pow256, Told;
    ToldIs(offset);
    var x := stamp + offset - own;
    assert U64(x) == x;
    if offset >= 0x8000_0000 {
      FourBytesSame(x, k);
      assert Retimed(stamp, Told(offset), own) == U64(x - TWO_32);
    }
  }

  /** The time base a node takes from its first Timecode is the absolute time exactly when its
      parent's base is below 2^31. */
  lemma FirstBase(stamp: u64, offset: u64)
    requires offset < TWO_32 && stamp + offset < TWO_64
    ensures U64(stamp + Told(offset)) == stamp + offset <==> offset < 0x8000_0000
  {
    hide Told;
    ToldIs(offset);
    if offset >= 0x8000_0000 {
      assert Told(offset) == offset + TWO_64 - TWO_32;
    }
  }

  /** A parent with time base 2^31, 25 days into a stream told in milliseconds, sends its first
      cluster to an adopted node with time base 0: an eight byte Timecode is stored as 2^32
      too little, modulo 2^64. */
  lemma LostBase()
    ensures Told(0x8000_0000) == TWO_64 - 0x8000_0000
    ensures Retimed(0, Told(0x8000_0000), 0) == TWO_64 - 0x8000_0000
    ensures ToBE(Retimed(0, Told(0x8000_0000), 0), 8) != ToBE(0x8000_0000, 8)
  {
    hide Told, ToBE;
    ToldIs(0x8000_0000);
    WrittenTime(0, 0x8000_0000, 0, 8);
  }
}
