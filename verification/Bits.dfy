/** The arithmetic CONNECTED_NODES is kept with: bits set by addition and cleared by
    subtraction.
  */
module Bits {
  import opened Words

  /** CONNECTED_NODES += 1 << i and -= 1 << i. */
  function Plus(w: u8, i: nat): u8
    requires i <= 7
  {
    U8(w + Pow2(i))
  }

  function Minus(w: u8, i: nat): u8
    requires i <= 7
  {
    U8(w - Pow2(i))
  }

  /** Adding the value of a clear bit sets that bit and no other: nothing is carried. */
  lemma PlusSetsBit(w: u8, i: nat, j: nat)
    requires i <= 7 && j <= 7 && !Bit(w, i)
    ensures Plus(w, i) == w + Pow2(i)
    ensures Bit(Plus(w, i), j) <==> j == i || Bit(w, j)
  {
    RoomForBit(w, i);
    AddBit(w, i, j);
  }

  /** Subtracting the value of a set bit clears that bit and no other: nothing is borrowed. */
  lemma MinusClearsBit(w: u8, i: nat, j: nat)
    requires i <= 7 && j <= 7 && Bit(w, i)
    ensures Minus(w, i) == w - Pow2(i)
    ensures Bit(Minus(w, i), j) <==> j != i && Bit(w, j)
  {
    if w < Pow2(i) {
      DivUnique(w, Pow2(i), 0, w);
    }
    DropBit(w, i);
    AddBit(w - Pow2(i), i, j);
  }

  lemma RoomForBit(w: u8, i: nat)
    requires i <= 7 && !Bit(w, i)
    ensures w + Pow2(i) < 0x100
  {
    assert i == 0 || i == 1 || i == 2 || i == 3 || i == 4 || i == 5 || i == 6 || i == 7;
  }

  lemma HalfShift(w: nat, i: nat)
    requires 0 < i <= 7
    ensures w / Pow2(i) == w / 2 / Pow2(i - 1) && Pow2(i) == 2 * Pow2(i - 1)
  {
    Pow2Step(i);
    DivDiv(w, 2, Pow2(i - 1));
  }

  lemma Pow2Step(i: nat)
    requires 0 < i <= 8
    ensures Pow2(i) == 2 * Pow2(i - 1)
  {
    assert i == 1 || i == 2 || i == 3 || i == 4 || i == 5 || i == 6 || i == 7 || i == 8;
  }

  lemma {:induction false} AddBit(w: nat, i: nat, j: nat)
    requires i <= 7 && j <= 7 && w / Pow2(i) % 2 == 0
    ensures (w + Pow2(i)) / Pow2(j) % 2 == 1 <==> j == i || w / Pow2(j) % 2 == 1
    decreases i
  {
    hide Pow2;
    UnitBit();
    if i == 0 {
      AddLowest(w, j);
    } else if j == 0 {
      HalfShift(w, i);
      EvenAdded(w, Pow2(i - 1));
    } else {
      HalfShift(w, i);
      HalfShift(w, j);
      HalfShift(w + Pow2(i), j);
      EvenAdded(w, Pow2(i - 1));
      AddBit(w / 2, i - 1, j - 1);
    }
  }

  lemma EvenAdded(w: nat, x: nat)
    ensures (w + 2 * x) / 2 == w / 2 + x && (w + 2 * x) % 2 == w % 2
  {
  }

  lemma AddLowest(w: nat, j: nat)
    requires j <= 7 && w % 2 == 0
    ensures (w + Pow2(0)) / Pow2(j) % 2 == 1 <==> j == 0 || w / Pow2(j) % 2 == 1
  {
    hide Pow2;
    UnitBit();
    if j > 0 {
      HalfShift(w, j);
      HalfShift(w + 1, j);
      assert (w + 1) / 2 == w / 2;
    }
  }

  lemma UnitBit()
    ensures Pow2(0) == 1
  {
  }

  lemma {:induction false} DropBit(w: nat, i: nat)
    requires i <= 7 && w / Pow2(i) % 2 == 1 && w >= Pow2(i)
    ensures (w - Pow2(i)) / Pow2(i) % 2 == 0
  {
    var q := w / Pow2(i);
    assert w == Pow2(i) * q + w % Pow2(i);
    assert Pow2(i) * (q - 1) == Pow2(i) * q - Pow2(i);
    DivUnique(w - Pow2(i), Pow2(i), q - 1, w % Pow2(i));
  }
}
