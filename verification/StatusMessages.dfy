/** Node statuses on the wire, and the Initial Status message a parent sends a new child: its
    time base, the child's own status, the parent's, and the statuses of the other nodes the
    parent is connected to.
  */
module StatusMessages {
  import opened Words
  import opened Blocks
  import opened Membership

  const NODE_STATUS_BYTES := 30

  /** struct NodeStatus without its timestamp. It starts with a BlockInfo, whose last byte is
      the layer. */
  datatype NodeStatus = NodeStatus(info: BlockInfo, id: u16, ipaddr: u32, privateIpaddr: u32, port: u16)

  /** CopyNodeStatusToBytes. */
  function EncodeStatus(s: NodeStatus): (r: seq<u8>)
    ensures |r| == NODE_STATUS_BYTES
  {
    Encode(s.info) + ToBE(s.id, 2) + ToBE(s.ipaddr, 4) + ToBE(s.privateIpaddr, 4) + ToBE(s.port, 2)
  }

  /** CopyBytesToNodeStatus. */
  function DecodeStatus(b: seq<u8>): NodeStatus
    requires |b| >= NODE_STATUS_BYTES
  {
    assert Pow256(2) == 0x1_0000 && Pow256(4) == TWO_32;
    NodeStatus(Decode(b), Field(b, 18, 2), Field(b, 20, 4), Field(b, 24, 4), Field(b, 28, 2))
  }

  lemma StatusRoundTrip(s: NodeStatus, tail: seq<u8>)
    ensures DecodeStatus(EncodeStatus(s) + tail) == s
  {
    hide Encode, Decode;
    var b := EncodeStatus(s) + tail;
    assert Pow256(2) == 0x1_0000 && Pow256(4) == TWO_32;
    assert b == Encode(s.info) + b[18..];
    DecodeEncode(s.info, b[18..]);
    assert b[18..20] == ToBE(s.id, 2) && b[20..24] == ToBE(s.ipaddr, 4);
    assert b[24..28] == ToBE(s.privateIpaddr, 4) && b[28..30] == ToBE(s.port, 2);
    hide EncodeStatus, ToBE;
    FieldOf(b, 18, 2, s.id);
    FieldOf(b, 20, 4, s.ipaddr);
    FieldOf(b, 24, 4, s.privateIpaddr);
    FieldOf(b, 28, 2, s.port);
  }

  lemma StatusEncodeDecode(b: seq<u8>)
    requires |b| == NODE_STATUS_BYTES
    ensures EncodeStatus(DecodeStatus(b)) == b
  {
    hide Encode, Decode;
    EncodeDecode(b[..18]);
    DecodePrefix(b);
    ToFromBE(b[18..20]);
    ToFromBE(b[20..24]);
    ToFromBE(b[24..28]);
    ToFromBE(b[28..30]);
    assert b == b[..18] + b[18..20] + b[20..24] + b[24..28] + b[28..30];
  }

  lemma DecodePrefix(b: seq<u8>)
    requires |b| >= 18
    ensures Decode(b) == Decode(b[..18])
  {
    hide Encode, Decode;
    EncodeDecode(b[..18]);
    DecodeEncode(Decode(b[..18]), b[18..]);
    assert b == b[..18] + b[18..];
  }

  /** Where the thirty bytes have each field: the descriptor's eighteen, whose last is the
      layer, then ID, address, private address and port, most significant byte first. */
  lemma StatusPlaces(b: seq<u8>)
    requires |b| == 30
    ensures EncodeStatus(DecodeStatus(b)) == b
    ensures var s := DecodeStatus(b);
            && s.info == Decode(b[..18]) && s.info.layer == b[17]
            && s.id == Pair(b[18], b[19])
            && s.ipaddr == Quad(b[20], b[21], b[22], b[23])
            && s.privateIpaddr == Quad(b[24], b[25], b[26], b[27])
            && s.port == Pair(b[28], b[29])
  {
    hide Decode, Field, EncodeStatus;
    StatusEncodeDecode(b);
    DecodePrefix(b);
    FieldPlaces(b[..18]);
    FieldPair(b, 18);
    FieldQuad(b, 20);
    FieldQuad(b, 24);
    FieldPair(b, 28);
  }

  function EncodeAll(ss: seq<NodeStatus>): (r: seq<u8>)
    ensures |r| == NODE_STATUS_BYTES * |ss|
  {
    if ss == [] then [] else EncodeStatus(ss[0]) + EncodeAll(ss[1..])
  }

  /** The k low bytes of n, least significant first. */
  function ToLE(n: nat, k: nat): (s: seq<u8>)
    ensures |s| == k
  {
    if k == 0 then [] else [n % 256] + ToLE(n / 256, k - 1)
  }

  /** data[i] << 8*i as C computes it on an int: the fourth byte's top bit is a sign, which
      the addition to a u64 extends. Shifts of 32 bits and more are undefined, but of a zero
      byte they leave zero. */
  function ShiftedByte(b: u8, i: nat): int
    requires i < 4 || b == 0
  {
    if i >= 4 then 0
    else if i == 3 && b >= 128 then b * 0x100_0000 - TWO_32
    else b * Pow256(i)
  }

  /** The time base read from eight bytes, added to what NODE_TIMECODE_OFFSET was. */
  predicate OffsetDefined(b: seq<u8>)
    requires |b| >= 8
  {
    b[4] == b[5] == b[6] == b[7] == 0
  }

  function ReadOffset(was: u64, b: seq<u8>): u64
    requires |b| >= 8 && OffsetDefined(b)
  {
    U64(was + ShiftedByte(b[0], 0) + ShiftedByte(b[1], 1) + ShiftedByte(b[2], 2) + ShiftedByte(b[3], 3))
  }

  /** A u32 read as a signed int. */
  function Signed(n: u32): int { if n < 0x8000_0000 then n else n - TWO_32 }

  /** What the message carries of a time base: it is defined for 32 bits, and signed... */
  lemma OffsetRead(offset: u64, was: u64, tail: seq<u8>)
    ensures var b := ToLE(offset, 8) + tail;
            && (OffsetDefined(b) <==> offset < TWO_32)
            && (offset < TWO_32 ==> ReadOffset(was, b) == U64(was + Signed(offset)))
  {
    hide ToLE, U64;
    LowBytes(offset, tail);
    if offset < TWO_32 {
      assert Pow256(0) == 1 && Pow256(1) == 0x100 && Pow256(2) == 0x1_0000 && Pow256(3) == 0x100_0000;
    }
  }

  /** ...so it survives exactly when it is below 2^31 and the receiver's was zero before
      (which NodeAccept sees to, and NodeInitialStatus does not). */
  lemma OffsetRoundTrip(offset: u64, was: u64, tail: seq<u8>)
    ensures var b := ToLE(offset, 8) + tail;
            && (OffsetDefined(b) <==> offset < TWO_32)
            && (offset < TWO_32 && was == 0 ==> (ReadOffset(was, b) == offset <==> offset < 0x8000_0000))
            && (offset < 0x8000_0000 ==> (ReadOffset(was, b) == offset <==> was == 0))
  {
    hide ToLE, ReadOffset, OffsetDefined;
    OffsetRead(offset, was, tail);
  }

  function FourBytes(a: int, b: int, c: int, d: int): int { a + 0x100 * b + 0x1_0000 * c + 0x100_0000 * d }

  /** The bytes of a number below 2^64 and the quotients they are the remainders of. */
  lemma LowBytes(n: u64, tail: seq<u8>)
    ensures var b := ToLE(n, 8) + tail;
            && (b[4] == b[5] == b[6] == b[7] == 0 <==> n < TWO_32)
            && (n < TWO_32 ==> n == FourBytes(b[0], b[1], b[2], b[3]))
  {
    hide ToLE, FourBytes;
    var q := n / 256 / 256 / 256 / 256;
    UpperHalf(n);
    FourDigits(q, []);
    LEFrom(n);
    assert forall i :: 4 <= i < 8 ==> ToLE(n, 8)[i] == ToLE(q, 4)[i - 4];
    ZeroBytes(q % 256, q / 256 % 256, q / 256 / 256 % 256, q / 256 / 256 / 256 % 256);
    if n < TWO_32 {
      FourDigits(n, ToLE(q, 4));
    }
  }

  lemma ZeroBytes(a: nat, b: nat, c: nat, d: nat)
    ensures FourBytes(a, b, c, d) == 0 <==> a == b == c == d == 0
  {
  }

  lemma UpperHalf(n: u64)
    ensures var q := n / 256 / 256 / 256 / 256; q < TWO_32 && (q == 0 <==> n < TWO_32)
  {
  }

  lemma LEFrom(n: nat)
    ensures ToLE(n, 8) == ToLE(n, 4) + ToLE(n / 256 / 256 / 256 / 256, 4)
  {
    LESplit(n, 4);
    QuotientFour(n);
  }

  /** n / 256^j, one division at a time. */
  function Quotient(n: nat, j: nat): nat { if j == 0 then n else Quotient(n / 256, j - 1) }

  lemma QuotientFour(n: nat)
    ensures Quotient(n, 4) == n / 256 / 256 / 256 / 256
  {
    assert Quotient(n, 4) == Quotient(n / 256, 3);
    assert Quotient(n / 256, 3) == Quotient(n / 256 / 256, 2);
    assert Quotient(n / 256 / 256, 2) == Quotient(n / 256 / 256 / 256, 1);
    assert Quotient(n / 256 / 256 / 256, 1) == Quotient(n / 256 / 256 / 256 / 256, 0);
  }

  lemma {:induction false} LESplit(n: nat, j: nat)
    requires j <= 4
    ensures ToLE(n, j + 4) == ToLE(n, j) + ToLE(Quotient(n, j), 4)
  {
    if j > 0 {
      LESplit(n / 256, j - 1);
      LEStep(n, j + 4);
      LEStep(n, j);
      hide ToLE;
    }
  }

  lemma LEFour(n: nat)
    ensures ToLE(n, 4) == [n % 256, n / 256 % 256, n / 256 / 256 % 256, n / 256 / 256 / 256 % 256]
  {
    LEStep(n, 4);
    LEStep(n / 256, 3);
    LEStep(n / 256 / 256, 2);
    LEStep(n / 256 / 256 / 256, 1);
    assert |ToLE(n / 256 / 256 / 256 / 256, 0)| == 0;
    hide ToLE;
  }

  lemma FourDigits(n: u32, rest: seq<u8>)
    ensures var b := ToLE(n, 4) + rest;
            && b[0] == n % 256 && b[1] == n / 256 % 256 && b[2] == n / 256 / 256 % 256
              && b[3] == n / 256 / 256 / 256 % 256
            && n == FourBytes(b[0], b[1], b[2], b[3])
  {
    LEFour(n);
    hide ToLE;
  }

  lemma LEStep(n: nat, k: nat)
    requires k > 0
    ensures ToLE(n, k) == [n % 256] + ToLE(n / 256, k - 1)
  {
  }

  /** The other connected nodes, from slot i on: all but the new child and the node itself. */
  function Others(connected: u8, dst: nat, statuses: seq<NodeStatus>, i: nat): seq<NodeStatus>
    requires |statuses| == MAX_NODE_NUM && i <= MAX_NODE_NUM - 1
    decreases MAX_NODE_NUM - 1 - i
  {
    if i == MAX_NODE_NUM - 1 then []
    else (if i != dst && Bit(connected, i) then [statuses[i]] else []) + Others(connected, dst, statuses, i + 1)
  }

  /** The statuses SendInitialStatus writes: the new child's, the node's own, the others'. */
  function Entries(connected: u8, dst: nat, statuses: seq<NodeStatus>): seq<NodeStatus>
    requires |statuses| == MAX_NODE_NUM && dst < MAX_CHILD_NUM
  {
    [statuses[dst], statuses[MY_ID]] + Others(connected, dst, statuses, 0)
  }

  /** The number it declares by the length of the message. */
  function Declared(s: Slots): int {
    s.childNum + 2 + if Bit(s.connected, PARENT_ID) then 1 else 0
  }

  /** For a slot that is still free, as many entries are written as declared exactly when the
      counter is right. */
  lemma DeclaredIsWritten(s: Slots, dst: nat, statuses: seq<NodeStatus>)
    requires |statuses| == MAX_NODE_NUM && dst < MAX_CHILD_NUM && !Bit(s.connected, dst)
    ensures Declared(s) == |Entries(s.connected, dst, statuses)| <==> s.childNum == Taken(s.connected, MAX_CHILD_NUM)
  {
    hide Bit;
    TakenTwo(s.connected);
    var o := (i: nat) requires i <= 3 => Others(s.connected, dst, statuses, i);
    assert o(3) == [];
    assert o(2) == (if Bit(s.connected, 2) then [statuses[2]] else []) + o(3);
    assert o(1) == (if 1 != dst && Bit(s.connected, 1) then [statuses[1]] else []) + o(2);
    assert o(0) == (if 0 != dst && Bit(s.connected, 0) then [statuses[0]] else []) + o(1);
  }

  /** The message after its protocol byte: eight bytes of time base, the entries, and as many
      zero bytes as the declared number asks for, or the entries cut short. */
  function InitialStatusData(offset: u64, entries: seq<NodeStatus>, declared: nat): (b: seq<u8>)
    ensures |b| == 8 + NODE_STATUS_BYTES * declared
  {
    var n := NODE_STATUS_BYTES * declared;
    ToLE(offset, 8) + (EncodeAll(entries) + Filled(n, 0))[..n]
  }

  /** With a wrong counter the message is as long as declared all the same: entries beyond that
      are cut off, and behind too few of them are zeros. */
  lemma AsLongAsDeclared(offset: u64, entries: seq<NodeStatus>, declared: nat)
    ensures var data, all := InitialStatusData(offset, entries, declared), EncodeAll(entries);
            && |data| == 8 + 30 * declared && data[..8] == ToLE(offset, 8)
            && forall i :: 8 <= i < |data| ==> data[i] == if i - 8 < |all| then all[i - 8] else 0
  {
    hide EncodeAll, ToLE;
  }

  /** The statuses in a message, from entry i on. */
  function ReadAll(data: seq<u8>, i: nat): (ss: seq<NodeStatus>)
    requires 8 + NODE_STATUS_BYTES * i <= |data|
    decreases |data| - NODE_STATUS_BYTES * i
  {
    var at := 8 + NODE_STATUS_BYTES * i;
    if at + NODE_STATUS_BYTES > |data| then [] else [DecodeStatus(data[at..])] + ReadAll(data, i + 1)
  }

  lemma {:induction false} ReadWritten(data: seq<u8>, i: nat, entries: seq<NodeStatus>)
    requires 8 + NODE_STATUS_BYTES * i <= |data| && data[8 + NODE_STATUS_BYTES * i..] == EncodeAll(entries)
    ensures ReadAll(data, i) == entries
    decreases |entries|
  {
    hide EncodeStatus, DecodeStatus;
    var at := 8 + NODE_STATUS_BYTES * i;
    if entries != [] {
      StatusRoundTrip(entries[0], EncodeAll(entries[1..]));
      assert data[at + NODE_STATUS_BYTES..] == data[at..][NODE_STATUS_BYTES..];
      ReadWritten(data, i + 1, entries[1..]);
    }
  }

  /** What the new child makes of the message: its time base, its own status, its parent's,
      and the list of the others. */
  datatype Joined = Joined(offset: u64, own: NodeStatus, parent: NodeStatus, list: seq<NodeStatus>)

  /** NodeInitialStatus, with the value NODE_TIMECODE_OFFSET had. */
  function ReadInitialStatus(was: u64, data: seq<u8>): Joined
    requires |data| >= 8 + 2 * NODE_STATUS_BYTES && OffsetDefined(data)
  {
    Joined(ReadOffset(was, data), DecodeStatus(data[8..]), DecodeStatus(data[8 + NODE_STATUS_BYTES..]),
           ReadAll(data, 2))
  }

  /** The new child reads what its parent wrote: for every time base below 2^31, all statuses,
      and slots whose counter is right. */
  lemma InitialStatusRoundTrip(s: Slots, dst: nat, statuses: seq<NodeStatus>, offset: u64)
    requires Sound(s) && |statuses| == MAX_NODE_NUM && dst < MAX_CHILD_NUM && !Bit(s.connected, dst)
    requires offset < 0x8000_0000
    ensures var data := InitialStatusData(offset, Entries(s.connected, dst, statuses), Declared(s));
            && |data| == 8 + NODE_STATUS_BYTES * |Entries(s.connected, dst, statuses)|
            && OffsetDefined(data)
            && ReadInitialStatus(0, data)
               == Joined(offset, statuses[dst], statuses[MY_ID], Others(s.connected, dst, statuses, 0))
  {
    hide EncodeStatus, DecodeStatus, Bit, Taken, ToLE, OffsetDefined, ReadOffset;
    DeclaredIsWritten(s, dst, statuses);
    var entries := Entries(s.connected, dst, statuses);
    var body := EncodeAll(entries);
    var data := InitialStatusData(offset, entries, Declared(s));
    assert data == ToLE(offset, 8) + body;
    OffsetRoundTrip(offset, 0, body);
    assert data[8..] == body;
    ReadWritten(data, 0, entries);
    FirstTwo(data, entries);
  }

  /** Where the message has what, after its protocol byte: the time base in bytes 0 to 7, the
      new child's status in 8 to 37, the node's own in 38 to 67, then the other child's if
      there is one, and last the parent's if there is one. */
  lemma InitialStatusPlaces(s: Slots, dst: nat, statuses: seq<NodeStatus>, offset: u64)
    requires Sound(s) && |statuses| == MAX_NODE_NUM && dst < MAX_CHILD_NUM && !Bit(s.connected, dst)
    ensures var data := InitialStatusData(offset, Entries(s.connected, dst, statuses), Declared(s));
            var other := 1 - dst;
            var rest := 68 + (if Bit(s.connected, other) then 30 else 0);
            && |data| == rest + (if Bit(s.connected, 2) then 30 else 0)
            && data[..8] == ToLE(offset, 8)
            && data[8..38] == EncodeStatus(statuses[dst])
            && data[38..68] == EncodeStatus(statuses[3])
            && (Bit(s.connected, other) ==> data[68..98] == EncodeStatus(statuses[other]))
            && (Bit(s.connected, 2) ==> data[rest..] == EncodeStatus(statuses[2]))
  {
    hide EncodeStatus, Bit, ToLE, EncodeAll, Taken;
    DeclaredIsWritten(s, dst, statuses);
    var others := Others(s.connected, dst, statuses, 0);
    var tail := EncodeAll(others);
    TwoOthers(s.connected, dst, statuses);
    EncodeTwo(statuses[dst], statuses[MY_ID], others);
    var data := InitialStatusData(offset, Entries(s.connected, dst, statuses), Declared(s));
    assert data == ToLE(offset, 8) + EncodeStatus(statuses[dst]) + EncodeStatus(statuses[MY_ID]) + tail;
    assert data[68..] == tail;
    if Bit(s.connected, 1 - dst) {
      assert data[68..98] == tail[..30];
    }
  }

  lemma TwoOthers(connected: u8, dst: nat, statuses: seq<NodeStatus>)
    requires |statuses| == MAX_NODE_NUM && dst < MAX_CHILD_NUM
    ensures EncodeAll(Others(connected, dst, statuses, 0))
            == (if Bit(connected, 1 - dst) then EncodeStatus(statuses[1 - dst]) else [])
               + (if Bit(connected, 2) then EncodeStatus(statuses[2]) else [])
  {
    hide EncodeStatus, Bit, EncodeAll, Others;
    var tail := (i: nat) requires i <= 3 => EncodeAll(Others(connected, dst, statuses, i));
    assert [] + tail(0) == tail(0) && [] + tail(1) == tail(1) && [] + tail(2) == tail(2);
    EncodeNext(connected, dst, statuses, 0, []);
    EncodeNext(connected, dst, statuses, 1, []);
    EncodeNext(connected, dst, statuses, 2, []);
    NoOthers(connected, dst, statuses);
  }

  /** The reader takes every thirty bytes from byte 68 on for a status of the list. */
  lemma {:induction false} ListRead(data: seq<u8>, i: nat)
    requires 8 + NODE_STATUS_BYTES * i <= |data|
    ensures |ReadAll(data, i)| == (|data| - 8) / 30 - i
    ensures forall k :: 0 <= k < |ReadAll(data, i)| ==>
              38 + 30 * (i + k) <= |data| && ReadAll(data, i)[k] == DecodeStatus(data[8 + 30 * (i + k)..])
    decreases |data| - NODE_STATUS_BYTES * i
  {
    hide DecodeStatus;
    if 38 + 30 * i <= |data| {
      ListRead(data, i + 1);
      assert ReadAll(data, i) == [DecodeStatus(data[8 + 30 * i..])] + ReadAll(data, i + 1);
    }
  }

  /** What a node makes of the time base another one tells it in these eight bytes. Time bases
      of 2^32 and more are shifted out of an int, which C leaves undefined. */
  function Told(offset: u64): u64
    requires offset < TWO_32
  {
    OffsetRead(offset, 0, []);
    assert ToLE(offset, 8) + [] == ToLE(offset, 8);
    ReadOffset(0, ToLE(offset, 8))
  }

  lemma ToldIs(offset: u64)
    requires offset < TWO_32
    ensures Told(offset) == U64(Signed(offset))
    ensures Told(offset) == offset <==> offset < 0x8000_0000
  {
    hide ToLE, ReadOffset, OffsetDefined;
    OffsetRead(offset, 0, []);
    assert ToLE(offset, 8) + [] == ToLE(offset, 8);
  }

  /** That is what reaches a new child in its Initial Status message and an adopted one in its
      Accept message. */
  lemma MessagesTell(offset: u64, entries: seq<NodeStatus>, declared: nat, own: NodeStatus)
    requires offset < TWO_32
    ensures var data := InitialStatusData(offset, entries, declared);
            OffsetDefined(data) && ReadOffset(0, data) == Told(offset)
    ensures var data := AcceptData(own, offset)[NODE_STATUS_BYTES..];
            |data| == 8 && OffsetDefined(data) && ReadOffset(0, data) == Told(offset)
  {
    hide ToLE, ReadOffset, OffsetDefined, EncodeStatus, EncodeAll, Told;
    ToldIs(offset);
    var n := NODE_STATUS_BYTES * declared;
    OffsetRead(offset, 0, (EncodeAll(entries) + Filled(n, 0))[..n]);
    OffsetRead(offset, 0, []);
    assert AcceptData(own, offset)[NODE_STATUS_BYTES..] == ToLE(offset, 8) + [];
  }

  /** The Accept message: the new parent's status and its time base. NodeAccept clears the
      old one first. */
  function AcceptData(own: NodeStatus, offset: u64): seq<u8> { EncodeStatus(own) + ToLE(offset, 8) }

  lemma AcceptRoundTrip(own: NodeStatus, offset: u64)
    ensures var data := AcceptData(own, offset);
            && DecodeStatus(data) == own
            && (OffsetDefined(data[NODE_STATUS_BYTES..]) <==> offset < TWO_32)
            && (offset < TWO_32 ==> (ReadOffset(0, data[NODE_STATUS_BYTES..]) == offset <==> offset < 0x8000_0000))
  {
    hide EncodeStatus, DecodeStatus, ToLE, OffsetDefined, ReadOffset;
    StatusRoundTrip(own, ToLE(offset, 8));
    OffsetRoundTrip(offset, 0, []);
    assert AcceptData(own, offset)[NODE_STATUS_BYTES..] == ToLE(offset, 8) + [];
  }

  lemma FirstTwo(data: seq<u8>, entries: seq<NodeStatus>)
    requires |data| >= 8 + 2 * NODE_STATUS_BYTES && ReadAll(data, 0) == entries && |entries| >= 2
    ensures DecodeStatus(data[8..]) == entries[0] && DecodeStatus(data[8 + NODE_STATUS_BYTES..]) == entries[1]
    ensures ReadAll(data, 2) == entries[2..]
  {
    hide DecodeStatus;
    assert ReadAll(data, 0) == [DecodeStatus(data[8..])] + ReadAll(data, 1);
    assert ReadAll(data, 1) == [DecodeStatus(data[8 + NODE_STATUS_BYTES..])] + ReadAll(data, 2);
  }

  /** SendInitialStatus: the bytes of the message, written in loops. */
  method SendInitialStatus(s: Slots, dst: nat, statuses: seq<NodeStatus>, offset: u64) returns (data: seq<u8>)
    requires |statuses| == MAX_NODE_NUM && dst < MAX_CHILD_NUM && s.childNum >= 0
    ensures data == InitialStatusData(offset, Entries(s.connected, dst, statuses), Declared(s))
  {
    hide EncodeStatus, Bit;
    data := WriteOffset(offset);
    var statusNum := if Bit(s.connected, PARENT_ID) then s.childNum + 1 + 1 + 1 else s.childNum + 1 + 1;
    var body := WriteEntries(s.connected, dst, statuses);
    data := data + (body + Filled(NODE_STATUS_BYTES * statusNum, 0))[..NODE_STATUS_BYTES * statusNum];
  }

  method WriteOffset(offset: u64) returns (data: seq<u8>)
    ensures data == ToLE(offset, 8)
  {
    hide ToLE, Pow256;
    data := [];
    ghost var q: nat := offset;
    QuotientStart(offset);
    for i := 0 to 8
      invariant |data| == i && q == offset / Pow256(i) && ToLE(offset, 8) == data + ToLE(q, 8 - i)
    {
      LEStep(q, 8 - i);
      QuotientStep(offset, i);
      data := data + [offset / Pow256(i) % 256];
      q := q / 256;
    }
    assert |ToLE(q, 0)| == 0;
  }

  lemma QuotientStart(n: nat)
    ensures n / Pow256(0) == n
  {
  }

  lemma QuotientStep(n: nat, i: nat)
    ensures n / Pow256(i) / 256 == n / Pow256(i + 1)
  {
    DivDiv(n, Pow256(i), 256);
  }

  method WriteEntries(connected: u8, dst: nat, statuses: seq<NodeStatus>) returns (body: seq<u8>)
    requires |statuses| == MAX_NODE_NUM && dst < MAX_CHILD_NUM
    ensures body == EncodeAll(Entries(connected, dst, statuses))
  {
    hide EncodeStatus, Bit, EncodeAll, Others, Entries;
    body := EncodeStatus(statuses[dst]) + EncodeStatus(statuses[MY_ID]);
    ghost var all := EncodeAll(Entries(connected, dst, statuses));
    EntriesStart(connected, dst, statuses);
    for i := 0 to MAX_NODE_NUM - 1
      invariant all == body + EncodeAll(Others(connected, dst, statuses, i))
    {
      EncodeNext(connected, dst, statuses, i, body);
      if i == dst {
        continue;
      }
      if Bit(connected, i) {
        body := body + EncodeStatus(statuses[i]);
      }
    }
    NoOthers(connected, dst, statuses);
  }

  lemma EntriesStart(connected: u8, dst: nat, statuses: seq<NodeStatus>)
    requires |statuses| == MAX_NODE_NUM && dst < MAX_CHILD_NUM
    ensures EncodeAll(Entries(connected, dst, statuses))
            == EncodeStatus(statuses[dst]) + EncodeStatus(statuses[MY_ID])
               + EncodeAll(Others(connected, dst, statuses, 0))
  {
    hide EncodeStatus, EncodeAll, Others;
    EncodeTwo(statuses[dst], statuses[MY_ID], Others(connected, dst, statuses, 0));
  }

  lemma EncodeNext(connected: u8, dst: nat, statuses: seq<NodeStatus>, i: nat, body: seq<u8>)
    requires |statuses| == MAX_NODE_NUM && i < MAX_NODE_NUM - 1
    ensures body + EncodeAll(Others(connected, dst, statuses, i))
            == (if i != dst && Bit(connected, i) then body + EncodeStatus(statuses[i]) else body)
               + EncodeAll(Others(connected, dst, statuses, i + 1))
  {
    hide EncodeStatus, EncodeAll, Bit;
    OthersSkip(connected, dst, statuses, i);
    EncodeCons(statuses[i], Others(connected, dst, statuses, i + 1));
  }

  lemma OthersSkip(connected: u8, dst: nat, statuses: seq<NodeStatus>, i: nat)
    requires |statuses| == MAX_NODE_NUM && i < MAX_NODE_NUM - 1
    ensures Others(connected, dst, statuses, i)
            == if i != dst && Bit(connected, i) then [statuses[i]] + Others(connected, dst, statuses, i + 1)
               else Others(connected, dst, statuses, i + 1)
  {
  }

  lemma EncodeCons(s: NodeStatus, rest: seq<NodeStatus>)
    ensures EncodeAll([s] + rest) == EncodeStatus(s) + EncodeAll(rest)
  {
    hide EncodeStatus;
    assert ([s] + rest)[1..] == rest;
  }

  lemma NoOthers(connected: u8, dst: nat, statuses: seq<NodeStatus>)
    requires |statuses| == MAX_NODE_NUM
    ensures EncodeAll(Others(connected, dst, statuses, MAX_NODE_NUM - 1)) == []
  {
  }

  lemma EncodeTwo(a: NodeStatus, b: NodeStatus, rest: seq<NodeStatus>)
    ensures EncodeAll([a, b] + rest) == EncodeStatus(a) + EncodeStatus(b) + EncodeAll(rest)
  {
    hide EncodeStatus;
    assert ([a, b] + rest)[1..] == [b] + rest && ([b] + rest)[1..] == rest;
  }
}
