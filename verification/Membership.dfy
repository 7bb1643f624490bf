/** The slots of a node: which are taken (CONNECTED_NODES), how many of them are children
    (CURRENT_CHILD_NUM), and who is in them, over every run of the handlers as they are meant:
    a slot that is given up is cleared, only a child's timeout is counted, and a node that is
    already a child is recognised. Module Handlers has them as they are written.
  */
module Membership {
  import opened Words
  import opened Bits

  const MAX_CHILD_NUM := 2
  const MAX_NODE_NUM := 4
  const PARENT_ID := 2
  const MY_ID := 3
  const ORIGIN_ID: u16 := 0

  /** Slots 0 and 1 are the children's, 2 is the parent's, 3 the node's own. ids are the id
      fields of NODES_STATUS. */
  datatype Slots = Slots(connected: u8, childNum: int, ids: seq<u16>)

  const NO_SLOTS := Slots(0, 0, [0, 0, 0, 0])

  /** How many of the first n slots are taken. */
  function Taken(connected: u8, n: nat): nat
    requires n <= 8
  {
    if n == 0 then 0 else Taken(connected, n - 1) + if Bit(connected, n - 1) then 1 else 0
  }

  /** The counter counts the children's bits, and no bit but the children's and the parent's
      is set. */
  predicate Counted(connected: u8, childNum: int) {
    connected < 8 && childNum == Taken(connected, MAX_CHILD_NUM)
  }

  /** Moreover exactly the empty child slots carry the origin's id, which no child has. */
  predicate Sound(s: Slots) {
    && |s.ids| == MAX_NODE_NUM
    && Counted(s.connected, s.childNum)
    && forall i :: 0 <= i < MAX_CHILD_NUM ==> (Bit(s.connected, i) <==> s.ids[i] != ORIGIN_ID)
  }

  /** CheckChildNum: the first free child slot, -1 if there is none. */
  function FreeSlot(connected: u8, childNum: int): (c: int)
    ensures -1 <= c < MAX_CHILD_NUM
  {
    if childNum >= MAX_CHILD_NUM then -1
    else if !Bit(connected, 0) then 0
    else if !Bit(connected, 1) then 1
    else -1
  }

  /** The slot is taken by the node id. */
  function Fill(s: Slots, slot: nat, id: u16): Slots
    requires slot < MAX_CHILD_NUM && |s.ids| == MAX_NODE_NUM
  {
    Slots(Plus(s.connected, slot), s.childNum + 1, s.ids[slot := id])
  }

  /** The slot is given up and its status cleared. */
  function Empty(s: Slots, slot: nat): Slots
    requires slot < MAX_CHILD_NUM && |s.ids| == MAX_NODE_NUM
  {
    Slots(Minus(s.connected, slot), s.childNum - 1, s.ids[slot := ORIGIN_ID])
  }

  /** Fewer than two children, and only then, means a free slot; the first is found. */
  lemma FreeSlotFound(connected: u8, childNum: int)
    requires Counted(connected, childNum)
    ensures var c := FreeSlot(connected, childNum);
            && (c == -1 <==> forall i :: 0 <= i < MAX_CHILD_NUM ==> Bit(connected, i))
            && (c == -1 <==> childNum == MAX_CHILD_NUM)
            && (c != -1 ==> !Bit(connected, c) && forall i :: 0 <= i < c ==> Bit(connected, i))
  {
    TakenTwo(connected);
  }

  /** Whatever the counter says, right or wrong: a slot is found exactly when it is below two
      and a slot is free. */
  lemma FreeSlotByCounter(connected: u8, childNum: int)
    ensures var c := FreeSlot(connected, childNum);
            && (c == -1 <==> childNum >= 2 || (Bit(connected, 0) && Bit(connected, 1)))
            && (c != -1 ==> !Bit(connected, c) && forall i :: 0 <= i < c ==> Bit(connected, i))
  {
    hide Bit;
  }

  lemma TakenTwo(w: u8)
    ensures Taken(w, 2) == (if Bit(w, 0) then 1 else 0) + (if Bit(w, 1) then 1 else 0)
  {
    assert Taken(w, 1) == Taken(w, 0) + if Bit(w, 0) then 1 else 0;
  }

  lemma PlusSmall(w: u8, i: nat)
    requires w < 8 && i <= PARENT_ID
    ensures !Bit(w, i) ==> Plus(w, i) < 8
    ensures Bit(w, i) ==> Minus(w, i) < 8
    ensures i == PARENT_ID && Bit(w, i) ==> Plus(w, i) >= 8
    ensures i == PARENT_ID && !Bit(w, i) ==> Minus(w, i) >= 8
  {
    assert Pow2(0) == 1 && Pow2(1) == 2 && Pow2(2) == 4;
    if i == 0 {
    } else if i == 1 {
    } else {
    }
  }

  lemma CountFilled(connected: u8, childNum: int, slot: nat)
    requires Counted(connected, childNum) && slot < MAX_CHILD_NUM && !Bit(connected, slot)
    ensures Counted(Plus(connected, slot), childNum + 1)
    ensures forall j :: 0 <= j <= 7 ==> (Bit(Plus(connected, slot), j) <==> j == slot || Bit(connected, j))
  {
    hide Bit;
    forall j | 0 <= j <= 7 ensures Bit(Plus(connected, slot), j) <==> j == slot || Bit(connected, j) {
      PlusSetsBit(connected, slot, j);
    }
    PlusSmall(connected, slot);
    TakenTwo(connected);
    TakenTwo(Plus(connected, slot));
  }

  lemma CountEmptied(connected: u8, childNum: int, slot: nat)
    requires Counted(connected, childNum) && slot < MAX_CHILD_NUM && Bit(connected, slot)
    ensures Counted(Minus(connected, slot), childNum - 1)
    ensures forall j :: 0 <= j <= 7 ==> (Bit(Minus(connected, slot), j) <==> j != slot && Bit(connected, j))
  {
    hide Bit;
    forall j | 0 <= j <= 7 ensures Bit(Minus(connected, slot), j) <==> j != slot && Bit(connected, j) {
      MinusClearsBit(connected, slot, j);
    }
    PlusSmall(connected, slot);
    TakenTwo(connected);
    TakenTwo(Minus(connected, slot));
  }

  lemma FillSound(s: Slots, slot: nat, id: u16)
    requires Sound(s) && slot < MAX_CHILD_NUM && !Bit(s.connected, slot) && id != ORIGIN_ID
    ensures Sound(Fill(s, slot, id))
    ensures Bit(Fill(s, slot, id).connected, PARENT_ID) == Bit(s.connected, PARENT_ID)
  {
    hide Bit;
    CountFilled(s.connected, s.childNum, slot);
  }

  lemma EmptySound(s: Slots, slot: nat)
    requires Sound(s) && slot < MAX_CHILD_NUM && Bit(s.connected, slot)
    ensures Sound(Empty(s, slot))
    ensures Bit(Empty(s, slot).connected, PARENT_ID) == Bit(s.connected, PARENT_ID)
  {
    hide Bit;
    CountEmptied(s.connected, s.childNum, slot);
  }

  /** The slot of the k-th child in slot order, counting from 1: the loop of GenerateRndID. */
  function NthChild(connected: u8, k: int, i: nat): (slot: int)
    requires i <= MAX_CHILD_NUM
    ensures slot == -1 || i <= slot < MAX_CHILD_NUM
    decreases MAX_CHILD_NUM - i
  {
    if i == MAX_CHILD_NUM then -1
    else if Taken(connected, i + 1) == k then i
    else NthChild(connected, k, i + 1)
  }

  /** GenerateRndID, with what rand returned. */
  function Draw(connected: u8, init: nat, range: nat, rand: nat): int {
    var value := if range != 0 then rand % range + init else init;
    if value == 0 then MY_ID else NthChild(connected, value, 0)
  }

  /** A draw from 0 to the number of children is the node itself or a child, and so is every
      one of them for some random value; a draw from 1 on is a child. */
  lemma DrawReachesAll(s: Slots, rand: nat)
    requires Sound(s)
    ensures var d := Draw(s.connected, 0, s.childNum + 1, rand);
            d == MY_ID || (0 <= d < MAX_CHILD_NUM && Bit(s.connected, d))
    ensures s.childNum > 0 ==>
              var d := Draw(s.connected, 1, s.childNum, rand);
              0 <= d < MAX_CHILD_NUM && Bit(s.connected, d)
    ensures Draw(s.connected, 0, s.childNum + 1, 0) == MY_ID
    ensures forall i :: 0 <= i < MAX_CHILD_NUM && Bit(s.connected, i) ==>
              Draw(s.connected, 0, s.childNum + 1, Taken(s.connected, i + 1)) == i
  {
    hide Bit;
    var w := s.connected;
    assert Taken(w, 0) == 0 && Taken(w, 1) == Taken(w, 0) + (if Bit(w, 0) then 1 else 0);
    TakenTwo(w);
    assert rand % (s.childNum + 1) <= s.childNum;
    assert s.childNum > 0 ==> rand % s.childNum < s.childNum;
    forall k | 1 <= k <= s.childNum ensures NthChild(w, k, 0) >= 0 && Bit(w, NthChild(w, k, 0)) {
      NthIsChild(w, k);
    }
    forall i | 0 <= i < MAX_CHILD_NUM && Bit(w, i)
      ensures Draw(w, 0, s.childNum + 1, Taken(w, i + 1)) == i
    {
      assert Taken(w, i + 1) % (s.childNum + 1) == Taken(w, i + 1);
    }
  }

  lemma NthIsChild(w: u8, k: int)
    requires 1 <= k <= Taken(w, MAX_CHILD_NUM)
    ensures 0 <= NthChild(w, k, 0) && Bit(w, NthChild(w, k, 0))
  {
    hide Bit;
    TakenTwo(w);
    assert Taken(w, 0) == 0 && Taken(w, 1) == Taken(w, 0) + (if Bit(w, 0) then 1 else 0);
    assert NthChild(w, k, 0) == if Taken(w, 1) == k then 0 else NthChild(w, k, 1);
  }

  /** The slot holds a child before which there are k other ones. */
  predicate IsChildNumber(w: u8, slot: int, k: nat) {
    0 <= slot < MAX_CHILD_NUM && Bit(w, slot) && Taken(w, slot) == k
  }

  /** Whom a draw names: from 0 on, the node itself exactly for remainder 0 and child k - 1 for
      remainder k; from 1 on, the child of the remainder. */
  lemma DrawIsRanked(w: u8, rand: nat)
    ensures var n, d := Taken(w, MAX_CHILD_NUM), Draw(w, 0, Taken(w, MAX_CHILD_NUM) + 1, rand);
            var k := rand % (n + 1);
            (d == MY_ID <==> k == 0) && (k > 0 ==> IsChildNumber(w, d, k - 1))
    ensures var n := Taken(w, MAX_CHILD_NUM);
            n > 0 ==> IsChildNumber(w, Draw(w, 1, n, rand), rand % n)
  {
    var n := Taken(w, MAX_CHILD_NUM);
    hide Bit, Taken;
    TakenTwo(w);
    var k := rand % (n + 1);
    assert 0 <= k <= n;
    if k > 0 {
      NthIsNumber(w, k);
    }
    if n > 0 {
      assert 0 <= rand % n < n;
      NthIsNumber(w, rand % n + 1);
    }
  }

  lemma NthIsNumber(w: u8, k: nat)
    requires 1 <= k <= Taken(w, MAX_CHILD_NUM)
    ensures IsChildNumber(w, NthChild(w, k, 0), k - 1)
  {
    hide Bit;
    TakenTwo(w);
    assert Taken(w, 0) == 0 && Taken(w, 1) == Taken(w, 0) + (if Bit(w, 0) then 1 else 0);
    assert NthChild(w, k, 0) == if Taken(w, 1) == k then 0 else NthChild(w, k, 1);
  }

  /** The answer to a node that wants to join. */
  datatype Answer = Admitted(slot: nat) | Redirected(target: int) | Unaccepted | NoAnswer

  datatype Outcome = Outcome(slots: Slots, answer: Answer)

  /** NodeSetup: the draw, the cache test, the slot, and the second draw when all are taken. */
  function Setup(s: Slots, rand: nat, again: nat, enough: bool, id: u16): Outcome
    requires |s.ids| == MAX_NODE_NUM && s.childNum >= 0
  {
    var drawn := Draw(s.connected, 0, s.childNum + 1, rand);
    if drawn != MY_ID then Outcome(s, Redirected(drawn))
    else if !enough then Outcome(s, Redirected(MY_ID))
    else if FreeSlot(s.connected, s.childNum) != -1 then
      var slot := FreeSlot(s.connected, s.childNum);
      Outcome(Fill(s, slot, id), Admitted(slot))
    else Outcome(s, Redirected(Draw(s.connected, 1, s.childNum, again)))
  }

  predicate IsDuplicate(s: Slots, id: u16)
    requires |s.ids| == MAX_NODE_NUM
  {
    exists i :: 0 <= i < MAX_CHILD_NUM && Bit(s.connected, i) && s.ids[i] == id
  }

  /** NodeConnect: a node that already is a child gets no answer. */
  function Connect(s: Slots, enough: bool, id: u16): Outcome
    requires |s.ids| == MAX_NODE_NUM
  {
    if !enough || FreeSlot(s.connected, s.childNum) == -1 then Outcome(s, Unaccepted)
    else if IsDuplicate(s, id) then Outcome(s, NoAnswer)
    else Outcome(Fill(s, FreeSlot(s.connected, s.childNum), id), Admitted(FreeSlot(s.connected, s.childNum)))
  }

  /** NodeDepart: every child slot with the id is given up, from slot i on. */
  function Depart(s: Slots, id: u16, i: nat): (r: Slots)
    requires |s.ids| == MAX_NODE_NUM && i <= MAX_CHILD_NUM
    ensures |r.ids| == MAX_NODE_NUM
    decreases MAX_CHILD_NUM - i
  {
    if i == MAX_CHILD_NUM then s
    else Depart(if s.ids[i] == id then Empty(s, i) else s, id, i + 1)
  }

  /** The timeout arm: a child's slot is given up, the parent's bit is cleared. */
  function Expire(s: Slots, slot: nat): Slots
    requires |s.ids| == MAX_NODE_NUM && slot < MAX_NODE_NUM
  {
    if !Bit(s.connected, slot) then s
    else if slot < MAX_CHILD_NUM then Empty(s, slot)
    else s.(connected := Minus(s.connected, slot))
  }

  /** NodeAccept sets the parent's bit unless it is set; NodeInitialStatus adds it and
      NodeDetach subtracts it without looking. */
  function AcceptParent(s: Slots): Slots {
    if Bit(s.connected, PARENT_ID) then s else AddParent(s)
  }

  function AddParent(s: Slots): Slots { s.(connected := Plus(s.connected, PARENT_ID)) }

  function DropParent(s: Slots): Slots { s.(connected := Minus(s.connected, PARENT_ID)) }

  /** What the three do to the parent's bit where the counters count, and to nothing else. */
  lemma ParentBits(s: Slots, i: nat)
    requires Counted(s.connected, s.childNum) && i <= 7
    ensures AcceptParent(s) == s.(connected := AcceptParent(s).connected)
    ensures AddParent(s) == s.(connected := AddParent(s).connected)
    ensures DropParent(s) == s.(connected := DropParent(s).connected)
    ensures Bit(AcceptParent(s).connected, i) <==> i == PARENT_ID || Bit(s.connected, i)
    ensures !Bit(s.connected, PARENT_ID) ==>
              (Bit(AddParent(s).connected, i) <==> i == PARENT_ID || Bit(s.connected, i))
    ensures Bit(s.connected, PARENT_ID) ==>
              (Bit(DropParent(s).connected, i) <==> i != PARENT_ID && Bit(s.connected, i))
  {
    hide Bit, Plus, Minus, Taken;
    if Bit(s.connected, PARENT_ID) {
      MinusClearsBit(s.connected, PARENT_ID, i);
    } else {
      PlusSetsBit(s.connected, PARENT_ID, i);
    }
  }

  /** NodeInitialStatus keeps the invariant exactly when there was no parent yet... */
  lemma AddParentSound(s: Slots)
    requires Sound(s)
    ensures Sound(AddParent(s)) <==> !Bit(s.connected, PARENT_ID)
  {
    PlusSmall(s.connected, PARENT_ID);
    if !Bit(s.connected, PARENT_ID) {
      forall j | 0 <= j < MAX_CHILD_NUM ensures Bit(AddParent(s).connected, j) == Bit(s.connected, j) {
        PlusSetsBit(s.connected, PARENT_ID, j);
      }
      hide Bit;
      TakenTwo(s.connected);
      TakenTwo(AddParent(s).connected);
    }
  }

  /** ...and NodeDetach exactly when there was one. */
  lemma DropParentSound(s: Slots)
    requires Sound(s)
    ensures Sound(DropParent(s)) <==> Bit(s.connected, PARENT_ID)
  {
    PlusSmall(s.connected, PARENT_ID);
    if Bit(s.connected, PARENT_ID) {
      forall j | 0 <= j < MAX_CHILD_NUM ensures Bit(DropParent(s).connected, j) == Bit(s.connected, j) {
        MinusClearsBit(s.connected, PARENT_ID, j);
      }
      hide Bit;
      TakenTwo(s.connected);
      TakenTwo(DropParent(s).connected);
    }
  }

  /** NodeDepart keeps the invariant exactly when the id is not one an empty slot shows. */
  lemma {:induction false} DepartSound(s: Slots, id: u16)
    requires Sound(s)
    ensures Sound(Depart(s, id, 0)) <==> forall i :: 0 <= i < MAX_CHILD_NUM && s.ids[i] == id ==> Bit(s.connected, i)
  {
    hide Bit, Taken;
    var s1 := if s.ids[0] == id then Empty(s, 0) else s;
    var s2 := if s1.ids[1] == id then Empty(s1, 1) else s1;
    assert Depart(s, id, 0) == Depart(s1, id, 1) == Depart(s2, id, 2) == s2;
    if id != ORIGIN_ID {
      if s.ids[0] == id {
        EmptySound(s, 0);
      }
      if s1.ids[1] == id {
        EmptySound(s1, 1);
      }
    } else {
      DepartOrigin(s);
    }
  }

  /** A Depart message from the origin's id takes a child off the counter for every empty
      slot. */
  lemma DepartOrigin(s: Slots)
    requires Sound(s)
    ensures Sound(Depart(s, ORIGIN_ID, 0)) <==> Bit(s.connected, 0) && Bit(s.connected, 1)
  {
    TakenTwo(s.connected);
    TakenTwo(Depart(s, ORIGIN_ID, 0).connected);
    var w := s.connected;
    assert w == 0 || w == 1 || w == 2 || w == 3 || w == 4 || w == 5 || w == 6 || w == 7;
  }

  /** A slot has the same occupant in both. */
  predicate SameSlot(s: Slots, r: Slots, i: nat)
    requires i < MAX_NODE_NUM && |s.ids| == |r.ids| == MAX_NODE_NUM
  {
    Bit(r.connected, i) == Bit(s.connected, i) && r.ids[i] == s.ids[i]
  }

  /** Who is let in: NodeConnect takes a node exactly when the cache suffices, there is room
      and the node is no child yet; it is then in the slot named, and nothing else changed. */
  lemma ConnectAnswers(s: Slots, enough: bool, id: u16)
    requires Sound(s)
    ensures var o := Connect(s, enough, id);
            && (o.answer.Admitted? <==> enough && s.childNum < MAX_CHILD_NUM && !IsDuplicate(s, id))
            && (o.answer.Unaccepted? <==> !enough || s.childNum == MAX_CHILD_NUM)
            && (!o.answer.Admitted? ==> o.slots == s)
            && (o.answer.Admitted? ==> LetIn(s, o.slots, o.answer.slot, id))
  {
    hide Bit, Taken;
    CountInRange(s);
    FreeSlotFound(s.connected, s.childNum);
    if FreeSlot(s.connected, s.childNum) != -1 {
      FillLetsIn(s, FreeSlot(s.connected, s.childNum), id);
    }
  }

  /** NodeSetup does so when the draw falls on the node itself, which remainder 0 does, and uses
      the first free slot. A node it does not take is sent to the child the remainder names, back
      to this node only for want of cache, and for want of room to the child a second draw
      names. */
  lemma SetupAnswers(s: Slots, rand: nat, again: nat, enough: bool, id: u16)
    requires Sound(s)
    ensures s.childNum >= 0
    ensures var o := Setup(s, rand, again, enough, id);
            var k := rand % (s.childNum + 1);
            && (o.answer.Admitted? <==> k == 0 && enough && s.childNum < MAX_CHILD_NUM)
            && (o.answer == Redirected(MY_ID) <==> k == 0 && !enough)
            && (!o.answer.Admitted? ==> o.slots == s && o.answer.Redirected?)
            && (k > 0 ==> IsChildNumber(s.connected, o.answer.target, k - 1))
            && (k == 0 && enough && s.childNum == MAX_CHILD_NUM ==>
                  IsChildNumber(s.connected, o.answer.target, again % MAX_CHILD_NUM))
            && (o.answer.Admitted? ==>
                  && LetIn(s, o.slots, o.answer.slot, id)
                  && forall i :: 0 <= i < o.answer.slot ==> Bit(s.connected, i))
  {
    hide Bit, Taken, Draw;
    CountInRange(s);
    FreeSlotFound(s.connected, s.childNum);
    DrawIsRanked(s.connected, rand);
    DrawIsRanked(s.connected, again);
    if FreeSlot(s.connected, s.childNum) != -1 {
      FillLetsIn(s, FreeSlot(s.connected, s.childNum), id);
    }
  }

  predicate LetIn(s: Slots, r: Slots, slot: nat, id: u16)
    requires |s.ids| == MAX_NODE_NUM
  {
    && slot < MAX_CHILD_NUM && |r.ids| == MAX_NODE_NUM && r.childNum == s.childNum + 1
    && !Bit(s.connected, slot) && Bit(r.connected, slot) && r.ids[slot] == id
    && forall i :: 0 <= i < MAX_NODE_NUM && i != slot ==> SameSlot(s, r, i)
  }

  lemma FillLetsIn(s: Slots, slot: nat, id: u16)
    requires Counted(s.connected, s.childNum) && |s.ids| == MAX_NODE_NUM
    requires slot < MAX_CHILD_NUM && !Bit(s.connected, slot)
    ensures LetIn(s, Fill(s, slot, id), slot, id)
  {
    hide Bit, Taken;
    CountFilled(s.connected, s.childNum, slot);
  }

  /** NodeDepart frees exactly the child slots with the ID, for any ID but the origin's. */
  lemma DepartFrees(s: Slots, id: u16, i: nat)
    requires Sound(s) && id != ORIGIN_ID && i < MAX_NODE_NUM
    ensures var r := Depart(s, id, 0);
            if i < MAX_CHILD_NUM && s.ids[i] == id then !Bit(r.connected, i) && r.ids[i] == ORIGIN_ID
            else SameSlot(s, r, i)
  {
    hide Bit, Taken;
    var s1 := if s.ids[0] == id then Empty(s, 0) else s;
    var s2 := if s1.ids[1] == id then Empty(s1, 1) else s1;
    assert Depart(s, id, 0) == Depart(s1, id, 1) == Depart(s2, id, 2) == s2;
    if s.ids[0] == id {
      EmptySound(s, 0);
      EmptyFrees(s, 0);
    }
    assert SameSlot(s, s1, 1);
    if s1.ids[1] == id {
      EmptyFrees(s1, 1);
    }
    assert i != 1 ==> SameSlot(s1, s2, i);
    assert i != 0 ==> SameSlot(s, s1, i);
  }

  lemma EmptyFrees(s: Slots, slot: nat)
    requires Sound(s) && slot < MAX_CHILD_NUM && Bit(s.connected, slot)
    ensures var r := Empty(s, slot);
            && !Bit(r.connected, slot) && r.ids[slot] == ORIGIN_ID && r.childNum == s.childNum - 1
            && forall i :: 0 <= i < MAX_NODE_NUM && i != slot ==> SameSlot(s, r, i)
  {
    hide Bit, Taken;
    CountEmptied(s.connected, s.childNum, slot);
  }

  /** A timeout frees its slot, child or parent, and no other. */
  lemma ExpireFrees(s: Slots, slot: nat)
    requires Sound(s) && slot <= PARENT_ID
    ensures var r := Expire(s, slot);
            && |r.ids| == MAX_NODE_NUM && !Bit(r.connected, slot)
            && (slot < MAX_CHILD_NUM ==> r.ids[slot] == ORIGIN_ID)
            && forall i :: 0 <= i < MAX_NODE_NUM && i != slot ==> SameSlot(s, r, i)
  {
    hide Bit, Taken;
    if Bit(s.connected, slot) {
      forall j | 0 <= j <= 7 ensures Bit(Minus(s.connected, slot), j) <==> j != slot && Bit(s.connected, j) {
        MinusClearsBit(s.connected, slot, j);
      }
    }
  }

  /** One step of a handler. Setup and Connect come from a node with an id the origin has
      given out, never 0; Depart may come from anyone. */
  datatype Event =
    | SetupFrom(rand: nat, again: nat, enough: bool, id: u16)
    | ConnectFrom(enough: bool, id: u16)
    | DepartFrom(id: u16)
    | Timeout(slot: nat)
    | InitialStatus
    | AcceptFrom
    | Detached

  /** The steps that cannot spoil the counters. */
  predicate Orderly(e: Event, s: Slots)
    requires |s.ids| == MAX_NODE_NUM
  {
    match e
    case SetupFrom(_, _, _, id) => id != ORIGIN_ID
    case ConnectFrom(_, id) => id != ORIGIN_ID
    case DepartFrom(id) => forall i :: 0 <= i < MAX_CHILD_NUM && s.ids[i] == id ==> Bit(s.connected, i)
    case Timeout(slot) => slot < MAX_NODE_NUM
    case InitialStatus => !Bit(s.connected, PARENT_ID)
    case AcceptFrom => true
    case Detached => Bit(s.connected, PARENT_ID)
  }

  function Handled(e: Event, s: Slots): Slots
    requires Sound(s) && Orderly(e, s)
  {
    match e
    case SetupFrom(rand, again, enough, id) => Setup(s, rand, again, enough, id).slots
    case ConnectFrom(enough, id) => Connect(s, enough, id).slots
    case DepartFrom(id) => Depart(s, id, 0)
    case Timeout(slot) => Expire(s, slot)
    case InitialStatus => AddParent(s)
    case AcceptFrom => AcceptParent(s)
    case Detached => DropParent(s)
  }

  lemma HandledSound(e: Event, s: Slots)
    requires Sound(s) && Orderly(e, s)
    ensures Sound(Handled(e, s))
  {
    hide Bit, Draw, Taken;
    FreeSlotFound(s.connected, s.childNum);
    match e
    case SetupFrom(_, _, _, id) =>
      if FreeSlot(s.connected, s.childNum) != -1 {
        FillSound(s, FreeSlot(s.connected, s.childNum), id);
      }
    case ConnectFrom(_, id) =>
      if FreeSlot(s.connected, s.childNum) != -1 {
        FillSound(s, FreeSlot(s.connected, s.childNum), id);
      }
    case DepartFrom(id) => DepartSound(s, id);
    case Timeout(slot) => ExpireSound(s, slot);
    case InitialStatus => AddParentSound(s);
    case AcceptFrom => AddParentSound(s);
    case Detached => DropParentSound(s);
  }

  lemma ExpireSound(s: Slots, slot: nat)
    requires Sound(s) && slot < MAX_NODE_NUM
    ensures Sound(Expire(s, slot))
  {
    if Bit(s.connected, slot) {
      if slot < MAX_CHILD_NUM {
        EmptySound(s, slot);
      } else if slot == PARENT_ID {
        DropParentSound(s);
      } else {
        DivUnique(s.connected, Pow2(slot), 0, s.connected);
        assert false;
      }
    }
  }

  /** A run of handler steps; one that is not orderly is skipped. */
  ghost function RunOf(s: Slots, events: seq<Event>): Slots
    requires Sound(s)
    decreases |events|
  {
    if events == [] then s
    else if Orderly(events[0], s) then
      HandledSound(events[0], s);
      RunOf(Handled(events[0], s), events[1..])
    else RunOf(s, events[1..])
  }

  /** Over every run the counter is the number of children and stays between 0 and 2, and
      a free slot is found whenever there is one. */
  lemma {:induction false} EveryRunSound(s: Slots, events: seq<Event>)
    requires Sound(s)
    ensures var r := RunOf(s, events);
            && Sound(r) && 0 <= r.childNum <= MAX_CHILD_NUM
            && (FreeSlot(r.connected, r.childNum) != -1 <==> r.childNum < MAX_CHILD_NUM)
    decreases |events|
  {
    hide Bit, Taken, Orderly, Handled;
    if events == [] {
      CountInRange(s);
    } else if Orderly(events[0], s) {
      HandledSound(events[0], s);
      EveryRunSound(Handled(events[0], s), events[1..]);
    } else {
      EveryRunSound(s, events[1..]);
    }
  }

  lemma CountInRange(s: Slots)
    requires Sound(s)
    ensures 0 <= s.childNum <= MAX_CHILD_NUM
            && (FreeSlot(s.connected, s.childNum) != -1 <==> s.childNum < MAX_CHILD_NUM)
  {
    FreeSlotFound(s.connected, s.childNum);
    TakenTwo(s.connected);
  }

  lemma StartSound()
    ensures Sound(NO_SLOTS)
  {
    TakenTwo(0);
  }
}
