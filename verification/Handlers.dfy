/** The membership handlers as they are written, with the slips that module Membership leaves
    out, and the exact conditions under which they keep the counters all the same.
  */
module Handlers {
  import opened Words
  import opened Bits
  import opened Membership

  /** The ID IsDuplicatedChild compares with: that of the status the asking node's own ID
      selects. IDs of 4 and more lie outside the table; beyond is what is found there. */
  function Looked(s: Slots, id: u16, beyond: u16): u16
    requires |s.ids| == MAX_NODE_NUM
  {
    if id < MAX_NODE_NUM then s.ids[id] else beyond
  }

  /** IsDuplicatedChild. */
  predicate SeemsDuplicate(s: Slots, id: u16, beyond: u16)
    requires |s.ids| == MAX_NODE_NUM
  {
    exists i :: 0 <= i < MAX_CHILD_NUM && Bit(s.connected, i) && id == Looked(s, id, beyond)
  }

  /** NodeConnect. */
  function Connected(s: Slots, enough: bool, id: u16, beyond: u16): Outcome
    requires |s.ids| == MAX_NODE_NUM
  {
    if !enough || FreeSlot(s.connected, s.childNum) == -1 then Outcome(s, Unaccepted)
    else if SeemsDuplicate(s, id, beyond) then Outcome(s, NoAnswer)
    else Outcome(Fill(s, FreeSlot(s.connected, s.childNum), id), Admitted(FreeSlot(s.connected, s.childNum)))
  }

  /** A child slot is taken by the node id. */
  predicate IsIn(s: Slots, id: u16, slot: nat)
    requires |s.ids| == MAX_NODE_NUM && slot < MAX_CHILD_NUM
  {
    Bit(s.connected, slot) && s.ids[slot] == id
  }

  /** The test answers as it should exactly when: if the status it looks at happens to carry
      the ID, there is no child or the node is one; if not, the node is no child. */
  lemma TestIsRight(s: Slots, id: u16, beyond: u16)
    requires |s.ids| == MAX_NODE_NUM
    ensures (SeemsDuplicate(s, id, beyond) <==> IsDuplicate(s, id)) <==>
              if Looked(s, id, beyond) == id then
                (!Bit(s.connected, 0) && !Bit(s.connected, 1)) || IsIn(s, id, 0) || IsIn(s, id, 1)
              else !IsIn(s, id, 0) && !IsIn(s, id, 1)
  {
    hide Bit;
    assert IsDuplicate(s, id) <==> IsIn(s, id, 0) || IsIn(s, id, 1) by {
      assert IsIn(s, id, 0) ==> Bit(s.connected, 0) && s.ids[0] == id;
      assert IsIn(s, id, 1) ==> Bit(s.connected, 1) && s.ids[1] == id;
    }
    assert SeemsDuplicate(s, id, beyond) <==>
           (Bit(s.connected, 0) || Bit(s.connected, 1)) && id == Looked(s, id, beyond);
  }

  /** In a sound state the only child the test can see is node 1 in slot 1, or one that shares
      its ID with the parent or the node itself. */
  lemma ChildSeen(s: Slots, id: u16, beyond: u16, slot: nat)
    requires Sound(s) && slot < MAX_CHILD_NUM && IsIn(s, id, slot)
    ensures SeemsDuplicate(s, id, beyond) <==>
              (id == 1 && s.ids[1] == 1) || (2 <= id < MAX_NODE_NUM && s.ids[id] == id)
              || (id >= MAX_NODE_NUM && beyond == id)
  {
    hide Bit;
    assert SeemsDuplicate(s, id, beyond) <==> id == Looked(s, id, beyond);
  }

  /** Whom NodeConnect admits: with a sufficient cache anyone while it has no child, and with
      one child anyone whose ID does not select a status that carries it. The node admitted is
      then in the slot named, and nothing else changed. */
  lemma ConnectedAnswers(s: Slots, enough: bool, id: u16, beyond: u16)
    requires Counted(s.connected, s.childNum) && |s.ids| == MAX_NODE_NUM
    ensures var o := Connected(s, enough, id, beyond);
            && (o.answer.Admitted? <==>
                  enough && (s.childNum == 0 || (s.childNum == 1 && Looked(s, id, beyond) != id)))
            && (o.answer.Unaccepted? <==> !enough || s.childNum == MAX_CHILD_NUM)
            && (!o.answer.Admitted? ==> o.slots == s)
            && (o.answer.Admitted? ==> LetIn(s, o.slots, o.answer.slot, id))
  {
    hide Bit, Taken;
    TakenTwo(s.connected);
    FreeSlotFound(s.connected, s.childNum);
    assert SeemsDuplicate(s, id, beyond) <==>
           (Bit(s.connected, 0) || Bit(s.connected, 1)) && id == Looked(s, id, beyond);
    if FreeSlot(s.connected, s.childNum) != -1 {
      FillLetsIn(s, FreeSlot(s.connected, s.childNum), id);
    }
  }

  /** So an only child the test does not see and that connects again is taken twice. */
  lemma TakenTwice(s: Slots, id: u16, beyond: u16, slot: nat)
    requires Sound(s) && s.childNum == 1 && slot < MAX_CHILD_NUM && IsIn(s, id, slot)
    ensures IsDuplicate(s, id)
    ensures var o := Connected(s, true, id, beyond);
            Looked(s, id, beyond) != id <==> o.answer.Admitted? && IsIn(o.slots, id, 0) && IsIn(o.slots, id, 1)
  {
    hide Bit, Taken;
    ConnectedAnswers(s, true, id, beyond);
    var o := Connected(s, true, id, beyond);
    if o.answer.Admitted? {
      assert SameSlot(s, o.slots, slot);
    }
  }

  /** Node 1, the first ever to join, in the first slot is such a child. */
  lemma FirstChildTakenTwice(beyond: u16)
    ensures var s := Slots(1, 1, [1, 0, 0, 0]);
            && Sound(s) && IsDuplicate(s, 1)
            && Connected(s, true, 1, beyond) == Outcome(Slots(3, 2, [1, 1, 0, 0]), Admitted(1))
  {
    var s := Slots(1, 1, [1, 0, 0, 0]);
    assert Pow2(0) == 1 && Pow2(1) == 2;
    TakenTwo(1);
    assert Bit(s.connected, 0) && s.ids[0] == 1;
  }

  /** NodeDepart: InitNodeStatus clears a copy, so a slot given up keeps its ID. */
  function Departed(s: Slots, id: u16, i: nat): (r: Slots)
    requires |s.ids| == MAX_NODE_NUM && i <= MAX_CHILD_NUM
    ensures r.ids == s.ids
    decreases MAX_CHILD_NUM - i
  {
    if i == MAX_CHILD_NUM then s
    else Departed(if s.ids[i] == id then GivenUp(s, i) else s, id, i + 1)
  }

  function GivenUp(s: Slots, slot: nat): Slots
    requires slot < MAX_NODE_NUM
  {
    s.(connected := Minus(s.connected, slot), childNum := s.childNum - 1)
  }

  /** It keeps the counters exactly when every child slot that shows the ID is taken, which
      it does not look at. */
  lemma DepartedCounted(s: Slots, id: u16)
    requires Counted(s.connected, s.childNum) && |s.ids| == MAX_NODE_NUM
    ensures var r := Departed(s, id, 0);
            Counted(r.connected, r.childNum) <==>
              (s.ids[0] == id ==> Bit(s.connected, 0)) && (s.ids[1] == id ==> Bit(s.connected, 1))
  {
    hide Bit, Taken, Minus;
    DepartedTwo(s, id);
    var s1 := if s.ids[0] == id then GivenUp(s, 0) else s;
    if s.ids[0] == id {
      GivenUpCounts(s.connected, 0);
      if Bit(s.connected, 0) {
        CountEmptied(s.connected, s.childNum, 0);
      }
    }
    if s.ids[1] == id {
      GivenUpCounts(s1.connected, 1);
      if Bit(s1.connected, 1) && Counted(s1.connected, s1.childNum) {
        CountEmptied(s1.connected, s1.childNum, 1);
      }
    }
  }

  /** Giving up a slot takes one off the children, and less than that exactly if it is free. */
  lemma GivenUpCounts(w: u8, slot: nat)
    requires slot < MAX_CHILD_NUM
    ensures var n := Taken(Minus(w, slot), MAX_CHILD_NUM);
            n >= Taken(w, MAX_CHILD_NUM) - 1 && (n == Taken(w, MAX_CHILD_NUM) - 1 <==> Bit(w, slot))
  {
    hide Bit, Taken;
    TakenTwo(w);
    TakenTwo(Minus(w, slot));
    if Bit(w, slot) {
      MinusClearsBit(w, slot, 0);
      MinusClearsBit(w, slot, 1);
    } else {
      MinusSetsFree(w, slot);
    }
  }

  lemma MinusSetsFree(w: u8, slot: nat)
    requires slot < MAX_CHILD_NUM && !Bit(w, slot)
    ensures Bit(Minus(w, slot), slot)
  {
    assert Pow2(0) == 1 && Pow2(1) == 2;
  }

  lemma DepartedTwo(s: Slots, id: u16)
    requires |s.ids| == MAX_NODE_NUM
    ensures var s1 := if s.ids[0] == id then GivenUp(s, 0) else s;
            Departed(s, id, 0) == if s.ids[1] == id then GivenUp(s1, 1) else s1
  {
    hide GivenUp;
    var s1 := if s.ids[0] == id then GivenUp(s, 0) else s;
    GivenUpIds(s, 0);
    assert Departed(s, id, 0) == Departed(s1, id, 1);
    GivenUpIds(s1, 1);
  }

  lemma GivenUpIds(s: Slots, slot: nat)
    requires slot < MAX_NODE_NUM
    ensures GivenUp(s, slot).ids == s.ids
  {
  }

  /** Then exactly the slots that show the ID are given up. */
  lemma DepartedFrees(s: Slots, id: u16, i: nat)
    requires Counted(s.connected, s.childNum) && |s.ids| == MAX_NODE_NUM && i <= PARENT_ID
    requires (s.ids[0] == id ==> Bit(s.connected, 0)) && (s.ids[1] == id ==> Bit(s.connected, 1))
    ensures var r := Departed(s, id, 0);
            Bit(r.connected, i) <==> Bit(s.connected, i) && !(i < MAX_CHILD_NUM && s.ids[i] == id)
  {
    hide Bit, Taken;
    DepartedTwo(s, id);
    var s1 := if s.ids[0] == id then GivenUp(s, 0) else s;
    if s.ids[0] == id {
      MinusClearsBit(s.connected, 0, i);
      MinusClearsBit(s.connected, 0, 1);
    }
    if s.ids[1] == id {
      MinusClearsBit(s1.connected, 1, i);
    }
  }

  /** A Depart message that arrives twice meets a slot that shows the ID and is free: it leaves
      a count of -1 and a borrow through all bits of an only child's node. */
  lemma DepartTwice(id: u16)
    ensures var s := Slots(1, 1, [id, if id == 0 then 1 else 0, 0, 0]);
            && Counted(s.connected, s.childNum)
            && Departed(Departed(s, id, 0), id, 0) == Slots(0xff, -1, s.ids)
  {
    TakenTwo(1);
    assert Pow2(0) == 1;
    var s := Slots(1, 1, [id, if id == 0 then 1 else 0, 0, 0]);
    DepartedTwo(s, id);
    DepartedTwo(Departed(s, id, 0), id);
  }

  /** The timeout arm: the slot's bit and the child counter go down, whoever timed out. */
  function Expired(s: Slots, slot: nat): Slots
    requires slot < MAX_NODE_NUM
  {
    if Bit(s.connected, slot) then GivenUp(s, slot) else s
  }

  /** It keeps the counters exactly when it was not the parent. */
  lemma ExpiredCounted(s: Slots, slot: nat)
    requires Counted(s.connected, s.childNum) && slot < MAX_NODE_NUM
    ensures var r := Expired(s, slot);
            Counted(r.connected, r.childNum) <==> slot != PARENT_ID || !Bit(s.connected, PARENT_ID)
  {
    hide Bit, Taken;
    if slot < MAX_CHILD_NUM {
      if Bit(s.connected, slot) {
        CountEmptied(s.connected, s.childNum, slot);
      }
    } else if slot == PARENT_ID {
      if Bit(s.connected, slot) {
        MinusClearsBit(s.connected, slot, 0);
        MinusClearsBit(s.connected, slot, 1);
        TakenTwo(s.connected);
        TakenTwo(Minus(s.connected, slot));
      }
    } else {
      NoHighBit(s.connected, slot);
    }
  }

  lemma NoHighBit(connected: u8, slot: nat)
    requires connected < 8 && slot == PARENT_ID + 1
    ensures !Bit(connected, slot)
  {
    assert Pow2(0) == 1 && Pow2(1) == 2 && Pow2(2) == 4 && Pow2(3) == 8;
    DivUnique(connected, 8, 0, connected);
  }

  /** It frees its slot and no other. */
  lemma ExpiredFrees(s: Slots, slot: nat, i: nat)
    requires slot <= PARENT_ID && i <= 7
    ensures Expired(s, slot).ids == s.ids
    ensures Bit(Expired(s, slot).connected, i) <==> i != slot && Bit(s.connected, i)
  {
    hide Bit;
    if Bit(s.connected, slot) {
      MinusClearsBit(s.connected, slot, i);
    }
  }

  /** NodeInitialStatus keeps the counters exactly when there was no parent, NodeDetach exactly
      when there was one. */
  lemma ParentCounted(s: Slots)
    requires Counted(s.connected, s.childNum)
    ensures Counted(AddParent(s).connected, s.childNum) <==> !Bit(s.connected, PARENT_ID)
    ensures Counted(DropParent(s).connected, s.childNum) <==> Bit(s.connected, PARENT_ID)
  {
    hide Bit, Taken, Pow2;
    PlusSmall(s.connected, PARENT_ID);
    TakenTwo(s.connected);
    TakenTwo(AddParent(s).connected);
    TakenTwo(DropParent(s).connected);
    if Bit(s.connected, PARENT_ID) {
      MinusClearsBit(s.connected, PARENT_ID, 0);
      MinusClearsBit(s.connected, PARENT_ID, 1);
    } else {
      PlusSetsBit(s.connected, PARENT_ID, 0);
      PlusSetsBit(s.connected, PARENT_ID, 1);
    }
  }

  /** One step of a handler as written. */
  datatype Step =
    | Setup(rand: nat, again: nat, enough: bool, id: u16)
    | Connect(enough: bool, id: u16, beyond: u16)
    | Depart(id: u16)
    | Timeout(slot: nat)
    | InitialStatus
    | Accept
    | Detach

  function Stepped(e: Step, s: Slots): (r: Slots)
    requires |s.ids| == MAX_NODE_NUM && s.childNum >= 0
    ensures |r.ids| == MAX_NODE_NUM
  {
    match e
    case Setup(rand, again, enough, id) => Membership.Setup(s, rand, again, enough, id).slots
    case Connect(enough, id, beyond) => Connected(s, enough, id, beyond).slots
    case Depart(id) => Departed(s, id, 0)
    case Timeout(slot) => if slot < MAX_NODE_NUM then Expired(s, slot) else s
    case InitialStatus => AddParent(s)
    case Accept => AcceptParent(s)
    case Detach => DropParent(s)
  }

  /** The guards the handlers lack. */
  predicate Guarded(e: Step, s: Slots)
    requires |s.ids| == MAX_NODE_NUM
  {
    match e
    case Depart(id) => (s.ids[0] == id ==> Bit(s.connected, 0)) && (s.ids[1] == id ==> Bit(s.connected, 1))
    case Timeout(slot) => slot != PARENT_ID || !Bit(s.connected, PARENT_ID)
    case InitialStatus => !Bit(s.connected, PARENT_ID)
    case Detach => Bit(s.connected, PARENT_ID)
    case _ => true
  }

  /** A step keeps the counters exactly when it is guarded. */
  lemma StepCounted(e: Step, s: Slots)
    requires Counted(s.connected, s.childNum) && |s.ids| == MAX_NODE_NUM
    ensures s.childNum >= 0
    ensures Counted(Stepped(e, s).connected, Stepped(e, s).childNum) <==> Guarded(e, s)
  {
    hide Bit, Taken, Draw, Departed, Expired;
    TakenTwo(s.connected);
    FreeSlotFound(s.connected, s.childNum);
    match e
    case Setup(_, _, _, _) => FillCounted(s);
    case Connect(_, _, _) => FillCounted(s);
    case Depart(id) => DepartedCounted(s, id);
    case Timeout(slot) =>
      if slot < MAX_NODE_NUM {
        ExpiredCounted(s, slot);
      }
    case InitialStatus => ParentCounted(s);
    case Accept => ParentCounted(s);
    case Detach => ParentCounted(s);
  }

  lemma FillCounted(s: Slots)
    requires Counted(s.connected, s.childNum) && |s.ids| == MAX_NODE_NUM
    ensures var c := FreeSlot(s.connected, s.childNum);
            c != -1 ==> forall id: u16 :: Counted(Fill(s, c, id).connected, Fill(s, c, id).childNum)
  {
    hide Bit, Taken;
    FreeSlotFound(s.connected, s.childNum);
    var c := FreeSlot(s.connected, s.childNum);
    if c != -1 {
      CountFilled(s.connected, s.childNum, c);
    }
  }

  /** A run of the handlers, from a sound start. */
  function RunOf(s: Slots, steps: seq<Step>): (r: Slots)
    requires |s.ids| == MAX_NODE_NUM
    ensures |r.ids| == MAX_NODE_NUM
    decreases |steps|
  {
    if steps == [] || s.childNum < 0 then s else RunOf(Stepped(steps[0], s), steps[1..])
  }

  /** The step at every point of the run is guarded in the state it meets. */
  predicate AllGuarded(s: Slots, steps: seq<Step>)
    requires |s.ids| == MAX_NODE_NUM
    decreases |steps|
  {
    steps == [] || (s.childNum >= 0 && Guarded(steps[0], s) && AllGuarded(Stepped(steps[0], s), steps[1..]))
  }

  /** Over every run of guarded steps the counter is the number of children and stays between
      0 and 2, and a free slot is found whenever there is one... */
  lemma {:induction false} EveryRunCounted(s: Slots, steps: seq<Step>)
    requires Counted(s.connected, s.childNum) && |s.ids| == MAX_NODE_NUM && AllGuarded(s, steps)
    ensures var r := RunOf(s, steps);
            && Counted(r.connected, r.childNum) && 0 <= r.childNum <= MAX_CHILD_NUM
            && (FreeSlot(r.connected, r.childNum) != -1 <==> r.childNum < MAX_CHILD_NUM)
    decreases |steps|
  {
    hide Bit, Taken, Guarded, Stepped;
    if steps == [] {
      TakenTwo(s.connected);
      FreeSlotFound(s.connected, s.childNum);
    } else {
      StepCounted(steps[0], s);
      EveryRunCounted(Stepped(steps[0], s), steps[1..]);
    }
  }

  /** ...and the first step of a run that is not guarded spoils them. */
  lemma {:induction false} FirstUnguardedSpoils(s: Slots, steps: seq<Step>, e: Step)
    requires Counted(s.connected, s.childNum) && |s.ids| == MAX_NODE_NUM && AllGuarded(s, steps)
    requires !Guarded(e, RunOf(s, steps))
    ensures RunOf(s, steps).childNum >= 0
    ensures var r := Stepped(e, RunOf(s, steps)); !Counted(r.connected, r.childNum)
  {
    EveryRunCounted(s, steps);
    StepCounted(e, RunOf(s, steps));
  }

  /** The globals of a node behind these functions. ids are the id fields of NODES_STATUS. */
  class Roster {
    var connected: u8
    var childNum: int
    const ids: array<u16>

    ghost function View(): Slots
      reads this, ids
    {
      Slots(connected, childNum, ids[..])
    }

    constructor ()
      ensures fresh(ids) && View() == NO_SLOTS
    {
      connected, childNum := 0, 0;
      ids := new u16[MAX_NODE_NUM](_ => ORIGIN_ID);
      new;
      assert ids[..] == [0, 0, 0, 0];
    }

    method CheckChildNum() returns (childId: int)
      ensures childId == FreeSlot(connected, childNum)
    {
      childId := -1;
      if childNum < MAX_CHILD_NUM {
        for i := 0 to MAX_CHILD_NUM
          invariant forall j :: 0 <= j < i ==> Bit(connected, j)
        {
          if !Bit(connected, i) {
            return i;
          }
        }
      }
    }

    method GenerateRndID(init: nat, range: nat, rand: nat) returns (rndId: int)
      ensures rndId == Draw(connected, init, range, rand)
    {
      var value := init;
      if range != 0 {
        value := rand % range + init;
      }
      if value == 0 {
        return MY_ID;
      }
      rndId := -1;
      var childCount := 0;
      for i := 0 to MAX_CHILD_NUM
        invariant childCount == Taken(connected, i)
        invariant NthChild(connected, value, 0) == NthChild(connected, value, i)
      {
        if Bit(connected, i) {
          childCount := childCount + 1;
        }
        if childCount == value {
          return i;
        }
      }
    }

    method NodeSetup(rand: nat, again: nat, enough: bool, id: u16) returns (answer: Answer)
      requires ids.Length == MAX_NODE_NUM && childNum >= 0
      modifies this, ids
      ensures Outcome(View(), answer) == Membership.Setup(old(View()), rand, again, enough, id)
    {
      hide Draw;
      var drawn := GenerateRndID(0, childNum + 1, rand);
      if drawn != MY_ID {
        return Redirected(drawn);
      }
      if !enough {
        return Redirected(MY_ID);
      }
      var childId := CheckChildNum();
      if childId != -1 {
        TakeSlot(childId, id);
        return Admitted(childId);
      }
      drawn := GenerateRndID(1, childNum, again);
      return Redirected(drawn);
    }

    method TakeSlot(slot: nat, id: u16)
      requires ids.Length == MAX_NODE_NUM && slot < MAX_CHILD_NUM
      modifies this, ids
      ensures View() == Fill(old(View()), slot, id)
    {
      ids[slot] := id;
      connected := Plus(connected, slot);
      childNum := childNum + 1;
    }

    method NodeConnect(enough: bool, id: u16, beyond: u16) returns (answer: Answer)
      requires ids.Length == MAX_NODE_NUM
      modifies this, ids
      ensures Outcome(View(), answer) == Connected(old(View()), enough, id, beyond)
    {
      if !enough {
        return Unaccepted;
      }
      var childId := CheckChildNum();
      if childId == -1 {
        return Unaccepted;
      }
      var duplicate := IsDuplicatedChild(id, beyond);
      if duplicate {
        return NoAnswer;
      }
      TakeSlot(childId, id);
      return Admitted(childId);
    }

    method IsDuplicatedChild(id: u16, beyond: u16) returns (ret: bool)
      requires ids.Length == MAX_NODE_NUM
      ensures ret == SeemsDuplicate(View(), id, beyond)
    {
      ret := false;
      for i := 0 to MAX_CHILD_NUM
        invariant ret <==> exists j :: 0 <= j < i && Bit(connected, j) && id == Looked(View(), id, beyond)
      {
        if Bit(connected, i) {
          var looked := if id < MAX_NODE_NUM then ids[id] else beyond;
          if id == looked {
            ret := true;
          }
        }
      }
    }

    method NodeDepart(departId: u16)
      requires ids.Length == MAX_NODE_NUM
      modifies this
      ensures View() == Departed(old(View()), departId, 0)
    {
      for i := 0 to MAX_CHILD_NUM
        invariant Departed(View(), departId, i) == old(Departed(View(), departId, 0)) && ids[..] == old(ids[..])
      {
        if ids[i] == departId {
          childNum := childNum - 1;
          connected := Minus(connected, i);
        }
      }
    }

    /** A slot whose KeepAlive interval has passed. */
    method ExpireSlot(slot: nat)
      requires ids.Length == MAX_NODE_NUM && slot < MAX_NODE_NUM
      modifies this
      ensures View() == Expired(old(View()), slot)
    {
      if Bit(connected, slot) {
        connected := Minus(connected, slot);
        childNum := childNum - 1;
      }
    }

    method NodeInitialStatus()
      modifies this
      ensures View() == AddParent(old(View()))
    {
      connected := Plus(connected, PARENT_ID);
    }

    method NodeAccept()
      modifies this
      ensures View() == AcceptParent(old(View()))
    {
      if !Bit(connected, PARENT_ID) {
        connected := Plus(connected, PARENT_ID);
      }
    }

    method NodeDetach()
      modifies this
      ensures View() == DropParent(old(View()))
    {
      connected := Minus(connected, PARENT_ID);
    }
  }
}
