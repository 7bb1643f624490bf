/** The overlay that joins build, one after another and without retransmission: each new node
    asks the origin, and follows the answers down to the node that takes it.
  */
module Overlay {
  import opened Words
  import opened Bits
  import opened Membership

  /** A node, known by its place in the list, which is the ID the origin gives it: its slots,
      its layer, and the parent it took from its Initial Status message. */
  datatype Member = Member(slots: Slots, layer: u8, parent: nat)

  const ORIGIN := Member(NO_SLOTS, 0, 0)

  /** A child slot of the node holds id. */
  predicate Holds(s: Slots, slot: nat, id: nat) {
    |s.ids| == MAX_NODE_NUM && slot < MAX_CHILD_NUM && Bit(s.connected, slot) && s.ids[slot] == id
  }

  /** How many steps up it is to the origin. */
  function Depth(ms: seq<Member>, v: nat): nat
    requires v < |ms|
  {
    if ms[v].parent < v then Depth(ms, ms[v].parent) + 1 else 0
  }

  predicate AllSound(ms: seq<Member>) {
    forall v :: 0 <= v < |ms| ==> Sound(ms[v].slots)
  }

  /** The layer is the depth, in a byte. */
  predicate Layered(ms: seq<Member>) {
    forall v :: 0 <= v < |ms| ==> ms[v].layer == U8(Depth(ms, v))
  }

  /** Every node but the origin is held by the parent it names, which joined before it. */
  predicate ParentsHold(ms: seq<Member>) {
    forall v :: 0 < v < |ms| ==> ms[v].parent < v && IsHeld(ms[ms[v].parent].slots, v)
  }

  /** Every node held joined later and names its holder. */
  ghost predicate HoldersAreParents(ms: seq<Member>) {
    forall v, slot: nat, id: nat :: 0 <= v < |ms| && Holds(ms[v].slots, slot, id) ==>
      v < id < |ms| && ms[id].parent == v
  }

  ghost predicate NoneTwice(ms: seq<Member>) {
    forall v, id: nat :: 0 <= v < |ms| && Holds(ms[v].slots, 0, id) ==> !Holds(ms[v].slots, 1, id)
  }

  /** Every node but the origin knows that it has a parent. */
  predicate ParentsKnown(ms: seq<Member>) {
    forall v :: 0 <= v < |ms| ==> (Bit(ms[v].slots.connected, PARENT_ID) <==> v > 0)
  }

  ghost predicate Tree(ms: seq<Member>) {
    && 0 < |ms| <= 0x1_0000 && AllSound(ms) && Layered(ms)
    && ParentsHold(ms) && HoldersAreParents(ms) && NoneTwice(ms) && ParentsKnown(ms)
  }

  predicate IsHeld(s: Slots, id: nat) {
    Holds(s, 0, id) || Holds(s, 1, id)
  }

  /** In a tree a node has exactly one place: one parent, and one of its slots. */
  lemma OneParent(ms: seq<Member>, u: nat, w: nat, slot: nat, slot': nat, id: nat)
    requires Tree(ms) && u < |ms| && w < |ms| && Holds(ms[u].slots, slot, id) && Holds(ms[w].slots, slot', id)
    ensures u == w == ms[id].parent && slot == slot'
  {
    hide Sound, Bit;
  }

  /** A path of child links down from the origin. */
  ghost predicate Path(ms: seq<Member>, path: seq<nat>) {
    && |path| > 0 && path[0] == 0
    && (forall k :: 0 <= k < |path| ==> path[k] < |ms|)
    && forall k :: 0 < k < |path| ==> IsHeld(ms[path[k - 1]].slots, path[k])
  }

  /** Every node is reached from the origin, in as many steps as its depth. */
  lemma {:induction false} Reachable(ms: seq<Member>, v: nat) returns (path: seq<nat>)
    requires Tree(ms) && v < |ms|
    ensures Path(ms, path) && path[|path| - 1] == v && |path| == Depth(ms, v) + 1
    decreases v
  {
    hide IsHeld, Holds, AllSound, Layered, HoldersAreParents, NoneTwice;
    if v == 0 {
      path := [0];
    } else {
      var up := Reachable(ms, ms[v].parent);
      path := up + [v];
    }
  }

  /** One answer to a Setup message: what the two draws returned, whether the cache sufficed. */
  datatype Ask = Ask(rand: nat, again: nat, enough: bool)

  /** Where a descent ends: held by a node after so many redirects downwards, or not yet. */
  datatype Descent = Attached(parent: nat, slot: nat, redirects: nat) | Trying

  /** A node called id asks node at, and whom it is redirected to, until it is admitted. A
      node redirected to itself asks the same node again. */
  function Descend(ms: seq<Member>, at: nat, asks: seq<Ask>, id: u16): Descent
    requires at < |ms| && AllSound(ms)
    decreases |asks|
  {
    if asks == [] then Trying
    else
      CountInRange(ms[at].slots);
      var answer := Setup(ms[at].slots, asks[0].rand, asks[0].again, asks[0].enough, id).answer;
      match answer
      case Admitted(slot) => Attached(at, slot, 0)
      case Redirected(target) =>
        if target == MY_ID then Descend(ms, at, asks[1..], id)
        else if 0 <= target < MAX_CHILD_NUM && ms[at].slots.ids[target] < |ms| then
          var r := Descend(ms, ms[at].slots.ids[target], asks[1..], id);
          if r.Attached? then r.(redirects := r.redirects + 1) else r
        else Trying
      case _ => Trying
  }

  /** The overlay after a join: the parent's slot is filled, and the new node has the parent
      and the layer its Initial Status message told it. */
  function Join(ms: seq<Member>, asks: seq<Ask>): seq<Member>
    requires 0 < |ms| < 0x1_0000 && AllSound(ms)
  {
    var r := Descend(ms, 0, asks, |ms|);
    if r.Attached? && r.parent < |ms| && r.slot < MAX_CHILD_NUM then Attach(ms, r.parent, r.slot) else ms
  }

  function Attach(ms: seq<Member>, p: nat, slot: nat): seq<Member>
    requires p < |ms| < 0x1_0000 && slot < MAX_CHILD_NUM && |ms[p].slots.ids| == MAX_NODE_NUM
  {
    ms[p := ms[p].(slots := Fill(ms[p].slots, slot, |ms|))] + [NewMember(ms[p].layer, p)]
  }

  function NewMember(layer: int, p: nat): Member {
    Member(AddParent(NO_SLOTS), U8(layer + 1), p)
  }

  /** An answer sends the newcomer to the node itself, to a child of it, or into a free slot. */
  lemma AnswerIsChild(s: Slots, ask: Ask, id: u16)
    requires Sound(s)
    ensures s.childNum >= 0
    ensures match Setup(s, ask.rand, ask.again, ask.enough, id).answer
            case Admitted(slot) => slot < MAX_CHILD_NUM && !Bit(s.connected, slot)
            case Redirected(target) => target == MY_ID || (0 <= target < MAX_CHILD_NUM && Bit(s.connected, target))
            case _ => false
    ensures ask.enough ==> Setup(s, ask.rand, ask.again, ask.enough, id).answer != Redirected(MY_ID)
  {
    CountInRange(s);
    FreeSlotFound(s.connected, s.childNum);
    DrawReachesAll(s, ask.rand);
    DrawReachesAll(s, ask.again);
    hide Bit, Draw, Taken, Fill, FreeSlot;
  }

  /** Every redirect goes one layer down, so the node that takes the newcomer lies as deep as
      there were redirects; and its slot was free. */
  lemma {:induction false} RedirectsAreDepth(ms: seq<Member>, at: nat, asks: seq<Ask>, id: u16)
    requires Tree(ms) && at < |ms|
    ensures var r := Descend(ms, at, asks, id);
            r.Attached? ==>
              && r.parent < |ms| && r.slot < MAX_CHILD_NUM && !Bit(ms[r.parent].slots.connected, r.slot)
              && Depth(ms, r.parent) == Depth(ms, at) + r.redirects
    decreases |asks|
  {
    hide Sound, Bit, Setup;
    if asks != [] {
      SlotCount(ms[at].slots);
      AnswerIsChild(ms[at].slots, asks[0], id);
      var answer := Setup(ms[at].slots, asks[0].rand, asks[0].again, asks[0].enough, id).answer;
      if answer.Redirected? {
        if answer.target == MY_ID {
          RedirectsAreDepth(ms, at, asks[1..], id);
        } else {
          var c := ms[at].slots.ids[answer.target];
          assert Holds(ms[at].slots, answer.target, c);
          RedirectsAreDepth(ms, c, asks[1..], id);
        }
      }
    }
  }

  lemma SlotCount(s: Slots)
    requires Sound(s)
    ensures |s.ids| == MAX_NODE_NUM
  {
  }

  /** How many of the answers come from a node with a sufficient cache. */
  function Sufficient(asks: seq<Ask>): nat {
    if asks == [] then 0 else Sufficient(asks[1..]) + if asks[0].enough then 1 else 0
  }

  /** A join ends after as many answers from nodes with a sufficient cache as the tree is high
      and one more, however often a node sends the newcomer back to itself in between. */
  lemma {:induction false} JoinEnds(ms: seq<Member>, at: nat, asks: seq<Ask>, id: u16, height: nat)
    requires Tree(ms) && at < |ms| && forall v :: 0 <= v < |ms| ==> Depth(ms, v) <= height
    requires Sufficient(asks) > height - Depth(ms, at)
    ensures Descend(ms, at, asks, id).Attached?
    decreases |asks|
  {
    hide Sound, Bit, Setup;
    SlotCount(ms[at].slots);
    AnswerIsChild(ms[at].slots, asks[0], id);
    var answer := Setup(ms[at].slots, asks[0].rand, asks[0].again, asks[0].enough, id).answer;
    if answer == Redirected(MY_ID) {
      JoinEnds(ms, at, asks[1..], id, height);
    } else if answer.Redirected? {
      var c := ms[at].slots.ids[answer.target];
      assert Holds(ms[at].slots, answer.target, c);
      JoinEnds(ms, c, asks[1..], id, height);
    }
  }

  /** Depths depend on the parents named, and on those of earlier nodes only. */
  lemma {:induction false} DepthStable(ms: seq<Member>, ms': seq<Member>, v: nat)
    requires v < |ms| <= |ms'| && forall u :: 0 <= u <= v ==> ms'[u].parent == ms[u].parent
    ensures Depth(ms', v) == Depth(ms, v)
    decreases v
  {
    if ms[v].parent < v {
      DepthStable(ms, ms', ms[v].parent);
    }
  }

  /** Filling a free slot changes nothing about the others. */
  lemma FillHolds(s: Slots, slot: nat, id: u16, slot': nat, id': nat)
    requires Sound(s) && slot < MAX_CHILD_NUM && !Bit(s.connected, slot)
    ensures Bit(Fill(s, slot, id).connected, PARENT_ID) <==> Bit(s.connected, PARENT_ID)
    ensures Holds(Fill(s, slot, id), slot', id') <==>
              if slot' == slot then id' == id else Holds(s, slot', id')
  {
    hide Bit;
    CountFilled(s.connected, s.childNum, slot);
    hide Taken;
  }

  lemma NewcomerSound()
    ensures Sound(AddParent(NO_SLOTS)) && forall slot: nat, id: nat :: !Holds(AddParent(NO_SLOTS), slot, id)
    ensures Bit(AddParent(NO_SLOTS).connected, PARENT_ID)
  {
    StartSound();
    AddParentSound(NO_SLOTS);
    PlusSetsBit(0, PARENT_ID, PARENT_ID);
    forall j | 0 <= j < MAX_CHILD_NUM ensures !Bit(AddParent(NO_SLOTS).connected, j) {
      PlusSetsBit(0, PARENT_ID, j);
    }
  }

  /** A join keeps the tree a tree: the new node hangs under one parent, one layer below it. */
  lemma AttachKeepsTree(ms: seq<Member>, p: nat, slot: nat)
    requires Tree(ms) && p < |ms| < 0x1_0000 && slot < MAX_CHILD_NUM && !Bit(ms[p].slots.connected, slot)
    ensures |ms[p].slots.ids| == MAX_NODE_NUM && Tree(Attach(ms, p, slot))
    ensures Depth(Attach(ms, p, slot), |ms|) == Depth(ms, p) + 1
  {
    hide Bit, AllSound, Layered, ParentsHold, HoldersAreParents, NoneTwice, ParentsKnown, Attach, Depth;
    OneSound(ms, p);
    AttachGrows(ms, p, slot);
    AddToTree(ms, Attach(ms, p, slot), p, slot);
  }

  lemma OneSound(ms: seq<Member>, p: nat)
    requires AllSound(ms) && p < |ms|
    ensures Sound(ms[p].slots) && |ms[p].slots.ids| == MAX_NODE_NUM
  {
  }

  lemma AttachGrows(ms: seq<Member>, p: nat, slot: nat)
    requires AllSound(ms) && p < |ms| < 0x1_0000 && slot < MAX_CHILD_NUM && !Bit(ms[p].slots.connected, slot)
    requires |ms[p].slots.ids| == MAX_NODE_NUM && 0 < |ms|
    ensures Grown(ms, Attach(ms, p, slot), p, slot)
  {
    var id := |ms|;
    var ms' := Attach(ms, p, slot);
    hide Bit, Sound, Holds, Depth;
    NewcomerSound();
    FillSound(ms[p].slots, slot, id);
    hide Fill, AddParent;
    forall v | 0 <= v < |ms| ensures Depth(ms', v) == Depth(ms, v) {
      DepthStable(ms, ms', v);
    }
    FillHolds(ms[p].slots, slot, id, slot, id);
    forall v, slot': nat, id': nat | 0 <= v < |ms|
      ensures Holds(ms'[v].slots, slot', id') <==>
                Holds(ms[v].slots, slot', id') || (v == p && slot' == slot && id' == id)
    {
      if v == p {
        FillHolds(ms[p].slots, slot, id, slot', id');
        FreeHoldsNone(ms[p].slots, slot, id');
      }
    }
  }

  lemma FreeHoldsNone(s: Slots, slot: nat, id: nat)
    requires slot < MAX_CHILD_NUM && !Bit(s.connected, slot)
    ensures !Holds(s, slot, id)
  {
  }

  lemma AddToTree(ms: seq<Member>, ms': seq<Member>, p: nat, slot: nat)
    requires Tree(ms) && p < |ms| < 0x1_0000 && slot < MAX_CHILD_NUM
    requires Grown(ms, ms', p, slot)
    ensures Tree(ms') && Depth(ms', |ms|) == Depth(ms, p) + 1
  {
    hide Sound, Holds, AllSound, Layered, HoldersAreParents, NoneTwice, ParentsHold, ParentsKnown, Grown, Depth;
    GrownKnown(ms, ms', p, slot);
    GrownSound(ms, ms', p, slot);
    GrownLayers(ms, ms', p, slot);
    GrownHeld(ms, ms', p, slot);
    GrownHolders(ms, ms', p, slot);
    GrownOnce(ms, ms', p, slot);
  }

  /** A node more, held by slot of node p, and nothing else different. */
  ghost predicate Grown(ms: seq<Member>, ms': seq<Member>, p: nat, slot: nat)
    requires p < |ms|
  {
    && |ms'| == |ms| + 1 && ms'[|ms|] == NewMember(ms[p].layer, p) && Sound(ms'[|ms|].slots)
    && Bit(ms'[|ms|].slots.connected, PARENT_ID)
    && (forall v :: 0 <= v < |ms| ==>
          && Bit(ms'[v].slots.connected, PARENT_ID) == Bit(ms[v].slots.connected, PARENT_ID)
          && Sound(ms'[v].slots) && ms'[v].layer == ms[v].layer && ms'[v].parent == ms[v].parent
          && Depth(ms', v) == Depth(ms, v))
    && (forall v, slot': nat, id': nat :: 0 <= v < |ms| ==>
          (Holds(ms'[v].slots, slot', id') <==>
             Holds(ms[v].slots, slot', id') || (v == p && slot' == slot && id' == |ms|)))
    && (forall slot': nat, id': nat :: !Holds(ms'[|ms|].slots, slot', id'))
  }

  lemma GrownSound(ms: seq<Member>, ms': seq<Member>, p: nat, slot: nat)
    requires p < |ms| && Grown(ms, ms', p, slot) && AllSound(ms)
    ensures AllSound(ms') && |ms'| == |ms| + 1
  {
    hide Sound, Holds, Depth;
  }

  lemma GrownKnown(ms: seq<Member>, ms': seq<Member>, p: nat, slot: nat)
    requires p < |ms| && Grown(ms, ms', p, slot) && ParentsKnown(ms)
    ensures ParentsKnown(ms')
  {
    hide Sound, Holds, Depth, Bit;
  }

  lemma GrownLayers(ms: seq<Member>, ms': seq<Member>, p: nat, slot: nat)
    requires p < |ms| && Grown(ms, ms', p, slot) && Layered(ms)
    ensures |ms'| == |ms| + 1 && Layered(ms') && Depth(ms', |ms|) == Depth(ms, p) + 1
  {
    hide Sound, Holds, NewMember, Depth;
    NewLayer(ms[p].layer, p, Depth(ms, p));
    DepthStep(ms', |ms|);
  }

  lemma DepthStep(ms: seq<Member>, v: nat)
    requires v < |ms| && ms[v].parent < v
    ensures Depth(ms, v) == Depth(ms, ms[v].parent) + 1
  {
  }

  lemma GrownHeld(ms: seq<Member>, ms': seq<Member>, p: nat, slot: nat)
    requires p < |ms| && slot < MAX_CHILD_NUM && Grown(ms, ms', p, slot) && ParentsHold(ms)
    ensures ParentsHold(ms')
  {
    hide Sound, Holds, Depth, Bit;
    assert Holds(ms'[p].slots, slot, |ms|);
    forall v | 0 < v < |ms'| ensures ms'[v].parent < v && IsHeld(ms'[ms'[v].parent].slots, v) {
      if v < |ms| {
        assert IsHeld(ms[ms[v].parent].slots, v);
      }
    }
  }

  lemma GrownHolders(ms: seq<Member>, ms': seq<Member>, p: nat, slot: nat)
    requires p < |ms| && Grown(ms, ms', p, slot) && HoldersAreParents(ms)
    ensures HoldersAreParents(ms')
  {
    hide Sound, Holds, Depth;
  }

  lemma GrownOnce(ms: seq<Member>, ms': seq<Member>, p: nat, slot: nat)
    requires p < |ms| && Grown(ms, ms', p, slot) && HoldersAreParents(ms) && NoneTwice(ms)
    ensures NoneTwice(ms')
  {
    hide Sound, Holds, Depth;
  }

  lemma NewLayer(layer: u8, p: nat, depth: nat)
    requires layer == U8(depth)
    ensures NewMember(layer, p).layer == U8(depth + 1) && NewMember(layer, p).parent == p
  {
  }

  lemma JoinKeepsTree(ms: seq<Member>, asks: seq<Ask>)
    requires Tree(ms) && |ms| < 0x1_0000
    ensures Tree(Join(ms, asks))
    ensures var r := Descend(ms, 0, asks, |ms|);
            r.Attached? ==> |Join(ms, asks)| == |ms| + 1 && Depth(Join(ms, asks), |ms|) == r.redirects + 1
  {
    hide Sound, Bit;
    RedirectsAreDepth(ms, 0, asks, |ms|);
    var r := Descend(ms, 0, asks, |ms|);
    if r.Attached? {
      AttachKeepsTree(ms, r.parent, r.slot);
    }
  }

  /** The overlay after any number of joins, one after another. */
  ghost function Overlaid(ms: seq<Member>, joins: seq<seq<Ask>>): seq<Member>
    requires Tree(ms)
    decreases |joins|
  {
    if joins == [] || |ms| == 0x1_0000 then ms
    else
      JoinKeepsTree(ms, joins[0]);
      Overlaid(Join(ms, joins[0]), joins[1..])
  }

  lemma {:induction false} EveryOverlayIsTree(joins: seq<seq<Ask>>)
    ensures Tree([ORIGIN]) && Tree(Overlaid([ORIGIN], joins))
  {
    OriginIsTree();
    OverlaidIsTree([ORIGIN], joins);
  }

  lemma OriginIsTree()
    ensures Tree([ORIGIN])
  {
    StartSound();
    forall j | 0 <= j <= PARENT_ID ensures !Bit(NO_SLOTS.connected, j) {
    }
  }

  lemma {:induction false} OverlaidIsTree(ms: seq<Member>, joins: seq<seq<Ask>>)
    requires Tree(ms)
    ensures Tree(Overlaid(ms, joins))
    decreases |joins|
  {
    hide Tree;
    if joins != [] && |ms| != 0x1_0000 {
      TreeSize(ms);
      JoinKeepsTree(ms, joins[0]);
      OverlaidIsTree(Join(ms, joins[0]), joins[1..]);
    }
  }

  lemma TreeSize(ms: seq<Member>)
    requires Tree(ms)
    ensures 0 < |ms| <= 0x1_0000 && AllSound(ms)
  {
  }
}
