/** Sending to all children: SendMulStream with its file position, as methods on the state of
    a node, over the cursor invariant.
  */
module Senders {
  import opened Words
  import opened Bits
  import opened Ebml
  import opened Blocks
  import opened Segmentation
  import opened Clusters
  import opened Serving
  import opened Cursors
  import opened Streams
  import opened Membership
  import opened Files

  /** A child is due a packet: it is connected and IsOldBlockSeq says its last block is not
      the newest one. */
  predicate Due(src: Source, connected: u8, prev: BlockInfo, slot: nat)
    requires slot <= 7
  {
    Bit(connected, slot) && Pending(src, prev)
  }

  /** How many of the first n slots hold a child that has been sent everything. */
  function Idle(src: Source, connected: u8, prevs: seq<BlockInfo>, n: nat): nat
    requires n <= |prevs| <= 8
  {
    if n == 0 then 0
    else Idle(src, connected, prevs, n - 1) + if Bit(connected, n - 1) && !Pending(src, prevs[n - 1]) then 1 else 0
  }

  /** What a node sends with, beside its file. children is CURRENT_CHILD_BLOCK; wire[i] lists
      the packets that have gone to the child in slot i, and starts[i] is the cluster its
      stream began at. */
  class Sender {
    const webm: WebM
    var connected: u8
    var childNum: int
    const children: seq<Block>
    var wire: seq<seq<seq<u8>>>
    ghost var starts: seq<u16>

    /** A node with no child yet: InitChildBlocks. */
    constructor (webm: WebM)
      requires webm.fpos <= |webm.file|
      ensures Valid() && fresh(children) && this.webm == webm && connected == 0
    {
      this.webm := webm;
      connected, childNum := 0, 0;
      var first := new Block();
      var second := new Block();
      children := [first, second];
      wire, starts := [[], []], [0, 0];
      TakenTwo(0);
      new;
    }

    function View(): Source
      reads webm`file, webm`headerBytes, webm`firstClusterSeq, webm`prevCluster, webm`latest
    {
      Source(webm.file, webm.headerBytes, webm.firstClusterSeq, webm.prevCluster.number, webm.latest)
    }

    /** The objects and lists are in place. */
    ghost predicate Valid()
      reads this, webm, children
    {
      && |children| == |wire| == |starts| == MAX_CHILD_NUM && children[0] != children[1]
      && Counted(connected, childNum)
      && webm.fpos <= |webm.file|
      && forall i :: 0 <= i < MAX_CHILD_NUM && Bit(connected, i) ==> children[i].info == NO_BLOCK
    }

    predicate HasChild()
      reads this
    {
      Bit(connected, 0) || Bit(connected, 1)
    }

    /** Every child's cursor is in order, for the sections ss of the file. */
    ghost predicate InOrder(ss: seq<Section>)
      reads this, webm, children
    {
      && Valid() && AllGood(ss) && webm.firstClusterSeq + |ss| < 0x1_0000
      && (HasChild() ==> Ready(View(), ss))
      && forall i :: 0 <= i < MAX_CHILD_NUM && Bit(connected, i) ==>
           ChildOk(webm.firstClusterSeq, ss, starts[i], children[i].prev, wire[i])
    }

    method CalOffset(info: BlockInfo) returns (offset: nat)
      requires CanWalk(webm.file, webm.headerBytes, Count(View(), info))
      modifies webm`fpos
      ensures offset == Offset(old(View()), info)
    {
      hide ChankAt, HasHeader;
      var count := U32(info.clusterSeq - webm.firstClusterSeq);
      offset := webm.headerBytes;
      var i := 0;
      while i < count
        invariant 0 <= i <= count && CanWalk(webm.file, offset, count - i)
        invariant Walk(webm.file, offset, count - i) == Walk(webm.file, webm.headerBytes, count)
      {
        webm.fpos := offset;
        var head := webm.SearchWebM(CLUSTER_HEADER_BYTES, offset);
        assert head == HeadAt(webm.file, offset);
        var chank := GetChank(head);
        offset := offset + chank.chankBytes;
        i := i + 1;
      }
      offset := offset + U32(info.pos + info.bytes);
    }

    method SendCacheBlock(slot: nat, memory: seq<u8>) returns (status: int)
      requires Valid() && slot < MAX_CHILD_NUM && children[slot].info == NO_BLOCK
      requires CanSend(View(), children[slot].prev, memory)
      modifies webm`fpos, webm`readPos, this`wire, children[slot]
      ensures children[slot].prev == old(children[slot].prev) && webm.fpos <= |webm.file|
      ensures var r := Send(old(View()), old(children[slot].prev), memory);
              && status == r.status && wire == old(wire)[slot := old(wire)[slot] + [r.packet]]
              && r.prev == if status == CLUSTER_END then ClusterStart(U16(children[slot].info.clusterSeq + 1))
                           else children[slot].info
    {
      hide Offset, CanWalk, NextBlock, Encode;
      var block := children[slot];
      var offset := CalOffset(block.prev);
      webm.SeekABSWebM(offset);
      var ahead := webm.SearchWebM(MAX_BLOCK_BYTES, offset);
      var buf := ahead + Filled(MAX_BLOCK_BYTES - |ahead|, 0) + memory;
      assert buf == ReadBuffer(webm.file[offset..], memory) by {
        assert webm.file[offset..][..|ahead|] == ahead;
      }
      status := block.GetNextBlockByBytes(MAX_BLOCK_BYTES, buf);
      wire := wire[slot := wire[slot] + [Encode(block.info) + buf[..block.info.bytes]]];
    }

    /** What SendMulStream does for one slot, in the state src: a child that is due gets its
        next packet and its cursor moves on; nothing else changes. */
    twostate predicate Served(slot: nat, src: Source, memory: seq<u8>)
      requires slot < |children| <= 8 && |old(wire)| == |wire| == |children|
      reads this, webm`file, webm`headerBytes, webm`firstClusterSeq, webm`prevCluster, webm`latest, children
    {
      var prev := old(children[slot].prev);
      if Due(src, connected, prev, slot) then
        && CanSend(src, prev, memory)
        && wire[slot] == old(wire[slot]) + [Send(src, prev, memory).packet]
        && children[slot].prev == Send(src, prev, memory).prev
      else
        wire[slot] == old(wire[slot]) && children[slot].prev == prev
    }

    /** Every node that was a child and whose last block is at that place or before it has got
        one more packet, and every one further on has got nothing. */
    twostate predicate SentUpTo(clusterSeq: nat, number: nat)
      reads this, children
    {
      && |old(wire)| == |wire| == |children| == MAX_CHILD_NUM
      && forall i :: 0 <= i < MAX_CHILD_NUM && old(Bit(connected, i)) ==>
           if Place(old(children[i].prev.clusterSeq), old(children[i].prev.number)) <= Place(clusterSeq, number) then
             |wire[i]| == |old(wire[i])| + 1 && old(wire[i]) <= wire[i]
           else wire[i] == old(wire[i])
    }

    twostate lemma SentByPlace(memory: nat -> seq<u8>)
      requires RoundSent(memory) && connected == old(connected)
      ensures SentUpTo(webm.prevCluster.number, webm.latest)
    {
      hide CanSend, Send, Pending, Place, Bit;
      forall i | 0 <= i < MAX_CHILD_NUM && old(Bit(connected, i))
        ensures if Place(old(children[i].prev.clusterSeq), old(children[i].prev.number))
                   <= Place(webm.prevCluster.number, webm.latest) then
                  |wire[i]| == |old(wire[i])| + 1 && old(wire[i]) <= wire[i]
                else wire[i] == old(wire[i])
      {
        DueByPlace(View(), old(children[i].prev));
        assert Served(i, View(), memory(i));
      }
    }

    /** What one round of SendMulStream does for all children. */
    twostate predicate RoundSent(memory: nat -> seq<u8>)
      reads this, webm`file, webm`headerBytes, webm`firstClusterSeq, webm`prevCluster, webm`latest, children
    {
      && |old(wire)| == |wire| == |children| == MAX_CHILD_NUM
      && forall i :: 0 <= i < MAX_CHILD_NUM ==> Served(i, View(), memory(i))
    }

    /** The memory spoils no read that is due. */
    ghost predicate CleanDue(slot: nat, memory: seq<u8>)
      requires slot < |children| <= 8
      reads this, webm, children
    {
      |memory| >= HEADER_REACH
        && (Due(View(), connected, children[slot].prev, slot) ==> CleanFor(View(), children[slot].prev, memory))
    }

    /** One slot of the loop of SendMulStream. */
    method ServeSlot(slot: nat, memory: seq<u8>, ghost ss: seq<Section>) returns (idle: nat)
      requires InOrder(ss) && slot < MAX_CHILD_NUM && CleanDue(slot, memory)
      modifies webm`fpos, webm`readPos, this`wire, children[slot]
      ensures InOrder(ss) && Served(slot, View(), memory)
      ensures forall i :: 0 <= i < MAX_CHILD_NUM && i != slot ==> wire[i] == old(wire[i])
      ensures idle == if Bit(connected, slot) && !Pending(View(), old(children[slot].prev)) then 1 else 0
      ensures idle == 1 <==>
                && Bit(connected, slot)
                && Place(old(children[slot].prev.clusterSeq), old(children[slot].prev.number))
                   > Place(webm.prevCluster.number, webm.latest)
    {
      hide Ready, AllGood, ChildOk, CleanFor, CanSend, Send, Pending, Place;
      idle := 0;
      DueByPlace(View(), children[slot].prev);
      if Bit(connected, slot) {
        if Pending(View(), children[slot].prev) {
          SendKeepsChild(View(), ss, starts[slot], children[slot].prev, wire[slot], memory);
          var status := SendCacheBlock(slot, memory);
          if status == CLUSTER_END {
            children[slot].RenewBlock();
          } else {
            children[slot].ShiftToPreBlock();
          }
        } else {
          idle := 1;
        }
      }
    }

    /** SendMulStream: every child that is due gets its next packet, and file and position
        are as before. It returns 0 exactly when no child was due. */
    method SendMulStream(memory: nat -> seq<u8>, ghost ss: seq<Section>) returns (ret: int)
      requires InOrder(ss) && forall i :: 0 <= i < MAX_CHILD_NUM ==> CleanDue(i, memory(i))
      modifies webm`fpos, webm`readPos, this`wire, children
      ensures InOrder(ss) && webm.fpos == old(webm.fpos) && webm.readPos == webm.fpos && 0 <= ret <= 1
      ensures RoundSent(memory) && SentUpTo(webm.prevCluster.number, webm.latest)
      ensures ret == 0 <==> forall i :: 0 <= i < MAX_CHILD_NUM ==> !Due(View(), connected, old(children[i].prev), i)
    {
      hide Ready, AllGood, ChildOk, CleanFor, CanSend, Send, Pending, Bit;
      webm.UpdateOffsetWebM();
      var offset := webm.readPos;
      ghost var prevs := [children[0].prev, children[1].prev];
      var count := 0;
      for i := 0 to MAX_CHILD_NUM
        invariant InOrder(ss) && count == Idle(View(), connected, prevs, i)
        invariant forall j :: 0 <= j < i ==> Served(j, View(), memory(j))
        invariant forall j :: i <= j < MAX_CHILD_NUM ==> wire[j] == old(wire[j]) && children[j].prev == prevs[j]
      {
        var idle := ServeSlot(i, memory(i), ss);
        count := count + idle;
      }
      IdleAll(View(), connected, prevs);
      SentByPlace(memory);
      ret := if count == childNum then 0 else 1;
      webm.SeekABSWebM(offset);
    }

    /** The packets of the stream the child in the slot has not been sent yet. */
    ghost function Missing(slot: nat, ss: seq<Section>): int
      requires InOrder(ss) && slot < MAX_CHILD_NUM
      reads this, webm, children
    {
      if !Bit(connected, slot) then 0
      else |StreamFrom(webm.firstClusterSeq, ss, starts[slot])| - |wire[slot]|
    }

    /** The child in the slot, if there is one, has been sent everything. */
    ghost predicate Complete(slot: nat, ss: seq<Section>)
      requires InOrder(ss) && slot < MAX_CHILD_NUM
      reads this, webm, children
    {
      Bit(connected, slot) ==>
        && children[slot].prev.clusterSeq >= webm.firstClusterSeq + |ss|
        && wire[slot] == StreamFrom(webm.firstClusterSeq, ss, starts[slot])
    }

    /** No child is due. */
    predicate Settled()
      reads this, webm, children
    {
      |children| == MAX_CHILD_NUM && forall i :: 0 <= i < MAX_CHILD_NUM ==> !Due(View(), connected, children[i].prev, i)
    }

    /** At least the rounds until no child is due. */
    ghost function Backlog(ss: seq<Section>): nat
      requires InOrder(ss)
      reads this, webm, children
    {
      MissingBound(0, ss);
      MissingBound(1, ss);
      if Settled() then 0 else 1 + Missing(0, ss) + Missing(1, ss)
    }

    /** Moving the position or growing the file makes no child more due. */
    twostate lemma SameBacklog(ss: seq<Section>)
      requires old(InOrder(ss)) && InOrder(ss)
      requires unchanged(`connected) && unchanged(`wire) && unchanged(`starts)
      requires unchanged(webm`firstClusterSeq) && unchanged(webm`prevCluster) && unchanged(webm`latest)
      requires children[0].prev == old(children[0].prev) && children[1].prev == old(children[1].prev)
      ensures Backlog(ss) == old(Backlog(ss)) && (Settled() <==> old(Settled()))
    {
      hide Ready, AllGood, ChildOk, Bit, StreamFrom;
    }

    /** No more rounds than twice the packets there are. */
    lemma BacklogBound(ss: seq<Section>)
      requires InOrder(ss)
      ensures Backlog(ss) <= 1 + 2 * |Stream(webm.firstClusterSeq, ss, 0, |ss|)|
    {
      hide Ready, AllGood, Bit, Settled, Stream, MidCluster;
      forall i | 0 <= i < MAX_CHILD_NUM
        ensures Missing(i, ss) <= |Stream(webm.firstClusterSeq, ss, 0, |ss|)|
      {
        if Bit(connected, i) && starts[i] <= webm.firstClusterSeq + |ss| {
          LaterIsShorter(webm.firstClusterSeq, ss, starts[i] - webm.firstClusterSeq, |ss|);
        }
      }
    }

    /** A round of SendMulStream that returns 1 brings at least one child closer to the end. */
    method StreamRound(memory: nat -> seq<u8>, ghost ss: seq<Section>) returns (ret: int)
      requires (forall i :: |memory(i)| >= HEADER_REACH)
      requires InOrder(ss) && (HasChild() ==> forall i :: CleanBeyond(View(), ss, memory(i)))
      modifies webm`fpos, webm`readPos, this`wire, children
      ensures InOrder(ss) && webm.fpos == old(webm.fpos) == webm.readPos && 0 <= ret <= 1
      ensures Missing(0, ss) >= 0 && Missing(1, ss) >= 0
      ensures ret != 0 ==> Missing(0, ss) + Missing(1, ss) < old(Missing(0, ss) + Missing(1, ss))
      ensures ret == 0 ==> Settled()
      ensures Backlog(ss) == 0 || Backlog(ss) < old(Backlog(ss))
      ensures RoundSent(memory) && SentUpTo(webm.prevCluster.number, webm.latest)
    {
      hide Ready, AllGood, ChildOk, CleanFor, CanSend, Send, Pending, Bit, CleanBeyond, StreamFrom;
      forall i | 0 <= i < MAX_CHILD_NUM ensures CleanDue(i, memory(i)) {
        DueIsClean(i, memory(i), ss);
      }
      ret := SendMulStream(memory, ss);
      assert Served(0, View(), memory(0)) && Served(1, View(), memory(1));
      MissingBound(0, ss);
      MissingBound(1, ss);
    }

    lemma DueIsClean(slot: nat, memory: seq<u8>, ss: seq<Section>)
      requires InOrder(ss) && slot < MAX_CHILD_NUM && |memory| >= HEADER_REACH
      requires HasChild() ==> CleanBeyond(View(), ss, memory)
      ensures CleanDue(slot, memory)
    {
      hide AllGood, ChildOk, CleanFor, Bit;
      if Due(View(), connected, children[slot].prev, slot) {
        CleanAtCursor(View(), ss, starts[slot], children[slot].prev, wire[slot], memory);
      }
    }

    lemma MissingBound(slot: nat, ss: seq<Section>)
      requires InOrder(ss) && slot < MAX_CHILD_NUM
      ensures Missing(slot, ss) >= 0
    {
      hide Serves, AllGood, ChildOk, StreamFrom, Bit, Counted, GoodSection;
      if Bit(connected, slot) {
        SentIsPrefix(webm.firstClusterSeq, ss, starts[slot], children[slot].prev, wire[slot]);
      }
    }

    /** The loop behind main's, were it entered, ends, and then every child has been sent the
        whole stream from the cluster it joined at to the last one. */
    method Drain(memory: nat -> nat -> seq<u8>, ghost ss: seq<Section>)
      requires InOrder(ss) && AllClosed(View(), ss)
      requires forall t, i :: CleanBeyond(View(), ss, memory(t)(i)) && |memory(t)(i)| >= HEADER_REACH
      modifies webm`fpos, webm`readPos, this`wire, children
      ensures InOrder(ss) && webm.fpos == old(webm.fpos)
      ensures forall i :: 0 <= i < MAX_CHILD_NUM ==> Complete(i, ss)
    {
      hide Ready, AllGood, ChildOk, AllClosed, CleanBeyond, Missing, Complete, Bit, Settled;
      var isStreaming := 1;
      var round := 0;
      MissingBound(0, ss);
      MissingBound(1, ss);
      while isStreaming != 0
        invariant InOrder(ss) && webm.fpos == old(webm.fpos) && 0 <= isStreaming <= 1
        invariant Missing(0, ss) >= 0 && Missing(1, ss) >= 0
        invariant isStreaming == 0 ==> Settled()
        decreases isStreaming, Missing(0, ss) + Missing(1, ss)
      {
        isStreaming := StreamRound(memory(round), ss);
        round := round + 1;
      }
      forall i | 0 <= i < MAX_CHILD_NUM ensures Complete(i, ss) {
        NotDueIsComplete(i, ss);
      }
    }

    lemma NotDueIsComplete(slot: nat, ss: seq<Section>)
      requires InOrder(ss) && AllClosed(View(), ss) && Settled() && slot < MAX_CHILD_NUM
      ensures Complete(slot, ss)
    {
      hide AllGood, ChildOk, StreamFrom, Bit, Serves, ClusterStart, AllClosed, Pending;
      if Bit(connected, slot) {
        assert !Due(View(), connected, children[slot].prev, slot);
        IdleIsAtEnd(View(), ss, starts[slot], children[slot].prev, wire[slot]);
      }
    }

    /** Where NodeSetup puts a new child: in front of the last closed cluster. */
    method Admit(ghost ss: seq<Section>) returns (slot: int)
      requires InOrder(ss) && Ready(View(), ss) && webm.firstClusterSeq <= webm.prevCluster.number
      modifies this`wire, this`connected, this`childNum, this`starts, children
      ensures InOrder(ss) && Took(slot, webm.prevCluster.number)
    {
      hide Serves, AllGood, ChildOk, Bit;
      FreeSlotFound(connected, childNum);
      slot := FreeSlot(connected, childNum);
      if slot != -1 {
        var block := children[slot];
        block.info := block.info.(clusterSeq := U16(webm.prevCluster.number));
        block.RenewBlock();
        block.prev := block.prev.(clusterSeq := U16(block.prev.clusterSeq - 1));
        TakeSlot(slot, webm.prevCluster.number, ss);
      }
    }

    /** Where NodeConnect puts a child that has had clusters up to clusterSeq from another
        parent: in front of the next one, whether it is there yet or not. */
    method Readmit(clusterSeq: u16, ghost ss: seq<Section>) returns (slot: int)
      requires InOrder(ss) && Ready(View(), ss) && webm.firstClusterSeq <= U16(clusterSeq + 1)
      modifies this`wire, this`connected, this`childNum, this`starts, children
      ensures InOrder(ss) && Took(slot, U16(clusterSeq + 1))
    {
      hide Serves, AllGood, ChildOk, Bit;
      FreeSlotFound(connected, childNum);
      slot := FreeSlot(connected, childNum);
      if slot != -1 {
        var block := children[slot];
        block.info := block.info.(clusterSeq := clusterSeq);
        block.RenewBlock();
        TakeSlot(slot, U16(clusterSeq + 1), ss);
      }
    }

    /** A child has joined in front of cluster start if there was a free slot. */
    twostate predicate Took(slot: int, start: int)
      reads this, webm, children
    {
      && 0 <= start < 0x1_0000 && -1 <= slot < MAX_CHILD_NUM == |children|
      && |wire| == |starts| == |old(wire)| == MAX_CHILD_NUM
      && slot == old(FreeSlot(connected, childNum)) && Joined(slot, start)
    }

    /** The slot that was free is now a child's whose cursor is in front of cluster start. */
    twostate predicate Joined(slot: int, start: nat)
      requires -1 <= slot < MAX_CHILD_NUM == |children| && |wire| == |starts| == |old(wire)| == MAX_CHILD_NUM
      requires start < 0x1_0000
      reads this, webm, children
    {
      if slot == -1 then unchanged(this) && forall i :: 0 <= i < MAX_CHILD_NUM ==> unchanged(children[i])
      else
        && !old(Bit(connected, slot)) && Bit(connected, slot)
        && children[slot].prev == ClusterStart(start) && wire[slot] == [] && starts[slot] == start
        && forall i :: 0 <= i < MAX_CHILD_NUM && i != slot ==>
             && Bit(connected, i) == old(Bit(connected, i))
             && wire[i] == old(wire[i]) && unchanged(children[i])
    }

    /** The first free slot, if there was one, is now a child's, and no other slot has changed
        hands. */
    twostate predicate Came()
      reads this
    {
      forall i :: 0 <= i < MAX_CHILD_NUM ==>
        (Bit(connected, i) <==> i == old(FreeSlot(connected, childNum)) || old(Bit(connected, i)))
    }

    /** Moreover that child's cursor is in front of cluster start. */
    twostate predicate NewChild(start: int)
      reads this, children
    {
      var slot := old(FreeSlot(connected, childNum));
      && |children| == |wire| == |starts| == MAX_CHILD_NUM && Came()
      && (slot != -1 ==>
            && 0 <= start < 0x1_0000
            && children[slot].prev == ClusterStart(start) && wire[slot] == [] && starts[slot] == start)
    }

    /** The slot is no child's, and no other slot has changed hands. */
    twostate predicate Gone(slot: nat)
      reads this
    {
      forall i :: 0 <= i < MAX_CHILD_NUM ==> (Bit(connected, i) <==> i != slot && old(Bit(connected, i)))
    }

    /** Those that were children have been sent nothing. */
    twostate predicate NothingSent()
      reads this, children
    {
      && |wire| == |old(wire)| == |children| == MAX_CHILD_NUM
      && forall i :: 0 <= i < MAX_CHILD_NUM && old(Bit(connected, i)) ==>
           wire[i] == old(wire[i]) && unchanged(children[i])
    }

    method TakeSlot(slot: nat, ghost start: u16, ghost ss: seq<Section>)
      requires slot < MAX_CHILD_NUM == |children| && !Bit(connected, slot)
      requires children[slot].info == NO_BLOCK && children[slot].prev == ClusterStart(start)
      requires webm.firstClusterSeq <= start && InOrder(ss) && Ready(View(), ss)
      modifies this`wire, this`connected, this`childNum, this`starts
      ensures InOrder(ss)
      ensures Bit(connected, slot) && wire == old(wire)[slot := []] && starts == old(starts)[slot := start]
      ensures forall i :: 0 <= i < MAX_CHILD_NUM && i != slot ==> Bit(connected, i) == old(Bit(connected, i))
    {
      hide Ready, AllGood, ChildOk, Bit;
      Join(webm.firstClusterSeq, ss, start);
      CountFilled(connected, childNum, slot);
      connected := Plus(connected, slot);
      childNum := childNum + 1;
      wire := wire[slot := []];
      starts := starts[slot := start];
    }

    /** A child that has left or timed out. */
    method Release(slot: nat, ghost ss: seq<Section>)
      requires InOrder(ss) && slot < MAX_CHILD_NUM
      modifies this`connected, this`childNum
      ensures InOrder(ss)
      ensures !Bit(connected, slot)
      ensures forall i :: 0 <= i < MAX_CHILD_NUM && i != slot ==> Bit(connected, i) == old(Bit(connected, i))
    {
      hide Serves, AllGood, ChildOk, Bit;
      if Bit(connected, slot) {
        CountEmptied(connected, childNum, slot);
        connected := Minus(connected, slot);
        childNum := childNum - 1;
      }
    }
  }

  /** All children are idle exactly when none is due. */
  lemma IdleAll(src: Source, connected: u8, prevs: seq<BlockInfo>)
    requires |prevs| == MAX_CHILD_NUM
    ensures Idle(src, connected, prevs, MAX_CHILD_NUM) == Taken(connected, MAX_CHILD_NUM)
            <==> forall i :: 0 <= i < MAX_CHILD_NUM ==> !Due(src, connected, prevs[i], i)
  {
    hide Pending, Bit;
    TakenTwo(connected);
    assert Idle(src, connected, prevs, 1) == Idle(src, connected, prevs, 0)
           + if Bit(connected, 0) && !Pending(src, prevs[0]) then 1 else 0;
  }

  /** Every cluster has been closed and its blocks counted. */
  ghost predicate AllClosed(src: Source, ss: seq<Section>)
    requires src.firstClusterSeq + |ss| < 0x1_0000 && AllGood(ss)
  {
    && |ss| > 0 && src.closedSeq == src.firstClusterSeq + |ss| - 1
    && |Packets(src.closedSeq, ss[|ss| - 1].es)| <= src.latest
  }

  /** A child that is not due then has been sent everything. */
  lemma IdleIsAtEnd(src: Source, ss: seq<Section>, start: nat, prev: BlockInfo, sent: seq<seq<u8>>)
    requires src.firstClusterSeq + |ss| < 0x1_0000 && AllGood(ss) && AllClosed(src, ss)
    requires ChildOk(src.firstClusterSeq, ss, start, prev, sent) && !Pending(src, prev)
    ensures src.firstClusterSeq <= start && prev.clusterSeq >= src.firstClusterSeq + |ss|
    ensures sent == StreamFrom(src.firstClusterSeq, ss, start)
  {
    hide AllGood, ChildOk, StreamFrom, MidCluster, Packets, ClusterStart;
    var unit, es := ChildStands(src.firstClusterSeq, ss, start, prev, sent);
    if prev.clusterSeq < src.firstClusterSeq + |ss| {
      NumberInCluster(src.firstClusterSeq, ss, start, prev, sent, unit, es);
    }
  }

  /** A cursor inside a cluster has at least one block of it ahead. */
  lemma NumberInCluster(first: nat, ss: seq<Section>, start: nat, prev: BlockInfo, sent: seq<seq<u8>>,
                        unit: seq<u8>, es: seq<seq<u8>>)
    requires first + |ss| < 0x1_0000 && AllGood(ss) && MidCluster(first, ss, start, prev, sent, unit, es)
    ensures first <= prev.clusterSeq < first + |ss|
    ensures prev.number < |Packets(prev.clusterSeq, ss[prev.clusterSeq - first].es)|
  {
    hide AllGood, Stream, Packets, Flat, At, Rest;
    CursorIsAt(first, ss, prev, prev.clusterSeq - first, unit, es);
    RestStep(prev, unit, es);
  }
}
