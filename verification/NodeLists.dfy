/** The nodes a peer knows (NODES_LIST), the ones that have refused it (EXCEPT_LIST), and the
    search for a new parent among them.
  */
module NodeLists {
  import opened Words
  import opened Membership
  import opened StatusMessages

  function Ids(nodes: seq<NodeStatus>): (ids: seq<u16>)
    ensures |ids| == |nodes|
  {
    seq(|nodes|, i requires 0 <= i < |nodes| => nodes[i].id)
  }

  /** IsListContains. */
  predicate Contains(nodes: seq<NodeStatus>, id: u16) {
    exists i :: 0 <= i < |nodes| && nodes[i].id == id
  }

  /** ListUpdate: every entry with the id becomes the new status. */
  function Updated(nodes: seq<NodeStatus>, status: NodeStatus): (r: seq<NodeStatus>)
    ensures |r| == |nodes|
  {
    seq(|nodes|, i requires 0 <= i < |nodes| => if nodes[i].id == status.id then status else nodes[i])
  }

  /** The entries of an Initial Status or Advertise message are new nodes or ignored; those of
      a Responce List message are new or updates. */
  function Heard(nodes: seq<NodeStatus>, entries: seq<NodeStatus>, updating: bool): seq<NodeStatus>
    decreases |entries|
  {
    if entries == [] then nodes
    else
      var e := entries[0];
      var known := if !Contains(nodes, e.id) then nodes + [e] else if updating then Updated(nodes, e) else nodes;
      Heard(known, entries[1..], updating)
  }

  /** No node is listed twice, and the first is the origin. */
  predicate Rooted(nodes: seq<NodeStatus>) {
    && |nodes| > 0 && nodes[0].id == ORIGIN_ID
    && forall i, j :: 0 <= i < j < |nodes| ==> nodes[i].id != nodes[j].id
  }

  /** A message keeps that, and the IDs already listed keep their places. */
  lemma {:induction false} HeardRooted(nodes: seq<NodeStatus>, entries: seq<NodeStatus>, updating: bool)
    requires Rooted(nodes)
    ensures Rooted(Heard(nodes, entries, updating))
    ensures Ids(nodes) <= Ids(Heard(nodes, entries, updating))
    decreases |entries|
  {
    if entries != [] {
      var e := entries[0];
      if !Contains(nodes, e.id) {
        HeardRooted(nodes + [e], entries[1..], updating);
      } else if updating {
        UpdatedIds(nodes, e);
        HeardRooted(Updated(nodes, e), entries[1..], updating);
      } else {
        HeardRooted(nodes, entries[1..], updating);
      }
    }
  }

  lemma UpdatedIds(nodes: seq<NodeStatus>, status: NodeStatus)
    ensures Ids(Updated(nodes, status)) == Ids(nodes)
    ensures Rooted(nodes) ==> Rooted(Updated(nodes, status))
  {
  }

  /** Messages in any order, each with its entries and whether it updates. */
  function HeardAll(nodes: seq<NodeStatus>, messages: seq<(seq<NodeStatus>, bool)>): seq<NodeStatus>
    decreases |messages|
  {
    if messages == [] then nodes
    else HeardAll(Heard(nodes, messages[0].0, messages[0].1), messages[1..])
  }

  lemma {:induction false} EveryListRooted(nodes: seq<NodeStatus>, messages: seq<(seq<NodeStatus>, bool)>)
    requires Rooted(nodes)
    ensures Rooted(HeardAll(nodes, messages)) && Ids(nodes) <= Ids(HeardAll(nodes, messages))
    decreases |messages|
  {
    hide Rooted;
    if messages != [] {
      HeardRooted(nodes, messages[0].0, messages[0].1);
      EveryListRooted(Heard(nodes, messages[0].0, messages[0].1), messages[1..]);
    }
  }

  /** What is known of every node heard of: it is listed from then on. */
  lemma {:induction false} HeardContains(nodes: seq<NodeStatus>, entries: seq<NodeStatus>, updating: bool, id: u16)
    ensures Contains(Heard(nodes, entries, updating), id) <==> Contains(nodes, id) || Contains(entries, id)
    decreases |entries|
  {
    if entries != [] {
      var e := entries[0];
      var known := if !Contains(nodes, e.id) then nodes + [e] else if updating then Updated(nodes, e) else nodes;
      HeardContains(known, entries[1..], updating, id);
      ContainsFirst(entries, id);
      if !Contains(nodes, e.id) {
        ContainsLast(nodes, e, id);
      } else if updating {
        ContainsUpdated(nodes, e, id);
      }
    }
  }

  /** Initial Status and Advertise messages never change what is known of a node... */
  lemma {:induction false} HeardKeeps(nodes: seq<NodeStatus>, entries: seq<NodeStatus>)
    ensures nodes <= Heard(nodes, entries, false)
    decreases |entries|
  {
    if entries != [] {
      var e := entries[0];
      HeardKeeps(if Contains(nodes, e.id) then nodes else nodes + [e], entries[1..]);
    }
  }

  /** ...and a node not listed before is known by the first entry they give of it; */
  lemma {:induction false} HeardFirst(nodes: seq<NodeStatus>, entries: seq<NodeStatus>, k: nat)
    requires k < |entries| && !Contains(nodes, entries[k].id)
    requires forall j :: 0 <= j < k ==> entries[j].id != entries[k].id
    ensures var known := Heard(nodes, entries, false);
            && entries[k] in known
            && forall i :: 0 <= i < |known| && known[i].id == entries[k].id ==> known[i] == entries[k]
    decreases |entries|
  {
    var e := entries[0];
    var known := if !Contains(nodes, e.id) then nodes + [e] else nodes;
    if k > 0 {
      ContainsLast(nodes, e, entries[k].id);
      HeardFirst(known, entries[1..], k - 1);
    } else {
      ContainsLast(nodes, e, e.id);
      assert known[|nodes|] == e;
      assert forall i :: 0 <= i < |nodes| ==> nodes[i].id != e.id;
      KnownStays(known, entries[1..], e);
    }
  }

  lemma {:induction false} KnownStays(nodes: seq<NodeStatus>, entries: seq<NodeStatus>, e: NodeStatus)
    requires e in nodes && forall i :: 0 <= i < |nodes| && nodes[i].id == e.id ==> nodes[i] == e
    ensures e in Heard(nodes, entries, false)
    ensures forall i :: 0 <= i < |Heard(nodes, entries, false)| && Heard(nodes, entries, false)[i].id == e.id ==>
              Heard(nodes, entries, false)[i] == e
    decreases |entries|
  {
    if entries != [] {
      var f := entries[0];
      if !Contains(nodes, f.id) {
        var i :| 0 <= i < |nodes| && nodes[i] == e;
        assert f.id != e.id;
        KnownStays(nodes + [f], entries[1..], e);
      } else {
        KnownStays(nodes, entries[1..], e);
      }
    }
  }

  /** ...and after a Responce List message the last status it gave of a node is what is known
      of that node, and all that is. */
  lemma {:induction false} HeardUpdates(nodes: seq<NodeStatus>, entries: seq<NodeStatus>, k: nat)
    requires k < |entries| && forall j :: k < j < |entries| ==> entries[j].id != entries[k].id
    ensures Contains(Heard(nodes, entries, true), entries[k].id)
    ensures forall i :: 0 <= i < |Heard(nodes, entries, true)| && Heard(nodes, entries, true)[i].id == entries[k].id ==>
              Heard(nodes, entries, true)[i] == entries[k]
    decreases |entries|
  {
    var e := entries[0];
    var known := if !Contains(nodes, e.id) then nodes + [e] else Updated(nodes, e);
    if k > 0 {
      HeardUpdates(known, entries[1..], k - 1);
    } else {
      ContainsLast(nodes, e, e.id);
      ContainsUpdated(nodes, e, e.id);
      HeardContains(known, entries[1..], true, e.id);
      UntouchedKnown(known, entries[1..], e);
    }
  }

  lemma {:induction false} UntouchedKnown(nodes: seq<NodeStatus>, entries: seq<NodeStatus>, e: NodeStatus)
    requires forall i :: 0 <= i < |nodes| && nodes[i].id == e.id ==> nodes[i] == e
    requires forall j :: 0 <= j < |entries| ==> entries[j].id != e.id
    ensures forall i :: 0 <= i < |Heard(nodes, entries, true)| && Heard(nodes, entries, true)[i].id == e.id ==>
              Heard(nodes, entries, true)[i] == e
    decreases |entries|
  {
    if entries != [] {
      var f := entries[0];
      UntouchedKnown(if !Contains(nodes, f.id) then nodes + [f] else Updated(nodes, f), entries[1..], e);
    }
  }

  lemma ContainsFirst(entries: seq<NodeStatus>, id: u16)
    requires entries != []
    ensures Contains(entries, id) <==> entries[0].id == id || Contains(entries[1..], id)
  {
    if i :| 0 < i < |entries| && entries[i].id == id {
      assert entries[1..][i - 1].id == id;
    }
    if i :| 0 <= i < |entries[1..]| && entries[1..][i].id == id {
      assert entries[i + 1].id == id;
    }
  }

  lemma ContainsLast(nodes: seq<NodeStatus>, e: NodeStatus, id: u16)
    ensures Contains(nodes + [e], id) <==> Contains(nodes, id) || e.id == id
  {
    assert (nodes + [e])[|nodes|] == e;
    if i :| 0 <= i < |nodes| && nodes[i].id == id {
      assert (nodes + [e])[i].id == id;
    }
  }

  lemma ContainsUpdated(nodes: seq<NodeStatus>, e: NodeStatus, id: u16)
    ensures Contains(Updated(nodes, e), id) <==> Contains(nodes, id)
  {
    if i :| 0 <= i < |nodes| && nodes[i].id == id {
      assert Updated(nodes, e)[i].id == id;
    }
  }

  /** GetList never moves on from the head of the list: whether it is done after so many turns
      of its loop. */
  predicate Done(nodes: seq<NodeStatus>, id: u16, turns: nat) {
    nodes == [] || nodes[0].id == id || (turns > 0 && Done(nodes, id, turns - 1))
  }

  /** So it ends exactly on an empty list or when the head has the ID. */
  lemma {:induction false} EndsAtHead(nodes: seq<NodeStatus>, id: u16, turns: nat)
    ensures Done(nodes, id, turns) <==> nodes == [] || nodes[0].id == id
  {
    if turns > 0 {
      EndsAtHead(nodes, id, turns - 1);
    }
  }

  /** Over every sequence of messages the search for the origin ends, at its entry. */
  lemma OriginIsFound(nodes: seq<NodeStatus>, messages: seq<(seq<NodeStatus>, bool)>, turns: nat)
    requires Rooted(nodes)
    ensures Done(HeardAll(nodes, messages), ORIGIN_ID, turns)
  {
    EveryListRooted(nodes, messages);
  }

  /** GetCloestLayer: the layer of the last entry, whatever the name says. */
  function ClosestLayer(nodes: seq<NodeStatus>, layer: u8): u8 {
    if nodes == [] then layer else nodes[|nodes| - 1].info.layer
  }

  /** GetPriorList, from index i on: the first entry of that layer that has not been excepted. */
  function Prior(nodes: seq<NodeStatus>, excepted: seq<u16>, layer: u8, i: nat): (p: int)
    requires i <= |nodes|
    ensures p == -1 || (i <= p < |nodes| && nodes[p].info.layer == layer && nodes[p].id !in excepted)
    ensures forall j :: i <= j < (if p == -1 then |nodes| else p) ==>
              nodes[j].info.layer != layer || nodes[j].id in excepted
    decreases |nodes| - i
  {
    if i == |nodes| then -1
    else if nodes[i].id !in excepted && nodes[i].info.layer == layer then i
    else Prior(nodes, excepted, layer, i + 1)
  }

  /** ExceptListPush: the first push also puts the node itself on the list. */
  function Excepting(excepted: seq<u16>, myId: u16, id: u16): seq<u16> {
    if excepted == [] then [myId, id] else excepted + [id]
  }

  /** The next node asked after a refusal, or the origin, which empties the list of those
      that refused. */
  datatype Next = Ask(index: nat, excepted: seq<u16>) | AskOrigin

  /** NodeUnaccept, and NodeRetry with the parent's ID. */
  function Refused(nodes: seq<NodeStatus>, excepted: seq<u16>, me: NodeStatus, id: u16): (r: Next)
    ensures r.Ask? ==> r.index < |nodes|
  {
    var excepted' := Excepting(excepted, me.id, id);
    var p := Prior(nodes, excepted', ClosestLayer(nodes, me.info.layer), 0);
    if p == -1 then AskOrigin else Ask(p, excepted')
  }

  /** After a refusal this entry may be asked: it is in the layer of the last one on the list,
      has not been excepted, is not the refuser, nor the node itself if nobody was excepted. */
  predicate MayAsk(nodes: seq<NodeStatus>, excepted: seq<u16>, me: u16, refuser: u16, i: nat) {
    && i < |nodes| && nodes[i].info.layer == nodes[|nodes| - 1].info.layer
    && nodes[i].id !in excepted && nodes[i].id != refuser && (excepted == [] ==> nodes[i].id != me)
  }

  /** The origin is asked exactly when no entry may be, and otherwise the first that may; the
      refuser is then excepted, and before anyone the node itself. */
  lemma WhoIsAsked(nodes: seq<NodeStatus>, excepted: seq<u16>, me: NodeStatus, refuser: u16)
    ensures var r := Refused(nodes, excepted, me, refuser);
            && (r.AskOrigin? <==> forall i :: 0 <= i < |nodes| ==> !MayAsk(nodes, excepted, me.id, refuser, i))
            && (r.Ask? ==>
                  && MayAsk(nodes, excepted, me.id, refuser, r.index)
                  && (forall i :: 0 <= i < r.index ==> !MayAsk(nodes, excepted, me.id, refuser, i))
                  && r.excepted == (if excepted == [] then [me.id] else excepted) + [refuser])
  {
    var excepted' := Excepting(excepted, me.id, refuser);
    forall i | 0 <= i < |nodes|
      ensures MayAsk(nodes, excepted, me.id, refuser, i)
              <==> nodes[i].info.layer == ClosestLayer(nodes, me.info.layer) && nodes[i].id !in excepted'
    {
      InExcepting(excepted, me.id, refuser, nodes[i].id);
    }
  }

  lemma InExcepting(excepted: seq<u16>, me: u16, refuser: u16, id: u16)
    ensures id in Excepting(excepted, me, refuser)
            <==> id in excepted || id == refuser || (excepted == [] && id == me)
  {
  }

  /** The nodes that may still be asked. */
  function Free(nodes: seq<NodeStatus>, excepted: seq<u16>): set<nat> {
    set i | 0 <= i < |nodes| && nodes[i].id !in excepted
  }

  /** A refusal by a node that could be asked leaves fewer that can be asked, and none that
      has refused, nor the node itself, is asked again. */
  lemma RefusedShrinks(nodes: seq<NodeStatus>, excepted: seq<u16>, me: NodeStatus, index: nat)
    requires index < |nodes| && nodes[index].id !in excepted
    ensures var r := Refused(nodes, excepted, me, nodes[index].id);
            r.Ask? ==>
              && Free(nodes, r.excepted) < Free(nodes, excepted) && |Free(nodes, r.excepted)| < |Free(nodes, excepted)|
              && r.index in Free(nodes, r.excepted)
              && nodes[index].id in r.excepted
              && (forall id :: id in excepted ==> id in r.excepted)
              && (excepted == [] ==> me.id in r.excepted)
  {
    var r := Refused(nodes, excepted, me, nodes[index].id);
    if r.Ask? {
      assert index in Free(nodes, excepted) && index !in Free(nodes, r.excepted);
      SmallerSet(Free(nodes, r.excepted), Free(nodes, excepted));
    }
  }

  lemma SmallerSet(a: set<nat>, b: set<nat>)
    requires a < b
    ensures |a| < |b|
  {
    assert b == a + (b - a) && |b| == |a| + |b - a|;
    assert b - a != {};
  }

  /** The nodes asked while every node asked refuses, up to the origin. */
  function Chain(nodes: seq<NodeStatus>, excepted: seq<u16>, me: NodeStatus, index: nat): (asked: seq<nat>)
    requires index < |nodes| && nodes[index].id !in excepted
    decreases |Free(nodes, excepted)|
  {
    var r := Refused(nodes, excepted, me, nodes[index].id);
    if r.AskOrigin? then [index]
    else
      RefusedShrinks(nodes, excepted, me, index);
      [index] + Chain(nodes, r.excepted, me, r.index)
  }

  /** After at most as many refusals in a row as there are nodes to ask, none from a node
      twice, the origin is asked and the slate is clean. */
  lemma {:induction false} ChainIsShort(nodes: seq<NodeStatus>, excepted: seq<u16>, me: NodeStatus, index: nat)
    requires index < |nodes| && nodes[index].id !in excepted
    ensures |Chain(nodes, excepted, me, index)| <= |Free(nodes, excepted)| <= |nodes|
    ensures forall k :: 0 <= k < |Chain(nodes, excepted, me, index)| ==>
              Chain(nodes, excepted, me, index)[k] in Free(nodes, excepted)
    ensures var c := Chain(nodes, excepted, me, index);
            forall j, k :: 0 <= j < k < |c| ==> c[j] < |nodes| && c[k] < |nodes| && nodes[c[j]].id != nodes[c[k]].id
    decreases |Free(nodes, excepted)|
  {
    FreeBound(nodes, excepted);
    assert index in Free(nodes, excepted);
    var r := Refused(nodes, excepted, me, nodes[index].id);
    if r.AskOrigin? {
      SmallerSet({}, Free(nodes, excepted));
    } else {
      RefusedShrinks(nodes, excepted, me, index);
      ChainIsShort(nodes, r.excepted, me, r.index);
    }
  }

  /** Who is asked when everyone refuses: behind the first one all entries that may be, each
      once and in the order of the list, and then the origin. */
  lemma {:induction false} ChainAsksAll(nodes: seq<NodeStatus>, excepted: seq<u16>, me: NodeStatus, index: nat)
    requires index < |nodes| && nodes[index].id !in excepted
    requires forall i, j :: 0 <= i < j < |nodes| ==> nodes[i].id != nodes[j].id
    ensures var c := Chain(nodes, excepted, me, index);
            && |c| > 0 && c[0] == index
            && Ascends(c[1..])
            && forall i :: i in c[1..] <==> MayAsk(nodes, excepted, me.id, nodes[index].id, i)
    decreases |Free(nodes, excepted)|
  {
    hide Refused;
    var r := Refused(nodes, excepted, me, nodes[index].id);
    WhoIsAsked(nodes, excepted, me, nodes[index].id);
    var c := Chain(nodes, excepted, me, index);
    if r.Ask? {
      RefusedShrinks(nodes, excepted, me, index);
      ChainAsksAll(nodes, r.excepted, me, r.index);
      var rest := Chain(nodes, r.excepted, me, r.index);
      assert c == [index] + rest && c[1..] == rest == [rest[0]] + rest[1..];
      forall i: nat
        ensures MayAsk(nodes, excepted, me.id, nodes[index].id, i)
                <==> i == r.index || MayAsk(nodes, r.excepted, me.id, nodes[r.index].id, i)
        ensures MayAsk(nodes, r.excepted, me.id, nodes[r.index].id, i) ==> r.index < i
      {
        StillMayAsk(nodes, excepted, me, index, r.index, r.excepted, i);
      }
      hide MayAsk;
      AscendsCons(rest[0], rest[1..]);
    } else {
      assert c[1..] == [];
    }
  }

  predicate Ascends(s: seq<nat>) {
    forall j, k :: 0 <= j < k < |s| ==> s[j] < s[k]
  }

  lemma AscendsCons(x: nat, s: seq<nat>)
    requires Ascends(s) && forall y :: y in s ==> x < y
    ensures Ascends([x] + s)
  {
    var t := [x] + s;
    forall j, k | 0 <= j < k < |t| ensures t[j] < t[k] {
      assert t[k] == s[k - 1] && s[k - 1] in s;
    }
  }

  lemma StillMayAsk(nodes: seq<NodeStatus>, excepted: seq<u16>, me: NodeStatus, index: nat, asked: nat,
                    excepted': seq<u16>, i: nat)
    requires index < |nodes| && asked < |nodes| && MayAsk(nodes, excepted, me.id, nodes[index].id, asked)
    requires forall i, j :: 0 <= i < j < |nodes| ==> nodes[i].id != nodes[j].id
    requires excepted' == (if excepted == [] then [me.id] else excepted) + [nodes[index].id]
    requires forall k :: 0 <= k < asked ==> !MayAsk(nodes, excepted, me.id, nodes[index].id, k)
    ensures MayAsk(nodes, excepted, me.id, nodes[index].id, i)
            <==> i == asked || MayAsk(nodes, excepted', me.id, nodes[asked].id, i)
    ensures MayAsk(nodes, excepted', me.id, nodes[asked].id, i) ==> asked < i
  {
    assert MayAsk(nodes, excepted', me.id, nodes[asked].id, i) ==> i != asked;
  }

  lemma {:induction false} FreeBound(nodes: seq<NodeStatus>, excepted: seq<u16>)
    ensures |Free(nodes, excepted)| <= |nodes|
  {
    if nodes != [] {
      var n := |nodes| - 1;
      var fewer := Free(nodes[..n], excepted);
      FreeBound(nodes[..n], excepted);
      assert Free(nodes, excepted) == fewer + if n in Free(nodes, excepted) then {n} else {};
    }
  }

  /** The globals behind this: NODES_LIST and EXCEPT_LIST, and NODES_STATUS[MY_ID]. */
  class NodeTable {
    var nodes: seq<NodeStatus>
    var excepted: seq<u16>
    var me: NodeStatus

    /** A peer knows the origin from the start. */
    constructor (origin: NodeStatus, me: NodeStatus)
      ensures nodes == [origin] && excepted == [] && this.me == me
      ensures origin.id == ORIGIN_ID ==> Rooted(nodes)
    {
      nodes, excepted, this.me := [origin], [], me;
    }

    method IsListContains(id: u16) returns (ret: bool)
      ensures ret == Contains(nodes, id)
    {
      ret := false;
      var current := 0;
      while current < |nodes|
        invariant 0 <= current <= |nodes| && forall i :: 0 <= i < current ==> nodes[i].id != id
      {
        if nodes[current].id == id {
          return true;
        }
        current := current + 1;
      }
    }

    method ListPush(status: NodeStatus)
      modifies this`nodes
      ensures nodes == old(nodes) + [status]
    {
      nodes := nodes + [status];
    }

    method ListUpdate(status: NodeStatus)
      modifies this`nodes
      ensures nodes == Updated(old(nodes), status)
    {
      var current := 0;
      while current < |nodes|
        invariant 0 <= current <= |nodes| == |old(nodes)|
        invariant forall i :: 0 <= i < current ==> nodes[i] == Updated(old(nodes), status)[i]
        invariant forall i :: current <= i < |nodes| ==> nodes[i] == old(nodes)[i]
      {
        if status.id == nodes[current].id {
          nodes := nodes[current := status];
        }
        current := current + 1;
      }
    }

    /** The list loop of NodeInitialStatus and NodeAdvertise. */
    method LearnNodes(entries: seq<NodeStatus>)
      modifies this`nodes
      ensures nodes == Heard(old(nodes), entries, false)
    {
      var i := 0;
      while i < |entries|
        invariant 0 <= i <= |entries| && Heard(nodes, entries[i..], false) == Heard(old(nodes), entries, false)
      {
        var known := IsListContains(entries[i].id);
        if !known {
          ListPush(entries[i]);
        }
        i := i + 1;
      }
    }

    /** NodeResList. */
    method NodeResList(entries: seq<NodeStatus>)
      modifies this`nodes
      ensures nodes == Heard(old(nodes), entries, true)
    {
      var i := 0;
      while i < |entries|
        invariant 0 <= i <= |entries| && Heard(nodes, entries[i..], true) == Heard(old(nodes), entries, true)
      {
        var known := IsListContains(entries[i].id);
        if known {
          ListUpdate(entries[i]);
        } else {
          ListPush(entries[i]);
        }
        i := i + 1;
      }
    }

    method GetCloestLayer() returns (closest: u8)
      ensures closest == ClosestLayer(nodes, me.info.layer)
      ensures closest == (if |nodes| == 0 then me else nodes[|nodes| - 1]).info.layer
    {
      var layer: int := me.info.layer;
      var diffLayers := 0;
      var current := 0;
      while current < |nodes|
        invariant 0 <= current <= |nodes|
        invariant diffLayers == if current == 0 then 0 else nodes[current - 1].info.layer - layer
      {
        diffLayers := nodes[current].info.layer - layer;
        current := current + 1;
      }
      closest := U8(layer + diffLayers);
    }

    method IsExceptListContains(id: u16) returns (ret: bool)
      ensures ret == (id in excepted)
    {
      var current := 0;
      while current < |excepted|
        invariant 0 <= current <= |excepted| && id !in excepted[..current]
      {
        if excepted[current] == id {
          return true;
        }
        current := current + 1;
      }
      return false;
    }

    method GetPriorList() returns (prior: int)
      ensures prior == Prior(nodes, excepted, ClosestLayer(nodes, me.info.layer), 0)
    {
      var layer := GetCloestLayer();
      prior := 0;
      while prior < |nodes|
        invariant 0 <= prior <= |nodes| && Prior(nodes, excepted, layer, prior) == Prior(nodes, excepted, layer, 0)
      {
        var isExcepted := IsExceptListContains(nodes[prior].id);
        if isExcepted {
          prior := prior + 1;
          continue;
        }
        if nodes[prior].info.layer == layer {
          return;
        }
        prior := prior + 1;
      }
      prior := -1;
    }

    method ExceptListPush(id: u16)
      modifies this`excepted
      ensures excepted == Excepting(old(excepted), me.id, id)
    {
      if excepted == [] {
        excepted := [me.id];
      }
      excepted := excepted + [id];
    }

    /** GetList, given up after so many turns of its loop, which looks at the head only. */
    method GetList(id: u16, turns: nat) returns (done: bool, found: int)
      ensures done == Done(nodes, id, turns)
      ensures done ==> found == if nodes == [] then -1 else 0
    {
      EndsAtHead(nodes, id, turns);
      var turn := 0;
      while turn <= turns
        invariant turn > 0 ==> nodes != [] && nodes[0].id != id
      {
        if nodes == [] {
          return true, -1;
        }
        if nodes[0].id == id {
          return true, 0;
        }
        turn := turn + 1;
      }
      return false, 0;
    }

    /** NodeUnaccept, and NodeRetry with the parent's ID: who is asked to take this node next. */
    method NodeUnaccept(exceptId: u16) returns (asked: nat)
      requires Rooted(nodes)
      modifies this`excepted
      ensures match Refused(nodes, old(excepted), me, exceptId)
              case Ask(index, excepted') => asked == index && excepted == excepted'
              case AskOrigin => asked < |nodes| && nodes[asked].id == ORIGIN_ID && excepted == []
    {
      ExceptListPush(exceptId);
      var prior := GetPriorList();
      if prior == -1 {
        var done;
        done, prior := GetList(ORIGIN_ID, 0);
        excepted := [];
      }
      asked := prior;
    }

    method NodeAccept(parent: NodeStatus)
      modifies this`excepted, this`me
      ensures excepted == [] && me == old(me).(info := old(me.info).(layer := U8(parent.info.layer + 1)))
    {
      var layer: int := parent.info.layer;
      me := me.(info := me.info.(layer := U8(layer + 1)));
      excepted := [];
    }
  }
}
