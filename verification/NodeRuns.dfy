/** Every run of a relaying peer: packets received from whatever parent, children joining,
    leaving and being sent to, in any order.
  */
module NodeRuns {
  import opened Words
  import opened Ebml
  import opened Blocks
  import opened Segmentation
  import opened Clusters
  import opened Timecodes
  import opened Disk
  import opened Serving
  import opened Cursors
  import opened Streams
  import opened Clips
  import opened Peers
  import opened Assembly
  import opened Reception
  import opened RoundTrip
  import opened Relay
  import opened StatusMessages
  import opened Adoption
  import opened Repeats

  /** A child: the cluster it joined at, its cursor, and the packets it has been sent. */
  datatype Child = Child(start: u16, prev: BlockInfo, sent: seq<seq<u8>>)

  /** A peer and its children, with the place in the stream it has received up to: j blocks
      of cluster n. */
  datatype Node = Node(s: State, n: nat, j: nat, children: map<nat, Child>)

  /** What can happen next: the next packet arrives, from a parent whose own time base is
      offset and which has told it in a message; block k of a cluster m that the peer has closed
      arrives again; a child joins to be sent clusters from start on, or leaves; a child is sent
      a packet. */
  datatype Event =
    | Receive(offset: u64)
    | Repeat(m: nat, k: nat, offset: u64)
    | Join(slot: nat, start: u16)
    | Leave(slot: nat)
    | SendTo(slot: nat, beyond: seq<u8>)

  /** The next packet of the stream after j blocks of cluster n: its cluster and place. */
  ghost function NextPlace(clip: seq<seq<seq<u8>>>, n: nat, j: nat): (nat, nat)
    requires IsClip(clip) && n < |clip|
  {
    if j < |BlocksOf(clip, n)| then (n, j) else (n + 1, 0)
  }

  ghost predicate CanHappen(e: Event, node: Node, clip: seq<seq<seq<u8>>>, first: nat)
    requires IsClip(clip) && node.n < |clip|
  {
    match e
    case Receive(offset) =>
      var (n, j) := NextPlace(clip, node.n, node.j);
      n < |clip| && GoodPayload(clip[n]) && offset <= Time(clip, n) && offset < TWO_32 && BaseKept(clip, n, j, offset)
    case Repeat(m, k, offset) =>
      && m < |clip| && k < |BlocksOf(clip, m)| && offset <= Time(clip, m) && offset < TWO_32
      && Dropped(first, node.n, node.j, m, k)
    case Join(slot, start) => slot !in node.children && first <= start
    case Leave(slot) => true
    case SendTo(slot, beyond) =>
      && slot in node.children && |beyond| >= HEADER_REACH
      && Pending(SourceOf(node.s), node.children[slot].prev)
      && CleanFor(SourceOf(node.s), node.children[slot].prev, beyond)
  }

  ghost function Happened(e: Event, node: Node, clip: seq<seq<seq<u8>>>, first: nat): Node
    requires IsClip(clip) && node.n < |clip| && CanHappen(e, node, clip, first)
  {
    match e
    case Receive(offset) =>
      var (n, j) := NextPlace(clip, node.n, node.j);
      if j < |BlocksOf(clip, n)| then
        node.(s := Received(node.s, offset, PacketOf(clip, n, offset, j)), n := n, j := j + 1)
      else node
    case Repeat(m, k, offset) => node.(s := Received(node.s, offset, PacketOf(clip, m, offset, k)))
    case Join(slot, start) => node.(children := node.children[slot := Child(start, ClusterStart(start), [])])
    case Leave(slot) => node.(children := node.children - {slot})
    case SendTo(slot, beyond) =>
      var c := node.children[slot];
      if CanSend(SourceOf(node.s), c.prev, beyond) then
        var r := Send(SourceOf(node.s), c.prev, beyond);
        node.(children := node.children[slot := c.(prev := r.prev, sent := c.sent + [r.packet])])
      else node
  }

  /** The peer has received exactly the stream up to its place, with at least one cluster
      closed, and every child's cursor is in order on the closed clusters. */
  ghost predicate InOrder(node: Node, header: seq<u8>, clip: seq<seq<seq<u8>>>, first: nat)
    requires IsClip(clip)
  {
    && first < node.n && Receiving(node.s, header, clip, first, node.n, node.j)
    && forall slot :: slot in node.children ==> ChildInOrder(node.children[slot], clip, first, node.n)
  }

  ghost predicate ChildInOrder(c: Child, clip: seq<seq<seq<u8>>>, first: nat, n: nat)
    requires IsClip(clip) && first <= n < |clip|
  {
    RelayedOnFile(clip, first, n);
    ClipLength(clip);
    ChildOk(first, Relayed(clip, first, n), c.start, c.prev, c.sent)
  }

  lemma Parts(node: Node, header: seq<u8>, clip: seq<seq<seq<u8>>>, first: nat)
    requires IsClip(clip) && InOrder(node, header, clip, first)
    ensures first < node.n < |clip| < 0x1_0000 && 1 <= node.j <= |BlocksOf(clip, node.n)|
    ensures Receiving(node.s, header, clip, first, node.n, node.j)
    ensures forall slot :: slot in node.children ==> ChildInOrder(node.children[slot], clip, first, node.n)
    ensures SourceOf(node.s).firstClusterSeq == first && node.s.fpos == |node.s.file|
  {
    hide ChildInOrder, BlocksOf, ShapeAt, Layout, GoodPayload, Time;
  }

  /** The next packet, from any parent whose time base is not past the packet's time and, told
      in a message, does it no harm. */
  lemma ReceiveKeeps(node: Node, header: seq<u8>, clip: seq<seq<seq<u8>>>, first: nat, offset: u64)
    requires IsClip(clip) && InOrder(node, header, clip, first) && |header| < 0x1_0000
    requires node.n < |clip| && CanHappen(Receive(offset), node, clip, first)
    ensures InOrder(Happened(Receive(offset), node, clip, first), header, clip, first)
  {
    hide IsClip, Receiving, BlocksOf, GoodPayload, Time, Received, PacketOf, ChildInOrder, InOrder, BaseKept;
    Parts(node, header, clip, first);
    var (n, j) := NextPlace(clip, node.n, node.j);
    if j > 0 {
      PacketReceived(node.s, offset, header, clip, first, n, j);
    } else {
      ClusterReceived(node.s, offset, header, clip, first, node.n);
      forall slot | slot in node.children ensures ChildInOrder(node.children[slot], clip, first, n) {
        ChildStays(node.children[slot], clip, first, node.n);
      }
    }
    var node' := node.(s := Received(node.s, offset, PacketOf(clip, n, offset, j)), n := n, j := j + 1);
    InOrderIf(node', header, clip, first);
  }

  lemma InOrderIf(node: Node, header: seq<u8>, clip: seq<seq<seq<u8>>>, first: nat)
    requires IsClip(clip) && first < node.n < |clip| && Receiving(node.s, header, clip, first, node.n, node.j)
    requires forall slot :: slot in node.children ==> ChildInOrder(node.children[slot], clip, first, node.n)
    ensures InOrder(node, header, clip, first)
  {
    hide Receiving, ChildInOrder, IsClip;
  }

  /** A cluster more on file leaves every cursor where it was. */
  lemma ChildStays(c: Child, clip: seq<seq<seq<u8>>>, first: nat, n: nat)
    requires IsClip(clip) && first <= n && n + 1 < |clip| && ChildInOrder(c, clip, first, n)
    ensures ChildInOrder(c, clip, first, n + 1)
  {
    RelayedOnFile(clip, first, n);
    RelayedOnFile(clip, first, n + 1);
    ClipLength(clip);
    hide IsClip, AllGood, ChildOk, OnFile, StoredPayloads;
    Grow(first, Relayed(clip, first, n), Relayed(clip, first, n + 1), c.start, c.prev, c.sent);
  }

  lemma JoinKeeps(node: Node, header: seq<u8>, clip: seq<seq<seq<u8>>>, first: nat, slot: nat, start: u16)
    requires IsClip(clip) && InOrder(node, header, clip, first)
    requires node.n < |clip| && CanHappen(Join(slot, start), node, clip, first)
    ensures InOrder(Happened(Join(slot, start), node, clip, first), header, clip, first)
  {
    hide IsClip, Receiving, ChildInOrder, InOrder, Carries;
    Parts(node, header, clip, first);
    var c := Child(start, ClusterStart(start), []);
    FreshChild(node.s, header, clip, first, node.n, node.j, start);
    InOrderIf(node.(children := node.children[slot := c]), header, clip, first);
  }

  lemma FreshChild(s: State, header: seq<u8>, clip: seq<seq<seq<u8>>>, first: nat, n: nat, j: nat, start: u16)
    requires IsClip(clip) && first < n < |clip| && Receiving(s, header, clip, first, n, j) && first <= start
    requires SourceOf(s).firstClusterSeq == first
    ensures ChildInOrder(Child(start, ClusterStart(start), []), clip, first, n)
  {
    PeerServes(s, header, clip, first, n, j);
    hide IsClip, Receiving, Serves, AllGood, ChildOk, BlocksOf, Carried, Relayed, ClusterStart;
    Streams.Join(first, Relayed(clip, first, n), start);
  }

  lemma SendKeeps(node: Node, header: seq<u8>, clip: seq<seq<seq<u8>>>, first: nat, slot: nat, beyond: seq<u8>)
    requires IsClip(clip) && node.n < |clip| && CanHappen(SendTo(slot, beyond), node, clip, first)
    requires InOrder(node, header, clip, first)
    ensures CanSend(SourceOf(node.s), node.children[slot].prev, beyond)
    ensures InOrder(Happened(SendTo(slot, beyond), node, clip, first), header, clip, first)
  {
    hide IsClip, Receiving, ChildInOrder, InOrder, Carries, Send, CanSend, CleanFor, Pending, SourceOf;
    Parts(node, header, clip, first);
    var c := node.children[slot];
    ChildSent(c, node.s, header, clip, first, node.n, node.j, beyond);
    var r := Send(SourceOf(node.s), c.prev, beyond);
    var c' := c.(prev := r.prev, sent := c.sent + [r.packet]);
    InOrderIf(node.(children := node.children[slot := c']), header, clip, first);
  }

  lemma ChildSent(c: Child, s: State, header: seq<u8>, clip: seq<seq<seq<u8>>>, first: nat, n: nat, j: nat,
                  beyond: seq<u8>)
    requires IsClip(clip) && first < n < |clip| && Receiving(s, header, clip, first, n, j)
    requires SourceOf(s).firstClusterSeq == first && ChildInOrder(c, clip, first, n)
    requires |beyond| >= HEADER_REACH && Pending(SourceOf(s), c.prev) && CleanFor(SourceOf(s), c.prev, beyond)
    ensures CanSend(SourceOf(s), c.prev, beyond)
    ensures var r := Send(SourceOf(s), c.prev, beyond);
            ChildInOrder(c.(prev := r.prev, sent := c.sent + [r.packet]), clip, first, n)
  {
    PeerServes(s, header, clip, first, n, j);
    hide IsClip, Receiving, Serves, AllGood, ChildOk, BlocksOf, Carried, Relayed, Send, CanSend, CleanFor, Pending,
         SourceOf;
    SendKeepsChild(SourceOf(s), Relayed(clip, first, n), c.start, c.prev, c.sent, beyond);
  }

  lemma LeaveKeeps(node: Node, header: seq<u8>, clip: seq<seq<seq<u8>>>, first: nat, slot: nat)
    requires IsClip(clip) && InOrder(node, header, clip, first)
    ensures InOrder(node.(children := node.children - {slot}), header, clip, first)
  {
    hide IsClip, Receiving, ChildInOrder;
  }

  lemma RepeatKeeps(node: Node, header: seq<u8>, clip: seq<seq<seq<u8>>>, first: nat, m: nat, k: nat, offset: u64)
    requires IsClip(clip) && InOrder(node, header, clip, first)
    requires node.n < |clip| && CanHappen(Repeat(m, k, offset), node, clip, first)
    ensures InOrder(Happened(Repeat(m, k, offset), node, clip, first), header, clip, first)
  {
    hide IsClip, Receiving, BlocksOf, GoodPayload, Time, PacketOf, ChildInOrder, InOrder, Assemble, Dropped, IsOld,
         Told, WellFormed, FileOk;
    Parts(node, header, clip, first);
    var s := node.s.(nodeOffset := Told(offset));
    SameReceiving(node.s, Told(offset), header, clip, first, node.n, node.j);
    DroppedExactly(s, header, clip, first, node.n, node.j, m, k, offset);
    InOrderIf(node.(s := s), header, clip, first);
  }

  lemma HappenedKeeps(e: Event, node: Node, header: seq<u8>, clip: seq<seq<seq<u8>>>, first: nat)
    requires IsClip(clip) && InOrder(node, header, clip, first) && |header| < 0x1_0000
    requires node.n < |clip| && CanHappen(e, node, clip, first)
    ensures InOrder(Happened(e, node, clip, first), header, clip, first)
  {
    match e
    case Receive(offset) => ReceiveKeeps(node, header, clip, first, offset);
    case Repeat(m, k, offset) => RepeatKeeps(node, header, clip, first, m, k, offset);
    case Join(slot, start) => JoinKeeps(node, header, clip, first, slot, start);
    case SendTo(slot, beyond) => SendKeeps(node, header, clip, first, slot, beyond);
    case Leave(slot) => LeaveKeeps(node, header, clip, first, slot);
  }

  /** A run of events, skipping those that cannot happen. */
  ghost function RunOf(node: Node, events: seq<Event>, clip: seq<seq<seq<u8>>>, first: nat): Node
    requires IsClip(clip)
    decreases |events|
  {
    if events == [] || node.n >= |clip| then node
    else if CanHappen(events[0], node, clip, first) then
      RunOf(Happened(events[0], node, clip, first), events[1..], clip, first)
    else RunOf(node, events[1..], clip, first)
  }

  /** Such a state is reached: a peer that joins, is told a base below 2^31 and is fed its first
      cluster and the first packet of the next one has it, with no child yet. */
  lemma OpensInOrder(maxBlocks: nat, offset: u64, header: seq<u8>, clip: seq<seq<seq<u8>>>, first: u16)
    requires IsClip(clip) && first + 1 < |clip| && |header| < 0x1_0000 && maxBlocks > 0
    requires offset < 0x8000_0000 && GoodPayload(clip[first]) && offset <= Time(clip, first)
    ensures var s := Start(Joining(maxBlocks, first, Told(offset)), header);
            && FileOk(s) && |s.infos| > 0
            && (forall p :: p in LiveStream(clip, offset, first, first) ==> WellFormed(p))
            && offset <= Time(clip, first + 1)
            && var w := Feed(s, LiveStream(clip, offset, first, first));
               InOrder(Node(Received(w, offset, PacketOf(clip, first + 1, offset, 0)), first + 1, 1, map[]),
                       header, clip, first)
  {
    hide IsClip, Receiving, BlocksOf, GoodPayload, Time, Received, PacketOf, ChildInOrder, InOrder, LiveStream,
         WellFormed, FileOk, Feed, Waiting, Told, HasWritten;
    LaterThan(clip, first, first + 1);
    JoinedIsWaiting(maxBlocks, first, Told(offset), header);
    var s := Start(Joining(maxBlocks, first, Told(offset)), header);
    StreamReceived(s, offset, header, clip, first, first);
    var w := Feed(s, LiveStream(clip, offset, first, first));
    ToldIs(offset);
    WrittenReceiving(w, header, clip, first, first, |BlocksOf(clip, first)|);
    ClusterReceived(w, offset, header, clip, first, first);
    InOrderIf(Node(Received(w, offset, PacketOf(clip, first + 1, offset, 0)), first + 1, 1, map[]),
              header, clip, first);
  }

  /** Over every interleaving: the peer's file stays what the stream makes it, and every child
      has been sent whole consecutive clusters and a prefix of the next. */
  lemma {:induction false} EveryRunInOrder(node: Node, events: seq<Event>, header: seq<u8>, clip: seq<seq<seq<u8>>>,
                                           first: nat)
    requires IsClip(clip) && InOrder(node, header, clip, first) && |header| < 0x1_0000
    ensures InOrder(RunOf(node, events, clip, first), header, clip, first)
    decreases |events|
  {
    hide IsClip, InOrder, CanHappen, Happened;
    if events != [] && node.n < |clip| {
      if CanHappen(events[0], node, clip, first) {
        HappenedKeeps(events[0], node, header, clip, first);
        EveryRunInOrder(Happened(events[0], node, clip, first), events[1..], header, clip, first);
      } else {
        EveryRunInOrder(node, events[1..], header, clip, first);
      }
    }
  }

  /** Whether the first packet of the next cluster can be among the events is no more than what
      is needed: from any state reached, that packet from a parent with the base offset leaves
      the node in order if and only if the base does it no harm. */
  lemma NextClusterInOrder(node: Node, events: seq<Event>, header: seq<u8>, clip: seq<seq<seq<u8>>>, first: nat,
                           offset: u64)
    requires IsClip(clip) && InOrder(node, header, clip, first) && |header| < 0x1_0000 && offset < TWO_32
    requires var r := RunOf(node, events, clip, first);
             r.n + 1 < |clip| && r.j == |BlocksOf(clip, r.n)| && offset <= Time(clip, r.n + 1)
    ensures var r := RunOf(node, events, clip, first);
            && GoodPayload(clip[r.n + 1])
            && (InOrder(r.(s := Received(r.s, offset, PacketOf(clip, r.n + 1, offset, 0)), n := r.n + 1, j := 1),
                        header, clip, first)
                <==> BaseKept(clip, r.n + 1, 0, offset))
  {
    hide IsClip, Receiving, BlocksOf, GoodPayload, Time, Received, PacketOf, ChildInOrder, InOrder, BaseKept, RunOf;
    EveryRunInOrder(node, events, header, clip, first);
    var r := RunOf(node, events, clip, first);
    Parts(r, header, clip, first);
    ClusterReceived(r.s, offset, header, clip, first, r.n);
    var next := r.(s := Received(r.s, offset, PacketOf(clip, r.n + 1, offset, 0)), n := r.n + 1, j := 1);
    if BaseKept(clip, r.n + 1, 0, offset) {
      forall slot | slot in r.children ensures ChildInOrder(r.children[slot], clip, first, r.n + 1) {
        ChildStays(r.children[slot], clip, first, r.n);
      }
      InOrderIf(next, header, clip, first);
    } else if InOrder(next, header, clip, first) {
      Parts(next, header, clip, first);
    }
  }

  /** In such a state CalOffset of a child with something pending is the file offset of the
      first payload byte it has not been sent, inside a closed cluster. */
  lemma CursorOffset(node: Node, header: seq<u8>, clip: seq<seq<seq<u8>>>, first: nat, slot: nat)
    returns (unit: seq<u8>, es: seq<seq<u8>>, after: seq<u8>)
    requires IsClip(clip) && InOrder(node, header, clip, first) && slot in node.children
    requires Pending(SourceOf(node.s), node.children[slot].prev)
    ensures first < node.n < |clip|
    ensures var src, prev, ss := SourceOf(node.s), node.children[slot].prev, Relayed(clip, first, node.n);
            && first <= prev.clusterSeq < node.n
            && CursorAt(first, ss, prev, prev.clusterSeq - first, unit, es)
            && CanWalk(src.file, src.headerBytes, Count(src, prev))
            && Offset(src, prev)
               == Base(src.headerBytes, ss, prev.clusterSeq - first) + CLUSTER_HEADER_BYTES + Consumed(prev)
               <= |src.file|
            && src.file[Offset(src, prev)..] == unit + (Flat(es) + after)
  {
    hide IsClip, Receiving, ChildInOrder, InOrder, Pending, SourceOf, CanWalk, Offset, CursorAt, Flat, Base, Serves,
         StartsWithEndId;
    Parts(node, header, clip, first);
    var prev := node.children[slot].prev;
    unit, es := ChildCursor(node.children[slot], node.s, header, clip, first, node.n, node.j);
    after := OffsetIsNextByte(SourceOf(node.s), Relayed(clip, first, node.n), prev, prev.clusterSeq - first, unit, es);
  }

  lemma ChildCursor(c: Child, s: State, header: seq<u8>, clip: seq<seq<seq<u8>>>, first: nat, n: nat, j: nat)
    returns (unit: seq<u8>, es: seq<seq<u8>>)
    requires IsClip(clip) && first < n < |clip| && Receiving(s, header, clip, first, n, j)
    requires SourceOf(s).firstClusterSeq == first && ChildInOrder(c, clip, first, n) && Pending(SourceOf(s), c.prev)
    ensures Serves(SourceOf(s).file, SourceOf(s).headerBytes, Relayed(clip, first, n))
    ensures first <= c.prev.clusterSeq < n
    ensures CursorAt(first, Relayed(clip, first, n), c.prev, c.prev.clusterSeq - first, unit, es)
  {
    hide IsClip, Receiving, Serves, AllGood, BlocksOf, Carried, Relayed, CursorAt, ChildOk, Stream, Rest, Flat;
    PeerServes(s, header, clip, first, n, j);
    var ss := Relayed(clip, first, n);
    unit, es := ChildStands(first, ss, c.start, c.prev, c.sent);
    hide Carries, ChildInOrder;
  }

  /** Absolute time: in such a state the time every stored cluster tells, plus the node's own
      offset, is the origin's, whoever the parents were, and no value lost a byte. */
  lemma AbsoluteTime(node: Node, header: seq<u8>, clip: seq<seq<seq<u8>>>, first: nat, m: nat)
    requires IsClip(clip) && InOrder(node, header, clip, first) && first <= m <= node.n
    ensures node.n < |clip| && GoodPayload(clip[m]) && node.s.offset <= Time(clip, m)
    ensures var es := Shown(clip, m, node.s.offset);
            && IsTimecode(es[0]) && |es[0]| == |clip[m][0]|
            && Stamp(es[0]) + node.s.offset == Time(clip, m)
            && (m < node.n ==> StoredPayloads(clip, first, node.n)[m - first] == Flat(es))
  {
    LaterThan(clip, first, m);
    ShownIsGood(clip, m, Time(clip, first));
    if m < node.n {
      StoredAt(clip, first, node.n, m);
    }
    hide IsClip, Shown, Flat, StoredPayloads, ChildInOrder, Stamp, ShapeAt;
    assert Sizes(Shown(clip, m, Time(clip, first)))[0] == Sizes(clip[m])[0];
  }

  lemma {:induction false} StoredAt(clip: seq<seq<seq<u8>>>, first: nat, n: nat, m: nat)
    requires IsClip(clip) && first <= m < n <= |clip|
    requires GoodPayload(clip[first]) && GoodPayload(clip[m]) && Time(clip, first) <= Time(clip, m)
    ensures StoredPayloads(clip, first, n)[m - first] == Flat(Shown(clip, m, Time(clip, first)))
    decreases n
  {
    hide IsClip, Shown, Flat, GoodPayload, Time, StoredPayloads;
    StoredSnoc(clip, first, n);
    if m < n - 1 {
      StoredAt(clip, first, n - 1, m);
    }
  }

  lemma StoredSnoc(clip: seq<seq<seq<u8>>>, first: nat, n: nat)
    requires IsClip(clip) && first < n <= |clip|
    ensures GoodPayload(clip[first]) && GoodPayload(clip[n - 1]) && Time(clip, first) <= Time(clip, n - 1)
    ensures StoredPayloads(clip, first, n)
            == StoredPayloads(clip, first, n - 1) + [Flat(Shown(clip, n - 1, Time(clip, first)))]
  {
    LaterThan(clip, first, n - 1);
    hide IsClip, Shown, Flat, GoodPayload, Time;
  }
}
