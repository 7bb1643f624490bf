/** The receive loop of a peer: every message is handled and then, while the peer plays, its
    children are served from the very file, and with the very position, that AssembleBlock
    writes with.
  */
module PeerLoops {
  import opened Words
  import opened Ebml
  import opened Blocks
  import opened Segmentation
  import opened Clusters
  import opened Serving
  import opened Streams
  import opened Membership
  import opened Clips
  import opened Peers
  import opened Reception
  import opened RoundTrip
  import opened Relay
  import opened Rebasing
  import opened StatusMessages
  import opened Adoption
  import opened Repeats
  import opened Hops
  import opened NodeRuns
  import opened Senders
  import opened Broadcast

  /** A message: the WebM header, a block, a block that comes again, the Accept message of a new
      parent whose time base is offset, a Setup or Connect message, or whatever makes a child
      leave. */
  datatype Message =
    | Header(data: seq<u8>)
    | Packet(data: seq<u8>)
    | Repeat(data: seq<u8>)
    | Accept(offset: u64)
    | Setup
    | Connect(clusterSeq: u16)
    | Leave(slot: nat)

  /** How far a peer has got: nothing received, the header, or j blocks of cluster n; and the
      time base of its parent. */
  datatype Progress = Fresh(base: u64) | Opened(base: u64) | At(n: nat, j: nat, base: u64)

  /** The message is the next one of a stream sent in order and without loss, or one that can
      come in between: nobody joins before a cluster is closed. */
  ghost predicate Fits(m: Message, g: Progress, header: seq<u8>, clip: seq<seq<seq<u8>>>, first: nat)
    requires IsClip(clip) && first < |clip|
  {
    match m
    case Header(data) => g.Fresh? && data == BLOCKINFO_START + header
    case Packet(data) =>
      && !g.Fresh?
      && var (n, j) := Upcoming(g, clip, first);
         && n < |clip| && j < |BlocksOf(clip, n)| && GoodPayload(clip[n]) && g.base <= Time(clip, n)
         && data == PacketOf(clip, n, g.base, j)
         && (if g.Opened? then g.base < 0x8000_0000 else BaseKept(clip, n, j, g.base))
    case Repeat(data) => g.At? && exists m, k :: IsRepeat(data, g, clip, first, m, k)
    case Accept(offset) => offset < TWO_32
    case Setup => g.At? && first < g.n
    case Connect(clusterSeq) => g.At? && first < g.n && first <= U16(clusterSeq + 1)
    case Leave(slot) => slot < MAX_CHILD_NUM
  }

  /** Block k of cluster m once more, from a cluster the peer has closed. */
  ghost predicate IsRepeat(data: seq<u8>, g: Progress, clip: seq<seq<seq<u8>>>, first: nat, m: nat, k: nat)
    requires IsClip(clip) && g.At?
  {
    && m < |clip| && k < |BlocksOf(clip, m)| && g.base <= Time(clip, m)
    && Dropped(first, g.n, g.j, m, k) && data == PacketOf(clip, m, g.base, k)
  }

  /** The cluster and place of the next packet. */
  ghost function Upcoming(g: Progress, clip: seq<seq<seq<u8>>>, first: nat): (nat, nat)
    requires IsClip(clip) && !g.Fresh?
  {
    if g.Opened? then (first, 0) else if g.n < |clip| then NextPlace(clip, g.n, g.j) else (|clip|, 0)
  }

  ghost function After(m: Message, g: Progress, clip: seq<seq<seq<u8>>>, first: nat): Progress
    requires IsClip(clip)
  {
    match m
    case Header(_) => Opened(g.base)
    case Packet(_) =>
      if g.Fresh? then g
      else
        var (n, j) := Upcoming(g, clip, first);
        At(n, j + 1, g.base)
    case Accept(offset) => g.(base := offset)
    case _ => g
  }

  ghost predicate AllFit(ms: seq<Message>, g: Progress, header: seq<u8>, clip: seq<seq<seq<u8>>>, first: nat)
    requires IsClip(clip) && first < |clip|
    decreases |ms|
  {
    ms != [] ==>
      Fits(ms[0], g, header, clip, first) && AllFit(ms[1..], After(ms[0], g, clip, first), header, clip, first)
  }

  ghost function AfterAll(ms: seq<Message>, g: Progress, clip: seq<seq<seq<u8>>>, first: nat): Progress
    requires IsClip(clip)
    decreases |ms|
  {
    if ms == [] then g else AfterAll(ms[1..], After(ms[0], g, clip, first), clip, first)
  }

  /** The next packets of the stream, at most count of them, all with one time base. */
  ghost function Script(g: Progress, clip: seq<seq<seq<u8>>>, first: nat, count: nat): seq<Message>
    requires IsClip(clip) && !g.Fresh?
    decreases count
  {
    var (n, j) := Upcoming(g, clip, first);
    if count == 0 || !IsPlace(clip, n, j, g.base) then []
    else [Packet(PacketOf(clip, n, g.base, j))] + Script(At(n, j + 1, g.base), clip, first, count - 1)
  }

  ghost predicate IsPlace(clip: seq<seq<seq<u8>>>, n: nat, j: nat, base: u64)
    requires IsClip(clip)
  {
    n < |clip| && GoodPayload(clip[n]) && base <= Time(clip, n) && j < |BlocksOf(clip, n)|
  }

  /** No packet is left. */
  ghost predicate AtEnd(g: Progress, clip: seq<seq<seq<u8>>>, first: nat)
    requires IsClip(clip)
  {
    !g.Fresh? && Upcoming(g, clip, first).0 >= |clip|
  }

  /** Such runs exist: the header and then any number of packets of the stream, in order and
      for one base below 2^31, are messages a new peer
      can get; they end only with the clip. */
  lemma StreamFits(base: u64, header: seq<u8>, clip: seq<seq<seq<u8>>>, first: nat, count: nat)
    requires IsClip(clip) && first < |clip| && base < 0x8000_0000 && base <= Time(clip, first)
    ensures AllFit([Header(BLOCKINFO_START + header)] + Script(Opened(base), clip, first, count), Fresh(base),
                   header, clip, first)
    ensures var script := Script(Opened(base), clip, first, count);
            |script| == count || AtEnd(AfterAll(script, Opened(base), clip, first), clip, first)
  {
    hide IsClip, Time, GoodPayload;
    var script := Script(Opened(base), clip, first, count);
    ScriptFits(Opened(base), header, clip, first, count);
    assert ([Header(BLOCKINFO_START + header)] + script)[1..] == script;
  }

  lemma {:induction false} ScriptFits(g: Progress, header: seq<u8>, clip: seq<seq<seq<u8>>>, first: nat, count: nat)
    requires IsClip(clip) && first < |clip| && !g.Fresh? && g.base < 0x8000_0000 && g.base <= Time(clip, first)
    requires g.At? ==> first <= g.n < |clip|
    ensures var script := Script(g, clip, first, count);
            && AllFit(script, g, header, clip, first)
            && (|script| == count || AtEnd(AfterAll(script, g, clip, first), clip, first))
    decreases count
  {
    hide IsClip, Time, GoodPayload, PacketOf, BlocksOf;
    var (n, j) := Upcoming(g, clip, first);
    if count > 0 && n < |clip| {
      LaterThan(clip, first, n);
      AllPayloadsGood(clip, n);
      ScriptFits(At(n, j + 1, g.base), header, clip, first, count - 1);
      var script := Script(g, clip, first, count);
      assert script[1..] == Script(At(n, j + 1, g.base), clip, first, count - 1);
    }
  }

  lemma AllPayloadsGood(clip: seq<seq<seq<u8>>>, n: nat)
    requires IsClip(clip) && n < |clip|
    ensures GoodPayload(clip[n])
  {
    hide GoodPayload, Time;
  }

  /** A peer and its children on one file. */
  class PeerLoop {
    const peer: Peer
    const sender: Sender

    constructor (maxBlocks: nat, clusterSeq: u16, base: u64, ghost header: seq<u8>, ghost clip: seq<seq<seq<u8>>>)
      requires maxBlocks > 0 && base < TWO_32 && IsClip(clip) && clusterSeq < |clip|
      ensures fresh(peer) && fresh(peer.webm) && fresh(peer.block) && fresh(peer.infos)
      ensures fresh(sender) && fresh(sender.children)
      ensures Good(Fresh(base), header, clip, clusterSeq)
      ensures peer.View() == Joining(maxBlocks, clusterSeq, Told(base))
    {
      var p := new Peer(maxBlocks, clusterSeq, Told(base));
      peer := p;
      var s := new Sender(p.webm);
      sender := s;
      new;
      hide Told, IsClip;
      NoBits();
      assert |peer.infos[..]| == peer.infos.Length;
    }

    /** One file, and a block being received that is none of the children's. */
    predicate Apart()
      reads this
    {
      sender.webm == peer.webm && peer.block !in sender.children
    }

    /** The peer has received what it should, relative to its own right time base, with the
        position at the end of the file; and every child's cursor is in order on the clusters
        closed. */
    ghost predicate Good(g: Progress, header: seq<u8>, clip: seq<seq<seq<u8>>>, first: nat)
      requires IsClip(clip)
      reads this, peer, peer.webm, peer.block, peer.infos, sender, sender.children
    {
      && Apart() && first < |clip| && g.base < TWO_32 && peer.nodeOffset == Told(g.base)
      && match g
         case Fresh(base) =>
           && !sender.HasChild() && sender.Valid() && 0 < peer.infos.Length && first < 0x1_0000
           && peer.View() == Joining(peer.infos.Length, first, Told(base))
         case Opened(_) =>
           && !sender.HasChild() && sender.Valid() && peer.webm.firstClusterSeq == 0
           && Waiting(peer.View(), header, first)
         case At(n, j, _) =>
           && Receiving(peer.View(), header, clip, first, n, j)
           && peer.webm.fpos == |peer.webm.file|
           && sender.InOrder(Relayed(clip, first, n))
           && (n == first ==> !sender.HasChild())
    }

    method HandleHeader(data: seq<u8>, ghost g: Progress, ghost header: seq<u8>, ghost clip: seq<seq<seq<u8>>>,
                        ghost first: nat)
      requires IsClip(clip) && first < |clip|
      requires Good(g, header, clip, first) && Fits(Header(data), g, header, clip, first)
      modifies peer, peer.webm, peer.block, peer.infos
      ensures Good(After(Header(data), g, clip, first), header, clip, first)
    {
      hide Assemble, Joining, Start, Waiting, Told, IsClip, WellFormed, FileOk;
      ghost var s := peer.View();
      JoiningIsReady(peer.infos.Length, first, Told(g.base));
      MarkersAreRead(s, header);
      JoinedIsWaiting(peer.infos.Length, first, Told(g.base), header);
      peer.AssembleBlock(data);
      StartKeepsFirst(s, header);
      WaitingParts(peer.View(), header, first);
    }

    method HandlePacket(data: seq<u8>, ghost g: Progress, ghost header: seq<u8>, ghost clip: seq<seq<seq<u8>>>,
                        ghost first: nat)
      requires IsClip(clip) && first < |clip| && |header| < 0x1_0000
      requires Good(g, header, clip, first) && Fits(Packet(data), g, header, clip, first)
      modifies peer, peer.webm, peer.block, peer.infos
      ensures Good(After(Packet(data), g, clip, first), header, clip, first)
    {
      hide Assemble, Waiting, Receiving, Told, IsClip, WellFormed, FileOk, PacketOf, Ready, ChildOk, AllGood,
           Relayed, Fits, BlocksOf, Upcoming;
      PacketAfterHeader(data, g, header, clip, first);
      if g.At? {
        ReceivingParts(peer.View(), header, clip, first, g.n, g.j);
      }
      PacketStep(peer.View(), g, header, clip, first, data);
      ghost var g' := After(Packet(data), g, clip, first);
      peer.AssembleBlock(data);
      ReceivingParts(peer.View(), header, clip, first, g'.n, g'.j);
      KeepChildren(g, g'.n, g'.j, header, clip, first);
    }

    /** A block that comes again changes nothing. */
    method HandleRepeat(data: seq<u8>, ghost g: Progress, ghost header: seq<u8>, ghost clip: seq<seq<seq<u8>>>,
                        ghost first: nat)
      requires IsClip(clip) && first < |clip|
      requires Good(g, header, clip, first) && Fits(Message.Repeat(data), g, header, clip, first)
      modifies peer, peer.webm, peer.block, peer.infos
      ensures Good(g, header, clip, first) && peer.View() == old(peer.View())
    {
      hide Assemble, Receiving, Told, IsClip, WellFormed, FileOk, PacketOf, Ready, ChildOk, AllGood, Relayed, Bit,
           BlocksOf, Dropped, IsOld, Time;
      ghost var m, k :| IsRepeat(data, g, clip, first, m, k);
      DroppedExactly(peer.View(), header, clip, first, g.n, g.j, m, k, g.base);
      peer.AssembleBlock(data);
    }

    /** The children's cursors after a packet that leaves them alone. */
    lemma KeepChildren(g: Progress, n: nat, j: nat, header: seq<u8>, clip: seq<seq<seq<u8>>>, first: nat)
      requires IsClip(clip) && Apart() && sender.Valid() && Receiving(peer.View(), header, clip, first, n, j)
      requires peer.webm.firstClusterSeq == first <= n < |clip|
      requires g.At? ==> first <= g.n <= n <= g.n + 1
      requires !g.At? || g.n == first ==> !sender.HasChild()
      requires g.At? ==>
                 (g.n < |clip|) && AllGood(Relayed(clip, first, g.n)) && first + |Relayed(clip, first, g.n)| < 0x1_0000
                 && forall i :: 0 <= i < MAX_CHILD_NUM && Bit(sender.connected, i) ==>
                      ChildOk(first, Relayed(clip, first, g.n), sender.starts[i], sender.children[i].prev,
                              sender.wire[i])
      ensures sender.InOrder(Relayed(clip, first, n))
    {
      hide IsClip, Receiving, Ready, ChildOk, AllGood, Relayed, Bit, Serves, BlocksOf;
      RelayedParts(clip, first, n);
      if sender.HasChild() {
        PeerServes(peer.View(), header, clip, first, n, j);
        CarriesReady(SourceOf(peer.View()), Relayed(clip, first, n), clip, peer.View().offset);
        RelayedGrows(clip, first, g.n, n);
        forall i | 0 <= i < MAX_CHILD_NUM && Bit(sender.connected, i)
          ensures ChildOk(first, Relayed(clip, first, n), sender.starts[i], sender.children[i].prev, sender.wire[i])
        {
          Grow(first, Relayed(clip, first, g.n), Relayed(clip, first, n), sender.starts[i], sender.children[i].prev,
               sender.wire[i]);
        }
      } else {
        NoBitsSet(sender);
      }
    }

    /** NodeAccept. */
    method HandleAccept(offset: u64, ghost g: Progress, ghost header: seq<u8>, ghost clip: seq<seq<seq<u8>>>,
                        ghost first: nat)
      requires IsClip(clip) && first < |clip| && offset < TWO_32 && Good(g, header, clip, first)
      modifies peer
      ensures Good(g.(base := offset), header, clip, first)
    {
      hide Waiting, Receiving, Told, IsClip, Ready, ChildOk, AllGood, Relayed;
      peer.nodeOffset := Told(offset);
      match g {
        case Fresh(_) =>
        case Opened(_) => SameWaiting(old(peer.View()), Told(offset), header, first);
        case At(n, j, _) => SameReceiving(old(peer.View()), Told(offset), header, clip, first, n, j);
      }
    }

    method HandleSetup(ghost g: Progress, ghost header: seq<u8>, ghost clip: seq<seq<seq<u8>>>, ghost first: nat)
      returns (slot: int)
      requires IsClip(clip) && first < |clip| && g.At? && first < g.n && Good(g, header, clip, first)
      modifies sender, sender.children
      ensures Good(g, header, clip, first)
      ensures sender.Took(slot, peer.webm.prevCluster.number)
      ensures sender.NewChild(peer.webm.prevCluster.number) && sender.NothingSent()
    {
      hide Receiving, Told, IsClip, Ready, ChildOk, AllGood, Relayed, Bit;
      CanTakeChild(g, header, clip, first);
      slot := sender.Admit(Relayed(clip, first, g.n));
    }

    method HandleConnect(clusterSeq: u16, ghost g: Progress, ghost header: seq<u8>, ghost clip: seq<seq<seq<u8>>>,
                         ghost first: nat)
      returns (slot: int)
      requires IsClip(clip) && first < |clip| && g.At? && first < g.n && first <= U16(clusterSeq + 1)
      requires Good(g, header, clip, first)
      modifies sender, sender.children
      ensures Good(g, header, clip, first)
      ensures sender.Took(slot, U16(clusterSeq + 1))
      ensures sender.NewChild(U16(clusterSeq + 1)) && sender.NothingSent()
    {
      hide Receiving, Told, IsClip, Ready, ChildOk, AllGood, Relayed, Bit;
      CanTakeChild(g, header, clip, first);
      slot := sender.Readmit(clusterSeq, Relayed(clip, first, g.n));
    }

    /** Once a cluster is closed the peer can serve what it has closed. */
    lemma CanTakeChild(g: Progress, header: seq<u8>, clip: seq<seq<seq<u8>>>, first: nat)
      requires IsClip(clip) && first < |clip| && g.At? && first < g.n && Good(g, header, clip, first)
      ensures g.n < |clip| && peer.webm.firstClusterSeq == first <= peer.webm.prevCluster.number
      ensures Ready(sender.View(), Relayed(clip, first, g.n))
    {
      hide Told, IsClip, ChildOk, AllGood, Relayed, Bit, BlocksOf, ShapeAt, GoodPayload, Time, Serves, Ready;
      PeerServes(peer.View(), header, clip, first, g.n, g.j);
      CarriesReady(SourceOf(peer.View()), Relayed(clip, first, g.n), clip, peer.View().offset);
    }

    method HandleLeave(slot: nat, ghost g: Progress, ghost header: seq<u8>, ghost clip: seq<seq<seq<u8>>>,
                       ghost first: nat)
      requires IsClip(clip) && first < |clip| && slot < MAX_CHILD_NUM && Good(g, header, clip, first)
      modifies sender
      ensures Good(g, header, clip, first) && sender.Gone(slot) && sender.NothingSent()
    {
      hide Waiting, Receiving, Told, IsClip, Ready, ChildOk, AllGood, Relayed, Bit;
      ServeReady(g, header, clip, first);
      if sender.HasChild() {
        sender.Release(slot, Relayed(clip, first, g.n));
      }
    }

    lemma GoodApart(g: Progress, header: seq<u8>, clip: seq<seq<seq<u8>>>, first: nat)
      requires IsClip(clip) && Good(g, header, clip, first)
      ensures Apart() && |sender.wire| == |sender.children| == MAX_CHILD_NUM
    {
      hide IsClip, Receiving, Waiting, Told;
    }

    /** Who is a child after a message. */
    twostate predicate Hands(m: Message)
      reads this, sender
    {
      match m
      case Setup => sender.Came()
      case Connect(_) => sender.Came()
      case Leave(slot) => sender.Gone(slot)
      case _ => sender.connected == old(sender.connected)
    }

    /** Where a new child's stream starts. */
    function StartOf(m: Message): nat
      reads this, peer, peer.webm`prevCluster
    {
      match m
      case Setup => peer.webm.prevCluster.number
      case Connect(clusterSeq) => U16(clusterSeq + 1)
      case _ => 0
    }

    method Handle(m: Message, ghost g: Progress, ghost header: seq<u8>, ghost clip: seq<seq<seq<u8>>>, ghost first: nat)
      requires IsClip(clip) && first < |clip| && |header| < 0x1_0000
      requires Good(g, header, clip, first) && Fits(m, g, header, clip, first)
      modifies peer, peer.webm, peer.block, peer.infos, sender, sender.children
      ensures Good(After(m, g, clip, first), header, clip, first)
      ensures Hands(m) && (m.Setup? || m.Connect? ==> sender.NewChild(StartOf(m))) && sender.NothingSent()
      ensures m.Header? || m.Packet? || m.Repeat? || m.Accept? ==>
                unchanged(sender) && forall c :: c in sender.children ==> unchanged(c)
    {
      hide Good, IsClip, Fits, After;
      GoodApart(g, header, clip, first);
      FitsParts(m, g, header, clip, first);
      match m {
        case Header(data) => HandleHeader(data, g, header, clip, first);
        case Packet(data) => HandlePacket(data, g, header, clip, first);
        case Repeat(data) => HandleRepeat(data, g, header, clip, first);
        case Accept(offset) => HandleAccept(offset, g, header, clip, first);
        case Setup => var slot := HandleSetup(g, header, clip, first);
        case Connect(clusterSeq) => var slot := HandleConnect(clusterSeq, g, header, clip, first);
        case Leave(slot) => HandleLeave(slot, g, header, clip, first);
      }
    }

    /** A round of sends on the shared file. */
    method ServeChildren(memory: nat -> seq<u8>, ghost ss: seq<Section>)
      requires Apart() && sender.InOrder(ss) && forall i :: |memory(i)| >= HEADER_REACH
      requires sender.HasChild() ==> CleanMemory(sender.View(), ss, memory)
      modifies peer.webm`fpos, peer.webm`readPos, sender`wire, sender.children
      ensures sender.InOrder(ss) && peer.webm.fpos == old(peer.webm.fpos) && sender.RoundSent(memory)
    {
      hide Ready, ChildOk, AllGood, Bit, CleanBeyond, Counted, CanSend, Send;
      var ret := sender.StreamRound(memory, ss);
    }

    /** The end of the loop body: every child that is due gets its next packet, and the position
        is left at the end of the file. */
    method Serve(memory: nat -> seq<u8>, ghost g: Progress, ghost header: seq<u8>, ghost clip: seq<seq<seq<u8>>>,
                 ghost first: nat)
      requires IsClip(clip) && first < |clip| && Good(g, header, clip, first) && AlwaysClean(memory)
      modifies peer.webm`fpos, peer.webm`readPos, sender`wire, sender.children
      ensures Good(g, header, clip, first) && sender.RoundSent(memory)
    {
      hide Waiting, Receiving, Told, IsClip, Ready, ChildOk, AllGood, Relayed, Bit, AlwaysClean, CleanMemory, Joining,
           Counted;
      ServeReady(g, header, clip, first);
      ghost var ss := if g.At? then Relayed(clip, first, g.n) else [];
      MemoryReaches(memory);
      if sender.HasChild() {
        ReadyServes(sender.View(), ss);
        CleanHere(sender.View(), ss, memory);
      }
      ServeChildren(memory, ss);
    }

    /** What a turn sends: the children are those the message leaves, and each of them gets one
        packet exactly if the peer plays and its last block, or the start of its stream if it
        is new, is not past the latest block of the last closed cluster. */
    twostate predicate Turned(m: Message, playing: bool)
      reads this, peer, peer.webm`prevCluster, peer.webm`latest, sender, sender.children
    {
      && |old(sender.wire)| == |sender.wire| == |sender.children| == MAX_CHILD_NUM && Hands(m)
      && forall i :: 0 <= i < MAX_CHILD_NUM && Bit(sender.connected, i) ==>
           var was := old(Bit(sender.connected, i));
           var sent := if was then old(sender.wire[i]) else [];
           var place := if was then Place(old(sender.children[i].prev.clusterSeq), old(sender.children[i].prev.number))
                        else Place(StartOf(m), 0);
           var due := playing && place <= Place(peer.webm.prevCluster.number, peer.webm.latest);
           sent <= sender.wire[i] && |sender.wire[i]| == |sent| + if due then 1 else 0
    }

    /** One turn of the receive loop: the message, and a round of sends if the peer plays, in
        which every child there was before the message gets its next packet if it is due. */
    method Turn(m: Message, playing: bool, memory: nat -> seq<u8>, ghost g: Progress, ghost header: seq<u8>,
                ghost clip: seq<seq<seq<u8>>>, ghost first: nat)
      requires IsClip(clip) && first < |clip| && |header| < 0x1_0000 && AlwaysClean(memory)
      requires Good(g, header, clip, first) && Fits(m, g, header, clip, first)
      modifies peer, peer.webm, peer.block, peer.infos, sender, sender.children
      ensures Good(After(m, g, clip, first), header, clip, first)
      ensures playing && (m.Header? || m.Packet? || m.Repeat? || m.Accept?) ==> sender.RoundSent(memory)
      ensures Turned(m, playing)
    {
      hide Good, IsClip, Fits, AlwaysClean, After, CanSend, Send, Due, Bit, Place, FreeSlot;
      GoodApart(g, header, clip, first);
      Handle(m, g, header, clip, first);
      label Handled:
      if playing {
        Serve(memory, After(m, g, clip, first), header, clip, first);
        sender.SentByPlace@Handled(memory);
        if m.Header? || m.Packet? || m.Repeat? || m.Accept? {
          assert sender.RoundSent@Handled(memory);
          forall i | 0 <= i < MAX_CHILD_NUM ensures sender.Served(i, sender.View(), memory(i)) {
            assert sender.children[i] in sender.children;
            assert sender.Served@Handled(i, sender.View(), memory(i));
          }
        }
      }
    }

    /** Every run of the receive loop over a stream sent in order, with time bases, joins and
        leaves as they come. */
    method Receive(ms: seq<Message>, playing: nat -> bool, memory: nat -> nat -> seq<u8>, ghost g: Progress,
                   ghost header: seq<u8>, ghost clip: seq<seq<seq<u8>>>, ghost first: nat)
      requires IsClip(clip) && first < |clip| && |header| < 0x1_0000 && forall t :: AlwaysClean(memory(t))
      requires Good(g, header, clip, first) && AllFit(ms, g, header, clip, first)
      modifies peer, peer.webm, peer.block, peer.infos, sender, sender.children
      ensures Good(AfterAll(ms, g, clip, first), header, clip, first)
    {
      hide Good, IsClip, Fits, AlwaysClean, After;
      ghost var now := g;
      for k := 0 to |ms|
        invariant Good(now, header, clip, first) && AllFit(ms[k..], now, header, clip, first)
        invariant AfterAll(ms[k..], now, clip, first) == AfterAll(ms, g, clip, first)
      {
        assert ms[k..][0] == ms[k] && ms[k..][1..] == ms[k + 1..];
        Turn(ms[k], playing(k), memory(k), now, header, clip, first);
        now := After(ms[k], now, clip, first);
      }
    }

    lemma ServeReady(g: Progress, header: seq<u8>, clip: seq<seq<seq<u8>>>, first: nat)
      requires IsClip(clip) && first < |clip| && Good(g, header, clip, first)
      ensures g.At? ==> g.n < |clip|
      ensures sender.InOrder(if g.At? then Relayed(clip, first, g.n) else [])
    {
      hide Waiting, Receiving, Told, IsClip, ChildOk, Relayed, Bit;
      if g.At? {
        ReceivingParts(peer.View(), header, clip, first, g.n, g.j);
      } else {
        NoBitsSet(sender);
      }
    }
  }

  lemma ReadyServes(src: Source, ss: seq<Section>)
    requires Ready(src, ss)
    ensures Serves(src.file, src.headerBytes, ss)
  {
    hide Serves;
  }

  lemma JoiningIsReady(maxBlocks: nat, clusterSeq: u16, nodeOffset: u64)
    requires maxBlocks > 0
    ensures var s := Joining(maxBlocks, clusterSeq, nodeOffset);
            s.fpos <= |s.file| && |s.infos| > 0 && s.firstClusterSeq == 0
  {
  }

  lemma FitsParts(m: Message, g: Progress, header: seq<u8>, clip: seq<seq<seq<u8>>>, first: nat)
    requires IsClip(clip) && first < |clip| && Fits(m, g, header, clip, first)
    ensures m.Accept? ==> m.offset < TWO_32 && After(m, g, clip, first) == g.(base := m.offset)
    ensures m.Setup? || m.Connect? ==> g.At? && first < g.n
    ensures m.Connect? ==> first <= U16(m.clusterSeq + 1)
    ensures m.Leave? ==> m.slot < MAX_CHILD_NUM
    ensures m.Setup? || m.Connect? || m.Leave? || m.Repeat? ==> After(m, g, clip, first) == g
  {
    hide IsClip, PacketOf, BlocksOf;
  }

  lemma PacketAfterHeader(data: seq<u8>, g: Progress, header: seq<u8>, clip: seq<seq<seq<u8>>>, first: nat)
    requires IsClip(clip) && first < |clip| && Fits(Packet(data), g, header, clip, first)
    ensures !g.Fresh?
  {
  }

  lemma StartKeepsFirst(s: State, header: seq<u8>)
    requires s.fpos <= |s.file|
    ensures Start(s, header).firstClusterSeq == s.firstClusterSeq
  {
  }

  lemma WaitingParts(s: State, header: seq<u8>, first: nat)
    requires Waiting(s, header, first)
    ensures s.fpos == |s.file|
  {
  }

  lemma ReceivingParts(s: State, header: seq<u8>, clip: seq<seq<seq<u8>>>, first: nat, n: nat, j: nat)
    requires IsClip(clip) && Receiving(s, header, clip, first, n, j)
    ensures first <= n < |clip| && s.fpos == |s.file| && s.firstClusterSeq == first && |s.infos| > 0
  {
    hide IsClip, BlocksOf, ShapeAt, GoodPayload, Time;
  }

  lemma RelayedParts(clip: seq<seq<seq<u8>>>, first: nat, n: nat)
    requires IsClip(clip) && first <= n < |clip|
    ensures AllGood(Relayed(clip, first, n)) && |Relayed(clip, first, n)| == n - first && first + (n - first) < 0x1_0000
  {
    hide AllGood, Relayed;
    RelayedOnFile(clip, first, n);
    ClipLength(clip);
  }

  lemma RelayedGrows(clip: seq<seq<seq<u8>>>, first: nat, n: nat, n': nat)
    requires IsClip(clip) && first <= n <= n' <= n + 1 && n' <= |clip|
    ensures Relayed(clip, first, n) <= Relayed(clip, first, n')
  {
    hide IsClip, Shown, ClusterHeader;
  }

  lemma NoBitsSet(sender: Sender)
    requires !sender.HasChild()
    ensures forall i :: 0 <= i < MAX_CHILD_NUM ==> !Bit(sender.connected, i)
  {
  }

  lemma CarriesReady(src: Source, ss: seq<Section>, clip: seq<seq<seq<u8>>>, offset: u64)
    requires IsClip(clip) && Carries(src, ss, clip, offset)
    ensures Ready(src, ss)
  {
    hide Ready;
  }

  /** The next packet of the stream is received as it should be. */
  lemma PacketStep(s: State, g: Progress, header: seq<u8>, clip: seq<seq<seq<u8>>>, first: nat, data: seq<u8>)
    requires IsClip(clip) && first < |clip| && |header| < 0x1_0000 && Fits(Packet(data), g, header, clip, first)
    requires !g.Fresh? && g.base < TWO_32 && s.nodeOffset == Told(g.base)
    requires if g.Opened? then Waiting(s, header, first) else Receiving(s, header, clip, first, g.n, g.j)
    ensures FileOk(s) && |s.infos| > 0 && WellFormed(data)
    ensures var g' := After(Packet(data), g, clip, first);
            var w := Assemble(s, data);
            && g'.At? && g'.base == g.base && w.nodeOffset == s.nodeOffset
            && Receiving(w, header, clip, first, g'.n, g'.j)
            && (if g.At? then g.n <= g'.n <= g.n + 1 else g'.n == first)
  {
    hide Assemble, Waiting, Receiving, Told, IsClip, WellFormed, FileOk, PacketOf, BlocksOf, GoodPayload, Time,
         BaseKept, IsBlock, IsOld, Decode;
    if g.Opened? {
      ToldIs(g.base);
      FirstStep(s, header, clip, first);
    } else {
      LaterStep(s, g, header, clip, first, data);
    }
    AssembleKeepsBase(s, data);
  }

  lemma LaterStep(s: State, g: Progress, header: seq<u8>, clip: seq<seq<seq<u8>>>, first: nat, data: seq<u8>)
    requires IsClip(clip) && first < |clip| && |header| < 0x1_0000 && Fits(Packet(data), g, header, clip, first)
    requires g.At? && g.base < TWO_32 && s.nodeOffset == Told(g.base)
    requires Receiving(s, header, clip, first, g.n, g.j)
    ensures FileOk(s) && |s.infos| > 0 && WellFormed(data) && g.n < |clip|
    ensures var (n, j) := Upcoming(g, clip, first);
            Receiving(Assemble(s, data), header, clip, first, n, j + 1) && g.n <= n <= g.n + 1
  {
    hide Assemble, Receiving, Told, IsClip, WellFormed, FileOk, PacketOf, BlocksOf, GoodPayload, Time, BaseKept,
         IsBlock, IsOld, Decode, Fits, Upcoming;
    ReceivingFields(s, header, clip, first, g.n, g.j);
    PacketFits(g, header, clip, first, data);
    assert s.(nodeOffset := Told(g.base)) == s;
    var (n, j) := Upcoming(g, clip, first);
    PacketShape(clip, n, g.base, j);
    if j > 0 {
      PacketReceived(s, g.base, header, clip, first, n, j);
    } else {
      ClusterReceived(s, g.base, header, clip, first, g.n);
    }
  }

  /** Where a packet that fits belongs. */
  lemma PacketFits(g: Progress, header: seq<u8>, clip: seq<seq<seq<u8>>>, first: nat, data: seq<u8>)
    requires IsClip(clip) && first < |clip| && Fits(Packet(data), g, header, clip, first)
    requires g.At? && g.n < |clip| && 1 <= g.j <= |BlocksOf(clip, g.n)|
    ensures var (n, j) := Upcoming(g, clip, first);
            && n < |clip| && j < |BlocksOf(clip, n)| && GoodPayload(clip[n]) && g.base <= Time(clip, n)
            && data == PacketOf(clip, n, g.base, j) && BaseKept(clip, n, j, g.base)
            && if j > 0 then n == g.n && j == g.j else n == g.n + 1 && g.j == |BlocksOf(clip, g.n)|
  {
    hide IsClip, PacketOf, BlocksOf, GoodPayload, Time, BaseKept;
  }

  lemma NoBits()
    ensures !Bit(0, 0) && !Bit(0, 1)
  {
  }

  lemma MemoryReaches(memory: nat -> seq<u8>)
    requires AlwaysClean(memory)
    ensures forall i :: |memory(i)| >= HEADER_REACH
  {
    hide CleanFor;
    var src := Source(CLUSTER_ID_STRING, 0, 0, 0, 0);
    assert StartsWithEndId(src.file[0..]) by {
      assert src.file[0..][..4] == CLUSTER_ID_STRING;
    }
    CleanHere(src, [], memory);
    forall i ensures |memory(i)| >= HEADER_REACH {
      assert CleanBeyond(src, [], memory(i));
    }
  }
}
