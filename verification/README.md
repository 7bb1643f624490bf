# A model of the WebM streaming overlay

An origin reads a growing WebM file, cuts its clusters into blocks of at most 1000 bytes and
sends them to at most two children. A child writes the blocks into a file of its own, with
cluster headers whose size fields it patches in place, makes the times relative to where it
joined, and serves its own two children from that file. This project states what that pipeline
promises and proves it, together with the membership, list and checksum code around it. The
theorem to start from is `Broadcast.EndToEnd`; `PeerLoops.PeerLoop.Receive`,
`NodeRuns.EveryRunInOrder`, `Origins.Origin.StreamFile`, `Assembly.FeedHolds`,
`Hops.RelayTransparency`, `Handlers.EveryRunCounted` and `Overlay.EveryOverlayIsTree` are the
other main ones.

`dafny verify dfyconfig.toml` checks everything.

## How the project is laid out

* `Words`, `Bits`: machine words, byte order, bits set and cleared by addition.
* `Ebml`, `HeaderScan`: element headers, and the walk to the first cluster.
* `Blocks`, `Segmentation`: block descriptors, the element scan and the block state machine, as
  functions of the buffer and as the methods of a `Block`.
* `Plan`: the same machine told in element sizes alone. `Clusters` proves that the byte-level
  machine refines it, `Partition` what its blocks add up to, `CleanReads` when a read is clean.
* `Files`: the WebM file of a node with its one position.
* `Timecodes`, `Peers`, `Disk`, `Assembly`: a receiving peer and the file it writes. `Totals`:
  the counter it takes for the file's length.
* `Serving`, `Cursors`, `Streams`, `Senders`: sending from a file to children.
* `LiveFiles`, `Origins`: a file that grows, and the loops of the origin's main over it.
* `StatusMessages`, `TimeBases`, `Rebasing`, `Adoption`: the messages a parent's time base
  travels in, and where it matters what they leave of it.
* `Clips`, `Reception`, `RoundTrip`, `Relay`, `Hops`, `Broadcast`: the stream from end to end.
  `Repeats`: packets that come again.
* `NodeRuns`: every interleaving of what can happen to a relaying peer, as states. `PeerLoops`:
  its receive loop, which writes and sends with one position.
* `Membership`: slots, counters and the handlers as intended. `Handlers`: the handlers as
  written, and exactly when they do what is intended.
* `Overlay`, `NodeLists`: who is connected to whom, and who knows of whom.
* `Checksum`: the IP and UDP checksums.

Code that updates state is a class or a method with the source's loops, proved against a
function; the theorems are about that function. Files are byte strings with one position,
shared by reading and writing as in the source. The field `seq` is called `number` here.

## What the theorems rest on

* A cluster is a twelve byte header, one Timecode of at most eight value bytes, and only
  SimpleBlocks, followed by a Cluster or Cue ID (section 5.1.3 of RFC 9559). Each element, and
  the Timecode with the first SimpleBlock, has at most 255000 bytes. A total of 65536 is fine:
  the u16 length is only ever used modulo 2^16, and the first bound that matters is the u8
  piece counter (`Partition.PieceCountFits`).
* Cluster numbers fit a u16, and clusters and files fit the fields that hold their sizes.
* The packets of one stream arrive in order and without loss. Blocks of closed clusters may come
  again as far as the code drops them: IsOldBlockSeq compares with the last closed cluster, and
  for a block of that one with the number of the latest block, of whatever cluster. So it drops
  no duplicate inside the open cluster, and a late block of the last closed one that is further
  on than the open cluster gets through (`Repeats.RepeatIsHarmless`).
* Times of successive clusters do not decrease.
* Bytes behind a read buffer do not complete an ID or header that straddles its end
  (`Segmentation.Clean`). This is not automatic: the packet buffer ends exactly at the window,
  so the scan looks at the stack behind it; the origin's buffer is not cleared at all. Zeros
  behind the window are enough (`CleanReads.ClearMemory`).
* What a joining peer reads as its parent's time base is no hypothesis: it cancels out of the
  file (`Rebasing.FeedSame`, `Hops.PathDelivers`). Its own base register is right only if it
  read the base right, and the messages, which shift bytes as an int, carry bases below 2^31
  only (`Hops.PathBases`): 25 days of stream in milliseconds. When a node changes parents the
  base of the new one must be below 2^31 as well, or the Timecodes have at most four value
  bytes; `Adoption.ClusterReceived` proves that nothing weaker will do. `NodeRuns` and
  `PeerLoops`, which are about changes of parents, ask for both.
* The file of an origin grows as `LiveFiles.Growing` says: clusters are added at its end; a
  cluster that is all there has the next ID behind it; the final header of a Cluster, written
  over the unknown-size one, stays; and a file with less than a header behind its clusters
  holds one when it next grows. Without the last, the origin waits at a wrong place for ever
  (`LiveFiles.WaitingPosition`). Nobody joins an origin before its first cluster is whole.
* `CURRENT_CLUSTER->prev->seq` starts at 0. InitCluster (src/common/webm_parser.c:216-232)
  leaves it as malloc gave it.
* A parent that is a peer has closed a cluster before it takes a child, and a child starts at no
  cluster before the parent's first. A Connect from a node whose new parent has joined later
  than it can break that: `Streams.JoinedTooEarly`.
* TOTAL_FILE_BYTES is the length of the file. On a peer the code never adds the cluster headers
  (src/common/webm_parser.c:1397,1409,1479), so its counter falls behind by twelve bytes a
  cluster, and some sends read short: `Totals` proves by how much, which reads, and gives an
  input.
* The WebM header fits its packet. SendWebMHeader copies it into a buffer of 1019 bytes
  (src/common/p2p.c:529-555); the theorems ask for a u16 length only.
* Handlers and loop bodies are atomic steps.

## Where the code is not what it seems

* InitNodeStatus clears a copy (src/common/p2p.c:627-631), so a slot given up still shows its
  node, and NodeDepart does not look whether it is taken: a repeated Depart ruins the counters
  (`Handlers.DepartTwice`). `Handlers.DepartedCounted` gives the exact condition.
* The timeout arm takes a parent off the child counter (src/common/p2p.c:2609-2612):
  `Handlers.ExpiredCounted`.
* IsDuplicatedChild indexes the status table with the ID instead of the slot
  (src/common/p2p.c:1507), so NodeConnect takes most children twice: `Handlers.TestIsRight` and
  `Handlers.TakenTwice` give the exact conditions. An ID of 4 or more reads behind the table;
  what it finds there is a parameter.
* Depart with the origin's ID 0 matches empty slots, and NodeInitialStatus and NodeDetach change
  the parent's bit without looking at it: `Handlers.ParentCounted`. `Handlers.EveryRunCounted`
  and `Handlers.FirstUnguardedSpoils` say together which runs keep the counters.
* NodeInitialStatus adds the time base to what was there (src/common/p2p.c:1290-1292) and shifts
  an int: `StatusMessages.OffsetRoundTrip` gives the exact condition.
* UpdateClusterFromWebM never returns the status that would end main's outer loop
  (src/originsource/main.c:292), so the drain loop behind it, whose variable is not initialised,
  is never reached: after the last cluster children are served from the waiting loop
  (src/common/webm_parser.c:1215-1248).
* The wait for the rest of a cluster compares with a position remembered that its first send
  moves behind the header (src/common/webm_parser.c:1263), so from then on it waits for twelve
  bytes more than the cluster. A last cluster completed during that wait, with fewer than
  twelve bytes behind it, is never cut: `Origins.Origin.AwaitCluster`.
* The waiting loop seeks back twelve bytes however many it has read, and before it, while there are
  fewer than twelve, nobody is served (src/common/webm_parser.c:1211-1213).
* GetList does not advance (src/common/p2p.c:801-817), and GetCloestLayer returns the last
  entry's layer.
* An element with an unknown ID inside a cluster is refused without an error status
  (src/common/webm_parser.c:498-503).

## Model

| member | source | states |
|---|---|---|
| Words.FromToBE | src/common/webm_parser.c:381-393 | the bytes htonl, htons and the shift loops write denote the number again, for every width and every number that fits |
| Words.ToBEFromShifts | src/common/webm_parser.c:175-181 | bytes that are each the number shifted and masked are its big-endian form |
| Ebml.VintRoundTrip | src/common/webm_parser.c:76-107 | reading an encoded size gives the size back, for every width 1..8 and every value that fits (section 4 of RFC 8794), whatever follows in the buffer |
| Ebml.VintCanonical | src/common/webm_parser.c:76-107 | conversely every well-formed size field is the encoding of the value read from it |
| Ebml.VintValueBound | src/common/webm_parser.c:96-105 | no size overflows the u64 it is collected in, and fields of at most eight bytes stay below 2^56 |
| Ebml.ChankAtLocal | src/common/webm_parser.c:109-155 | GetChank depends on the bytes of the element header and on nothing behind it |
| Ebml.NoWrap | src/common/webm_parser.c:146-148 | header plus data length does not wrap unless the size field starts with a zero byte |
| Ebml.GetEBMLID | src/common/webm_parser.c:46-74 | the loop that finds the ID length and the one that collects its bytes compute the ID, cut to 32 bits |
| Ebml.GetWidth | src/common/webm_parser.c:48-60 | the bit scan finds the length: one more than the leading zero bits, nine for a zero byte |
| Ebml.GetDataBytes | src/common/webm_parser.c:76-107 | the two loops compute length and value of the size field |
| Ebml.GetChank | src/common/webm_parser.c:109-155 | the element header read, with eight one-bytes of size taken as unknown (section 6.2 of RFC 8794) |
| Ebml.ClusterHeaderReadsBack | src/common/webm_parser.c:163-190 | a twelve byte Cluster header whose seven size bytes were patched to n reads back as n exactly when n is not the unknown size |
| Ebml.FooterReadsEmpty | src/common/webm_parser.c:22-26 | the header written for an open cluster is the unknown-size one and is read as a cluster without data |
| Blocks.DecodeEncode | src/common/webm_parser.c:367-393 | decoding a descriptor's 18 bytes gives the descriptor back, whatever follows |
| Blocks.EncodeDecode | src/common/webm_parser.c:367-393 | any 18 bytes are the encoding of what they decode to |
| Blocks.FieldPlaces | src/common/webm_parser.h:127-141 | where the 18 bytes have each field, told by byte numbers: position 0-3, number 4-7, bytes 8-9, total bytes 10-11, cluster 12-13, then piece count, piece, status and layer, all most significant byte first; written as they are read |
| Blocks.NoSentinelCollision | src/common/webm_parser.c:1387-1400 | no descriptor of a real block is mistaken for the START or END marker |
| Segmentation.WindowIndependence | src/common/webm_parser.c:446-524 | two buffers that agree in the window, one of them cleanly scanned, are scanned alike if and only if the other is clean too: only an end ID, an accepted header or a wrap that straddles the window can let outside bytes matter |
| Segmentation.TurnById | src/common/webm_parser.c:470-516 | the scan by ID numbers: it ends at a Cluster or Cues, and takes a Timecode or SimpleBlock exactly if all of it fits the request |
| Segmentation.PieceFields | src/common/webm_parser.c:527-588 | the piece fields of every block made, whatever the descriptor held before |
| Segmentation.BytesIndependent | src/common/webm_parser.c:446-524 | as long as no header scanned has a size field starting with a zero byte, the bytes accepted never depend on what is behind the window, even when an end ID or a header straddles its end; only the status can |
| Segmentation.SplitId | src/common/webm_parser.c:446-524 | such an input: two buffers alike in the window, a Cluster ID split by its end in one of them; the status differs and nothing else |
| Segmentation.ScanBytes | src/common/webm_parser.c:470-516 | the bytes the scan accepts never exceed the request |
| Segmentation.Block.constructor | src/common/webm_parser.c:287-306 | InitBlock's descriptor and cursor |
| Segmentation.Block.ShiftToPreBlock | src/common/webm_parser.c:321-329 | the block made becomes the previous one, and the current one is cleared |
| Segmentation.Block.RenewBlock | src/common/webm_parser.c:332-357 | the cursor in front of the next cluster |
| Segmentation.Block.GetChankByBytes | src/common/webm_parser.c:446-524 | the element loop updates the descriptor and returns the status of the recursive scan |
| Segmentation.Block.AssignFirstPiece | src/common/webm_parser.c:527-575 | the fields of the first piece of an oversized unit |
| Segmentation.Block.AssignLaterPiece | src/common/webm_parser.c:527-575 | the fields of a later piece |
| Segmentation.Block.GetNextBlockByBytes | src/common/webm_parser.c:591-778 | the state machine over INIT, PIECE, SIMPLEBLOCK and BLOCK makes the block and status of NextBlock |
| Plan.CutInvariant | src/common/webm_parser.c:591-778 | one cut, told in element sizes: piece counters agree with the bytes left of the unit, at most 1000 bytes, no byte lost, an empty block only at the end, the end only with nothing left |
| Clusters.ScanIsGreedy | src/common/webm_parser.c:446-524 | over a well-formed cluster a clean scan takes exactly the elements that fit, and reports the end exactly when four more bytes fit |
| Clusters.NextBlockIsCut | src/common/webm_parser.c:591-778 | the byte-level machine refines the plan: in every cursor state it makes the block the sizes alone determine |
| CleanReads.ZerosAreClean | src/common/webm_parser.c:446-524 | with zeros behind the window every scan of a well-formed cluster is clean |
| CleanReads.ClearMemory | src/common/p2p.c:577-625 | with clear memory behind the packet buffer every read of every cursor is clean, so the cleanness hypotheses can be met |
| Partition.ExactPartition | src/common/webm_parser.c:591-778 | the blocks of a cluster are numbered 1..m, start at position 12, are contiguous, carry at most 1000 bytes each and exactly the payload in all; only the last may be empty |
| Partition.PieceAccounting | src/common/webm_parser.c:527-575 | a unit of T bytes up to 255000 becomes ceil(T/1000) blocks: pieces 1..n, 1000 bytes in all but the last, the last taking the rest and the whole elements that fit behind it, with status 3 exactly if elements or the end of the cluster follow the unit in its window, and else 1 |
| Partition.CutIsFull | src/common/webm_parser.c:591-778 | what every block is, by what fits: a unit is cut up exactly when what must start the block does not fit 1000 bytes, any other block ends only where the next element does not fit, and the end is told exactly when four more bytes fit behind the last element |
| Partition.PieceCountFits | src/common/webm_parser.c:541-546 | the recorded piece count of a unit, the Timecode in front of its element included, is the true one if and only if it has at most 255000 bytes |
| Partition.UnitTooLarge | src/common/webm_parser.c:541-708 | for every unit of more than 255000 bytes, the Timecode in front of its element included, and whatever is read: exactly as many full blocks as the wrapped count says are made, and with the last of them the machine takes the unit to be finished or the next block to be its last |
| Partition.BelievesWrongly | src/common/webm_parser.c:630-708 | beyond 255000 bytes that belief is right for one length only, 256000 |
| Timecodes.RestampKeepsShape | src/common/webm_parser.c:1354-1363 | writing a Timecode value back into its own bytes changes no length and no ID, and the value survives when it fits them |
| Timecodes.RetimedIsRelative | src/common/webm_parser.c:1341-1354 | while times are not below the node's base nothing wraps, and adding the base back gives the absolute time |
| Timecodes.PacketTimecode | src/common/webm_parser.c:1323-1376 | in a packet that starts with a Timecode exactly that element's value is rewritten |
| TimeBases.WrittenTime | src/common/webm_parser.c:1339-1365 | what a node writes into a Timecode of k bytes of a packet whose sender told it the base in a message is the absolute time less its own base if and only if the sender's base is below 2^31 or k is at most 4 |
| TimeBases.FirstBase | src/common/webm_parser.c:1341-1350 | the base a node takes from its first Timecode is the absolute time if and only if its parent's base is below 2^31 |
| TimeBases.LostBase | src/common/p2p.c:1289-1292 | the failing input: a parent with base 2^31, a packet at its start and an eight byte Timecode, stored as 2^64 - 2^31 |
| Files.WebM.constructor | src/originsource/main.c:278-280 | the file positioned behind its header |
| Files.WebM.ExportWebM | src/common/webm_parser.c:1062-1084 | bytes go to the file at the position, which moves behind them |
| Files.WebM.CheckWebMSize | src/common/webm_parser.c:1086-1125 | a look at the file: what it holds now, and whether it has grown |
| Files.WebM.SearchWebM | src/common/webm_parser.c:960-972 | the read at a position, cut short by the file's end |
| Files.WebM.ImportWebM | src/common/webm_parser.c:940-958 | although the amount asked for is reckoned from a stale position, the bytes read are those at the position up to the request or the file's end |
| Files.WebM.SeekABSWebM | src/common/webm_parser.c:984-996 | position and remembered position are the offset |
| Files.WebM.SeekRLTWebM | src/common/webm_parser.c:998-1009 | a relative seek |
| Peers.Peer.constructor | src/common/p2p.c:1307-1321 | a peer that has been told where its stream starts |
| Peers.Peer.UpdateClusterDataBytesToWebM | src/common/webm_parser.c:163-190 | seven size bytes are overwritten in place and the position restored |
| Peers.Peer.UpdateClusterToWebM | src/common/webm_parser.c:406-424 | pending bytes are summed into the open cluster and its size field |
| Peers.Peer.RenewClusterForWrite | src/common/webm_parser.c:271-285 | a cluster opens with a header of unknown size |
| Peers.Peer.InsertBlockToCluster | src/common/webm_parser.c:426-444 | a new cluster number closes the open cluster first; the payload is appended |
| Peers.Peer.ChangeTimecode | src/common/webm_parser.c:1323-1376 | the value is rewritten relative to the node's base, which the first one fixes |
| Peers.Peer.PrepareBlock | src/common/webm_parser.c:1436-1464 | first cluster noted, pending blocks flushed when MAX_BLOCKS_NUM is reached |
| Peers.Peer.StoreBlock | src/common/webm_parser.c:1471-1484 | the block is written and noted as pending |
| Peers.Peer.AssembleBlock | src/common/webm_parser.c:1378-1491 | the whole handler, arm by arm, has the effect of the function Assemble; which packets that leaves without effect, and which end the process, is Repeats.DroppedExactly and Assembly.WhenItStops |
| Peers.Peer.IsOldBlockSeq | src/common/webm_parser.c:1293-1321 | the comparison with the last closed cluster and the latest number; what it drops, told by clusters and blocks, is Repeats.DroppedExactly |
| Peers.ReadTimestamp | src/common/webm_parser.c:1330-1337 | the byte loop computes the value |
| Peers.WriteTimestamp | src/common/webm_parser.c:1358-1365 | the byte loop writes the value into the original bytes |
| Disk.FlushOnDisk | src/common/webm_parser.c:406-424 | a flush makes the open cluster's size field say what is on disk |
| Disk.RolloverOnDisk | src/common/webm_parser.c:426-440 | closing leaves the finished cluster under a header that tells its length |
| Disk.AppendOnDisk | src/common/webm_parser.c:1475-1484 | an append keeps counted plus pending bytes equal to the bytes written |
| Disk.EndOnDisk | src/common/webm_parser.c:1400-1419 | END leaves header, clusters under true headers, and a footer |
| Assembly.AcceptHolds | src/common/webm_parser.c:1422-1487 | one accepted block keeps the invariant and adds exactly its bytes to the open or a new cluster |
| Assembly.StartHolds | src/common/webm_parser.c:1387-1398 | START establishes the invariant |
| Assembly.FeedHolds | src/common/webm_parser.c:1378-1491 | sizes agree in every state reachable by packets, for every MAX_BLOCKS_NUM of at least 1: data_bytes plus pending equals the bytes behind the header, the pending count never exceeds the bound, and every closed cluster's size field tells its length |
| Assembly.WhenItStops | src/common/webm_parser.c:1323-1376 | a packet ends the process exactly if it is the END packet or the first block of a cluster, not old, that does not start with a Timecode, which is then not written |
| Serving.AtSection | src/common/webm_parser.c:1019-1050 | the file shows at each cluster its header, its payload and an end ID behind it |
| Serving.WalkLands | src/common/webm_parser.c:1029-1041 | walking headers lands exactly on each cluster |
| Cursors.OffsetIsNextByte | src/common/webm_parser.c:1019-1050 | CalOffset of a cursor is the file offset of the first payload byte not yet sent |
| Cursors.SendIsCut | src/common/p2p.c:577-625 | one send ships the planned descriptor and exactly the next payload bytes |
| Cursors.BehindIsRest | src/common/webm_parser.c:591-778 | what is behind a block is the rest of the unit and the elements after it |
| Cursors.CursorMoves | src/common/p2p.c:2501-2510 | unless it ended the cluster, a send leaves the cursor behind the bytes sent |
| Streams.RestStep | src/common/p2p.c:577-625 | the packets to come are the next packet and the packets to come after it |
| Streams.Join | src/common/p2p.c:1087-1090 | a new child's cursor is in order in front of any cluster, whether it is on file yet or not |
| Streams.JoinedTooEarly | src/common/webm_parser.c:1019-1041 | CalOffset counts the headers to pass over rightly if and only if the child's cluster is not before the node's first; otherwise the count wraps to nearly 2^32 and the child is due at once |
| Streams.Grow | src/common/webm_parser.c:426-440 | clusters added to the file disturb no cursor |
| Streams.SendKeepsChild | src/common/p2p.c:2492-2512 | a child is only served from clusters complete on file, and what it gets is the next packet of the stream |
| Streams.DueByPlace | src/common/webm_parser.c:1293-1321 | a child is due a packet if and only if the place of its last block, by cluster and then by number, is not past the latest block's number in the last closed cluster |
| Streams.SentIsPrefix | src/common/p2p.c:2480-2532 | whatever a child has been sent is a prefix of the stream from the cluster it joined at, the whole of it once its cursor is behind the last cluster |
| Streams.SendManyIsStream | src/common/p2p.c:2480-2532 | n sends yield the first n packets of the stream |
| Clips.ShownIsGood | src/common/webm_parser.c:1323-1376 | a payload stored with another time base has the same element sizes and tells the original time relative to that base |
| Clips.BlocksOfShape | src/common/webm_parser.c:591-778 | the partition theorem for the numbered payloads of a stream |
| Clips.PacketsAreTheClips | src/common/p2p.c:577-625 | whatever its time base, a node sends payload n as the origin's descriptors with the bytes at their places |
| Reception.FirstPacket | src/common/webm_parser.c:1323-1376 | the payload of a cluster's first packet starts with the whole Timecode and tells the absolute time less the sender's base; rewritten for another base it is the payload a node with that base would store |
| Reception.PacketShape | src/common/webm_parser.c:1378-1400 | every packet of the stream is a block, is no START or END marker, and carries its number, cluster and bytes |
| Reception.WrittenIsShown | src/common/webm_parser.c:1464-1476 | what AssembleBlock writes of a packet are the bytes of the payload relative to the node's own base |
| RoundTrip.FirstStep | src/common/webm_parser.c:1378-1491 | the first packet opens the stream and fixes the time base |
| RoundTrip.NextStep | src/common/webm_parser.c:1430-1484 | each further packet of a cluster is appended; none is dropped as old |
| RoundTrip.RollStep | src/common/webm_parser.c:426-444 | the first packet of the next cluster closes the one before |
| RoundTrip.StreamIsReceived | src/common/webm_parser.c:1378-1491 | feeding the packets of clusters first..last in order leaves exactly those clusters on file |
| Repeats.DroppedExactly | src/common/webm_parser.c:1293-1321 | in every state of a reception, with j blocks of cluster n in, block k of cluster m, with whatever base, is taken to be old if and only if m is before the last closed cluster, or is that one and k + 1 <= j; and then it changes nothing |
| Repeats.RepeatIsHarmless | src/common/webm_parser.c:1422-1487 | a block of any cluster but the open one leaves the peer as it was if and only if it is one of those; any other opens its cluster again |
| Repeats.OpenRepeatIsWritten | src/common/webm_parser.c:1293-1321 | a block of the open cluster is written whether it is there already or not, except in cluster 0 |
| RoundTrip.RoundTripFile | src/common/webm_parser.c:1400-1419 | END then leaves header, every payload under a header of its length, and the footer: the original bytes except the Timecode values |
| Rebasing.AssembleSame | src/common/webm_parser.c:1323-1376 | two states that differ in the base told and the base taken, but not in their difference once one is taken, differ no more after any packet: nothing else of the bases reaches the file |
| Rebasing.FeedSame | src/common/webm_parser.c:1378-1491 | the same for every run of packets |
| Adoption.PacketReceived | src/common/p2p.c:1789-1861 | a later packet of a cluster is received as it should be whatever base the parent told |
| Adoption.ClusterReceived | src/common/p2p.c:1840-1844 | the first packet of the next cluster is received as it should be if and only if its sender's base is below 2^31 or its Timecode has at most four value bytes |
| Adoption.FirstReceived | src/common/p2p.c:1289-1292 | the first packet a joining node gets fixes its base register: rightly if and only if the base its parent told is below 2^31 |
| Adoption.StreamReceived | src/common/webm_parser.c:1323-1491 | a joining node that is fed a stream has it on file, relative to the time of the first cluster, whatever it read as its parent's base; its own base register is that time plus what it read less the base sent, and so right if and only if it read the base sent |
| Relay.PeerServes | src/common/p2p.c:2480-2532 | a peer's own file serves the clusters it has closed |
| Relay.CarriedStream | src/common/p2p.c:577-625 | what a node that carries the stream sends is the live stream relative to its own base |
| Hops.OneHop | src/peer/main.c:74-122 | a peer that joins a serving node, reads its base as whatever number and is sent as many packets as the clusters have, holds exactly those clusters relative to the right base; its base register is right if and only if it read the sender's base |
| Hops.PathDelivers | src/common/p2p.c:2480-2532 | by induction on the number of hops, for every path and every sequence of bases read: the last peer holds exactly the stream's clusters relative to the time of its first, and its base register is that time if and only if it read the base of what it was sent |
| Hops.PathBases | src/common/p2p.c:1213-1352 | where the peers read what the messages carry of their parents' registers and the bases before were below 2^31, the last register is right if and only if the base of what the peer was sent is below 2^31 too |
| Hops.RelayTransparency | src/common/webm_parser.c:591-778 | any two nodes that hold a cluster send it as the same packets (number, position, bytes, status, piece fields, cluster number and data), except for the Timecode value |
| NodeRuns.EveryRunInOrder | src/peer/main.c:114-198 | over every interleaving of packets received from any parent whose base, as told in the message, does the packet no harm, of blocks of closed clusters received again, and of joins, departures and sends, the peer's file is what the stream makes it, and every child has been sent whole consecutive clusters and a prefix of the next |
| NodeRuns.OpensInOrder | src/peer/main.c:74-122 | such states are reached: a peer that joins, is told a base below 2^31 and is fed its first cluster and one packet more is in one |
| NodeRuns.NextClusterInOrder | src/common/p2p.c:1840-1844 | from every state reached, the next cluster's first packet keeps the node in order if and only if its sender's base is below 2^31 or the Timecode has at most four value bytes |
| NodeRuns.CursorOffset | src/common/webm_parser.c:1019-1050 | in each such state CalOffset of a child with something pending is its first unsent payload byte, in a closed cluster |
| NodeRuns.AbsoluteTime | src/common/webm_parser.c:1339-1365 | in every state so reached stored time plus the node's base is the origin's time for every stored cluster, across changes of parent, and no value lost a byte |
| PeerLoops.PeerLoop.constructor | src/common/p2p.c:1307-1321 | a peer and its sending side on one file, in the state the Initial Status message leaves, which is a good one |
| PeerLoops.PeerLoop.HandlePacket | src/peer/main.c:116-122 | AssembleBlock with children connected: what it appends and closes disturbs no cursor on the same file |
| PeerLoops.PeerLoop.HandleRepeat | src/peer/main.c:116-122 | a block that comes again from a cluster the peer has closed changes nothing |
| PeerLoops.PeerLoop.HandleSetup | src/common/p2p.c:1087-1128 | a newcomer gets the first free slot, in front of the last closed cluster, and no other child is touched |
| PeerLoops.PeerLoop.HandleConnect | src/common/p2p.c:1592-1594 | a child from another parent gets the first free slot, behind the clusters it has |
| PeerLoops.PeerLoop.HandleAccept | src/common/p2p.c:1840-1844 | the new parent's base, as its message tells it, is installed |
| PeerLoops.PeerLoop.Serve | src/peer/main.c:192-198 | SendMulStream on the same position sends every child that is due its next packet and leaves the position at the end of the file, where AssembleBlock writes on |
| PeerLoops.PeerLoop.Handle | src/peer/main.c:74-190 | every message keeps file, position and cursors good, and changes no slot but the one it fills or frees |
| PeerLoops.PeerLoop.Turn | src/peer/main.c:6-198 | one turn of the receive loop: the children are those the message leaves, and each gets one packet exactly if the peer plays and its last block, or the start of its stream, is not past the latest block of the last closed cluster in the order of the stream |
| PeerLoops.PeerLoop.Receive | src/peer/main.c:6-198 | over every run of the receive loop on one file with one position, blocks that come again included, from a new peer or any state such runs reach, the peer holds what the stream makes it, the position is the end, and every child's cursor is in order on the clusters closed |
| PeerLoops.StreamFits | src/peer/main.c:74-122 | such runs exist for every clip and length: the header and then the packets of the stream in order, for any base below 2^31 |
| Broadcast.OriginCarries | src/originsource/main.c:278-327 | an origin's file, under whatever headers tell its clusters' lengths, carries its stream at time base 0 |
| Broadcast.ZerosAlwaysClean | src/common/p2p.c:594-606 | clear memory behind the packet buffers satisfies the cleanness hypothesis of every node on a path |
| Broadcast.MarkersAreRead | src/common/p2p.c:529-555 | the packet with the WebM header starts the stream and the END packet ends it |
| Broadcast.HypothesesMet | src/originsource/main.c:278-327 | the hypotheses of the end-to-end theorem are met by a one-cluster stream and one peer |
| Broadcast.EndToEnd | src/common/webm_parser.c:1378-1491 | for every header, every stream of well-formed clusters and every path of peers, whatever they read as their parents' time bases, the last peer is left with the header, then per cluster a true twelve byte header and the original payload with only the Timecode value replaced by the time relative to where it joined, and the footer |
| Senders.Sender.constructor | src/common/webm_parser.c:308-319 | a node without children, positioned behind its header |
| Senders.Sender.CalOffset | src/common/webm_parser.c:1019-1050 | the header-walking loop computes the offset |
| Senders.Sender.SendCacheBlock | src/common/p2p.c:577-625 | seek, read into a cleared buffer, cut and ship: the packet and status of Send |
| Senders.Sender.ServeSlot | src/common/p2p.c:2490-2520 | one slot of the loop: a child that is due gets its next packet, and counts as idle if and only if its last block is past the latest one in the order of the stream; every cursor stays in order |
| Senders.Sender.SendMulStream | src/common/p2p.c:2480-2532 | every child whose last block is at or before the latest one, in the order of the stream, gets its next packet and every one past it nothing; file and position are unchanged, every cursor stays in order, and 0 is returned exactly when no child was due |
| Senders.Sender.StreamRound | src/common/p2p.c:2480-2532 | every child that is due gets its next packet and no other anything; a round that returns 1 brings some child closer to the end, one that returns 0 finds no child due, so the rounds left until then go down |
| Senders.Sender.Drain | src/originsource/main.c:329-334 | the loop behind the outer one, which the program never reaches, would end with every connected child served the whole stream since it joined |
| Senders.Sender.BacklogBound | src/common/p2p.c:2480-2532 | no more rounds are left than twice the packets on file |
| Senders.Sender.Admit | src/common/p2p.c:1087-1090 | a new child's cursor is in front of the last closed cluster; other children are untouched |
| Senders.Sender.Readmit | src/common/p2p.c:1592-1594 | a child from another parent goes on behind the clusters it has, also when that is behind the end of the file |
| Senders.Sender.Release | src/common/p2p.c:1674-1692 | a child that leaves disturbs no other |
| Senders.IdleIsAtEnd | src/common/webm_parser.c:1293-1321 | after the last cluster a child that IsOldBlockSeq no longer serves has been sent everything |
| LiveFiles.WaitingPosition | src/common/webm_parser.c:1215-1248 | over every run of waiting turns on a growing file the position is in front of the header if and only if the first read found twelve bytes; after a short first read it stays twelve bytes before where that read ended |
| LiveFiles.ShortRead | src/common/webm_parser.c:1219-1245 | the failing input: a header at 100 with four bytes there at the first look is waited for at 92 |
| LiveFiles.CompleteFile | src/common/webm_parser.c:1200-1291 | a complete file with a footer or Cues behind its clusters meets the growth hypotheses |
| LiveFiles.ClusterComes | src/common/webm_parser.c:1200-1291 | so does a file that grows by a whole cluster, whose final header overwrites the footer that was there |
| LiveFiles.ZerosAreCleanMoments | src/common/p2p.c:557-575 | zeros in the read buffer and behind the packet buffers meet the cleanness hypotheses of every run |
| LiveFiles.FinalBytes | src/common/webm_parser.c:1219-1235 | the wait for a header ends, told in bytes, exactly at a Cluster ID that is not followed by the unknown size |
| Origins.ReadStep | src/common/p2p.c:557-575 | a read at the origin's own cursor cuts the planned block; the last one ends just before the next header with all blocks counted |
| Origins.Origin.constructor | src/originsource/main.c:276-288 | main up to its loops, over a file of which only the header and the next ID need be there |
| Origins.Origin.ReadBlock | src/common/p2p.c:557-575 | the read and the block it cuts |
| Origins.Origin.SeekForNextBlock | src/common/webm_parser.c:1011-1017 | the position moves behind the block cut |
| Origins.Origin.Serve | src/originsource/main.c:305-305 | SendMulStream sends every child that is due its next packet, leaves the position alone and every cursor in order, and fewer rounds are left |
| Origins.Origin.Arrive | src/common/p2p.c:1044-1147 | what the other thread does: a newcomer gets the first free slot and its cursor, a node that leaves frees its own, and no other child is touched |
| Origins.Origin.Look | src/common/webm_parser.c:1086-1125 | a look at the file that has grown disturbs no cursor |
| Origins.Origin.AwaitGrowth | src/common/webm_parser.c:1211-1213 | the wait for the file to grow at all, in which no child is served: it ends with the first growth |
| Origins.Origin.WaitTurn | src/common/webm_parser.c:1215-1248 | one turn of the waiting loop from any position: the test on what was read over the bytes left from the turn before; if it fails, children are sent to by the place of their last block, whoever arrives is taken in, and the position after the seek back is exact |
| Origins.Origin.AwaitHeader | src/common/webm_parser.c:1215-1248 | the waiting loop: in front of the next header in every turn, or just behind it; a header of a cluster on file is found by the next turn; while nobody comes or goes and no cluster is added each turn brings the children closer to the end |
| Origins.Origin.RenewClusterForRead | src/common/webm_parser.c:250-269 | the header found is regular, and the cluster gets the next number |
| Origins.Origin.AwaitCluster | src/common/webm_parser.c:1257-1287 | the second wait ends if and only if the cluster is all there at once, or is later with twelve bytes more behind it, because the position remembered has moved behind the header; when it ends the cluster is all there |
| Origins.Origin.UpdateClusterFromWebM | src/common/webm_parser.c:1200-1291 | a cluster on file at the call is found; one that is found is whole, gets the next number and the cursor is at its start; if none is found, there was none at the start of the last wait nor, with a header's length behind it, at its last turn, and with twelve bytes to read and nobody coming or going enough turns leave no child due |
| Origins.Origin.NextOfCluster | src/originsource/main.c:296-311 | one turn of the inner loop: the block's number becomes the latest, every child at a place up to it in the last closed cluster is sent its next packet and one past it nothing, whoever arrives is taken in, and the next block is cut |
| Origins.Origin.CloseCluster | src/originsource/main.c:313-325 | the cluster is closed with the number of its blocks as the latest |
| Origins.Origin.SendCluster | src/originsource/main.c:294-325 | one cluster: a round of sends for each block but the last, then the cluster is closed with their number and the position is in front of the next header, over any joins and departures meanwhile |
| Origins.Origin.StreamCluster | src/originsource/main.c:292-327 | one turn of the outer loop: a cluster on file is found and sent; otherwise the wait lasted as long as it may, for nothing |
| Origins.Origin.StreamFile | src/originsource/main.c:292-327 | the outer loop over a growing file streams every cluster that is there: it ends behind the number asked for, or after a wait that began behind all clusters on file and found none; and if nobody came or went during that wait and it was long enough, every child still connected has been sent all packets since it joined |
| Origins.StreamCompleteFile | src/originsource/main.c:276-327 | main on a complete file: all its clusters are streamed and the last is closed with its block count, and then every child connected is sent everything from where it joined to the end |
| HeaderScan.StopsAtCluster | src/common/webm_parser.c:780-882 | whenever a WebM header is followed by a Cluster in the buffer, the walk stops exactly there |
| HeaderScan.StopsBehindHeader | src/common/webm_parser.c:780-882 | with regular size fields, a WebM header lies in front of the place the walk stops at |
| HeaderScan.FindsExactly | src/common/webm_parser.c:780-882 | with regular size fields the walk finds a place if and only if a WebM header fills the buffer up to it and a Cluster starts there |
| HeaderScan.UnknownExactly | src/common/webm_parser.c:780-882 | the walk ends with status -2 if and only if header parts lead up to an element whose ID, told as a number, is none of the seven known |
| HeaderScan.TooLongExactly | src/common/webm_parser.c:851-856 | with status -1 if and only if they lead up to a known element longer than the file, other than a Segment of known size |
| HeaderScan.NothingExactly | src/common/webm_parser.c:792-792 | and with 0 if and only if they lead up to a zero byte |
| HeaderScan.ElementIsPart | src/common/webm_parser.c:796-836 | EBML, SeekHead, Void, Info and Tracks elements, told by the bytes of their IDs, are parts of a header for every length of data and every width of its size |
| HeaderScan.EveryHeaderIsWalked | src/common/webm_parser.c:780-882 | any sequence of such elements and Segment heads in front of the bytes of a Cluster header is walked to that Cluster |
| HeaderScan.SegmentHeadIsPart | src/common/webm_parser.c:802-816 | Segment headers of known and of unknown size are both accepted |
| HeaderScan.AnalyzeChankToWebMHeader | src/common/webm_parser.c:780-882 | the loop returns 1, -1, -2 or 0 as the walk ends, and the header length modulo 2^16 |
| Totals.CounterLags | src/common/webm_parser.c:1378-1491 | over every run of blocks TOTAL_FILE_BYTES is behind a peer's file by exactly twelve bytes for each cluster opened |
| Totals.CounterFromStart | src/common/webm_parser.c:1387-1398 | from the header packet on |
| Totals.ReadsShort | src/common/webm_parser.c:960-972 | a read of a block gets less than there is if and only if the counter is ahead of the place by less than 1000 bytes and not behind it |
| Totals.LosesBytes | src/common/webm_parser.c:960-972 | so a peer misses bytes of its last closed cluster if and only if the bytes of the open one do not make up for the headers not counted, but with the bytes left they do |
| Totals.ShortBlock | src/common/webm_parser.c:1397-1479 | the failing input: a cluster of 500 bytes behind which one byte has come is read as 489 |
| Checksum.TwoFolds | src/common/p2p.c:140-144 | two folds leave sixteen bits congruent to the sum modulo 65535, zero only for a zero sum |
| Checksum.SumBound | src/common/p2p.c:106-131 | the u32 sum of 65535 bytes and a pseudo header does not overflow |
| Checksum.ChecksReceived | src/common/p2p.c:133-175 | storing the checksum in the zeroed field makes recomputation return 0 |
| Checksum.OrderIndependent | src/common/p2p.c:106-175 | the result on little-endian words puts the same bytes on the wire as RFC 1071's computation in network order, for even and odd lengths |
| Checksum.EveryByteCounts | src/common/p2p.c:106-131 | every byte counts once in either sum, at an even place as the high byte of its word in network order and as the low one on the host |
| Checksum.CalSumEach16bit | src/common/p2p.c:106-131 | the loop computes the sum of the words |
| Checksum.CalIPChecksum | src/common/p2p.c:133-151 | the complement of the folded sum |
| Checksum.CalL4Checksum | src/common/p2p.c:153-175 | the same over pseudo header and buffer as one |
| Bits.PlusSetsBit | src/common/p2p.c:1128-1128 | adding the value of a clear bit sets that bit and carries nothing |
| Bits.MinusClearsBit | src/common/p2p.c:1680-1680 | subtracting the value of a set bit clears that bit and borrows nothing |
| Membership.FreeSlotFound | src/common/p2p.c:1012-1042 | CheckChildNum returns a free slot, the first, exactly when one exists |
| Membership.FreeSlotByCounter | src/common/p2p.c:1012-1042 | whatever the counter says, right or wrong, CheckChildNum returns the first free slot exactly when the counter is below two and there is one |
| Membership.DrawReachesAll | src/common/p2p.c:920-965 | GenerateRndID(0, n+1) is the node itself or a connected child, and each of them for some random value; GenerateRndID(1, n) is a child |
| Membership.DrawIsRanked | src/common/p2p.c:920-965 | whom a draw names, for every random value: from 0 on, the node itself exactly for remainder 0 and else the child before which there are remainder - 1 others; from 1 on, the child before which there are remainder others |
| Membership.AddParentSound | src/common/p2p.c:1331-1332 | NodeInitialStatus keeps the counters sound if and only if there was no parent |
| Membership.DropParentSound | src/common/p2p.c:1747-1747 | NodeDetach keeps them sound if and only if there was one |
| Membership.ParentBits | src/common/p2p.c:1850-1852 | Accept, Initial Status and Detach change the parent's bit and nothing else |
| Membership.SetupAnswers | src/common/p2p.c:1044-1147 | NodeSetup admits, into the first free slot, exactly when the draw is the node itself, the cache suffices and there is room; otherwise the newcomer is sent to the child the remainder of the first draw names, back for want of cache, or for want of room to the child the remainder of the second draw names |
| Membership.DepartSound | src/common/p2p.c:1654-1698 | the intended departure, which clears the slot, keeps the counters sound if and only if no empty slot shows the ID |
| Membership.ConnectAnswers | src/common/p2p.c:1548-1621 | the intended Connect, which compares with the children's own IDs, admits exactly when the cache suffices, there is room and the node is no child yet |
| Membership.DepartFrees | src/common/p2p.c:1654-1698 | the intended departure frees exactly the child slots with the ID and changes no other slot |
| Membership.ExpireFrees | src/common/p2p.c:2596-2624 | the intended timeout frees its slot and no other |
| Membership.EveryRunSound | src/common/p2p.c:1044-1147 | over every run of the intended handlers the counter is the number of child bits and the slots are sound |
| Handlers.TestIsRight | src/common/p2p.c:1498-1516 | the duplicate test as written answers rightly if and only if: where the status its ID selects carries that ID, there is no child or the node is one; otherwise, the node is no child |
| Handlers.ChildSeen | src/common/p2p.c:1498-1516 | in a sound state the only child the test sees is node 1 in slot 1, or one that shares its ID with the parent, the node itself or what lies behind the table |
| Handlers.ConnectedAnswers | src/common/p2p.c:1548-1621 | NodeConnect as written admits exactly when the cache suffices and there is no child, or one child and the status selected does not carry the ID; the slot then holds the node, and nothing else changed |
| Handlers.TakenTwice | src/common/p2p.c:1498-1621 | an only child that connects again is taken into both slots if and only if the status its ID selects does not carry it |
| Handlers.FirstChildTakenTwice | src/common/p2p.c:1498-1621 | the failing input: node 1 in the first slot |
| Handlers.DepartedCounted | src/common/p2p.c:1654-1698 | NodeDepart as written, which clears no slot, keeps counter and bits in agreement if and only if every child slot that shows the ID is taken |
| Handlers.DepartedFrees | src/common/p2p.c:1654-1698 | then exactly those slots are given up |
| Handlers.DepartTwice | src/common/p2p.c:627-631 | the failing input: a repeated Depart leaves a count of -1 and a borrow through all bits |
| Handlers.ExpiredCounted | src/common/p2p.c:2596-2624 | the timeout arm as written keeps them if and only if it was not the parent that timed out |
| Handlers.ExpiredFrees | src/common/p2p.c:2596-2624 | it frees its slot and no other |
| Handlers.ParentCounted | src/common/p2p.c:1331-1332 | NodeInitialStatus keeps them if and only if there was no parent, NodeDetach if and only if there was one |
| Handlers.StepCounted | src/common/p2p.c:1044-1147 | a step of any handler as written keeps them if and only if it meets the guard the handler lacks |
| Handlers.EveryRunCounted | src/common/p2p.c:1044-1147 | over every run of guarded steps the counter is the number of child bits, stays in 0..2, and CheckChildNum finds a slot exactly when it is below 2 |
| Handlers.FirstUnguardedSpoils | src/common/p2p.c:1044-1147 | and the first unguarded step of any run spoils them |
| Handlers.Roster.CheckChildNum | src/common/p2p.c:1012-1042 | the loop finds the first free slot |
| Handlers.Roster.GenerateRndID | src/common/p2p.c:920-965 | the loop finds the drawn child; which one that is, is Membership.DrawIsRanked |
| Handlers.Roster.NodeSetup | src/common/p2p.c:1044-1147 | redirect, self-redirect, admission or second draw, and the slots after it; whom each names is Membership.SetupAnswers |
| Handlers.Roster.NodeConnect | src/common/p2p.c:1548-1621 | refusal, silence or admission, as written |
| Handlers.Roster.IsDuplicatedChild | src/common/p2p.c:1498-1516 | the loop over the slots compares the ID with the status it selects |
| Handlers.Roster.NodeDepart | src/common/p2p.c:1673-1692 | bit and counter go down for every child slot that shows the ID |
| Handlers.Roster.ExpireSlot | src/common/p2p.c:2596-2624 | bit and counter go down for whoever timed out |
| Handlers.Roster.NodeInitialStatus | src/common/p2p.c:1331-1332 | the parent's bit is added unseen |
| Handlers.Roster.NodeAccept | src/common/p2p.c:1848-1857 | the parent's bit is set unless it is |
| Handlers.Roster.NodeDetach | src/common/p2p.c:1747-1747 | the parent's bit is subtracted unseen |
| Overlay.OneParent | src/common/p2p.c:1100-1119 | in the overlay a node has exactly one parent and one slot of it |
| Overlay.Reachable | src/common/p2p.c:1044-1147 | every node is reached from the origin by child links, in as many steps as its depth |
| Overlay.RedirectsAreDepth | src/common/p2p.c:1368-1495 | each redirect goes one layer down, so the node that admits lies as deep as there were redirects |
| Overlay.JoinEnds | src/common/p2p.c:1044-1147 | a join ends after as many answers from nodes with a sufficient cache as the tree is high and one more, however often a node sends the newcomer back to itself in between |
| Overlay.JoinKeepsTree | src/common/p2p.c:1285-1364 | a join keeps the overlay a tree and puts the node one layer below its parent |
| Overlay.EveryOverlayIsTree | src/common/p2p.c:1044-1147 | after any sequence of joins the overlay is a tree with at most two children a node and layers equal to depths |
| NodeLists.HeardRooted | src/common/p2p.c:1339-1352 | a message keeps IDs distinct and the origin first; IDs listed keep their places and new ones go to the tail |
| NodeLists.HeardContains | src/common/p2p.c:1468-1481 | after a message exactly the IDs listed before or named in it are listed |
| NodeLists.HeardKeeps | src/common/p2p.c:1468-1481 | Initial Status and Advertise messages change nothing known of a listed node |
| NodeLists.HeardFirst | src/common/p2p.c:1468-1481 | and a node not listed before is known by the first entry the message gives of it |
| NodeLists.HeardUpdates | src/common/p2p.c:2213-2238 | after a Responce List message the last status given of a node is all that is known of it |
| NodeLists.EveryListRooted | src/common/p2p.c:2221-2234 | the same over every sequence of messages |
| NodeLists.EndsAtHead | src/common/p2p.c:801-817 | GetList's loop, which never moves on, ends if and only if the list is empty or its head has the ID |
| NodeLists.OriginIsFound | src/common/p2p.c:1755-1757 | so over every sequence of messages the search for the origin ends |
| NodeLists.RefusedShrinks | src/common/p2p.c:1894-1941 | a refusal strictly shrinks the nodes that may be asked, and none excepted is asked |
| NodeLists.WhoIsAsked | src/common/p2p.c:1894-1941 | after a refusal the origin is asked if and only if every entry in the layer of the last one listed is excepted, is the refuser, or is the node itself at a first refusal; otherwise the first such entry left is asked, and the refuser is excepted |
| NodeLists.ChainIsShort | src/common/p2p.c:1894-1941 | at most as many refusals in a row as there are nodes to ask, none from a node twice, before the origin is asked with a clean list |
| NodeLists.ChainAsksAll | src/common/p2p.c:1894-1941 | while everyone refuses, exactly the entries that may be asked are, each once and in the order of the list, before the origin |
| NodeLists.NodeTable.IsListContains | src/common/p2p.c:633-653 | the search loop |
| NodeLists.NodeTable.ListUpdate | src/common/p2p.c:707-729 | the update loop replaces exactly the entries with the ID |
| NodeLists.NodeTable.LearnNodes | src/common/p2p.c:1468-1481 | the list loop of Initial Status and Advertise |
| NodeLists.NodeTable.NodeResList | src/common/p2p.c:2213-2238 | the loop of Responce List |
| NodeLists.NodeTable.GetCloestLayer | src/common/p2p.c:752-771 | the layer computed is the last entry's |
| NodeLists.NodeTable.GetPriorList | src/common/p2p.c:773-799 | the first entry of that layer that is not excepted |
| NodeLists.NodeTable.ExceptListPush | src/common/p2p.c:849-884 | the first push also excepts the node itself |
| NodeLists.NodeTable.GetList | src/common/p2p.c:801-817 | within any number of turns the loop ends exactly when the head has the ID |
| NodeLists.NodeTable.NodeUnaccept | src/common/p2p.c:1894-1941 | the next node asked, or the origin with the exception list cleared |
| NodeLists.NodeTable.NodeAccept | src/common/p2p.c:1848-1857 | the layer follows the parent's and the exception list is cleared |
| StatusMessages.StatusRoundTrip | src/common/p2p.c:2332-2376 | a node status survives its 30 bytes, for full-range fields |
| StatusMessages.StatusPlaces | src/common/p2p.c:2332-2376 | where the thirty bytes have each field, told by byte numbers |
| StatusMessages.OffsetRoundTrip | src/common/p2p.c:1289-1292 | a time base survives if and only if it is below 2^31 and the receiver's accumulator was zero |
| StatusMessages.AcceptRoundTrip | src/common/p2p.c:1789-1861 | the Accept message carries status and time base, the latter if and only if below 2^31 |
| StatusMessages.ToldIs | src/common/p2p.c:1289-1292 | what a node makes of a base below 2^32 told to it is that base, sign extended from 32 bits, and so the base itself if and only if below 2^31 |
| StatusMessages.MessagesTell | src/common/p2p.c:1789-1861 | both the Initial Status and the Accept message tell exactly that |
| StatusMessages.DeclaredIsWritten | src/common/p2p.c:1237-1277 | as many entries are written as declared if and only if the child counter is right |
| StatusMessages.InitialStatusRoundTrip | src/common/p2p.c:1213-1352 | the new child reads the time base, its own status, its parent's and the list its parent wrote |
| StatusMessages.InitialStatusPlaces | src/common/p2p.c:1230-1277 | where the message has what: time base in bytes 0-7, the new child's status in 8-37, the node's own in 38-67, then the other child's and the parent's, those that are connected |
| StatusMessages.AsLongAsDeclared | src/common/p2p.c:1237-1279 | with a wrong child counter the message is as long as declared all the same: entries beyond that are cut off, and behind too few of them are zeros |
| StatusMessages.ListRead | src/common/p2p.c:1337-1349 | the reader takes every thirty bytes from byte 68 on for a status of the list |
| StatusMessages.SendInitialStatus | src/common/p2p.c:1213-1283 | the loops write that message |
| StatusMessages.WriteOffset | src/common/p2p.c:1230-1233 | eight bytes, least significant first |
| StatusMessages.WriteEntries | src/common/p2p.c:1251-1277 | the entries in slot order, without the new child and the node itself |

## Left out

- Sockets, raw Ethernet and ARP, interface discovery, gateway lookup and UPnP: system calls and string formatting.
- Filling in packet header fields, apart from the two checksum functions.
- Wall-clock logic: a timeout is a step that may happen to any connected slot; whether the cache suffices is an input.
- Threads and data races: each handler and loop body is one step.
- stdio buffering, closing and reopening of files: what a node can read is what the last look at the file's size found.
- The wait for the WebM header: the origin starts with the header and the first Cluster ID on file.
- Waits without end: the model's waiting loops run for any number of turns given.
- Floating point: the piece count is the exact quotient rounded up; the source divides doubles, which differ only for lengths beyond 2^53.
- The random generator: what rand returns is an arbitrary natural number.
- Playback accounting, keep-alive messages, printing, signals and exit paths other than END and the Timecode error.
- Elements inside a cluster other than a leading Timecode and SimpleBlocks: the scan and the state machine are modelled on all bytes, but the stream theorems are about well-formed clusters.
- The scan on buffers where its u64 position wraps, and the last piece of a unit whose length does not fit the request: the functions report these, and the methods are specified where they do not occur.
- The list of nodes as linked cells: NODES_LIST and EXCEPT_LIST are sequences reassigned in place, so freed cells and sharing are not modelled.
- Clusters lost between Detach and Connect, and IDs given out to joins that overlap: the code keeps no clean guarantee there.
- The choice of the prior node as closest: the code does not choose the closest.
- Senders.Sender.Drain: starts with its variable at 1; the program never gets there.
- NodeRuns.EveryRunInOrder: the sends of a peer are steps that leave its file position alone; PeerLoops.PeerLoop.Receive is the same with the position they share.
- PeerLoops.PeerLoop.Receive: children leave by any message or timeout as one kind of step; which slots a Depart frees is Handlers.DepartedFrees.
- Origins.Origin.StreamFile: children are shown to be complete only if nobody has come or gone during the last wait.
- Senders.Sender.Readmit: asks that the child's next cluster is not before the node's first; what happens otherwise is Streams.JoinedTooEarly.
- Relay.PeerServes: reads see the whole file; which ones the peer's own counter cuts short is Totals.ReadsShort.
- Membership.EveryRunSound: is about the handlers as intended; Handlers.EveryRunCounted is about those of the source.
- Overlay.EveryOverlayIsTree: joins do not overlap, no Setup message is sent twice, and nobody leaves.
- HeaderScan.AnalyzeChankToWebMHeader: is specified where the walk stays inside the buffer and its position does not wrap.
