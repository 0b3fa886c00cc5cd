# A verified model of a streaming BitTorrent engine

Tiramisu streams torrents: a patched BitTorrent engine downloads the pieces a player needs next, and a
read-ahead cache filled by a pump serves the player's reads. This project models the parts where that engine
keeps shared state consistent, and proves what they promise for every input, every run and, where goroutines
meet, every interleaving of their steps.

`dafny verify dfyconfig.toml` checks everything.

## The parts

- **Requests.** Who was asked for which block (`Peers`, `Requests`), which pieces are wanted and why (`Wanted`),
  and the whole torrent as a state machine (`Swarm`, `SwarmSafety`, `SwarmRuns`, `ReaderRuns`). `SwarmLaws` and
  `EventLaws` say what every event makes of each block, piece and connection, and what follows for runs. `Torrents` is
  the same in place, on objects, from its constructor on; each of its operations is proved to do what the state
  machine's step does, one update of a connection's requests what a run of Ask steps does, and every panic of the
  source is a branch proved dead. `Stealing` proves that peers cannot ask for and steal blocks from each other for ever.
- **Bytes.** Pieces, chunks and request indexes (`Layouts`), and scans of the dirty bitmap (`Ranges`).
- **Availability.** Counts of the peers that hold a piece (`Availability`, `AvailabilityCounts`), and what a peer is
  taken to have (`PeerPieces`).
- **Cache and pump.** The cache as values (`CacheModel`), under interleaving (`CacheRuns`), with the buffers the
  interleaved stores share (`BufferRuns`) and over recycled arrays (`ReadAhead`); the pump as values (`Pump`) and
  over that cache (`NativePump`).
- **Exchange and checks.** Peer exchange (`Pex`, `PexFeed`) and the block checks of smart banning (`SmartBan`).
- **Control loops.** The windowed minimum latency (`Latency`), the Gradient2 limit (`Gradient`), the hedge
  breaker (`Breaker`) and the hedging scan over it (`Hedging`).

## What the code does not keep

- Have None after Have All leaves the peer among the seeds: the seeds stay exact iff it had not sent Have All
  (`Availability.HaveNoneKeeps`). The pieces such a peer announces stay in the counts when it closes, and are missing
  from them if they come before the info. So a count is off by a balance: up by these leaks and by peers counted
  without having the piece, down by the seeds that were not counted (`Availability.RunBalance`). The closing assertion
  that all counts are zero holds iff every balance is nought (`Availability.TeardownIff`), and peers can drive the
  counts to a panic iff some balance is negative (`Availability.RunPanicFreeIff`). `Availability.HaveNoneLeak` and
  `Availability.EarlyHaveNonePanics` are a run of each kind.
- A bitmap sent before the info that has the right number of bits, some of them out of range, is counted as a
  full one and then trimmed: the counts are right iff there is none (`Availability.GotInfoKeeps`). Dropping such a
  peer before the trim panics, and no other drop does (`Availability.DropsSafe`, `Availability.EarlyBitfieldPanics`).
- Peer exchange keys an IPv4 address and its 4-in-6 form apart but sends them alike: a message is wrong iff it
  drops one form while the other stays live (`Pex.ReceiveIff`, `Pex.RunTellsIff`), which happens
  (`Pex.TwoFormsHide`).
- The breaker's timer writes its two fields one after the other without the lock: the second write forgets the
  hedges its window has already sent. The 30-a-window bound holds throughout a run iff no second write comes inside
  a window that has sent something (`Breaker.TightRun`); a run from a new breaker sends 60 (`Breaker.RaceSendsSixty`),
  and every run stays within 30 more for each such write (`Breaker.WindowBound`).
- `chunkIndexSpec` is right iff its 32-bit sum does not wrap (`Layouts.ChunkIndexSpecWrap`).
- An adapted steal grace can be below the configured one iff that is above 250 ms (`Stealing.GraceOnlyGrows`).
- The clamped Gradient2 limit exceeds a peer limit of 1 iff the limit is below 2, which Gradient2 never gives
  (`Gradient.ClampRespects`).
- A peer that rejects a hedged duplicate is dropped unless it has the fast extension and an earlier request for
  the block is still being cancelled there (`SwarmRuns.HedgeRejectedIff`).

## Model

| member | source | states |
|---|---|---|
| `Layouts.BlocksTile` | internal/anacrolix-torrent/misc.go:57-78 | the blocks of all valid request indexes tile [0, length): a byte is inside the torrent iff some block holds it, then exactly one does, and torrentOffsetRequest returns that one; also for short last pieces and pieces not divisible by the chunk size |
| `Layouts.IndexRoundTrip` | internal/anacrolix-torrent/torrent.go:3581-3595 | requestIndexFromRequest inverts requestIndexToRequest on every valid index, and no block is empty |
| `Layouts.BlocksDisjoint` | internal/anacrolix-torrent/torrent.go:3581-3587 | two valid indexes whose blocks share a byte are the same index |
| `Layouts.PieceInterval` | internal/anacrolix-torrent/torrent.go:3593-3595 | the indexes [offset of piece i, that plus its chunk count) are exactly the valid indexes whose piece is i |
| `Layouts.PieceLenBound` | internal/anacrolix-torrent/torrent.go:1710-1722 | pieces have the regular length and the last one ends exactly at the torrent's length |
| `Layouts.BlockSetInterval` | internal/anacrolix-torrent/torrent.go:1696-1698 | a piece has exactly as many request indexes as chunks |
| `Layouts.ChunkIndexSpecWrap` | internal/anacrolix-torrent/misc.go:104-110 | the 32-bit chunkIndexSpec agrees with the unbounded one iff the end of the chunk does not wrap |
| `Ranges.AvailableRange` | internal/anacrolix-torrent/torrent.go:1825-1903 | 0 before the info is known; then for every offset, limit and mode the result is the longest run of bytes from the offset, up to max, whose piece is complete or (responsive) whose chunk is dirty: all of them are, and the next one is not unless max was reached; it terminates |
| `Ranges.Serve` | internal/anacrolix-torrent/torrent.go:1830-1900 | one turn adds only servable bytes, goes on only after adding some, and stops only at max or before a byte that is not servable |
| `Ranges.ServeRun` | internal/anacrolix-torrent/torrent.go:1857-1899 | the dirty-bit run of a piece turned into bytes, also for a start inside a chunk and for short last chunks and pieces |
| `Ranges.ReadyRun` | internal/anacrolix-torrent/torrent.go:1863-1876 | the scan of the bitmap stops at the first bit that is not set, or at the piece's end |
| `Ranges.IterUnset` | internal/anacrolix-torrent/undirtied-chunks-iter.go:7-27 | on 32-bit indexes the callback gets exactly the unset indexes of [start, end), once each and ascending, also for start = 0 where start-1 wraps |
| `Peers.Peer.DecExpectedChunkReceive` | internal/anacrolix-torrent/peer.go:677-686 | takes one expected reply off the count, deleting the entry at zero; its panic is unreachable |
| `Peers.Peer.IncExpectedChunkReceive` | internal/anacrolix-torrent/peer.go:559-562 | adds one expected reply to the count |
| `Peers.ExpectsBoth` | internal/anacrolix-torrent/peer.go:677-686 | a connection expects at least one reply for a block that is requested and one for a block that is cancelled |
| `Requests.ReleaseKeeps` | internal/anacrolix-torrent/peer.go:925-942 | giving up all requests of a connection keeps the books of holders, requests and expected replies |
| `Requests.DropKeeps` | internal/anacrolix-torrent/torrent.go:2366-2388 | a dropped connection leaves no block without its proper holder |
| `Requests.AcquireKeeps` | internal/anacrolix-torrent/requesting.go:386-423 | taking a block from its holder and asking another connection for it keeps the books: one holder per block, every holder lists it, every listed block is expected |
| `Requests.SettleNetKeeps` | internal/anacrolix-torrent/peer.go:721-786 | an expected reply takes the block out of requests or cancelled of its sender only |
| `Requests.AcceptKeeps` | internal/anacrolix-torrent/peer.go:815-828 | exactly the accepted block becomes dirty, it is being written by its sender, no connection holds or is asked for it any more and every other holder stays; the books still agree, so no dirty block is outstanding |
| `Requests.HedgeKeeps` | internal/anacrolix-torrent/torrent.go:1422-1435 | a hedge adds an expected reply without touching the holder |
| `Requests.HedgedKeeps` | internal/anacrolix-torrent/torrent.go:1348-1363 | the hedge history stays at one hedge per issue of a request, and hedged blocks are outstanding |
| `Wanted.WantedIff` | internal/anacrolix-torrent/piece.go:221-243 | a piece has a priority iff a reader's range, a file with a priority or the piece itself asks for it and it is neither complete, queued, being hashed nor being marked |
| `Wanted.PriorityIsHighest` | internal/anacrolix-torrent/piece.go:221-243 | a piece still to be had has the highest level anybody asks for it at: Now for the first piece of a reader's range, Readahead for the rest, a file's or its own; and none if nobody does |
| `Wanted.ByteRegionExact` | internal/anacrolix-torrent/torrent.go:2101-2118 | the pieces of a byte region are exactly those that hold one of its bytes, for regions that start before 0 or end past the torrent |
| `Wanted.PiecesUncachedExact` | internal/anacrolix-torrent/reader.go:104-125 | the pieces a reader wants are exactly those that hold a byte from its position on, within its readahead of at least one byte and before its end; none while it is not reading |
| `Wanted.PiecesUncachedCover` | internal/anacrolix-torrent/reader.go:104-125 | a reader wants pieces iff it is reading before its end, and then first the piece under its position |
| `Swarm.UpdatePriorityKeeps` | internal/anacrolix-torrent/torrent.go:2060-2086 | updating a piece's priority makes it pending iff its uncached priority is not None and cancels its requests when it is no longer wanted |
| `Swarm.UpdatePrioritiesKeeps` | internal/anacrolix-torrent/torrent.go:2094-2098 | updating a range repairs exactly that range of a stale pending set |
| `SwarmSafety.QueueCheckKeeps` | internal/anacrolix-torrent/torrent.go:3287-3296 | queueing a hash check keeps pending pieces exact and cancels the piece's requests |
| `SwarmSafety.StartHashKeeps` | internal/anacrolix-torrent/torrent.go:3169-3178 | so does starting the hash |
| `SwarmSafety.EndHashKeeps` | internal/anacrolix-torrent/torrent.go:3244-3273 | clearing the hashing flag while the result is being written down leaves no request for the piece possible |
| `SwarmSafety.MarkedKeeps` | internal/anacrolix-torrent/torrent.go:2975-3099 | the end of pieceHashed, after the lock was released for MarkComplete, restores the exact pending set whatever storage answers |
| `SwarmSafety.UpdateCompletionKeeps` | internal/anacrolix-torrent/torrent.go:2221-2249 | afterwards the piece is complete iff storage says so and every other piece is as it was; the whole invariant is kept |
| `SwarmSafety.SetPriorityKeeps` | internal/anacrolix-torrent/piece.go:214-219 | setting a piece's priority keeps it |
| `SwarmSafety.SetFilePriorityKeeps` | internal/anacrolix-torrent/file.go:169-176 | setting a file's priority keeps it: updating the file's pieces is enough |
| `SwarmSafety.MoveReaderKeeps` | internal/anacrolix-torrent/torrent.go:2008-2030 | a reader's move keeps it: updating the ordered low and high ranges is enough for every position of the two |
| `SwarmSafety.CloseReaderKeeps` | internal/anacrolix-torrent/t.go:174-177 | closing a reader keeps it |
| `SwarmSafety.ReceiveChunkKeeps` | internal/anacrolix-torrent/peer.go:693-828 | receiving a chunk, expected or not, keeps it |
| `SwarmSafety.ChunkWrittenKeeps` | internal/anacrolix-torrent/peer.go:845-874 | the second half of receiveChunk, after the write without the lock, keeps it; the last writer queues the check |
| `SwarmSafety.UnwriteKeeps` | internal/anacrolix-torrent/peer.go:815-845 | ending a write keeps it, with a piece's count of pending writes equal to the number of connections writing to it |
| `SwarmSafety.RemoteRejectedKeeps` | internal/anacrolix-torrent/peer.go:654-675 | a reject keeps it |
| `SwarmSafety.ChokeMessageKeeps` | internal/anacrolix-torrent/peerconn.go:831-846 | a choke keeps it, with and without the fast extension |
| `SwarmSafety.DropConnKeeps` | internal/anacrolix-torrent/torrent.go:2366-2388 | dropping a connection keeps it |
| `SwarmSafety.DisallowKeeps` | internal/anacrolix-torrent/torrent.go:3441-3448 | disallowing downloads cancels everything and keeps it |
| `SwarmRuns.StepKeeps` | internal/anacrolix-torrent/peer.go:548-957 | every event of connections, pieces, readers, priorities and hedges keeps the invariant of the whole torrent |
| `SwarmRuns.StartedInv` | internal/anacrolix-torrent/torrent.go:566-594 | a torrent that has just got its info satisfies it, also when connections were opened before |
| `SwarmRuns.After` | internal/anacrolix-torrent/peer.go:548-957 | so does every state of every run |
| `SwarmRuns.OutstandingSafe` | internal/anacrolix-torrent/torrent.go:2060-2086 | an outstanding block is not had, and its piece is neither queued for a check nor being hashed or marked |
| `SwarmRuns.OneHolder` | internal/anacrolix-torrent/torrent.go:3624-3630 | no block is requested of two connections |
| `SwarmRuns.HedgeRejectedIff` | internal/anacrolix-torrent/peer.go:654-675 | after a hedge, a connection survives rejecting the duplicate iff it has the fast extension and an earlier request to it for the same block is still being cancelled |
| `SwarmRuns.RunSafe` | internal/anacrolix-torrent/torrent.go:2403-2421 | in every run: pending pieces are exactly those a reader, a file or their own priority asks for and that are still to be had; every outstanding block is missing and in no piece queued, hashed or marked; no block is outstanding twice; hedged blocks are outstanding and hedged once per issue; nothing is outstanding while downloads are disallowed |
| `SwarmLaws.PieceAdjusts` | internal/anacrolix-torrent/torrent.go:2060-2086 | a piece event makes of readers, files, flags and completion exactly what it says, clears the dirty chunks of one piece at most, and withdraws requests only for pieces left without a priority, remembering the cancel where the peer will acknowledge it |
| `SwarmLaws.PieceLaw` | internal/anacrolix-torrent/torrent.go:2975-3099 | after a piece event a piece is complete as storage answered, queued from a check until its hash starts, hashing from there until the hash ends, and then marking until the result is recorded |
| `EventLaws.HolderLaw` | internal/anacrolix-torrent/peer.go:548-957 | for every event: a block has a holder afterwards iff it was just asked for, or it had one and that request has not ended, by an answer, the connection's end, a choke without the fast extension, the block's arrival from elsewhere, downloads being disallowed or its piece being unwanted; the holder is the connection asked last |
| `EventLaws.OwesLaw` | internal/anacrolix-torrent/peer.go:548-786 | for every event: a connection's expected replies for a block are those before, one more for a request or hedge sent, one less for an answer; a withdrawn request is remembered as cancelled iff the peer acknowledges cancels, until it is answered |
| `EventLaws.HedgedLaw` | internal/anacrolix-torrent/torrent.go:1348-1435 | for every event: a block is hedged afterwards iff the event hedged it, or it was hedged and still has the same holder |
| `EventLaws.PeerLaw` | internal/anacrolix-torrent/torrent.go:2366-2429 | for every event: a connection is there afterwards iff it has just come, or it was there and has not gone or sent a block or reject nobody asked for; its choke, closed flag and pieces are what it said last |
| `EventLaws.DirtyLaw` | internal/anacrolix-torrent/peer.go:815-874 | for every event: a block is here afterwards iff it has just arrived, expected and new, or it was here and neither its write failed nor its piece was cleared |
| `EventLaws.ReceivedIsHere` | internal/anacrolix-torrent/peer.go:815-828 | a block a connection was to send is had once it has sent it |
| `EventLaws.WritingLaw` | internal/anacrolix-torrent/peer.go:815-845 | for every event: a connection is writing a block afterwards iff the block has just arrived from it, or it was writing it and has not ended |
| `EventLaws.WrittenLaw` | internal/anacrolix-torrent/peer.go:845-874 | the end of a write makes a failed block missing again and queues the check iff the piece is all dirty and this was its last writer |
| `EventLaws.PieceFlowLaw` | internal/anacrolix-torrent/torrent.go:3169-3296 | for every event: what becomes of a piece's completed, queued, hashing and marking flags |
| `EventLaws.BlocksStay` | internal/anacrolix-torrent/torrent.go:3441-3457 | for every event: downloads are disallowed from one switch to the other |
| `EventLaws.CheckDue` | internal/anacrolix-torrent/peer.go:860-867 | in every run a piece whose blocks are all dirty, with none still being written, is queued for a check, being hashed or being marked |
| `EventLaws.CompletedIff` | internal/anacrolix-torrent/torrent.go:2221-2249 | in every run a piece is complete iff the last completion answer for it said so |
| `Torrents.Torrent.constructor` | internal/anacrolix-torrent/torrent.go:566-594 | a new torrent with its layout, files and connections opened before satisfies the invariant and is a start of the state machine |
| `Torrents.Torrent.AddConnection` | internal/anacrolix-torrent/torrent.go:2820-2861 | a new connection joins with nothing requested |
| `Torrents.Torrent.PeerPiecesChanged` | internal/anacrolix-torrent/peerconn.go:387-404 | what a peer says it has changes nothing else |
| `Torrents.Torrent.AllowDataDownload` | internal/anacrolix-torrent/torrent.go:3450-3457 | downloads are allowed again, everything else stays |
| `Torrents.Torrent.AddReader` | internal/anacrolix-torrent/t.go:164-172 | a reader joins with no pieces until it first moves |
| `Torrents.Torrent.DeleteRequest` | internal/anacrolix-torrent/peer.go:904-923 | removes a block from its connection and its holder; the panics are unreachable |
| `Torrents.Torrent.Cancel` | internal/anacrolix-torrent/peer.go:575-589 | moves a block to cancelled when the peer acknowledges cancels, and frees it |
| `Torrents.Torrent.CancelRequest` | internal/anacrolix-torrent/torrent.go:3611-3622 | cancels a block with whoever holds it |
| `Torrents.Torrent.CancelRequestsForPiece` | internal/anacrolix-torrent/torrent.go:3101-3107 | cancels exactly the piece's blocks |
| `Torrents.Torrent.CancelAllRequests` | internal/anacrolix-torrent/peer.go:950-957 | leaves the connection no request and every other connection as it was |
| `Torrents.Torrent.DeleteAllRequests` | internal/anacrolix-torrent/peer.go:925-942 | leaves the connection no request and frees exactly those blocks |
| `Torrents.Torrent.DropConnection` | internal/anacrolix-torrent/torrent.go:2423-2429 | the dropped connection is gone and its blocks are free |
| `Torrents.Torrent.HandleChoke` | internal/anacrolix-torrent/peerconn.go:831-846 | a choke from a peer without the fast extension gives up its requests |
| `Torrents.Torrent.HandleUnchoke` | internal/anacrolix-torrent/peerconn.go:847-872 | an unchoke changes nothing else |
| `Torrents.Torrent.RemoteRejectedRequest` | internal/anacrolix-torrent/peer.go:654-675 | a reject is valid iff the block was requested or cancelled, and then settles it; an invalid one changes nothing |
| `Torrents.Torrent.HandleReject` | internal/anacrolix-torrent/peerconn.go:929-934 | an invalid reject drops the connection |
| `Torrents.Torrent.SettleChunk` | internal/anacrolix-torrent/peer.go:721-786 | a received block leaves the requests or the cancelled of its sender |
| `Torrents.Torrent.AcceptBlock` | internal/anacrolix-torrent/peer.go:815-828 | a useful block is cancelled with everybody, marked dirty and counted as being written (its effect on every block is `Requests.AcceptKeeps`) |
| `Torrents.Torrent.ReceiveExpectedChunk` | internal/anacrolix-torrent/peer.go:717-828 | an expected block is written iff it is not had already |
| `Torrents.Torrent.HandleChunk` | internal/anacrolix-torrent/peer.go:693-828 | an unexpected or invalid chunk drops the connection, any other is settled; panics are unreachable |
| `Torrents.Torrent.FinishChunk` | internal/anacrolix-torrent/peer.go:845-874 | a failed write frees the block, and the last writer of a full piece queues its check |
| `Torrents.Torrent.RequestBlock` | internal/anacrolix-torrent/peer.go:548-573 | asks for a block iff the queue is below the limit; the errors and panics of shouldRequest are unreachable |
| `Torrents.Torrent.TakeBlock` | internal/anacrolix-torrent/requesting.go:412-423 | a block taken from its holder is outstanding with the taker |
| `Torrents.Torrent.Decide` | internal/anacrolix-torrent/requesting.go:362-413 | a block is taken iff the queue is below the limit, or the block is urgent and the queue below the reserve's, no refusal caused the update, and nobody else holds it or the steal rule, its grace and the veto permit; if not, the loop ends iff the queue is full |
| `Torrents.Torrent.TryBlock` | internal/anacrolix-torrent/requesting.go:360-431 | the block is asked for iff limits, reason and the steal rule allow it, and then the pass is one enabled Ask step of the state machine, for a block nobody holds or a permitted steal; else nothing changes; the loop ends iff the queue is full or the write buffer has no room; the error for too many outstanding requests is unreachable |
| `Torrents.Torrent.AskSteps` | internal/anacrolix-torrent/requesting.go:386-413 | asking for a block that may be asked for is an enabled Ask step, and taking it from another holder is a permitted steal |
| `Torrents.Torrent.ApplyRequestState` | internal/anacrolix-torrent/requesting.go:346-431 | the whole update is a run of Ask steps for blocks of the given order, each a repeat that changes nothing, fresh or a permitted steal; if it ends below its limit, with room in the write buffer and not after a refusal, every block of the order that nobody else held is requested; requests and cancelled end at most at the larger of their entry size and the urgent cap, or the plain limit when nothing is urgent; nothing is asked for after a refusal, nothing stolen after a cancel |
| `Torrents.FollowsRun` | internal/anacrolix-torrent/requesting.go:346-431 | without its repeats the update is a run of requests each fresh or stolen by the rule |
| `Torrents.UpdateBounded` | internal/anacrolix-torrent/requesting.go:346-431 | so the requests of an update that are not repeats are bounded in number |
| `Torrents.Torrent.FireHedge` | internal/anacrolix-torrent/torrent.go:1422-1435 | marks the block hedged and expected at the candidate, the holder stays |
| `Torrents.Torrent.DisallowDataDownload` | internal/anacrolix-torrent/torrent.go:3441-3448 | cancels every request of every connection |
| `Torrents.Torrent.UpdatePiecePriority` | internal/anacrolix-torrent/torrent.go:2060-2086 | adds or removes the piece from the pending set and cancels its requests when removed |
| `Torrents.Torrent.UpdatePiecePriorities` | internal/anacrolix-torrent/torrent.go:2094-2098 | the same over a range |
| `Torrents.Torrent.QueuePieceCheck` | internal/anacrolix-torrent/torrent.go:3287-3296 | queues a piece once and updates its priority |
| `Torrents.Torrent.StartPieceHash` | internal/anacrolix-torrent/torrent.go:3169-3178 | moves a piece from the queue to being hashed |
| `Torrents.Torrent.FinishHash` | internal/anacrolix-torrent/torrent.go:3244-3273 | ends the hash and holds the piece back until its result is recorded |
| `Torrents.Torrent.ClearDirty` | internal/anacrolix-torrent/torrent.go:3005-3097 | clears the piece's dirty chunks after a pass, and after a failure if all were dirty |
| `Torrents.Torrent.PieceMarked` | internal/anacrolix-torrent/torrent.go:2975-3099 | the rest of pieceHashed |
| `Torrents.Torrent.UpdatePieceCompletion` | internal/anacrolix-torrent/torrent.go:2221-2249 | the piece is complete iff storage says so, and a change is followed up (`SwarmSafety.UpdateCompletionKeeps`) |
| `Torrents.Torrent.CompletionChanged` | internal/anacrolix-torrent/torrent.go:2144-2152 | a completed piece loses its dirty chunks and requests, an incomplete one its full dirty set |
| `Torrents.Torrent.ReaderPosChanged` | internal/anacrolix-torrent/torrent.go:2008-2030 | recomputes the reader sets and updates the two ranges, merged or apart |
| `Torrents.Torrent.PosChanged` | internal/anacrolix-torrent/reader.go:280-289 | the reader's range follows its position and readahead, and every piece that holds a byte it wants is pending, complete or being checked |
| `ReaderRuns.RunServes` | internal/anacrolix-torrent/reader.go:104-125 | in every run the pending pieces are exactly those still to be had that hold a byte some reader wants from its position on, or that a file or their own priority asks for |
| `Torrents.Torrent.DeleteReader` | internal/anacrolix-torrent/t.go:174-177 | removes a reader and updates all pieces |
| `Torrents.Torrent.SetPiecePriority` | internal/anacrolix-torrent/piece.go:214-219 | sets a piece's own priority |
| `Torrents.Torrent.SetFileWanted` | internal/anacrolix-torrent/file.go:169-176 | sets a file's priority and updates its pieces |
| `Stealing.StealProgress` | internal/anacrolix-torrent/steal-request-grace.go:100-111 | every permitted steal lowers the sum of squared queue sizes, or keeps it and raises the recency-weighted sum |
| `Stealing.StealIff` | internal/anacrolix-torrent/steal-request-grace.go:100-111 | a steal is permitted iff no cancel caused the update, the grace is over, and the steal lowers the sum of squared queue sizes or keeps it and raises the recency-weighted sum |
| `Stealing.StealsBounded` | internal/anacrolix-torrent/steal-request-grace.go:100-111 | so a run of steals without arrivals is bounded in length, whatever the grace and veto settings |
| `Stealing.AsksBounded` | internal/anacrolix-torrent/requesting.go:346-431 | and so is every run of requests, fresh and stolen in any order and by any peers, between two received messages |
| `Stealing.AskRankFalls` | internal/anacrolix-torrent/requesting.go:386-423 | a request lowers the measure whether the block was free or stolen |
| `Stealing.RankFalls` | internal/anacrolix-torrent/requesting.go:386-413 | the lexicographic rank falls with every steal |
| `Stealing.GraceOnlyGrows` | internal/anacrolix-torrent/steal-request-grace.go:52-83 | an adapted grace is never below the configured one iff that is at most 250 ms |
| `Stealing.GraceExact` | internal/anacrolix-torrent/steal-request-grace.go:52-83 | no grace without a configured one; else a measured holder gets its mean latency taken into [250, 1000] ms, any other the configured grace, and an urgent block at most 250 ms of that |
| `Availability.RunCounts` | internal/anacrolix-torrent/torrent.go:279-298 | in every run of peers that obey the protocol each count is the number of open peers outside connsWithAllPieces that hold the piece, those are exactly the Have All peers, no obeying event panics, and all is zero once every peer is closed |
| `PeerPieces.KnownIff` | internal/anacrolix-torrent/peerconn.go:387-501 | in every run, whatever peers send, an open peer is taken to have a piece iff the last of its messages that says anything about the piece says so |
| `PeerPieces.KnownLaw` | internal/anacrolix-torrent/peerconn.go:387-501 | after an event a peer has the pieces the event says, and of the others those it had |
| `PeerPieces.PresentLaw` | internal/anacrolix-torrent/torrent.go:1788-1807 | a peer is there after an event iff it has just connected, or it was there and neither closed nor was dropped as mutually complete |
| `Availability.StepKeeps` | internal/anacrolix-torrent/peerconn.go:387-501 | an event keeps the counts exact iff it is not a Have None after Have All and not an info met by a confusing bitmap |
| `Availability.HaveNoneKeeps` | internal/anacrolix-torrent/peerconn.go:493-501 | Have None keeps the seeds and counts exact iff the peer had not sent Have All |
| `Availability.HaveNoneLeak` | internal/anacrolix-torrent/peerconn.go:493-501 | after Have All, Have None, Have, close, whatever any peer does later, the piece's count stays above the peers that hold it, by exactly one while all obey, and is not zero once every peer is closed |
| `Availability.SurplusStep` | internal/anacrolix-torrent/torrent.go:2390-2401 | whatever a peer sends, a count moves with the bitmaps that hold the piece, except that it stays when a peer still among the seeds closes or sends Have None with the piece in its bitmap |
| `Availability.RunLoose` | internal/anacrolix-torrent/torrent.go:2366-2388 | in every run, whatever peers send, a Have All peer is among the seeds with no pieces of its own, bitmaps are in range once the info is known, and no seed is left without a peer |
| `Availability.InfoCounts` | internal/anacrolix-torrent/torrent.go:566-594 | learning the info in any state makes each count the number of peers outside the seeds that hold the piece, and one more for each peer counted without having it |
| `Availability.InfoSurplus` | internal/anacrolix-torrent/torrent.go:266-277 | so a count starts too low by the seeds whose bitmap holds the piece, which are not counted |
| `Availability.RunBalance` | internal/anacrolix-torrent/torrent.go:279-298 | in every run from the start, obeying or not, a count is the number of bitmaps that hold the piece, plus what it started with too much or too little, plus one for each leak since |
| `Availability.CoveredPanics` | internal/anacrolix-torrent/torrent.go:279-289 | while no count is below the bitmaps that hold its piece, an event panics iff it brings the info and the drop of a peer whose bitmap has the right number of bits, some out of range |
| `Availability.PanicFreeIff` | internal/anacrolix-torrent/torrent.go:279-289 | once the info is known no continuation panics, whatever peers send, iff no count is below the bitmaps that hold its piece |
| `Availability.RunPanicFreeIff` | internal/anacrolix-torrent/torrent.go:279-289 | so after any run from the start, iff no piece's balance is negative |
| `Availability.InfoPanicFreeIff` | internal/anacrolix-torrent/torrent.go:566-594 | at the moment the info comes: iff no piece is in more bitmaps of seeds than it has peers counted without having it; without such peers, iff no seed has a bitmap |
| `Availability.EarlyHaveNonePanics` | internal/anacrolix-torrent/peerconn.go:493-501 | Have All, Have None and Have before the info leave the piece uncounted, so the peer's next Have All or empty bitfield panics; closing it instead leaks and yet leaves every count at zero |
| `Availability.TeardownIff` | internal/anacrolix-torrent/torrent.go:1659-1666 | after every run from the start that ends with every peer closed, the assertion that all counts are zero holds iff every piece's balance is nought |
| `Availability.GotInfoKeeps` | internal/anacrolix-torrent/torrent.go:566-594 | learning the info sets the counts right, whatever complete peers are dropped on the way, iff no earlier bitmap has the right number of bits with some out of range |
| `Availability.DropSafe` | internal/anacrolix-torrent/torrent.go:1788-1807 | dropping a complete peer before the bitmaps are trimmed reaches no panic iff its bitmap is not such a one |
| `Availability.DropsSafe` | internal/anacrolix-torrent/torrent.go:1788-1807 | so a sequence of drops reaches none iff it names no such peer |
| `Availability.EarlyBitfieldPanics` | internal/anacrolix-torrent/torrent.go:2390-2401 | any first bitfield with the right number of bits, one of them out of range, makes such a peer, and dropping it panics |
| `Availability.BitfieldKeeps` | internal/anacrolix-torrent/peerconn.go:406-460 | a bitfield moves each count by what the peer gained or lost |
| `Availability.NoPanic` | internal/anacrolix-torrent/torrent.go:279-289 | with exact counts an event panics iff it brings the info and such a drop |
| `AvailabilityCounts.Counts.DecPiece` | internal/anacrolix-torrent/torrent.go:279-289 | lowers one count, and fails iff it is not positive or not there |
| `AvailabilityCounts.Counts.IncPiece` | internal/anacrolix-torrent/torrent.go:291-298 | raises one count |
| `AvailabilityCounts.Counts.DecPeerPieces` | internal/anacrolix-torrent/torrent.go:2390-2401 | takes a peer's share out of the counts, and fails iff one of them is not positive |
| `AvailabilityCounts.Counts.PeerSentHave` | internal/anacrolix-torrent/peerconn.go:387-404 | an out-of-range piece is refused, a new one is counted once |
| `AvailabilityCounts.Counts.PeerSentBitfield` | internal/anacrolix-torrent/peerconn.go:406-460 | in any state: the xor of old and new bitmap, applied piece by piece, gives the new bitmap and moves each count with it; fails exactly where the code panics, never with exact counts, which it keeps |
| `AvailabilityCounts.Counts.OnPeerHasAllPieces` | internal/anacrolix-torrent/peerconn.go:462-479 | in any state: moves a peer from the counts to the seeds; fails exactly where the code panics, never with exact counts, which it keeps |
| `AvailabilityCounts.Counts.PeerSentHaveNone` | internal/anacrolix-torrent/peerconn.go:493-501 | in any state: forgets the peer's pieces; fails exactly where the code panics; keeps exact counts and seeds iff it had not sent Have All |
| `AvailabilityCounts.Counts.Close` | internal/anacrolix-torrent/peer.go:348-369 | in any state: a closed peer counts nowhere; fails exactly where the code panics, never with exact counts, which it keeps |
| `AvailabilityCounts.Counts.SelectiveAvailability` | internal/anacrolix-torrent/torrent.go:266-277 | counts the peers outside the seeds that have the piece |
| `AvailabilityCounts.Counts.OnSetInfo` | internal/anacrolix-torrent/torrent.go:566-594 | in any state: counts with peerHasPiece, drops mutually complete peers, then trims the bitmaps; it indexes past the pieces iff a dropped peer has a bitmap with the right number of bits, some out of range; keeps exact counts iff there is no such bitmap |
| `AvailabilityCounts.Counts.DropMutuallyComplete` | internal/anacrolix-torrent/torrent.go:1788-1807 | closes the complete peers among those named, each taken out of the counts, and fails iff one of them has a bitmap with the right number of bits, some out of range |
| `SmartBan.CheckPortions` | internal/anacrolix-torrent/smartban.go:31-87 | any split of a stream into writes followed by a flush gives the verdict on the consecutive chunk-sized blocks of the whole stream |
| `SmartBan.BadPeersExactly` | internal/anacrolix-torrent/smartban/smartban.go:39-49 | a peer is bad iff it was recorded for some block with a hash that differs from the block's |
| `SmartBan.BlockAt` | internal/anacrolix-torrent/smartban.go:59-77 | block k is the k-th stretch of chunk size of the stream |
| `SmartBan.BlocksCover` | internal/anacrolix-torrent/smartban.go:59-77 | the blocks and the tail make up the whole stream |
| `SmartBan.BlockCheckingWriter.Write` | internal/anacrolix-torrent/smartban.go:59-77 | consumes all its input and leaves every whole block of the stream checked under its number and the tail buffered; its panic is unreachable |
| `SmartBan.BlockCheckingWriter.FinishPartialBlock` | internal/anacrolix-torrent/smartban.go:47-57 | completes a buffered block first |
| `SmartBan.BlockCheckingWriter.CheckBufferedBlock` | internal/anacrolix-torrent/smartban.go:31-38 | checks the buffer's block; its panic is unreachable |
| `SmartBan.BlockCheckingWriter.CheckBlock` | internal/anacrolix-torrent/smartban.go:40-45 | checks one block under the next number |
| `SmartBan.BlockCheckingWriter.Flush` | internal/anacrolix-torrent/smartban.go:80-87 | checks the last short block; its panic is unreachable |
| `Pex.RunTellsIff` | internal/anacrolix-torrent/pexconn.go:66-73 | in every run over a feed in which each address alternates, however it is cut into messages, the receiver holds exactly the addresses live at the sender's cursor after every step iff no message drops an address that stays live in its other form |
| `Pex.RunTells` | internal/anacrolix-torrent/pexconn.go:66-73 | so it does when no IPv4 address comes both plain and 4-in-6, and when there is nothing to send it holds all live ones |
| `Pex.ReceiveIff` | internal/anacrolix-torrent/pex.go:56-128 | one message takes the receiver from one live set to the next iff it hides no address in this way |
| `Pex.DropHides` | internal/anacrolix-torrent/pex.go:95-128 | with both forms live and told, dropping one takes the address from the receiver |
| `Pex.TwoFormsHide` | internal/anacrolix-torrent/netip-addrport.go:47-52 | and every IPv4 address has such a run |
| `Pex.DeltaLive` | internal/anacrolix-torrent/pex.go:217-233 | a delta takes the live set at its start to the live set at its end |
| `Pex.BuildMatches` | internal/anacrolix-torrent/pex.go:56-128 | for any feed the lists hold each address once for each of its forms in the sets, flags match, and no key is both added and dropped |
| `Pex.FlagsTold` | internal/anacrolix-torrent/pex.go:56-128 | a message cut from an alternating feed without two forms of an address lists every address it adds with the flags it was last added with |
| `Pex.DistinctIff` | internal/anacrolix-torrent/pex.go:56-128 | a message lists no address twice iff its set has none in two forms |
| `Pex.TakeBound` | internal/anacrolix-torrent/pex.go:222-232 | a later message adds and drops at most 50 addresses each, and stops before the feed's end only when full |
| `Pex.EmptyMessage` | internal/anacrolix-torrent/pexconn.go:66-70 | a message is empty iff nothing was added or dropped |
| `PexFeed.MsgFactory.Add` | internal/anacrolix-torrent/pex.go:56-91 | adds an address or cancels its drop |
| `PexFeed.MsgFactory.Drop` | internal/anacrolix-torrent/pex.go:95-128 | drops an address or cancels its addition, with its flags |
| `PexFeed.MsgFactory.AppendEvent` | internal/anacrolix-torrent/pex.go:130-139 | keeps the lists and sets in agreement |
| `PexFeed.PexState.AppendEvent` | internal/anacrolix-torrent/pex.go:168-174 | the initial message always tells the whole feed |
| `PexFeed.PexState.NextMsg` | internal/anacrolix-torrent/pex.go:217-233 | the initial message or the events since the cursor, at most 50 added and 50 dropped |
| `PexFeed.PexConn.GenMsg` | internal/anacrolix-torrent/pexconn.go:66-73 | the cursor moves only with a message that is not empty |
| `Latency.WindowedMin.Add` | internal/anacrolix-torrent/adaptive-pipeline.go:81-94 | every sample is in one of the two buckets or more than a window older than the current one, and each minimum is a real sample |
| `Latency.WindowedMin.Get` | internal/anacrolix-torrent/adaptive-pipeline.go:96-105 | at most every sample of the last 30 s and equal to a real sample less than 60 s old |
| `Gradient.Gradient2.OnSample` | internal/anacrolix-torrent/gradient2.go:94-118 | the baseline learns every sample, the limit moves as `Gradient.NextLimitMoves` says and only when the peer is pushed; it stays in [2, 128], rises by at most 0.8 and falls by at most a tenth |
| `Gradient.NextLimitBounds` | internal/anacrolix-torrent/gradient2.go:112-116 | the smoothed step's bounds for every gradient |
| `Gradient.NextLimitMoves` | internal/anacrolix-torrent/gradient2.go:112-116 | the limit rises iff the requests the gradient takes off are fewer than the headroom of four and it is below 128, falls iff they are more and it is above 2, and moves a fifth of the difference unless a bound stops it |
| `Gradient.GradientExact` | internal/anacrolix-torrent/gradient2.go:112 | the gradient is 1 iff the sample is at most 1.5 times the baseline, 0.5 iff it is at least 3 times, and in between inversely proportional to the sample |
| `Gradient.Gradient2.OnDrop` | internal/anacrolix-torrent/scheduling-levers.go:76-79 | a drop lowers the limit by at most a tenth, not below 2 |
| `Gradient.BaselineInRange` | internal/anacrolix-torrent/gradient2.go:98-105 | after every run of samples the long-RTT baseline lies between the smallest and the largest of them |
| `Gradient.PlusAverages` | internal/anacrolix-torrent/gradient2.go:212-222 | a sample keeps the average, in the warmup and after it, in the range of the samples |
| `Gradient.PlusMoves` | internal/anacrolix-torrent/gradient2.go:212-222 | the first ten samples are averaged; each later one moves the value 2/601 of the way to the sample |
| `Gradient.WarmupMean` | internal/anacrolix-torrent/gradient2.go:212-216 | in the warmup a sample makes the baseline the mean of all samples so far |
| `Gradient.DecayAverages` | internal/anacrolix-torrent/gradient2.go:101-105 | so does the 0.95 decay, because it comes only from above a sample's double |
| `Gradient.AverageInRange` | internal/anacrolix-torrent/gradient2.go:212-216 | the warmup average lies in the samples' range |
| `Gradient.ClampRespects` | internal/anacrolix-torrent/gradient2.go:181-196 | the clamped limit respects a positive peer limit iff not (peer limit 1 and limit below 2) |
| `Gradient.ClampNearest` | internal/anacrolix-torrent/gradient2.go:181-196 | the clamp takes a limit to the nearest one between 2 and the smaller cap |
| `Gradient.TrackedIsMedian` | internal/anacrolix-torrent/scheduling-levers.go:112-123 | the tracked RTT is a sample with at least half of the samples on either side |
| `Gradient.WindowedGradient2.MaybeFlush` | internal/anacrolix-torrent/scheduling-levers.go:151-164 | updates are more than a second apart; a due one empties the window and makes one step: a cut after a drop, else a sample of the median if there are ten samples |
| `Gradient.WindowedGradient2.OnSample` | internal/anacrolix-torrent/scheduling-levers.go:138-144 | an answer under 100 us that is no drop changes nothing; any other enters the window of at most 200 and changes the limit only through an update |
| `Gradient.WindowedGradient2.OnDrop` | internal/anacrolix-torrent/scheduling-levers.go:146-149 | a burst of drops is a single cut |
| `Breaker.WindowBound` | internal/anacrolix-torrent/torrent.go:1400-1421 | in every run a window sends at most 30 hedges and 30 more for each second write of the timer that falls in it, and no hedge is sent within five minutes of a trip |
| `Breaker.TightStep` | internal/anacrolix-torrent/torrent.go:1400-1421 | a step keeps every window within 30, now and for whatever is tried next, iff it is not a second write of the timer inside a window that has sent something |
| `Breaker.TightRun` | internal/anacrolix-torrent/torrent.go:1415-1419 | so a run is within the bound throughout iff none of its steps is such a write |
| `Breaker.TightExactly` | internal/anacrolix-torrent/torrent.go:1400-1421 | that condition on states is exact: it holds iff no number of further tries at once sends more than 30 in a window |
| `Breaker.MinuteBound` | internal/anacrolix-torrent/torrent.go:1400-1421 | without such a write, at most 30 a window and at most 60 in any 60 s |
| `Breaker.RacingMinuteBound` | internal/anacrolix-torrent/torrent.go:1400-1421 | in every run at most 60 in any 60 s, and 60 more for each second write a window may get |
| `Breaker.RaceSendsSixty` | internal/anacrolix-torrent/torrent.go:1415-1419 | from a new breaker, a run whose second write comes late sends 60 hedges in one window |
| `Breaker.StepKeeps` | internal/anacrolix-torrent/torrent.go:1400-1421 | windows start more than 60 s apart, the count covers what was sent since the last zero, and nothing is sent while the breaker cools down |
| `Breaker.HedgeBreaker.Allow` | internal/anacrolix-torrent/torrent.go:1400-1421 | the breaker's decision, with its window |
| `Breaker.HedgeBreaker.Reopen` | internal/anacrolix-torrent/torrent.go:1415-1416 | the timer's first write |
| `Breaker.HedgeBreaker.ZeroCount` | internal/anacrolix-torrent/torrent.go:1417-1419 | the timer's second write |
| `Hedging.Hedger.Candidate` | internal/anacrolix-torrent/torrent.go:1386-1398 | a connection other than the holder that has the piece and was useful last; none iff there is none |
| `Hedging.Hedger.Fire` | internal/anacrolix-torrent/torrent.go:1380-1438 | without a candidate nothing happens; with one the breaker counts the try, and the block is marked and asked of the candidate iff the breaker lets it through |
| `Hedging.Hedger.Scan` | internal/anacrolix-torrent/torrent.go:1326-1362 | wherever the breaker's timer writes in between: the breaker is never tried while open; if it was closed and does not trip every due block that has a candidate is hedged; only such blocks are, once each, and each duplicate is a step of the torrent and one entry of the breaker's record |
| `Hedging.FiredRecords` | internal/anacrolix-torrent/torrent.go:1400-1421 | the breaker records one duplicate if it lets it through and none if it trips |
| `CacheModel.PutKeeps` | main.go:3738-3775 | a Put keeps order, totals and the byte count exact, its own chunk survives its evictions as the newest, and no other chunk changes |
| `CacheModel.PutLeast` | main.go:3738-3775 | a Put moves its chunk to the end of its shard's order and takes from the front nothing while the cache is in budget, else down to the budget or its own chunk and no further; no other shard changes |
| `CacheModel.EvictKeeps` | main.go:3764-3775 | eviction takes the oldest first and ends within the budget or at one chunk |
| `CacheModel.EvictLeast` | main.go:3764-3775 | eviction takes no more than it must: with the last chunk it took the cache was over budget |
| `CacheModel.SweepKeeps` | main.go:3840-3872 | global eviction takes out exactly the stale chunks it looked at |
| `CacheModel.KeepsWhen` | main.go:3840-3872 | a chunk of the active path, or of one under it, stays for a minute after its last use, any other for two minutes and only while it is of the active session |
| `CacheModel.OverBudgetBound` | main.go:3764-3787 | the cache is over budget by at most one chunk a shard |
| `CacheModel.OrderCounts` | main.go:3795-3804 | a shard's order is as long as the shard, so the compaction has nothing to do |
| `CacheModel.HitTruthful` | main.go:3638-3662 | a hit, from one chunk or stitched from two, is exactly the file's bytes, whatever the chunk size was at the time of the stores and even if it changes between the two keys of the lookup |
| `CacheModel.LookupIff` | main.go:3638-3662 | for chunks on their grid a read hits iff it touches at most two chunk numbers and each of its bytes is cached, and returns those bytes |
| `CacheModel.ReadTouches` | main.go:3619-3662 | a read marks as used exactly the chunk of its first byte if that is cached, and on a hit beyond it that of its last byte |
| `CacheRuns.RunInv` | main.go:3698-3775 | under every interleaving of Puts on different shards, sweeps and lookups the byte count is the sum of the cached sizes |
| `CacheRuns.RunBounded` | main.go:3764-3775 | and whenever no Put is under way the cache exceeds its budget by its single-chunk shards at most |
| `CacheRuns.PutIsSteps` | main.go:3698-3775 | a Put alone is its steps |
| `CacheRuns.HitsTrue` | main.go:3619-3696 | and every hit, under any chunk sizes, is the file's bytes |
| `BufferRuns.BuffersApart` | main.go:3698-3775 | under every interleaving of Puts that share the buffer pool, no two of the live, in-flight and pooled buffers are the same, and each chunk's buffer holds the chunk as stored |
| `BufferRuns.MovesAreSteps` | main.go:3698-3775 | and the cache itself goes through one of the runs above |
| `ReadAhead.AlignedChunkMax` | main.go:3446-3471 | the chunk size is the largest multiple of the piece length that fits in the base, or the base |
| `ReadAhead.ReadAheadCache.SetPieceLen` | main.go:3446-3483 | sets one path's chunk size and leaves the chunks |
| `ReadAhead.ReadAheadCache.Recycle` | main.go:3558-3573 | pools a free buffer of base capacity while there is room |
| `ReadAhead.ReadAheadCache.TakeBuffer` | main.go:3726-3736 | a buffer that no chunk and no pool entry shares |
| `ReadAhead.ReadAheadCache.Drop` | main.go:3742-3745 | a chunk taken out gives its buffer back |
| `ReadAhead.ReadAheadCache.EvictOldest` | main.go:3764-3775 | the eviction loop |
| `ReadAhead.ReadAheadCache.Put` | main.go:3698-3805 | stores a copy; live and pooled buffers stay pairwise apart; the compaction is unreachable |
| `ReadAhead.ReadAheadCache.SweepShard` | main.go:3840-3872 | evictShard, building the new order as it goes |
| `ReadAhead.ReadAheadCache.Covered` | main.go:3619-3636 | says whether Get would hit, which `CacheModel.LookupIff` makes exact, and marks the chunks used only then |
| `ReadAhead.ReadAheadCache.Get` | main.go:3638-3662 | a new array with exactly the bytes asked for, or null on a miss; `CacheModel.LookupIff` says when it hits |
| `ReadAhead.ReadAheadCache.CopyTo` | main.go:3675-3696 | as many of the same bytes as fit, the rest of the destination unchanged; 0 on a miss, under the same condition |
| `ReadAhead.Copy` | main.go:3638-3662 | the built-in copy |
| `Pump.PumpServes` | main.go:1949-2059 | with a budget of at least three chunks, whatever the reads deliver: the offset stays on the chunk grid until the end of the file, the lead stays within the limit plus a chunk, the cache stays within its budget, every byte between player and pump was delivered but for chunks the warmup store has or whose read fell short, and every read over at most two chunks of bytes delivered and not yet passed by the player hits, with the bytes as last delivered |
| `Pump.TurnWorks` | main.go:1967-2059 | a turn that waits or is at the end changes nothing; any other reads unless the chunk is covered or warm, stores every byte delivered, stops where it is if the read failed, and else moves on by at most a chunk |
| `Pump.Served` | main.go:1967-2059 | a read [x, y] over at most two chunks of delivered bytes the player has not passed hits |
| `Pump.Filled` | main.go:1949-2059 | every byte between player and pump was delivered, but for the chunks passed over |
| `Pump.StepKeeps` | main.go:1845-1936 | every turn of the pump loop, with jumps forward, skips, short and failed reads, keeps that |
| `Pump.ForwardIsCalm` | main.go:2267-2272 | a player that never moves back never strands the pump |
| `Pump.LeadReserve` | main.go:1949-1965 | the limit keeps three chunks of a budget of at least six free, is at least half the budget and at most all of it |
| `Pump.AnchorNear` | main.go:1845-1872 | the pump never goes on from more than the budget behind the player or twice the budget ahead, a jump forward lands between where it was and the player, and otherwise it stays where it is |
| `Pump.LeadFits` | main.go:1949-1965 | the chunks from the player's to the one the pump may write fit in the budget |
| `Pump.WriteKeeps` | main.go:2035-2037 | a write evicts only chunks behind the player |
| `Pump.AdvanceGrid` | main.go:2047-2058 | a short read moves to the next chunk boundary, a full one to it or to the end |
| `NativePump.Pumper.PumpChunk` | main.go:1967-2059 | nativePumpChunk over the real cache: cache, stop and next offset are those of `Pump.PumpChunk`, whose work `Pump.TurnWorks` states |
| `NativePump.Pumper.Turn` | main.go:1845-1936 | one turn of the loop |

## Left out

- Webseed peers, sockets, trackers, DHT, the file system mount and the HTTP side: clients around this core.
- Torrent close and teardown, piece deadlines, allowed-fast sets (never filled in by the code): they add only
  steps that remove state.
- The choice of what to ask for: the order of desired blocks, which requests wait too long, clocks, storage answers,
  read results and hash verdicts are parameters of the events.
- What a peer exchange flag means, and the hold-back of drops: held drops can break the alternation of a feed, so the
  receiver's set is claimed for alternating feeds; a link to an event is a position in the feed.
- Pump reference counts, slots and release timers; the player's own fetches into the cache; a player that moves
  back far enough to strand the pump ahead, after which chunks are no longer written in order.
- The address lists of the krpc package, which compare IP addresses in either form, are sequences of such addresses.
- Floating-point rounding: the Gradient2 arithmetic is over real numbers.
- The roaring and ordered bitmaps are sets and ascending sequences; the request map's own structure is a map.
- Request indexes are unbounded except in `Layouts.ChunkIndexSpecWrap` and `Ranges.IterUnset`.
- Pump.PumpServes: configured budgets are positive, and the pump's path is the only one in the cache.
- ReadAhead.ReadAheadCache.Put: the responsive flag of a chunk, which nothing reads here, is not kept; the start
  of a global eviction is an event of its own in `CacheRuns`.
