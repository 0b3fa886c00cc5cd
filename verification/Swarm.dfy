/** The whole state the client lock guards for one torrent whose info is known, and every handler
    that changes it, as one state machine. A handler that runs under one hold of the lock is one
    event or several in a row; receiveChunk and pieceHashed release the lock and so are two. */
module Swarm {
  import opened Layouts
  import opened Peers
  import opened Requests
  import opened Wanted

  datatype State = State(blocks: Blocks, net: Net, want: Want, disallowed: bool)

  /** The in-flight chunk writes of piece i. */
  ghost function Writers(b: Blocks, n: Net, i: nat): set<Peer> {
    set p | p in n.writing && n.writing[p] in b && b[n.writing[p]] == i
  }

  ghost predicate WritesCounted(b: Blocks, n: Net, pieces: seq<Piece>) {
    && (forall p | p in n.writing :: n.writing[p] in b)
    && (forall r | r in b :: b[r] < |pieces|)
    && (forall i | 0 <= i < |pieces| :: pieces[i].pendingWrites == |Writers(b, n, i)|)
  }

  /** Inv while the priorities of the pieces in `stale` have still to be brought up to date. */
  ghost predicate InvExcept(s: State, stale: set<nat>) {
    && NetInv(s.blocks, s.net, s.want.pending)
    && Shape(s.want)
    && PendingExcept(s.want, stale)
    && WritesCounted(s.blocks, s.net, s.want.pieces)
    && (s.disallowed ==> s.net.holder == map[])
  }

  /** Holds whenever the client lock is free. */
  ghost predicate Inv(s: State) {
    InvExcept(s, {})
  }

  // ---- priorities ----

  /** updatePiecePriority. */
  function UpdatePriority(s: State, i: nat): State
    requires i < |s.want.pieces|
  {
    if UncachedPriority(s.want, i) != PRIORITY_NONE then
      s.(want := s.want.(pending := s.want.pending + {i}))
    else if i in s.want.pending then
      s.(want := s.want.(pending := s.want.pending - {i}), net := CancelSet(s.net, BlockSet(s.blocks, i)))
    else s
  }

  /** updatePiecePriorities. */
  function UpdatePriorities(s: State, begin: nat, end: nat): (s': State)
    requires end <= |s.want.pieces|
    ensures s'.blocks == s.blocks && s'.disallowed == s.disallowed
    ensures s'.want == s.want.(pending := s'.want.pending)
    decreases end
  {
    if end <= begin then s else UpdatePriority(UpdatePriorities(s, begin, end - 1), end - 1)
  }

  lemma SameWriters(b: Blocks, n: Net, n': Net, pieces: seq<Piece>, pieces': seq<Piece>)
    requires WritesCounted(b, n, pieces)
    requires n'.writing == n.writing && |pieces'| == |pieces|
    requires forall i | 0 <= i < |pieces| :: pieces'[i].pendingWrites == pieces[i].pendingWrites
    ensures WritesCounted(b, n', pieces')
  {
    forall i | 0 <= i < |pieces'|
      ensures pieces'[i].pendingWrites == |Writers(b, n', i)|
    {
      assert Writers(b, n', i) == Writers(b, n, i);
      assert pieces[i].pendingWrites == |Writers(b, n, i)|;
    }
  }

  lemma PendingUpdated(w: Want, w': Want, i: nat, stale: set<nat>)
    requires Shape(w) && PendingExcept(w, stale) && i < |w.pieces| && w' == w.(pending := w'.pending)
    requires w'.pending == if UncachedPriority(w, i) != PRIORITY_NONE then w.pending + {i} else w.pending - {i}
    ensures Shape(w') && PendingExcept(w', stale - {i})
  {
    assert forall j | 0 <= j < |w.pieces| :: UncachedPriority(w', j) == UncachedPriority(w, j);
  }

  lemma WantsGrowPending(b: Blocks, n: Net, pending: set<nat>, pending': set<nat>)
    requires NetInv(b, n, pending) && pending <= pending'
    ensures NetInv(b, n, pending')
  {
  }

  lemma UpdatePriorityKeeps(s: State, i: nat, stale: set<nat>)
    requires InvExcept(s, stale) && i < |s.want.pieces|
    ensures InvExcept(UpdatePriority(s, i), stale - {i})
  {
    var s' := UpdatePriority(s, i);
    if UncachedPriority(s.want, i) != PRIORITY_NONE {
      WantsGrowPending(s.blocks, s.net, s.want.pending, s'.want.pending);
    } else if i in s.want.pending {
      CancelSetKeeps(s.blocks, s.net, s.want.pending, BlockSet(s.blocks, i), s.want.pending - {i});
      SameWriters(s.blocks, s.net, s'.net, s.want.pieces, s.want.pieces);
    } else {
      assert s.want.pending - {i} == s.want.pending;
    }
    PendingUpdated(s.want, s'.want, i, stale);
  }

  lemma {:induction false} UpdatePrioritiesKeeps(s: State, begin: nat, end: nat, stale: set<nat>)
    requires InvExcept(s, stale) && end <= |s.want.pieces|
    ensures InvExcept(UpdatePriorities(s, begin, end), stale - Interval(begin, end))
    decreases end
  {
    hide InvExcept;
    if end <= begin {
      assert stale - Interval(begin, end) == stale;
    } else {
      UpdatePrioritiesKeeps(s, begin, end - 1, stale);
      UpdatePriorityKeeps(UpdatePriorities(s, begin, end - 1), end - 1, stale - Interval(begin, end - 1));
      assert stale - Interval(begin, end) == stale - Interval(begin, end - 1) - {end - 1};
    }
  }

  // ---- completion and hashing ----

  /** pendAllChunkSpecs: the piece's chunks are missing again. */
  function PendAll(s: State, i: nat): State {
    s.(net := s.net.(dirty := s.net.dirty - BlockSet(s.blocks, i)))
  }

  predicate AllDirty(s: State, i: nat) {
    BlockSet(s.blocks, i) <= s.net.dirty
  }

  /** onIncompletePiece. */
  function Incomplete(s: State, i: nat): State {
    if AllDirty(s, i) then PendAll(s, i) else s
  }

  /** cancelRequestsForPiece. */
  function CancelPiece(s: State, i: nat): State {
    s.(net := CancelSet(s.net, BlockSet(s.blocks, i)))
  }

  function WithPiece(s: State, i: nat, p: Piece): State
    requires i < |s.want.pieces|
  {
    s.(want := s.want.(pieces := s.want.pieces[i := p]))
  }

  /** updatePieceCompletion, with what storage answers. */
  function UpdateCompletion(s: State, i: nat, c: Completion): (s': State)
    requires i < |s.want.pieces|
    ensures s'.blocks == s.blocks && s'.disallowed == s.disallowed
    ensures |s'.want.pieces| == |s.want.pieces|
  {
    var changed := c != Completion(i in s.want.completed, s.want.pieces[i].completionOk);
    var s1 := WithPiece(s, i, s.want.pieces[i].(completionOk := c.ok));
    var completed := if c.complete then s1.want.completed + {i} else s1.want.completed - {i};
    var s2 := s1.(want := s1.want.(completed := completed));
    if !changed then s2
    else
      UpdatePriority(if c.complete then CancelPiece(PendAll(s2, i), i) else Incomplete(s2, i), i)
  }

  /** queuePieceCheck. */
  function QueueCheck(s: State, i: nat): State
    requires i < |s.want.pieces|
  {
    if i in s.want.queued then s
    else UpdatePriority(s.(want := s.want.(queued := s.want.queued + {i})), i)
  }

  /** startHash. */
  function StartHash(s: State, i: nat): State
    requires i < |s.want.pieces|
  {
    var s1 := s.(want := s.want.(queued := s.want.queued - {i}));
    UpdatePriority(WithPiece(s1, i, s1.want.pieces[i].(hashing := true)), i)
  }

  /** The part of finishHash and pieceHashed up to where the lock is released to mark the piece. */
  function EndHash(s: State, i: nat): State
    requires i < |s.want.pieces|
  {
    WithPiece(s, i, s.want.pieces[i].(hashing := false, marking := true))
  }

  /** The rest of pieceHashed and finishHash. */
  function Marked(s: State, i: nat, passed: bool, c: Completion): State
    requires i < |s.want.pieces|
  {
    var s1 := if passed then PendAll(s, i) else Incomplete(s, i);
    var s2 := UpdateCompletion(s1, i, c);
    UpdatePriority(WithPiece(s2, i, s2.want.pieces[i].(marking := false)), i)
  }

  // ---- readers and priorities ----

  function SetReaders(s: State, readers: map<nat, Range>): State {
    s.(want := s.want.(readers := readers, now := ReaderNow(readers), readahead := ReaderReadahead(readers)))
  }

  /** reader.posChanged and readerPosChanged. */
  function MoveReader(s: State, id: nat, to: Range): State
    requires id in s.want.readers
    requires s.want.readers[id].end <= |s.want.pieces| && to.end <= |s.want.pieces|
  {
    var from := s.want.readers[id];
    if from == to then s
    else
      var s1 := SetReaders(s, s.want.readers[id := to]);
      var l := if from.begin > to.begin then to else from;
      var h := if from.begin > to.begin then from else to;
      if l.end < h.begin then
        UpdatePriorities(UpdatePriorities(s1, l.begin, l.end), h.begin, h.end)
      else
        UpdatePriorities(s1, l.begin, if h.end > l.end then h.end else l.end)
  }

  /** deleteReader. */
  function CloseReader(s: State, id: nat): State {
    UpdatePriorities(SetReaders(s, s.want.readers - {id}), 0, |s.want.pieces|)
  }

  function SetPriority(s: State, i: nat, priority: nat): State
    requires i < |s.want.pieces|
  {
    UpdatePriority(WithPiece(s, i, s.want.pieces[i].(priority := priority)), i)
  }

  /** File.SetPriority. */
  function SetFilePriority(s: State, f: nat, priority: nat): State
    requires f < |s.want.files| && s.want.files[f].end <= |s.want.pieces|
  {
    var file := s.want.files[f];
    if priority == file.priority then s
    else
      UpdatePriorities(s.(want := s.want.(files := s.want.files[f := file.(priority := priority)])), file.begin,
                       file.end)
  }

  // ---- wire messages ----

  predicate HaveChunk(s: State, r: nat)
    requires r in s.blocks
  {
    s.blocks[r] in s.want.completed || r in s.net.dirty
  }

  /** Block r exists and connection c may send it. */
  predicate Expected(s: State, c: Peer, r: nat) {
    c in s.net.peers && r in s.blocks && s.blocks[r] < |s.want.pieces| && s.net.peers[c].Expects(r) >= 1
  }

  /** receiveChunk, for a block the connection expects, up to where the lock is released. */
  function ReceiveExpected(s: State, c: Peer, r: nat): State
    requires Expected(s, c, r)
  {
    var s1 := s.(net := Settle(s.net, c, r));
    if HaveChunk(s, r) then s1 else AcceptChunk(s1, c, r)
  }

  /** The middle of receiveChunk, for a block that is new. */
  function AcceptChunk(s: State, c: Peer, r: nat): State
    requires r in s.blocks && s.blocks[r] < |s.want.pieces|
  {
    var i := s.blocks[r];
    var p := s.want.pieces[i];
    WithPiece(s, i, p.(pendingWrites := p.pendingWrites + 1)).(net := Accept(s.net, c, r))
  }

  /** receiveChunk up to where the lock is released to write the block. A bad or unexpected block
      ends the connection. */
  function ReceiveChunk(s: State, c: Peer, r: nat): State
    requires c in s.net.peers && (r in s.blocks ==> s.blocks[r] < |s.want.pieces|)
  {
    if r !in s.blocks || s.net.peers[c].Expects(r) == 0 then s.(net := Drop(s.net, c))
    else ReceiveExpected(s, c, r)
  }

  /** Connection c is writing a block, and its write is counted. */
  predicate Writing(s: State, c: Peer) {
    && c in s.net.writing && s.net.writing[c] in s.blocks
    && s.blocks[s.net.writing[c]] < |s.want.pieces|
    && s.want.pieces[s.blocks[s.net.writing[c]]].pendingWrites > 0
  }

  /** decrementPendingWrites, once connection c has its lock back. */
  function Unwrite(s: State, c: Peer): State
    requires Writing(s, c)
  {
    var i := s.blocks[s.net.writing[c]];
    var p := s.want.pieces[i];
    WithPiece(s, i, p.(pendingWrites := p.pendingWrites - 1)).(net := s.net.(writing := s.net.writing - {c}))
  }

  /** The rest of receiveChunk: the write of connection c's block succeeded or failed. */
  function ChunkWritten(s: State, c: Peer, ok: bool): State
    requires Writing(s, c)
  {
    var r := s.net.writing[c];
    var i := s.blocks[r];
    var s1 := Unwrite(s, c);
    if !ok then s1.(net := s1.net.(dirty := s1.net.dirty - {r}))
    else if AllDirty(s1, i) && s1.want.pieces[i].pendingWrites == 0 then QueueCheck(s1, i)
    else s1
  }

  /** remoteRejectedRequest; a Reject that answers nothing, or comes without BEP 6, ends the
      connection. */
  function RemoteRejected(s: State, c: Peer, r: nat): State
    requires c in s.net.peers && s.net.peers[c].Valid()
  {
    var p := s.net.peers[c];
    ExpectsBoth(p, r);
    if p.fast && r in p.requests + p.cancelled then s.(net := Settle(s.net, c, r))
    else s.(net := Drop(s.net, c))
  }

  /** A Choke message: without BEP 6 it drops every outstanding request. */
  function ChokeMessage(s: State, c: Peer): State
    requires c in s.net.peers
  {
    var p := s.net.peers[c];
    if p.choking then s
    else if p.fast then s.(net := s.net.(peers := s.net.peers[c := p.(choking := true)]))
    else s.(net := Release(s.net, c, p.(choking := true, requests := {})))
  }

  function SetPeer(s: State, c: Peer, p: PeerState): State {
    s.(net := s.net.(peers := s.net.peers[c := p]))
  }

  /** disallowDataDownloadLocked: every connection cancels all it asked for. */
  function Disallow(s: State): State {
    s.(disallowed := true, net := CancelSet(s.net, s.net.holder.Keys))
  }
}
