/** Whole runs of a torrent: any sequence of handler steps from the moment its info is known. */
module SwarmRuns {
  import opened Peers
  import opened Requests
  import opened Wanted
  import opened Swarm
  import opened SwarmSafety

  /** What a connection does: it comes and goes, and its remote peer sends messages. */
  datatype ConnEvent =
    | AddConn(fast: bool, acksCancels: bool)
    | CloseConn
    | DropConn
    | HasPieces(has: set<nat>)
    | Choke
    | Unchoke
    | Reject(r: nat)
    | Chunk(r: nat)
    | Written(ok: bool)

  /** What happens to the wanted pieces. */
  datatype PieceEvent =
    | OpenReader(id: nat)
    | ReaderTo(id: nat, to: Range)
    | EndReader(id: nat)
    | PiecePriority(i: nat, priority: nat)
    | FileWanted(f: nat, priority: nat)
    | Check(i: nat)
    | HashStarted(i: nat)
    | HashEnded(i: nat)
    | HashMarked(i: nat, passed: bool, completion: Completion)
    | CompletionRead(i: nat, completion: Completion)

  datatype Event =
    | Conn(c: Peer, conn: ConnEvent)
    | Pieces(piece: PieceEvent)
    | Ask(c: Peer, r: nat)
    | HedgeTo(c: Peer, r: nat)
    | DisallowDownload
    | AllowDownload

  /** The connection's reader is there to handle a message: it is open and not writing a block. */
  ghost predicate Listening(s: State, c: Peer) {
    c in s.net.peers && !s.net.peers[c].closed && c !in s.net.writing
  }

  /** When the client takes the step. Whatever a remote peer or a user may do is enabled. */
  ghost predicate ConnEnabled(s: State, c: Peer, e: ConnEvent) {
    match e
    case AddConn(fast, acks) => c !in s.net.peers && c !in s.net.writing && (acks ==> fast)
    case CloseConn => c in s.net.peers
    case DropConn => c in s.net.peers
    case Written(_) => c in s.net.writing
    case _ => Listening(s, c)
  }

  ghost predicate PieceEnabled(s: State, e: PieceEvent) {
    match e
    case OpenReader(id) => id !in s.want.readers
    case ReaderTo(id, to) => id in s.want.readers && to.end <= |s.want.pieces|
    case EndReader(_) => true
    case PiecePriority(i, _) => i < |s.want.pieces|
    case FileWanted(f, _) => f < |s.want.files|
    case Check(i) => i < |s.want.pieces|
    case HashStarted(i) =>
      i < |s.want.pieces| && i in s.want.queued && !s.want.pieces[i].hashing && !s.want.pieces[i].marking
    case HashEnded(i) => i < |s.want.pieces| && s.want.pieces[i].hashing
    case HashMarked(i, _, _) => i < |s.want.pieces| && s.want.pieces[i].marking
    case CompletionRead(i, _) => i < |s.want.pieces|
  }

  ghost predicate HedgeEnabled(s: State, c: Peer, r: nat)
  {
    && r in s.blocks && r in s.net.holder && r !in s.net.hedged
    && c in s.net.peers && c != s.net.holder[r] && s.blocks[r] in s.net.peers[c].has
  }

  ghost predicate AskEnabled(s: State, c: Peer, r: nat)
  {
    !s.disallowed && Offered(s.blocks, s.net, s.want.pending, c, r)
  }

  ghost function ConnStep(s: State, c: Peer, e: ConnEvent): State
    requires Inv(s) && ConnEnabled(s, c, e)
  {
    match e
    case AddConn(fast, acks) => SetPeer(s, c, NewPeer(fast, acks))
    case CloseConn => SetPeer(s, c, s.net.peers[c].(closed := true))
    case DropConn => s.(net := Drop(s.net, c))
    case HasPieces(has) => SetPeer(s, c, s.net.peers[c].(has := has))
    case Choke => ChokeMessage(s, c)
    case Unchoke => SetPeer(s, c, s.net.peers[c].(choking := false))
    case Reject(r) => RemoteRejected(s, c, r)
    case Chunk(r) => ReceiveChunk(s, c, r)
    case Written(ok) =>
      WriterCounted(s, c);
      ChunkWritten(s, c, ok)
  }

  ghost function PieceStep(s: State, e: PieceEvent): State
    requires Inv(s) && PieceEnabled(s, e)
  {
    match e
    case OpenReader(id) => SetReaders(s, s.want.readers[id := Range(0, 0)])
    case ReaderTo(id, to) => MoveReader(s, id, to)
    case EndReader(id) => CloseReader(s, id)
    case PiecePriority(i, priority) => SetPriority(s, i, priority)
    case FileWanted(f, priority) => SetFilePriority(s, f, priority)
    case Check(i) => QueueCheck(s, i)
    case HashStarted(i) => StartHash(s, i)
    case HashEnded(i) => EndHash(s, i)
    case HashMarked(i, passed, completion) => Marked(s, i, passed, completion)
    case CompletionRead(i, completion) => UpdateCompletion(s, i, completion)
  }

  /** One step of the torrent; an event that is not enabled changes nothing. */
  ghost function Step(s: State, e: Event): State
    requires Inv(s)
  {
    match e
    case Conn(c, conn) => if ConnEnabled(s, c, conn) then ConnStep(s, c, conn) else s
    case Pieces(piece) => if PieceEnabled(s, piece) then PieceStep(s, piece) else s
    case Ask(c, r) => if AskEnabled(s, c, r) then s.(net := Acquire(s.net, c, r)) else s
    case HedgeTo(c, r) => if HedgeEnabled(s, c, r) then s.(net := Hedge(s.net, c, r)) else s
    case DisallowDownload => Disallow(s)
    case AllowDownload => s.(disallowed := false)
  }

  lemma ConnStepKeeps(s: State, c: Peer, e: ConnEvent)
    requires Inv(s) && ConnEnabled(s, c, e)
    ensures Inv(ConnStep(s, c, e))
  {
    match e
    case AddConn(fast, acks) => AddConnKeeps(s, c, fast, acks);
    case CloseConn => SetPeerKeeps(s, c, s.net.peers[c].(closed := true));
    case DropConn => DropConnKeeps(s, c);
    case HasPieces(has) => SetPeerKeeps(s, c, s.net.peers[c].(has := has));
    case Choke => ChokeMessageKeeps(s, c);
    case Unchoke => SetPeerKeeps(s, c, s.net.peers[c].(choking := false));
    case Reject(r) => RemoteRejectedKeeps(s, c, r);
    case Chunk(r) => ReceiveChunkKeeps(s, c, r);
    case Written(ok) => ChunkWrittenKeeps(s, c, ok);
  }

  lemma PieceStepKeeps(s: State, e: PieceEvent)
    requires Inv(s) && PieceEnabled(s, e)
    ensures Inv(PieceStep(s, e))
  {
    match e
    case OpenReader(id) => OpenReaderKeeps(s, id);
    case ReaderTo(id, to) => MoveReaderKeeps(s, id, to);
    case EndReader(id) => CloseReaderKeeps(s, id);
    case PiecePriority(i, priority) => SetPriorityKeeps(s, i, priority);
    case FileWanted(f, priority) => SetFilePriorityKeeps(s, f, priority);
    case Check(i) => QueueCheckKeeps(s, i);
    case HashStarted(i) => StartHashKeeps(s, i);
    case HashEnded(i) => EndHashKeeps(s, i);
    case HashMarked(i, passed, completion) => MarkedKeeps(s, i, passed, completion);
    case CompletionRead(i, completion) => UpdateCompletionKeeps(s, i, completion);
  }

  lemma StepKeeps(s: State, e: Event)
    requires Inv(s)
    ensures Inv(Step(s, e))
  {
    match e
    case Conn(c, conn) => if ConnEnabled(s, c, conn) { ConnStepKeeps(s, c, conn); }
    case Pieces(piece) => if PieceEnabled(s, piece) { PieceStepKeeps(s, piece); }
    case Ask(c, r) => if AskEnabled(s, c, r) { AskKeeps(s, c, r); }
    case HedgeTo(c, r) => if HedgeEnabled(s, c, r) { HedgeToKeeps(s, c, r); }
    case DisallowDownload => DisallowKeeps(s);
    case AllowDownload =>
  }

  lemma AddConnKeeps(s: State, c: Peer, fast: bool, acks: bool)
    requires Inv(s) && c !in s.net.peers && (acks ==> fast)
    ensures Inv(SetPeer(s, c, NewPeer(fast, acks)))
  {
    var n := SetPeer(s, c, NewPeer(fast, acks)).net;
    AddPeerKeeps(s.blocks, s.net, s.want.pending, c, NewPeer(fast, acks));
    NetChangeKeeps(s, n);
  }

  lemma AskKeeps(s: State, c: Peer, r: nat)
    requires Inv(s) && AskEnabled(s, c, r)
    ensures Inv(s.(net := Acquire(s.net, c, r)))
  {
    AcquireKeeps(s.blocks, s.net, s.want.pending, c, r);
    AcquireWriting(s.net, c, r);
    NetChangeKeeps(s, Acquire(s.net, c, r));
  }

  lemma AcquireWriting(n: Net, c: Peer, r: nat)
    requires c in n.peers
    ensures Acquire(n, c, r).writing == n.writing
  {
  }

  lemma HedgeToKeeps(s: State, c: Peer, r: nat)
    requires Inv(s) && HedgeEnabled(s, c, r)
    ensures Inv(s.(net := Hedge(s.net, c, r)))
  {
    HedgeKeeps(s.blocks, s.net, s.want.pending, c, r);
    NetChangeKeeps(s, Hedge(s.net, c, r));
  }

  lemma OpenReaderKeeps(s: State, id: nat)
    requires Inv(s) && id !in s.want.readers
    ensures Inv(SetReaders(s, s.want.readers[id := Range(0, 0)]))
  {
    var readers := s.want.readers;
    var readers' := readers[id := Range(0, 0)];
    forall i: nat
      ensures i in ReaderNow(readers') <==> i in ReaderNow(readers)
      ensures i in ReaderReadahead(readers') <==> i in ReaderReadahead(readers)
    {
      EmptyReader(readers, id, i);
    }
    assert ReaderNow(readers') == ReaderNow(readers);
    assert ReaderReadahead(readers') == ReaderReadahead(readers);
    var w := s.want.(readers := readers');
    assert forall j | 0 <= j < |w.pieces| :: UncachedPriority(w, j) == UncachedPriority(s.want, j);
  }

  lemma EmptyReader(readers: map<nat, Range>, id: nat, i: nat)
    requires id !in readers
    ensures i in ReaderNow(readers[id := Range(0, 0)]) <==> i in ReaderNow(readers)
    ensures i in ReaderReadahead(readers[id := Range(0, 0)]) <==> i in ReaderReadahead(readers)
  {
    var readers' := readers[id := Range(0, 0)];
    if i in ReaderNow(readers) {
      var x :| x in readers && readers[x].begin < readers[x].end && readers[x].begin == i;
      assert x in readers' && readers'[x] == readers[x];
    }
    if i in ReaderReadahead(readers) {
      var x :| x in readers && i in readers[x].Tail();
      assert x in readers' && readers'[x] == readers[x];
    }
    if i in ReaderNow(readers') {
      var x :| x in readers' && readers'[x].begin < readers'[x].end && readers'[x].begin == i;
      assert x in readers;
    }
    if i in ReaderReadahead(readers') {
      var x :| x in readers' && i in readers'[x].Tail();
      assert x in readers;
    }
  }

  // ---- runs ----

  /** A connection that has not been asked for anything, whatever it has told us. */
  predicate Idle(p: PeerState) {
    p.requests == {} && p.cancelled == {} && p.expected == map[] && (p.acksCancels ==> p.fast)
  }

  /** A torrent whose info has just become known; connections may have been open before. */
  ghost predicate Started(s: State) {
    && (forall r | r in s.blocks :: s.blocks[r] < |s.want.pieces|)
    && s.net == Net(s.net.peers, map[], {}, map[], {}, map[]) && (forall p | p in s.net.peers :: Idle(s.net.peers[p]))
    && s.want.completed == {} && s.want.queued == {} && s.want.pending == {}
    && s.want.readers == map[] && s.want.now == {} && s.want.readahead == {}
    && (forall p | p in s.want.pieces :: p == Piece(false, false, false, PRIORITY_NONE, 0))
    && (forall f | f in s.want.files :: f.end <= |s.want.pieces| && f.priority == PRIORITY_NONE)
  }

  lemma {:induction false} NoFileWanted(files: seq<File>, i: nat)
    requires forall f | f in files :: f.priority == PRIORITY_NONE
    ensures FilePriority(files, i) == PRIORITY_NONE
  {
    if files != [] {
      assert files[|files| - 1] in files;
      NoFileWanted(files[..|files| - 1], i);
    }
  }

  lemma StartedInv(s: State)
    requires Started(s)
    ensures Inv(s)
  {
    forall j | 0 <= j < |s.want.pieces|
      ensures UncachedPriority(s.want, j) == PRIORITY_NONE
      ensures s.want.pieces[j].pendingWrites == |Writers(s.blocks, s.net, j)|
    {
      NoFileWanted(s.want.files, j);
      assert s.want.pieces[j] in s.want.pieces;
      assert Writers(s.blocks, s.net, j) == {};
    }
  }

  /** The state after a run. The invariant holds after every run, of any length. */
  ghost function After(s: State, events: seq<Event>): (s': State)
    requires Inv(s)
    ensures Inv(s')
  {
    if events == [] then s
    else
      var before := After(s, events[..|events| - 1]);
      StepKeeps(before, events[|events| - 1]);
      Step(before, events[|events| - 1])
  }

  /** The steps of a request update that asks p for these blocks in turn. */
  function Asked(p: Peer, rs: seq<nat>): seq<Event> {
    seq(|rs|, k requires 0 <= k < |rs| => Ask(p, rs[k]))
  }

  lemma AskStep(s: State, p: Peer, r: nat)
    requires Inv(s) && AskEnabled(s, p, r)
    ensures Step(s, Ask(p, r)) == s.(net := Acquire(s.net, p, r))
  {
  }

  lemma AskedMore(s: State, p: Peer, rs: seq<nat>, r: nat)
    requires Inv(s)
    ensures After(s, Asked(p, rs + [r])) == Step(After(s, Asked(p, rs)), Ask(p, r))
  {
    var events := Asked(p, rs + [r]);
    assert events[..|events| - 1] == Asked(p, rs);
  }

  /** What the invariant says about one state: the pending pieces are exactly the pieces somebody
      wants, no block is asked of two peers or duplicated twice, and nothing is asked for that is already here or lies
      in a piece being checked. */
  ghost predicate Safe(s: State) {
    && (forall i: nat :: i in s.want.pending <==> i < |s.want.pieces| && IsWanted(s.want, i))
    && (forall r | r in s.net.holder :: r in s.blocks && !HaveChunk(s, r) && Unchecked(s, s.blocks[r]))
    && (forall p, q, r | p in s.net.peers && q in s.net.peers
          && r in s.net.peers[p].requests && r in s.net.peers[q].requests :: p == q)
    && HedgedOnce(s.net)
    && (s.disallowed ==> s.net.holder == map[])
  }

  /** A reader, a file or the piece's own priority asks for the piece, and it is still to be had. */
  ghost predicate IsWanted(w: Want, i: nat)
    requires i < |w.pieces|
  {
    !Settled(w, i) && (ReaderWants(w, i) || FileWants(w.files, i) || w.pieces[i].priority > PRIORITY_NONE)
  }

  ghost predicate Unchecked(s: State, i: nat) {
    i < |s.want.pieces| && i !in s.want.queued && !s.want.pieces[i].hashing && !s.want.pieces[i].marking
  }

  lemma OutstandingSafe(s: State, r: nat)
    requires Inv(s) && r in s.net.holder
    ensures r in s.blocks && !HaveChunk(s, r) && Unchecked(s, s.blocks[r])
  {
    var i := s.blocks[r];
    assert i in s.want.pending;
    assert UncachedPriority(s.want, i) != PRIORITY_NONE;
  }

  lemma OneHolder(n: Net, p: Peer, q: Peer, r: nat)
    requires Owned(n) && p in n.peers && q in n.peers
    requires r in n.peers[p].requests && r in n.peers[q].requests
    ensures p == q
  {
    assert n.holder[r] == p && n.holder[r] == q;
  }

  lemma RunSafe(s: State, events: seq<Event>)
    requires Started(s)
    ensures Inv(s) && Safe(After(s, events))
  {
    StartedInv(s);
    var s' := After(s, events);
    forall i: nat
      ensures i in s'.want.pending <==> i < |s'.want.pieces| && IsWanted(s'.want, i)
    {
      if i < |s'.want.pieces| {
        WantedIff(s'.want, i);
      }
    }
    forall r | r in s'.net.holder
      ensures r in s'.blocks && !HaveChunk(s', r) && Unchecked(s', s'.blocks[r])
    {
      OutstandingSafe(s', r);
    }
    forall p, q, r | p in s'.net.peers && q in s'.net.peers
                     && r in s'.net.peers[p].requests && r in s'.net.peers[q].requests
      ensures p == q
    {
      OneHolder(s'.net, p, q, r);
    }
  }

  lemma ConnBooks(s: State, c: Peer)
    requires Inv(s) && c in s.net.peers
    ensures s.net.peers[c].Valid()
    ensures forall r | r in s.net.peers[c].requests :: r in s.net.holder && s.net.holder[r] == c
  {
  }

  lemma RejectSurvived(s: State, c: Peer, r: nat)
    requires c in s.net.peers && s.net.peers[c].Valid()
    ensures c in RemoteRejected(s, c, r).net.peers <==>
            s.net.peers[c].fast && (r in s.net.peers[c].requests || r in s.net.peers[c].cancelled)
  {
  }

  /** A hedge's duplicate is on neither list of the peer it goes to unless an earlier request to that peer for the
      same block is still being cancelled: exactly then the connection survives rejecting it. */
  lemma HedgeRejectedIff(s: State, c: Peer, r: nat)
    requires Inv(s) && HedgeEnabled(s, c, r)
    ensures var s' := Step(s, HedgeTo(c, r));
            && Inv(s') && c in s'.net.peers && s'.net.peers[c].Valid()
            && (c in RemoteRejected(s', c, r).net.peers <==> s.net.peers[c].fast && r in s.net.peers[c].cancelled)
  {
    hide Inv, RemoteRejected, ConnStep, PieceStep, PeerState.Valid;
    var s' := Step(s, HedgeTo(c, r));
    HedgeToKeeps(s, c, r);
    ConnBooks(s, c);
    ConnBooks(s', c);
    RejectSurvived(s', c, r);
  }
}
