/** What an event of a torrent's run does, said of one block or one connection at a time: who holds a block, what a
    connection is expected to send, which blocks are here and which pieces go to be checked. */
module EventLaws {
  import opened Wrappers
  import opened Layouts
  import opened Peers
  import opened Requests
  import opened Wanted
  import opened Swarm
  import opened SwarmSafety
  import opened SwarmRuns
  import opened SwarmLaws

  // ---- what can happen to a block ----

  /** Connection p answers its request for block r, or the cancel of one, with the block or a refusal. */
  ghost predicate Answers(s: State, e: Event, p: Peer, r: nat) {
    && e.Conn? && e.c == p && Listening(s, p)
    && var q := s.net.peers[p];
       (e.conn == Chunk(r) && r in s.blocks && q.Expects(r) >= 1)
       || (e.conn == Reject(r) && q.fast && (r in q.requests || r in q.cancelled))
  }

  /** Connection p goes, or is dropped for a block or a refusal nobody asked it for. */
  ghost predicate Leaves(s: State, e: Event, p: Peer) {
    && e.Conn? && e.c == p && p in s.net.peers
    && match e.conn
       case DropConn => true
       case Chunk(r) => Listening(s, p) && !Answers(s, e, p, r)
       case Reject(r) => Listening(s, p) && !Answers(s, e, p, r)
       case _ => false
  }

  /** Block r arrives from a connection that was to send it, and is new. */
  ghost predicate Arrives(s: State, e: Event, r: nat) {
    e.Conn? && e.conn == Chunk(r) && Answers(s, e, e.c, r) && !HaveChunk(s, r)
  }

  /** Connection p, which does not know the fast extension, refuses all its requests by choking. */
  ghost predicate ChokesOff(s: State, e: Event, p: Peer) {
    e.Conn? && e.c == p && e.conn.Choke? && Listening(s, p) && !s.net.peers[p].fast
  }

  /** The event asks the connection it names for block r. */
  ghost predicate Asked(s: State, e: Event, r: nat) {
    e.Ask? && e.r == r && AskEnabled(s, e.c, r)
  }

  /** The event sends a duplicate request for block r to the connection it names. */
  ghost predicate Hedged(s: State, e: Event, r: nat) {
    e.HedgeTo? && e.r == r && HedgeEnabled(s, e.c, r)
  }

  /** The request for block r with its holder ends: answered, or with the connection, or by a choke, or because the
      block came from elsewhere, or nothing may be downloaded, or the piece is no longer wanted. */
  ghost predicate Ends(s: State, e: Event, r: nat)
    requires Inv(s) && r in s.net.holder && r in s.blocks
  {
    var p := s.net.holder[r];
    || Answers(s, e, p, r) || Leaves(s, e, p) || ChokesOff(s, e, p)
    || Arrives(s, e, r) || e.DisallowDownload? || s.blocks[r] !in Step(s, e).want.pending
  }

  /** Connection c ends the write of block r. */
  ghost predicate Writes(s: State, e: Event, c: Peer, r: nat, ok: bool) {
    e == Conn(c, Written(ok)) && c in s.net.writing && s.net.writing[c] == r
  }

  /** The last writer of piece i ends its write, and every block of the piece is there. */
  ghost predicate Finishes(s: State, e: Event, i: nat) {
    && e.Conn? && e.conn == Written(true) && e.c in s.net.writing
    && s.net.writing[e.c] in s.blocks && s.blocks[s.net.writing[e.c]] == i
    && AllDirty(s, i) && Writers(s.blocks, s.net, i) == {e.c}
  }

  /** Block r, which was here, is missing again. */
  ghost predicate Loses(s: State, e: Event, r: nat)
    requires r in s.blocks && s.blocks[r] < |s.want.pieces|
  {
    || (e.Conn? && Writes(s, e, e.c, r, false))
    || (e.Pieces? && PieceEnabled(s, e.piece) && Clears(s, e.piece, s.blocks[r]))
  }

  // ---- writes ----

  /** From s to s' connection c has ended its write: its block is missing again if the write failed, and the piece goes
      to be checked if it was the last thing missing. */
  ghost predicate WriteEnded(s: State, s': State, c: Peer, ok: bool)
    requires c in s.net.writing && s.net.writing[c] in s.blocks
  {
    var r := s.net.writing[c];
    && s'.net.writing == s.net.writing - {c}
    && s'.net.dirty == (if ok then s.net.dirty else s.net.dirty - {r})
    && Withdrawn(s.net.(writing := s'.net.writing, dirty := s'.net.dirty), s'.net) && Unwanted(s, s')
    && SameButWrites(s.want, s'.want)
    && s'.want.queued == (if Finishes(s, Conn(c, Written(ok)), s.blocks[r]) then s.want.queued + {s.blocks[r]}
                          else s.want.queued)
    && s'.blocks == s.blocks && s'.disallowed == s.disallowed
  }

  /** The wants differ in what is pending, queued or being written. */
  ghost predicate SameButWrites(w: Want, w': Want) {
    && w' == w.(pieces := w'.pieces, queued := w'.queued, pending := w'.pending) && |w'.pieces| == |w.pieces|
    && (forall j | 0 <= j < |w.pieces| ::
          w'.pieces[j] == w.pieces[j].(pendingWrites := w'.pieces[j].pendingWrites))
  }

  lemma WrittenCases(s: State, c: Peer, ok: bool)
    requires Inv(s) && c in s.net.writing
    ensures Writing(s, c) && s.net.writing[c] in s.blocks
    ensures var r, s1, s' := s.net.writing[c], Unwrite(s, c), Step(s, Conn(c, Written(ok)));
            var i := s.blocks[r];
            if !ok then s' == s1.(net := s1.net.(dirty := s1.net.dirty - {r}))
            else if Finishes(s, Conn(c, Written(ok)), i) then s' == QueueCheck(s1, i)
            else s' == s1
  {
    WriterCounted(s, c);
    LastWriter(s, c);
    hide Inv, Writers, QueueCheck;
  }

  lemma WrittenLaw(s: State, c: Peer, ok: bool)
    requires Inv(s) && c in s.net.writing
    ensures s.net.writing[c] in s.blocks && WriteEnded(s, Step(s, Conn(c, Written(ok))), c, ok)
  {
    WrittenCases(s, c, ok);
    InvBooks(s);
    hide Inv, Books, Withdrawn, UncachedPriority, UpdatePriority, Finishes, Step, Unwanted, SameButWrites;
    var r, s1 := s.net.writing[c], Unwrite(s, c);
    var i := s.blocks[r];
    var s2 := s1.(want := s1.want.(queued := s1.want.queued + {i}));
    assert i in s.want.queued ==> s.want.queued + {i} == s.want.queued;
    if ok && Finishes(s, Conn(c, Written(ok)), i) && i !in s.want.queued {
      WritingBooks(s.net, s1.net.writing, s.net.dirty);
      UpdateWithdraws(s2, i);
      UnwriteOnly(s, c, s.want.queued + {i}, UpdatePriority(s2, i).want.pending);
      SameUnwanted(s, s2, UpdatePriority(s2, i));
    } else {
      var dirty := if ok then s.net.dirty else s.net.dirty - {r};
      WritingBooks(s.net, s1.net.writing, dirty);
      NothingWithdrawn(s1.net.(dirty := dirty));
      NotFinished(s, c);
      UnwriteOnly(s, c, s.want.queued, s.want.pending);
      NothingUnwanted(s, s1.(net := s1.net.(dirty := dirty)));
    }
  }

  lemma UnwriteOnly(s: State, c: Peer, queued: set<nat>, pending: set<nat>)
    requires Writing(s, c)
    ensures SameButWrites(s.want, Unwrite(s, c).want.(queued := queued, pending := pending))
  {
  }

  lemma SameUnwanted(s: State, s1: State, s2: State)
    requires s1.net.holder == s.net.holder && s1.blocks == s.blocks && Unwanted(s1, s2)
    ensures Unwanted(s, s2)
  {
  }

  lemma NothingUnwanted(s: State, s': State)
    requires s'.net.holder == s.net.holder
    ensures Unwanted(s, s')
  {
  }

  lemma NotFinished(s: State, c: Peer)
    requires c in s.net.writing && s.net.writing[c] in s.blocks
    ensures !Finishes(s, Conn(c, Written(false)), s.blocks[s.net.writing[c]])
  {
  }

  lemma WritingBooks(n: Net, writing: map<Peer, nat>, dirty: set<nat>)
    requires Books(n)
    ensures Books(n.(writing := writing, dirty := dirty))
  {
  }

  /** A piece has one writer left exactly when its count is one. */
  lemma LastWriter(s: State, c: Peer)
    requires Inv(s) && Writing(s, c)
    ensures var i := s.blocks[s.net.writing[c]];
            s.want.pieces[i].pendingWrites == 1 <==> Writers(s.blocks, s.net, i) == {c}
  {
    var i := s.blocks[s.net.writing[c]];
    var w := Writers(s.blocks, s.net, i);
    assert c in w && s.want.pieces[i].pendingWrites == |w|;
    if |w| == 1 {
      assert w == (w - {c}) + {c};
      assert w - {c} == {};
    }
  }

  // ---- the laws ----

  /** Disallow withdraws every request. */
  lemma DisallowWithdraws(s: State)
    requires Inv(s)
    ensures Withdrawn(s.net, Disallow(s).net) && Disallow(s).net.holder == map[]
  {
    CancelWithdraws(s.net, s.net.holder.Keys);
  }

  /** What an event of a connection does to the books. */
  datatype Effect =
    | Joins(fast: bool, acksCancels: bool)
    | Goes
    | Replies(r: nat, first: bool)
    | Refuses
    | Says(q: PeerState)

  ghost predicate Possible(n: Net, c: Peer, f: Effect) {
    && (!f.Joins? ==> c in n.peers)
    && (f.Replies? ==> n.peers[c].Expects(f.r) >= 1)
    && (f.Says? ==> f.q == n.peers[c].(closed := f.q.closed, choking := f.q.choking, has := f.q.has))
    && (f.Refuses? ==> !n.peers[c].fast)
  }

  ghost function Applied(n: Net, c: Peer, f: Effect): Net
    requires Possible(n, c, f)
  {
    match f
    case Joins(fast, acks) => n.(peers := n.peers[c := NewPeer(fast, acks)])
    case Goes => Drop(n, c)
    case Replies(r, first) => if first then Accept(Settle(n, c, r), c, r) else Settle(n, c, r)
    case Refuses => Release(n, c, n.peers[c].(choking := true, requests := {}))
    case Says(q) => n.(peers := n.peers[c := q])
  }

  ghost function EffectOf(s: State, c: Peer, e: ConnEvent): Effect
    requires ConnEnabled(s, c, e) && !e.Written?
  {
    match e
    case AddConn(fast, acks) => Joins(fast, acks)
    case CloseConn => Says(s.net.peers[c].(closed := true))
    case DropConn => Goes
    case HasPieces(has) => Says(s.net.peers[c].(has := has))
    case Choke => if s.net.peers[c].fast then Says(s.net.peers[c].(choking := true)) else Refuses
    case Unchoke => Says(s.net.peers[c].(choking := false))
    case Reject(r) => if Answers(s, Conn(c, e), c, r) then Replies(r, false) else Goes
    case Chunk(r) => if Answers(s, Conn(c, e), c, r) then Replies(r, !HaveChunk(s, r)) else Goes
  }

  lemma ChokeEffect(s: State, c: Peer)
    requires c in s.net.peers && s.net.peers[c].Valid()
    ensures ChokeMessage(s, c).net ==
            Applied(s.net, c, if s.net.peers[c].fast then Says(s.net.peers[c].(choking := true)) else Refuses)
  {
    var q := s.net.peers[c];
    if q.choking {
      assert q.(choking := true) == q && s.net.peers[c := q] == s.net.peers;
      if !q.fast {
        assert q.(choking := true, requests := {}) == q && s.net.holder - {} == s.net.holder;
        assert s.net.hedged - {} == s.net.hedged;
      }
    }
  }

  lemma RejectEffect(s: State, c: Peer, r: nat)
    requires ConnEnabled(s, c, Reject(r)) && s.net.peers[c].Valid()
    ensures var f := EffectOf(s, c, Reject(r));
            Possible(s.net, c, f) && RemoteRejected(s, c, r) == s.(net := Applied(s.net, c, f))
  {
    ExpectsBoth(s.net.peers[c], r);
    hide Settle, Drop;
  }

  lemma ChunkEffect(s: State, c: Peer, r: nat)
    requires ConnEnabled(s, c, Chunk(r)) && (r in s.blocks ==> s.blocks[r] < |s.want.pieces|)
    ensures var f := EffectOf(s, c, Chunk(r));
            && Possible(s.net, c, f) && ReceiveChunk(s, c, r).net == Applied(s.net, c, f)
            && ReceiveChunk(s, c, r).want.pending == s.want.pending
  {
    hide Settle, Drop, Accept;
  }

  lemma ConnEffect(s: State, c: Peer, e: ConnEvent)
    requires Inv(s) && ConnEnabled(s, c, e) && !e.Written?
    ensures Possible(s.net, c, EffectOf(s, c, e)) && ConnStep(s, c, e).net == Applied(s.net, c, EffectOf(s, c, e))
    ensures ConnStep(s, c, e).want.pending == s.want.pending
  {
    assert c in s.net.peers ==> s.net.peers[c].Valid();
    assert forall r | r in s.blocks :: s.blocks[r] < |s.want.pieces|;
    match e
    case Choke =>
      ChokeEffect(s, c);
      hide Inv, Applied;
    case Reject(r) =>
      hide Inv;
      RejectEffect(s, c, r);
      hide RemoteRejected, Applied, Possible, EffectOf;
    case Chunk(r) =>
      hide Inv;
      ChunkEffect(s, c, r);
      hide ReceiveChunk, Applied, Possible, EffectOf;
    case _ => hide Inv, Drop;
  }

  lemma EffectMeans(s: State, c: Peer, e: ConnEvent, r: nat)
    requires ConnEnabled(s, c, e) && !e.Written?
    ensures var f, ev := EffectOf(s, c, e), Conn(c, e);
            && (Answers(s, ev, c, r) <==> f.Replies? && f.r == r) && (Arrives(s, ev, r) <==> f == Replies(r, true))
            && (Leaves(s, ev, c) <==> f.Goes?) && (ChokesOff(s, ev, c) <==> f.Refuses?)
  {
    match e
    case Reject(_) => hide PeerState.Expects;
    case Chunk(_) => hide PeerState.Expects;
    case _ =>
  }

  /** What a message or a connection does to the blocks that are here or being written. */
  lemma ConnStores(s: State, c: Peer, e: ConnEvent)
    requires Inv(s) && ConnEnabled(s, c, e) && !e.Written?
    ensures var n, n' := s.net, ConnStep(s, c, e).net;
            if e.Chunk? && Arrives(s, Conn(c, e), e.r) then
              n'.dirty == n.dirty + {e.r} && n'.writing == n.writing[c := e.r]
            else
              n'.dirty == n.dirty && n'.writing == n.writing
  {
    ConnEffect(s, c, e);
    hide Inv, ConnStep;
  }

  /** A block a connection was to send is here once it has sent it, new or not. */
  lemma ReceivedIsHere(s: State, c: Peer, r: nat)
    requires Inv(s) && Listening(s, c) && r in s.blocks && s.net.peers[c].Expects(r) >= 1
    ensures var s' := Step(s, Conn(c, Chunk(r))); s'.blocks == s.blocks && HaveChunk(s', r)
  {
    ConnStores(s, c, Chunk(r));
    ConnWant(s, c, Chunk(r));
    BlocksStay(s, Conn(c, Chunk(r)));
    hide Inv, ConnStep;
  }

  lemma PieceStores(s: State, e: PieceEvent)
    requires Inv(s) && PieceEnabled(s, e)
    ensures PieceStep(s, e).net.dirty == DirtyAfter(s, e) && PieceStep(s, e).net.writing == s.net.writing
  {
    PieceAdjusts(s, e);
    hide Inv, PieceStep, Unwanted, WantAfter, DirtyAfter;
  }

  lemma OtherStores(s: State, e: Event)
    requires Inv(s) && (e.Ask? || e.HedgeTo? || e.DisallowDownload? || e.AllowDownload?)
    ensures Step(s, e).net.dirty == s.net.dirty && Step(s, e).net.writing == s.net.writing
  {
    hide Inv;
  }

  /** A block is here after an event iff it has just arrived, or it was here and neither its write failed nor its piece
      was cleared. */
  lemma DirtyLaw(s: State, e: Event, r: nat)
    requires Inv(s) && r in s.blocks && s.blocks[r] < |s.want.pieces|
    ensures r in Step(s, e).net.dirty <==> Arrives(s, e, r) || (r in s.net.dirty && !Loses(s, e, r))
  {
    match e
    case Conn(c, conn) =>
      if ConnEnabled(s, c, conn) {
        if conn.Written? {
          WrittenLaw(s, c, conn.ok);
          hide Inv, Step, Withdrawn, Finishes, Unwanted, SameButWrites;
        } else {
          ConnStores(s, c, conn);
          hide Inv, ConnStep;
        }
      }
    case Pieces(piece) =>
      if PieceEnabled(s, piece) {
        PieceStores(s, piece);
        hide Inv, PieceStep, Clears;
        assert r in BlockSet(s.blocks, s.blocks[r]);
      }
    case _ =>
      OtherStores(s, e);
      hide Inv, Step;
  }

  /** Connection c is writing block r after an event iff the block has just arrived from it, or it was writing it and
      has not ended. */
  lemma WritingLaw(s: State, e: Event, c: Peer, r: nat)
    requires Inv(s)
    ensures c in Step(s, e).net.writing && Step(s, e).net.writing[c] == r <==>
            || (e.Conn? && e.c == c && Arrives(s, e, r))
            || (c in s.net.writing && s.net.writing[c] == r && !(e.Conn? && e.c == c && e.conn.Written?))
  {
    match e
    case Conn(d, conn) =>
      if ConnEnabled(s, d, conn) {
        if conn.Written? {
          WrittenLaw(s, d, conn.ok);
          hide Inv, Step, Withdrawn, Finishes, Unwanted, SameButWrites;
        } else {
          ConnStores(s, d, conn);
          hide Inv, ConnStep;
        }
      }
    case Pieces(piece) =>
      if PieceEnabled(s, piece) {
        PieceStores(s, piece);
        hide Inv, PieceStep, DirtyAfter;
      }
    case _ =>
      OtherStores(s, e);
      hide Inv, Step;
  }

  // ---- who holds a block ----

  lemma AppliedHolds(n: Net, c: Peer, f: Effect, r: nat)
    requires Possible(n, c, f)
    requires c in n.peers ==> (r in n.peers[c].requests <==> r in n.holder && n.holder[r] == c)
    ensures var n' := Applied(n, c, f);
            && (r in n'.holder <==> r in n.holder && f != Replies(r, true)
                                    && !(n.holder[r] == c && (f.Goes? || f.Refuses? || f == Replies(r, false))))
            && (r in n'.holder ==> n'.holder[r] == n.holder[r])
  {
    match f
    case Replies(x, first) => hide PeerState.Settle;
    case _ =>
  }

  lemma ConnHolds(s: State, c: Peer, e: ConnEvent, r: nat)
    requires Inv(s) && ConnEnabled(s, c, e) && !e.Written?
    ensures var n, n', ev := s.net, ConnStep(s, c, e).net, Conn(c, e);
            && (r in n'.holder <==>
                  && r in n.holder && !Arrives(s, ev, r)
                  && !(n.holder[r] == c && (Answers(s, ev, c, r) || Leaves(s, ev, c) || ChokesOff(s, ev, c))))
            && (r in n'.holder ==> n'.holder[r] == n.holder[r])
    ensures ConnStep(s, c, e).want.pending == s.want.pending
  {
    ConnEffect(s, c, e);
    EffectMeans(s, c, e, r);
    var f := EffectOf(s, c, e);
    assert c in s.net.peers ==> (r in s.net.peers[c].requests <==> r in s.net.holder && s.net.holder[r] == c);
    AppliedHolds(s.net, c, f, r);
    hide Inv, ConnStep, Answers, Leaves, ChokesOff, Arrives, Applied, EffectOf;
  }

  /** When requests are withdrawn for unwanted pieces only, exactly the blocks of pieces still wanted keep a holder. */
  lemma StillWanted(s: State, n: Net, s': State, r: nat)
    requires Inv(s') && s'.blocks == s.blocks && n.holder == s.net.holder && Withdrawn(n, s'.net) && Unwanted(s, s')
    ensures r in s'.net.holder <==> r in s.net.holder && r in s.blocks && s.blocks[r] in s'.want.pending
    ensures r in s'.net.holder ==> s'.net.holder[r] == s.net.holder[r]
  {
  }

  lemma WrittenHolds(s: State, c: Peer, ok: bool, r: nat)
    requires Inv(s) && c in s.net.writing
    ensures var s' := Step(s, Conn(c, Written(ok)));
            && (r in s'.net.holder <==> r in s.net.holder && r in s.blocks && s.blocks[r] in s'.want.pending)
            && (r in s'.net.holder ==> s'.net.holder[r] == s.net.holder[r])
  {
    WrittenLaw(s, c, ok);
    var s' := Step(s, Conn(c, Written(ok)));
    StepKeeps(s, Conn(c, Written(ok)));
    hide Inv, Step, Withdrawn, Finishes, Unwanted, SameButWrites;
    StillWanted(s, s.net.(writing := s'.net.writing, dirty := s'.net.dirty), s', r);
  }

  lemma PieceHolds(s: State, e: PieceEvent, r: nat)
    requires Inv(s) && PieceEnabled(s, e)
    ensures var s' := PieceStep(s, e);
            && (r in s'.net.holder <==> r in s.net.holder && r in s.blocks && s.blocks[r] in s'.want.pending)
            && (r in s'.net.holder ==> s'.net.holder[r] == s.net.holder[r])
  {
    PieceAdjusts(s, e);
    PieceStepKeeps(s, e);
    hide Inv, PieceStep, Withdrawn, Unwanted, WantAfter, DirtyAfter;
    StillWanted(s, s.net.(dirty := DirtyAfter(s, e)), PieceStep(s, e), r);
  }

  lemma OtherHolds(s: State, e: Event, r: nat)
    requires Inv(s) && (e.Ask? || e.HedgeTo? || e.DisallowDownload? || e.AllowDownload?)
    ensures var n, n' := s.net, Step(s, e).net;
            && (r in n'.holder <==> Asked(s, e, r) || (r in n.holder && !e.DisallowDownload?))
            && (r in n'.holder ==> n'.holder[r] == if Asked(s, e, r) then e.c else n.holder[r])
    ensures Step(s, e).want == s.want
  {
    InvBooks(s);
    assert e.Ask? && e.c in s.net.peers && e.r in s.net.peers[e.c].requests ==>
        e.r in s.net.holder && s.net.holder[e.r] == e.c;
    hide Inv, Books;
  }

  lemma HeldPending(s: State, r: nat)
    requires Inv(s) && r in s.net.holder
    ensures r in s.blocks && s.blocks[r] in s.want.pending
  {
  }

  /** Block r has a holder in n' iff the event asked for it, or it had one and `ends` is false; the holder is the
      connection asked last. */
  ghost predicate HeldUnless(s: State, e: Event, n': Net, r: nat, ends: bool) {
    && (r in n'.holder <==> Asked(s, e, r) || (r in s.net.holder && !ends))
    && (r in n'.holder && Asked(s, e, r) ==> n'.holder[r] == e.c)
    && (r in n'.holder && !Asked(s, e, r) ==> r in s.net.holder && n'.holder[r] == s.net.holder[r])
  }

  lemma ConnEnds(s: State, c: Peer, e: ConnEvent, r: nat)
    requires Inv(s) && ConnEnabled(s, c, e) && r in s.net.holder && r in s.blocks
    ensures var p, ev := s.net.holder[r], Conn(c, e);
            Ends(s, ev, r) <==>
            || Arrives(s, ev, r) || s.blocks[r] !in ConnStep(s, c, e).want.pending
            || (p == c && (Answers(s, ev, c, r) || Leaves(s, ev, c) || ChokesOff(s, ev, c)))
  {
    hide Inv, ConnStep;
  }

  lemma QuietEnds(s: State, e: Event, r: nat)
    requires Inv(s) && r in s.net.holder && r in s.blocks && (e.Conn? ==> !ConnEnabled(s, e.c, e.conn))
    ensures Ends(s, e, r) <==> e.DisallowDownload? || s.blocks[r] !in Step(s, e).want.pending
  {
    hide Inv, Step;
  }

  lemma ConnHolder(s: State, c: Peer, e: ConnEvent, r: nat)
    requires Inv(s) && ConnEnabled(s, c, e)
    ensures r in s.net.holder ==> r in s.blocks
    ensures HeldUnless(s, Conn(c, e), ConnStep(s, c, e).net, r, r in s.net.holder && Ends(s, Conn(c, e), r))
  {
    if r in s.net.holder {
      HeldPending(s, r);
      ConnEnds(s, c, e, r);
    }
    if e.Written? {
      WrittenHolds(s, c, e.ok, r);
      assert Step(s, Conn(c, e)) == ConnStep(s, c, e);
      hide Inv, ConnStep, Ends, Step;
    } else {
      ConnHolds(s, c, e, r);
      hide Inv, ConnStep, Ends, Answers, Leaves, ChokesOff, Arrives;
    }
  }

  lemma PieceHolder(s: State, e: PieceEvent, r: nat)
    requires Inv(s) && PieceEnabled(s, e)
    ensures r in s.net.holder ==> r in s.blocks
    ensures HeldUnless(s, Pieces(e), PieceStep(s, e).net, r, r in s.net.holder && Ends(s, Pieces(e), r))
  {
    if r in s.net.holder {
      HeldPending(s, r);
      QuietEnds(s, Pieces(e), r);
    }
    PieceHolds(s, e, r);
    hide Inv, PieceStep, Ends;
  }

  lemma IdleHolder(s: State, e: Event, r: nat)
    requires Inv(s) && Step(s, e) == s && !Asked(s, e, r) && !e.DisallowDownload?
    requires e.Conn? ==> !ConnEnabled(s, e.c, e.conn)
    ensures r in s.net.holder ==> r in s.blocks
    ensures HeldUnless(s, e, s.net, r, r in s.net.holder && Ends(s, e, r))
  {
    if r in s.net.holder {
      HeldPending(s, r);
      QuietEnds(s, e, r);
    }
    hide Inv, Step, Ends;
  }

  lemma OtherHolder(s: State, e: Event, r: nat)
    requires Inv(s) && (e.Ask? || e.HedgeTo? || e.DisallowDownload? || e.AllowDownload?)
    ensures r in s.net.holder ==> r in s.blocks
    ensures HeldUnless(s, e, Step(s, e).net, r, r in s.net.holder && Ends(s, e, r))
  {
    if r in s.net.holder {
      HeldPending(s, r);
      QuietEnds(s, e, r);
    }
    OtherHolds(s, e, r);
    hide Inv, Step, Ends;
  }

  /** A block has a holder after an event iff it was just asked for, or it had one and that request has not ended; the
      holder is the connection asked last. */
  lemma HolderLaw(s: State, e: Event, r: nat)
    requires Inv(s)
    ensures r in s.net.holder ==> r in s.blocks
    ensures HeldUnless(s, e, Step(s, e).net, r, r in s.net.holder && Ends(s, e, r))
  {
    hide Inv, Ends, HeldUnless, ConnStep, PieceStep;
    match e
    case Conn(c, conn) =>
      if ConnEnabled(s, c, conn) {
        ConnHolder(s, c, conn, r);
      } else {
        IdleHolder(s, e, r);
      }
    case Pieces(piece) =>
      if PieceEnabled(s, piece) {
        PieceHolder(s, piece, r);
      } else {
        IdleHolder(s, e, r);
      }
    case _ => OtherHolder(s, e, r);
  }

  // ---- what a connection owes ----

  /** Another connection than p is asked for block r. */
  ghost predicate Taken(s: State, e: Event, p: Peer, r: nat) {
    e.Ask? && e.c != p && Asked(s, e, r)
  }

  /** Our side withdraws the request for block r from connection p, which holds it. */
  ghost predicate Withdraws(s: State, e: Event, p: Peer, r: nat)
    requires Inv(s)
  {
    || Taken(s, e, p, r) || (e.Conn? && Arrives(s, e, r) && e.c != p) || e.DisallowDownload?
    || (r in s.blocks && s.blocks[r] !in Step(s, e).want.pending)
  }

  /** What connection p owes for block r: `more` requests or hedges, less an answer; a cancel is remembered until it is
      answered, and comes with a withdrawn request if the peer acknowledges cancels. */
  ghost predicate Owes(q: PeerState, q': PeerState, r: nat, more: nat, answers: bool, withdraws: bool) {
    && q'.fast == q.fast && q'.acksCancels == q.acksCancels
    && q'.Expects(r) == q.Expects(r) + more - (if answers then 1 else 0)
    && (r in q'.cancelled <==> (r in q.cancelled && !answers) || (q.acksCancels && r in q.requests && withdraws))
  }

  lemma CancelOwes(q: PeerState, r: nat, rs: set<nat>)
    ensures Owes(q, q.Cancel(rs), r, 0, false, r in rs)
  {
  }

  lemma SettleOwes(q: PeerState, x: nat, r: nat)
    requires q.Valid() && q.Expects(x) >= 1
    ensures Owes(q, q.Settle(x), r, 0, x == r, false)
  {
  }

  lemma AppliedOwes(n: Net, c: Peer, f: Effect, p: Peer, r: nat)
    requires Possible(n, c, f) && p in n.peers && n.peers[p].Valid() && p in Applied(n, c, f).peers
    requires f.Joins? ==> p != c
    ensures Owes(n.peers[p], Applied(n, c, f).peers[p], r, 0, p == c && f.Replies? && f.r == r,
                 p != c && f == Replies(r, true))
  {
    match f
    case Replies(x, first) =>
      if p == c {
        SettleOwes(n.peers[p], x, r);
        CancelOwes(n.peers[p].Settle(x), r, {x});
      } else {
        CancelOwes(n.peers[p], r, {x});
      }
      hide PeerState.Settle, PeerState.Cancel;
    case _ =>
  }

  lemma WithdrawnOwes(q: PeerState, q': PeerState, r: nat)
    requires WithdrawnAt(q, q')
    ensures Owes(q, q', r, 0, false, r !in q'.requests)
  {
  }

  lemma RequestHeld(s: State, p: Peer, r: nat)
    requires Inv(s) && p in s.net.peers
    ensures s.net.peers[p].Valid()
    ensures r in s.net.peers[p].requests <==> r in s.net.holder && s.net.holder[r] == p
    ensures r in s.net.peers[p].requests ==> r in s.blocks && s.blocks[r] in s.want.pending && r !in s.net.dirty
  {
  }

  lemma ConnWithdraws(s: State, c: Peer, e: ConnEvent, p: Peer, r: nat)
    requires Inv(s) && ConnEnabled(s, c, e) && p in s.net.peers
    ensures Withdraws(s, Conn(c, e), p, r) <==>
            || (Arrives(s, Conn(c, e), r) && c != p)
            || (r in s.blocks && s.blocks[r] !in ConnStep(s, c, e).want.pending)
  {
    hide Inv, ConnStep;
  }

  lemma OwesSame(q: PeerState, q': PeerState, r: nat, more: nat, answers: bool, a: bool, b: bool)
    requires Owes(q, q', r, more, answers, a) && (r in q.requests ==> (a <==> b))
    ensures Owes(q, q', r, more, answers, b)
  {
  }

  lemma ConnOwes(s: State, c: Peer, e: ConnEvent, p: Peer, r: nat)
    requires Inv(s) && ConnEnabled(s, c, e) && !e.Written? && p in s.net.peers && p in ConnStep(s, c, e).net.peers
    ensures Owes(s.net.peers[p], ConnStep(s, c, e).net.peers[p], r, 0, Answers(s, Conn(c, e), p, r),
                 Withdraws(s, Conn(c, e), p, r))
  {
    RequestHeld(s, p, r);
    ConnEffect(s, c, e);
    EffectMeans(s, c, e, r);
    ConnWithdraws(s, c, e, p, r);
    var f := EffectOf(s, c, e);
    assert p != c ==> !Answers(s, Conn(c, e), p, r);
    assert f.Joins? ==> p != c;
    hide Inv, ConnStep, Applied, EffectOf, Withdraws, Arrives, Answers, Leaves, ChokesOff, Owes;
    AppliedOwes(s.net, c, f, p, r);
    OwesSame(s.net.peers[p], ConnStep(s, c, e).net.peers[p], r, 0, Answers(s, Conn(c, e), p, r),
             p != c && f == Replies(r, true), Withdraws(s, Conn(c, e), p, r));
  }

  /** Requests withdrawn for unwanted pieces. */
  lemma UnwantedOwes(s: State, n: Net, s': State, p: Peer, r: nat)
    requires Inv(s) && Inv(s') && s'.blocks == s.blocks && n == s.net.(dirty := n.dirty, writing := n.writing)
    requires Withdrawn(n, s'.net) && Unwanted(s, s') && p in s.net.peers
    ensures p in s'.net.peers
    ensures Owes(s.net.peers[p], s'.net.peers[p], r, 0, false, r in s.blocks && s.blocks[r] !in s'.want.pending)
  {
    StillWanted(s, n, s', r);
    RequestHeld(s, p, r);
    assert p in s'.net.peers && WithdrawnAt(s.net.peers[p], s'.net.peers[p]);
    RequestHeld(s', p, r);
    WithdrawnOwes(s.net.peers[p], s'.net.peers[p], r);
    hide Inv, Withdrawn, Unwanted, Owes;
    OwesSame(s.net.peers[p], s'.net.peers[p], r, 0, false, r !in s'.net.peers[p].requests,
             r in s.blocks && s.blocks[r] !in s'.want.pending);
  }

  lemma WrittenOwes(s: State, c: Peer, ok: bool, p: Peer, r: nat)
    requires Inv(s) && c in s.net.writing && p in s.net.peers
    ensures var s' := Step(s, Conn(c, Written(ok)));
            && p in s'.net.peers
            && Owes(s.net.peers[p], s'.net.peers[p], r, 0, false, r in s.blocks && s.blocks[r] !in s'.want.pending)
  {
    WrittenLaw(s, c, ok);
    var s' := Step(s, Conn(c, Written(ok)));
    StepKeeps(s, Conn(c, Written(ok)));
    hide Inv, Step, Withdrawn, Finishes, Unwanted, SameButWrites, Owes;
    UnwantedOwes(s, s.net.(writing := s'.net.writing, dirty := s'.net.dirty), s', p, r);
  }

  lemma PieceOwes(s: State, e: PieceEvent, p: Peer, r: nat)
    requires Inv(s) && PieceEnabled(s, e) && p in s.net.peers
    ensures var s' := PieceStep(s, e);
            && p in s'.net.peers
            && Owes(s.net.peers[p], s'.net.peers[p], r, 0, false, r in s.blocks && s.blocks[r] !in s'.want.pending)
  {
    PieceAdjusts(s, e);
    PieceStepKeeps(s, e);
    hide Inv, PieceStep, Withdrawn, Unwanted, WantAfter, DirtyAfter, Owes;
    UnwantedOwes(s, s.net.(dirty := DirtyAfter(s, e)), PieceStep(s, e), p, r);
  }

  /** The requests and hedges the event sends connection p for block r. */
  ghost function Sent(s: State, e: Event, p: Peer, r: nat): nat
    requires p in s.net.peers
  {
    if e.Ask? && e.c == p && Asked(s, e, r) && r !in s.net.peers[p].requests then 1
    else if e.HedgeTo? && e.c == p && Hedged(s, e, r) then 1
    else 0
  }

  lemma IssueOwes(q: PeerState, x: nat, r: nat)
    requires x !in q.requests
    ensures Owes(q, q.Cancel({x}).Expect(x).(requests := q.requests + {x}), r, if x == r then 1 else 0, false, false)
  {
  }

  lemma CancelNothing(q: PeerState, x: nat)
    requires x !in q.requests
    ensures q.Cancel({x}) == q
  {
    assert q.requests - {x} == q.requests && q.requests * {x} == {} && q.cancelled + {} == q.cancelled;
  }

  lemma AcquireOwes(n: Net, c: Peer, x: nat, p: Peer, r: nat)
    requires c in n.peers && p in n.peers
    requires r in n.peers[p].requests <==> r in n.holder && n.holder[r] == p
    requires x in n.peers[c].requests ==> x in n.holder && n.holder[x] == c
    ensures p in Acquire(n, c, x).peers
    ensures Owes(n.peers[p], Acquire(n, c, x).peers[p], r,
                 if p == c && x == r && r !in n.peers[p].requests then 1 else 0, false, x == r && c != p)
  {
    var q := n.peers[p];
    if x in n.peers[c].requests {
    } else if p == c {
      CancelNothing(q, x);
      IssueOwes(q, x, r);
      hide Owes, PeerState.Expect, PeerState.Cancel;
    } else if x in n.holder {
      CancelOwes(q, r, {x});
      hide Owes, PeerState.Expect, PeerState.Cancel;
    } else {
      hide PeerState.Expect, PeerState.Cancel;
    }
  }

  lemma HedgeOwes(n: Net, c: Peer, x: nat, p: Peer, r: nat)
    requires c in n.peers && p in n.peers
    ensures p in Hedge(n, c, x).peers
    ensures Owes(n.peers[p], Hedge(n, c, x).peers[p], r, if p == c && x == r then 1 else 0, false, false)
  {
  }

  lemma OwesNothing(q: PeerState, r: nat)
    ensures Owes(q, q, r, 0, false, false)
  {
  }

  lemma AskOwes(s: State, c: Peer, x: nat, p: Peer, r: nat)
    requires Inv(s) && p in s.net.peers
    ensures var s', e := Step(s, Ask(c, x)), Ask(c, x);
            p in s'.net.peers && Owes(s.net.peers[p], s'.net.peers[p], r, Sent(s, e, p, r), false, Taken(s, e, p, r))
  {
    hide Inv, Owes, Acquire;
    OwesNothing(s.net.peers[p], r);
    if AskEnabled(s, c, x) {
      RequestHeld(s, p, r);
      RequestHeld(s, c, x);
      AcquireOwes(s.net, c, x, p, r);
    }
  }

  lemma HedgeToOwes(s: State, c: Peer, x: nat, p: Peer, r: nat)
    requires Inv(s) && p in s.net.peers
    ensures var s', e := Step(s, HedgeTo(c, x)), HedgeTo(c, x);
            p in s'.net.peers && Owes(s.net.peers[p], s'.net.peers[p], r, Sent(s, e, p, r), false, false)
  {
    hide Inv, Owes, Hedge;
    OwesNothing(s.net.peers[p], r);
    if HedgeEnabled(s, c, x) {
      HedgeOwes(s.net, c, x, p, r);
    }
  }

  lemma DisallowOwes(s: State, p: Peer, r: nat)
    requires Inv(s) && p in s.net.peers
    ensures p in Disallow(s).net.peers && Owes(s.net.peers[p], Disallow(s).net.peers[p], r, 0, false, true)
  {
    RequestHeld(s, p, r);
    var q := s.net.peers[p];
    CancelOwes(q, r, s.net.holder.Keys);
    OwesSame(q, q.Cancel(s.net.holder.Keys), r, 0, false, r in s.net.holder.Keys, true);
    hide Inv, Owes;
  }

  lemma OtherOwes(s: State, e: Event, p: Peer, r: nat)
    requires Inv(s) && (e.Ask? || e.HedgeTo? || e.DisallowDownload? || e.AllowDownload?) && p in s.net.peers
    ensures p in Step(s, e).net.peers
    ensures Owes(s.net.peers[p], Step(s, e).net.peers[p], r, Sent(s, e, p, r), false,
                 Taken(s, e, p, r) || e.DisallowDownload?)
  {
    match e
    case Ask(c, x) =>
      hide Inv, Owes, Step;
      AskOwes(s, c, x, p, r);
    case HedgeTo(c, x) =>
      hide Inv, Owes, Step;
      HedgeToOwes(s, c, x, p, r);
    case DisallowDownload =>
      hide Inv, Owes, Disallow;
      DisallowOwes(s, p, r);
    case AllowDownload =>
      hide Inv, Owes;
      OwesNothing(s.net.peers[p], r);
  }

  lemma QuietWithdraws(s: State, e: Event, p: Peer, r: nat)
    requires Inv(s) && !e.Conn?
    ensures Withdraws(s, e, p, r) <==>
            || Taken(s, e, p, r) || e.DisallowDownload?
            || (r in s.blocks && s.blocks[r] !in Step(s, e).want.pending)
    ensures !Answers(s, e, p, r)
  {
    hide Inv, Step;
  }

  lemma ConnLaw(s: State, c: Peer, e: ConnEvent, p: Peer, r: nat)
    requires Inv(s) && ConnEnabled(s, c, e) && p in s.net.peers && p in ConnStep(s, c, e).net.peers
    ensures Owes(s.net.peers[p], ConnStep(s, c, e).net.peers[p], r, 0, Answers(s, Conn(c, e), p, r),
                 Withdraws(s, Conn(c, e), p, r))
  {
    if e.Written? {
      WrittenOwes(s, c, e.ok, p, r);
      ConnWithdraws(s, c, e, p, r);
      assert Step(s, Conn(c, e)) == ConnStep(s, c, e);
      hide Inv, ConnStep, Step, Owes, Withdraws;
    } else {
      ConnOwes(s, c, e, p, r);
    }
  }

  lemma PieceOwesLaw(s: State, e: PieceEvent, p: Peer, r: nat)
    requires Inv(s) && PieceEnabled(s, e) && p in s.net.peers
    ensures p in PieceStep(s, e).net.peers
    ensures Owes(s.net.peers[p], PieceStep(s, e).net.peers[p], r, 0, false, Withdraws(s, Pieces(e), p, r))
  {
    PieceOwes(s, e, p, r);
    QuietWithdraws(s, Pieces(e), p, r);
    assert Step(s, Pieces(e)) == PieceStep(s, e);
    hide Inv, PieceStep, Step, Owes, Withdraws;
  }

  lemma IdleOwes(s: State, e: Event, p: Peer, r: nat)
    requires Inv(s) && p in s.net.peers && Step(s, e) == s && (e.Conn? || e.Pieces?)
    requires e.Conn? ==> !ConnEnabled(s, e.c, e.conn)
    ensures Owes(s.net.peers[p], s.net.peers[p], r, 0, Answers(s, e, p, r), Withdraws(s, e, p, r))
  {
    RequestHeld(s, p, r);
    hide Inv, Step;
  }

  lemma OtherOwesLaw(s: State, e: Event, p: Peer, r: nat)
    requires Inv(s) && (e.Ask? || e.HedgeTo? || e.DisallowDownload? || e.AllowDownload?) && p in s.net.peers
    ensures p in Step(s, e).net.peers
    ensures Owes(s.net.peers[p], Step(s, e).net.peers[p], r, Sent(s, e, p, r), false, Withdraws(s, e, p, r))
  {
    RequestHeld(s, p, r);
    OtherOwes(s, e, p, r);
    QuietWithdraws(s, e, p, r);
    OtherHolds(s, e, r);
    hide Inv, Owes, Withdraws, Step, Taken, Sent;
    OwesSame(s.net.peers[p], Step(s, e).net.peers[p], r, Sent(s, e, p, r), false,
             Taken(s, e, p, r) || e.DisallowDownload?, Withdraws(s, e, p, r));
  }

  /** What a connection owes for a block after an event: what it owed, what the event sends it, less what it answers. */
  lemma OwesLaw(s: State, e: Event, p: Peer, r: nat)
    requires Inv(s) && p in s.net.peers && p in Step(s, e).net.peers
    ensures Owes(s.net.peers[p], Step(s, e).net.peers[p], r, Sent(s, e, p, r), Answers(s, e, p, r),
                 Withdraws(s, e, p, r))
  {
    hide Inv, Owes, Withdraws, ConnStep, PieceStep;
    match e
    case Conn(c, conn) =>
      if ConnEnabled(s, c, conn) {
        ConnLaw(s, c, conn, p, r);
      } else {
        IdleOwes(s, e, p, r);
      }
    case Pieces(piece) =>
      if PieceEnabled(s, piece) {
        PieceOwesLaw(s, piece, p, r);
      } else {
        IdleOwes(s, e, p, r);
      }
    case _ => OtherOwesLaw(s, e, p, r);
  }

  // ---- hedges ----

  lemma AppliedHedged(n: Net, c: Peer, f: Effect, r: nat)
    requires Possible(n, c, f) && (r in n.hedged ==> r in n.holder)
    ensures r in Applied(n, c, f).hedged <==> r in n.hedged && r in Applied(n, c, f).holder
  {
    match f
    case Replies(x, first) => hide PeerState.Settle;
    case _ =>
  }

  lemma HedgedHeld(s: State, r: nat)
    requires Inv(s) && r in s.net.hedged
    ensures r in s.net.holder
  {
  }

  lemma ConnHedged(s: State, c: Peer, e: ConnEvent, r: nat)
    requires Inv(s) && ConnEnabled(s, c, e)
    ensures r in ConnStep(s, c, e).net.hedged <==> r in s.net.hedged && r in ConnStep(s, c, e).net.holder
  {
    if e.Written? {
      WrittenLaw(s, c, e.ok);
      assert Step(s, Conn(c, e)) == ConnStep(s, c, e);
      hide Inv, Step, ConnStep, Finishes, Unwanted, SameButWrites;
    } else {
      ConnEffect(s, c, e);
      if r in s.net.hedged {
        HedgedHeld(s, r);
      }
      hide Inv, ConnStep, Applied, EffectOf;
      AppliedHedged(s.net, c, EffectOf(s, c, e), r);
    }
  }

  lemma PieceHedged(s: State, e: PieceEvent, r: nat)
    requires Inv(s) && PieceEnabled(s, e)
    ensures r in PieceStep(s, e).net.hedged <==> r in s.net.hedged && r in PieceStep(s, e).net.holder
  {
    PieceAdjusts(s, e);
    hide Inv, PieceStep, Unwanted, WantAfter, DirtyAfter;
  }

  /** An outstanding block is hedged after an event iff the event hedged it, or it was hedged and still has the same
      holder. */
  lemma HedgedLaw(s: State, e: Event, r: nat)
    requires Inv(s)
    ensures var n, n' := s.net, Step(s, e).net;
            && (r in n.hedged ==> r in n.holder)
            && (r in n'.hedged <==>
                  Hedged(s, e, r) || (r in n.hedged && r in n'.holder && n'.holder[r] == n.holder[r]))
  {
    HolderLaw(s, e, r);
    if r in s.net.hedged {
      HedgedHeld(s, r);
    }
    match e
    case Conn(c, conn) =>
      if ConnEnabled(s, c, conn) {
        ConnHedged(s, c, conn, r);
      }
      hide Inv, ConnStep, Ends;
    case Pieces(piece) =>
      if PieceEnabled(s, piece) {
        PieceHedged(s, piece, r);
      }
      hide Inv, PieceStep, Ends;
    case Ask(c, x) =>
      if AskEnabled(s, c, x) {
        RequestHeld(s, c, x);
      }
      hide Inv, Ends;
    case _ => hide Inv, Ends;
  }

  // ---- who is there ----

  /** Connection p is new. */
  ghost predicate Joined(s: State, e: Event, p: Peer) {
    e.Conn? && e.c == p && e.conn.AddConn? && ConnEnabled(s, p, e.conn)
  }

  /** What a connection is known to do, after it is told of. */
  ghost predicate Hears(s: State, e: Event, p: Peer, q': PeerState)
    requires p in s.net.peers
  {
    var q, says := s.net.peers[p], e.Conn? && e.c == p && Listening(s, p);
    && (q'.closed <==> q.closed || e == Conn(p, CloseConn))
    && (q'.choking <==> (says && e.conn.Choke?) || (q.choking && !(says && e.conn.Unchoke?)))
    && q'.has == if says && e.conn.HasPieces? then e.conn.has else q.has
  }

  /** Connection p is there in n' iff it is new, or was there and does not leave; a new one has nothing outstanding, and
      what is known of another is what it said last. */
  ghost predicate There(s: State, e: Event, n': Net, p: Peer) {
    && (p in n'.peers <==> Joined(s, e, p) || (p in s.net.peers && !Leaves(s, e, p)))
    && (Joined(s, e, p) ==> n'.peers[p] == NewPeer(e.conn.fast, e.conn.acksCancels))
    && (p in n'.peers && p in s.net.peers ==> Hears(s, e, p, n'.peers[p]))
  }

  ghost predicate SameFlags(q: PeerState, q': PeerState) {
    q'.closed == q.closed && q'.choking == q.choking && q'.has == q.has
  }

  lemma AppliedPeers(n: Net, c: Peer, f: Effect, p: Peer)
    requires Possible(n, c, f)
    ensures var n' := Applied(n, c, f);
            && (p in n'.peers <==> (f.Joins? && p == c) || (p in n.peers && !(f.Goes? && p == c)))
            && (f.Joins? && p == c ==> n'.peers[p] == NewPeer(f.fast, f.acksCancels))
            && (p in n'.peers && p in n.peers && (p != c || f.Replies?) ==> SameFlags(n.peers[p], n'.peers[p]))
            && (f.Refuses? && p == c ==> SameFlags(n.peers[p].(choking := true), n'.peers[p]))
            && (f.Says? && p == c ==> n'.peers[p] == f.q)
  {
    match f
    case Replies(r, first) =>
      if p in n.peers {
        var q := if p == c then n.peers[p].Settle(r) else n.peers[p];
        assert SameFlags(n.peers[p], q) && SameFlags(q, q.Cancel({r}));
        hide PeerState.Settle, PeerState.Cancel;
      }
    case _ => hide PeerState.Settle, PeerState.Cancel;
  }

  lemma ConnPeer(s: State, c: Peer, e: ConnEvent, p: Peer)
    requires Inv(s) && ConnEnabled(s, c, e) && !e.Written?
    ensures There(s, Conn(c, e), ConnStep(s, c, e).net, p)
  {
    ConnEffect(s, c, e);
    EffectMeans(s, c, e, 0);
    AppliedPeers(s.net, c, EffectOf(s, c, e), p);
    hide Inv, ConnStep, Applied, Answers, Arrives, ChokesOff;
    if p != c {
      hide EffectOf;
    } else {
      hide Leaves;
    }
  }

  /** What leaves the connections and all they are known to do as they were. */
  ghost predicate SamePeers(n: Net, n': Net) {
    n'.peers.Keys == n.peers.Keys && forall p | p in n.peers :: SameFlags(n.peers[p], n'.peers[p])
  }

  lemma WithdrawnPeers(n: Net, n': Net)
    requires Withdrawn(n, n')
    ensures SamePeers(n, n')
  {
    forall p | p in n.peers
      ensures SameFlags(n.peers[p], n'.peers[p])
    {
      assert WithdrawnAt(n.peers[p], n'.peers[p]);
    }
  }

  lemma WrittenPeers(s: State, c: Peer, ok: bool)
    requires Inv(s) && c in s.net.writing
    ensures SamePeers(s.net, Step(s, Conn(c, Written(ok))).net)
  {
    WrittenLaw(s, c, ok);
    var s' := Step(s, Conn(c, Written(ok)));
    hide Inv, Step, Finishes, Unwanted, SameButWrites, Withdrawn;
    WithdrawnPeers(s.net.(writing := s'.net.writing, dirty := s'.net.dirty), s'.net);
  }

  lemma PiecePeers(s: State, e: PieceEvent)
    requires Inv(s) && PieceEnabled(s, e)
    ensures SamePeers(s.net, PieceStep(s, e).net)
  {
    PieceAdjusts(s, e);
    hide Inv, PieceStep, Unwanted, WantAfter, DirtyAfter, Withdrawn;
    WithdrawnPeers(s.net.(dirty := DirtyAfter(s, e)), PieceStep(s, e).net);
  }

  lemma AcquirePeers(n: Net, c: Peer, r: nat)
    requires c in n.peers
    ensures SamePeers(n, Acquire(n, c, r))
  {
    hide PeerState.Expects;
  }

  lemma HedgePeers(n: Net, c: Peer, r: nat)
    requires c in n.peers
    ensures SamePeers(n, Hedge(n, c, r))
  {
    hide PeerState.Expects;
  }

  lemma QuietPeers(s: State, e: Event)
    requires Inv(s) && (e.Conn? ==> e.conn.Written? || !ConnEnabled(s, e.c, e.conn))
    ensures SamePeers(s.net, Step(s, e).net)
  {
    assert SamePeers(s.net, s.net);
    match e
    case Conn(c, conn) =>
      hide Inv, ConnStep, SamePeers;
      if ConnEnabled(s, c, conn) {
        WrittenPeers(s, c, conn.ok);
      }
    case Pieces(piece) =>
      hide Inv, PieceStep, SamePeers;
      if PieceEnabled(s, piece) {
        PiecePeers(s, piece);
      }
    case DisallowDownload =>
      DisallowWithdraws(s);
      hide Inv, Disallow, Withdrawn, SamePeers;
      WithdrawnPeers(s.net, Disallow(s).net);
    case Ask(c, r) =>
      hide Inv, Acquire, SamePeers;
      if AskEnabled(s, c, r) {
        AcquirePeers(s.net, c, r);
      }
    case HedgeTo(c, r) =>
      hide Inv, Hedge, SamePeers;
      if HedgeEnabled(s, c, r) {
        HedgePeers(s.net, c, r);
      }
    case AllowDownload => hide Inv, SamePeers;
  }

  lemma QuietPeer(s: State, e: Event, n': Net, p: Peer)
    requires SamePeers(s.net, n') && (e.Conn? ==> e.conn.Written? || !ConnEnabled(s, e.c, e.conn))
    ensures There(s, e, n', p)
  {
  }

  /** A connection is there after an event iff it has just come, or it was there and has not gone, and what is known of
      it is what it said last. */
  lemma PeerLaw(s: State, e: Event, p: Peer)
    requires Inv(s)
    ensures There(s, e, Step(s, e).net, p)
  {
    hide Inv, There, SamePeers;
    if e.Conn? && !e.conn.Written? && ConnEnabled(s, e.c, e.conn) {
      hide ConnStep;
      ConnPeer(s, e.c, e.conn, p);
    } else {
      hide Step;
      QuietPeers(s, e);
      QuietPeer(s, e, Step(s, e).net, p);
    }
  }

  // ---- what goes to be checked ----

  /** Piece j goes to be checked: on demand, or because its last block is written. */
  ghost predicate Queues(s: State, e: Event, j: nat) {
    e == Pieces(Check(j)) || Finishes(s, e, j)
  }

  /** The event is this enabled one. */
  ghost predicate Happens(s: State, e: Event, piece: PieceEvent) {
    e == Pieces(piece) && PieceEnabled(s, piece)
  }

  /** What storage answers about piece j with this event. */
  ghost function Said(s: State, e: Event, j: nat): Option<Completion> {
    if e.Pieces? && PieceEnabled(s, e.piece) then Answer(e.piece, j) else None
  }

  /** What an event makes of piece j. */
  ghost predicate Becomes(s: State, e: Event, w': Want, j: nat)
    requires j < |s.want.pieces|
  {
    var w := s.want;
    && |w'.pieces| == |w.pieces|
    && (j in w'.completed <==> if Said(s, e, j).Some? then Said(s, e, j).value.complete else j in w.completed)
    && (j in w'.queued <==> Queues(s, e, j) || (j in w.queued && !Happens(s, e, HashStarted(j))))
    && (w'.pieces[j].hashing <==>
          Happens(s, e, HashStarted(j)) || (w.pieces[j].hashing && !Happens(s, e, HashEnded(j))))
    && (w'.pieces[j].marking <==>
          Happens(s, e, HashEnded(j))
          || (w.pieces[j].marking && !(e.Pieces? && e.piece.HashMarked? && e.piece.i == j)))
  }

  lemma SameFlow(s: State, e: Event, w': Want, j: nat)
    requires j < |s.want.pieces| && !e.Pieces?
    requires SameButWrites(s.want, w')
    requires j in w'.queued <==> j in s.want.queued || Finishes(s, e, j)
    ensures Becomes(s, e, w', j)
  {
  }

  lemma ChunkWant(s: State, c: Peer, r: nat)
    requires c in s.net.peers && (r in s.blocks ==> s.blocks[r] < |s.want.pieces|)
    ensures var s' := ReceiveChunk(s, c, r);
            && SameButWrites(s.want, s'.want) && s'.want.queued == s.want.queued
            && s'.blocks == s.blocks && s'.disallowed == s.disallowed
  {
    hide Settle, Accept, Drop;
  }

  lemma OnlyNet(s: State, c: Peer, r: nat)
    requires c in s.net.peers && s.net.peers[c].Valid()
    ensures RemoteRejected(s, c, r) == s.(net := RemoteRejected(s, c, r).net)
    ensures ChokeMessage(s, c) == s.(net := ChokeMessage(s, c).net)
  {
    ExpectsBoth(s.net.peers[c], r);
    hide Settle, Drop, Release;
  }

  lemma SameWrites(w: Want)
    ensures SameButWrites(w, w)
  {
  }

  lemma ConnWant(s: State, c: Peer, e: ConnEvent)
    requires Inv(s) && ConnEnabled(s, c, e) && !e.Written?
    ensures var s' := ConnStep(s, c, e);
            && SameButWrites(s.want, s'.want) && s'.want.queued == s.want.queued
            && s'.blocks == s.blocks && s'.disallowed == s.disallowed
  {
    assert c in s.net.peers ==> s.net.peers[c].Valid();
    assert forall r | r in s.blocks :: s.blocks[r] < |s.want.pieces|;
    SameWrites(s.want);
    hide Inv, SameButWrites, ReceiveChunk, RemoteRejected, ChokeMessage, Drop;
    match e
    case Chunk(r) => ChunkWant(s, c, r);
    case Reject(r) => OnlyNet(s, c, r);
    case Choke => OnlyNet(s, c, 0);
    case _ =>
  }

  lemma ConnFlow(s: State, c: Peer, e: ConnEvent, j: nat)
    requires Inv(s) && ConnEnabled(s, c, e) && j < |s.want.pieces|
    ensures Becomes(s, Conn(c, e), ConnStep(s, c, e).want, j)
  {
    var w' := ConnStep(s, c, e).want;
    if e.Written? {
      WrittenLaw(s, c, e.ok);
      assert Step(s, Conn(c, e)) == ConnStep(s, c, e);
      OneFinishes(s, c, e.ok, j);
      hide Inv, Step, ConnStep, Finishes, Unwanted, SameButWrites, Withdrawn;
      SameFlow(s, Conn(c, e), w', j);
    } else {
      ConnWant(s, c, e);
      hide Inv, ConnStep, SameButWrites;
      SameFlow(s, Conn(c, e), w', j);
    }
  }

  lemma OneFinishes(s: State, c: Peer, ok: bool, j: nat)
    requires c in s.net.writing && s.net.writing[c] in s.blocks
    ensures Finishes(s, Conn(c, Written(ok)), j) ==> j == s.blocks[s.net.writing[c]]
  {
  }

  lemma PieceFlow(s: State, e: PieceEvent, j: nat)
    requires Inv(s) && PieceEnabled(s, e) && j < |s.want.pieces|
    ensures Becomes(s, Pieces(e), PieceStep(s, e).want, j)
  {
    PieceLaw(s, e, j);
    hide Inv, PieceStep;
  }

  lemma IdleFlow(s: State, e: Event, j: nat)
    requires Inv(s) && j < |s.want.pieces| && (e.Pieces? ==> !PieceEnabled(s, e.piece))
    requires e.Conn? ==> !ConnEnabled(s, e.c, e.conn)
    ensures Becomes(s, e, s.want, j)
  {
    hide Inv;
  }

  /** What an event makes of piece j: complete as storage last answered, queued by a check or by its last block until
      its hash starts, then hashed, and then held back until the result is recorded. */
  lemma PieceFlowLaw(s: State, e: Event, j: nat)
    requires Inv(s) && j < |s.want.pieces|
    ensures Becomes(s, e, Step(s, e).want, j)
  {
    match e
    case Conn(c, conn) =>
      hide Inv, Becomes, ConnStep;
      if ConnEnabled(s, c, conn) {
        ConnFlow(s, c, conn, j);
      } else {
        IdleFlow(s, e, j);
      }
    case Pieces(piece) =>
      hide Inv, Becomes, PieceStep;
      if PieceEnabled(s, piece) {
        PieceFlow(s, piece, j);
      } else {
        IdleFlow(s, e, j);
      }
    case _ =>
      hide Inv, Becomes;
      IdleFlow(s, e, j);
  }

  // ---- runs ----

  /** Piece i has every block and no write under way. */
  ghost predicate Arrived(s: State, i: nat) {
    AllDirty(s, i) && BlockSet(s.blocks, i) != {} && Writers(s.blocks, s.net, i) == {}
  }

  ghost predicate InCheck(w: Want, i: nat)
    requires i < |w.pieces|
  {
    i in w.queued || w.pieces[i].hashing || w.pieces[i].marking
  }

  /** Every piece that has arrived is queued, being hashed or being marked. */
  ghost predicate ChecksDue(s: State) {
    forall i | 0 <= i < |s.want.pieces| && Arrived(s, i) :: InCheck(s.want, i)
  }

  lemma ConnBlocks(s: State, c: Peer, e: ConnEvent)
    requires Inv(s) && ConnEnabled(s, c, e)
    ensures ConnStep(s, c, e).blocks == s.blocks && ConnStep(s, c, e).disallowed == s.disallowed
  {
    hide Inv, ConnStep, SameButWrites;
    if e.Written? {
      WrittenLaw(s, c, e.ok);
      assert Step(s, Conn(c, e)) == ConnStep(s, c, e);
      hide Step, Finishes, Unwanted, Withdrawn;
    } else {
      ConnWant(s, c, e);
    }
  }

  /** The blocks stay what they are, and downloads are disallowed from one switch to the other. */
  lemma BlocksStay(s: State, e: Event)
    requires Inv(s)
    ensures Step(s, e).blocks == s.blocks && forall r | r in s.blocks :: s.blocks[r] < |s.want.pieces|
    ensures Step(s, e).disallowed <==> e.DisallowDownload? || (s.disallowed && !e.AllowDownload?)
  {
    assert forall r | r in s.blocks :: s.blocks[r] < |s.want.pieces|;
    match e
    case Conn(c, conn) =>
      hide Inv, ConnStep;
      if ConnEnabled(s, c, conn) {
        ConnBlocks(s, c, conn);
      }
    case Pieces(piece) =>
      if PieceEnabled(s, piece) {
        PieceAdjusts(s, piece);
        hide Inv, PieceStep, Unwanted, WantAfter, DirtyAfter, Withdrawn;
      }
    case _ => hide Inv, Acquire, Hedge, CancelSet;
  }

  /** A piece that has just arrived has had its last block written. */
  lemma ArrivedNow(s: State, e: Event, i: nat)
    requires Inv(s) && i < |s.want.pieces| && !Arrived(s, i) && Arrived(Step(s, e), i)
    ensures Finishes(s, e, i)
  {
    BlocksStay(s, e);
    var s' := Step(s, e);
    if !AllDirty(s, i) {
      var r :| r in BlockSet(s.blocks, i) && r !in s.net.dirty;
      assert r in s'.net.dirty;
      DirtyLaw(s, e, r);
      assert e.c !in Writers(s'.blocks, s'.net, i);
      WritingLaw(s, e, e.c, r);
    } else {
      assert BlockSet(s.blocks, i) != {};
      forall c | c in Writers(s.blocks, s.net, i)
        ensures e.Conn? && e.c == c && e.conn.Written?
      {
        WritingLaw(s, e, c, s.net.writing[c]);
        assert c !in Writers(s'.blocks, s'.net, i);
      }
      var c :| c in Writers(s.blocks, s.net, i);
      assert Writers(s.blocks, s.net, i) == {c};
      if !e.conn.ok {
        var r := s.net.writing[c];
        DirtyLaw(s, e, r);
      }
    }
  }

  lemma ChecksStay(s: State, e: Event, i: nat)
    requires Inv(s) && i < |s.want.pieces| && Arrived(s, i) && Arrived(Step(s, e), i) && InCheck(s.want, i)
    ensures |Step(s, e).want.pieces| == |s.want.pieces| && InCheck(Step(s, e).want, i)
  {
    PieceFlowLaw(s, e, i);
    BlocksStay(s, e);
    if !InCheck(Step(s, e).want, i) {
      assert e.Pieces? && e.piece.HashMarked? && e.piece.i == i && s.want.pieces[i].marking;
      var r :| r in BlockSet(s.blocks, i);
      DirtyLaw(s, e, r);
    }
  }

  lemma ChecksStep(s: State, e: Event)
    requires Inv(s) && ChecksDue(s)
    ensures ChecksDue(Step(s, e))
  {
    hide Inv, Step, Arrived, Finishes;
    var s' := Step(s, e);
    forall i | 0 <= i < |s'.want.pieces| && Arrived(s', i)
      ensures InCheck(s'.want, i)
    {
      PiecesStay(s, e);
      PieceFlowLaw(s, e, i);
      if Arrived(s, i) {
        ChecksStay(s, e, i);
      } else {
        ArrivedNow(s, e, i);
      }
    }
  }

  lemma PiecesStay(s: State, e: Event)
    requires Inv(s)
    ensures |Step(s, e).want.pieces| == |s.want.pieces|
  {
    match e
    case Conn(c, conn) =>
      if ConnEnabled(s, c, conn) {
        if conn.Written? {
          WrittenLaw(s, c, conn.ok);
          hide Inv, Step, Finishes, Unwanted, Withdrawn;
        } else {
          ConnWant(s, c, conn);
          hide Inv, ConnStep;
        }
      }
    case Pieces(piece) =>
      if PieceEnabled(s, piece) {
        PieceAdjusts(s, piece);
        hide Inv, PieceStep, Unwanted, DirtyAfter, Withdrawn, ReadersAre;
      }
    case _ => hide Inv;
  }

  /** In every run a piece whose blocks are all here, with none still being written, is queued for a check, being hashed
      or being marked. */
  lemma {:induction false} CheckDue(s: State, events: seq<Event>)
    requires Started(s)
    ensures Inv(s) && ChecksDue(After(s, events))
  {
    StartedInv(s);
    if events == [] {
      forall i | 0 <= i < |s.want.pieces|
        ensures !Arrived(s, i)
      {
      }
    } else {
      CheckDue(s, events[..|events| - 1]);
      hide Inv, Step, ChecksDue;
      ChecksStep(After(s, events[..|events| - 1]), events[|events| - 1]);
    }
  }

  /** What storage last said of piece j in the run; a new torrent has heard nothing. */
  ghost function LastSaid(s: State, events: seq<Event>, j: nat): bool
    requires Inv(s)
  {
    events != [] &&
    var before := After(s, events[..|events| - 1]);
    var said := Said(before, events[|events| - 1], j);
    if said.Some? then said.value.complete else LastSaid(s, events[..|events| - 1], j)
  }

  /** In every run a piece is complete iff the last completion answer for it said so. */
  lemma {:induction false} CompletedIff(s: State, events: seq<Event>, j: nat)
    requires Started(s) && j < |s.want.pieces|
    ensures Inv(s) && |After(s, events).want.pieces| == |s.want.pieces|
    ensures j in After(s, events).want.completed <==> LastSaid(s, events, j)
  {
    StartedInv(s);
    if events != [] {
      CompletedIff(s, events[..|events| - 1], j);
      hide Inv, Step;
      PieceFlowLaw(After(s, events[..|events| - 1]), events[|events| - 1], j);
    }
  }
}
