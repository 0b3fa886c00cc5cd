/** What each event of a torrent's run does, said of one block, one piece or one connection at a time, and what follows
    for whole runs. */
module SwarmLaws {
  import opened Wrappers
  import opened Layouts
  import opened Peers
  import opened Requests
  import opened Wanted
  import opened Swarm
  import opened SwarmSafety
  import opened SwarmRuns

  // ---- cancelling ----

  /** Some outstanding requests are withdrawn from a peer; it remembers those whose acknowledgement will come. */
  ghost predicate WithdrawnAt(p: PeerState, p': PeerState) {
    && p' == p.(requests := p'.requests, cancelled := p'.cancelled)
    && p'.requests <= p.requests
    && p'.cancelled == if p.acksCancels then p.cancelled + (p.requests - p'.requests) else p.cancelled
  }

  /** Some blocks have lost their holders, and nothing else has changed. */
  ghost predicate Withdrawn(n: Net, n': Net) {
    && n'.peers.Keys == n.peers.Keys && n'.dirty == n.dirty && n'.writing == n.writing && n'.hedges == n.hedges
    && (forall r | r in n'.holder :: r in n.holder && n'.holder[r] == n.holder[r])
    && (forall r :: r in n'.hedged <==> r in n.hedged && r in n'.holder)
    && (forall p | p in n.peers :: WithdrawnAt(n.peers[p], n'.peers[p]))
  }

  lemma NothingWithdrawn(n: Net)
    requires Books(n)
    ensures Withdrawn(n, n)
  {
    forall p | p in n.peers
      ensures WithdrawnAt(n.peers[p], n.peers[p])
    {
      var q := n.peers[p];
      assert q.requests - q.requests == {} && q == q.(requests := q.requests, cancelled := q.cancelled);
    }
  }

  lemma CancelWithdraws(n: Net, rs: set<nat>)
    requires Books(n)
    ensures Withdrawn(n, CancelSet(n, rs)) && forall r | r in n.holder :: r in CancelSet(n, rs).holder <==> r !in rs
  {
    var n' := CancelSet(n, rs);
    forall p | p in n.peers
      ensures WithdrawnAt(n.peers[p], n'.peers[p])
    {
      var q := n.peers[p];
      assert q.requests - (q.requests - rs) == q.requests * rs;
    }
  }

  lemma WithdrawnTwice(n: Net, n1: Net, n2: Net)
    requires Withdrawn(n, n1) && Withdrawn(n1, n2)
    ensures Withdrawn(n, n2)
  {
    forall p | p in n.peers
      ensures WithdrawnAt(n.peers[p], n2.peers[p])
    {
      var a, b, c := n.peers[p], n1.peers[p], n2.peers[p];
      assert WithdrawnAt(a, b) && WithdrawnAt(b, c);
      assert (a.requests - b.requests) + (b.requests - c.requests) == a.requests - c.requests;
    }
  }

  /** Requests are only withdrawn for pieces without a priority. */
  ghost predicate Unwanted(s: State, s': State) {
    forall r | r in s.net.holder && r !in s'.net.holder ::
      r in s.blocks && s.blocks[r] < |s'.want.pieces| && UncachedPriority(s'.want, s.blocks[r]) == PRIORITY_NONE
  }

  /** Requests are only withdrawn for piece i. */
  ghost predicate OnlyOf(s: State, s': State, i: nat) {
    forall r | r in s.net.holder && r !in s'.net.holder :: r in s.blocks && s.blocks[r] == i
  }

  /** What priority updates leave alone. */
  ghost predicate Reprioritized(s: State, s': State) {
    && s'.want == s.want.(pending := s'.want.pending) && s'.blocks == s.blocks && s'.disallowed == s.disallowed
    && Books(s'.net) && Withdrawn(s.net, s'.net) && Unwanted(s, s')
  }

  lemma SamePriority(w: Want, pending: set<nat>, i: nat)
    requires i < |w.pieces|
    ensures UncachedPriority(w.(pending := pending), i) == UncachedPriority(w, i)
  {
  }

  lemma UpdateWithdraws(s: State, i: nat)
    requires Books(s.net) && i < |s.want.pieces| && forall r | r in s.net.holder :: r in s.blocks
    ensures Reprioritized(s, UpdatePriority(s, i)) && OnlyOf(s, UpdatePriority(s, i), i)
    ensures forall r | r in UpdatePriority(s, i).net.holder :: r in s.blocks
  {
    hide UncachedPriority, Books;
    var s' := UpdatePriority(s, i);
    SamePriority(s.want, s'.want.pending, i);
    if UncachedPriority(s.want, i) == PRIORITY_NONE && i in s.want.pending {
      CancelWithdraws(s.net, BlockSet(s.blocks, i));
      CancelSetBooks(s.net, BlockSet(s.blocks, i));
    } else {
      NothingWithdrawn(s.net);
    }
  }

  lemma {:induction false} UpdatesWithdraw(s: State, begin: nat, end: nat)
    requires Books(s.net) && end <= |s.want.pieces| && forall r | r in s.net.holder :: r in s.blocks
    ensures Reprioritized(s, UpdatePriorities(s, begin, end))
    ensures forall r | r in UpdatePriorities(s, begin, end).net.holder :: r in s.blocks
    decreases end
  {
    hide Books, Withdrawn, UncachedPriority, UpdatePriority;
    if end <= begin {
      NothingWithdrawn(s.net);
    } else {
      UpdatesWithdraw(s, begin, end - 1);
      var s1 := UpdatePriorities(s, begin, end - 1);
      UpdateWithdraws(s1, end - 1);
      ReprioritizedTwice(s, s1, UpdatePriority(s1, end - 1));
    }
  }

  lemma ReprioritizedTwice(s: State, s1: State, s2: State)
    requires Reprioritized(s, s1) && Reprioritized(s1, s2)
    ensures Reprioritized(s, s2)
  {
    hide Books, UncachedPriority, Withdrawn;
    WithdrawnTwice(s.net, s1.net, s2.net);
    forall r | r in s.net.holder && r !in s2.net.holder
      ensures r in s.blocks && s.blocks[r] < |s2.want.pieces| && UncachedPriority(s2.want, s.blocks[r]) == PRIORITY_NONE
    {
      if r !in s1.net.holder {
        SamePriority(s1.want, s2.want.pending, s.blocks[r]);
      }
    }
  }

  // ---- what piece events do ----

  /** What storage answers about piece j. */
  function Answer(e: PieceEvent, j: nat): Option<Completion> {
    match e
    case HashMarked(i, _, c) => if i == j then Some(c) else None
    case CompletionRead(i, c) => if i == j then Some(c) else None
    case _ => None
  }

  /** The answer says something new. */
  predicate News(w: Want, i: nat, c: Completion)
    requires i < |w.pieces|
  {
    c.complete != (i in w.completed) || c.ok != w.pieces[i].completionOk
  }

  /** The event makes the chunks of piece i missing again: its hash passed or failed as a whole, or storage says
      something new, that it is complete or that it is not although every chunk was there. */
  ghost predicate Clears(s: State, e: PieceEvent, i: nat)
    requires i < |s.want.pieces|
  {
    match e
    case HashMarked(k, passed, c) => k == i && (passed || AllDirty(s, i) || (c.complete && News(s.want, i, c)))
    case CompletionRead(k, c) => k == i && News(s.want, i, c) && (c.complete || AllDirty(s, i))
    case _ => false
  }

  /** From s to s' the want is w but for `pending`, the dirty chunks are `dirty` and requests were only withdrawn, and
      only for pieces without a priority. */
  ghost predicate Adjusted(s: State, s': State, w: Want, dirty: set<nat>) {
    && s'.want == w.(pending := s'.want.pending) && s'.blocks == s.blocks && s'.disallowed == s.disallowed
    && Withdrawn(s.net.(dirty := dirty), s'.net) && Unwanted(s, s')
  }

  lemma UpdateAdjusts(s: State, s1: State, i: nat)
    requires Books(s.net) && (forall r | r in s.net.holder :: r in s.blocks) && i < |s1.want.pieces|
    requires s1 == s.(want := s1.want, net := s.net.(dirty := s1.net.dirty))
    ensures Adjusted(s, UpdatePriority(s1, i), s1.want, s1.net.dirty)
  {
    hide UpdatePriority, UncachedPriority, Withdrawn;
    DirtyBooks(s.net, s1.net.dirty);
    hide Books;
    UpdateWithdraws(s1, i);
  }

  lemma DirtyBooks(n: Net, dirty: set<nat>)
    requires Books(n)
    ensures Books(n.(dirty := dirty))
  {
  }

  lemma InvBooks(s: State)
    requires Inv(s)
    ensures Books(s.net) && forall r | r in s.net.holder :: r in s.blocks && s.blocks[r] < |s.want.pieces|
  {
  }

  lemma UpdatesAdjust(s: State, s1: State, begin: nat, end: nat)
    requires Books(s.net) && (forall r | r in s.net.holder :: r in s.blocks) && end <= |s1.want.pieces|
    requires s1 == s.(want := s1.want)
    ensures Adjusted(s, UpdatePriorities(s1, begin, end), s1.want, s1.net.dirty)
  {
    hide UpdatePriorities, UncachedPriority, Withdrawn, Books;
    UpdatesWithdraw(s1, begin, end);
  }

  lemma TwoUpdatesAdjust(s: State, s1: State, a: Range, b: Range)
    requires Books(s.net) && (forall r | r in s.net.holder :: r in s.blocks)
    requires a.end <= |s1.want.pieces| && b.end <= |s1.want.pieces| && s1 == s.(want := s1.want)
    ensures Adjusted(s, UpdatePriorities(UpdatePriorities(s1, a.begin, a.end), b.begin, b.end), s1.want, s1.net.dirty)
  {
    hide UpdatePriorities, UncachedPriority, Withdrawn, Books;
    var s2 := UpdatePriorities(s1, a.begin, a.end);
    UpdatesWithdraw(s1, a.begin, a.end);
    UpdatesWithdraw(s2, b.begin, b.end);
    ReprioritizedTwice(s1, s2, UpdatePriorities(s2, b.begin, b.end));
  }

  lemma NothingAdjusts(s: State, w: Want, dirty: set<nat>)
    requires Books(s.net)
    ensures Adjusted(s, s.(want := w, net := s.net.(dirty := dirty)), w, dirty)
  {
    DirtyBooks(s.net, dirty);
    NothingWithdrawn(s.net.(dirty := dirty));
  }

  /** The want after UpdateCompletion, but for `pending`. */
  function Told(w: Want, i: nat, c: Completion): Want
    requires i < |w.pieces|
  {
    w.(pieces := w.pieces[i := w.pieces[i].(completionOk := c.ok)],
       completed := if c.complete then w.completed + {i} else w.completed - {i})
  }

  lemma CompletionAdjusts(s: State, i: nat, c: Completion)
    requires Books(s.net) && (forall r | r in s.net.holder :: r in s.blocks) && i < |s.want.pieces|
    ensures var e := CompletionRead(i, c);
            Adjusted(s, UpdateCompletion(s, i, c), Told(s.want, i, c),
                     if Clears(s, e, i) then s.net.dirty - BlockSet(s.blocks, i) else s.net.dirty)
    ensures OnlyOf(s, UpdateCompletion(s, i, c), i)
    ensures Books(UpdateCompletion(s, i, c).net)
    ensures forall r | r in UpdateCompletion(s, i, c).net.holder :: r in s.blocks
  {
    CompletionCases(s, i, c);
    hide UpdateCompletion, UpdatePriority, CancelPiece, UncachedPriority, Withdrawn, Books, Unwanted, Clears, News,
      Told, OnlyOf;
    var s3 := Cleared(s, i, c);
    if !News(s.want, i, c) {
      NothingAdjusts(s, s.want, s.net.dirty);
      NothingOnly(s, i);
    } else if c.complete {
      CompleteAdjusts(s, s3, i);
    } else {
      DirtyBooks(s.net, s3.net.dirty);
      UpdateAdjusts(s, s3, i);
      UpdateWithdraws(s3, i);
      SameOnly(s, s3, UpdatePriority(s3, i), i);
    }
  }

  lemma NothingOnly(s: State, i: nat)
    ensures OnlyOf(s, s, i)
  {
  }

  lemma SameOnly(s: State, s1: State, s2: State, i: nat)
    requires s1.net.holder == s.net.holder && s1.blocks == s.blocks && OnlyOf(s1, s2, i)
    ensures OnlyOf(s, s2, i)
  {
  }

  /** What storage's answer makes of the want and of the dirty chunks. */
  ghost function Cleared(s: State, i: nat, c: Completion): State
    requires i < |s.want.pieces|
  {
    s.(want := Told(s.want, i, c),
       net := s.net.(dirty := if Clears(s, CompletionRead(i, c), i) then s.net.dirty - BlockSet(s.blocks, i)
                              else s.net.dirty))
  }

  lemma CompletionCases(s: State, i: nat, c: Completion)
    requires i < |s.want.pieces|
    ensures var s' := UpdateCompletion(s, i, c); var s3 := Cleared(s, i, c);
            && (!News(s.want, i, c) ==> s' == s == s3)
            && (News(s.want, i, c) && c.complete ==> s' == UpdatePriority(CancelPiece(s3, i), i))
            && (News(s.want, i, c) && !c.complete ==> s' == UpdatePriority(s3, i))
            && (c.complete ==> i in s3.want.completed) && |s3.want.pieces| == |s.want.pieces|
  {
    hide UpdatePriority, UncachedPriority, CancelSet;
    if !News(s.want, i, c) {
      assert Told(s.want, i, c) == s.want;
    }
  }

  /** A complete piece's requests are withdrawn before its priority is updated. */
  lemma CompleteAdjusts(s: State, s3: State, i: nat)
    requires Books(s.net) && (forall r | r in s.net.holder :: r in s.blocks) && i < |s3.want.pieces|
    requires s3 == s.(want := s3.want, net := s.net.(dirty := s3.net.dirty)) && i in s3.want.completed
    ensures var s' := UpdatePriority(CancelPiece(s3, i), i);
            && Adjusted(s, s', s3.want, s3.net.dirty) && OnlyOf(s, s', i)
            && Books(s'.net) && forall r | r in s'.net.holder :: r in s.blocks
  {
    hide UpdatePriority, Books;
    DirtyBooks(s.net, s3.net.dirty);
    CancelWithdraws(s3.net, BlockSet(s.blocks, i));
    CancelSetBooks(s3.net, BlockSet(s.blocks, i));
    var s4 := CancelPiece(s3, i);
    var s' := UpdatePriority(s4, i);
    assert UncachedPriority(s3.want, i) == PRIORITY_NONE;
    hide UncachedPriority, Withdrawn, CancelSet;
    SamePriority(s3.want, s'.want.pending, i);
    UpdateWithdraws(s4, i);
    WithdrawnTwice(s3.net, s4.net, s'.net);
  }

  /** The want after the rest of pieceHashed, but for `pending`. */
  function Recorded(w: Want, i: nat, c: Completion): Want
    requires i < |w.pieces|
  {
    var t := Told(w, i, c);
    t.(pieces := t.pieces[i := t.pieces[i].(marking := false)])
  }

  lemma NoneOutstanding(s: State, i: nat)
    requires Inv(s) && i < |s.want.pieces| && s.want.pieces[i].marking
    ensures forall r | r in s.net.holder :: s.blocks[r] != i
  {
    assert UncachedPriority(s.want, i) == PRIORITY_NONE;
    assert i !in s.want.pending;
  }

  lemma MarkedAdjusts(s: State, i: nat, passed: bool, c: Completion)
    requires Inv(s) && i < |s.want.pieces| && s.want.pieces[i].marking
    ensures var e := HashMarked(i, passed, c);
            Adjusted(s, Marked(s, i, passed, c), Recorded(s.want, i, c),
                     if Clears(s, e, i) then s.net.dirty - BlockSet(s.blocks, i) else s.net.dirty)
  {
    NoneOutstanding(s, i);
    InvBooks(s);
    assert PendAll(s, i) == s.(net := s.net.(dirty := PendAll(s, i).net.dirty));
    assert Incomplete(s, i) == s.(net := s.net.(dirty := Incomplete(s, i).net.dirty));
    hide UpdatePriority, UncachedPriority, Withdrawn, Books, Inv, UpdateCompletion, PendAll, Incomplete, Clears, Told,
      Unwanted;
    var s1 := if passed then PendAll(s, i) else Incomplete(s, i);
    var dirty := if Clears(s, HashMarked(i, passed, c), i) then s.net.dirty - BlockSet(s.blocks, i) else s.net.dirty;
    DirtyBooks(s.net, s1.net.dirty);
    CompletionAdjusts(s1, i, c);
    MarkedDirty(s, i, passed, c);
    var s2 := UpdateCompletion(s1, i, c);
    assert Withdrawn(s.net.(dirty := dirty), s2.net);
    assert s2.want == Told(s.want, i, c).(pending := s2.want.pending);
    SameOnly(s, s1, s2, i);
    LastAdjusts(s, s2, i, Recorded(s.want, i, c), dirty);
  }

  lemma MarkedDirty(s: State, i: nat, passed: bool, c: Completion)
    requires i < |s.want.pieces|
    ensures var s1, b := if passed then PendAll(s, i) else Incomplete(s, i), BlockSet(s.blocks, i);
            (if Clears(s1, CompletionRead(i, c), i) then s1.net.dirty - b else s1.net.dirty) ==
            if Clears(s, HashMarked(i, passed, c), i) then s.net.dirty - b else s.net.dirty
  {
    var b := BlockSet(s.blocks, i);
    assert s.net.dirty - b - b == s.net.dirty - b;
    if b <= s.net.dirty - b {
      assert b == {};
    }
  }

  /** The last step of pieceHashed, for a piece nothing of which is outstanding. */
  lemma LastAdjusts(s: State, s2: State, i: nat, w: Want, dirty: set<nat>)
    requires i < |s2.want.pieces| && (forall r | r in s.net.holder :: r in s.blocks && s.blocks[r] != i)
    requires Books(s2.net) && s2.blocks == s.blocks && s2.disallowed == s.disallowed && OnlyOf(s, s2, i)
    requires Withdrawn(s.net.(dirty := dirty), s2.net)
    requires w == s2.want.(pending := w.pending, pieces := s2.want.pieces[i := s2.want.pieces[i].(marking := false)])
    ensures var s3 := WithPiece(s2, i, s2.want.pieces[i].(marking := false));
            Adjusted(s, UpdatePriority(s3, i), w, dirty)
  {
    var s3 := WithPiece(s2, i, s2.want.pieces[i].(marking := false));
    assert forall r | r in s2.net.holder :: r in s.net.holder;
    hide UpdatePriority, UncachedPriority, Withdrawn, Books;
    UpdateWithdraws(s3, i);
    WithdrawnTwice(s.net.(dirty := dirty), s2.net, UpdatePriority(s3, i).net);
  }

  /** The want after a piece event, but for `pending`. */
  function WantAfter(w: Want, e: PieceEvent): Want
    requires match e
             case OpenReader(_) => true
             case ReaderTo(_, _) => true
             case EndReader(_) => true
             case FileWanted(f, _) => f < |w.files|
             case _ => e.i < |w.pieces|
  {
    match e
    case OpenReader(id) => ReadersAre(w, w.readers[id := Range(0, 0)])
    case ReaderTo(id, to) => ReadersAre(w, w.readers[id := to])
    case EndReader(id) => ReadersAre(w, w.readers - {id})
    case PiecePriority(i, priority) => w.(pieces := w.pieces[i := w.pieces[i].(priority := priority)])
    case FileWanted(f, priority) => w.(files := w.files[f := w.files[f].(priority := priority)])
    case Check(i) => w.(queued := w.queued + {i})
    case HashStarted(i) => w.(queued := w.queued - {i}, pieces := w.pieces[i := w.pieces[i].(hashing := true)])
    case HashEnded(i) => w.(pieces := w.pieces[i := w.pieces[i].(hashing := false, marking := true)])
    case HashMarked(i, _, c) => Recorded(w, i, c)
    case CompletionRead(i, c) => Told(w, i, c)
  }

  function ReadersAre(w: Want, readers: map<nat, Range>): Want {
    w.(readers := readers, now := ReaderNow(readers), readahead := ReaderReadahead(readers))
  }

  ghost function DirtyAfter(s: State, e: PieceEvent): set<nat>
    requires PieceEnabled(s, e)
  {
    if (e.HashMarked? || e.CompletionRead?) && Clears(s, e, e.i) then s.net.dirty - BlockSet(s.blocks, e.i)
    else s.net.dirty
  }

  lemma ReaderAdjusts(s: State, e: PieceEvent)
    requires Inv(s) && PieceEnabled(s, e) && (e.OpenReader? || e.ReaderTo? || e.EndReader?)
    ensures Adjusted(s, PieceStep(s, e), WantAfter(s.want, e), DirtyAfter(s, e))
  {
    assert forall id | id in s.want.readers :: s.want.readers[id].end <= |s.want.pieces|;
    assert s.want == ReadersAre(s.want, s.want.readers);
    InvBooks(s);
    hide Inv, Books, Withdrawn, UncachedPriority, UpdatePriorities, ReaderNow, ReaderReadahead;
    match e
    case OpenReader(id) => NothingAdjusts(s, WantAfter(s.want, e), s.net.dirty);
    case EndReader(id) => UpdatesAdjust(s, s.(want := WantAfter(s.want, e)), 0, |s.want.pieces|);
    case ReaderTo(id, to) =>
      var from := s.want.readers[id];
      var s1 := s.(want := WantAfter(s.want, e));
      if from == to {
        assert s.want.readers[id := to] == s.want.readers;
        NothingAdjusts(s, s.want, s.net.dirty);
      } else {
        var l, h := if from.begin > to.begin then to else from, if from.begin > to.begin then from else to;
        if l.end < h.begin {
          TwoUpdatesAdjust(s, s1, l, h);
        } else {
          UpdatesAdjust(s, s1, l.begin, if h.end > l.end then h.end else l.end);
        }
      }
  }

  lemma FileAdjusts(s: State, f: nat, priority: nat)
    requires Inv(s) && f < |s.want.files|
    ensures s.want.files[f].end <= |s.want.pieces|
    ensures Adjusted(s, SetFilePriority(s, f, priority), WantAfter(s.want, FileWanted(f, priority)), s.net.dirty)
  {
    var file := s.want.files[f];
    assert file in s.want.files;
    InvBooks(s);
    hide Inv, Books, Withdrawn, UncachedPriority, UpdatePriorities;
    if priority == file.priority {
      assert s.want.files[f := file.(priority := priority)] == s.want.files;
      NothingAdjusts(s, s.want, s.net.dirty);
    } else {
      UpdatesAdjust(s, s.(want := WantAfter(s.want, FileWanted(f, priority))), file.begin, file.end);
    }
  }

  lemma HashAdjusts(s: State, e: PieceEvent)
    requires Inv(s) && PieceEnabled(s, e) && (e.PiecePriority? || e.Check? || e.HashStarted? || e.HashEnded?)
    ensures Adjusted(s, PieceStep(s, e), WantAfter(s.want, e), s.net.dirty)
  {
    InvBooks(s);
    hide Inv, Books, Withdrawn, UncachedPriority, UpdatePriority;
    var s1 := s.(want := WantAfter(s.want, e));
    if e.HashEnded? || (e.Check? && e.i in s.want.queued) {
      assert e.Check? ==> s.want.queued + {e.i} == s.want.queued;
      NothingAdjusts(s, s1.want, s.net.dirty);
    } else {
      UpdateAdjusts(s, s1, e.i);
    }
  }

  /** A piece event makes of the want exactly what it says, clears the dirty chunks of one piece at most, and withdraws
      requests only for pieces left without a priority. */
  lemma PieceAdjusts(s: State, e: PieceEvent)
    requires Inv(s) && PieceEnabled(s, e)
    ensures Adjusted(s, PieceStep(s, e), WantAfter(s.want, e), DirtyAfter(s, e))
  {
    match e
    case FileWanted(f, priority) => FileAdjusts(s, f, priority);
    case HashMarked(i, passed, c) => MarkedAdjusts(s, i, passed, c);
    case CompletionRead(i, c) =>
      InvBooks(s);
      CompletionAdjusts(s, i, c);
    case _ =>
      if e.OpenReader? || e.ReaderTo? || e.EndReader? {
        ReaderAdjusts(s, e);
      } else {
        HashAdjusts(s, e);
      }
  }

  /** What a piece event makes of piece j. */
  ghost predicate PieceAfter(w: Want, e: PieceEvent, w': Want, j: nat)
    requires j < |w.pieces|
  {
    && |w'.pieces| == |w.pieces|
    && (j in w'.completed <==> if Answer(e, j).Some? then Answer(e, j).value.complete else j in w.completed)
    && w'.pieces[j].completionOk == (if Answer(e, j).Some? then Answer(e, j).value.ok else w.pieces[j].completionOk)
    && (j in w'.queued <==> e == Check(j) || (j in w.queued && e != HashStarted(j)))
    && (w'.pieces[j].hashing <==> e == HashStarted(j) || (w.pieces[j].hashing && e != HashEnded(j)))
    && (w'.pieces[j].marking <==> e == HashEnded(j) || (w.pieces[j].marking && !(e.HashMarked? && e.i == j)))
    && w'.pieces[j].priority == (if e.PiecePriority? && e.i == j then e.priority else w.pieces[j].priority)
    && w'.pieces[j].pendingWrites == w.pieces[j].pendingWrites
  }

  lemma ReaderPiece(s: State, e: PieceEvent, pending: set<nat>, j: nat)
    requires PieceEnabled(s, e) && j < |s.want.pieces|
    requires e.OpenReader? || e.ReaderTo? || e.EndReader? || e.FileWanted? || e.PiecePriority?
    ensures PieceAfter(s.want, e, WantAfter(s.want, e).(pending := pending), j)
  {
    hide ReaderNow, ReaderReadahead;
  }

  lemma HashPiece(s: State, e: PieceEvent, pending: set<nat>, j: nat)
    requires PieceEnabled(s, e) && j < |s.want.pieces|
    requires e.Check? || e.HashStarted? || e.HashEnded? || e.HashMarked? || e.CompletionRead?
    ensures PieceAfter(s.want, e, WantAfter(s.want, e).(pending := pending), j)
  {
    hide ReadersAre;
  }

  /** What a piece event makes of piece j: complete as storage answers, queued by a check until its hash starts, hashed
      from there until the hash ends, and then held back until the result is recorded. */
  lemma PieceLaw(s: State, e: PieceEvent, j: nat)
    requires Inv(s) && PieceEnabled(s, e) && j < |s.want.pieces|
    ensures PieceAfter(s.want, e, PieceStep(s, e).want, j)
  {
    hide Inv, PieceStep, Withdrawn, Unwanted, WantAfter, PieceAfter, DirtyAfter;
    PieceAdjusts(s, e);
    if e.OpenReader? || e.ReaderTo? || e.EndReader? || e.FileWanted? || e.PiecePriority? {
      ReaderPiece(s, e, PieceStep(s, e).want.pending, j);
    } else {
      HashPiece(s, e, PieceStep(s, e).want.pending, j);
    }
  }
}
