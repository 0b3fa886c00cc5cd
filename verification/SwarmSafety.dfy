/** Every handler keeps the torrent's invariant, so it holds in every reachable state. */
module SwarmSafety {
  import opened Layouts
  import opened Peers
  import opened Requests
  import opened Wanted
  import opened Swarm

  // ---- priorities, completion and hashing ----

  lemma PendAllKeeps(s: State, i: nat, stale: set<nat>)
    requires InvExcept(s, stale)
    ensures InvExcept(PendAll(s, i), stale) && InvExcept(Incomplete(s, i), stale)
  {
    var s' := PendAll(s, i);
    WantsShrink(s.blocks, s.net, s.want.pending, s'.net);
    SameWriters(s.blocks, s.net, s'.net, s.want.pieces, s'.want.pieces);
    assert forall j | 0 <= j < |s.want.pieces| :: UncachedPriority(s'.want, j) == UncachedPriority(s.want, j);
  }

  /** A change to one piece's own state makes at most its own priority stale. */
  lemma PieceChangeKeeps(s: State, i: nat, p: Piece, completed: set<nat>, queued: set<nat>)
    requires Inv(s) && i < |s.want.pieces| && p.pendingWrites == s.want.pieces[i].pendingWrites
    requires completed - {i} == s.want.completed - {i} && queued - {i} == s.want.queued - {i}
    ensures var w := s.want.(pieces := s.want.pieces[i := p], completed := completed, queued := queued);
            InvExcept(s.(want := w), {i})
  {
    var w := s.want.(pieces := s.want.pieces[i := p], completed := completed, queued := queued);
    SameWriters(s.blocks, s.net, s.net, s.want.pieces, w.pieces);
    forall j | 0 <= j < |w.pieces| && j != i
      ensures UncachedPriority(w, j) == UncachedPriority(s.want, j)
    {
      assert j in completed <==> j in completed - {i};
      assert j in s.want.completed <==> j in s.want.completed - {i};
      assert j in queued <==> j in queued - {i};
      assert j in s.want.queued <==> j in s.want.queued - {i};
    }
  }

  lemma QueueCheckKeeps(s: State, i: nat)
    requires Inv(s) && i < |s.want.pieces|
    ensures Inv(QueueCheck(s, i))
  {
    if i !in s.want.queued {
      var queued := s.want.queued + {i};
      PieceChangeKeeps(s, i, s.want.pieces[i], s.want.completed, queued);
      var s1 := s.(want := s.want.(queued := queued));
      assert s1.want == s.want.(pieces := s.want.pieces[i := s.want.pieces[i]], completed := s.want.completed,
                                queued := queued);
      UpdatePriorityKeeps(s1, i, {i});
    }
  }

  lemma StartHashKeeps(s: State, i: nat)
    requires Inv(s) && i < |s.want.pieces|
    ensures Inv(StartHash(s, i))
  {
    var p := s.want.pieces[i].(hashing := true);
    var queued := s.want.queued - {i};
    PieceChangeKeeps(s, i, p, s.want.completed, queued);
    var s1 := s.(want := s.want.(pieces := s.want.pieces[i := p], completed := s.want.completed, queued := queued));
    UpdatePriorityKeeps(s1, i, {i});
  }

  /** Going from hashing to marking, with the lock released in between, leaves the piece unwanted
      throughout: no priority has to be recomputed. */
  lemma EndHashKeeps(s: State, i: nat)
    requires Inv(s) && i < |s.want.pieces| && s.want.pieces[i].hashing
    ensures Inv(EndHash(s, i))
  {
    var p := s.want.pieces[i].(hashing := false, marking := true);
    PieceChangeKeeps(s, i, p, s.want.completed, s.want.queued);
    var s1 := EndHash(s, i);
    assert s1 == s.(want := s.want.(pieces := s.want.pieces[i := p], completed := s.want.completed,
                                    queued := s.want.queued));
    assert UncachedPriority(s.want, i) == PRIORITY_NONE;
  }

  lemma CompletionRecorded(s: State, i: nat, c: Completion)
    requires i < |s.want.pieces|
    ensures forall j :: j in UpdateCompletion(s, i, c).want.completed <==>
                        if j == i then c.complete else j in s.want.completed
    ensures UpdateCompletion(s, i, c).want.pieces[i].completionOk == c.ok
  {
    hide UncachedPriority;
  }

  lemma UpdateCompletionKeeps(s: State, i: nat, c: Completion)
    requires Inv(s) && i < |s.want.pieces|
    ensures Inv(UpdateCompletion(s, i, c))
    ensures forall j :: j in UpdateCompletion(s, i, c).want.completed <==>
                        if j == i then c.complete else j in s.want.completed
    ensures UpdateCompletion(s, i, c).want.pieces[i].completionOk == c.ok
  {
    CompletionRecorded(s, i, c);
    hide UpdatePriority, UncachedPriority;
    var p := s.want.pieces[i].(completionOk := c.ok);
    var completed := if c.complete then s.want.completed + {i} else s.want.completed - {i};
    if c == Completion(i in s.want.completed, s.want.pieces[i].completionOk) {
      assert completed == s.want.completed && s.want.pieces[i := p] == s.want.pieces;
      assert UpdateCompletion(s, i, c) == s;
    } else {
      PieceChangeKeeps(s, i, p, completed, s.want.queued);
      var s2 := s.(want := s.want.(pieces := s.want.pieces[i := p], completed := completed, queued := s.want.queued));
      CompletionChangedKeeps(s2, i, c.complete);
    }
  }

  lemma CompletionChangedKeeps(s: State, i: nat, complete: bool)
    requires InvExcept(s, {i}) && i < |s.want.pieces|
    ensures Inv(UpdatePriority(if complete then CancelPiece(PendAll(s, i), i) else Incomplete(s, i), i))
  {
    hide InvExcept;
    assert {i} - {i} == {};
    PendAllKeeps(s, i, {i});
    if complete {
      CancelPieceKeeps(PendAll(s, i), i, {i});
      UpdatePriorityKeeps(CancelPiece(PendAll(s, i), i), i, {i});
    } else {
      UpdatePriorityKeeps(Incomplete(s, i), i, {i});
    }
  }

  lemma CancelPieceKeeps(s: State, i: nat, stale: set<nat>)
    requires InvExcept(s, stale)
    ensures InvExcept(CancelPiece(s, i), stale)
  {
    CancelSetKeeps(s.blocks, s.net, s.want.pending, BlockSet(s.blocks, i), s.want.pending);
    SameWriters(s.blocks, s.net, CancelPiece(s, i).net, s.want.pieces, s.want.pieces);
  }

  lemma MarkedKeeps(s: State, i: nat, passed: bool, c: Completion)
    requires Inv(s) && i < |s.want.pieces|
    ensures Inv(Marked(s, i, passed, c))
  {
    hide InvExcept;
    assert {i} - {i} == {};
    PendAllKeeps(s, i, {});
    var s1 := if passed then PendAll(s, i) else Incomplete(s, i);
    UpdateCompletionKeeps(s1, i, c);
    var s2 := UpdateCompletion(s1, i, c);
    var p := s2.want.pieces[i].(marking := false);
    PieceChangeKeeps(s2, i, p, s2.want.completed, s2.want.queued);
    var s3 := WithPiece(s2, i, p);
    assert s3 == s2.(want := s2.want.(pieces := s2.want.pieces[i := p], completed := s2.want.completed,
                                      queued := s2.want.queued));
    UpdatePriorityKeeps(s3, i, {i});
  }

  lemma SetPriorityKeeps(s: State, i: nat, priority: nat)
    requires Inv(s) && i < |s.want.pieces|
    ensures Inv(SetPriority(s, i, priority))
  {
    var p := s.want.pieces[i].(priority := priority);
    PieceChangeKeeps(s, i, p, s.want.completed, s.want.queued);
    var s1 := WithPiece(s, i, p);
    assert s1 == s.(want := s.want.(pieces := s.want.pieces[i := p], completed := s.want.completed,
                                    queued := s.want.queued));
    UpdatePriorityKeeps(s1, i, {i});
  }

  // ---- files and readers ----

  lemma {:induction false} FilePriorityOutside(files: seq<File>, f: nat, file: File, i: nat)
    requires f < |files| && file.begin == files[f].begin && file.end == files[f].end
    requires !(file.begin <= i < file.end)
    ensures FilePriority(files[f := file], i) == FilePriority(files, i)
  {
    var k := |files| - 1;
    if f == k {
      assert files[f := file][..k] == files[..k];
    } else {
      FilePriorityOutside(files[..k], f, file, i);
      assert files[f := file][..k] == files[..k][f := file];
    }
  }

  lemma SetFilePriorityKeeps(s: State, f: nat, priority: nat)
    requires Inv(s) && f < |s.want.files|
    ensures Inv(SetFilePriority(s, f, priority))
  {
    var file := s.want.files[f].(priority := priority);
    var w := s.want.(files := s.want.files[f := file]);
    assert s.want.files[f] in s.want.files;
    if priority != s.want.files[f].priority {
      var stale := Interval(file.begin, file.end);
      forall j | 0 <= j < |w.pieces| && j !in stale
        ensures UncachedPriority(w, j) == UncachedPriority(s.want, j)
      {
        FilePriorityOutside(s.want.files, f, file, j);
      }
      UpdatePrioritiesKeeps(s.(want := w), file.begin, file.end, stale);
      assert stale - Interval(file.begin, file.end) == {};
    }
  }

  /** Replacing a reader's range changes the reader piece sets only inside the two ranges. */
  lemma ReaderSetsChange(readers: map<nat, Range>, id: nat, to: Range, i: nat)
    requires id in readers && !readers[id].Has(i) && !to.Has(i)
    ensures i in ReaderNow(readers[id := to]) <==> i in ReaderNow(readers)
    ensures i in ReaderReadahead(readers[id := to]) <==> i in ReaderReadahead(readers)
  {
    var readers' := readers[id := to];
    if i in ReaderNow(readers) {
      var x :| x in readers && readers[x].begin < readers[x].end && readers[x].begin == i;
      assert x != id && readers'[x] == readers[x];
    }
    if i in ReaderNow(readers') {
      var x :| x in readers' && readers'[x].begin < readers'[x].end && readers'[x].begin == i;
      assert x != id && readers'[x] == readers[x];
    }
    if i in ReaderReadahead(readers) {
      var x :| x in readers && i in readers[x].Tail();
      assert x != id && readers'[x] == readers[x];
    }
    if i in ReaderReadahead(readers') {
      var x :| x in readers' && i in readers'[x].Tail();
      assert x != id && readers'[x] == readers[x];
    }
  }

  lemma ReaderChangeStale(s: State, id: nat, to: Range)
    requires Inv(s) && id in s.want.readers && to.end <= |s.want.pieces|
    ensures var from := s.want.readers[id];
            InvExcept(SetReaders(s, s.want.readers[id := to]),
                      Interval(from.begin, from.end) + Interval(to.begin, to.end))
  {
    var from := s.want.readers[id];
    var s1 := SetReaders(s, s.want.readers[id := to]);
    var stale := Interval(from.begin, from.end) + Interval(to.begin, to.end);
    forall j | 0 <= j < |s.want.pieces| && j !in stale
      ensures UncachedPriority(s1.want, j) == UncachedPriority(s.want, j)
    {
      ReaderSetsChange(s.want.readers, id, to, j);
    }
  }

  lemma MoveReaderKeeps(s: State, id: nat, to: Range)
    requires Inv(s) && id in s.want.readers && s.want.readers[id].end <= |s.want.pieces| && to.end <= |s.want.pieces|
    ensures Inv(MoveReader(s, id, to))
  {
    hide InvExcept;
    var from := s.want.readers[id];
    if from != to {
      ReaderChangeStale(s, id, to);
      var s1 := SetReaders(s, s.want.readers[id := to]);
      var stale := Interval(from.begin, from.end) + Interval(to.begin, to.end);
      var l := if from.begin > to.begin then to else from;
      var h := if from.begin > to.begin then from else to;
      if l.end < h.begin {
        UpdatePrioritiesKeeps(s1, l.begin, l.end, stale);
        var s2 := UpdatePriorities(s1, l.begin, l.end);
        UpdatePrioritiesKeeps(s2, h.begin, h.end, stale - Interval(l.begin, l.end));
        assert stale - Interval(l.begin, l.end) - Interval(h.begin, h.end) == {};
      } else {
        var end := if h.end > l.end then h.end else l.end;
        UpdatePrioritiesKeeps(s1, l.begin, end, stale);
        assert stale - Interval(l.begin, end) == {};
      }
    }
  }

  lemma CloseReaderKeeps(s: State, id: nat)
    requires Inv(s)
    ensures Inv(CloseReader(s, id))
  {
    var s1 := SetReaders(s, s.want.readers - {id});
    var all := Interval(0, |s.want.pieces|);
    assert InvExcept(s1, all);
    UpdatePrioritiesKeeps(s1, 0, |s.want.pieces|, all);
    assert all - Interval(0, |s.want.pieces|) == {};
  }

  // ---- wire messages ----

  lemma AcceptWriters(s: State, c: Peer, r: nat, n: Net, pieces: seq<Piece>)
    requires WritesCounted(s.blocks, s.net, s.want.pieces) && c !in s.net.writing
    requires r in s.blocks
    requires n.writing == s.net.writing[c := r]
    requires var i := s.blocks[r];
             pieces == s.want.pieces[i := s.want.pieces[i].(pendingWrites := s.want.pieces[i].pendingWrites + 1)]
    ensures WritesCounted(s.blocks, n, pieces)
  {
    forall i | 0 <= i < |pieces|
      ensures pieces[i].pendingWrites == |Writers(s.blocks, n, i)|
    {
      OneMoreWriter(s.blocks, s.net, n, c, r, i);
    }
  }

  lemma OneMoreWriter(b: Blocks, n: Net, n': Net, c: Peer, r: nat, i: nat)
    requires c !in n.writing && r in b && n'.writing == n.writing[c := r]
    ensures |Writers(b, n', i)| == |Writers(b, n, i)| + if b[r] == i then 1 else 0
  {
    hide Writers;
    WritersGrow(b, n, n', c, r, i);
  }

  lemma WritersGrow(b: Blocks, n: Net, n': Net, c: Peer, r: nat, i: nat)
    requires c !in n.writing && r in b && n'.writing == n.writing[c := r]
    ensures c !in Writers(b, n, i)
    ensures Writers(b, n', i) == if b[r] == i then Writers(b, n, i) + {c} else Writers(b, n, i)
  {
    forall p
      ensures p in Writers(b, n', i) <==> p in Writers(b, n, i) || (p == c && b[r] == i)
    {
    }
  }

  /** Write counters are no input of a priority. */
  lemma CounterChangeKeeps(w: Want, i: nat, count: nat)
    requires WantInv(w) && i < |w.pieces|
    ensures WantInv(w.(pieces := w.pieces[i := w.pieces[i].(pendingWrites := count)]))
  {
    var w' := w.(pieces := w.pieces[i := w.pieces[i].(pendingWrites := count)]);
    assert forall j | 0 <= j < |w.pieces| :: UncachedPriority(w', j) == UncachedPriority(w, j);
  }

  lemma ReceiveChunkKeeps(s: State, c: Peer, r: nat)
    requires Inv(s) && c in s.net.peers && c !in s.net.writing
    ensures Inv(ReceiveChunk(s, c, r))
  {
    if r !in s.blocks || s.net.peers[c].Expects(r) == 0 {
      DropConnKeeps(s, c);
    } else {
      SettleConnKeeps(s, c, r);
      var s1 := s.(net := Settle(s.net, c, r));
      if !HaveChunk(s, r) {
        AcceptKeeps(s1.blocks, s1.net, s1.want.pending, c, r);
        var i := s.blocks[r];
        var p := s1.want.pieces[i];
        var s2 := ReceiveChunk(s, c, r);
        AcceptWriters(s1, c, r, s2.net, s2.want.pieces);
        CounterChangeKeeps(s1.want, i, p.pendingWrites + 1);
      }
    }
  }

  /** A pending write is always counted, so its counter never underflows. */
  lemma WriterCounted(s: State, c: Peer)
    requires Inv(s) && c in s.net.writing
    ensures Writing(s, c)
  {
    assert c in Writers(s.blocks, s.net, s.blocks[s.net.writing[c]]);
  }

  lemma ChunkWrittenKeeps(s: State, c: Peer, ok: bool)
    requires Inv(s) && c in s.net.writing
    ensures Writing(s, c)
    ensures Inv(ChunkWritten(s, c, ok))
  {
    hide Inv, Unwrite, QueueCheck;
    WriterCounted(s, c);
    UnwriteKeeps(s, c);
    UnwriteFrame(s, c);
    var s1 := Unwrite(s, c);
    var r := s.net.writing[c];
    if !ok {
      CleanedKeeps(s1, r);
    } else {
      QueueCheckKeeps(s1, s.blocks[r]);
    }
  }

  lemma UnwriteFrame(s: State, c: Peer)
    requires Writing(s, c)
    ensures var s1 := Unwrite(s, c); s1.blocks == s.blocks && |s1.want.pieces| == |s.want.pieces|
  {
  }

  /** A block that could not be written is missing again. */
  lemma CleanedKeeps(s: State, r: nat)
    requires Inv(s)
    ensures Inv(s.(net := s.net.(dirty := s.net.dirty - {r})))
  {
    hide NetInv, Shape, PendingExcept, WritesCounted;
    CleanedNet(s.blocks, s.net, s.want.pending, r);
    NetChangeKeeps(s, s.net.(dirty := s.net.dirty - {r}));
  }

  lemma CleanedNet(b: Blocks, n: Net, pending: set<nat>, r: nat)
    requires NetInv(b, n, pending)
    ensures NetInv(b, n.(dirty := n.dirty - {r}), pending)
  {
    WantsShrink(b, n, pending, n.(dirty := n.dirty - {r}));
  }

  lemma FewerWriters(b: Blocks, n: Net, n': Net, c: Peer, i: nat)
    requires c in n.writing && n.writing[c] in b && n'.writing == n.writing - {c}
    ensures |Writers(b, n', i)| == |Writers(b, n, i)| - if b[n.writing[c]] == i then 1 else 0
  {
    var before := Writers(b, n, i);
    assert Writers(b, n', i) == before - {c};
    assert c in before <==> b[n.writing[c]] == i;
  }

  lemma UnwriteWriters(s: State, c: Peer)
    requires WritesCounted(s.blocks, s.net, s.want.pieces) && Writing(s, c)
    ensures WritesCounted(s.blocks, Unwrite(s, c).net, Unwrite(s, c).want.pieces)
  {
    hide Writers;
    var s1 := Unwrite(s, c);
    forall i | 0 <= i < |s1.want.pieces|
      ensures s1.want.pieces[i].pendingWrites == |Writers(s.blocks, s1.net, i)|
    {
      FewerWriters(s.blocks, s.net, s1.net, c, i);
    }
  }

  lemma UnwriteKeeps(s: State, c: Peer)
    requires Inv(s) && Writing(s, c)
    ensures Inv(Unwrite(s, c))
  {
    hide NetInv, WritesCounted, Shape, PendingExcept;
    var k := s.blocks[s.net.writing[c]];
    UnwriteWriters(s, c);
    CounterChangeKeeps(s.want, k, s.want.pieces[k].pendingWrites - 1);
    NotWriting(s.blocks, s.net, s.want.pending, s.net.writing - {c});
  }

  /** Who is writing is no part of the request books. */
  lemma NotWriting(b: Blocks, n: Net, pending: set<nat>, writing: map<Peer, nat>)
    requires NetInv(b, n, pending)
    ensures NetInv(b, n.(writing := writing), pending)
  {
    WantsShrink(b, n, pending, n.(writing := writing));
  }

  /** A change of the connections' state alone. */
  lemma NetChangeKeeps(s: State, n: Net)
    requires Inv(s) && NetInv(s.blocks, n, s.want.pending) && n.writing == s.net.writing
    requires n.holder.Keys <= s.net.holder.Keys || !s.disallowed
    ensures Inv(s.(net := n))
  {
    SameWriters(s.blocks, s.net, n, s.want.pieces, s.want.pieces);
  }

  lemma DropConnKeeps(s: State, c: Peer)
    requires Inv(s) && c in s.net.peers
    ensures Inv(s.(net := Drop(s.net, c)))
  {
    DropKeeps(s.blocks, s.net, s.want.pending, c);
    NetChangeKeeps(s, Drop(s.net, c));
  }

  lemma SettleConnKeeps(s: State, c: Peer, r: nat)
    requires Inv(s) && c in s.net.peers && s.net.peers[c].Expects(r) >= 1
    ensures Inv(s.(net := Settle(s.net, c, r)))
  {
    SettleNetKeeps(s.blocks, s.net, s.want.pending, c, r);
    NetChangeKeeps(s, Settle(s.net, c, r));
  }

  lemma RemoteRejectedKeeps(s: State, c: Peer, r: nat)
    requires Inv(s) && c in s.net.peers
    ensures Inv(RemoteRejected(s, c, r))
  {
    var p := s.net.peers[c];
    ExpectsBoth(p, r);
    if p.fast && r in p.requests + p.cancelled {
      SettleConnKeeps(s, c, r);
    } else {
      DropConnKeeps(s, c);
    }
  }

  lemma ChokeMessageKeeps(s: State, c: Peer)
    requires Inv(s) && c in s.net.peers
    ensures Inv(ChokeMessage(s, c))
  {
    var p := s.net.peers[c];
    if !p.choking && p.fast {
      SetPeerKeeps(s, c, p.(choking := true));
    } else if !p.choking {
      var q := p.(choking := true, requests := {});
      ForgetAll(p, q);
      ReleaseKeeps(s.blocks, s.net, s.want.pending, c, q);
      NetChangeKeeps(s, Release(s.net, c, q));
    }
  }

  lemma ForgetAll(p: PeerState, q: PeerState)
    requires p.Valid() && !p.fast && q == p.(choking := true, requests := {})
    ensures q.Valid()
  {
  }

  /** A change of one connection that leaves its outstanding requests alone. */
  lemma SetPeerKeeps(s: State, c: Peer, q: PeerState)
    requires Inv(s)
    requires c in s.net.peers
    requires var p := s.net.peers[c];
             q == p.(choking := q.choking, closed := q.closed, has := q.has) && (!p.choking && q.choking ==> p.fast)
    ensures Inv(SetPeer(s, c, q))
  {
    var p := s.net.peers[c];
    SetPeerNetKeeps(s.blocks, s.net, s.want.pending, c, q);
    NetChangeKeeps(s, SetPeer(s, c, q).net);
  }

  lemma DisallowKeeps(s: State)
    requires Inv(s)
    ensures Inv(Disallow(s))
  {
    CancelSetKeeps(s.blocks, s.net, s.want.pending, s.net.holder.Keys, s.want.pending);
    NetChangeKeeps(s, CancelSet(s.net, s.net.holder.Keys));
  }
}
