/** Who holds which block: the request bookkeeping shared by all connections of a torrent
    (peer.go, requesting.go and the request state of torrent.go), as values. */
module Requests {
  import opened Layouts
  import opened Peers

  /** `holder` is Torrent.requestState, `hedged` is hedgedRequests, `dirty` is dirtyChunks and
      `writing` names, for each connection whose reader has released the client lock inside
      receiveChunk, the block it is writing to storage. `hedges` is history: how many duplicates were
      sent since the block was last issued. */
  datatype Net = Net(
    peers: map<Peer, PeerState>,
    holder: map<nat, Peer>,
    hedged: set<nat>,
    hedges: map<nat, nat>,
    dirty: set<nat>,
    writing: map<Peer, nat>)

  /** Each block has at most one holder, and the holder and the torrent agree on it. */
  ghost predicate Owned(n: Net) {
    && (forall r | r in n.holder :: n.holder[r] in n.peers && r in n.peers[n.holder[r]].requests)
    && (forall p, r | p in n.peers && r in n.peers[p].requests :: r in n.holder && n.holder[r] == p)
  }

  ghost predicate PeersValid(n: Net) {
    forall p | p in n.peers :: n.peers[p].Valid()
  }

  /** Outstanding blocks exist, are missing and lie in a wanted piece. */
  ghost predicate Wants(b: Blocks, n: Net, pending: set<nat>) {
    && n.dirty <= b.Keys
    && (forall r | r in n.holder :: r in b && b[r] in pending && r !in n.dirty)
  }

  /** The books of the torrent and of its connections agree. */
  ghost predicate Books(n: Net) {
    Owned(n) && PeersValid(n) && HedgedOnce(n)
  }

  ghost predicate NetInv(b: Blocks, n: Net, pending: set<nat>) {
    Books(n) && Wants(b, n, pending)
  }

  /** Only outstanding blocks are hedged, and each issue of a block at most once. */
  ghost predicate HedgedOnce(n: Net) {
    && n.hedged <= n.holder.Keys
    && (forall r | r in n.holder :: r in n.hedges && n.hedges[r] == if r in n.hedged then 1 else 0)
  }

  // ---- the operations ----

  /** Torrent.cancelRequest on every block of `rs`. */
  function CancelSet(n: Net, rs: set<nat>): Net {
    n.(peers := map p | p in n.peers :: n.peers[p].Cancel(rs),
       holder := n.holder - rs,
       hedged := n.hedged - rs)
  }

  /** Peer.deleteRequest of blocks `c` holds. */
  function Delete(n: Net, c: Peer, rs: set<nat>): Net
    requires c in n.peers
  {
    n.(peers := n.peers[c := n.peers[c].Forget(rs)],
       holder := n.holder - rs,
       hedged := n.hedged - rs)
  }

  /** Peer.deleteAllRequests, with the connection becoming `q`. */
  function Release(n: Net, c: Peer, q: PeerState): Net
    requires c in n.peers
  {
    n.(peers := n.peers[c := q],
       holder := n.holder - n.peers[c].requests,
       hedged := n.hedged - n.peers[c].requests)
  }

  /** Torrent.dropConnection. */
  function Drop(n: Net, c: Peer): Net
    requires c in n.peers
  {
    n.(peers := n.peers - {c},
       holder := n.holder - n.peers[c].requests,
       hedged := n.hedged - n.peers[c].requests)
  }

  /** What getDesiredRequestState lets a request update of `p` ask for. GetRequestablePieces only
      offers pending pieces. */
  ghost predicate Offered(b: Blocks, n: Net, pending: set<nat>, p: Peer, r: nat) {
    && p in n.peers && !n.peers[p].closed
    && r in b && b[r] in pending && r !in n.dirty
    && b[r] in n.peers[p].has
    && r !in n.peers[p].cancelled
    && (n.peers[p].choking ==> r in n.peers[p].requests)
  }

  /** One pass of the applyRequestState loop that asks `p` for `r`: take it from its holder, then
      request it. */
  function Acquire(n: Net, p: Peer, r: nat): Net
    requires p in n.peers
  {
    if r in n.peers[p].requests then n
    else Issue(if r in n.holder then CancelSet(n, {r}) else n, p, r)
  }

  /** Peer.request for a block nobody holds. */
  function Issue(n: Net, p: Peer, r: nat): Net
    requires p in n.peers
  {
    n.(peers := n.peers[p := n.peers[p].Expect(r).(requests := n.peers[p].requests + {r})],
       holder := n.holder[r := p],
       hedges := n.hedges[r := 0])
  }

  /** Peer.deleteRequest, or the removal from Cancelled, with the expected count taken down. */
  function Settle(n: Net, c: Peer, r: nat): Net
    requires c in n.peers && n.peers[c].Expects(r) >= 1
  {
    var settled := if r in n.peers[c].requests then {r} else {};
    n.(peers := n.peers[c := n.peers[c].Settle(r)],
       holder := n.holder - settled,
       hedged := n.hedged - settled)
  }

  /** A received block that is new: it is marked dirty, whoever else was asked for it is told to
      forget it, and the connection goes off to write it. */
  function Accept(n: Net, c: Peer, r: nat): Net {
    CancelSet(n, {r}).(dirty := n.dirty + {r}, writing := n.writing[c := r])
  }

  /** fireHedge: a duplicate of an outstanding block is sent to `c`. */
  function Hedge(n: Net, c: Peer, r: nat): Net
    requires c in n.peers
  {
    n.(hedged := n.hedged + {r},
       hedges := n.hedges[r := (if r in n.hedges then n.hedges[r] else 0) + 1],
       peers := n.peers[c := n.peers[c].Expect(r)])
  }

  // ---- what they keep ----

  /** Cancelling keeps the invariant, also for a smaller set of wanted pieces, as long as every
      block left outstanding is still wanted. */
  lemma CancelSetKeeps(b: Blocks, n: Net, pending: set<nat>, rs: set<nat>, pending': set<nat>)
    requires NetInv(b, n, pending)
    requires forall r | r in n.holder && r !in rs :: r in b && b[r] in pending'
    ensures NetInv(b, CancelSet(n, rs), pending')
  {
    CancelSetBooks(n, rs);
  }

  lemma CancelSetBooks(n: Net, rs: set<nat>)
    requires Books(n)
    ensures Books(CancelSet(n, rs))
  {
    forall p | p in n.peers
      ensures n.peers[p].Cancel(rs).Valid()
    {
      CancelKeeps(n.peers[p], rs);
    }
  }

  lemma WantsShrink(b: Blocks, n: Net, pending: set<nat>, n': Net)
    requires Wants(b, n, pending)
    requires n'.holder.Keys <= n.holder.Keys && n'.dirty <= n.dirty
    ensures Wants(b, n', pending)
  {
    forall r | r in n'.holder
      ensures r in b && b[r] in pending && r !in n'.dirty
    {
      assert r in n.holder.Keys;
    }
  }

  lemma OwnedRelease(n: Net, c: Peer, q: PeerState)
    requires Owned(n) && c in n.peers && q.requests == {}
    ensures Owned(Release(n, c, q))
  {
    var n' := Release(n, c, q);
    forall p, r | p in n'.peers && r in n'.peers[p].requests
      ensures r in n'.holder && n'.holder[r] == p
    {
      assert p != c && r in n.peers[p].requests;
      assert r in n.holder && n.holder[r] == p;
    }
  }

  lemma OwnedDrop(n: Net, c: Peer)
    requires Owned(n) && c in n.peers
    ensures Owned(Drop(n, c))
    ensures forall r | r in Drop(n, c).holder :: Drop(n, c).holder[r] != c
  {
    var n' := Drop(n, c);
    forall p, r | p in n'.peers && r in n'.peers[p].requests
      ensures r in n'.holder && n'.holder[r] == p
    {
      assert p != c && r in n.peers[p].requests;
      assert r in n.holder && n.holder[r] == p;
    }
  }

  lemma ReleaseKeeps(b: Blocks, n: Net, pending: set<nat>, c: Peer, q: PeerState)
    requires NetInv(b, n, pending) && c in n.peers
    requires q.Valid() && q.requests == {}
    ensures NetInv(b, Release(n, c, q), pending)
  {
    OwnedRelease(n, c, q);
    WantsShrink(b, n, pending, Release(n, c, q));
  }

  lemma DropKeeps(b: Blocks, n: Net, pending: set<nat>, c: Peer)
    requires NetInv(b, n, pending) && c in n.peers
    ensures NetInv(b, Drop(n, c), pending)
    ensures forall r | r in Drop(n, c).holder :: Drop(n, c).holder[r] != c
  {
    OwnedDrop(n, c);
    WantsShrink(b, n, pending, Drop(n, c));
  }

  lemma OwnedIssue(n: Net, p: Peer, r: nat)
    requires Owned(n) && p in n.peers && r !in n.holder
    ensures Owned(Issue(n, p, r))
  {
  }

  lemma IssueKeeps(b: Blocks, n: Net, pending: set<nat>, p: Peer, r: nat)
    requires NetInv(b, n, pending) && p in n.peers && r !in n.holder
    requires r in b && b[r] in pending && r !in n.dirty
    requires r !in n.peers[p].cancelled && !n.peers[p].choking
    ensures NetInv(b, Issue(n, p, r), pending)
  {
    OwnedIssue(n, p, r);
    assert HedgedOnce(Issue(n, p, r));
    ExpectKeeps(n.peers[p], r);
    WantsGrow(b, n, pending, r, p, Issue(n, p, r));
  }

  lemma AcquireKeeps(b: Blocks, n: Net, pending: set<nat>, p: Peer, r: nat)
    requires NetInv(b, n, pending) && Offered(b, n, pending, p, r)
    ensures NetInv(b, Acquire(n, p, r), pending)
    ensures r in Acquire(n, p, r).holder && Acquire(n, p, r).holder[r] == p
  {
    if r !in n.peers[p].requests {
      if r in n.holder {
        CancelSetKeeps(b, n, pending, {r}, pending);
        IssueKeeps(b, CancelSet(n, {r}), pending, p, r);
      } else {
        IssueKeeps(b, n, pending, p, r);
      }
    }
  }

  lemma WantsGrow(b: Blocks, n: Net, pending: set<nat>, r: nat, p: Peer, n': Net)
    requires Wants(b, n, pending)
    requires r in b && b[r] in pending && r !in n.dirty
    requires n'.holder == n.holder[r := p] && n'.dirty == n.dirty
    ensures Wants(b, n', pending)
  {
  }

  lemma SettleNetKeeps(b: Blocks, n: Net, pending: set<nat>, c: Peer, r: nat)
    requires NetInv(b, n, pending) && c in n.peers && n.peers[c].Expects(r) >= 1
    ensures NetInv(b, Settle(n, c, r), pending)
    ensures r in Settle(n, c, r).holder ==> Settle(n, c, r).holder[r] != c
  {
    SettleKeeps(n.peers[c], r);
    OwnedSettle(n, c, r);
    WantsShrink(b, n, pending, Settle(n, c, r));
  }

  lemma OwnedSettle(n: Net, c: Peer, r: nat)
    requires Owned(n) && c in n.peers && n.peers[c].Expects(r) >= 1
    ensures Owned(Settle(n, c, r))
    ensures r in Settle(n, c, r).holder ==> Settle(n, c, r).holder[r] != c
  {
    var n' := Settle(n, c, r);
    assert n'.peers[c].requests == n.peers[c].requests - {r};
    forall p, x | p in n'.peers && x in n'.peers[p].requests
      ensures x in n'.holder && n'.holder[x] == p
    {
      assert x in n.peers[p].requests;
      assert x in n.holder && n.holder[x] == p;
      assert x == r ==> p != c;
    }
  }

  lemma AcceptKeeps(b: Blocks, n: Net, pending: set<nat>, c: Peer, r: nat)
    requires NetInv(b, n, pending) && r in b
    ensures NetInv(b, Accept(n, c, r), pending)
    ensures var n' := Accept(n, c, r);
            && (forall x :: x in n'.dirty <==> x in n.dirty || x == r)
            && (forall x :: x in n'.holder <==> x in n.holder && x != r)
            && (forall x | x in n'.holder :: n'.holder[x] == n.holder[x])
            && c in n'.writing && n'.writing[c] == r && n'.writing - {c} == n.writing - {c}
            && (forall p | p in n'.peers :: r !in n'.peers[p].requests)
  {
    CancelSetKeeps(b, n, pending, {r}, pending);
  }

  /** A connection's other state may change freely while its outstanding requests stay. */
  lemma SetPeerNetKeeps(b: Blocks, n: Net, pending: set<nat>, c: Peer, q: PeerState)
    requires NetInv(b, n, pending) && c in n.peers
    requires q.Valid() && q.requests == n.peers[c].requests
    ensures NetInv(b, n.(peers := n.peers[c := q]), pending)
  {
    var n' := n.(peers := n.peers[c := q]);
    WantsShrink(b, n, pending, n');
    assert Owned(n');
  }

  lemma AddPeerKeeps(b: Blocks, n: Net, pending: set<nat>, c: Peer, q: PeerState)
    requires NetInv(b, n, pending) && c !in n.peers
    requires q.Valid() && q.requests == {}
    ensures NetInv(b, n.(peers := n.peers[c := q]), pending)
  {
    var n' := n.(peers := n.peers[c := q]);
    WantsShrink(b, n, pending, n');
    assert Owned(n');
  }

  lemma HedgeKeeps(b: Blocks, n: Net, pending: set<nat>, c: Peer, r: nat)
    requires NetInv(b, n, pending) && c in n.peers && r in n.holder && r !in n.hedged
    ensures NetInv(b, Hedge(n, c, r), pending)
  {
    var n1 := n.(peers := n.peers[c := n.peers[c].Expect(r)]);
    assert NetInv(b, n1, pending) by {
      ExpectKeeps(n.peers[c], r);
      SetPeerNetKeeps(b, n, pending, c, n.peers[c].Expect(r));
    }
    HedgedKeeps(b, n1, pending, r);
    assert Hedge(n, c, r) == n1.(hedged := n1.hedged + {r}, hedges := n1.hedges[r := n1.hedges[r] + 1]);
  }

  lemma HedgedKeeps(b: Blocks, n: Net, pending: set<nat>, r: nat)
    requires NetInv(b, n, pending) && r in n.holder && r !in n.hedged
    ensures NetInv(b, n.(hedged := n.hedged + {r}, hedges := n.hedges[r := n.hedges[r] + 1]), pending)
  {
  }
}
