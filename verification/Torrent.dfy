/** The torrent as the client runs it: an object whose handlers update it and its connections in
    place. Every handler is proved to do what its function in Swarm says; a branch in which the code
    panics is proved unreachable. */
module Torrents {
  import opened Collections
  import opened Layouts
  import opened Peers
  import opened Requests
  import opened Wanted
  import opened Swarm
  import opened SwarmSafety
  import opened Stealing
  import SwarmRuns
  import ReaderRuns

  /** How many requests fit in the write buffer: half of 32 KiB, less an Interested message of 5
      bytes, in Request messages of 17. */
  const MAX_LOCAL_TO_REMOTE_REQUESTS: nat := (32768 - 16384 - 5) / 17

  /** urgentRequestCap: a quarter more than the limit, at least one more, but no more than the write
      buffer or the peer can hold. */
  function UrgentRequestCap(limit: nat, peerMax: int): int {
    var quarter := (limit + 3) / 4;
    var c := limit + if quarter > 1 then quarter else 1;
    var c' := if c > MAX_LOCAL_TO_REMOTE_REQUESTS then MAX_LOCAL_TO_REMOTE_REQUESTS else c;
    if peerMax > 0 && c' > peerMax then peerMax else c'
  }

  /** What a request update of one peer finds outside the torrent's books. `urgent`, `elapsed` and
      `unvetoed` are the blocks due soon, those out of their holder's grace and those whose taking
      the peak-latency veto allows; `room` the blocks after whose request the write buffer still has
      room; `last` when each peer last sent something useful. */
  datatype Update = Update(
    reason: Reason,
    maxReq: nat,
    peerMax: int,
    reserve: bool,
    urgent: set<nat>,
    elapsed: set<nat>,
    unvetoed: set<nat>,
    room: set<nat>,
    last: map<Peer, int>)
  {
    function UrgentCap(): int {
      if reserve then UrgentRequestCap(maxReq, peerMax) else maxReq
    }
  }

  /** Cancelling in two rounds is cancelling at once. */
  lemma CancelTwice(n: Net, a: set<nat>, b: set<nat>)
    ensures CancelSet(CancelSet(n, a), b) == CancelSet(n, a + b)
  {
    var once, twice := CancelSet(n, a + b), CancelSet(CancelSet(n, a), b);
    assert once.peers.Keys == twice.peers.Keys;
    forall p | p in n.peers
      ensures once.peers[p] == twice.peers[p]
    {
      assert n.peers[p].requests - (a + b) == n.peers[p].requests - a - b;
    }
    assert once.holder == twice.holder;
  }

  /** A set nobody holds is cancelled by doing nothing. */
  lemma CancelNothing(n: Net, rs: set<nat>)
    requires Owned(n) && n.hedged <= n.holder.Keys && rs !! n.holder.Keys
    ensures CancelSet(n, rs) == n
  {
    assert CancelSet(n, rs).peers.Keys == n.peers.Keys;
    forall p | p in n.peers
      ensures n.peers[p].Cancel(rs) == n.peers[p]
    {
      assert n.peers[p].requests * rs == {};
    }
  }

  /** Deleting a block from its holder, and remembering the cancel, is cancelling it. */
  lemma DeleteIsCancel(n: Net, p: Peer, r: nat)
    requires Owned(n) && p in n.peers && r in n.peers[p].requests
    ensures CancelSet(n, {r}) == Delete(n, p, {r}).(peers := n.peers[p := n.peers[p].Cancel({r})])
  {
    forall q | q in n.peers && q != p
      ensures n.peers[q].Cancel({r}) == n.peers[q]
    {
      assert r in n.holder && n.holder[r] == p;
      assert n.peers[q].requests * {r} == {};
    }
    assert CancelSet(n, {r}).peers == n.peers[p := n.peers[p].Cancel({r})];
  }

  /** A queue with `pending` entries may take the block: it is below the limit, or the block is urgent
      and the queue below the reserve's limit. A refusal never adds requests. */
  ghost predicate MayTake(u: Update, req: nat, pending: int) {
    u.reason != AfterReject && pending < u.UrgentCap() && (pending < u.maxReq || (u.reserve && req in u.urgent))
  }

  /** The rules let p take block req: nobody else holds it, or it may be stolen from its holder, whose queue has
      `theirs` entries to p's `own`. */
  ghost predicate MayHave(u: Update, p: Peer, req: nat, holders: map<nat, Peer>, own: int, theirs: int)
    requires req in holders ==> p in u.last && holders[req] in u.last
  {
    req in holders && holders[req] != p ==>
      && StealPermitted(u.reason, own + 1 - (theirs - 1), u.last[p], u.last[holders[req]], req in u.elapsed)
      && req in u.unvetoed
  }

  /** The queue is so long that the loop ends. */
  ghost predicate Sated(u: Update, pending: int) {
    pending >= u.UrgentCap() || (pending >= u.maxReq && !u.reserve)
  }

  lemma TakeNotSated(u: Update, req: nat, pending: int)
    ensures MayTake(u, req, pending) ==> !Sated(u, pending)
  {
  }

  /** A block that may be taken from another is stolen by the rule, and not after a cancel. */
  lemma StealRule(u: Update, p: Peer, req: nat, holders: map<nat, Peer>, own: int, theirs: int)
    requires req in holders ==> p in u.last && holders[req] in u.last
    ensures MayHave(u, p, req, holders, own, theirs) && req in holders && holders[req] != p ==>
              u.reason != AfterCancel
              && StealPermitted(Otherwise, own + 1 - (theirs - 1), u.last[p], u.last[holders[req]], true)
    ensures (req in holders ==> holders[req] == p) ==> MayHave(u, p, req, holders, own, theirs)
  {
  }

  lemma HungryTakes(u: Update, req: nat, pending: int)
    ensures Hungry(u, pending) ==> MayTake(u, req, pending) && !Sated(u, pending)
  {
  }

  /** The queue is so short that every block nobody holds is asked for. */
  ghost predicate Hungry(u: Update, pending: int) {
    u.reason != AfterReject && pending < u.maxReq && pending < u.UrgentCap()
  }

  /** An update that ends hungry and with room in the write buffer has asked for every block that nobody else held. */
  ghost predicate Eager(u: Update, order: seq<nat>, p: Peer, before: map<nat, Peer>, own': set<nat>, cancelled: nat) {
    Hungry(u, |own'| + cancelled) && (forall r | r in order :: r in u.room) ==>
      forall r | r in order && (r in before ==> before[r] == p) :: r in own'
  }

  function Max(a: int, b: int): int {
    if a > b then a else b
  }

  /** Every block keeps its holder or is handed to p; new holders are p, and only for what it was to
      ask for. */
  ghost predicate Handed(before: map<nat, Peer>, after: map<nat, Peer>, p: Peer, order: seq<nat>) {
    && (forall r | r in before :: r in after && (after[r] == before[r] || (after[r] == p && r in order)))
    && (forall r | r in after && r !in before :: after[r] == p && r in order)
  }

  /** What a request update may have done to the holders of blocks and to p's own requests: no block lost its
      holder without getting p as the new one; p's queue, with its `cancelled`, is within the reserve's limit, or
      within its own if nothing was urgent, or as long as it was; after a refusal nothing was asked for, after a
      cancel nothing was taken from others. */
  ghost predicate Passed(u: Update, order: seq<nat>, p: Peer, before: map<nat, Peer>, after: map<nat, Peer>,
                         own: set<nat>, own': set<nat>, cancelled: nat)
  {
    && own <= own' && Handed(before, after, p, order)
    && |own'| + cancelled <= Max(|own| + cancelled, u.UrgentCap())
    && ((forall r | r in order :: r !in u.urgent) ==> |own'| + cancelled <= Max(|own| + cancelled, u.maxReq))
    && (u.reason == AfterReject ==> after == before)
    && (u.reason == AfterCancel ==> forall r | r in before :: r in after && after[r] == before[r])
  }

  /** The same for the first k blocks; and what nobody else held at first nobody else holds. */
  ghost predicate EagerSoFar(u: Update, order: seq<nat>, k: nat, p: Peer, before: map<nat, Peer>, after: map<nat, Peer>,
                             own: set<nat>, cancelled: nat, stop: bool)
    requires k <= |order|
  {
    && (forall r | r in after && after[r] != p :: r in before && before[r] == after[r])
    && (Hungry(u, |own| + cancelled) && (forall r | r in order :: r in u.room) ==>
          !stop && forall j | 0 <= j < k && (order[j] in before ==> before[order[j]] == p) :: order[j] in own)
  }

  lemma EagerNothing(u: Update, order: seq<nat>, p: Peer, holders: map<nat, Peer>, own: set<nat>, cancelled: nat)
    ensures EagerSoFar(u, order, 0, p, holders, holders, own, cancelled, false)
  {
  }

  lemma EagerOn(u: Update, order: seq<nat>, k: nat, p: Peer, before: map<nat, Peer>, holders: map<nat, Peer>,
                own: set<nat>, cancelled: nat, holders': map<nat, Peer>, own': set<nat>, stop: bool, took: bool)
    requires k < |order| && EagerSoFar(u, order, k, p, before, holders, own, cancelled, false) && own <= own'
    requires holders' == if took then holders[order[k] := p] else holders
    requires took ==> order[k] in own'
    requires Hungry(u, |own| + cancelled) && (order[k] in holders ==> holders[order[k]] == p) ==> took
    requires Hungry(u, |own| + cancelled) && order[k] in u.room ==> !stop
    ensures EagerSoFar(u, order, k + 1, p, before, holders', own', cancelled, stop)
  {
    SubsetSize(own, own');
    assert order[k] in order;
  }

  lemma EagerEnd(u: Update, order: seq<nat>, k: nat, p: Peer, before: map<nat, Peer>, after: map<nat, Peer>,
                 own: set<nat>, cancelled: nat, stop: bool)
    requires k <= |order| && (k == |order| || stop) && EagerSoFar(u, order, k, p, before, after, own, cancelled, stop)
    ensures Eager(u, order, p, before, own, cancelled)
  {
  }

  /** An update of p that began in s0 with the holders `before` has got through the first k blocks. */
  ghost predicate Updated(u: Update, order: seq<nat>, k: nat, p: Peer, s0: State, s: State, before: map<nat, Peer>,
                          after: map<nat, Peer>, own0: set<nat>, own: set<nat>, cancelled: nat, taken: seq<nat>,
                          stop: bool)
    requires Inv(s0) && k <= |order|
  {
    && (forall r | r in taken :: r in order)
    && s == SwarmRuns.After(s0, SwarmRuns.Asked(p, taken)) && Follows(s0, p, taken, u.last)
    && Passed(u, order, p, before, after, own0, own, cancelled)
    && EagerSoFar(u, order, k, p, before, after, own, cancelled, stop)
  }

  lemma UpdatedNothing(u: Update, order: seq<nat>, p: Peer, s: State, holders: map<nat, Peer>, own: set<nat>,
                       cancelled: nat)
    requires Inv(s)
    ensures Updated(u, order, 0, p, s, s, holders, holders, own, own, cancelled, [], false)
  {
    hide Inv, Passed, Follows, EagerSoFar, SwarmRuns.After;
    PassedNothing(u, order, p, holders, own, cancelled);
    FollowsNothing(s, p, u.last);
    EagerNothing(u, order, p, holders, own, cancelled);
  }

  lemma UpdatedOn(u: Update, order: seq<nat>, k: nat, p: Peer, s0: State, s: State, before: map<nat, Peer>,
                  holders: map<nat, Peer>, own0: set<nat>, own: set<nat>, cancelled: nat, taken: seq<nat>, s': State,
                  stop: bool, took: bool)
    requires Inv(s0) && k < |order|
    requires Updated(u, order, k, p, s0, s, before, holders, own0, own, cancelled, taken, false)
    requires took ==> MayTake(u, order[k], |own| + cancelled)
    requires took && u.reason == AfterCancel && order[k] in holders ==> holders[order[k]] == p
    requires MayTake(u, order[k], |own| + cancelled) && (order[k] in holders ==> holders[order[k]] == p) ==> took
    requires stop <==> Sated(u, |own| + cancelled) || (took && order[k] !in u.room)
    requires took ==> SwarmRuns.AskEnabled(s, p, order[k]) && p in s.net.peers
    requires took ==> s' == s.(net := Acquire(s.net, p, order[k]))
    requires took ==> AsksIn(s0.blocks, s.net, p, order[k], u.last, Acquire(s.net, p, order[k]))
    requires !took ==> s' == s
    ensures Updated(u, order, k + 1, p, s0, s', before, if took then holders[order[k] := p] else holders, own0,
                    if took then own + {order[k]} else own, cancelled, if took then taken + [order[k]] else taken, stop)
  {
    hide Inv, Passed, Follows, EagerSoFar, SwarmRuns.After, Acquire, AsksIn, SwarmRuns.AskEnabled, MayTake, Hungry,
      Sated;
    var r := order[k];
    HungryTakes(u, r, |own| + cancelled);
    assert r in order;
    EagerOn(u, order, k, p, before, holders, own, cancelled, if took then holders[r := p] else holders,
            if took then own + {r} else own, stop, took);
    if took {
      PassedOn(u, order, p, before, holders, own0, own, cancelled, r);
      FollowsOn(s0, p, taken, u.last, s, r);
    }
  }

  lemma UpdatedEnd(u: Update, order: seq<nat>, k: nat, p: Peer, s0: State, s: State, before: map<nat, Peer>,
                   after: map<nat, Peer>, own0: set<nat>, own: set<nat>, cancelled: nat, taken: seq<nat>, stop: bool)
    requires Inv(s0) && k <= |order| && (k == |order| || stop)
    requires Updated(u, order, k, p, s0, s, before, after, own0, own, cancelled, taken, stop)
    ensures (forall r | r in taken :: r in order)
            && s == SwarmRuns.After(s0, SwarmRuns.Asked(p, taken)) && Follows(s0, p, taken, u.last)
            && Passed(u, order, p, before, after, own0, own, cancelled)
            && Eager(u, order, p, before, own, cancelled)
  {
    hide Inv, Passed, Follows, EagerSoFar, SwarmRuns.After, Eager;
    EagerEnd(u, order, k, p, before, after, own, cancelled, stop);
  }

  lemma PassedNothing(u: Update, order: seq<nat>, p: Peer, holders: map<nat, Peer>, own: set<nat>, cancelled: nat)
    ensures Passed(u, order, p, holders, holders, own, own, cancelled)
  {
  }

  lemma PassedOn(u: Update, order: seq<nat>, p: Peer, before: map<nat, Peer>, after: map<nat, Peer>, own: set<nat>,
                 own': set<nat>, cancelled: nat, r: nat)
    requires Passed(u, order, p, before, after, own, own', cancelled)
    requires r in order && MayTake(u, r, |own'| + cancelled)
    requires u.reason == AfterCancel && r in after ==> after[r] == p
    ensures Passed(u, order, p, before, after[r := p], own, own' + {r}, cancelled)
  {
  }

  /** The books after the first k requests of an update. */
  ghost function NetAt(s: State, p: Peer, taken: seq<nat>, k: nat): Net
    requires Inv(s) && k <= |taken|
  {
    SwarmRuns.After(s, SwarmRuns.Asked(p, taken[..k])).net
  }

  /** Every request of an update but the repeated ones found its block unheld or stole it by the rule. */
  ghost predicate Follows(s: State, p: Peer, taken: seq<nat>, last: map<Peer, int>)
    requires Inv(s)
  {
    forall k | 0 <= k < |taken| :: AsksIn(s.blocks, NetAt(s, p, taken, k), p, taken[k], last, NetAt(s, p, taken, k + 1))
  }

  ghost predicate AsksIn(b: Blocks, n: Net, p: Peer, r: nat, last: map<Peer, int>, n': Net) {
    p in n.peers && ((r in n.peers[p].requests && n' == n) || Asks(b, n, p, r, last, n'))
  }

  lemma NetAtPrefix(s: State, p: Peer, taken: seq<nat>, r: nat, k: nat)
    requires Inv(s) && k <= |taken|
    ensures NetAt(s, p, taken + [r], k) == NetAt(s, p, taken, k)
  {
    assert (taken + [r])[..k] == taken[..k];
  }

  lemma NetAtEnd(s: State, p: Peer, taken: seq<nat>)
    requires Inv(s)
    ensures NetAt(s, p, taken, |taken|) == SwarmRuns.After(s, SwarmRuns.Asked(p, taken)).net
  {
    assert taken[..|taken|] == taken;
  }

  lemma FollowsOn(s: State, p: Peer, taken: seq<nat>, last: map<Peer, int>, s1: State, r: nat)
    requires Inv(s) && Follows(s, p, taken, last) && s1 == SwarmRuns.After(s, SwarmRuns.Asked(p, taken))
    requires SwarmRuns.AskEnabled(s1, p, r) && p in s1.net.peers
    requires AsksIn(s.blocks, s1.net, p, r, last, Acquire(s1.net, p, r))
    ensures SwarmRuns.After(s, SwarmRuns.Asked(p, taken + [r])) == s1.(net := Acquire(s1.net, p, r))
    ensures Follows(s, p, taken + [r], last)
  {
    hide Inv, AsksIn, SwarmRuns.AskEnabled, Acquire, SwarmRuns.After, SwarmRuns.Step, SwarmRuns.Asked, NetAt;
    SwarmRuns.AskedMore(s, p, taken, r);
    SwarmRuns.AskStep(s1, p, r);
    NetAtEnd(s, p, taken);
    NetAtEnd(s, p, taken + [r]);
    forall k | 0 <= k <= |taken|
      ensures NetAt(s, p, taken + [r], k) == NetAt(s, p, taken, k)
    {
      NetAtPrefix(s, p, taken, r, k);
    }
  }

  /** By the books, a permitted request finds its block with the taker, unheld, or steals it. */
  lemma AskCounts(b: Blocks, n: Net, p: Peer, r: nat, last: map<Peer, int>)
    requires Books(n) && p in n.peers && n.peers.Keys <= last.Keys && r in b
    requires r in n.holder && n.holder[r] != p ==>
               && n.holder[r] in n.peers
               && StealPermitted(Otherwise, Size(n, p) + 1 - (Size(n, n.holder[r]) - 1), last[p], last[n.holder[r]],
                                 true)
    ensures AsksIn(b, n, p, r, last, Acquire(n, p, r))
    ensures r in n.holder && n.holder[r] != p ==> Steals(n, p, r, last, Acquire(n, p, r))
  {
    hide Acquire;
    AcquireHeld(n, p, r);
  }

  /** The books once nobody but p holds the block. */
  function Vacated(n: Net, p: Peer, r: nat): Net {
    if r in n.holder && n.holder[r] != p then CancelSet(n, {r}) else n
  }

  lemma VacatedAcquire(n: Net, p: Peer, r: nat)
    requires Books(n) && p in n.peers
    ensures var n1 := Vacated(n, p, r);
            && p in n1.peers && n1.peers[p] == n.peers[p]
            && Acquire(n, p, r) == if r in n.peers[p].requests then n1 else Issue(n1, p, r)
  {
    if r in n.holder && n.holder[r] != p {
      CancelSpares(n, p, r);
    }
  }

  lemma AcquireHeld(n: Net, p: Peer, r: nat)
    requires p in n.peers
    ensures r in n.peers[p].requests ==> Acquire(n, p, r) == n
  {
  }

  /** The requests of an update that are not repeats, in their order. */
  ghost function Moves(s: State, p: Peer, taken: seq<nat>, k: nat): seq<(Peer, nat)>
    requires Inv(s) && k <= |taken|
  {
    if k == 0 then []
    else
      var peers := NetAt(s, p, taken, k - 1).peers;
      Moves(s, p, taken, k - 1)
      + if p in peers && taken[k - 1] in peers[p].requests then [] else [(p, taken[k - 1])]
  }

  /** Without its repeats, which change nothing, an update is a run of requests each fresh or stolen. */
  lemma {:induction false} FollowsRun(s: State, p: Peer, taken: seq<nat>, last: map<Peer, int>, k: nat)
    returns (run: seq<Net>)
    requires Inv(s) && Follows(s, p, taken, last) && k <= |taken|
    ensures AskRun(s.blocks, run, Moves(s, p, taken, k), last)
    ensures run[0] == s.net && run[|run| - 1] == NetAt(s, p, taken, k)
  {
    hide Inv, NetAt, Asks, Acquire;
    if k == 0 {
      NetAtStart(s, p, taken);
      run := [s.net];
    } else {
      run := FollowsRun(s, p, taken, last, k - 1);
      var n, n' := NetAt(s, p, taken, k - 1), NetAt(s, p, taken, k);
      assert AsksIn(s.blocks, n, p, taken[k - 1], last, n');
      if taken[k - 1] in n.peers[p].requests {
        HeldAsks(s.blocks, n, p, taken[k - 1], last, n');
      } else {
        run := run + [n'];
      }
    }
  }

  lemma NetAtStart(s: State, p: Peer, taken: seq<nat>)
    requires Inv(s)
    ensures NetAt(s, p, taken, 0) == s.net
  {
    assert SwarmRuns.Asked(p, taken[..0]) == [];
  }

  lemma HeldAsks(b: Blocks, n: Net, p: Peer, r: nat, last: map<Peer, int>, n': Net)
    requires AsksIn(b, n, p, r, last, n') && r in n.peers[p].requests
    ensures n' == n
  {
    AcquireHeld(n, p, r);
  }

  /** So an update makes only so many requests that are not repeats. */
  lemma UpdateBounded(s: State, p: Peer, taken: seq<nat>, last: map<Peer, int>, lo: int, hi: int)
    requires Inv(s) && Follows(s, p, taken, last) && lo <= hi && LastWithin(s.net, last, lo, hi)
    ensures |Moves(s, p, taken, |taken|)| <= AskRank(s.blocks, s.net, last, lo, hi)
  {
    hide Inv, Follows, AskRank, LastWithin, Asks;
    var run := FollowsRun(s, p, taken, last, |taken|);
    AsksBounded(s.blocks, run, Moves(s, p, taken, |taken|), last, lo, hi);
  }

  lemma FollowsNothing(s: State, p: Peer, last: map<Peer, int>)
    requires Inv(s)
    ensures Follows(s, p, [], last) && SwarmRuns.After(s, SwarmRuns.Asked(p, [])) == s
  {
    assert SwarmRuns.Asked(p, []) == [];
  }

  class Torrent {
    const layout: Layout
    ghost const blocks: Blocks
    var conns: set<Peer>
    var requestState: map<nat, Peer>
    var hedgedRequests: set<nat>
    var dirtyChunks: set<nat>
    var pieces: seq<Piece>
    var completedPieces: set<nat>
    var piecesQueuedForHash: set<nat>
    var pendingPieces: set<nat>
    var readers: map<nat, Range>
    var readerNowPieces: set<nat>
    var readerReadaheadPieces: set<nat>
    var files: seq<File>
    var dataDownloadDisallowed: bool
    ghost var hedges: map<nat, nat>
    ghost var writing: map<Peer, nat>

    ghost function PeersView(): map<Peer, PeerState>
      reads this`conns, conns
    {
      map p | p in conns :: p.View()
    }

    /** A change of one connection changes only its entry in the view. */
    twostate lemma OneConnChanged(c: Peer)
      requires conns == old(conns) && c in conns
      requires forall p | p in conns && p != c :: p.View() == old(p.View())
      ensures PeersView() == old(PeersView())[c := c.View()]
    {
    }

    twostate lemma SameConns()
      requires conns == old(conns) && forall p | p in conns :: p.View() == old(p.View())
      ensures PeersView() == old(PeersView())
    {
    }

    twostate lemma ConnDropped(c: Peer)
      requires conns == old(conns) - {c}
      requires forall p | p in conns :: p.View() == old(p.View())
      ensures PeersView() == old(PeersView()) - {c}
    {
    }

    ghost function NetView(): Net
      reads this, conns
    {
      Net(PeersView(), requestState, hedgedRequests, hedges, dirtyChunks, writing)
    }

    ghost function WantView(): Want
      reads this
    {
      Want(pieces, completedPieces, piecesQueuedForHash, pendingPieces, readers, readerNowPieces,
           readerReadaheadPieces, files)
    }

    ghost function View(): State
      reads this, conns
    {
      State(blocks, NetView(), WantView(), dataDownloadDisallowed)
    }

    /** The geometry of the torrent, which never changes. */
    ghost predicate Laid()
      reads this`pieces
    {
      layout.Valid() && |pieces| == layout.NumPieces() && blocks == BlocksOf(layout)
    }

    ghost predicate Valid()
      reads this, conns
    {
      Laid() && Inv(View())
    }

    function RequestingPeer(r: nat): Peer?
      reads this
    {
      if r in requestState then requestState[r] else null
    }

    /** The torrent names c as the holder of everything c was asked for. */
    ghost predicate Agrees(c: Peer)
      reads this, c
    {
      forall r | r in c.requests :: r in requestState && requestState[r] == c
    }

    lemma ConnAgrees(c: Peer)
      requires c in conns && Owned(NetView())
      ensures Agrees(c)
      ensures c in PeersView() && PeersView()[c] == c.View()
    {
      assert NetView().peers[c] == c.View();
    }

    lemma ConnFacts(c: Peer)
      requires Valid() && c in conns
      ensures Agrees(c) && c.View().Valid() && Books(NetView())
      ensures c in PeersView() && PeersView()[c] == c.View()
    {
      assert NetView().peers[c] == c.View();
    }

    /** onSetInfo: the info is known, and connections that were open before are still to be asked for anything. */
    constructor (layout: Layout, files: seq<File>, conns: set<Peer>)
      requires layout.Valid()
      requires forall f | f in files :: f.end <= layout.NumPieces() && f.priority == PRIORITY_NONE
      requires forall p | p in conns :: SwarmRuns.Idle(p.View())
      ensures Valid() && SwarmRuns.Started(View()) && !dataDownloadDisallowed
      ensures this.layout == layout && this.files == files && this.conns == conns
    {
      this.layout, this.files, this.conns, blocks := layout, files, conns, BlocksOf(layout);
      pieces := seq(layout.NumPieces(), _ => Piece(false, false, false, PRIORITY_NONE, 0));
      requestState, hedgedRequests, dirtyChunks, hedges, writing := map[], {}, {}, map[], map[];
      completedPieces, piecesQueuedForHash, pendingPieces := {}, {}, {};
      readers, readerNowPieces, readerReadaheadPieces, dataDownloadDisallowed := map[], {}, {}, false;
      new;
      BlocksInPieces(layout);
      SwarmRuns.StartedInv(View());
    }

    // ---- connections ----

    /** addPeerConn, once there is room for the connection. */
    method AddConnection(c: Peer)
      requires Valid() && c !in conns && c !in writing && (c.acksCancels ==> c.fast)
      requires c.View() == NewPeer(c.fast, c.acksCancels)
      modifies this`conns
      ensures Valid() && View() == SetPeer(old(View()), c, NewPeer(c.fast, c.acksCancels))
    {
      hide Inv, BlocksOf;
      ConnsInView();
      SwarmRuns.AddConnKeeps(View(), c, c.fast, c.acksCancels);
      conns := conns + {c};
      assert PeersView() == old(PeersView())[c := c.View()];
    }

    /** The remote peer's pieces are now known to be these. */
    method PeerPiecesChanged(c: Peer, has: set<nat>)
      requires Valid() && c in conns
      modifies c`has
      ensures Valid() && View() == SetPeer(old(View()), c, old(c.View()).(has := has))
    {
      hide Inv, Books, BlocksOf, PeersView;
      ConnFacts(c);
      SetPeerKeeps(View(), c, c.View().(has := has));
      c.has := has;
      OneConnChanged(c);
    }

    // ---- peer.go ----

    method DeleteRequest(c: Peer, r: nat) returns (removed: bool)
      requires Agrees(c)
      modifies this`requestState, this`hedgedRequests, c`requests
      ensures removed == (r in old(c.requests))
      ensures c.requests == old(c.requests) - {r}
      ensures requestState == if removed then old(requestState) - {r} else old(requestState)
      ensures hedgedRequests == if removed then old(hedgedRequests) - {r} else old(hedgedRequests)
    {
      if r !in c.requests {
        return false;
      }
      c.requests := c.requests - {r};
      if RequestingPeer(r) != c {
        assert false;  // "only one peer should have a given request at a time"
      }
      requestState := requestState - {r};
      hedgedRequests := hedgedRequests - {r};
      return true;
    }

    method Cancel(p: Peer, r: nat)
      requires p in conns && r in p.requests && Owned(NetView()) && p.View().Valid()
      modifies this`requestState, this`hedgedRequests, p`requests, p`cancelled
      ensures p.requests == old(p.requests) - {r}
      ensures NetView() == CancelSet(old(NetView()), {r})
    {
      hide Owned, CancelSet, PeersView;
      ConnAgrees(p);
      DeleteIsCancel(NetView(), p, r);
      var removed := DeleteRequest(p, r);
      if !removed {
        assert false;  // "request not existing should have been guarded"
      }
      if p.acksCancels {
        if r in p.cancelled {
          assert false;  // "request already cancelled"
        }
        p.cancelled := p.cancelled + {r};
      }
      assert p.View() == old(p.View()).Cancel({r});
      OneConnChanged(p);
    }

    /** cancelRequest, which the code ends by checking that the request state is gone. */
    method CancelRequest(r: nat)
      requires Books(NetView())
      modifies this`requestState, this`hedgedRequests, conns`requests, conns`cancelled
      ensures NetView() == CancelSet(old(NetView()), {r})
    {
      var p := RequestingPeer(r);
      if p != null {
        assert NetView().peers[p].Valid() && r in NetView().peers[p].requests;
        Cancel(p, r);
      } else {
        CancelNothing(NetView(), {r});
      }
      if r in requestState {
        assert false;  // "expected request state to be gone"
      }
    }

    method CancelRequestsForPiece(i: nat)
      requires Laid() && i < |pieces| && Books(NetView())
      modifies this`requestState, this`hedgedRequests, conns`requests, conns`cancelled
      ensures NetView() == CancelSet(old(NetView()), BlockSet(blocks, i))
    {
      hide Books, CancelSet;
      var start := layout.Offset(i);
      var end := start + layout.NumChunks(i);
      var ri := start;
      CancelNone(NetView());
      assert Interval(start, ri) == {};
      while ri < end
        invariant start <= ri <= end
        invariant NetView() == CancelSet(old(NetView()), Interval(start, ri)) && Books(NetView())
      {
        CancelTwice(old(NetView()), Interval(start, ri), {ri});
        CancelSetBooks(NetView(), {ri});
        CancelRequest(ri);
        assert Interval(start, ri) + {ri} == Interval(start, ri + 1);
        ri := ri + 1;
      }
      BlockSetInterval(layout, i);
    }

    method CancelAllRequests(p: Peer)
      requires p in conns && Books(NetView())
      modifies this`requestState, this`hedgedRequests, p`requests, p`cancelled
      ensures NetView() == CancelSet(old(NetView()), old(p.requests))
    {
      hide Books, CancelSet;
      var snapshot := p.requests;
      var done: set<nat> := {};
      CancelNone(NetView());
      while done != snapshot
        invariant done <= snapshot && p.requests == snapshot - done
        invariant NetView() == CancelSet(old(NetView()), done) && Books(NetView())
        decreases snapshot - done
      {
        assert snapshot - done != {};
        var x :| x in snapshot - done;
        assert NetView().peers[p] == p.View();
        assert Owned(NetView()) && p.View().Valid() by { BooksOf(NetView(), p); }
        CancelTwice(old(NetView()), done, {x});
        CancelSetBooks(NetView(), {x});
        Cancel(p, x);
        done := done + {x};
      }
      if p.requests != {} {
        assert false;  // assertNoRequests
      }
    }

    method DeleteAllRequests(c: Peer)
      requires Agrees(c)
      modifies this`requestState, this`hedgedRequests, c`requests
      ensures c.requests == {}
      ensures requestState == old(requestState) - old(c.requests)
      ensures hedgedRequests == old(hedgedRequests) - old(c.requests)
    {
      var snapshot := c.requests;
      var done: set<nat> := {};
      while done != snapshot
        invariant done <= snapshot && c.requests == snapshot - done
        invariant requestState == old(requestState) - done && hedgedRequests == old(hedgedRequests) - done
        decreases snapshot - done
      {
        assert snapshot - done != {};
        var x :| x in snapshot - done;
        var removed := DeleteRequest(c, x);
        if !removed {
          assert false;  // "request should exist"
        }
        done := done + {x};
      }
      if c.requests != {} {
        assert false;  // assertNoRequests
      }
    }

    /** dropConnection: the connection is closed and forgotten with all its requests. */
    method DropConnection(c: Peer)
      requires Valid() && c in conns
      modifies this`requestState, this`hedgedRequests, this`conns, c`requests, c`closed
      ensures Valid() && c.closed && c.requests == {}
      ensures View() == old(View()).(net := Drop(old(NetView()), c))
    {
      hide Inv, Books, BlocksOf, PeersView;
      ConnFacts(c);
      DropConnKeeps(View(), c);
      c.closed := true;
      conns := conns - {c};
      DeleteAllRequests(c);
      ConnDropped(c);
    }

    // ---- peerconn.go ----

    method HandleChoke(c: Peer)
      requires Valid() && c in conns
      modifies this`requestState, this`hedgedRequests, c`requests, c`choking
      ensures Valid() && View() == ChokeMessage(old(View()), c)
    {
      hide Inv, Books, BlocksOf, PeersView;
      ConnFacts(c);
      ChokeMessageKeeps(View(), c);
      if c.choking {
        return;
      }
      if !c.fast {
        DeleteAllRequests(c);
      }
      c.choking := true;
      OneConnChanged(c);
    }

    method HandleUnchoke(c: Peer)
      requires Valid() && c in conns
      modifies c`choking
      ensures Valid() && View() == SetPeer(old(View()), c, old(c.View()).(choking := false))
    {
      hide Inv, Books, BlocksOf, PeersView;
      ConnFacts(c);
      SetPeerKeeps(View(), c, c.View().(choking := false));
      c.choking := false;
      OneConnChanged(c);
    }

    method RemoteRejectedRequest(c: Peer, r: nat) returns (valid: bool)
      requires Valid() && c in conns
      modifies this`requestState, this`hedgedRequests, c`requests, c`cancelled, c`expected
      ensures valid == (r in old(c.requests + c.cancelled))
      ensures valid ==> c in old(PeersView()) && old(PeersView())[c].Expects(r) >= 1
      ensures valid ==> NetView() == Settle(old(NetView()), c, r)
      ensures !valid ==> NetView() == old(NetView())
    {
      hide Inv, Books, BlocksOf, PeersView;
      ConnFacts(c);
      ExpectsBoth(c.View(), r);
      var removed := DeleteRequest(c, r);
      if !removed {
        if r in c.cancelled {
          c.cancelled := c.cancelled - {r};
        } else {
          OneConnChanged(c);
          assert c.View() == old(c.View());
          assert PeersView() == old(PeersView());
          return false;
        }
      }
      c.DecExpectedChunkReceive(r);
      OneConnChanged(c);
      assert c.View() == old(c.View()).Settle(r);
      return true;
    }

    /** A Reject message: one that answers nothing ends the connection. */
    method HandleReject(c: Peer, r: nat)
      requires Valid() && c in conns
      modifies this`requestState, this`hedgedRequests, this`conns, c`requests, c`cancelled, c`expected, c`closed
      ensures Valid()
      ensures c in old(NetView()).peers && old(NetView()).peers[c].Valid()
              && View() == RemoteRejected(old(View()), c, r)
    {
      hide Inv, Books, BlocksOf, PeersView;
      ConnFacts(c);
      RemoteRejectedKeeps(View(), c, r);
      if c.fast {
        var valid := RemoteRejectedRequest(c, r);
        if valid {
          return;
        }
      }
      DropConnection(c);
    }

    function HaveBlock(r: nat): (have: bool)
      reads this, conns
      requires Laid() && layout.ValidIndex(r)
      ensures r in blocks && have == HaveChunk(View(), r)
    {
      BlocksOfLayout(layout, r);
      layout.PieceOf(r) in completedPieces || r in dirtyChunks
    }

    /** The bookkeeping at the head of receiveChunk, for a block the connection expects. */
    method SettleChunk(c: Peer, r: nat)
      requires Valid() && c in conns && c.View().Expects(r) >= 1
      modifies this`requestState, this`hedgedRequests, c`requests, c`cancelled, c`expected
      ensures c in old(PeersView()) && old(PeersView())[c].Expects(r) >= 1
      ensures NetView() == Settle(old(NetView()), c, r)
    {
      hide Inv, Books, BlocksOf, PeersView;
      ConnFacts(c);
      c.DecExpectedChunkReceive(r);
      var removed := DeleteRequest(c, r);
      if !removed && r in c.cancelled {
        c.cancelled := c.cancelled - {r};
      }
      OneConnChanged(c);
      assert c.View() == old(c.View()).Settle(r);
    }

    /** The middle of receiveChunk, for a block that is new: it is recorded before it is written, so
        that nobody asks for it meanwhile, and whoever was asked for it is told to forget it. */
    method AcceptBlock(c: Peer, r: nat)
      requires layout.Valid() && layout.PieceOf(r) < |pieces|
      requires Books(NetView()) && (r in requestState ==> requestState[r] != c)
      modifies this`pieces, this`dirtyChunks, this`requestState, this`hedgedRequests, this`writing
      modifies conns`requests, conns`cancelled
      ensures NetView() == Accept(old(NetView()), c, r)
      ensures var i := layout.PieceOf(r);
              pieces == old(pieces)[i := old(pieces[i]).(pendingWrites := old(pieces[i]).pendingWrites + 1)]
    {
      hide Books, CancelSet, PeersView;
      var i := layout.PieceOf(r);
      pieces := pieces[i := pieces[i].(pendingWrites := pieces[i].pendingWrites + 1)];
      dirtyChunks := dirtyChunks + {r};
      SameConns();
      CancelFrame(old(NetView()), {r}, dirtyChunks, writing[c := r]);
      var p := RequestingPeer(r);
      if p == c {
        assert false;  // "should not be pending request from conn that just received it"
      }
      CancelRequest(r);
      writing := writing[c := r];
    }

    /** receiveChunk, for a block the connection expects, up to where it releases the client lock;
        the result says whether it does. */
    method ReceiveExpectedChunk(c: Peer, r: nat) returns (writes: bool)
      requires Valid() && c in conns && c !in writing && layout.ValidIndex(r) && c.View().Expects(r) >= 1
      modifies this`pieces, this`dirtyChunks, this`requestState, this`hedgedRequests, this`writing
      modifies conns`requests, conns`cancelled, c`expected
      ensures Expected(old(View()), c, r) && writes == !HaveChunk(old(View()), r)
      ensures !writes ==> NetView() == Settle(old(NetView()), c, r) && pieces == old(pieces)
      ensures writes ==> NetView() == Accept(Settle(old(NetView()), c, r), c, r)
      ensures writes ==> pieces == AcceptChunk(old(View()), c, r).want.pieces
    {
      hide Inv, Books, BlocksOf, PeersView, CancelSet, Settle;
      ConnFacts(c);
      BlocksOfLayout(layout, r);
      SettledFacts(View(), c, r);
      SettleChunk(c, r);
      writes := !HaveBlock(r);
      if writes {
        AcceptBlock(c, r);
      }
    }

    /** The same, as the torrent's step. */
    method HandleExpectedChunk(c: Peer, r: nat) returns (writes: bool)
      requires Valid() && c in conns && c !in writing && layout.ValidIndex(r) && c.View().Expects(r) >= 1
      modifies this`pieces, this`dirtyChunks, this`requestState, this`hedgedRequests, this`writing
      modifies conns`requests, conns`cancelled, c`expected
      ensures Valid()
      ensures Expected(old(View()), c, r) && View() == ReceiveExpected(old(View()), c, r)
      ensures writes == (c in writing)
    {
      hide Inv, Books, BlocksOf, PeersView, CancelSet, Settle, Layout.ValidIndex, Layout.NumPieces, PeerState.Valid,
        Agrees;
      PeerInView(c);
      ghost var s0 := View();
      SettledFacts(s0, c, r);
      writes := ReceiveExpectedChunk(c, r);
      ExpectedView(s0, View(), c, r);
      ReceiveChunkKeeps(s0, c, r);
    }

    /** receiveChunk up to where it releases the client lock; the result says whether it does. */
    method HandleChunk(c: Peer, r: nat) returns (writes: bool)
      requires Valid() && c in conns && c !in writing
      modifies this`conns, this`pieces, this`dirtyChunks, this`requestState, this`hedgedRequests, this`writing
      modifies conns`requests, conns`cancelled, c`expected, c`closed
      ensures Valid()
      ensures c in old(PeersView()) && (r in blocks ==> blocks[r] < old(|pieces|))
      ensures View() == ReceiveChunk(old(View()), c, r)
      ensures writes == (c in writing)
    {
      hide Inv, Books, BlocksOf, PeersView, Drop, Settle, ReceiveExpected, Layout.NumPieces, PeerState.Valid, Agrees;
      PeerInView(c);
      BlocksOfLayout(layout, r);
      hide Layout.ValidIndex;
      if !layout.ValidIndex(r) || r !in c.expected || c.expected[r] <= 0 {
        DropConnKeeps(View(), c);
        DropConnection(c);
        return false;
      }
      writes := HandleExpectedChunk(c, r);
    }

    // ---- requesting.go ----

    /** What getDesiredRequestState puts on the heap of a request update. */
    ghost predicate Askable(p: Peer, r: nat)
      reads this, p
      requires layout.Valid()
    {
      && layout.ValidIndex(r) && layout.PieceOf(r) in pendingPieces && r !in dirtyChunks
      && layout.PieceOf(r) in p.has && r !in p.cancelled && (p.choking ==> r in p.requests)
    }

    lemma AskableOffered(p: Peer, r: nat)
      requires Valid() && p in conns && !p.closed && Askable(p, r)
      ensures Offered(blocks, NetView(), pendingPieces, p, r)
      ensures r in blocks && layout.PieceOf(r) < |pieces|
      ensures var i := layout.PieceOf(r); !pieces[i].hashing && i !in piecesQueuedForHash
    {
      BlocksOfLayout(layout, r);
      assert NetView().peers[p] == p.View();
      assert PendingExcept(WantView(), {});
    }

    /** Peer.request of a block nobody holds. */
    method IssueBlock(p: Peer, r: nat)
      requires Valid() && p in conns && !p.closed && Askable(p, r) && !dataDownloadDisallowed
      requires r !in requestState
      modifies this`requestState, this`hedges, p`requests, p`expected
      ensures Valid()
      ensures p in old(PeersView()) && NetView() == Issue(old(NetView()), p, r)
      ensures p.requests == old(p.requests) + {r} && requestState == old(requestState)[r := p]
    {
      hide Inv, InvExcept, Books, BlocksOf, PeersView, Layout.ValidIndex, Layout.PieceOf, Agrees, PeerState.Valid,
        Offered, Issue;
      AskableOffered(p, r);
      ConnFacts(p);
      IssueValid(View(), p, r);
      RecordRequest(p, r);
    }

    /** The book entries of a request. */
    method RecordRequest(p: Peer, r: nat)
      requires p in conns
      modifies this`requestState, this`hedges, p`requests, p`expected
      ensures p in old(PeersView()) && NetView() == Issue(old(NetView()), p, r)
      ensures p.requests == old(p.requests) + {r} && requestState == old(requestState)[r := p]
    {
      hide PeersView, PeerState.Valid;
      PeerInView(p);
      p.requests := p.requests + {r};
      p.IncExpectedChunkReceive(r);
      requestState := requestState[r := p];
      hedges := hedges[r := 0];
      OneConnChanged(p);
    }

    /** Peer.request with the checks of shouldRequest. A block somebody else held must have been
        cancelled before. */
    method RequestBlock(p: Peer, r: nat, limit: int) returns (tooMany: bool)
      requires Valid() && p in conns && !p.closed && Askable(p, r) && !dataDownloadDisallowed
      requires r in requestState ==> requestState[r] == p
      modifies this`requestState, this`hedges, p`requests, p`expected
      ensures Valid()
      ensures tooMany == (r !in old(p.requests) && |old(p.requests)| >= limit)
      ensures tooMany ==> NetView() == old(NetView())
      ensures !tooMany ==> p in old(PeersView())
      ensures !tooMany ==> NetView() == if r in old(p.requests) then old(NetView()) else Issue(old(NetView()), p, r)
      ensures !tooMany ==> p.requests == old(p.requests) + {r} && requestState == old(requestState)[r := p]
    {
      hide Inv, InvExcept, BlocksOf, PeersView, Issue;
      AskableOffered(p, r);
      ConnFacts(p);
      ConnHolds(p, r);
      var i := layout.PieceOf(r);
      if r in p.cancelled || i !in p.has || p !in conns || p.closed || pieces[i].hashing || i in piecesQueuedForHash {
        assert false;  // the errors and panics of shouldRequest
      }
      if p.choking && r !in p.requests {
        assert false;  // "peer choking and piece not allowed fast"
      }
      tooMany := r !in p.requests && |p.requests| >= limit;
      if !tooMany && r !in p.requests {
        IssueBlock(p, r);
      }
    }

    lemma ConnHolds(p: Peer, r: nat)
      requires p in conns && Books(NetView())
      ensures r in p.requests <==> r in requestState && requestState[r] == p
    {
      assert NetView().peers[p] == p.View();
    }

    /** Take a block from whoever else holds it. */
    method FreeBlock(p: Peer, r: nat)
      requires Valid() && p in conns && !p.closed && Askable(p, r)
      modifies this`requestState, this`hedgedRequests, conns`requests, conns`cancelled
      ensures Valid() && Askable(p, r) && p.View() == old(p.View())
      ensures NetView() == Vacated(old(NetView()), p, r)
      ensures r in requestState ==> requestState[r] == p
      ensures requestState[r := p] == old(requestState)[r := p]
    {
      hide Inv, InvExcept, BlocksOf, PeersView, Books, CancelSet, Layout.ValidIndex, Layout.PieceOf, Agrees;
      ConnFacts(p);
      var existing := RequestingPeer(r);
      if existing != null && existing != p {
        CancelledFacts(View(), p, r);
        CancelRequest(r);
        PeerInView(p);
      }
    }

    /** One pass of the loop below that goes through: the block is taken from its holder, if it has
        one, and asked of p. */
    method TakeBlock(p: Peer, r: nat, limit: int) returns (tooMany: bool)
      requires Valid() && p in conns && !p.closed && Askable(p, r) && !dataDownloadDisallowed
      modifies this`requestState, this`hedgedRequests, this`hedges, conns`requests, conns`cancelled, p`expected
      ensures tooMany == (r !in old(p.requests) && |old(p.requests)| >= limit)
      ensures p.cancelled == old(p.cancelled)
      ensures !tooMany ==> Valid() && p in old(PeersView()) && NetView() == Acquire(old(NetView()), p, r)
      ensures !tooMany ==> p.requests == old(p.requests) + {r} && requestState == old(requestState)[r := p]
    {
      hide Inv, InvExcept, BlocksOf, PeersView, Issue, Books, CancelSet, Acquire, Vacated, Layout.ValidIndex,
        Layout.PieceOf;
      ConnFacts(p);
      VacatedAcquire(NetView(), p, r);
      FreeBlock(p, r);
      tooMany := RequestBlock(p, r, limit);
    }

    /** Asking p for a block it may be asked for is a step of the torrent, and one that counts: it finds the block
        unheld or steals it by the rule. */
    lemma AskSteps(p: Peer, req: nat, last: map<Peer, int>)
      requires Valid() && p in conns && !p.closed && !dataDownloadDisallowed && Askable(p, req) && conns <= last.Keys
      requires req in requestState && requestState[req] != p ==>
                 && requestState[req] in conns
                 && StealPermitted(Otherwise, |p.requests| + 1 - (|requestState[req].requests| - 1), last[p],
                                   last[requestState[req]], true)
      ensures SwarmRuns.AskEnabled(View(), p, req) && p in NetView().peers
      ensures AsksIn(blocks, NetView(), p, req, last, Acquire(NetView(), p, req))
      ensures req in requestState && requestState[req] != p ==>
                Steals(NetView(), p, req, last, Acquire(NetView(), p, req))
    {
      hide Inv, InvExcept, BlocksOf, Books, PeersView, Acquire, Layout.ValidIndex, Layout.PieceOf, AsksIn, Steals,
        Agrees;
      AskableOffered(p, req);
      ConnFacts(p);
      ConnsInView();
      if req in requestState && requestState[req] != p {
        PeerInView(requestState[req]);
      }
      AskCounts(blocks, NetView(), p, req, last);
    }

    lemma ConnsInView()
      ensures PeersView().Keys == conns
    {
    }

    /** How long the queue of a block's holder is. */
    ghost function HolderQueue(r: nat): nat
      requires r in requestState ==> requestState[r] in conns
      reads this, conns
    {
      if r in requestState then |requestState[r].requests| else 0
    }

    /** Whether the loop of applyRequestState takes a block, and up to which queue length; if it does not, whether it
        goes on. */
    method Decide(p: Peer, req: nat, u: Update) returns (take: bool, stop: bool, limit: int)
      requires Valid() && p in conns && conns <= u.last.Keys
      ensures req in requestState ==> requestState[req] in conns
      ensures take <==>
              && MayTake(u, req, |p.requests| + |p.cancelled|)
              && MayHave(u, p, req, requestState, |p.requests|, HolderQueue(req))
      ensures !take ==> (stop <==> Sated(u, |p.requests| + |p.cancelled|))
      ensures take ==> !stop && |p.requests| + |p.cancelled| < limit
    {
      hide Inv, InvExcept, BlocksOf, PeersView, Books, UrgentRequestCap;
      if req in requestState {
        HolderKnown(req);
      }
      take, stop, limit := false, false, u.maxReq;
      var urgentCap := u.UrgentCap();
      var numPending := |p.requests| + |p.cancelled|;
      if numPending >= urgentCap || (numPending >= u.maxReq && !u.reserve) {
        stop := true;
        return;
      }
      if numPending >= u.maxReq {
        if req !in u.urgent {
          return;
        }
        limit := urgentCap;
      }
      if u.reason == AfterReject {
        return;
      }
      var existing := RequestingPeer(req);
      if existing != null && existing != p {
        var diff := |p.requests| + 1 - (|existing.requests| - 1);
        if !StealPermitted(u.reason, diff, u.last[p], u.last[existing], req in u.elapsed) || req !in u.unvetoed {
          return;
        }
      }
      take := true;
    }

    /** One pass of the loop of applyRequestState, for the block the heap hands out next. Exactly if the limits and
        the rules of stealing allow it p ends up holding the block, else nothing changes; `stop` ends the loop. */
    method TryBlock(p: Peer, req: nat, u: Update) returns (stop: bool, took: bool)
      requires Valid() && p in conns && !p.closed && !dataDownloadDisallowed && Askable(p, req)
      requires conns <= u.last.Keys
      modifies this`requestState, this`hedgedRequests, this`hedges, conns`requests, conns`cancelled, p`expected
      ensures Valid() && p.cancelled == old(p.cancelled)
      ensures old(req in requestState ==> requestState[req] in conns)
      ensures took <==>
              && MayTake(u, req, old(|p.requests| + |p.cancelled|))
              && MayHave(u, p, req, old(requestState), old(|p.requests|), old(HolderQueue(req)))
      ensures stop <==> Sated(u, old(|p.requests| + |p.cancelled|)) || (took && req !in u.room)
      ensures !took ==> View() == old(View()) && requestState == old(requestState) && p.requests == old(p.requests)
      ensures took ==> p in old(PeersView()) && NetView() == Acquire(old(NetView()), p, req)
      ensures took ==> SwarmRuns.AskEnabled(old(View()), p, req) && View() == old(View()).(net := NetView())
      ensures took ==> AsksIn(blocks, old(NetView()), p, req, u.last, NetView())
      ensures took && req in old(requestState) && old(requestState[req]) != p ==>
                Steals(old(NetView()), p, req, u.last, NetView())
      ensures took ==> requestState == old(requestState)[req := p] && p.requests == old(p.requests) + {req}
    {
      hide Inv, InvExcept, BlocksOf, PeersView, Books, Acquire, UrgentRequestCap, Layout.ValidIndex, Layout.PieceOf,
        AsksIn, Steals, SwarmRuns.AskEnabled, MayTake, MayHave;
      var take, limit;
      take, stop, limit := Decide(p, req, u);
      TakeNotSated(u, req, |p.requests| + |p.cancelled|);
      if !take {
        return stop, false;
      }
      StealRule(u, p, req, requestState, |p.requests|, HolderQueue(req));
      AskSteps(p, req, u.last);
      var tooMany := TakeBlock(p, req, limit);
      if tooMany {
        assert false;  // "too many outstanding requests"
      }
      return req !in u.room, true;
    }

    /** applyRequestState: `order` is the sequence in which the heap hands out the desired blocks. No
        block loses its holder without getting p as the new one, and the queue of p ends within its
        limit, or within the reserve's limit for urgent blocks, or as long as it was. */
    method ApplyRequestState(p: Peer, order: seq<nat>, u: Update) returns (ghost taken: seq<nat>)
      requires Valid() && p in conns && !p.closed && !dataDownloadDisallowed
      requires forall r | r in order :: Askable(p, r)
      requires conns <= u.last.Keys
      modifies this`requestState, this`hedgedRequests, this`hedges, conns`requests, conns`cancelled, p`expected
      ensures Valid() && (forall r | r in taken :: r in order)
      ensures View() == SwarmRuns.After(old(View()), SwarmRuns.Asked(p, taken))
              && Follows(old(View()), p, taken, u.last)
      ensures p.cancelled == old(p.cancelled)
      ensures Passed(u, order, p, old(requestState), requestState, old(p.requests), p.requests, |p.cancelled|)
      ensures Eager(u, order, p, old(requestState), p.requests, |p.cancelled|)
    {
      hide Inv, InvExcept, BlocksOf, PeersView, Books, Layout.ValidIndex, Layout.PieceOf, Updated, Passed, Follows,
        SwarmRuns.After, Eager;
      ghost var s0 := View();
      UpdatedNothing(u, order, p, s0, requestState, p.requests, |p.cancelled|);
      taken := [];
      var k := 0;
      var stop := false;
      while k < |order| && !stop
        invariant 0 <= k <= |order| && Valid() && p.cancelled == old(p.cancelled) && old(p.requests) <= p.requests
        invariant Updated(u, order, k, p, s0, View(), old(requestState), requestState, old(p.requests), p.requests,
                          |p.cancelled|, taken, stop)
      {
        assert order[k] in order;
        stop, taken := Pass(p, order, k, u, s0, old(requestState), old(p.requests), taken);
        k := k + 1;
      }
      UpdatedEnd(u, order, k, p, s0, View(), old(requestState), requestState, old(p.requests), p.requests,
                 |p.cancelled|, taken, stop);
    }

    /** A pass of the loop in an update that began in s0. */
    method Pass(p: Peer, order: seq<nat>, k: nat, u: Update, ghost s0: State, ghost before: map<nat, Peer>,
                ghost own0: set<nat>, ghost taken: seq<nat>)
      returns (stop: bool, ghost taken': seq<nat>)
      requires Valid() && p in conns && !p.closed && !dataDownloadDisallowed && conns <= u.last.Keys
      requires k < |order| && Askable(p, order[k]) && Inv(s0) && s0.blocks == blocks
      requires Updated(u, order, k, p, s0, View(), before, requestState, own0, p.requests, |p.cancelled|, taken, false)
      modifies this`requestState, this`hedgedRequests, this`hedges, conns`requests, conns`cancelled, p`expected
      ensures Valid() && p.cancelled == old(p.cancelled) && old(p.requests) <= p.requests
      ensures Updated(u, order, k + 1, p, s0, View(), before, requestState, own0, p.requests, |p.cancelled|, taken',
                      stop)
    {
      hide Inv, InvExcept, BlocksOf, PeersView, Books, UrgentRequestCap, Layout.ValidIndex, Layout.PieceOf, MayTake,
        Acquire, AsksIn, SwarmRuns.AskEnabled, MayHave, Updated;
      ghost var s, holders, own, r := View(), requestState, p.requests, order[k];
      if r in requestState {
        HolderKnown(r);
      }
      ghost var theirs := HolderQueue(r);
      var took;
      stop, took := TryBlock(p, order[k], u);
      StealRule(u, p, r, holders, |own|, theirs);
      taken' := if took then taken + [r] else taken;
      UpdatedOn(u, order, k, p, s0, s, before, holders, own0, own, |p.cancelled|, taken, View(), stop, took);
    }

    lemma HolderKnown(r: nat)
      requires Valid() && r in requestState
      ensures requestState[r] in conns
    {
      assert NetView().holder[r] in NetView().peers;
    }

    // ---- torrent.go: hedging and disallowing ----

    /** fireHedge once it has picked a peer: the block is marked and the peer may send it, but it does
        not become the holder. */
    method FireHedge(c: Peer, r: nat)
      requires Valid() && c in conns && r in requestState && r !in hedgedRequests
      modifies this`hedgedRequests, this`hedges, c`expected
      ensures Valid()
      ensures c in old(PeersView()) && View() == old(View()).(net := Hedge(old(NetView()), c, r))
      ensures hedgedRequests == old(hedgedRequests) + {r}
    {
      hide Inv, InvExcept, Books, BlocksOf, PeersView;
      ConnFacts(c);
      HedgeValid(View(), c, r);
      hedgedRequests := hedgedRequests + {r};
      hedges := hedges[r := (if r in hedges then hedges[r] else 0) + 1];
      c.IncExpectedChunkReceive(r);
      OneConnChanged(c);
    }

    /** disallowDataDownloadLocked: every connection cancels what it was asked for. */
    method DisallowDataDownload()
      requires Valid()
      modifies this`dataDownloadDisallowed, this`requestState, this`hedgedRequests, conns`requests, conns`cancelled
      ensures Valid() && requestState == map[] && View() == Disallow(old(View()))
    {
      hide Inv, InvExcept, Books, BlocksOf, PeersView, CancelSet;
      ValidNet();
      ValidConns();
      DisallowKeeps(View());
      CancelNone(NetView());
      CancelEverything(NetView());
      var left := conns;
      ghost var done: set<nat> := {};
      while left != {}
        invariant left <= conns && Books(NetView()) && NetView() == CancelSet(old(NetView()), done)
        invariant done <= old(requestState).Keys
        invariant forall r | r in old(requestState) && r !in done :: old(requestState)[r] in left
      {
        var p :| p in left;
        HeldByOthers(old(NetView()), done, p);
        CancelTwice(old(NetView()), done, p.requests);
        CancelSetBooks(NetView(), p.requests);
        assert PeersView()[p] == p.View() by { PeerInView(p); }
        done := done + p.requests;
        CancelAllRequests(p);
        left := left - {p};
      }
      assert done == old(requestState).Keys;
      dataDownloadDisallowed := true;
    }

    method AllowDataDownload()
      requires Valid()
      modifies this`dataDownloadDisallowed
      ensures Valid() && View() == old(View()).(disallowed := false)
    {
      dataDownloadDisallowed := false;
    }

    lemma PeerInView(p: Peer)
      requires p in conns
      ensures p in PeersView() && PeersView()[p] == p.View()
    {
    }

    // ---- torrent.go: wanted pieces ----

    function UncachedPriorityOf(i: nat): nat
      reads this
      requires i < |pieces|
    {
      UncachedPriority(Want(pieces, completedPieces, piecesQueuedForHash, pendingPieces, readers, readerNowPieces,
                            readerReadaheadPieces, files), i)
    }

    method UpdatePiecePriority(i: nat)
      requires Laid() && i < |pieces| && Books(NetView())
      modifies this`pendingPieces, this`requestState, this`hedgedRequests, conns`requests, conns`cancelled
      ensures View() == UpdatePriority(old(View()), i)
      ensures Books(NetView())
    {
      hide Books, CancelSet, BlocksOf, UncachedPriority;
      CancelSetBooks(NetView(), BlockSet(blocks, i));
      if UncachedPriorityOf(i) == PRIORITY_NONE {
        if i in pendingPieces {
          pendingPieces := pendingPieces - {i};
          CancelRequestsForPiece(i);
        }
      } else {
        pendingPieces := pendingPieces + {i};
      }
    }

    method UpdatePiecePriorities(begin: nat, end: nat)
      requires Laid() && end <= |pieces| && Books(NetView())
      modifies this`pendingPieces, this`requestState, this`hedgedRequests, conns`requests, conns`cancelled
      ensures View() == UpdatePriorities(old(View()), begin, end)
      ensures Books(NetView())
    {
      hide Books, CancelSet, BlocksOf, UpdatePriority;
      var i := begin;
      while i < end
        invariant begin <= i && (begin <= end ==> i <= end)
        invariant View() == if begin <= end then UpdatePriorities(old(View()), begin, i) else old(View())
        invariant Books(NetView())
      {
        UpdatePiecePriority(i);
        i := i + 1;
      }
    }

    lemma ValidNet()
      requires Valid()
      ensures Books(NetView()) && dirtyChunks <= blocks.Keys
    {
    }

    lemma ValidConns()
      requires Valid()
      ensures PeersView().Keys == conns
      ensures forall r | r in requestState :: requestState[r] in conns
    {
      assert forall r | r in requestState :: NetView().holder[r] in NetView().peers;
    }

    lemma ValidShape()
      requires Valid()
      ensures forall id | id in readers :: readers[id].end <= |pieces|
      ensures forall f | f in files :: f.end <= |pieces|
    {
      assert Shape(WantView());
    }

    method QueuePieceCheck(i: nat)
      requires Valid() && i < |pieces|
      modifies this`piecesQueuedForHash, this`pendingPieces, this`requestState, this`hedgedRequests
      modifies conns`requests, conns`cancelled
      ensures Valid() && View() == QueueCheck(old(View()), i)
    {
      hide Inv, Books, BlocksOf, PeersView, UpdatePriority;
      ValidNet();
      QueueCheckKeeps(View(), i);
      if i in piecesQueuedForHash {
        return;
      }
      piecesQueuedForHash := piecesQueuedForHash + {i};
      UpdatePiecePriority(i);
    }

    method StartPieceHash(i: nat)
      requires Valid() && i < |pieces|
      modifies this`piecesQueuedForHash, this`pieces, this`pendingPieces, this`requestState, this`hedgedRequests
      modifies conns`requests, conns`cancelled
      ensures Valid() && View() == StartHash(old(View()), i)
    {
      hide Inv, Books, BlocksOf, PeersView, UpdatePriority;
      ValidNet();
      StartHashKeeps(View(), i);
      piecesQueuedForHash := piecesQueuedForHash - {i};
      pieces := pieces[i := pieces[i].(hashing := true)];
      UpdatePiecePriority(i);
    }

    /** pendAllChunkSpecs removes a whole regular piece of indexes. */
    method PendAllChunkSpecs(i: nat)
      requires Laid() && i < |pieces| && dirtyChunks <= blocks.Keys
      modifies this`dirtyChunks
      ensures dirtyChunks == old(dirtyChunks) - BlockSet(blocks, i)
    {
      hide BlocksOf, Layout.Offset, Layout.NumPieces;
      BlockSetSpan(layout, i);
      dirtyChunks := dirtyChunks - Interval(layout.Offset(i), layout.Offset(i + 1));
    }

    function PieceAllDirty(i: nat): (all: bool)
      reads this
      requires Laid() && i < |pieces| && dirtyChunks <= blocks.Keys
      ensures all == (BlockSet(blocks, i) <= dirtyChunks)
    {
      DirtyCount(layout, i, dirtyChunks);
      |dirtyChunks * Interval(layout.Offset(i), layout.Offset(i + 1))| == layout.NumChunks(i)
    }

    method OnIncompletePiece(i: nat)
      requires Laid() && i < |pieces| && dirtyChunks <= blocks.Keys
      modifies this`dirtyChunks
      ensures dirtyChunks <= blocks.Keys
      ensures dirtyChunks == Incomplete(old(View()), i).net.dirty
    {
      if PieceAllDirty(i) {
        PendAllChunkSpecs(i);
      }
    }

    /** updatePieceCompletion, with what storage answers. */
    method UpdatePieceCompletion(i: nat, uncached: Completion)
      requires Valid() && i < |pieces|
      modifies this`pieces, this`completedPieces, this`dirtyChunks
      modifies this`pendingPieces, this`requestState, this`hedgedRequests, conns`requests, conns`cancelled
      ensures Valid() && View() == UpdateCompletion(old(View()), i, uncached)
    {
      hide Inv, Books, BlocksOf, PeersView, UpdatePriority, CancelSet;
      ValidNet();
      UpdateCompletionKeeps(View(), i, uncached);
      var cached := Completion(i in completedPieces, pieces[i].completionOk);
      pieces := pieces[i := pieces[i].(completionOk := uncached.ok)];
      if uncached.complete {
        completedPieces := completedPieces + {i};
      } else {
        completedPieces := completedPieces - {i};
      }
      if cached != uncached {
        CompletionChanged(i, uncached.complete);
      }
    }

    /** pieceCompletionChanged. */
    method CompletionChanged(i: nat, complete: bool)
      requires Laid() && i < |pieces| && Books(NetView()) && dirtyChunks <= blocks.Keys
      modifies this`dirtyChunks
      modifies this`pendingPieces, this`requestState, this`hedgedRequests, conns`requests, conns`cancelled
      ensures View() == UpdatePriority(if complete then CancelPiece(PendAll(old(View()), i), i)
                                       else Incomplete(old(View()), i), i)
    {
      hide Books, BlocksOf, PeersView, UpdatePriority, CancelSet;
      ghost var n := NetView();
      if complete {
        CancelFrame(n, {}, n.dirty - BlockSet(blocks, i), n.writing);
        PendAllChunkSpecs(i);
        CancelSetBooks(NetView(), BlockSet(blocks, i));
        CancelRequestsForPiece(i);
      } else {
        CancelFrame(n, {}, Incomplete(View(), i).net.dirty, n.writing);
        OnIncompletePiece(i);
      }
      UpdatePiecePriority(i);
    }

    /** finishHash and pieceHashed up to where the lock is released to mark the piece. */
    method FinishHash(i: nat)
      requires Valid() && i < |pieces| && pieces[i].hashing
      modifies this`pieces
      ensures Valid() && View() == EndHash(old(View()), i)
    {
      hide Inv, BlocksOf, PeersView;
      EndHashKeeps(View(), i);
      pieces := pieces[i := pieces[i].(hashing := false, marking := true)];
    }

    /** The chunks of a piece whose hash has been judged count as unwritten again, all of them after a pass and
        if all were written after a failure. */
    method ClearDirty(i: nat, passed: bool)
      requires Valid() && i < |pieces|
      modifies this`dirtyChunks
      ensures Valid() && View() == if passed then PendAll(old(View()), i) else Incomplete(old(View()), i)
    {
      hide Inv, InvExcept, Books, BlocksOf, PeersView;
      ValidNet();
      DirtyKeeps(View(), i);
      if passed {
        PendAllChunkSpecs(i);
      } else {
        OnIncompletePiece(i);
      }
    }

    /** The rest of pieceHashed and finishHash, with what storage then answers. */
    method PieceMarked(i: nat, passed: bool, uncached: Completion)
      requires Valid() && i < |pieces|
      modifies this`pieces, this`completedPieces, this`dirtyChunks
      modifies this`pendingPieces, this`requestState, this`hedgedRequests, conns`requests, conns`cancelled
      ensures Valid() && View() == Marked(old(View()), i, passed, uncached)
    {
      hide Inv, InvExcept, Books, BlocksOf, PeersView, UpdatePriority, UpdateCompletion, PendAll, Incomplete;
      MarkedKeeps(View(), i, passed, uncached);
      ClearDirty(i, passed);
      UpdatePieceCompletion(i, uncached);
      ValidNet();
      pieces := pieces[i := pieces[i].(marking := false)];
      UpdatePiecePriority(i);
    }

    /** The rest of receiveChunk, with the lock back: the block of connection c was written or not.
        The last writer of a piece whose chunks are all here queues its check. */
    method FinishChunk(c: Peer, r: nat, ok: bool)
      requires Valid() && c in writing && writing[c] == r
      modifies this`writing, this`pieces, this`dirtyChunks
      modifies this`piecesQueuedForHash, this`pendingPieces, this`requestState, this`hedgedRequests
      modifies conns`requests, conns`cancelled
      ensures Valid()
      ensures Writing(old(View()), c) && View() == ChunkWritten(old(View()), c, ok)
    {
      hide Inv, InvExcept, Books, BlocksOf, PeersView, QueueCheck;
      WriterCounted(View(), c);
      BlocksOfLayout(layout, r);
      UnwriteKeeps(View(), c);
      ChunkWrittenKeeps(View(), c, ok);
      var i := layout.PieceOf(r);
      if pieces[i].pendingWrites == 0 {
        assert false;  // decrementPendingWrites: "assertion"
      }
      pieces := pieces[i := pieces[i].(pendingWrites := pieces[i].pendingWrites - 1)];
      writing := writing - {c};
      assert View() == Unwrite(old(View()), c);
      ValidNet();
      if !ok {
        dirtyChunks := dirtyChunks - {r};
      } else if PieceAllDirty(i) && pieces[i].pendingWrites == 0 {
        QueuePieceCheck(i);
      }
    }

    // ---- reader.go, file.go, piece.go ----

    method UpdateReaderPieces()
      modifies this`readerNowPieces, this`readerReadaheadPieces
      ensures readerNowPieces == ReaderNow(readers) && readerReadaheadPieces == ReaderReadahead(readers)
    {
      var now: set<nat>, readahead: set<nat> := {}, {};
      var left := readers.Keys;
      while left != {}
        invariant left <= readers.Keys
        invariant now == ReaderNow(readers - left) && readahead == ReaderReadahead(readers - left)
      {
        var id :| id in left;
        var p := readers[id];
        ReaderAdded(readers, left, id);
        if p.begin < p.end {
          now := now + {p.begin};
          readahead := readahead + p.Tail();
        }
        left := left - {id};
      }
      assert readers - {} == readers;
      readerNowPieces, readerReadaheadPieces := now, readahead;
    }

    /** posChanged and readerPosChanged: only the pieces of the two ranges are looked at again. */
    method ReaderPosChanged(id: nat, to: Range)
      requires Valid() && id in readers && to.end <= |pieces|
      modifies this`readers, this`readerNowPieces, this`readerReadaheadPieces
      modifies this`pendingPieces, this`requestState, this`hedgedRequests, conns`requests, conns`cancelled
      ensures Valid()
      ensures old(readers)[id].end <= |pieces| && View() == MoveReader(old(View()), id, to)
    {
      hide Inv, Books, BlocksOf, PeersView, UpdatePriorities, ReaderNow, ReaderReadahead;
      ValidNet();
      ValidShape();
      MoveReaderKeeps(View(), id, to);
      var from := readers[id];
      if from == to {
        return;
      }
      readers := readers[id := to];
      UpdateReaderPieces();
      if from.begin > to.begin {
        UpdateTwoRanges(to, from);
      } else {
        UpdateTwoRanges(from, to);
      }
    }

    /** reader.posChanged: the reader's range follows its position and readahead, and every piece that holds a byte it
        wants is pending or on its way. */
    method PosChanged(id: nat, r: Reader)
      requires Valid() && id in readers
      modifies this`readers, this`readerNowPieces, this`readerReadaheadPieces
      modifies this`pendingPieces, this`requestState, this`hedgedRequests, conns`requests, conns`cancelled
      ensures Valid()
      ensures old(readers)[id].end <= |pieces| && PiecesUncached(layout, r).end <= |pieces|
      ensures View() == MoveReader(old(View()), id, PiecesUncached(layout, r))
      ensures forall i, b: nat | 0 <= i < |pieces| && ByteIn(layout, b, i) && Ahead(r, b) ::
                i in pendingPieces || Settled(WantView(), i)
    {
      hide Inv, MoveReader, PiecesUncached, ByteIn, Ahead;
      ReaderRuns.RangeInside(layout, r);
      ReaderRuns.MovedReaders(View(), id, PiecesUncached(layout, r));
      ReaderPosChanged(id, PiecesUncached(layout, r));
      forall i, b: nat | 0 <= i < |pieces| && ByteIn(layout, b, i) && Ahead(r, b)
        ensures i in pendingPieces || Settled(WantView(), i)
      {
        PiecesUncachedExact(layout, r, i);
        ReaderPending(View(), id, i);
      }
    }

    /** Update the pieces of two ranges, the lower one first, in one go if they touch. */
    method UpdateTwoRanges(l: Range, h: Range)
      requires Laid() && l.end <= |pieces| && h.end <= |pieces| && Books(NetView())
      modifies this`pendingPieces, this`requestState, this`hedgedRequests, conns`requests, conns`cancelled
      ensures View() == if l.end < h.begin then
                          UpdatePriorities(UpdatePriorities(old(View()), l.begin, l.end), h.begin, h.end)
                        else UpdatePriorities(old(View()), l.begin, if h.end > l.end then h.end else l.end)
    {
      hide Books, BlocksOf, PeersView, UpdatePriorities;
      if l.end < h.begin {
        UpdatePiecePriorities(l.begin, l.end);
        UpdatePiecePriorities(h.begin, h.end);
      } else {
        var end := l.end;
        if h.end > end {
          end := h.end;
        }
        UpdatePiecePriorities(l.begin, end);
      }
    }

    /** addReader: a reader that does not read yet wants nothing. */
    method AddReader(id: nat)
      requires Valid() && id !in readers
      modifies this`readers, this`readerNowPieces, this`readerReadaheadPieces
      ensures Valid() && View() == SetReaders(old(View()), old(readers)[id := Range(0, 0)])
    {
      hide Inv, BlocksOf, PeersView;
      SwarmRuns.OpenReaderKeeps(View(), id);
      readers := readers[id := Range(0, 0)];
      UpdateReaderPieces();
    }

    method DeleteReader(id: nat)
      requires Valid()
      modifies this`readers, this`readerNowPieces, this`readerReadaheadPieces
      modifies this`pendingPieces, this`requestState, this`hedgedRequests, conns`requests, conns`cancelled
      ensures Valid() && View() == CloseReader(old(View()), id)
    {
      hide Inv, Books, BlocksOf, PeersView, UpdatePriorities, ReaderNow, ReaderReadahead;
      ValidNet();
      ValidShape();
      CloseReaderKeeps(View(), id);
      readers := readers - {id};
      UpdateReaderPieces();
      UpdatePiecePriorities(0, |pieces|);
    }

    method SetPiecePriority(i: nat, priority: nat)
      requires Valid() && i < |pieces|
      modifies this`pieces, this`pendingPieces, this`requestState, this`hedgedRequests, conns`requests, conns`cancelled
      ensures Valid() && View() == SetPriority(old(View()), i, priority)
    {
      hide Inv, Books, BlocksOf, PeersView, UpdatePriority;
      ValidNet();
      SetPriorityKeeps(View(), i, priority);
      pieces := pieces[i := pieces[i].(priority := priority)];
      UpdatePiecePriority(i);
    }

    method SetFileWanted(f: nat, priority: nat)
      requires Valid() && f < |files|
      modifies this`files, this`pendingPieces, this`requestState, this`hedgedRequests, conns`requests, conns`cancelled
      ensures Valid()
      ensures old(files)[f].end <= |pieces| && View() == SetFilePriority(old(View()), f, priority)
    {
      hide Inv, Books, BlocksOf, PeersView, UpdatePriorities;
      ValidNet();
      ValidShape();
      assert files[f] in files;
      SetFilePriorityKeeps(View(), f, priority);
      var file := files[f];
      if priority != file.priority {
        files := files[f := file.(priority := priority)];
        UpdatePiecePriorities(file.begin, file.end);
      }
    }
  }

  lemma BlocksInPieces(l: Layout)
    requires l.Valid()
    ensures forall r | r in BlocksOf(l) :: BlocksOf(l)[r] < l.NumPieces()
  {
    forall r | r in BlocksOf(l)
      ensures BlocksOf(l)[r] < l.NumPieces()
    {
      BlocksOfLayout(l, r);
    }
  }

  lemma DirtyKeeps(s: State, i: nat)
    requires Inv(s)
    ensures Inv(PendAll(s, i)) && Inv(Incomplete(s, i))
  {
    PendAllKeeps(s, i, {});
  }

  lemma ReaderAdded(readers: map<nat, Range>, left: set<nat>, id: nat)
    requires left <= readers.Keys && id in left
    ensures var p := readers[id];
            ReaderNow(readers - (left - {id})) == ReaderNow(readers - left) + if p.begin < p.end then {p.begin} else {}
    ensures var p := readers[id];
            ReaderReadahead(readers - (left - {id}))
            == ReaderReadahead(readers - left) + if p.begin < p.end then p.Tail() else {}
  {
    var before, after := readers - left, readers - (left - {id});
    assert after == before[id := readers[id]];
    ReaderSetsGrow(before, id, readers[id]);
  }

  lemma ReaderSetsGrow(readers: map<nat, Range>, id: nat, p: Range)
    requires id !in readers
    ensures ReaderNow(readers[id := p]) == ReaderNow(readers) + if p.begin < p.end then {p.begin} else {}
    ensures ReaderReadahead(readers[id := p]) == ReaderReadahead(readers) + if p.begin < p.end then p.Tail() else {}
  {
    var readers' := readers[id := p];
    forall i: nat
      ensures i in ReaderNow(readers') <==> i in ReaderNow(readers) || (i == p.begin && p.begin < p.end)
      ensures i in ReaderReadahead(readers') <==> i in ReaderReadahead(readers) || i in p.Tail()
    {
      if i in ReaderNow(readers) {
        var x :| x in readers && readers[x].begin < readers[x].end && readers[x].begin == i;
        assert x in readers' && readers'[x] == readers[x];
      }
      if i in ReaderReadahead(readers) {
        var x :| x in readers && i in readers[x].Tail();
        assert x in readers' && readers'[x] == readers[x];
      }
      assert id in readers' && readers'[id] == p;
    }
  }

  /** Counting the dirty chunks of a piece tells whether they are all dirty. */
  lemma DirtyCount(l: Layout, i: nat, dirty: set<nat>)
    requires l.Valid() && i < l.NumPieces() && dirty <= BlocksOf(l).Keys
    ensures |dirty * Interval(l.Offset(i), l.Offset(i + 1))| == l.NumChunks(i) <==> BlockSet(BlocksOf(l), i) <= dirty
  {
    hide BlocksOf, Layout.Offset, Layout.NumPieces, Layout.NumChunks;
    BlockSetSpan(l, i);
    BlockSetInterval(l, i);
    var block := BlockSet(BlocksOf(l), i);
    var here := dirty * Interval(l.Offset(i), l.Offset(i + 1));
    assert here == dirty * block;
    if block <= dirty {
      assert here == block;
    }
    if |here| == |block| {
      SubsetSize(here, block);
    }
  }

  /** Cancelling a block somebody else holds leaves p alone. */
  lemma CancelledFacts(s: State, p: Peer, r: nat)
    requires Inv(s) && p in s.net.peers && r in s.net.holder && s.net.holder[r] != p
    ensures var n := CancelSet(s.net, {r});
            && Inv(s.(net := n)) && n.peers[p] == s.net.peers[p]
            && n.holder == s.net.holder - {r} && n.dirty == s.net.dirty && n.writing == s.net.writing
  {
    CancelSpares(s.net, p, r);
    CancelSetKeeps(s.blocks, s.net, s.want.pending, {r}, s.want.pending);
    assert CancelSet(s.net, {r}).holder.Keys <= s.net.holder.Keys;
    hide CancelSet, NetInv;
    NetChangeKeeps(s, CancelSet(s.net, {r}));
  }

  lemma CancelSpares(n: Net, p: Peer, r: nat)
    requires Owned(n) && p in n.peers && r in n.holder && n.holder[r] != p
    ensures var n' := CancelSet(n, {r});
            p in n'.peers && n'.peers[p] == n.peers[p] && n'.holder == n.holder - {r}
            && n'.dirty == n.dirty && n'.writing == n.writing
  {
    assert n.peers[p].requests * {r} == {};
    assert n.peers[p].requests - {r} == n.peers[p].requests;
  }

  lemma ReaderPending(s: State, id: nat, i: nat)
    requires Inv(s) && id in s.want.readers && s.want.readers[id].Has(i) && i < |s.want.pieces|
    ensures i in s.want.pending || Settled(s.want, i)
  {
    assert ReaderWants(s.want, i);
    WantedIff(s.want, i);
  }

  lemma HedgeValid(s: State, c: Peer, r: nat)
    requires Inv(s) && c in s.net.peers && r in s.net.holder && r !in s.net.hedged
    ensures Inv(s.(net := Hedge(s.net, c, r)))
  {
    HedgeKeeps(s.blocks, s.net, s.want.pending, c, r);
    NetChangeKeeps(s, Hedge(s.net, c, r));
  }

  lemma CancelEverything(n: Net)
    ensures CancelSet(n, n.holder.Keys).holder == map[]
  {
  }

  /** After some blocks are cancelled, p still holds exactly its other ones. */
  lemma HeldByOthers(n: Net, done: set<nat>, p: Peer)
    requires Books(n) && p in n.peers
    ensures var n' := CancelSet(n, done);
            && p in n'.peers && n'.peers[p].requests <= n.holder.Keys
            && forall r | r in n.holder && r !in done :: n.holder[r] == p <==> r in n'.peers[p].requests
  {
  }

  lemma IssueValid(s: State, p: Peer, r: nat)
    requires Inv(s) && !s.disallowed && Offered(s.blocks, s.net, s.want.pending, p, r)
    requires r !in s.net.peers[p].requests && (r in s.net.holder ==> s.net.holder[r] == p)
    ensures Inv(s.(net := Issue(s.net, p, r)))
  {
    assert r !in s.net.holder;
    IssueKeeps(s.blocks, s.net, s.want.pending, p, r);
    NetChangeKeeps(s, Issue(s.net, p, r));
  }

  /** The books and the pieces are all that an expected chunk changes. */
  lemma ExpectedView(s: State, s': State, c: Peer, r: nat)
    requires Expected(s, c, r)
    requires s' == s.(net := s'.net, want := s.want.(pieces := s'.want.pieces))
    requires HaveChunk(s, r) ==> s'.net == Settle(s.net, c, r) && s'.want.pieces == s.want.pieces
    requires !HaveChunk(s, r) ==>
               s'.net == Accept(Settle(s.net, c, r), c, r) && s'.want.pieces == AcceptChunk(s, c, r).want.pieces
    ensures s' == ReceiveExpected(s, c, r) == ReceiveChunk(s, c, r)
  {
    hide Settle, Accept, HaveChunk;
  }

  lemma SettledFacts(s: State, c: Peer, r: nat)
    requires Inv(s) && c in s.net.peers && s.net.peers[c].Expects(r) >= 1
    ensures Books(Settle(s.net, c, r))
    ensures r in Settle(s.net, c, r).holder ==> Settle(s.net, c, r).holder[r] != c
    ensures Settle(s.net, c, r).dirty == s.net.dirty && Settle(s.net, c, r).writing == s.net.writing
  {
    SettleNetKeeps(s.blocks, s.net, s.want.pending, c, r);
  }

  lemma CancelFrame(n: Net, rs: set<nat>, dirty: set<nat>, writing: map<Peer, nat>)
    ensures CancelSet(n.(dirty := dirty), rs).(writing := writing)
            == CancelSet(n, rs).(dirty := dirty, writing := writing)
    ensures Books(n) ==> Books(n.(dirty := dirty))
  {
  }

  lemma CancelNone(n: Net)
    ensures CancelSet(n, {}) == n
  {
    forall p | p in n.peers
      ensures n.peers[p].Cancel({}) == n.peers[p]
    {
      assert n.peers[p].requests - {} == n.peers[p].requests;
    }
    assert CancelSet(n, {}).peers == n.peers;
  }

  lemma BooksOf(n: Net, p: Peer)
    requires Books(n) && p in n.peers
    ensures Owned(n) && n.peers[p].Valid()
  {
  }
}
