/** What the client takes a peer to have: its last message about a piece decides. */
module PeerPieces {
  import opened Wrappers
  import opened Availability

  predicate Knows(st: State, p: Id, i: nat) {
    p in st.peers && PeerHas(st.n, st.peers[p], i)
  }

  /** Piece i may exist. */
  predicate InRange(n: Option<nat>, i: nat) {
    n.Some? ==> i < n.value
  }

  /** What an event says about piece i of peer p. */
  function Says(e: Event, p: Id, i: nat): Option<bool> {
    match e
    case Have(q, j) => if q == p && j == i then Some(true) else None
    case Bitfield(q, bits) => if q == p then Some(i in bits) else None
    case HaveAll(q) => if q == p then Some(true) else None
    case HaveNone(q) => if q == p then Some(false) else None
    case _ => None
  }

  /** The event takes peer p away: its connection closes, or the info shows that neither side needs the other. */
  predicate Removes(st: State, e: Event, p: Id)
    requires p in st.peers
  {
    match e
    case Close(q) => q == p
    case SetInfo(n, drops) => st.n.None? && p in drops && KnownToHaveAll(Some(n), st.peers[p])
    case _ => false
  }

  lemma {:induction false} DropAllPeers(st: State, drops: seq<Id>, p: Id)
    ensures var st' := DropAll(st, drops);
            && st'.n == st.n
            && (p in st'.peers <==> p in st.peers && !(p in drops && KnownToHaveAll(st.n, st.peers[p])))
            && (p in st'.peers ==> st'.peers[p] == st.peers[p])
    decreases drops
  {
    if drops != [] {
      DropAllPeers(DropOne(st, drops[0]), drops[1..], p);
      assert p in drops <==> p == drops[0] || p in drops[1..];
    }
  }

  /** Once the info is known a peer has the pieces of its bitmap, or all. */
  lemma KnowsBits(st: State, p: Id, i: nat)
    requires Loose(st) && p in st.peers && InRange(st.n, i)
    ensures Knows(st, p, i) <==> st.peers[p].all || i in st.peers[p].pieces
  {
    var b := st.peers[p];
    assert BitsOk(st.n, b);
    if st.n.Some? && |b.pieces| == st.n.value {
      FullBitmap(st.n.value, b.pieces, i);
    }
  }

  lemma FullTrim(bits: set<nat>, n: nat, i: nat)
    requires |Trim(bits, Some(n))| == n && i < n
    ensures i in bits
  {
    FullBitmap(n, Trim(bits, Some(n)), i);
  }

  /** A peer is there after an event iff it has just connected, or it was there and has not been taken away. */
  lemma PresentLaw(st: State, e: Event, p: Id)
    ensures p in Step(st, e).peers <==> e == Connect(p) || (p in st.peers && !Removes(st, e, p))
    ensures p !in st.peers && e == Connect(p) ==> Step(st, e).peers[p] == Bits(false, {})
  {
    if e.SetInfo? && st.n.None? {
      DropAllPeers(Counting(st, e.numPieces), e.drops, p);
      hide DropAll;
    }
  }

  /** What the client takes a peer to have after an event: what the event says, or what it took it to have before. */
  lemma KnownLaw(st: State, e: Event, p: Id, i: nat)
    requires Loose(st) && p in st.peers && p in Step(st, e).peers && InRange(Step(st, e).n, i)
    ensures InRange(st.n, i)
    ensures Knows(Step(st, e), p, i) <==> if Says(e, p, i).Some? then Says(e, p, i).value else Knows(st, p, i)
  {
    LooseStep(st, e);
    KnowsBits(st, p, i);
    KnowsBits(Step(st, e), p, i);
    hide Knows, Loose;
    if e.SetInfo? && st.n.None? {
      DropAllPeers(Counting(st, e.numPieces), e.drops, p);
      hide DropAll;
    } else if e.Bitfield? && e.id == p && FullBits(st, e.bits) {
      FullTrim(e.bits, st.n.value, i);
    }
  }

  /** What the run says last about piece i of peer p, since the peer connected. */
  function LastSaid(events: seq<Event>, p: Id, i: nat): bool {
    events != [] &&
    var before, e := events[..|events| - 1], events[|events| - 1];
    if p !in Run(before).peers then false
    else if Says(e, p, i).Some? then Says(e, p, i).value
    else LastSaid(before, p, i)
  }

  /** In every run, whatever the peers send, an open peer is taken to have a piece iff the last of its messages that
      says anything about the piece says so. */
  lemma {:induction false} KnownIff(events: seq<Event>, p: Id, i: nat)
    requires p in Run(events).peers && InRange(Run(events).n, i)
    ensures Knows(Run(events), p, i) <==> LastSaid(events, p, i)
  {
    if events != [] {
      var before, e := events[..|events| - 1], events[|events| - 1];
      var st := Run(before);
      RunLoose(before);
      PresentLaw(st, e, p);
      if p in st.peers {
        KnownLaw(st, e, p, i);
        KnownIff(before, p, i);
      } else {
        LooseStep(st, e);
        KnowsBits(Step(st, e), p, i);
      }
    }
  }
}
