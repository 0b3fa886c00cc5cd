/** Piece availability: how many peers hold each piece, kept relative to the peers that hold everything. */
module Availability {
  import opened Wrappers
  import opened Collections
  import opened Layouts

  type Id = nat

  /** A connection's view of its peer: whether it sent Have All, and its piece bitmap. */
  datatype Bits = Bits(all: bool, pieces: set<nat>)

  /** `n` is the number of pieces once the info is known, `peers` the open connections, `seeds` is
      connsWithAllPieces and rel[i] is the relativeAvailability of piece i. */
  datatype State = State(n: Option<nat>, peers: map<Id, Bits>, seeds: set<Id>, rel: seq<int>)

  datatype Event =
    | Connect(id: Id)
    | Have(id: Id, piece: nat)
    | Bitfield(id: Id, bits: set<nat>)
    | HaveAll(id: Id)
    | HaveNone(id: Id)
    | Close(id: Id)
    | SetInfo(numPieces: nat, drops: seq<Id>)

  predicate PeerHas(n: Option<nat>, b: Bits, i: nat) {
    b.all || (n.Some? && |b.pieces| == n.value) || i in b.pieces
  }

  /** The peers that count towards piece i: those outside `seeds` whose bitmap holds it. */
  function Holders(peers: map<Id, Bits>, seeds: set<Id>, i: nat): set<Id> {
    set p | p in peers && p !in seeds && i in peers[p].pieces
  }

  function Shift(rel: seq<int>, s: set<nat>, delta: int): (r: seq<int>)
    ensures |r| == |rel|
  {
    seq(|rel|, i requires 0 <= i < |rel| => if i in s then rel[i] + delta else rel[i])
  }

  function Trim(s: set<nat>, n: Option<nat>): set<nat> {
    if n.None? then s else set i | i in s && i < n.value
  }

  // ---- the handlers ----

  /** decPeerPieceAvailability. */
  function DecPeer(st: State, p: Id): State
    requires p in st.peers
  {
    if p in st.seeds then st.(seeds := st.seeds - {p})
    else if st.n.None? then st
    else st.(rel := Shift(st.rel, st.peers[p].pieces, -1))
  }

  function SentHave(st: State, p: Id, i: nat): State
    requires p in st.peers
  {
    var b := st.peers[p];
    if (st.n.Some? && i >= st.n.value) || PeerHas(st.n, b, i) then st
    else st.(peers := st.peers[p := b.(pieces := b.pieces + {i})], rel := Shift(st.rel, {i}, 1))
  }

  function HasAll(st: State, p: Id): State
    requires p in st.peers
  {
    st.(peers := st.peers[p := Bits(true, {})], seeds := st.seeds + {p},
        rel := if st.n.Some? then Shift(st.rel, st.peers[p].pieces, -1) else st.rel)
  }

  function SentBitfield(st: State, p: Id, bits: set<nat>): State
    requires p in st.peers
  {
    var bm, b := Trim(bits, st.n), st.peers[p];
    if st.n.Some? && |bm| == st.n.value then HasAll(st, p)
    else st.(peers := st.peers[p := Bits(false, bm)],
             seeds := if b.all then st.seeds - {p} else st.seeds,
             rel := Shift(Shift(st.rel, b.pieces - bm, -1), bm - b.pieces, 1))
  }

  function SentHaveNone(st: State, p: Id): State
    requires p in st.peers
  {
    var st1 := if st.peers[p].all then st else DecPeer(st, p);
    st1.(peers := st1.peers[p := Bits(false, {})])
  }

  function Closed(st: State, p: Id): State
    requires p in st.peers
  {
    var st1 := DecPeer(st, p);
    st1.(peers := st1.peers - {p})
  }

  function Counted(st: State, n: nat, i: nat): set<Id> {
    set p | p in st.peers && p !in st.seeds && PeerHas(Some(n), st.peers[p], i)
  }

  /** The first half of onSetInfo: count with peerHasPiece, over bitmaps not trimmed yet. */
  function Counting(st: State, n: nat): State {
    st.(n := Some(n), rel := seq(n, i requires 0 <= i => |Counted(st, n, i)|))
  }

  predicate KnownToHaveAll(n: Option<nat>, b: Bits) {
    b.all || (n.Some? && |b.pieces| == n.value)
  }

  /** maybeDropMutuallyCompletePeer, when storage turns out to have every piece: a peer that has all goes. */
  function DropOne(st: State, p: Id): State {
    if p in st.peers && KnownToHaveAll(st.n, st.peers[p]) then Closed(st, p) else st
  }

  function DropAll(st: State, drops: seq<Id>): State
    decreases drops
  {
    if drops == [] then st else DropAll(DropOne(st, drops[0]), drops[1..])
  }

  /** The last part: every bitmap is trimmed to the pieces there are. */
  function Trimmed(st: State): State {
    st.(peers := map p | p in st.peers :: st.peers[p].(pieces := Trim(st.peers[p].pieces, st.n)))
  }

  /** onSetInfo; `drops` are the peers the completion of the last piece drops before the bitmaps are trimmed. */
  function GotInfo(st: State, n: nat, drops: seq<Id>): State {
    Trimmed(DropAll(Counting(st, n), drops))
  }

  function Step(st: State, e: Event): State {
    match e
    case Connect(p) => if p in st.peers then st else st.(peers := st.peers[p := Bits(false, {})])
    case Have(p, i) => if p in st.peers then SentHave(st, p, i) else st
    case Bitfield(p, bits) => if p in st.peers then SentBitfield(st, p, bits) else st
    case HaveAll(p) => if p in st.peers then HasAll(st, p) else st
    case HaveNone(p) => if p in st.peers then SentHaveNone(st, p) else st
    case Close(p) => if p in st.peers then Closed(st, p) else st
    case SetInfo(n, drops) => if st.n.None? then GotInfo(st, n, drops) else st
  }

  // ---- what they keep ----

  ghost predicate BitsOk(n: Option<nat>, b: Bits) {
    && (b.all ==> b.pieces == {})
    && (n.Some? ==> forall i | i in b.pieces :: i < n.value)
  }

  ghost predicate Inv(st: State) {
    && (forall p :: p in st.seeds <==> p in st.peers && st.peers[p].all)
    && (forall p | p in st.peers :: BitsOk(st.n, st.peers[p]))
    && (match st.n
        case None => st.rel == []
        case Some(n) => |st.rel| == n && forall i | 0 <= i < n :: st.rel[i] == |Holders(st.peers, st.seeds, i)|)
  }

  /** What every event keeps, whatever the peers send: a Have All peer is among the seeds and has no pieces of its own,
      bitmaps are in range once the info is known, and only open peers are seeds. The seeds may hold more than the Have
      All peers. */
  ghost predicate Loose(st: State) {
    && st.seeds <= st.peers.Keys
    && (forall p | p in st.peers :: BitsOk(st.n, st.peers[p]) && (st.peers[p].all ==> p in st.seeds))
    && |st.rel| == if st.n.Some? then st.n.value else 0
  }

  lemma InvLoose(st: State)
    requires Inv(st)
    ensures Loose(st)
  {
    forall p | p in st.peers
      ensures BitsOk(st.n, st.peers[p]) && (st.peers[p].all ==> p in st.seeds)
    {
    }
  }

  predicate FullBits(st: State, bits: set<nat>) {
    st.n.Some? && |Trim(bits, st.n)| == st.n.value
  }

  /** The pieces whose counts an event of a peer takes down. */
  function Lowers(st: State, e: Event): set<nat> {
    if e.SetInfo? || e.id !in st.peers then {}
    else
      var b := st.peers[e.id];
      match e
      case Bitfield(p, bits) =>
        if FullBits(st, bits) then b.pieces else if b.all then {} else b.pieces - Trim(bits, st.n)
      case HaveAll(p) => b.pieces
      case HaveNone(p) => if b.all || p in st.seeds then {} else b.pieces
      case Close(p) => if p in st.seeds then {} else b.pieces
      case _ => {}
  }

  /** A count of these pieces would be taken below zero, or is not there. */
  ghost predicate Underflows(rel: seq<int>, s: set<nat>) {
    exists i :: i in s && (i >= |rel| || rel[i] <= 0)
  }

  /** The event reaches a panic: a count that would fall below zero, a Have All peer that is missing from the seeds or
      has pieces of its own, or the drop of a peer with a piece there is no count for. */
  ghost predicate Panics(st: State, e: Event) {
    || (st.n.Some? && Underflows(st.rel, Lowers(st, e)))
    || (e.Bitfield? && e.id in st.peers && !FullBits(st, e.bits) && st.peers[e.id].all
        && (e.id !in st.seeds || st.peers[e.id].pieces != {}))
    || (e.SetInfo? && st.n.None? && !Droppable(Counting(st, e.numPieces), e.drops))
  }

  /** Taking peer p out of the counts reaches no panic. */
  ghost predicate Safe(st: State, p: Id)
    requires p in st.peers
  {
    st.n.Some? && p !in st.seeds ==> !Underflows(st.rel, st.peers[p].pieces)
  }

  lemma WithoutOne(a: set<Id>, p: Id)
    ensures |a - {p}| == |a| - if p in a then 1 else 0
  {
    if p in a {
      assert a == (a - {p}) + {p};
    } else {
      assert a == a - {p};
    }
  }

  /** Changing one peer changes each count by whether that peer counts. */
  lemma OnePeer(peers: map<Id, Bits>, seeds: set<Id>, peers': map<Id, Bits>, seeds': set<Id>, p: Id, i: nat)
    requires peers'.Keys - {p} == peers.Keys - {p} && seeds' - {p} == seeds - {p}
    requires forall q | q in peers && q != p :: q in peers' && peers'[q] == peers[q]
    ensures |Holders(peers', seeds', i)| - (if p in Holders(peers', seeds', i) then 1 else 0) ==
            |Holders(peers, seeds, i)| - (if p in Holders(peers, seeds, i) then 1 else 0)
  {
    var a, b := Holders(peers, seeds, i), Holders(peers', seeds', i);
    forall q
      ensures q in a - {p} <==> q in b - {p}
    {
      if q != p {
        assert q in seeds' - {p} <==> q in seeds - {p};
        assert q in peers'.Keys - {p} <==> q in peers.Keys - {p};
      }
    }
    assert a - {p} == b - {p};
    WithoutOne(a, p);
    WithoutOne(b, p);
  }

  function Counts(peers: map<Id, Bits>, seeds: set<Id>, p: Id, i: nat): int {
    if p in Holders(peers, seeds, i) then 1 else 0
  }

  /** A handler that only touches peer p keeps the invariant if it moves each count by p's own change. */
  lemma PeerChanged(st: State, st': State, p: Id)
    requires Inv(st) && st'.n == st.n
    requires st'.peers.Keys - {p} == st.peers.Keys - {p} && st'.seeds - {p} == st.seeds - {p}
    requires forall q | q in st.peers && q != p :: q in st'.peers && st'.peers[q] == st.peers[q]
    requires p in st'.peers ==> BitsOk(st.n, st'.peers[p])
    requires p in st'.seeds <==> p in st'.peers && st'.peers[p].all
    requires |st'.rel| == |st.rel|
    requires forall i | 0 <= i < |st.rel| ::
               st'.rel[i] - Counts(st'.peers, st'.seeds, p, i) == st.rel[i] - Counts(st.peers, st.seeds, p, i)
    ensures Inv(st')
  {
    forall q
      ensures q in st'.seeds <==> q in st'.peers && st'.peers[q].all
      ensures q in st'.peers ==> BitsOk(st.n, st'.peers[q])
    {
      if q != p {
        assert q in st'.seeds - {p} <==> q in st.seeds - {p};
        assert q in st'.peers.Keys - {p} <==> q in st.peers.Keys - {p};
      }
    }
    forall i | 0 <= i < |st.rel|
      ensures st'.rel[i] == |Holders(st'.peers, st'.seeds, i)|
    {
      OnePeer(st.peers, st.seeds, st'.peers, st'.seeds, p, i);
    }
  }

  lemma ConnectKeeps(st: State, p: Id)
    requires Inv(st) && p !in st.peers
    ensures Inv(st.(peers := st.peers[p := Bits(false, {})]))
  {
    PeerChanged(st, st.(peers := st.peers[p := Bits(false, {})]), p);
  }

  lemma HaveKeeps(st: State, p: Id, i: nat)
    requires Inv(st) && p in st.peers
    ensures Inv(SentHave(st, p, i))
  {
    PeerChanged(st, SentHave(st, p, i), p);
  }

  lemma HasAllKeeps(st: State, p: Id)
    requires Inv(st) && p in st.peers
    ensures Inv(HasAll(st, p))
  {
    assert BitsOk(st.n, st.peers[p]);
    PeerChanged(st, HasAll(st, p), p);
  }

  lemma BitfieldKeeps(st: State, p: Id, bits: set<nat>)
    requires Inv(st) && p in st.peers
    ensures Inv(SentBitfield(st, p, bits))
  {
    var bm := Trim(bits, st.n);
    assert BitsOk(st.n, st.peers[p]);
    if st.n.Some? && |bm| == st.n.value {
      HasAllKeeps(st, p);
    } else {
      PeerChanged(st, SentBitfield(st, p, bits), p);
    }
  }

  lemma ClosedKeeps(st: State, p: Id)
    requires Inv(st) && p in st.peers
    ensures Inv(Closed(st, p))
  {
    assert BitsOk(st.n, st.peers[p]);
    PeerChanged(st, Closed(st, p), p);
  }

  /** Have None is reconciled exactly when the peer had not sent Have All. */
  lemma HaveNoneKeeps(st: State, p: Id)
    requires Inv(st) && p in st.peers
    ensures Inv(SentHaveNone(st, p)) <==> !st.peers[p].all
  {
    if st.peers[p].all {
      var st' := SentHaveNone(st, p);
      assert p in st'.seeds && !st'.peers[p].all;
    } else {
      PeerChanged(st, SentHaveNone(st, p), p);
    }
  }

  /** A peer outside the seeds whose bitmap has as many bits as there are pieces, but not those pieces. */
  predicate Confusing(st: State, n: nat, p: Id) {
    p in st.peers && p !in st.seeds && |st.peers[p].pieces| == n && exists i :: i in st.peers[p].pieces && i >= n
  }

  /** Counting and trimming agree unless a bitmap has the right number of wrong bits. */
  lemma FullBitmap(n: nat, pieces: set<nat>, i: nat)
    requires |pieces| == n && i < n && forall j | j in pieces :: j < n
    ensures i in pieces
  {
    IntervalSize(0, n);
    SubsetSize(pieces, Interval(0, n));
    assert i in Interval(0, n);
  }

  /** Between counting and trimming: no count is too low. */
  ghost predicate Midway(st: State) {
    && st.n.Some? && |st.rel| == st.n.value && st.seeds <= st.peers.Keys
    && (forall p | p in st.peers && st.peers[p].all :: p in st.seeds && st.peers[p].pieces == {})
    && (forall i | 0 <= i < |st.rel| :: Excess(st, i) >= 0)
  }

  /** By how much the count of piece i is above the peers outside the seeds that hold it. */
  function Excess(st: State, i: nat): int
    requires i < |st.rel|
  {
    st.rel[i] - |Holders(st.peers, st.seeds, i)|
  }

  ghost predicate SeedsExact(st: State) {
    forall p :: p in st.seeds <==> p in st.peers && st.peers[p].all
  }

  /** The peers counted for a piece they do not have. */
  ghost function Confused(st: State, n: nat, i: nat): set<Id> {
    set p | p in st.peers && Confusing(st, n, p) && i !in st.peers[p].pieces
  }

  lemma DropExcess(st: State, p: Id, i: nat)
    requires Midway(st) && p in st.peers && KnownToHaveAll(st.n, st.peers[p]) && i < |st.rel|
    ensures |DropOne(st, p).rel| == |st.rel| && Excess(DropOne(st, p), i) == Excess(st, i)
  {
    var st' := DropOne(st, p);
    OnePeer(st.peers, st.seeds, st'.peers, st'.seeds, p, i);
  }

  lemma DropOneMidway(st: State, p: Id)
    requires Midway(st)
    ensures var st' := DropOne(st, p);
            && st'.n == st.n && |st'.rel| == |st.rel|
            && (forall i | 0 <= i < |st.rel| :: Excess(st', i) == Excess(st, i))
            && Midway(st') && (SeedsExact(st) ==> SeedsExact(st'))
  {
    if p in st.peers && KnownToHaveAll(st.n, st.peers[p]) {
      forall i | 0 <= i < |st.rel|
        ensures Excess(DropOne(st, p), i) == Excess(st, i)
      {
        DropExcess(st, p, i);
      }
    }
  }

  /** Drops change no excess. */
  lemma {:induction false} DropAllMidway(st: State, drops: seq<Id>)
    requires Midway(st)
    ensures var st' := DropAll(st, drops);
            && st'.n == st.n && |st'.rel| == |st.rel|
            && (forall i | 0 <= i < |st.rel| :: Excess(st', i) == Excess(st, i))
            && Midway(st') && (SeedsExact(st) ==> SeedsExact(st'))
    decreases drops
  {
    if drops != [] {
      DropOneMidway(st, drops[0]);
      DropAllMidway(DropOne(st, drops[0]), drops[1..]);
    }
  }

  /** A peer that has all can be dropped without a panic exactly when it does not confuse: the bitmap of a confusing
      one has a piece there is no count for. */
  lemma DropSafe(st: State, p: Id)
    requires Midway(st) && p in st.peers && KnownToHaveAll(st.n, st.peers[p])
    ensures Safe(st, p) <==> !Confusing(st, st.n.value, p)
  {
    var pieces := st.peers[p].pieces;
    if p !in st.seeds && !Confusing(st, st.n.value, p) {
      forall i | i in pieces
        ensures i < |st.rel| && st.rel[i] > 0
      {
        assert i < st.n.value;
        assert p in Holders(st.peers, st.seeds, i);
        assert Excess(st, i) >= 0;
      }
    }
    if Confusing(st, st.n.value, p) {
      var i :| i in pieces && i >= st.n.value;
      assert Underflows(st.rel, pieces);
    }
  }

  /** No drop of the sequence reaches a panic. */
  ghost predicate Droppable(st: State, drops: seq<Id>)
    decreases drops
  {
    drops == [] ||
    (var p := drops[0];
     (p in st.peers && KnownToHaveAll(st.n, st.peers[p]) ==> Safe(st, p)) && Droppable(DropOne(st, p), drops[1..]))
  }

  lemma ConfusingAfterDrop(st: State, p: Id, q: Id)
    requires Midway(st)
    ensures Confusing(DropOne(st, p), st.n.value, q) ==> Confusing(st, st.n.value, q)
    ensures q != p && Confusing(st, st.n.value, q) ==> Confusing(DropOne(st, p), st.n.value, q)
  {
  }

  /** Drops before the trim reach no panic exactly when no dropped peer confuses. */
  lemma {:induction false} DropsSafe(st: State, drops: seq<Id>)
    requires Midway(st)
    ensures Droppable(st, drops) <==> forall p | p in drops :: !Confusing(st, st.n.value, p)
    decreases drops
  {
    hide Confusing, Safe;
    if drops != [] {
      var p, st1 := drops[0], DropOne(st, drops[0]);
      DropOneMidway(st, p);
      DropsSafe(st1, drops[1..]);
      ConfusingHasAll(st, p);
      if p in st.peers && KnownToHaveAll(st.n, st.peers[p]) {
        DropSafe(st, p);
      }
      forall q
        ensures Confusing(st1, st.n.value, q) ==> Confusing(st, st.n.value, q)
        ensures q != p && Confusing(st, st.n.value, q) ==> Confusing(st1, st.n.value, q)
      {
        ConfusingAfterDrop(st, p, q);
      }
      assert forall q :: q in drops <==> q == p || q in drops[1..];
    }
  }

  lemma ConfusingHasAll(st: State, p: Id)
    ensures st.n.Some? && Confusing(st, st.n.value, p) ==> p in st.peers && KnownToHaveAll(st.n, st.peers[p])
  {
  }

  /** A peer whose first message is a bitfield with as many bits as the torrent turns out to have pieces, one of them
      out of range, confuses; dropping it before the trim panics. */
  lemma EarlyBitfieldPanics(p: Id, n: nat, bits: set<nat>)
    requires |bits| == n && exists i :: i in bits && i >= n
    ensures var st := Run([Connect(p), Bitfield(p, bits)]);
            && ObeysAll([Connect(p), Bitfield(p, bits)])
            && Confusing(st, n, p) && !Droppable(Counting(st, n), [p])
  {
    var events := [Connect(p), Bitfield(p, bits)];
    assert events[..1] == [Connect(p)] && events[..1][..0] == [] && events[..0] == [];
    assert Run([Connect(p)]) == State(None, map[p := Bits(false, {})], {}, []);
    var st := Run(events);
    assert st.peers[p].pieces == bits;
    var i :| i in bits && i >= n;
    assert Underflows(Counting(st, n).rel, bits);
  }

  /** Such a bitfield exists for every torrent that has pieces. */
  lemma EarlyBitfieldExists(n: nat) returns (bits: set<nat>)
    requires n > 0
    ensures |bits| == n && n in bits
  {
    IntervalSize(1, n + 1);
    bits := Interval(1, n + 1);
  }

  lemma CountedSplit(st: State, n: nat, i: nat)
    requires Loose(st) && i < n
    ensures |Counted(st, n, i)| == |Holders(st.peers, st.seeds, i)| + |Confused(st, n, i)|
  {
    var c, h, x := Counted(st, n, i), Holders(st.peers, st.seeds, i), Confused(st, n, i);
    forall p
      ensures p in c <==> p in h || p in x
    {
      if p in c && p !in h {
        assert |st.peers[p].pieces| == n;
        if forall j | j in st.peers[p].pieces :: j < n {
          FullBitmap(n, st.peers[p].pieces, i);
        }
      }
    }
    assert c == h + x && h !! x;
  }

  lemma CountingMidway(st: State, n: nat)
    requires Loose(st) && st.n.None?
    ensures var mid := Counting(st, n);
            && Midway(mid) && (forall i | 0 <= i < n :: Excess(mid, i) == |Confused(st, n, i)|)
            && (forall p :: Confusing(mid, n, p) <==> Confusing(st, n, p))
  {
    var mid := Counting(st, n);
    forall i | 0 <= i < n
      ensures Excess(mid, i) == |Confused(st, n, i)|
    {
      CountedSplit(st, n, i);
    }
    forall p | p in mid.peers && mid.peers[p].all
      ensures p in mid.seeds && mid.peers[p].pieces == {}
    {
      assert BitsOk(st.n, st.peers[p]);
    }
  }

  lemma TrimmedLoose(st: State)
    requires Midway(st)
    ensures Loose(Trimmed(st))
    ensures forall i | 0 <= i < |st.rel| :: Excess(Trimmed(st), i) == Excess(st, i)
  {
    var st' := Trimmed(st);
    forall i | 0 <= i < |st.rel|
      ensures Excess(st', i) == Excess(st, i)
    {
      assert Holders(st'.peers, st'.seeds, i) == Holders(st.peers, st.seeds, i);
    }
    forall p | p in st'.peers
      ensures BitsOk(st'.n, st'.peers[p]) && (st'.peers[p].all ==> p in st'.seeds)
    {
    }
  }

  /** Learning the info, from any state and whichever peers are dropped on the way, makes each count the number of
      peers outside the seeds that hold the piece, and one more for each peer counted without having it. */
  lemma InfoCounts(st: State, n: nat, drops: seq<Id>)
    requires Loose(st) && st.n.None?
    ensures var st' := GotInfo(st, n, drops);
            && Loose(st') && st'.n == Some(n) && (SeedsExact(st) ==> SeedsExact(st'))
            && forall i | 0 <= i < n :: st'.rel[i] == |Holders(st'.peers, st'.seeds, i)| + |Confused(st, n, i)|
  {
    var mid := Counting(st, n);
    var d := DropAll(mid, drops);
    CountingMidway(st, n);
    DropAllMidway(mid, drops);
    TrimmedLoose(d);
    var st' := Trimmed(d);
    forall i | 0 <= i < n
      ensures st'.rel[i] == |Holders(st'.peers, st'.seeds, i)| + |Confused(st, n, i)|
    {
      assert Excess(st', i) == Excess(d, i) == Excess(mid, i);
    }
  }

  lemma ConfusedSome(st: State, n: nat)
    ensures (forall i: nat | i < n :: Confused(st, n, i) == {}) <==> forall p :: !Confusing(st, n, p)
  {
    if q :| Confusing(st, n, q) {
      var i := Missing(n, st.peers[q].pieces);
      assert q in Confused(st, n, i);
    }
  }

  /** Learning the info sets the counts right, whichever peers the last piece's completion drops on the way, exactly
      when no peer outside the seeds has sent, before the info was known, as many pieces as there are with some of
      them out of range. */
  lemma GotInfoKeeps(st: State, n: nat, drops: seq<Id>)
    requires Inv(st) && st.n.None?
    ensures Inv(GotInfo(st, n, drops)) <==> forall p :: !Confusing(st, n, p)
  {
    InvLoose(st);
    InfoCounts(st, n, drops);
    ConfusedSome(st, n);
    var st' := GotInfo(st, n, drops);
    if Inv(st') {
      forall i: nat | i < n
        ensures Confused(st, n, i) == {}
      {
        assert st'.rel[i] == |Holders(st'.peers, st'.seeds, i)|;
      }
    }
  }

  lemma Missing(n: nat, pieces: set<nat>) returns (i: nat)
    requires |pieces| == n && exists j :: j in pieces && j >= n
    ensures i < n && i !in pieces
  {
    IntervalSize(0, n);
    if Interval(0, n) <= pieces {
      SubsetSize(Interval(0, n), pieces);
    }
    i :| i in Interval(0, n) && i !in pieces;
  }

  // ---- runs ----

  /** What the code asks of its peers: no Have None after Have All, no confusing bitmap before the info. */
  ghost predicate Obeys(st: State, e: Event) {
    match e
    case HaveNone(p) => p in st.peers ==> !st.peers[p].all
    case SetInfo(n, _) => st.n.None? ==> forall p :: !Confusing(st, n, p)
    case _ => true
  }

  lemma StepKeeps(st: State, e: Event)
    requires Inv(st)
    ensures Obeys(st, e) <==> Inv(Step(st, e))
  {
    match e
    case Connect(p) => if p !in st.peers { ConnectKeeps(st, p); }
    case Have(p, i) => if p in st.peers { HaveKeeps(st, p, i); }
    case Bitfield(p, bits) => if p in st.peers { BitfieldKeeps(st, p, bits); }
    case HaveAll(p) => if p in st.peers { HasAllKeeps(st, p); }
    case HaveNone(p) => if p in st.peers { HaveNoneKeeps(st, p); }
    case Close(p) => if p in st.peers { ClosedKeeps(st, p); }
    case SetInfo(n, drops) => if st.n.None? { GotInfoKeeps(st, n, drops); }
  }

  function Run(events: seq<Event>): State {
    if events == [] then State(None, map[], {}, []) else Step(Run(events[..|events| - 1]), events[|events| - 1])
  }

  ghost predicate ObeysAll(events: seq<Event>) {
    forall k | 0 <= k < |events| :: Obeys(Run(events[..k]), events[k])
  }

  /** In every run of obeying peers the counts are exact, no obeying event can panic, and once every peer is closed
      every count is zero and no seed is left. */
  lemma {:induction false} RunCounts(events: seq<Event>)
    requires ObeysAll(events)
    ensures Inv(Run(events))
    ensures forall e | Obeys(Run(events), e) :: !Panics(Run(events), e)
    ensures Run(events).peers == map[] ==> Run(events).seeds == {} && AllZero(Run(events).rel)
  {
    if events != [] {
      var before := events[..|events| - 1];
      assert forall k | 0 <= k < |before| :: before[..k] == events[..k];
      RunCounts(before);
      StepKeeps(Run(before), events[|events| - 1]);
    }
    var st := Run(events);
    forall e | Obeys(st, e)
      ensures !Panics(st, e)
    {
      NoPanic(st, e);
    }
    if st.peers == map[] {
      forall i | 0 <= i < |st.rel|
        ensures st.rel[i] == 0
      {
        assert Holders(st.peers, st.seeds, i) == {};
      }
    }
  }

  ghost predicate AllZero(rel: seq<int>) {
    forall i | 0 <= i < |rel| :: rel[i] == 0
  }

  // ---- runs in which peers send what they like ----

  /** The peers whose bitmap holds piece i, whether among the seeds or not. */
  function Having(peers: map<Id, Bits>, i: nat): set<Id> {
    set p | p in peers && i in peers[p].pieces
  }

  /** Those among the seeds. */
  function SeedHolders(st: State, i: nat): set<Id> {
    set p | p in st.peers && p in st.seeds && i in st.peers[p].pieces
  }

  ghost predicate Tracked(st: State) {
    Loose(st) && st.n.Some?
  }

  /** By how much the count of piece i is above the bitmaps that hold it; it may be negative. */
  function Surplus(st: State, i: nat): int
    requires i < |st.rel|
  {
    st.rel[i] - |Having(st.peers, i)|
  }

  /** The event forgets the bitmap of a peer that is still among the seeds, without taking it out of the counts. */
  predicate Leaks(st: State, e: Event, i: nat) {
    (e.Close? || e.HaveNone?) && e.id in st.peers && e.id in st.seeds && i in st.peers[e.id].pieces
  }

  lemma HavingOne(peers: map<Id, Bits>, peers': map<Id, Bits>, p: Id, i: nat)
    requires peers'.Keys - {p} == peers.Keys - {p}
    requires forall q | q in peers && q != p :: q in peers' && peers'[q] == peers[q]
    ensures |Having(peers', i)| - (if p in Having(peers', i) then 1 else 0) ==
            |Having(peers, i)| - (if p in Having(peers, i) then 1 else 0)
  {
    var a, b := Having(peers, i), Having(peers', i);
    forall q
      ensures q in a - {p} <==> q in b - {p}
    {
      if q != p {
        assert q in peers'.Keys - {p} <==> q in peers.Keys - {p};
      }
    }
    assert a - {p} == b - {p};
    WithoutOne(a, p);
    WithoutOne(b, p);
  }

  lemma LooseOne(st: State, st': State, p: Id)
    requires Loose(st) && st'.n == st.n && |st'.rel| == |st.rel|
    requires st'.peers.Keys - {p} == st.peers.Keys - {p} && st'.seeds - {p} == st.seeds - {p}
    requires forall q | q in st.peers && q != p :: q in st'.peers && st'.peers[q] == st.peers[q]
    requires p in st'.peers ==> BitsOk(st.n, st'.peers[p]) && (st'.peers[p].all ==> p in st'.seeds)
    requires p in st'.seeds ==> p in st'.peers
    ensures Loose(st')
  {
    forall q | q in st'.peers
      ensures BitsOk(st'.n, st'.peers[q]) && (st'.peers[q].all ==> q in st'.seeds)
    {
      if q != p {
        assert q in st'.peers.Keys - {p};
        assert q in st'.seeds - {p} <==> q in st.seeds - {p};
      }
    }
    forall q | q in st'.seeds
      ensures q in st'.peers
    {
      if q != p {
        assert q in st'.seeds - {p};
      }
    }
  }

  /** An event touches only its own peer. */
  lemma StepFrame(st: State, e: Event)
    requires !e.SetInfo?
    ensures var st' := Step(st, e);
            && st'.n == st.n && |st'.rel| == |st.rel|
            && st'.peers.Keys - {e.id} == st.peers.Keys - {e.id} && st'.seeds - {e.id} == st.seeds - {e.id}
            && (forall q | q in st.peers && q != e.id :: q in st'.peers && st'.peers[q] == st.peers[q])
  {
    hide Shift, PeerHas, Trim;
  }

  lemma StepBits(st: State, e: Event)
    requires !e.SetInfo? && (e.id in st.seeds ==> e.id in st.peers)
    requires e.id in st.peers ==> BitsOk(st.n, st.peers[e.id]) && (st.peers[e.id].all ==> e.id in st.seeds)
    ensures var st' := Step(st, e);
            && (e.id in st'.peers ==> BitsOk(st'.n, st'.peers[e.id]) && (st'.peers[e.id].all ==> e.id in st'.seeds))
            && (e.id in st'.seeds ==> e.id in st'.peers)
  {
  }

  function Has(peers: map<Id, Bits>, p: Id, i: nat): int {
    if p in peers && i in peers[p].pieces then 1 else 0
  }

  /** A count moves with its own peer's bitmap unless the event leaks. */
  lemma StepOwn(st: State, e: Event, i: nat)
    requires st.n.Some? && !e.SetInfo? && i < |st.rel| == st.n.value
    requires e.id in st.peers ==> BitsOk(st.n, st.peers[e.id])
    ensures var st' := Step(st, e);
            && |st'.rel| == |st.rel|
            && st'.rel[i] - Has(st'.peers, e.id, i) ==
               st.rel[i] - Has(st.peers, e.id, i) + if Leaks(st, e, i) then 1 else 0
  {
    if e.Bitfield? && e.id in st.peers {
      BitfieldOwn(st, e.id, e.bits, i);
    }
  }

  lemma BitfieldOwn(st: State, p: Id, bits: set<nat>, i: nat)
    requires st.n.Some? && p in st.peers && i < |st.rel| == st.n.value
    ensures var st' := SentBitfield(st, p, bits);
            && p in st'.peers && |st'.rel| == |st.rel|
            && st'.rel[i] - Has(st'.peers, p, i) == st.rel[i] - Has(st.peers, p, i)
  {
  }

  lemma LooseStep(st: State, e: Event)
    requires Loose(st)
    ensures Loose(Step(st, e)) && (st.n.Some? ==> Step(st, e).n == st.n)
  {
    if !e.SetInfo? {
      StepFrame(st, e);
      StepBits(st, e);
      hide Step;
      LooseOne(st, Step(st, e), e.id);
    } else if st.n.None? {
      InfoCounts(st, e.numPieces, e.drops);
    }
  }

  /** Every run keeps it, whatever the peers send; with no peer left there is no seed left. */
  lemma {:induction false} RunLoose(events: seq<Event>)
    ensures Loose(Run(events)) && (Run(events).peers == map[] ==> Run(events).seeds == {})
  {
    if events != [] {
      RunLoose(events[..|events| - 1]);
      LooseStep(Run(events[..|events| - 1]), events[|events| - 1]);
    }
  }

  /** An event moves a surplus exactly when it leaks, and then up by one. */
  lemma SurplusStep(st: State, e: Event, i: nat)
    requires Tracked(st) && i < |st.rel|
    ensures |Step(st, e).rel| == |st.rel|
    ensures Surplus(Step(st, e), i) == Surplus(st, i) + if Leaks(st, e, i) then 1 else 0
  {
    if !e.SetInfo? {
      StepFrame(st, e);
      StepOwn(st, e, i);
      hide Step, Leaks;
      HavingOne(st.peers, Step(st, e).peers, e.id, i);
    }
  }

  lemma HavingSplit(st: State, i: nat)
    ensures |Having(st.peers, i)| == |Holders(st.peers, st.seeds, i)| + |SeedHolders(st, i)|
  {
    var h, x := Holders(st.peers, st.seeds, i), SeedHolders(st, i);
    assert Having(st.peers, i) == h + x && h !! x;
  }

  /** The surplus with which the counts start: up by the peers counted without having the piece, down by the seeds that
      have it in their bitmap and were not counted. */
  lemma InfoSurplus(st: State, n: nat, drops: seq<Id>, i: nat)
    requires Loose(st) && st.n.None? && i < n
    ensures var st' := GotInfo(st, n, drops);
            && Tracked(st') && st'.n == Some(n)
            && Surplus(st', i) == |Confused(st, n, i)| - |SeedHolders(st', i)|
  {
    InfoCounts(st, n, drops);
    HavingSplit(GotInfo(st, n, drops), i);
  }

  // ---- what the counts are after any run ----

  /** The surplus of piece i after a run: that of the moment the info came, and one for each leak since. */
  ghost function Balance(events: seq<Event>, i: nat): int {
    if events == [] then 0
    else
      var before, e := events[..|events| - 1], events[|events| - 1];
      var st := Run(before);
      if st.n.Some? then Balance(before, i) + if Leaks(st, e, i) then 1 else 0
      else if e.SetInfo? then |Confused(st, e.numPieces, i)| - |SeedHolders(Step(st, e), i)|
      else 0
  }

  /** In every run, whatever the peers send and whenever the info comes, each count is the number of bitmaps that hold
      the piece and the balance. */
  lemma {:induction false} RunBalance(events: seq<Event>, i: nat)
    requires Run(events).n.Some? && i < Run(events).n.value
    ensures i < |Run(events).rel| && Run(events).rel[i] == |Having(Run(events).peers, i)| + Balance(events, i)
  {
    RunLoose(events);
    if events != [] {
      var before, e := events[..|events| - 1], events[|events| - 1];
      var st := Run(before);
      RunLoose(before);
      if st.n.Some? {
        LooseStep(st, e);
        RunBalance(before, i);
        SurplusStep(st, e, i);
      } else if e.SetInfo? {
        InfoCounts(st, e.numPieces, e.drops);
        InfoSurplus(st, e.numPieces, e.drops, i);
      } else {
        StepFrame(st, e);
      }
    }
  }

  /** Every piece's balance is nought. */
  ghost predicate Balanced(events: seq<Event>) {
    forall i: nat | i < |Run(events).rel| :: Balance(events, i) == 0
  }

  /** The assertion at the end of a torrent, that all counts are zero once every peer is closed, holds exactly when the
      leaks of each piece have made up for what its count began with too little, and for no more. */
  lemma TeardownIff(events: seq<Event>)
    requires Run(events).n.Some? && Run(events).peers == map[]
    ensures AllZero(Run(events).rel) <==> Balanced(events)
  {
    RunLoose(events);
    var st := Run(events);
    forall i: nat | i < |st.rel|
      ensures st.rel[i] == Balance(events, i)
    {
      RunBalance(events, i);
      assert Having(st.peers, i) == {};
    }
    assert AllZero(st.rel) ==> forall i: nat | i < |st.rel| :: st.rel[i] == 0;
  }

  // ---- when a run can panic ----

  /** The state after further events. */
  function After(st: State, events: seq<Event>): State {
    if events == [] then st else Step(After(st, events[..|events| - 1]), events[|events| - 1])
  }

  lemma AfterMore(st: State, events: seq<Event>, e: Event)
    ensures After(st, events + [e]) == Step(After(st, events), e)
  {
    assert (events + [e])[..|events|] == events;
  }

  /** How many of the events leak piece i. */
  function Leaked(st: State, events: seq<Event>, i: nat): nat {
    if events == [] then 0
    else
      var before := events[..|events| - 1];
      Leaked(st, before, i) + if Leaks(After(st, before), events[|events| - 1], i) then 1 else 0
  }

  lemma {:induction false} TrackedRun(st: State, events: seq<Event>)
    requires Tracked(st)
    ensures Tracked(After(st, events)) && After(st, events).n == st.n
  {
    if events != [] {
      TrackedRun(st, events[..|events| - 1]);
      LooseStep(After(st, events[..|events| - 1]), events[|events| - 1]);
    }
  }

  lemma {:induction false} SurplusRun(st: State, events: seq<Event>, i: nat)
    requires Tracked(st) && i < |st.rel|
    ensures Tracked(After(st, events)) && |After(st, events).rel| == |st.rel|
    ensures Surplus(After(st, events), i) == Surplus(st, i) + Leaked(st, events, i)
  {
    TrackedRun(st, events);
    if events != [] {
      var before := events[..|events| - 1];
      SurplusRun(st, before, i);
      SurplusStep(After(st, before), events[|events| - 1], i);
    }
  }

  /** No count is below the bitmaps that hold its piece. */
  ghost predicate Covered(st: State) {
    forall i: nat | i < |st.rel| :: Surplus(st, i) >= 0
  }

  lemma LowersOwn(st: State, e: Event, i: nat)
    requires Loose(st) && i in Lowers(st, e)
    ensures e.id in Having(st.peers, i) && (st.n.Some? ==> i < |st.rel|)
  {
    assert BitsOk(st.n, st.peers[e.id]);
  }

  /** While no count is too low an event panics exactly when it brings the info and the drop of a confusing peer. */
  lemma CoveredPanics(st: State, e: Event)
    requires Loose(st) && Covered(st)
    ensures Panics(st, e) <==>
            e.SetInfo? && st.n.None? && exists p :: p in e.drops && Confusing(st, e.numPieces, p)
  {
    if e.SetInfo? && st.n.None? {
      CountingMidway(st, e.numPieces);
      DropsSafe(Counting(st, e.numPieces), e.drops);
    } else if st.n.Some? {
      forall i | i in Lowers(st, e)
        ensures i < |st.rel| && st.rel[i] > 0
      {
        LowersOwn(st, e, i);
        assert Surplus(st, i) >= 0;
      }
    }
    if e.Bitfield? && e.id in st.peers {
      assert BitsOk(st.n, st.peers[e.id]);
    }
  }

  lemma InvCovered(st: State)
    requires Inv(st)
    ensures Loose(st) && Covered(st) && forall i: nat | i < |st.rel| :: Surplus(st, i) == 0
  {
    InvLoose(st);
    forall i: nat | i < |st.rel|
      ensures Surplus(st, i) == 0
    {
      assert Having(st.peers, i) == Holders(st.peers, st.seeds, i);
    }
  }

  /** With exact counts an event panics exactly when it brings the info and the drop of a confusing peer. */
  lemma NoPanic(st: State, e: Event)
    requires Inv(st)
    ensures Panics(st, e) <==>
            e.SetInfo? && st.n.None? && exists p :: p in e.drops && Confusing(st, e.numPieces, p)
  {
    InvCovered(st);
    CoveredPanics(st, e);
  }

  /** Nothing the peers may still send reaches a panic. */
  ghost predicate PanicFree(st: State) {
    forall events: seq<Event>, e: Event :: !Panics(After(st, events), e)
  }

  /** A count below its bitmaps can be taken to a panic: by Have All from the peers that hold the piece, one by one. */
  lemma {:induction false} UncoveredPanics(st: State, done: seq<Event>, i: nat) returns (events: seq<Event>, e: Event)
    requires Tracked(st) && i < |st.rel| && Tracked(After(st, done)) && |After(st, done).rel| == |st.rel|
    requires Surplus(After(st, done), i) < 0
    ensures Panics(After(st, events), e)
    decreases |Having(After(st, done).peers, i)|
  {
    var now := After(st, done);
    if Having(now.peers, i) == {} {
      events, e := FreshPanics(st, done, i);
    } else {
      var p :| p in Having(now.peers, i);
      if now.rel[i] <= 0 {
        assert i in Lowers(now, HaveAll(p));
        events, e := done, HaveAll(p);
      } else {
        AfterMore(st, done, HaveAll(p));
        LooseStep(now, HaveAll(p));
        SurplusStep(now, HaveAll(p), i);
        HaveAllFewer(now, p, i);
        events, e := UncoveredPanics(st, done + [HaveAll(p)], i);
      }
    }
  }

  lemma HaveAllFewer(st: State, p: Id, i: nat)
    requires p in Having(st.peers, i)
    ensures |Having(Step(st, HaveAll(p)).peers, i)| < |Having(st.peers, i)|
  {
    var a, b := Having(st.peers, i), Having(Step(st, HaveAll(p)).peers, i);
    assert b == a - {p};
  }

  /** A new peer that announces the piece and then has all panics while the count is negative. */
  lemma FreshPanics(st: State, done: seq<Event>, i: nat) returns (events: seq<Event>, e: Event)
    requires Tracked(After(st, done)) && i < |After(st, done).rel| && After(st, done).rel[i] < 0
    ensures Panics(After(st, events), e)
  {
    var now := After(st, done);
    var p := Fresh(now.peers.Keys);
    AfterMore(st, done, Connect(p));
    AfterMore(st, done + [Connect(p)], Have(p, i));
    events, e := done + [Connect(p)] + [Have(p, i)], HaveAll(p);
    var st' := After(st, events);
    assert st'.peers[p].pieces == {i} && st'.rel[i] == now.rel[i] + 1;
    assert i in Lowers(st', e);
  }

  lemma Fresh(ids: set<Id>) returns (p: Id)
    ensures p !in ids
  {
    p := 0;
    var seen: set<Id> := {};
    while p in ids
      invariant seen <= ids && forall q: Id :: q in seen <==> q < p
      decreases |ids - seen|
    {
      assert ids - seen == (ids - (seen + {p})) + {p};
      seen := seen + {p};
      p := p + 1;
    }
  }

  /** Once the info is known no continuation panics, whatever peers send, exactly when no count is below the bitmaps
      that hold its piece. */
  lemma PanicFreeIff(st: State)
    requires Tracked(st)
    ensures PanicFree(st) <==> Covered(st)
  {
    if Covered(st) {
      forall events: seq<Event>, e: Event
        ensures !Panics(After(st, events), e)
      {
        CoveredRun(st, events);
        CoveredPanics(After(st, events), e);
      }
    } else {
      var i: nat :| i < |st.rel| && Surplus(st, i) < 0;
      assert After(st, []) == st;
      var events, e := UncoveredPanics(st, [], i);
    }
  }

  lemma CoveredRun(st: State, events: seq<Event>)
    requires Tracked(st) && Covered(st)
    ensures Tracked(After(st, events)) && Covered(After(st, events))
  {
    TrackedRun(st, events);
    forall i: nat | i < |After(st, events).rel|
      ensures Surplus(After(st, events), i) >= 0
    {
      SurplusRun(st, events, i);
    }
  }

  /** No piece's balance is negative. */
  ghost predicate Solvent(events: seq<Event>) {
    forall i: nat | i < |Run(events).rel| :: Balance(events, i) >= 0
  }

  /** So after any run that has brought the info no continuation panics exactly when no balance is negative. */
  lemma RunPanicFreeIff(events: seq<Event>)
    requires Run(events).n.Some?
    ensures PanicFree(Run(events)) <==> Solvent(events)
  {
    RunLoose(events);
    var st := Run(events);
    PanicFreeIff(st);
    forall i: nat | i < |st.rel|
      ensures Surplus(st, i) == Balance(events, i)
    {
      RunBalance(events, i);
    }
    assert Covered(st) ==> forall i: nat | i < |st.rel| :: Surplus(st, i) >= 0;
  }

  /** At the moment the info comes: no continuation panics exactly when no piece is in more bitmaps of seeds than it has
      peers counted without having it; without confusing peers, when no seed has a bitmap. */
  lemma InfoPanicFreeIff(st: State, n: nat, drops: seq<Id>)
    requires Loose(st) && st.n.None?
    ensures var st' := GotInfo(st, n, drops);
            && (PanicFree(st') <==> forall i: nat | i < n :: |SeedHolders(st', i)| <= |Confused(st, n, i)|)
            && ((forall p :: !Confusing(st, n, p)) ==>
                  (PanicFree(st') <==> forall p | p in st'.seeds && p in st'.peers :: st'.peers[p].pieces == {}))
  {
    var st' := GotInfo(st, n, drops);
    InfoCounts(st, n, drops);
    PanicFreeIff(st');
    forall i: nat | i < n
      ensures Surplus(st', i) == |Confused(st, n, i)| - |SeedHolders(st', i)|
    {
      InfoSurplus(st, n, drops, i);
    }
    assert Covered(st') <==> forall i: nat | i < n :: |SeedHolders(st', i)| <= |Confused(st, n, i)|;
    if forall p :: !Confusing(st, n, p) {
      NoSeedBitmaps(st', n);
      assert forall i: nat | i < n :: Confused(st, n, i) == {};
    }
  }

  lemma NoSeedBitmaps(st: State, n: nat)
    requires Loose(st) && st.n == Some(n)
    ensures (forall i: nat | i < n :: |SeedHolders(st, i)| <= 0) <==>
            forall p | p in st.seeds && p in st.peers :: st.peers[p].pieces == {}
  {
    forall p | p in st.seeds && p in st.peers && st.peers[p].pieces != {}
      ensures exists i: nat | i < n :: |SeedHolders(st, i)| > 0
    {
      assert BitsOk(st.n, st.peers[p]);
      var i :| i in st.peers[p].pieces;
      assert p in SeedHolders(st, i);
    }
    if i: nat :| i < n && |SeedHolders(st, i)| > 0 {
      var p :| p in SeedHolders(st, i);
      assert p in st.seeds && i in st.peers[p].pieces;
    }
  }

  /** Have All, Have None and Have(i) before the info: the piece is not counted, the peer's next Have All or empty
      bitfield panics, and closing it instead leaks and yet leaves every count at zero. */
  lemma EarlyHaveNonePanics(p: Id, i: nat, n: nat)
    requires i < n
    ensures var events := [Connect(p)] + [HaveAll(p)] + [HaveNone(p)] + [Have(p, i)] + [SetInfo(n, [])];
            var st := Run(events);
            && st.n == Some(n) && i < |st.rel| && st.rel[i] == 0 && !PanicFree(st)
            && Panics(st, HaveAll(p)) && Panics(st, Bitfield(p, {}))
            && Leaks(st, Close(p), i) && AllZero(Step(st, Close(p)).rel)
  {
    var s1 := [Connect(p)] + [HaveAll(p)];
    EarlyHaveNone(p, i);
    var early := s1 + [HaveNone(p)] + [Have(p, i)];
    RunMore(early, SetInfo(n, []));
    var before := Run(early);
    RunLoose(early);
    var st := GotInfo(before, n, []);
    assert st == Trimmed(Counting(before, n));
    forall j | 0 <= j < n
      ensures st.rel[j] == 0
    {
      assert Counted(before, n, j) == {};
    }
    assert i in Lowers(st, HaveAll(p)) && i in Lowers(st, Bitfield(p, {}));
    var none: seq<Event> := [];
    assert Panics(After(st, none), HaveAll(p));
  }

  lemma RunMore(events: seq<Event>, e: Event)
    ensures Run(events + [e]) == Step(Run(events), e)
  {
    assert (events + [e])[..|events|] == events;
  }

  lemma EarlyHaveNone(p: Id, i: nat)
    ensures Run([Connect(p)] + [HaveAll(p)] + [HaveNone(p)] + [Have(p, i)]) ==
            State(None, map[p := Bits(false, {i})], {p}, [])
  {
    RunMore([], Connect(p));
    RunMore([Connect(p)], HaveAll(p));
    RunMore([Connect(p)] + [HaveAll(p)], HaveNone(p));
    RunMore([Connect(p)] + [HaveAll(p)] + [HaveNone(p)], Have(p, i));
    assert [] + [Connect(p)] == [Connect(p)];
    assert Run([Connect(p)]) == State(None, map[p := Bits(false, {})], {}, []);
    assert Run([Connect(p)] + [HaveAll(p)]) == State(None, map[p := Bits(true, {})], {p}, []);
    assert Run([Connect(p)] + [HaveAll(p)] + [HaveNone(p)]) == State(None, map[p := Bits(false, {})], {p}, []);
    var pieces: set<nat> := {};
    assert pieces + {i} == {i} && Shift([], {i}, 1) == [];
  }

  // ---- what obeying peers keep from there on ----

  ghost predicate ObeysOn(st: State, events: seq<Event>) {
    forall k | 0 <= k < |events| :: Obeys(After(st, events[..k]), events[k])
  }

  lemma SeedsStep(st: State, e: Event)
    requires Tracked(st) && SeedsExact(st)
    ensures Obeys(st, e) <==> SeedsExact(Step(st, e))
  {
    if e.HaveNone? && e.id in st.peers {
      assert e.id in st.seeds <==> st.peers[e.id].all;
      assert e.id in Step(st, e).peers && !Step(st, e).peers[e.id].all;
    }
  }

  lemma ExactLeaksNot(st: State, e: Event, i: nat)
    requires Tracked(st) && SeedsExact(st)
    ensures !Leaks(st, e, i)
  {
    if !e.SetInfo? && e.id in st.peers {
      assert BitsOk(st.n, st.peers[e.id]);
    }
  }

  lemma {:induction false} ObeyingLeaksNot(st: State, events: seq<Event>, i: nat)
    requires Tracked(st) && SeedsExact(st) && ObeysOn(st, events)
    ensures Tracked(After(st, events)) && SeedsExact(After(st, events)) && Leaked(st, events, i) == 0
  {
    TrackedRun(st, events);
    if events != [] {
      var before, e := events[..|events| - 1], events[|events| - 1];
      assert forall k | 0 <= k < |before| :: before[..k] == events[..k] && before[k] == events[k];
      ObeyingLeaksNot(st, before, i);
      SeedsStep(After(st, before), e);
      ExactLeaksNot(After(st, before), e, i);
    }
  }

  /** Have All, Have None, Have(i), close: whatever happens later, the count of piece i stays above the peers that hold
      it, by exactly one if all peers obey from then on, and is not zero when every peer is closed. */
  lemma HaveNoneLeak(st: State, p: Id, i: nat, later: seq<Event>)
    requires Inv(st) && st.n.Some? && i < st.n.value && p in st.peers && !st.peers[p].all
    ensures var st1 := Step(Step(Step(Step(st, HaveAll(p)), HaveNone(p)), Have(p, i)), Close(p));
            var st' := After(st1, later);
            && p !in st1.peers && |st'.rel| == |st.rel| && st'.rel[i] > |Holders(st'.peers, st'.seeds, i)|
            && (ObeysOn(st1, later) ==> st'.rel[i] == |Holders(st'.peers, st'.seeds, i)| + 1)
            && (st'.peers == map[] ==> st'.rel[i] > 0)
  {
    var st1 := LeakOnce(st, p, i);
    var st' := After(st1, later);
    SurplusRun(st1, later, i);
    HavingSplit(st', i);
    if ObeysOn(st1, later) {
      ObeyingLeaksNot(st1, later, i);
      assert forall q | q in st'.peers :: BitsOk(st'.n, st'.peers[q]);
      assert SeedHolders(st', i) == {};
    }
  }

  lemma LeakOnce(st: State, p: Id, i: nat) returns (st4: State)
    requires Inv(st) && st.n.Some? && i < st.n.value && p in st.peers && !st.peers[p].all
    ensures st4 == Step(Step(Step(Step(st, HaveAll(p)), HaveNone(p)), Have(p, i)), Close(p))
    ensures p !in st4.peers && Tracked(st4) && SeedsExact(st4) && |st4.rel| == |st.rel| && Surplus(st4, i) == 1
  {
    var st1 := Step(st, HaveAll(p));
    var st2 := Step(st1, HaveNone(p));
    var st3 := Step(st2, Have(p, i));
    st4 := Step(st3, Close(p));
    InvCovered(st);
    SurplusStep(st, HaveAll(p), i);
    LooseStep(st, HaveAll(p));
    SurplusStep(st1, HaveNone(p), i);
    LooseStep(st1, HaveNone(p));
    SurplusStep(st2, Have(p, i), i);
    LooseStep(st2, Have(p, i));
    SurplusStep(st3, Close(p), i);
    LooseStep(st3, Close(p));
    assert st3.peers[p].pieces == {i} && p in st3.seeds;
  }
}
