/** Piece availability as the torrent keeps it in place, one piece at a time. */
module AvailabilityCounts {
  import opened Wrappers
  import opened Availability

  class Counts {
    var n: Option<nat>
    var peers: map<Id, Bits>
    var seeds: set<Id>
    var rel: seq<int>

    function View(): State
      reads this
    {
      State(n, peers, seeds, rel)
    }

    constructor ()
      ensures View() == Run([]) && Inv(View())
    {
      n, peers, seeds, rel := None, map[], {}, [];
    }

    method IncPiece(i: nat)
      requires n.Some? ==> i < |rel|
      modifies this`rel
      ensures rel == if n.Some? then Shift(old(rel), {i}, 1) else old(rel)
    {
      if n.Some? {
        rel := rel[i := rel[i] + 1];
      }
    }

    /** `ok` is false where the code panics. */
    method DecPiece(i: nat) returns (ok: bool)
      modifies this`rel
      ensures ok <==> n.None? || !Underflows(old(rel), {i})
      ensures ok ==> rel == if n.Some? then Shift(old(rel), {i}, -1) else old(rel)
    {
      assert Underflows(rel, {i}) <==> i >= |rel| || rel[i] <= 0;
      if n.None? {
        return true;
      }
      if i >= |rel| || rel[i] <= 0 {
        return false;  // "panic(p.relativeAvailability)"
      }
      rel := rel[i := rel[i] - 1];
      return true;
    }

    /** Iterate a bitmap, decrementing. */
    method DecEach(s: set<nat>) returns (ok: bool)
      modifies this`rel
      ensures ok <==> n.None? || !Underflows(old(rel), s)
      ensures ok ==> rel == if n.Some? then Shift(old(rel), s, -1) else old(rel)
    {
      var rest := s;
      while rest != {}
        invariant rest <= s && n == old(n)
        invariant rel == if n.Some? then Shift(old(rel), s - rest, -1) else old(rel)
        invariant n.None? || !Underflows(old(rel), s - rest)
        decreases rest
      {
        var i :| i in rest;
        var one := DecPiece(i);
        if !one {
          assert i in s && (i >= |old(rel)| || old(rel)[i] <= 0);
          return false;
        }
        assert n.Some? ==> i in {i} && i < |old(rel)| && old(rel)[i] > 0;
        assert s - (rest - {i}) == (s - rest) + {i};
        rest := rest - {i};
      }
      assert s - rest == s;
      return true;
    }

    /** Drop a peer's share: its place among the seeds, or its pieces one by one. */
    method DecPeerPieces(p: Id) returns (ok: bool)
      requires p in peers
      modifies this`seeds, this`rel
      ensures ok <==> Safe(old(View()), p)
      ensures ok ==> View() == DecPeer(old(View()), p)
    {
      if p in seeds {
        seeds := seeds - {p};
        return true;
      }
      if n.None? {
        return true;
      }
      ok := DecEach(peers[p].pieces);
    }

    method PeerSentHave(p: Id, i: nat) returns (ok: bool)
      requires Loose(View()) && p in peers
      modifies this`peers, this`rel
      ensures ok <==> n.None? || i < n.value
      ensures View() == SentHave(old(View()), p, i) && Loose(View()) && (old(Inv(View())) ==> Inv(View()))
    {
      LooseStep(View(), Have(p, i));
      if Inv(View()) {
        HaveKeeps(View(), p, i);
      }
      if n.Some? && i >= n.value {
        return false;
      }
      if !PeerHas(n, peers[p], i) {
        IncPiece(i);
        peers := peers[p := peers[p].(pieces := peers[p].pieces + {i})];
      }
      return true;
    }

    method OnPeerHasAllPieces(p: Id) returns (ok: bool)
      requires Loose(View()) && p in peers
      modifies this
      ensures ok <==> !Panics(old(View()), HaveAll(p))
      ensures ok ==> View() == HasAll(old(View()), p) && Loose(View())
      ensures old(Inv(View())) ==> ok && Inv(View())
    {
      LooseStep(View(), HaveAll(p));
      if Inv(View()) {
        HasAllKeeps(View(), p);
        NoPanic(View(), HaveAll(p));
      }
      if n.Some? {
        var each := DecEach(peers[p].pieces);
        if !each {
          return false;
        }
      }
      seeds := seeds + {p};
      peers := peers[p := Bits(true, {})];
      return true;
    }

    method PeerSentBitfield(p: Id, bits: set<nat>) returns (ok: bool)
      requires Loose(View()) && p in peers
      modifies this
      ensures ok <==> !Panics(old(View()), Bitfield(p, bits))
      ensures ok ==> View() == SentBitfield(old(View()), p, bits) && Loose(View())
      ensures old(Inv(View())) ==> ok && Inv(View())
    {
      LooseStep(View(), Bitfield(p, bits));
      if Inv(View()) {
        BitfieldKeeps(View(), p, bits);
        NoPanic(View(), Bitfield(p, bits));
      }
      BitfieldPanics(View(), p, bits);
      hide Inv, Loose, Shift, Underflows, Panics, Lowers;
      if FullBits(View(), bits) {
        ok := OnPeerHasAllPieces(p);
      } else {
        ok := PartialBitfield(p, bits);
      }
    }

    static lemma BitfieldPanics(st: State, p: Id, bits: set<nat>)
      requires Loose(st) && p in st.peers
      ensures FullBits(st, bits) ==> (Panics(st, Bitfield(p, bits)) <==> Panics(st, HaveAll(p)))
      ensures !FullBits(st, bits) ==>
                (Panics(st, Bitfield(p, bits)) <==> st.n.Some? && Underflows(st.rel, Lowers(st, Bitfield(p, bits))))
    {
      assert BitsOk(st.n, st.peers[p]);
    }

    /** A bitfield that lacks a piece: what changes is the exclusive or of the old bitmap and the new. */
    method PartialBitfield(p: Id, bits: set<nat>) returns (ok: bool)
      requires Loose(View()) && p in peers && !FullBits(View(), bits)
      modifies this
      ensures ok <==> old(n).None? || !Underflows(old(rel), Lowers(old(View()), Bitfield(p, bits)))
      ensures ok ==> View() == SentBitfield(old(View()), p, bits)
    {
      Lengths(p, bits);
      hide Loose, Shift, Trim, Underflows;
      var bm := Trim(bits, n);
      var had, changes := peers[p].pieces, bm;
      if peers[p].all {
        if p !in seeds || had != {} {
          assert false;  // "if peer has all, we expect no individual peer pieces to be set"
        }
        seeds := seeds - {p};
      } else {
        changes := (bm - had) + (had - bm);
      }
      Xor(had, bm);
      ok := ApplyChanges(changes, had);
      if ok {
        peers := peers[p := Bits(false, (had - changes) + (changes - had))];
      }
    }

    lemma Lengths(p: Id, bits: set<nat>)
      requires Loose(View()) && p in peers
      ensures peers[p].all ==> p in seeds && peers[p].pieces == {}
      ensures match n
              case None => forall s, d :: Shift(rel, s, d) == rel
              case Some(num) =>
                && |rel| == num && (forall i | i in Trim(bits, n) :: i < num)
                && forall i | i in peers[p].pieces :: i < num
    {
      assert BitsOk(n, peers[p]);
    }

    static lemma Xor(had: set<nat>, bm: set<nat>)
      ensures var changes := (bm - had) + (had - bm);
              && changes * had == had - bm && changes - had == bm - had
              && (had - changes) + (changes - had) == bm
      ensures had == {} ==> bm * had == had - bm && bm - had == bm && (had - bm) + (bm - had) == bm
      ensures had == {} ==> bm * had == {}
    {
    }

    /** Each changing piece is lost if the peer had it, gained if not. */
    method ApplyChanges(changes: set<nat>, had: set<nat>) returns (ok: bool)
      requires n.Some? ==> forall i | i in changes :: i < |rel|
      modifies this`rel
      ensures ok <==> n.None? || !Underflows(old(rel), changes * had)
      ensures ok ==>
                rel == if n.Some? then Shift(Shift(old(rel), changes * had, -1), changes - had, 1) else old(rel)
    {
      var rest := changes;
      while rest != {}
        invariant rest <= changes
        invariant rel == if n.None? then old(rel)
                         else Shift(Shift(old(rel), (changes - rest) * had, -1), changes - rest - had, 1)
        invariant n.None? || !Underflows(old(rel), (changes - rest) * had)
        decreases rest
      {
        var i :| i in rest;
        if i in had {
          var one := DecPiece(i);
          if !one {
            assert i in changes * had && (i >= |old(rel)| || old(rel)[i] <= 0);
            return false;
          }
        } else {
          IncPiece(i);
        }
        rest := rest - {i};
      }
      assert changes - rest == changes;
      return true;
    }

    method PeerSentHaveNone(p: Id) returns (ok: bool)
      requires Loose(View()) && p in peers
      modifies this
      ensures ok <==> !Panics(old(View()), HaveNone(p))
      ensures ok ==> View() == SentHaveNone(old(View()), p) && Loose(View())
      ensures old(Inv(View())) ==> ok && (Inv(View()) <==> !old(peers[p].all))
    {
      LooseStep(View(), HaveNone(p));
      if Inv(View()) {
        HaveNoneKeeps(View(), p);
        NoPanic(View(), HaveNone(p));
      }
      if !peers[p].all {
        var dec := DecPeerPieces(p);
        if !dec {
          return false;
        }
      }
      peers := peers[p := Bits(false, {})];
      return true;
    }

    method Close(p: Id) returns (ok: bool)
      requires Loose(View()) && p in peers
      modifies this
      ensures ok <==> !Panics(old(View()), Event.Close(p))
      ensures ok ==> View() == Closed(old(View()), p) && Loose(View())
      ensures old(Inv(View())) ==> ok && Inv(View())
    {
      LooseStep(View(), Event.Close(p));
      if Inv(View()) {
        ClosedKeeps(View(), p);
        NoPanic(View(), Event.Close(p));
      }
      ok := DecPeerPieces(p);
      if ok {
        peers := peers - {p};
      }
    }

    /** How many peers outside the seeds have piece i. */
    method SelectiveAvailability(i: nat) returns (count: nat)
      requires n.Some?
      ensures count == |Counted(View(), n.value, i)|
    {
      count := 0;
      var rest := peers.Keys;
      ghost var seen: set<Id> := {};
      while rest != {}
        invariant rest <= peers.Keys && seen == Counted(View(), n.value, i) - rest && count == |seen|
        decreases rest
      {
        var p :| p in rest;
        if p !in seeds && PeerHas(n, peers[p], i) {
          count := count + 1;
          seen := seen + {p};
        }
        rest := rest - {p};
      }
      assert seen == Counted(View(), n.value, i);
    }

    /** onSetInfo. The completion of the last piece may make the torrent drop peers that have all, here those of
        `drops`, before bitmaps are trimmed; `ok` is false if that indexes a piece that does not exist. */
    method OnSetInfo(num: nat, drops: seq<Id>) returns (ok: bool)
      requires Loose(View()) && n.None?
      modifies this
      ensures ok ==> View() == GotInfo(old(View()), num, drops) && Loose(View())
      ensures ok && old(Inv(View())) ==> (Inv(View()) <==> forall p :: !Confusing(old(View()), num, p))
      ensures ok <==> !Panics(old(View()), SetInfo(num, drops))
      ensures ok <==> forall p | p in drops :: !Confusing(old(View()), num, p)
    {
      if Inv(View()) {
        GotInfoKeeps(View(), num, drops);
      }
      InfoCounts(View(), num, drops);
      CountingMidway(View(), num);
      DropsSafe(Counting(View(), num), drops);
      n := Some(num);
      var counts: seq<int> := [];
      for i := 0 to num
        invariant n == Some(num) && peers == old(peers) && seeds == old(seeds)
        invariant |counts| == i && forall j | 0 <= j < i :: counts[j] == |Counted(old(View()), num, j)|
      {
        var c := SelectiveAvailability(i);
        assert Counted(View(), num, i) == Counted(old(View()), num, i);
        counts := counts + [c];
      }
      rel := counts;
      assert View() == Counting(old(View()), num);
      ok := DropMutuallyComplete(drops);
      if ok {
        peers := map p | p in peers :: peers[p].(pieces := Trim(peers[p].pieces, n));
      }
    }

    method DropMutuallyComplete(drops: seq<Id>) returns (ok: bool)
      requires Midway(View())
      modifies this`peers, this`seeds, this`rel
      ensures ok ==> View() == DropAll(old(View()), drops)
      ensures ok <==> forall p | p in drops :: !Confusing(old(View()), n.value, p)
    {
      ghost var st := View();
      DropsSafe(st, drops);
      for k := 0 to |drops|
        invariant n == old(n) && Midway(View()) && DropAll(st, drops) == DropAll(View(), drops[k..])
        invariant Droppable(st, drops) <==> Droppable(View(), drops[k..])
      {
        var p := drops[k];
        assert drops[k..][0] == p && drops[k..][1..] == drops[k + 1..];
        DropOneMidway(View(), p);
        if p in peers && KnownToHaveAll(n, peers[p]) {
          var dec := DecPeerPieces(p);
          if !dec {
            return false;
          }
          peers := peers - {p};
        }
      }
      return true;
    }
  }
}
