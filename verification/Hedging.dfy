/** Tail hedging as a whole: the scan of the outstanding requests, the choice of a second peer and the breaker. */
module Hedging {
  import opened Layouts
  import opened Peers
  import opened Torrents
  import Requests
  import Swarm
  import SwarmRuns
  import Breaker

  /** How many duplicates the breaker has on record. */
  function Recorded(wins: seq<Breaker.Win>): nat {
    if wins == [] then 0 else Recorded(wins[..|wins| - 1]) + |wins[|wins| - 1].sent|
  }

  lemma RecordedMore(wins: seq<Breaker.Win>, w: Breaker.Win)
    ensures Recorded(wins + [w]) == Recorded(wins) + |w.sent|
  {
    assert (wins + [w])[..|wins|] == wins;
  }

  lemma RecordedLast(wins: seq<Breaker.Win>, w: Breaker.Win)
    requires wins != []
    ensures Recorded(Breaker.SetLast(wins, w)) == Recorded(wins) - |Breaker.Last(wins).sent| + |w.sent|
  {
    assert Breaker.SetLast(wins, w)[..|wins| - 1] == wins[..|wins| - 1];
  }

  /** The breaker records one duplicate if it lets it through and none if it trips. */
  lemma FiredRecords(st: Breaker.State, now: int)
    requires Breaker.Inv(st) && !st.open && now >= st.clock && now > 0
    ensures Recorded(Breaker.Fired(st, now).wins) == Recorded(st.wins) + if Breaker.Fired(st, now).open then 0 else 1
  {
    hide Recorded;
    Breaker.RollKeeps(st, now);
    var r := Breaker.Roll(st, now);
    RecordedMore(st.wins, Breaker.Win(now, [], 0));
    if r.wins != [] {
      RecordedLast(r.wins, Breaker.Last(r.wins).(sent := Breaker.Last(r.wins).sent + [now]));
    }
  }

  /** The duplicates of a scan as steps of the torrent. */
  function Sent(moves: seq<(Peer, nat)>): seq<SwarmRuns.Event> {
    seq(|moves|, k requires 0 <= k < |moves| => SwarmRuns.HedgeTo(moves[k].0, moves[k].1))
  }

  lemma SentMore(s: Swarm.State, moves: seq<(Peer, nat)>, c: Peer, r: nat)
    requires Swarm.Inv(s)
    ensures SwarmRuns.After(s, Sent(moves + [(c, r)])) ==
            SwarmRuns.Step(SwarmRuns.After(s, Sent(moves)), SwarmRuns.HedgeTo(c, r))
  {
    var events := Sent(moves + [(c, r)]);
    assert events[..|events| - 1] == Sent(moves);
  }

  lemma SentNothing(s: Swarm.State)
    requires Swarm.Inv(s)
    ensures SwarmRuns.After(s, Sent([])) == s
  {
    assert Sent([]) == [];
  }

  lemma FromMore(st0: Breaker.State, fires: seq<Breaker.Event>, st: Breaker.State, e: Breaker.Event)
    requires st == Breaker.From(st0, fires)
    ensures Breaker.From(st0, fires + [e]) == Breaker.Step(st, e)
  {
    assert (fires + [e])[..|fires|] == fires;
  }

  /** The breaker is never tried while it is open. */
  ghost predicate Tries(st0: Breaker.State, fires: seq<Breaker.Event>) {
    forall i | 0 <= i < |fires| && fires[i].Fire? :: !Breaker.From(st0, fires[..i]).open
  }

  lemma TriesMore(st0: Breaker.State, fires: seq<Breaker.Event>, e: Breaker.Event)
    requires Tries(st0, fires) && (e.Fire? ==> !Breaker.From(st0, fires).open)
    ensures Tries(st0, fires + [e])
  {
    assert forall i | 0 <= i <= |fires| :: (fires + [e])[..i] == fires[..i];
    assert fires[..|fires|] == fires;
  }

  lemma TimerRecords(st: Breaker.State, e: Breaker.Event)
    requires !e.Fire?
    ensures Recorded(Breaker.Step(st, e).wins) == Recorded(st.wins) && Breaker.Step(st, e).trips == st.trips
    ensures Breaker.Step(st, e).open ==> st.open
  {
    if st.wins != [] {
      RecordedLast(st.wins, Breaker.Last(st.wins).(zeroed := Breaker.Last(st.wins).zeroed + 1));
    }
  }

  lemma FiredClock(st: Breaker.State, now: int)
    ensures Breaker.Fired(st, now).clock == now
  {
  }

  lemma TimerClock(st: Breaker.State, e: Breaker.Event)
    ensures Breaker.Step(st, e).clock == e.now
  {
  }

  lemma HeldBlock(s: Swarm.State, r: nat)
    requires Swarm.Inv(s) && r in s.net.holder
    ensures r in s.blocks
  {
  }

  lemma HedgeTaken(s: Swarm.State, c: Peer, r: nat)
    requires Swarm.Inv(s) && SwarmRuns.HedgeEnabled(s, c, r)
    ensures SwarmRuns.Step(s, SwarmRuns.HedgeTo(c, r)) == s.(net := Requests.Hedge(s.net, c, r))
  {
    hide Swarm.Inv, SwarmRuns.ConnStep, SwarmRuns.PieceStep, Swarm.Disallow, Requests.Hedge, Requests.Acquire;
  }

  /** What a scan has done by the time it has seen the blocks of `done`: exactly the blocks of its moves are newly
      marked, they were due and had a candidate, and unless the breaker held the scan up none such was passed over. */
  ghost predicate Swept(due: set<nat>, able: set<nat>, done: set<nat>, before: set<nat>, after: set<nat>,
                        moves: seq<(Peer, nat)>, held: bool)
  {
    && after == before + (set m | m in moves :: m.1)
    && (forall m | m in moves :: m.1 in due * able * done && m.1 !in before)
    && (forall i, j | 0 <= i < j < |moves| :: moves[i].1 != moves[j].1)
    && (!held ==> due * able * done <= after)
  }

  /** Readings of a clock, none before `from`. */
  ghost predicate Clock(times: seq<int>, from: int) {
    && (forall k | 0 <= k < |times| :: times[k] >= from && times[k] > 0)
    && (forall j, k | 0 <= j <= k < |times| :: times[j] <= times[k])
  }

  lemma Tick(times: seq<int>, from: int, k: nat)
    requires Clock(times, from) && k < |times|
    ensures times[k] >= from && times[k] > 0 && (k + 1 < |times| ==> times[k] <= times[k + 1])
  {
  }

  function Count(s: set<nat>): nat {
    |s|
  }

  /** The blocks of a scan: those done and those left. */
  ghost predicate Split(done: set<nat>, left: set<nat>, all: set<nat>) {
    done !! left && done + left == all
  }

  lemma SplitLess(done: set<nat>, left: set<nat>, all: set<nat>, r: nat)
    requires Split(done, left, all) && r in left
    ensures r !in done && r in all && Split(done + {r}, left - {r}, all) && Count(left - {r}) == Count(left) - 1
  {
    assert left == (left - {r}) + {r};
  }

  lemma SplitBounds(done: set<nat>, left: set<nat>, all: set<nat>)
    requires Split(done, left, all)
    ensures done <= all && (left == {} ==> done == all)
  {
  }

  /** Two sets agree on the blocks of a third. */
  ghost predicate Same(a: set<nat>, b: set<nat>, on: set<nat>) {
    forall r | r in on :: r in a <==> r in b
  }

  lemma SameLess(a: set<nat>, b: set<nat>, on: set<nat>, r: nat)
    requires Same(a, b, on) && r in on
    ensures (r in a <==> r in b) && Same(a, b, on - {r}) && Same(a - {r}, b, on - {r})
  {
  }

  lemma SweptStopped(due: set<nat>, able: set<nat>, done: set<nat>, all: set<nat>, before: set<nat>, after: set<nat>,
                     moves: seq<(Peer, nat)>)
    requires Swept(due, able, done, before, after, moves, true) && done <= all
    ensures Swept(due, able, all, before, after, moves, true)
  {
  }

  lemma SweptPast(due: set<nat>, able: set<nat>, done: set<nat>, before: set<nat>, after: set<nat>,
                  moves: seq<(Peer, nat)>, r: nat, held: bool, held': bool)
    requires Swept(due, able, done, before, after, moves, held) && (held ==> held') && (!held' ==> r !in due * able)
    ensures Swept(due, able, done + {r}, before, after, moves, held')
  {
  }

  lemma SweptSent(due: set<nat>, able: set<nat>, done: set<nat>, before: set<nat>, after: set<nat>,
                  moves: seq<(Peer, nat)>, c: Peer, r: nat, held: bool, held': bool)
    requires Swept(due, able, done, before, after, moves, held) && (held ==> held')
    requires r in due * able && r !in done && r !in before
    ensures Swept(due, able, done + {r}, before, after + {r}, moves + [(c, r)], held')
  {
    var moves' := moves + [(c, r)];
    assert forall m :: m in moves' <==> m in moves || m == (c, r);
    assert (set m | m in moves' :: m.1) == (set m | m in moves :: m.1) + {r};
    assert forall i | 0 <= i < |moves| :: moves[i] in moves;
  }

  /** The breaker was open in st0 or has tripped since. */
  predicate Held(st0: Breaker.State, st: Breaker.State) {
    st0.open || st.trips != st0.trips
  }

  /** A scan as a whole, from torrent s0 and breaker st0 to s and st: its duplicates are steps of the torrent, its tries
      and the timer's writes events of the breaker, never tried while open, and each duplicate is one entry of its
      record. */
  ghost predicate Scanned(s0: Swarm.State, st0: Breaker.State, s: Swarm.State, st: Breaker.State, due: set<nat>,
                          able: set<nat>, done: set<nat>, moves: seq<(Peer, nat)>, fires: seq<Breaker.Event>)
    requires Swarm.Inv(s0)
  {
    && s == SwarmRuns.After(s0, Sent(moves))
    && st == Breaker.From(st0, fires) && Tries(st0, fires) && st0.trips <= st.trips && (st.open ==> Held(st0, st))
    && Recorded(st.wins) == Recorded(st0.wins) + |moves|
    && Swept(due, able, done, s0.net.hedged, s.net.hedged, moves, Held(st0, st))
  }

  /** One turn of the scan: block r is hedged through c, tried and refused by the breaker, or passed over. */
  ghost predicate Turn(s: Swarm.State, st: Breaker.State, s': Swarm.State, st': Breaker.State, wanted: bool, c: Peer?,
                       r: nat, now: int, sent: bool)
    requires Swarm.Inv(s)
  {
    && st' == (if c == null then st else Breaker.Fired(st, now))
    && (!sent ==> s' == s)
    && (sent ==> c != null && wanted && s' == SwarmRuns.Step(s, SwarmRuns.HedgeTo(c, r)))
    && (sent ==> s'.net.hedged == s.net.hedged + {r})
    && (!st'.open && wanted ==> sent)
    && Recorded(st'.wins) == Recorded(st.wins) + if sent then 1 else 0
  }

  lemma TurnClock(s: Swarm.State, st: Breaker.State, s': Swarm.State, st': Breaker.State, wanted: bool, c: Peer?,
                  r: nat, now: int, sent: bool)
    requires Swarm.Inv(s) && Turn(s, st, s', st', wanted, c, r, now, sent) && st.clock <= now
    ensures st'.clock <= now
  {
    hide Swarm.Inv, SwarmRuns.Step;
    FiredClock(st, now);
  }

  lemma ScannedNothing(s: Swarm.State, st: Breaker.State, due: set<nat>, able: set<nat>)
    requires Swarm.Inv(s)
    ensures Scanned(s, st, s, st, due, able, {}, [], [])
  {
    hide Swarm.Inv, SwarmRuns.After, SwarmRuns.Step, Recorded;
    SentNothing(s);
    assert Breaker.From(st, []) == st;
  }

  lemma ScannedOn(s0: Swarm.State, st0: Breaker.State, s: Swarm.State, st: Breaker.State, due: set<nat>, able: set<nat>,
                  done: set<nat>, moves: seq<(Peer, nat)>, fires: seq<Breaker.Event>, s': Swarm.State,
                  st': Breaker.State, c: Peer?, r: nat, now: int, sent: bool)
    returns (moves': seq<(Peer, nat)>, fires': seq<Breaker.Event>)
    requires Swarm.Inv(s0) && Swarm.Inv(s) && Scanned(s0, st0, s, st, due, able, done, moves, fires)
    requires !st.open && r !in done && due !! s0.net.hedged
    requires Turn(s, st, s', st', r in due * able, c, r, now, sent)
    ensures moves' == if sent then moves + [(c, r)] else moves
    ensures Scanned(s0, st0, s', st', due, able, done + {r}, moves', fires')
  {
    hide Swarm.Inv, SwarmRuns.After, SwarmRuns.Step, Recorded, Breaker.From, Breaker.Fired, Swept, Tries;
    moves', fires' := moves, fires;
    if c != null {
      FromMore(st0, fires, st, Breaker.Fire(now));
      TriesMore(st0, fires, Breaker.Fire(now));
      FiredTrips(st, now);
      fires' := fires + [Breaker.Fire(now)];
    }
    if sent {
      SweptSent(due, able, done, s0.net.hedged, s.net.hedged, moves, c, r, Held(st0, st), Held(st0, st'));
      SentMore(s0, moves, c, r);
      moves' := moves + [(c, r)];
    } else {
      SweptPast(due, able, done, s0.net.hedged, s.net.hedged, moves, r, Held(st0, st), Held(st0, st'));
    }
  }

  lemma FiredTrips(st: Breaker.State, now: int)
    requires !st.open
    ensures st.trips <= Breaker.Fired(st, now).trips
    ensures Breaker.Fired(st, now).trips != st.trips <==> Breaker.Fired(st, now).open
    ensures Breaker.Step(st, Breaker.Fire(now)) == Breaker.Fired(st, now)
  {
  }

  /** The timer's writes between two turns change no record of what was sent and of trips. */
  lemma ScannedTimer(s0: Swarm.State, st0: Breaker.State, s: Swarm.State, st: Breaker.State, due: set<nat>,
                     able: set<nat>, done: set<nat>, moves: seq<(Peer, nat)>, fires: seq<Breaker.Event>,
                     e: Breaker.Event)
    requires Swarm.Inv(s0) && Scanned(s0, st0, s, st, due, able, done, moves, fires) && !e.Fire?
    ensures Scanned(s0, st0, s, Breaker.Step(st, e), due, able, done, moves, fires + [e])
  {
    hide Swarm.Inv, SwarmRuns.After, SwarmRuns.Step, Recorded, Breaker.From, Tries;
    FromMore(st0, fires, st, e);
    TriesMore(st0, fires, e);
    TimerRecords(st, e);
  }

  lemma ScannedStopped(s0: Swarm.State, st0: Breaker.State, s: Swarm.State, st: Breaker.State, due: set<nat>,
                       able: set<nat>, done: set<nat>, all: set<nat>, moves: seq<(Peer, nat)>,
                       fires: seq<Breaker.Event>)
    requires Swarm.Inv(s0) && Scanned(s0, st0, s, st, due, able, done, moves, fires) && st.open && done <= all
    ensures Scanned(s0, st0, s, st, due, able, all, moves, fires)
  {
    hide Swarm.Inv, SwarmRuns.After, Recorded, Breaker.From, Swept, Tries;
    SweptStopped(due, able, done, all, s0.net.hedged, s.net.hedged, moves);
  }

  /** A torrent's hedging: its requests and its breaker. */
  class Hedger {
    const t: Torrent
    const breaker: Breaker.HedgeBreaker

    constructor (t: Torrent, breaker: Breaker.HedgeBreaker)
      ensures this.t == t && this.breaker == breaker
    {
      this.t, this.breaker := t, breaker;
    }

    ghost predicate Valid()
      reads this, t, t.conns, breaker
    {
      t.Valid() && Breaker.Inv(breaker.View())
    }

    /** Connection p could be asked for a second copy of block r. */
    predicate Eligible(p: Peer, r: nat)
      reads t`conns, t`requestState, p`has
      requires t.layout.Valid()
    {
      p in t.conns && r in t.requestState && p != t.requestState[r] && t.layout.PieceOf(r) in p.has
    }

    /** The connection other than the holder that has the piece and was useful last, or none. */
    method Candidate(r: nat, last: map<Peer, int>) returns (c: Peer?)
      requires t.Valid() && r in t.requestState && t.conns <= last.Keys
      ensures c == null <==> forall p | p in t.conns :: !Eligible(p, r)
      ensures c != null ==> Eligible(c, r) && forall p | p in t.conns && Eligible(p, r) :: last[p] <= last[c]
    {
      hide Swarm.Inv, BlocksOf;
      c := null;
      var left := t.conns;
      while left != {}
        invariant left <= t.conns
        invariant c == null ==> forall p | p in t.conns - left :: !Eligible(p, r)
        invariant c != null ==> Eligible(c, r) && forall p | p in t.conns - left && Eligible(p, r) :: last[p] <= last[c]
      {
        var p :| p in left;
        if p != t.requestState[r] && t.layout.PieceOf(r) in p.has {
          if c == null || last[p] > last[c] {
            c := p;
          }
        }
        left := left - {p};
      }
      assert c != null ==> c in t.conns;
    }

    /** fireHedge: without a candidate nothing happens, with one the breaker decides, and the block is marked and asked
        of the candidate exactly when the breaker lets it through. */
    method Fire(r: nat, last: map<Peer, int>, now: int) returns (c: Peer?, sent: bool)
      requires Valid() && !breaker.open && now >= breaker.clock && now > 0
      requires r in t.requestState && r !in t.hedgedRequests && t.conns <= last.Keys
      modifies t`hedgedRequests, t`hedges, t.conns`expected, breaker
      ensures Valid()
      ensures c == null <==> forall p | p in t.conns :: !Eligible(p, r)
      ensures c == null ==> !sent && breaker.View() == old(breaker.View())
      ensures c != null ==> c in t.conns && Eligible(c, r) && breaker.View() == Breaker.Fired(old(breaker.View()), now)
      ensures c != null ==> (sent <==> !breaker.open)
      ensures !sent ==> t.View() == old(t.View()) && t.hedgedRequests == old(t.hedgedRequests)
      ensures sent ==> c != null && SwarmRuns.HedgeEnabled(old(t.View()), c, r)
      ensures sent ==> t.View() == SwarmRuns.Step(old(t.View()), SwarmRuns.HedgeTo(c, r))
      ensures sent ==> t.hedgedRequests == old(t.hedgedRequests) + {r}
      ensures Recorded(breaker.wins) == old(Recorded(breaker.wins)) + if sent then 1 else 0
    {
      hide Swarm.Inv, BlocksOf, Breaker.Inv, Breaker.Fired, Recorded, Layout.PieceOf, Layout.ValidIndex, SwarmRuns.Step,
        SwarmRuns.HedgeEnabled, Requests.Hedge, Torrent.PeersView;
      c := Candidate(r, last);
      sent := false;
      if c != null {
        FiredRecords(breaker.View(), now);
        HedgeStep(c, r);
        sent := breaker.Allow(now);
        if sent {
          t.FireHedge(c, r);
        }
        assert c in t.conns && Eligible(c, r);
      }
    }

    /** The scan would hedge block r: it lies in the region, has waited too long and has not been hedged. */
    predicate Due(r: nat, begin: nat, end: nat, late: set<nat>)
      reads t`requestState, t`hedgedRequests
      requires t.layout.Valid()
    {
      r in t.requestState && r !in t.hedgedRequests && begin <= t.layout.PieceOf(r) < end && r in late
    }

    /** Some connection could be asked for a second copy of block r. */
    ghost predicate Able(r: nat)
      reads t`conns, t`requestState, t.conns`has
      requires t.layout.Valid()
    {
      exists p | p in t.conns :: Eligible(p, r)
    }

    ghost function DueSet(begin: nat, end: nat, late: set<nat>): set<nat>
      reads t`requestState, t`hedgedRequests
      requires t.layout.Valid()
    {
      set r | r in t.requestState && Due(r, begin, end, late)
    }

    ghost function AbleSet(): set<nat>
      reads t`conns, t`requestState, t.conns`has
      requires t.layout.Valid()
    {
      set r | r in t.requestState && Able(r)
    }

    /** One turn of the scan. */
    method Visit(r: nat, begin: nat, end: nat, late: set<nat>, last: map<Peer, int>, now: int)
      returns (c: Peer?, sent: bool)
      requires Valid() && !breaker.open && now >= breaker.clock && now > 0 && r in t.requestState
               && t.conns <= last.Keys
      modifies t`hedgedRequests, t`hedges, t.conns`expected, breaker
      ensures Valid() && AbleSet() == old(AbleSet())
      ensures Turn(old(t.View()), old(breaker.View()), t.View(), breaker.View(),
                   r in AbleSet() && r in old(DueSet(begin, end, late)), c, r, now, sent)
      ensures sent ==> c in t.conns && Eligible(c, r)
      ensures DueSet(begin, end, late) == old(DueSet(begin, end, late)) - if sent then {r} else {}
    {
      hide Swarm.Inv, BlocksOf, Breaker.Inv, Breaker.Fired, Recorded, Layout.PieceOf, Layout.ValidIndex, SwarmRuns.Step,
        SwarmRuns.HedgeEnabled, Torrent.PeersView, Eligible;
      c, sent := null, false;
      if r !in t.hedgedRequests {
        var i := t.layout.PieceOf(r);
        if begin <= i < end && r in late {
          c, sent := Fire(r, last, now);
        }
      }
    }

    /** Every duplicate went to a connection that may get it. */
    ghost predicate Targeted(moves: seq<(Peer, nat)>)
      reads t`conns, t`requestState, t.conns`has
      requires t.layout.Valid()
    {
      forall m | m in moves :: m.0 in t.conns && Eligible(m.0, m.1)
    }

    /** The breaker's timer, if it is due, makes its next write. */
    method TimerWrite(now: int, ghost s0: Swarm.State, ghost st0: Breaker.State, ghost due: set<nat>,
                      ghost done: set<nat>, ghost moves: seq<(Peer, nat)>, ghost fires: seq<Breaker.Event>)
      returns (ghost fires': seq<Breaker.Event>)
      requires Valid() && now >= breaker.clock && now > 0 && Swarm.Inv(s0)
      requires Scanned(s0, st0, t.View(), breaker.View(), due, AbleSet(), done, moves, fires)
      modifies breaker
      ensures Valid() && breaker.clock <= now
      ensures Scanned(s0, st0, t.View(), breaker.View(), due, AbleSet(), done, moves, fires')
    {
      hide Swarm.Inv, BlocksOf, Breaker.Inv, Breaker.Step, Torrent.PeersView, AbleSet, Scanned;
      ghost var s, st, able := t.View(), breaker.View(), AbleSet();
      fires' := fires;
      if breaker.open {
        if now >= breaker.due {
          breaker.Reopen(now);
          ScannedTimer(s0, st0, s, st, due, able, done, moves, fires, Breaker.TimerOpens(now));
          fires' := fires + [Breaker.TimerOpens(now)];
          TimerClock(st, Breaker.TimerOpens(now));
        }
      } else if breaker.zeroes > 0 {
        breaker.ZeroCount(now);
        ScannedTimer(s0, st0, s, st, due, able, done, moves, fires, Breaker.TimerZeroes(now));
        fires' := fires + [Breaker.TimerZeroes(now)];
        TimerClock(st, Breaker.TimerZeroes(now));
      }
    }

    /** As many of its writes as it gets to make. */
    method Timer(writes: nat, now: int, ghost s0: Swarm.State, ghost st0: Breaker.State, ghost due: set<nat>,
                 ghost done: set<nat>, ghost moves: seq<(Peer, nat)>, ghost fires: seq<Breaker.Event>)
      returns (ghost fires': seq<Breaker.Event>)
      requires Valid() && now >= breaker.clock && now > 0 && Swarm.Inv(s0)
      requires Scanned(s0, st0, t.View(), breaker.View(), due, AbleSet(), done, moves, fires)
      modifies breaker
      ensures Valid() && breaker.clock <= now && AbleSet() == old(AbleSet())
      ensures Scanned(s0, st0, t.View(), breaker.View(), due, AbleSet(), done, moves, fires')
    {
      hide Swarm.Inv, BlocksOf, Breaker.Inv, Torrent.PeersView, AbleSet, Scanned;
      fires' := fires;
      for w := 0 to writes
        invariant Valid() && breaker.clock <= now
        invariant Scanned(s0, st0, t.View(), breaker.View(), due, AbleSet(), done, moves, fires')
      {
        fires' := TimerWrite(now, s0, st0, due, done, moves, fires');
      }
    }

    /** A turn in a scan that began in s0 and st0. */
    method Advance(r: nat, begin: nat, end: nat, late: set<nat>, last: map<Peer, int>, now: int, ghost s0: Swarm.State,
                   ghost st0: Breaker.State, ghost due: set<nat>, ghost done: set<nat>, ghost moves: seq<(Peer, nat)>,
                   ghost fires: seq<Breaker.Event>)
      returns (ghost moves': seq<(Peer, nat)>, ghost fires': seq<Breaker.Event>)
      requires Valid() && !breaker.open && now >= breaker.clock && now > 0 && r in t.requestState
               && t.conns <= last.Keys
      requires Swarm.Inv(s0) && due !! s0.net.hedged && r !in done && Targeted(moves)
      requires r in DueSet(begin, end, late) <==> r in due
      requires Scanned(s0, st0, t.View(), breaker.View(), due, AbleSet(), done, moves, fires)
      modifies t`hedgedRequests, t`hedges, t.conns`expected, breaker
      ensures Valid() && AbleSet() == old(AbleSet()) && Targeted(moves') && breaker.clock <= now
      ensures DueSet(begin, end, late) in {old(DueSet(begin, end, late)), old(DueSet(begin, end, late)) - {r}}
      ensures Scanned(s0, st0, t.View(), breaker.View(), due, AbleSet(), done + {r}, moves', fires')
    {
      hide Swarm.Inv, BlocksOf, Breaker.Inv, Breaker.Fired, Layout.PieceOf, Layout.ValidIndex, Torrent.PeersView,
        DueSet, AbleSet, Scanned, Turn;
      ghost var s, st, able := t.View(), breaker.View(), AbleSet();
      var c, sent := Visit(r, begin, end, late, last, now);
      assert !sent ==> DueSet(begin, end, late) == old(DueSet(begin, end, late));
      TurnClock(s, st, t.View(), breaker.View(), r in due * able, c, r, now, sent);
      moves', fires' := ScannedOn(s0, st0, s, st, due, able, done, moves, fires, t.View(), breaker.View(), c, r, now,
                                  sent);
    }

    /** A turn of the scan with what the timer does before it; `stop` says the breaker was found open. */
    method TurnOrStop(r: nat, begin: nat, end: nat, late: set<nat>, last: map<Peer, int>, now: int, writes: nat,
                      ghost s0: Swarm.State, ghost st0: Breaker.State, ghost due: set<nat>, ghost done: set<nat>,
                      ghost left: set<nat>, ghost moves: seq<(Peer, nat)>, ghost fires: seq<Breaker.Event>)
      returns (stop: bool, ghost moves': seq<(Peer, nat)>, ghost fires': seq<Breaker.Event>)
      requires Valid() && now >= breaker.clock && now > 0 && t.conns <= last.Keys && Targeted(moves)
      requires Swarm.Inv(s0) && due !! s0.net.hedged
      requires Split(done, left, t.requestState.Keys) && r in left && Same(DueSet(begin, end, late), due, left)
      requires Scanned(s0, st0, t.View(), breaker.View(), due, AbleSet(), done, moves, fires)
      modifies t`hedgedRequests, t`hedges, t.conns`expected, breaker
      ensures Valid() && AbleSet() == old(AbleSet()) && Targeted(moves') && breaker.clock <= now
      ensures !stop ==> Same(DueSet(begin, end, late), due, left - {r})
      ensures Scanned(s0, st0, t.View(), breaker.View(), due, AbleSet(),
                      if stop then t.requestState.Keys else done + {r}, moves', fires')
    {
      hide Swarm.Inv, BlocksOf, Breaker.Inv, Layout.PieceOf, Layout.ValidIndex, Torrent.PeersView, DueSet, AbleSet,
        Scanned, Eligible, Targeted, Same, Split;
      SplitLess(done, left, t.requestState.Keys, r);
      SplitBounds(done, left, t.requestState.Keys);
      SameLess(DueSet(begin, end, late), due, left, r);
      moves' := moves;
      fires' := Timer(writes, now, s0, st0, due, done, moves, fires);
      stop := breaker.open;
      if stop {
        ScannedStopped(s0, st0, t.View(), breaker.View(), due, AbleSet(), done, t.requestState.Keys, moves', fires');
      } else {
        moves', fires' := Advance(r, begin, end, late, last, now, s0, st0, due, done, moves, fires');
      }
    }

    /** Where a scan starts: nothing done, nothing sent. */
    lemma ScanStarts(begin: nat, end: nat, late: set<nat>, times: seq<int>)
      requires t.layout.Valid() && Clock(times, breaker.clock)
      ensures var due, all := DueSet(begin, end, late), t.requestState.Keys;
              && due !! t.hedgedRequests && Targeted([]) && Same(due, due, all) && Split({}, all, all)
              && (|times| > 0 ==> times[0] >= breaker.clock)
    {
    }

    /** checkAndFireHedges over the pieces [begin, end): `late` are the requests past their latency threshold, `times`
        the readings of the clock and timer(k) how many writes the breaker's timer gets to make before turn k. It stops
        when it finds the breaker open; if the breaker was closed and does not trip every due block that has a candidate
        is hedged. Each duplicate is one step of the torrent and one entry of the breaker's record. */
    method Scan(begin: nat, end: nat, late: set<nat>, last: map<Peer, int>, times: seq<int>, timer: nat -> nat)
      returns (ghost moves: seq<(Peer, nat)>, ghost fires: seq<Breaker.Event>)
      requires Valid() && t.conns <= last.Keys && |times| == Count(t.requestState.Keys)
      requires Clock(times, breaker.clock)
      modifies t`hedgedRequests, t`hedges, t.conns`expected, breaker
      ensures Valid() && Targeted(moves)
      ensures Scanned(old(t.View()), old(breaker.View()), t.View(), breaker.View(), old(DueSet(begin, end, late)),
                      AbleSet(), t.requestState.Keys, moves, fires)
    {
      hide Swarm.Inv, BlocksOf, Breaker.Inv, Layout.PieceOf, Layout.ValidIndex, Torrent.PeersView, DueSet, AbleSet,
        Scanned, Eligible, Same, Targeted, Clock, Split, Count;
      moves, fires := [], [];
      ghost var due, s0, st0 := DueSet(begin, end, late), t.View(), breaker.View();
      ScannedNothing(s0, st0, due, AbleSet());
      ScanStarts(begin, end, late, times);
      var left, k, stop := t.requestState.Keys, 0, false;
      ghost var done: set<nat> := {};
      while left != {} && !stop
        invariant Valid() && Targeted(moves) && k + Count(left) == |times|
        invariant k < |times| ==> breaker.clock <= times[k]
        invariant !stop ==> Split(done, left, t.requestState.Keys) && Same(DueSet(begin, end, late), due, left)
        invariant Scanned(s0, st0, t.View(), breaker.View(), due, AbleSet(), if stop then t.requestState.Keys else done,
                          moves, fires)
        decreases left
      {
        var r :| r in left;
        SplitLess(done, left, t.requestState.Keys, r);
        Tick(times, old(breaker.clock), k);
        stop, moves, fires :=
          TurnOrStop(r, begin, end, late, last, times[k], timer(k), s0, st0, due, done, left, moves, fires);
        left, done, k := left - {r}, done + {r}, k + 1;
      }
      if !stop {
        SplitBounds(done, left, t.requestState.Keys);
      }
    }

    lemma HedgeStep(c: Peer, r: nat)
      requires t.Valid() && Eligible(c, r) && r !in t.hedgedRequests
      ensures SwarmRuns.HedgeEnabled(t.View(), c, r) && c in t.NetView().peers
      ensures SwarmRuns.Step(t.View(), SwarmRuns.HedgeTo(c, r)) ==
              t.View().(net := Requests.Hedge(t.NetView(), c, r))
    {
      hide Swarm.Inv, BlocksOf, Layout.PieceOf, Layout.ValidIndex, SwarmRuns.Step, Requests.Hedge, Torrent.PeersView;
      t.PeerInView(c);
      HeldBlock(t.View(), r);
      BlocksOfLayout(t.layout, r);
      HedgeTaken(t.View(), c, r);
    }
  }
}
