/** The request bookkeeping one connection keeps about its remote peer (peer.go). */
module Peers {

  /** A snapshot of a Peer. `fast` is BEP 6 support, `acksCancels` whether the remote answers a
      Cancel with a Reject, `expected` is validReceiveChunks, `choking` is the remote choking us and
      `has` the pieces the remote is known to have. */
  datatype PeerState = PeerState(
    fast: bool,
    acksCancels: bool,
    requests: set<nat>,
    cancelled: set<nat>,
    expected: map<nat, nat>,
    choking: bool,
    closed: bool,
    has: set<nat>)
  {
    /** What every handler keeps about one connection. */
    ghost predicate Valid() {
      && (acksCancels ==> fast)
      && requests !! cancelled
      && (!acksCancels ==> cancelled == {})
      && (!fast && choking ==> requests == {})
      && (forall r | r in expected :: expected[r] > 0)
      && requests + cancelled <= expected.Keys
    }

    function Expects(r: nat): nat {
      if r in expected then expected[r] else 0
    }

    function Expect(r: nat): PeerState {
      this.(expected := expected[r := Expects(r) + 1])
    }

    /** decExpectedChunkReceive; the code panics on a count below one. */
    function Unexpect(r: nat): PeerState
      requires Expects(r) >= 1
    {
      this.(expected := if expected[r] == 1 then expected - {r} else expected[r := expected[r] - 1])
    }

    /** Outstanding requests in `rs` are cancelled; the ones whose acknowledgement will come are
        remembered. */
    function Cancel(rs: set<nat>): PeerState {
      this.(requests := requests - rs,
            cancelled := if acksCancels then cancelled + requests * rs else cancelled)
    }

    function Forget(rs: set<nat>): PeerState {
      this.(requests := requests - rs)
    }

    /** An answer to `r` arrived: it settles the outstanding request or else the pending cancel. */
    function Settle(r: nat): PeerState
      requires Expects(r) >= 1
    {
      var p := Unexpect(r);
      if r in requests then p.(requests := requests - {r}) else p.(cancelled := cancelled - {r})
    }
  }

  function NewPeer(fast: bool, acksCancels: bool): PeerState {
    PeerState(fast, acksCancels, {}, {}, map[], true, false, {})
  }

  /** The expected count covers the outstanding request and the unacknowledged cancel of a block. */
  lemma ExpectsBoth(p: PeerState, r: nat)
    requires p.Valid()
    ensures p.Expects(r) >= (if r in p.requests then 1 else 0) + (if r in p.cancelled then 1 else 0)
  {
    assert r in p.requests + p.cancelled ==> r in p.expected.Keys;
  }

  lemma SettleKeeps(p: PeerState, r: nat)
    requires p.Valid() && p.Expects(r) >= 1
    ensures p.Settle(r).Valid()
  {
  }

  lemma CancelKeeps(p: PeerState, rs: set<nat>)
    requires p.Valid()
    ensures p.Cancel(rs).Valid() && p.Forget(rs).Valid()
  {
  }

  lemma ExpectKeeps(p: PeerState, r: nat)
    requires p.Valid()
    ensures p.Expect(r).Valid()
    ensures r !in p.cancelled && (p.choking ==> p.fast) ==> p.Expect(r).(requests := p.requests + {r}).Valid()
  {
  }

  class Peer {
    const fast: bool
    const acksCancels: bool
    var requests: set<nat>
    var cancelled: set<nat>
    var expected: map<nat, nat>
    var choking: bool
    var closed: bool
    var has: set<nat>

    ghost function View(): PeerState
      reads this
    {
      PeerState(fast, acksCancels, requests, cancelled, expected, choking, closed, has)
    }

    constructor (fast: bool, acksCancels: bool)
      ensures View() == NewPeer(fast, acksCancels)
    {
      this.fast, this.acksCancels := fast, acksCancels;
      requests, cancelled, expected, has := {}, {}, map[], {};
      choking, closed := true, false;
    }

    method DecExpectedChunkReceive(r: nat)
      requires View().Expects(r) >= 1
      modifies this`expected
      ensures View() == old(View()).Unexpect(r)
    {
      var count := if r in expected then expected[r] else 0;
      if count == 1 {
        expected := expected - {r};
      } else if count > 1 {
        expected := expected[r := count - 1];
      } else {
        assert false;  // the code panics here
      }
    }

    method IncExpectedChunkReceive(r: nat)
      modifies this`expected
      ensures View() == old(View()).Expect(r)
    {
      expected := expected[r := (if r in expected then expected[r] else 0) + 1];
    }
  }
}
