/** When one peer may take a block another peer was asked for (steal-request-grace.go), and why
    taking cannot go on forever. */
module Stealing {
  import opened Wrappers
  import opened Layouts
  import opened Peers
  import opened Requests

  /** What caused a request update. */
  datatype Reason = AfterCancel | AfterReject | Otherwise

  const GRACE_MIN: int := 250
  const GRACE_MAX: int := 1000

  function ClampPeerGrace(d: int): int {
    if d < GRACE_MIN then GRACE_MIN else if d > GRACE_MAX then GRACE_MAX else d
  }

  /** peerStealGrace: `configured` is the configured grace and `mean` the holder's mean latency once
      it has enough samples, in milliseconds. */
  function PeerStealGrace(configured: int, mean: Option<int>, urgent: bool): int {
    if configured <= 0 then 0
    else
      var grace := if mean.Some? then ClampPeerGrace(mean.value) else configured;
      if urgent && grace > GRACE_MIN then GRACE_MIN else grace
  }

  /** The measured grace never undercuts the configured one exactly when the configured one is no
      longer than the fixed minimum it is clamped to. */
  lemma GraceOnlyGrows(configured: int)
    requires configured > 0
    ensures (forall mean: Option<int>, urgent: bool :: PeerStealGrace(configured, mean, urgent) >= configured)
      <==> configured <= GRACE_MIN
  {
    assert PeerStealGrace(configured, Some(0), false) == GRACE_MIN;
  }

  /** Without a grace there is none. With one, a holder that has been measured gets its mean latency, within the fixed
      bounds, and any other holder the configured grace; an urgent block cuts it to the minimum, never above what it
      would be. */
  lemma GraceExact(configured: int, mean: Option<int>)
    ensures configured <= 0 ==> forall urgent: bool :: PeerStealGrace(configured, mean, urgent) == 0
    ensures configured > 0 ==>
              var calm, hurried := PeerStealGrace(configured, mean, false), PeerStealGrace(configured, mean, true);
              && (mean.None? ==> calm == configured)
              && (mean.Some? ==> GRACE_MIN <= calm <= GRACE_MAX
                                 && (GRACE_MIN <= mean.value <= GRACE_MAX ==> calm == mean.value)
                                 && (calm > mean.value ==> calm == GRACE_MIN)
                                 && (calm < mean.value ==> calm == GRACE_MAX))
              && hurried <= calm && hurried <= GRACE_MIN && (hurried == calm || hurried == GRACE_MIN)
  {
  }

  /** stealPermitted: `diff` is the taker's queue after the steal minus the holder's. */
  predicate StealPermitted(reason: Reason, diff: int, takerLast: int, holderLast: int, graceElapsed: bool) {
    && reason != AfterCancel
    && !(diff > 1 || (diff == 1 && !(takerLast > holderLast)))
    && graceElapsed
  }

  // ---- sums over connections ----

  /** Multiplication, by name: the lemmas below keep it apart from the sums. */
  function Mul(a: int, b: int): int {
    a * b
  }

  ghost function Sum(m: map<Peer, int>): int
    decreases m.Keys
  {
    if m == map[] then 0
    else
      var p :| p in m;
      m[p] + Sum(m - {p})
  }

  lemma {:induction false} SumSplit(m: map<Peer, int>, q: Peer)
    requires q in m
    ensures Sum(m) == m[q] + Sum(m - {q})
    decreases m.Keys
  {
    var p :| p in m && Sum(m) == m[p] + Sum(m - {p});
    if p != q {
      SumSplit(m - {p}, q);
      SumSplit(m - {q}, p);
      assert m - {p} - {q} == m - {q} - {p};
    }
  }

  lemma SumUpdate(m: map<Peer, int>, q: Peer, v: int)
    requires q in m
    ensures Sum(m[q := v]) == Sum(m) - m[q] + v
  {
    SumSplit(m, q);
    SumSplit(m[q := v], q);
    assert m[q := v] - {q} == m - {q};
  }

  // ---- the measure ----

  function Size(n: Net, p: Peer): nat
    requires p in n.peers
  {
    |n.peers[p].requests|
  }

  function Sizes(n: Net): map<Peer, int> {
    map p | p in n.peers :: Size(n, p)
  }

  function Squares(n: Net): map<Peer, int> {
    map p | p in n.peers :: Mul(Size(n, p), Size(n, p))
  }

  /** Queue sizes weighted with when the peer last sent something useful. */
  function Recencies(n: Net, last: map<Peer, int>): map<Peer, int>
    requires n.peers.Keys <= last.Keys
  {
    map p | p in n.peers :: Mul(Size(n, p), last[p])
  }

  /** One steal: p takes r from its holder under the rule of stealPermitted. */
  ghost predicate Steals(n: Net, p: Peer, r: nat, last: map<Peer, int>, n': Net) {
    && Owned(n) && p in n.peers && r in n.holder && n.holder[r] != p
    && n.peers.Keys <= last.Keys
    && n' == Acquire(n, p, r)
    && var h := n.holder[r];
       StealPermitted(Otherwise, Size(n, p) + 1 - (Size(n, h) - 1), last[p], last[h], true)
  }

  /** What a steal makes of each queue. */
  lemma StolenQueue(n: Net, p: Peer, r: nat, q: Peer)
    requires Owned(n) && p in n.peers && r in n.holder && n.holder[r] != p && q in n.peers
    ensures q in Acquire(n, p, r).peers
    ensures Acquire(n, p, r).peers[q].requests ==
            if q == p then n.peers[p].requests + {r} else n.peers[q].requests - {r}
    ensures r in n.peers[q].requests <==> q == n.holder[r]
  {
  }

  lemma StealKeys(n: Net, p: Peer, r: nat)
    requires p in n.peers
    ensures Acquire(n, p, r).peers.Keys == n.peers.Keys
  {
  }

  lemma StealSizes(n: Net, p: Peer, r: nat)
    requires Owned(n) && p in n.peers && r in n.holder && n.holder[r] != p
    ensures var n' := Acquire(n, p, r); var h := n.holder[r];
            && h in n.peers && n'.peers.Keys == n.peers.Keys
            && Size(n, h) >= 1
            && Size(n', p) == Size(n, p) + 1 && Size(n', h) == Size(n, h) - 1
            && forall q | q in n.peers && q != p && q != h :: Size(n', q) == Size(n, q)
  {
    var n', h := Acquire(n, p, r), n.holder[r];
    assert h in n.peers;
    hide Acquire;
    StealKeys(n, p, r);
    StolenQueue(n, p, r, p);
    StolenQueue(n, p, r, h);
    forall q | q in n.peers && q != p && q != h
      ensures Size(n', q) == Size(n, q)
    {
      StolenQueue(n, p, r, q);
      assert n.peers[q].requests - {r} == n.peers[q].requests;
    }
  }

  /** Every steal makes the queues more even, or keeps them as even and moves a block to a peer that
      was useful more recently. */
  lemma StealProgress(n: Net, p: Peer, r: nat, last: map<Peer, int>, n': Net)
    requires Steals(n, p, r, last, n')
    ensures n'.peers.Keys == n.peers.Keys && Sum(Sizes(n')) == Sum(Sizes(n))
    ensures Sum(Squares(n')) < Sum(Squares(n))
         || (Sum(Squares(n')) == Sum(Squares(n)) && Sum(Recencies(n', last)) > Sum(Recencies(n, last)))
  {
    hide Acquire, Owned, Sum, Sizes, Squares, Recencies;
    StealSizes(n, p, r);
    MoveSums(n, n', p, n.holder[r], last);
  }

  /** The rule is exact: a block another peer holds may be taken iff no cancel caused the update, its grace is over and
      taking it makes the queues more even, or leaves them as even and moves it to a peer useful more recently. */
  lemma StealIff(n: Net, p: Peer, r: nat, last: map<Peer, int>, reason: Reason, elapsed: bool)
    requires Owned(n) && p in n.peers && r in n.holder && n.holder[r] != p && n.peers.Keys <= last.Keys
    ensures var n', h := Acquire(n, p, r), n.holder[r];
            && n'.peers.Keys == n.peers.Keys
            && (StealPermitted(reason, Size(n, p) + 1 - (Size(n, h) - 1), last[p], last[h], elapsed) <==>
                  && reason != AfterCancel && elapsed
                  && (|| Sum(Squares(n')) < Sum(Squares(n))
                      || (Sum(Squares(n')) == Sum(Squares(n)) && Sum(Recencies(n', last)) > Sum(Recencies(n, last)))))
  {
    hide Acquire, Sum, Sizes, Squares, Recencies;
    StealSizes(n, p, r);
    MoveSums(n, Acquire(n, p, r), p, n.holder[r], last);
  }

  lemma MoveSums(n: Net, n': Net, p: Peer, h: Peer, last: map<Peer, int>)
    requires p != h && p in n.peers && h in n.peers && n'.peers.Keys == n.peers.Keys <= last.Keys
    requires Size(n', p) == Size(n, p) + 1 && Size(n', h) == Size(n, h) - 1
    requires forall q | q in n.peers && q != p && q != h :: Size(n', q) == Size(n, q)
    ensures Sum(Sizes(n')) == Sum(Sizes(n))
    ensures Sum(Squares(n')) == Sum(Squares(n)) + 2 * (Size(n, p) + 1 - Size(n, h))
    ensures Sum(Recencies(n', last)) == Sum(Recencies(n, last)) + last[p] - last[h]
  {
    hide Sum, Size, Mul;
    TwoChanged(Sizes(n), Sizes(n'), p, h);
    TwoChanged(Squares(n), Squares(n'), p, h);
    TwoChanged(Recencies(n, last), Recencies(n', last), p, h);
    MoveOne(Size(n, p), Size(n, h), last[p], last[h]);
  }

  lemma MoveOne(a: int, b: int, x: int, y: int)
    ensures Mul(a + 1, a + 1) + Mul(b - 1, b - 1) == Mul(a, a) + Mul(b, b) + 2 * (a + 1 - b)
    ensures Mul(a + 1, x) + Mul(b - 1, y) == Mul(a, x) + Mul(b, y) + x - y
  {
  }

  lemma TwoChanged(m: map<Peer, int>, m': map<Peer, int>, p: Peer, h: Peer)
    requires p != h && p in m && h in m && m'.Keys == m.Keys
    requires forall q | q in m && q != p && q != h :: m'[q] == m[q]
    ensures Sum(m') == Sum(m) - m[p] - m[h] + m'[p] + m'[h]
  {
    SumUpdate(m, p, m'[p]);
    SumUpdate(m[p := m'[p]], h, m'[h]);
    assert m' == m[p := m'[p]][h := m'[h]];
  }

  // ---- no endless stealing ----

  /** A run of steals with nothing received in between: in step k, moves[k] names the taker and the
      block. */
  ghost predicate StealRun(run: seq<Net>, moves: seq<(Peer, nat)>, last: map<Peer, int>) {
    && |run| == |moves| + 1
    && forall k | 0 <= k < |moves| :: Steals(run[k], moves[k].0, moves[k].1, last, run[k + 1])
  }

  function Scaled(m: map<Peer, int>, k: int): map<Peer, int> {
    map p | p in m :: Mul(k, m[p])
  }

  lemma {:induction false} SumScaled(m: map<Peer, int>, k: int)
    ensures Sum(Scaled(m, k)) == Mul(k, Sum(m))
    decreases m.Keys
  {
    hide Mul;
    if m == map[] {
      Distribute(k, 0, 0);
      assert Scaled(m, k) == map[];
    } else {
      hide Sum;
      var p :| p in m;
      SumSplit(m, p);
      SumSplit(Scaled(m, k), p);
      assert Scaled(m, k) - {p} == Scaled(m - {p}, k);
      SumScaled(m - {p}, k);
      Distribute(k, m[p], Sum(m - {p}));
    }
  }

  lemma Distribute(k: int, a: int, b: int)
    ensures Mul(k, a + b) == Mul(k, a) + Mul(k, b)
  {
  }

  lemma {:induction false} SumLe(a: map<Peer, int>, b: map<Peer, int>)
    requires a.Keys == b.Keys && forall p | p in a :: a[p] <= b[p]
    ensures Sum(a) <= Sum(b)
    decreases a.Keys
  {
    if a == map[] {
      assert b == map[];
    } else {
      var p :| p in a;
      SumSplit(a, p);
      SumSplit(b, p);
      SumLe(a - {p}, b - {p});
    }
  }

  lemma MulBounds(s: int, lo: int, x: int, hi: int)
    requires s >= 0 && lo <= x <= hi
    ensures Mul(lo, s) <= Mul(s, x) <= Mul(hi, s)
  {
  }

  ghost predicate LastWithin(n: Net, last: map<Peer, int>, lo: int, hi: int) {
    n.peers.Keys <= last.Keys && forall p | p in n.peers :: lo <= last[p] <= hi
  }

  /** How far the queues' recency is from the best it can be. */
  ghost function Slack(n: Net, last: map<Peer, int>, hi: int): int
    requires n.peers.Keys <= last.Keys
  {
    Mul(hi, Sum(Sizes(n))) - Sum(Recencies(n, last))
  }

  /** How many steals are still possible: the unevenness first, the recency among equals. */
  ghost function Rank(n: Net, last: map<Peer, int>, lo: int, hi: int): int
    requires n.peers.Keys <= last.Keys
  {
    Mul(Sum(Squares(n)), Mul(hi - lo, Sum(Sizes(n))) + 1) + Slack(n, last, hi)
  }

  lemma RecencyBounds(n: Net, last: map<Peer, int>, lo: int, hi: int)
    requires LastWithin(n, last, lo, hi)
    ensures 0 <= Slack(n, last, hi) <= Mul(hi - lo, Sum(Sizes(n)))
  {
    hide Sum, Mul;
    var low, high := Scaled(Sizes(n), lo), Scaled(Sizes(n), hi);
    forall p | p in n.peers
      ensures low[p] <= Recencies(n, last)[p] <= high[p]
    {
      MulBounds(Size(n, p), lo, last[p], hi);
    }
    SumScaled(Sizes(n), lo);
    SumScaled(Sizes(n), hi);
    SumLe(low, Recencies(n, last));
    SumLe(Recencies(n, last), high);
    Difference(hi, lo, Sum(Sizes(n)));
  }

  lemma Difference(a: int, b: int, k: int)
    ensures Mul(a - b, k) == Mul(a, k) - Mul(b, k)
  {
  }

  lemma RankFalls(n: Net, p: Peer, r: nat, last: map<Peer, int>, n': Net, lo: int, hi: int)
    requires Steals(n, p, r, last, n') && LastWithin(n, last, lo, hi)
    ensures LastWithin(n', last, lo, hi) && Rank(n', last, lo, hi) < Rank(n, last, lo, hi)
  {
    hide Steals, Sum, Mul;
    StealProgress(n, p, r, last, n');
    RecencyBounds(n, last, lo, hi);
    RecencyBounds(n', last, lo, hi);
    Lexicographic(Sum(Squares(n)), Slack(n, last, hi), Sum(Squares(n')), Slack(n', last, hi),
                  Mul(hi - lo, Sum(Sizes(n))));
  }

  lemma Lexicographic(a: int, u: int, b: int, v: int, w: int)
    requires 0 <= u && 0 <= v <= w && (b < a || (b == a && v < u))
    ensures Mul(b, w + 1) + v < Mul(a, w + 1) + u
  {
    if b < a {
      assert (a - b - 1) * (w + 1) >= 0;
    }
  }

  lemma SquaresNonNegative(m: map<Peer, int>)
    requires forall p | p in m :: m[p] >= 0
    ensures Sum(m) >= 0
    decreases m.Keys
  {
    if m != map[] {
      var p :| p in m;
      SumSplit(m, p);
      SquaresNonNegative(m - {p});
    }
  }

  lemma RankNonNegative(n: Net, last: map<Peer, int>, lo: int, hi: int)
    requires LastWithin(n, last, lo, hi) && lo <= hi
    ensures Rank(n, last, lo, hi) >= 0
  {
    RecencyBounds(n, last, lo, hi);
    SquaresNonNegative(Squares(n));
    SquaresNonNegative(Sizes(n));
    hide Sum, Mul;
    ProductNonNegative(hi - lo, Sum(Sizes(n)));
    ProductNonNegative(Sum(Squares(n)), Mul(hi - lo, Sum(Sizes(n))) + 1);
  }

  lemma ProductNonNegative(a: int, b: int)
    requires a >= 0 && b >= 0
    ensures Mul(a, b) >= 0
  {
  }

  /** Between two received blocks only so many steals can happen: a run of them is never longer than
      the rank of its first state, whatever the graces and vetoes are. */
  lemma {:induction false} StealsBounded(run: seq<Net>, moves: seq<(Peer, nat)>, last: map<Peer, int>, lo: int, hi: int)
    requires StealRun(run, moves, last) && lo <= hi && LastWithin(run[0], last, lo, hi)
    ensures |moves| <= Rank(run[0], last, lo, hi)
  {
    hide Steals, Rank;
    if moves == [] {
      RankNonNegative(run[0], last, lo, hi);
    } else {
      RankFalls(run[0], moves[0].0, moves[0].1, last, run[1], lo, hi);
      assert forall k | 0 <= k < |moves| - 1 :: moves[1..][k] == moves[k + 1] && run[1..][k] == run[k + 1];
      StealsBounded(run[1..], moves[1..], last, lo, hi);
    }
  }

  // ---- no endless asking ----

  /** One request of an update that changes anything: a block nobody holds is asked for, or one is taken from its
      holder. */
  ghost predicate Asks(b: Blocks, n: Net, p: Peer, r: nat, last: map<Peer, int>, n': Net) {
    || Steals(n, p, r, last, n')
    || (Owned(n) && p in n.peers && n.peers.Keys <= last.Keys && r in b && r !in n.holder && n' == Acquire(n, p, r))
  }

  /** A run of them, by any peers, with no message received in between. */
  ghost predicate AskRun(b: Blocks, run: seq<Net>, moves: seq<(Peer, nat)>, last: map<Peer, int>) {
    && |run| == |moves| + 1
    && forall k | 0 <= k < |moves| :: Asks(b, run[k], moves[k].0, moves[k].1, last, run[k + 1])
  }

  /** The blocks still without a holder. */
  function Unheld(b: Blocks, n: Net): nat {
    |b.Keys - n.holder.Keys|
  }

  /** How many blocks are in queues or may still come into one; no request changes it. */
  ghost function Volume(b: Blocks, n: Net): int {
    Unheld(b, n) + Sum(Sizes(n))
  }

  /** A bound on the rank of every state of the run. */
  function RankBound(volume: int, span: int): int {
    Mul(Mul(volume, volume), Mul(span, volume) + 1) + Mul(span, volume)
  }

  /** Blocks without a holder first, then the rank. */
  ghost function AskRank(b: Blocks, n: Net, last: map<Peer, int>, lo: int, hi: int): int
    requires n.peers.Keys <= last.Keys
  {
    Mul(Unheld(b, n), RankBound(Volume(b, n), hi - lo) + 1) + Rank(n, last, lo, hi)
  }

  lemma FreshSizes(n: Net, p: Peer, r: nat)
    requires Owned(n) && p in n.peers && r !in n.holder
    ensures var n' := Acquire(n, p, r);
            && n'.peers.Keys == n.peers.Keys && n'.holder == n.holder[r := p]
            && Sizes(n') == Sizes(n)[p := Size(n, p) + 1]
  {
    var n' := Acquire(n, p, r);
    assert r !in n.peers[p].requests;
    assert n'.peers[p].requests == n.peers[p].requests + {r};
  }

  lemma OneLess(keys: set<nat>, held: set<nat>, r: nat)
    requires r in keys && r !in held
    ensures |keys - (held + {r})| == |keys - held| - 1
  {
    assert keys - held == (keys - (held + {r})) + {r};
  }

  lemma FreshUnheld(b: Blocks, n: Net, p: Peer, r: nat)
    requires p in n.peers && r in b && r !in n.holder && Acquire(n, p, r).holder == n.holder[r := p]
    ensures Unheld(b, Acquire(n, p, r)) == Unheld(b, n) - 1
  {
    hide Acquire;
    OneLess(b.Keys, n.holder.Keys, r);
    assert Acquire(n, p, r).holder.Keys == n.holder.Keys + {r};
  }

  lemma FreshVolume(b: Blocks, n: Net, p: Peer, r: nat)
    requires Owned(n) && p in n.peers && r in b && r !in n.holder
    ensures var n' := Acquire(n, p, r); Unheld(b, n') == Unheld(b, n) - 1 && Volume(b, n') == Volume(b, n)
  {
    hide Acquire, Owned, Sum, Sizes, Unheld;
    FreshSizes(n, p, r);
    FreshUnheld(b, n, p, r);
    SizeInSizes(n, p);
    SumUpdate(Sizes(n), p, Size(n, p) + 1);
  }

  lemma SizeInSizes(n: Net, p: Peer)
    requires p in n.peers
    ensures p in Sizes(n) && Sizes(n)[p] == Size(n, p)
  {
  }

  lemma StolenKeys(n: Net, p: Peer, r: nat)
    requires p in n.peers && r in n.holder
    ensures Acquire(n, p, r).holder.Keys == n.holder.Keys
  {
  }

  lemma StealVolume(b: Blocks, n: Net, p: Peer, r: nat, last: map<Peer, int>, n': Net)
    requires Steals(n, p, r, last, n')
    ensures Unheld(b, n') == Unheld(b, n) && Volume(b, n') == Volume(b, n)
  {
    hide Acquire, Owned, Sum, Sizes, Squares, Recencies;
    StealProgress(n, p, r, last, n');
    StolenKeys(n, p, r);
  }

  lemma SumsNonNegative(n: Net)
    ensures Sum(Sizes(n)) >= 0 && Sum(Squares(n)) >= 0
  {
    SquaresNonNegative(Squares(n));
    SquaresNonNegative(Sizes(n));
  }

  lemma SquareOfSum(a: int, s: int)
    requires a >= 0 && s >= 0
    ensures Mul(a, a) + Mul(s, s) <= Mul(a + s, a + s)
  {
    assert (a + s) * (a + s) == a * a + 2 * (a * s) + s * s;
  }

  function Squared(m: map<Peer, int>): map<Peer, int> {
    map p | p in m :: Mul(m[p], m[p])
  }

  lemma {:induction false} SumOfSquares(m: map<Peer, int>)
    requires forall p | p in m :: m[p] >= 0
    ensures Sum(Squared(m)) <= Mul(Sum(m), Sum(m))
    decreases m.Keys
  {
    hide Mul;
    if m == map[] {
      MulFacts(0, 0, 0, 0);
      assert Squared(m) == map[];
    } else {
      var p :| p in m;
      SumSplit(m, p);
      SumSplit(Squared(m), p);
      assert Squared(m) - {p} == Squared(m - {p});
      SumOfSquares(m - {p});
      SquaresNonNegative(m - {p});
      SquareOfSum(m[p], Sum(m - {p}));
    }
  }

  lemma MulFacts(a: int, b: int, c: int, d: int)
    requires 0 <= a <= b && 0 <= c <= d
    ensures 0 <= Mul(a, c) <= Mul(b, d)
  {
    assert b * d - a * c == b * (d - c) + (b - a) * c;
  }

  lemma RankArithmetic(squares: int, t: int, v: int, span: int, slack: int)
    requires 0 <= squares <= Mul(t, t) && 0 <= t <= v && span >= 0 && slack <= Mul(span, t)
    ensures Mul(squares, Mul(span, t) + 1) + slack <= RankBound(v, span)
  {
    hide Mul;
    MulFacts(t, v, t, v);
    MulFacts(span, span, t, v);
    MulFacts(squares, Mul(v, v), Mul(span, t) + 1, Mul(span, v) + 1);
  }

  lemma SquaresBounded(n: Net)
    ensures 0 <= Sum(Squares(n)) <= Mul(Sum(Sizes(n)), Sum(Sizes(n))) && Sum(Sizes(n)) >= 0
  {
    hide Sum, Mul;
    SumsNonNegative(n);
    SumOfSquares(Sizes(n));
    assert Squared(Sizes(n)) == Squares(n);
  }

  /** The rank is at most what the volume allows. */
  lemma RankBounded(b: Blocks, n: Net, last: map<Peer, int>, lo: int, hi: int)
    requires LastWithin(n, last, lo, hi) && lo <= hi
    ensures 0 <= Rank(n, last, lo, hi) <= RankBound(Volume(b, n), hi - lo)
  {
    hide Sum, Mul, Sizes, Squares, Recencies, RankBound, Slack;
    SquaresBounded(n);
    RankNonNegative(n, last, lo, hi);
    RecencyBounds(n, last, lo, hi);
    RankArithmetic(Sum(Squares(n)), Sum(Sizes(n)), Volume(b, n), hi - lo, Slack(n, last, hi));
  }

  lemma AskRankFalls(b: Blocks, n: Net, p: Peer, r: nat, last: map<Peer, int>, n': Net, lo: int, hi: int)
    requires Asks(b, n, p, r, last, n') && LastWithin(n, last, lo, hi) && lo <= hi
    ensures LastWithin(n', last, lo, hi) && AskRank(b, n', last, lo, hi) < AskRank(b, n, last, lo, hi)
  {
    hide Sum, Mul, Rank, Volume, Unheld, RankBound, Acquire;
    if Steals(n, p, r, last, n') {
      hide Steals;
      StealVolume(b, n, p, r, last, n');
      RankFalls(n, p, r, last, n', lo, hi);
    } else {
      FreshSizes(n, p, r);
      FreshVolume(b, n, p, r);
      RankBounded(b, n, last, lo, hi);
      RankBounded(b, n', last, lo, hi);
      var k := RankBound(Volume(b, n), hi - lo);
      Distribute2(Unheld(b, n), k + 1);
    }
  }

  lemma Distribute2(u: int, k: int)
    ensures Mul(u, k) == Mul(u - 1, k) + k
  {
  }

  /** Between two received messages only so many requests can be made: a run of them, fresh or stolen, by whichever
      peers in whatever order, is never longer than the measure of its first state. */
  lemma {:induction false} AsksBounded(b: Blocks, run: seq<Net>, moves: seq<(Peer, nat)>, last: map<Peer, int>,
                                       lo: int, hi: int)
    requires AskRun(b, run, moves, last) && lo <= hi && LastWithin(run[0], last, lo, hi)
    ensures |moves| <= AskRank(b, run[0], last, lo, hi)
  {
    hide Asks, AskRank, LastWithin;
    if moves == [] {
      AskRankNonNegative(b, run[0], last, lo, hi);
    } else {
      AskRankFalls(b, run[0], moves[0].0, moves[0].1, last, run[1], lo, hi);
      assert forall k | 0 <= k < |moves| - 1 :: moves[1..][k] == moves[k + 1] && run[1..][k] == run[k + 1];
      AsksBounded(b, run[1..], moves[1..], last, lo, hi);
    }
  }

  lemma AskRankNonNegative(b: Blocks, n: Net, last: map<Peer, int>, lo: int, hi: int)
    requires LastWithin(n, last, lo, hi) && lo <= hi
    ensures AskRank(b, n, last, lo, hi) >= 0
  {
    hide Mul, Rank, RankBound, Unheld, Volume, LastWithin;
    RankBounded(b, n, last, lo, hi);
    ProductNonNegative(Unheld(b, n), RankBound(Volume(b, n), hi - lo) + 1);
  }
}
