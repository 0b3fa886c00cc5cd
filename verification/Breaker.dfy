/** The hedge-rate circuit breaker of torrent.go. Times are in nanoseconds. The breaker's timer runs without the
    client lock and writes twice, so its two writes are two steps. */
module Breaker {
  const WINDOW: int := 60_000_000_000
  const COOLDOWN: int := 300_000_000_000
  const THRESHOLD: nat := 30

  /** What was sent in a window, and how many of the timer's second writes fell into it. */
  datatype Win = Win(start: int, sent: seq<int>, zeroed: nat)

  /** The breaker's own fields, the timer (when it may fire, and how many second writes are due), the time of the
      last event, and on record the windows and the times the breaker tripped. */
  datatype State = State(open: bool, start: int, count: int, due: int, zeroes: nat, clock: int, wins: seq<Win>,
                         trips: seq<int>)

  datatype Event =
    | Fire(now: int)
    | TimerOpens(now: int)
    | TimerZeroes(now: int)

  const CLOSED: State := State(false, 0, 0, 0, 0, 0, [], [])

  /** A new window unless the current one is at most 60 s old. */
  function Roll(st: State, now: int): State {
    if st.start == 0 || now - st.start > WINDOW then
      st.(start := now, count := 0, clock := now, wins := st.wins + [Win(now, [], 0)])
    else st.(clock := now)
  }

  /** The windows with the last one changed. */
  function SetLast(wins: seq<Win>, w: Win): seq<Win>
    requires wins != []
  {
    wins[|wins| - 1 := w]
  }

  function Last(wins: seq<Win>): Win
    requires wins != []
  {
    wins[|wins| - 1]
  }

  /** fireHedge, once it has a candidate; the scan that calls it stops while the breaker is open. */
  function Fired(st: State, now: int): State {
    if st.open then st.(clock := now)
    else
      var r := Roll(st, now);
      if r.count + 1 > THRESHOLD then
        r.(count := r.count + 1, open := true, due := now + COOLDOWN, trips := r.trips + [now])
      else if r.wins == [] then r.(count := r.count + 1)
      else r.(count := r.count + 1, wins := SetLast(r.wins, Last(r.wins).(sent := Last(r.wins).sent + [now])))
  }

  /** The timer's second write. */
  function Zeroed(st: State, now: int): State {
    var st1 := st.(count := 0, zeroes := if st.zeroes > 0 then st.zeroes - 1 else 0, clock := now);
    if st.wins == [] || now - st.start > WINDOW then st1
    else st1.(wins := SetLast(st.wins, Last(st.wins).(zeroed := Last(st.wins).zeroed + 1)))
  }

  function Step(st: State, e: Event): State {
    match e
    case Fire(now) => Fired(st, now)
    case TimerOpens(now) =>
      if st.open && now >= st.due then st.(open := false, zeroes := st.zeroes + 1, clock := now) else st.(clock := now)
    case TimerZeroes(now) => if st.zeroes > 0 then Zeroed(st, now) else st.(clock := now)
  }

  // ---- what every step keeps ----

  /** A window sends at most 30 hedges, and 30 more for every second write that falls into it. */
  ghost predicate WinOk(w: Win) {
    && w.start > 0 && |w.sent| <= THRESHOLD * (1 + w.zeroed)
    && forall t | t in w.sent :: w.start <= t <= w.start + WINDOW
  }

  ghost predicate Spaced(wins: seq<Win>) {
    forall i, j | 0 <= i < j < |wins| :: wins[i].start + WINDOW < wins[j].start
  }

  /** The current window can take no more: the next hedge starts a new one. */
  predicate Stale(st: State) {
    st.clock - st.start > WINDOW
  }

  /** Every trip's cooldown is over, but that of the trip that holds the breaker open. */
  ghost predicate Cooled(st: State) {
    && (forall t | t in st.trips :: t + COOLDOWN <= st.clock || (st.open && t + COOLDOWN == st.due))
    && (forall w, t, at | w in st.wins && t in w.sent && at in st.trips :: t <= at || at + COOLDOWN <= t)
  }

  ghost predicate Sane(st: State) {
    && (forall w | w in st.wins :: WinOk(w)) && Spaced(st.wins)
    && st.count >= 0 && st.clock >= st.start >= 0
    && (st.start == 0 <==> st.wins == [])
    && (st.open ==> st.due >= st.start + COOLDOWN)
    && (st.wins == [] ==> !st.open && st.zeroes == 0)
    && (forall w, t | w in st.wins && t in w.sent :: t <= st.clock)
  }

  /** Between the windows and the count: it falls short of what was sent only by the second writes' share, and while
      the breaker is closed it is at most 30. */
  ghost predicate Counted(st: State) {
    st.wins != [] ==>
      && Last(st.wins).start == st.start
      && (Stale(st) || |Last(st.wins).sent| <= THRESHOLD * Last(st.wins).zeroed + Least(st.count, THRESHOLD))
      && (Stale(st) || st.open || st.count <= THRESHOLD)
  }

  function Least(a: int, b: int): int {
    if a <= b then a else b
  }

  ghost predicate Inv(st: State) {
    Sane(st) && Counted(st) && Cooled(st)
  }

  lemma SetLastMembers(wins: seq<Win>, w: Win, v: Win)
    requires wins != []
    ensures v in SetLast(wins, w) ==> v in wins || v == w
    ensures Last(SetLast(wins, w)) == w && |SetLast(wins, w)| == |wins| && Last(wins) in wins
  {
  }

  lemma RollKeeps(st: State, now: int)
    requires Inv(st) && !st.open && now >= st.clock && now > 0
    ensures Inv(Roll(st, now)) && Roll(st, now).wins != [] && !Stale(Roll(st, now)) && Roll(st, now).clock == now
  {
    var r := Roll(st, now);
    forall w | w in r.wins
      ensures w in st.wins || w == Win(now, [], 0)
    {
    }
  }

  lemma RollFrame(st: State, now: int)
    ensures var r := Roll(st, now); r.open == st.open && r.due == st.due && r.zeroes == st.zeroes && r.trips == st.trips
    ensures forall w | w in Roll(st, now).wins :: w in st.wins || w == Win(now, [], 0)
  {
  }

  /** The last window changes, the others stay as they are. */
  lemma OthersStay(wins: seq<Win>, w: Win)
    requires wins != []
    ensures forall v | v in SetLast(wins, w) :: v in wins || v == w
    ensures Spaced(wins) && w.start == Last(wins).start ==> Spaced(SetLast(wins, w))
    ensures Last(wins) in wins
  {
  }

  /** The state after a hedge is sent in the current window. */
  function Sent(st: State, now: int): State
    requires st.wins != []
  {
    st.(count := st.count + 1, wins := SetLast(st.wins, Last(st.wins).(sent := Last(st.wins).sent + [now])))
  }

  lemma SentKeeps(st: State, now: int)
    requires Inv(st) && st.wins != [] && !st.open && st.count < THRESHOLD && now == st.clock && !Stale(st)
    ensures Inv(Sent(st, now))
  {
    hide SetLast, Spaced;
    var w := Last(st.wins).(sent := Last(st.wins).sent + [now]);
    OthersStay(st.wins, w);
    SetLastMembers(st.wins, w, w);
    assert WinOk(Last(st.wins));
    assert forall t | t in w.sent :: t in Last(st.wins).sent || t == now;
  }

  lemma FiredKeeps(st: State, now: int)
    requires Inv(st) && now >= st.clock && now > 0
    ensures Inv(Fired(st, now))
  {
    hide Spaced, Roll;
    if !st.open {
      RollKeeps(st, now);
      RollFrame(st, now);
      var r := Roll(st, now);
      if r.count < THRESHOLD {
        SentKeeps(r, now);
      }
    }
  }

  lemma ZeroedKeeps(st: State, now: int)
    requires Inv(st) && now >= st.clock && now > 0
    ensures Inv(Zeroed(st, now))
  {
    if st.wins != [] && now - st.start <= WINDOW {
      var w := Last(st.wins).(zeroed := Last(st.wins).zeroed + 1);
      forall v
        ensures v in SetLast(st.wins, w) ==> v in st.wins || v == w
      {
        SetLastMembers(st.wins, w, v);
      }
      assert Last(st.wins) in st.wins;
    }
  }

  lemma StepKeeps(st: State, e: Event)
    requires Inv(st) && e.now >= st.clock && e.now > 0
    ensures Inv(Step(st, e)) && Step(st, e).clock == e.now
  {
    match e
    case Fire(now) => FiredKeeps(st, now);
    case TimerZeroes(now) => ZeroedKeeps(st, now);
    case TimerOpens(now) =>
  }

  // ---- runs ----

  function From(st: State, events: seq<Event>): State {
    if events == [] then st else Step(From(st, events[..|events| - 1]), events[|events| - 1])
  }

  function Run(events: seq<Event>): State {
    From(CLOSED, events)
  }

  ghost predicate Timely(events: seq<Event>) {
    && (forall i | 0 <= i < |events| :: events[i].now > 0)
    && forall i, j | 0 <= i < j < |events| :: events[i].now <= events[j].now
  }

  lemma {:induction false} RunInv(events: seq<Event>)
    requires Timely(events)
    ensures Inv(Run(events)) && (events != [] ==> Run(events).clock == events[|events| - 1].now)
  {
    if events != [] {
      RunInv(events[..|events| - 1]);
      StepKeeps(Run(events[..|events| - 1]), events[|events| - 1]);
    }
  }

  /** In every run, whatever falls between the timer's two writes, a window sends at most 30 hedges for itself and
      for every second write in it, and after a trip none is sent for five minutes. */
  lemma WindowBound(events: seq<Event>)
    requires Timely(events)
    ensures forall w | w in Run(events).wins :: |w.sent| <= THRESHOLD * (1 + w.zeroed)
    ensures forall w, t, at | w in Run(events).wins && t in w.sent && at in Run(events).trips ::
              t <= at || at + COOLDOWN <= t
  {
    RunInv(events);
    assert forall w | w in Run(events).wins :: WinOk(w);
  }

  // ---- when 30 hedges a window hold ----

  ghost predicate Within(wins: seq<Win>) {
    forall w | w in wins :: |w.sent| <= THRESHOLD
  }

  /** No window exceeds 30, and the count has not forgotten a hedge of a window that can still send. */
  ghost predicate Tight(st: State) {
    && Inv(st) && Within(st.wins)
    && (st.wins == [] || Stale(st) || st.open || |Last(st.wins).sent| <= st.count)
  }

  /** A second write that makes the count forget: it comes late, into a window that has already sent and is not
      closed off by a new trip. */
  predicate Forgets(st: State, e: Event) {
    && e.TimerZeroes? && st.zeroes > 0 && !st.open && e.now - st.start <= WINDOW
    && st.wins != [] && |Last(st.wins).sent| > 0
  }

  /** Exactly these events break it. */
  lemma TightStep(st: State, e: Event)
    requires Tight(st) && e.now >= st.clock && e.now > 0
    ensures Tight(Step(st, e)) <==> !Forgets(st, e)
  {
    hide Inv, Spaced;
    StepKeeps(st, e);
    InvFacts(st);
    match e
    case Fire(now) => if !st.open { TightFire(st, now); }
    case TimerOpens(now) =>
    case TimerZeroes(now) => if st.zeroes > 0 { TightZero(st, now); }
  }

  lemma InvFacts(st: State)
    requires Inv(st)
    ensures st.start <= st.clock && (st.wins != [] ==> Last(st.wins) in st.wins && Last(st.wins).start == st.start)
    ensures st.open ==> st.due >= st.start + COOLDOWN
  {
  }

  lemma TightFire(st: State, now: int)
    requires Tight(st) && !st.open && now >= st.clock && now > 0
    ensures Tight(Fired(st, now))
  {
    hide Inv, Spaced;
    FiredKeeps(st, now);
    RollKeeps(st, now);
    RollFrame(st, now);
    var r := Roll(st, now);
    InvFacts(st);
    InvFacts(r);
    if r.count < THRESHOLD {
      var w := Last(r.wins).(sent := Last(r.wins).sent + [now]);
      OthersStay(r.wins, w);
      SetLastMembers(r.wins, w, w);
    }
  }

  lemma TightZero(st: State, now: int)
    requires Tight(st) && st.zeroes > 0 && now >= st.clock && now > 0
    ensures Tight(Zeroed(st, now)) <==> !Forgets(st, TimerZeroes(now))
  {
    hide Inv, Spaced;
    ZeroedKeeps(st, now);
    InvFacts(st);
    if st.wins != [] {
      var w := Last(st.wins).(zeroed := Last(st.wins).zeroed + 1);
      OthersStay(st.wins, w);
      SetLastMembers(st.wins, w, w);
    }
  }

  /** No event of the run is a forgetting one. */
  ghost predicate Remembers(events: seq<Event>) {
    forall i | 0 <= i < |events| :: !Forgets(Run(events[..i]), events[i])
  }

  ghost predicate AlwaysTight(events: seq<Event>) {
    forall i | 0 <= i <= |events| :: Tight(Run(events[..i]))
  }

  lemma ClosedTight()
    ensures Tight(CLOSED)
  {
  }

  lemma {:induction false} RemembersTight(events: seq<Event>)
    requires Timely(events) && Remembers(events)
    ensures Tight(Run(events))
  {
    if events == [] {
      ClosedTight();
    } else {
      var before, e := events[..|events| - 1], events[|events| - 1];
      assert forall i | 0 <= i < |before| :: before[..i] == events[..i];
      RemembersTight(before);
      RunInv(before);
      TightStep(Run(before), e);
    }
  }

  lemma Prefixes(events: seq<Event>, i: nat)
    requires i <= |events|
    ensures Timely(events) ==> Timely(events[..i])
    ensures Remembers(events) ==> Remembers(events[..i])
    ensures i < |events| ==> Run(events[..i + 1]) == Step(Run(events[..i]), events[i])
  {
    assert forall k | 0 <= k < i :: events[..i][..k] == events[..k];
    if i < |events| {
      assert events[..i + 1][..i] == events[..i];
    }
  }

  /** A run keeps every window to 30, with a count that says so, exactly when none of its events forgets. */
  lemma TightRun(events: seq<Event>)
    requires Timely(events)
    ensures AlwaysTight(events) <==> Remembers(events)
  {
    hide Tight, Forgets, Step, Run, Inv;
    if Remembers(events) {
      forall i | 0 <= i <= |events|
        ensures Tight(Run(events[..i]))
      {
        Prefixes(events, i);
        RemembersTight(events[..i]);
      }
    }
    if AlwaysTight(events) {
      forall i | 0 <= i < |events|
        ensures !Forgets(Run(events[..i]), events[i])
      {
        Prefixes(events, i);
        RunClock(events, i);
        assert Tight(Run(events[..i])) && Tight(Run(events[..i + 1]));
        TightStep(Run(events[..i]), events[i]);
      }
    }
  }

  lemma RunClock(events: seq<Event>, i: nat)
    requires Timely(events) && i < |events|
    ensures Run(events[..i]).clock <= events[i].now
  {
    RunInv(events[..i]);
  }

  /** n hedges tried at one time. */
  function Fires(st: State, now: int, n: nat): State {
    if n == 0 then st else Fired(Fires(st, now, n - 1), now)
  }

  lemma {:induction false} FiresSend(st: State, now: int, n: nat)
    requires !st.open && st.wins != [] && st.start != 0 && now - st.start <= WINDOW && st.count + n <= THRESHOLD
    ensures var st' := Fires(st, now, n);
            && !st'.open && |st'.wins| == |st.wins| && st'.start == st.start && st'.count == st.count + n
            && st'.zeroes == st.zeroes && Last(st'.wins).zeroed == Last(st.wins).zeroed
            && |Last(st'.wins).sent| == |Last(st.wins).sent| + n
  {
    if n > 0 {
      FiresSend(st, now, n - 1);
    }
  }

  lemma {:induction false} FiresTight(st: State, n: nat)
    requires Tight(st) && st.clock > 0
    ensures Tight(Fires(st, st.clock, n)) && Fires(st, st.clock, n).clock == st.clock
  {
    if n > 0 {
      FiresTight(st, n - 1);
      TightStep(Fires(st, st.clock, n - 1), Fire(st.clock));
      StepKeeps(Fires(st, st.clock, n - 1), Fire(st.clock));
    }
  }

  /** Tight says no more than the bound: a state within 30 is tight exactly when no number of further tries at once
      takes a window above 30. */
  lemma TightExactly(st: State)
    requires Inv(st) && Within(st.wins) && st.clock > 0
    ensures Tight(st) <==> forall n: nat :: Within(Fires(st, st.clock, n).wins)
  {
    if Tight(st) {
      forall n: nat
        ensures Within(Fires(st, st.clock, n).wins)
      {
        FiresTight(st, n);
      }
    } else {
      var n := THRESHOLD - st.count;
      FiresSend(st, st.clock, n);
      var wins := Fires(st, st.clock, n).wins;
      assert Last(wins) in wins;
    }
  }

  // ---- any 60 s ----

  function CountIn(sent: seq<int>, a: int, b: int): nat {
    if sent == [] then 0 else CountIn(sent[..|sent| - 1], a, b) + if a <= sent[|sent| - 1] <= b then 1 else 0
  }

  function TotalIn(wins: seq<Win>, a: int, b: int): nat {
    if wins == [] then 0 else TotalIn(wins[..|wins| - 1], a, b) + CountIn(wins[|wins| - 1].sent, a, b)
  }

  lemma {:induction false} CountBound(sent: seq<int>, a: int, b: int)
    ensures CountIn(sent, a, b) <= |sent|
    ensures CountIn(sent, a, b) > 0 <==> exists t :: t in sent && a <= t <= b
  {
    if sent != [] {
      var front, last := sent[..|sent| - 1], sent[|sent| - 1];
      CountBound(front, a, b);
      assert sent == front + [last];
      assert forall t | t in front :: t in sent;
      if a <= last <= b {
        assert last in sent;
      } else if exists t :: t in sent && a <= t <= b {
        var t :| t in sent && a <= t <= b;
        assert t in front;
      }
    }
  }

  lemma {:induction false} AllBefore(wins: seq<Win>, a: int, b: int)
    requires forall w | w in wins :: WinOk(w) && w.start + WINDOW < a
    ensures TotalIn(wins, a, b) == 0
  {
    if wins != [] {
      var w := wins[|wins| - 1];
      assert w in wins;
      AllBefore(wins[..|wins| - 1], a, b);
      CountBound(w.sent, a, b);
    }
  }

  /** A window that sent in [a, b] leaves only the one before it a chance to have sent there too. */
  lemma OlderSilent(wins: seq<Win>, a: int, b: int)
    requires Spaced(wins) && b - a <= WINDOW && |wins| >= 2 && forall w | w in wins :: WinOk(w)
    requires CountIn(wins[|wins| - 1].sent, a, b) > 0
    ensures TotalIn(wins[..|wins| - 2], a, b) == 0
  {
    var n := |wins| - 1;
    CountBound(wins[n].sent, a, b);
    var t :| t in wins[n].sent && a <= t <= b;
    assert wins[n] in wins;
    var older := wins[..n - 1];
    forall u | u in older
      ensures WinOk(u) && u.start + WINDOW < a
    {
      var k :| 0 <= k < |older| && older[k] == u;
      assert u == wins[k] && u in wins;
      assert wins[k].start + WINDOW < wins[n - 1].start;
      assert wins[n - 1].start + WINDOW < wins[n].start;
    }
    AllBefore(older, a, b);
  }

  /** Windows are more than 60 s apart, so an interval of 60 s meets at most two. */
  lemma {:induction false} TwoWindows(wins: seq<Win>, a: int, b: int, max: nat)
    requires Spaced(wins) && b - a <= WINDOW && forall w | w in wins :: WinOk(w) && |w.sent| <= max
    ensures TotalIn(wins, a, b) <= 2 * max
  {
    hide CountIn, WinOk;
    if wins != [] {
      var n := |wins| - 1;
      assert wins[n] in wins && forall v | v in wins[..n] :: v in wins;
      CountBound(wins[n].sent, a, b);
      if CountIn(wins[n].sent, a, b) == 0 {
        TwoWindows(wins[..n], a, b, max);
      } else if n > 0 {
        OlderSilent(wins, a, b);
        assert wins[n - 1] in wins && wins[..n][..n - 1] == wins[..n - 1];
        CountBound(wins[n - 1].sent, a, b);
      }
    }
  }

  /** When no event forgets, every window sends at most 30 and every 60 s at most 60. */
  lemma MinuteBound(events: seq<Event>, a: int, b: int)
    requires Timely(events) && Remembers(events) && b - a <= WINDOW
    ensures forall w | w in Run(events).wins :: |w.sent| <= THRESHOLD
    ensures TotalIn(Run(events).wins, a, b) <= 60
  {
    RemembersTight(events);
    TwoWindows(Run(events).wins, a, b, THRESHOLD);
  }

  /** In every run, with at most m second writes in a window, every 60 s send at most 60 hedges and 60 more for each
      of the m. */
  lemma RacingMinuteBound(events: seq<Event>, a: int, b: int, m: nat)
    requires Timely(events) && b - a <= WINDOW && forall w | w in Run(events).wins :: w.zeroed <= m
    ensures TotalIn(Run(events).wins, a, b) <= 60 * (1 + m)
  {
    RunInv(events);
    assert forall w | w in Run(events).wins :: WinOk(w);
    TwoWindows(Run(events).wins, a, b, THRESHOLD * (1 + m));
  }

  // ---- a run that forgets ----

  function Tries(now: int, n: nat): seq<Event> {
    seq(n, _ => Fire(now))
  }

  lemma {:induction false} RunTries(events: seq<Event>, now: int, n: nat)
    ensures Run(events + Tries(now, n)) == Fires(Run(events), now, n)
  {
    var all := events + Tries(now, n);
    if n == 0 {
      assert all == events;
    } else {
      RunTries(events, now, n - 1);
      assert all[..|all| - 1] == events + Tries(now, n - 1);
    }
  }

  lemma RunOne(events: seq<Event>, e: Event)
    ensures Run(events + [e]) == Step(Run(events), e)
  {
    assert (events + [e])[..|events|] == events;
  }

  /** At `now` the breaker trips; after its cooldown it sends a full window before the timer's second write and
      another after it. */
  function Race(now: int): seq<Event> {
    var t := now + COOLDOWN;
    Tries(now, THRESHOLD + 1) + [TimerOpens(t)] + Tries(t, THRESHOLD) + [TimerZeroes(t)] + Tries(t, THRESHOLD)
  }

  lemma RaceTimely(now: int)
    requires now > 0
    ensures Timely(Race(now))
  {
    var e := Race(now);
    assert forall i | 0 <= i < |e| :: e[i].now == if i <= THRESHOLD then now else now + COOLDOWN;
  }

  lemma {:induction false} FiresMore(st: State, now: int, m: nat, n: nat)
    ensures Fires(st, now, m + n) == Fires(Fires(st, now, m), now, n)
  {
    if n > 0 {
      FiresMore(st, now, m, n - 1);
    }
  }

  /** A full window's worth of tries in a new window is sent, and the next one trips the breaker. */
  lemma FullWindow(st: State, now: int, n: nat)
    requires !st.open && (st.start == 0 || now - st.start > WINDOW) && now > 0 && n == THRESHOLD
    ensures var st' := Fires(st, now, n);
            && !st'.open && |st'.wins| == |st.wins| + 1 && st'.start == now && st'.count == n && st'.zeroes == st.zeroes
            && |Last(st'.wins).sent| == n && Last(st'.wins).zeroed == 0
    ensures var st' := Fires(st, now, n + 1);
            st'.open && st'.due == now + COOLDOWN && st'.start == now && st'.wins != [] && st'.zeroes == st.zeroes
  {
    var first := Fired(st, now);
    assert Fires(st, now, 1) == first;
    assert Last(first.wins) == Win(now, [now], 0);
    FiresMore(st, now, 1, n - 1);
    FiresSend(first, now, n - 1);
  }

  /** Starting from a closed breaker the code can send 60 in one window: what 30 for the window and 30 for the one
      second write in it allow, no less. */
  lemma RaceSendsSixty(now: int)
    requires now > 0
    ensures Timely(Race(now)) && !Remembers(Race(now))
    ensures var wins := Run(Race(now)).wins;
            wins != [] && |Last(wins).sent| == 60 == THRESHOLD * (1 + Last(wins).zeroed)
  {
    hide Fires, Fired, Tries, From;
    var t, n := now + COOLDOWN, THRESHOLD;
    var e1 := Tries(now, n + 1);
    var e2 := e1 + [TimerOpens(t)];
    var e3 := e2 + Tries(t, n);
    var e4 := e3 + [TimerZeroes(t)];
    RaceTimely(now);
    assert [] + e1 == e1;
    RunNothing();
    RunTries([], now, n + 1);
    FullWindow(CLOSED, now, n);
    RunOne(e1, TimerOpens(t));
    RunTries(e2, t, n);
    FullWindow(Run(e2), t, n);
    RunOne(e3, TimerZeroes(t));
    RunTries(e4, t, n);
    FiresSend(Run(e4), t, n);
    assert Race(now) == e4 + Tries(t, n);
    assert Race(now)[..|e3|] == e3 && Race(now)[|e3|] == TimerZeroes(t);
    assert Forgets(Run(e3), TimerZeroes(t));
  }

  lemma RunNothing()
    ensures Run([]) == CLOSED
  {
  }

  /** The breaker in place, with its timer (when it may fire next, and how many second writes are due) and its windows
      on record. */
  class HedgeBreaker {
    var open: bool
    var windowStart: int
    var windowCount: int
    var due: int
    var zeroes: nat
    ghost var clock: int
    ghost var wins: seq<Win>
    ghost var trips: seq<int>

    ghost function View(): State
      reads this
    {
      State(open, windowStart, windowCount, due, zeroes, clock, wins, trips)
    }

    constructor ()
      ensures View() == CLOSED && Inv(View())
    {
      open, windowStart, windowCount := false, 0, 0;
      due, zeroes, clock, wins, trips := 0, 0, 0, [], [];
    }

    /** Whether fireHedge may send its duplicate request at `now`; asked only while the breaker is closed. */
    method Allow(now: int) returns (send: bool)
      requires Inv(View()) && !open && now >= clock && now > 0
      modifies this
      ensures View() == Fired(old(View()), now) && Inv(View())
      ensures send <==> !open
    {
      FiredKeeps(View(), now);
      RollKeeps(View(), now);
      ghost var st := View();
      if windowStart == 0 || now - windowStart > WINDOW {
        windowStart := now;
        windowCount := 0;
      }
      windowCount := windowCount + 1;
      send := windowCount <= THRESHOLD;
      if !send {
        open := true;
        due := now + COOLDOWN;
      }
      ghost var st' := Fired(st, now);
      clock, wins, trips := st'.clock, st'.wins, st'.trips;
    }

    /** The timer's first write. */
    method Reopen(now: int)
      requires Inv(View()) && open && now >= due && now >= clock && now > 0
      modifies this
      ensures View() == Step(old(View()), TimerOpens(now)) && Inv(View())
    {
      StepKeeps(View(), TimerOpens(now));
      open := false;
      zeroes := zeroes + 1;
      clock := now;
    }

    /** The timer's second write. */
    method ZeroCount(now: int)
      requires Inv(View()) && zeroes > 0 && now >= clock && now > 0
      modifies this
      ensures View() == Step(old(View()), TimerZeroes(now)) && Inv(View())
    {
      StepKeeps(View(), TimerZeroes(now));
      wins := Zeroed(View(), now).wins;
      windowCount := 0;
      zeroes := zeroes - 1;
      clock := now;
    }
  }
}
