/** Peer exchange (pex.go, pexconn.go): deltas of the set of connected addresses, cut from a feed of events. */
module Pex {
  import opened Wrappers
  import opened Collections

  const MAX_DELTA: nat := 50

  /** How an IP address is written: an IPv4 address can also come in its 4-in-6 form. */
  datatype Form = V4 | Mapped | V6

  /** An address as the source keys it: two forms of one IPv4 address are two keys. */
  datatype Addr = Addr(form: Form, host: nat, port: nat)

  /** An address as a message lists and a receiver sees it: the two forms are one. */
  datatype Node = Node(v6: bool, host: nat, port: nat)

  function Wire(a: Addr): Node {
    Node(a.form.V6?, a.host, a.port)
  }

  function Wires(s: set<Addr>): set<Node> {
    set a | a in s :: Wire(a)
  }

  datatype Event = Add(addr: Addr, flags: nat) | Drop(addr: Addr)

  datatype Msg = Msg(added: seq<Node>, flags: seq<nat>, added6: seq<Node>, flags6: seq<nat>, dropped: seq<Node>,
                     dropped6: seq<Node>) {
    function Len(): nat {
      |added| + |added6| + |dropped| + |dropped6|
    }
  }

  const EMPTY: Msg := Msg([], [], [], [], [], [])

  /** A message under construction, with the sets of its added and dropped addresses. */
  datatype Factory = Factory(msg: Msg, added: set<Addr>, dropped: set<Addr>) {
    function DeltaLen(): nat {
      if |added| >= |dropped| then |added| else |dropped|
    }
  }

  // ---- building a message ----

  function IndexOf(s: seq<Node>, n: Node): (i: int)
    ensures -1 <= i < |s| && (i >= 0 ==> s[i] == n && n !in s[..i]) && (i < 0 ==> n !in s)
  {
    if s == [] then -1 else if s[0] == n then 0
    else
      var i := IndexOf(s[1..], n);
      assert i >= 0 ==> s[..i + 1] == [s[0]] + s[1..][..i];
      if i < 0 then -1 else i + 1
  }

  function RemoveAt<T>(s: seq<T>, i: int): seq<T> {
    if 0 <= i < |s| then s[..i] + s[i + 1..] else s
  }

  function AddTo(f: Factory, a: Addr, flags: nat): Factory {
    var m, n := f.msg, Wire(a);
    if a in f.added then f
    else if a in f.dropped then
      Factory(if n.v6 then m.(dropped6 := RemoveAt(m.dropped6, IndexOf(m.dropped6, n)))
              else m.(dropped := RemoveAt(m.dropped, IndexOf(m.dropped, n))), f.added, f.dropped - {a})
    else
      Factory(if n.v6 then m.(added6 := m.added6 + [n], flags6 := m.flags6 + [flags])
              else m.(added := m.added + [n], flags := m.flags + [flags]), f.added + {a}, f.dropped)
  }

  function DropFrom(f: Factory, a: Addr): Factory {
    var m, n := f.msg, Wire(a);
    if a in f.dropped then f
    else if a in f.added then
      var i := IndexOf(if n.v6 then m.added6 else m.added, n);
      Factory(if n.v6 then m.(added6 := RemoveAt(m.added6, i), flags6 := RemoveAt(m.flags6, i))
              else m.(added := RemoveAt(m.added, i), flags := RemoveAt(m.flags, i)), f.added - {a}, f.dropped)
    else
      Factory(if n.v6 then m.(dropped6 := m.dropped6 + [n])
              else m.(dropped := m.dropped + [n]), f.added, f.dropped + {a})
  }

  function Append(f: Factory, e: Event): Factory {
    match e
    case Add(a, flags) => AddTo(f, a, flags)
    case Drop(a) => DropFrom(f, a)
  }

  function Build(events: seq<Event>): Factory {
    if events == [] then Factory(EMPTY, {}, {}) else Append(Build(events[..|events| - 1]), events[|events| - 1])
  }

  // ---- what a message says, for any feed ----

  /** The keys that one listed address stands for. */
  function Forms(s: set<Addr>, n: Node): set<Addr> {
    set a | a in s && Wire(a) == n
  }

  /** A list holds each address of one family once for each of its forms in a set. */
  ghost predicate Lists(l: seq<Node>, s: set<Addr>, v6: bool) {
    forall n: Node :: multiset(l)[n] == if n.v6 == v6 then |Forms(s, n)| else 0
  }

  /** No address of the set is there in two forms. */
  ghost predicate OneForm(s: set<Addr>) {
    forall a, b | a in s && b in s && Wire(a) == Wire(b) :: a == b
  }

  ghost predicate Matches(f: Factory) {
    && Lists(f.msg.added, f.added, false) && Lists(f.msg.added6, f.added, true)
    && Lists(f.msg.dropped, f.dropped, false) && Lists(f.msg.dropped6, f.dropped, true)
    && |f.msg.flags| == |f.msg.added| && |f.msg.flags6| == |f.msg.added6|
    && f.added !! f.dropped
  }

  lemma ListsAppend(l: seq<Node>, s: set<Addr>, v6: bool, a: Addr)
    requires Lists(l, s, v6) && a !in s
    ensures Lists(if Wire(a).v6 == v6 then l + [Wire(a)] else l, s + {a}, v6)
  {
    var l' := if Wire(a).v6 == v6 then l + [Wire(a)] else l;
    forall n: Node
      ensures multiset(l')[n] == if n.v6 == v6 then |Forms(s + {a}, n)| else 0
    {
      assert Forms(s + {a}, n) == if Wire(a) == n then Forms(s, n) + {a} else Forms(s, n);
    }
  }

  lemma Removed(l: seq<Node>, i: nat)
    requires i < |l|
    ensures multiset(RemoveAt(l, i)) == multiset(l) - multiset{l[i]}
  {
    assert l == l[..i] + [l[i]] + l[i + 1..];
  }

  lemma OneFormLess(s: set<Addr>, a: Addr, n: Node)
    requires a in s
    ensures |Forms(s - {a}, n)| == |Forms(s, n)| - if Wire(a) == n then 1 else 0
  {
    assert Forms(s, n) == if Wire(a) == n then Forms(s - {a}, n) + {a} else Forms(s - {a}, n);
  }

  lemma ListsRemove(l: seq<Node>, s: set<Addr>, v6: bool, a: Addr)
    requires Lists(l, s, v6) && a in s
    ensures Lists(if Wire(a).v6 == v6 then RemoveAt(l, IndexOf(l, Wire(a))) else l, s - {a}, v6)
    ensures Wire(a).v6 == v6 ==> Wire(a) in l
  {
    var w := Wire(a);
    var l' := if w.v6 == v6 then RemoveAt(l, IndexOf(l, w)) else l;
    if w.v6 == v6 {
      OneFormLess(s, a, w);
      assert multiset(l)[w] > 0;
      Removed(l, IndexOf(l, w));
    }
    hide Forms, RemoveAt;
    forall n: Node
      ensures multiset(l')[n] == if n.v6 == v6 then |Forms(s - {a}, n)| else 0
    {
      OneFormLess(s, a, n);
    }
  }

  lemma AppendMatches(f: Factory, e: Event)
    requires Matches(f)
    ensures Matches(Append(f, e))
  {
    hide Lists;
    var a, m := e.addr, f.msg;
    if e.Add? && a !in f.added {
      if a in f.dropped {
        ListsRemove(m.dropped, f.dropped, false, a);
        ListsRemove(m.dropped6, f.dropped, true, a);
      } else {
        ListsAppend(m.added, f.added, false, a);
        ListsAppend(m.added6, f.added, true, a);
      }
    } else if e.Drop? && a !in f.dropped {
      if a in f.added {
        ListsRemove(m.added, f.added, false, a);
        ListsRemove(m.added6, f.added, true, a);
      } else {
        ListsAppend(m.dropped, f.dropped, false, a);
        ListsAppend(m.dropped6, f.dropped, true, a);
      }
    }
  }

  /** For any feed a message's lists and sets agree, form by form, and no key is both added and dropped. */
  lemma {:induction false} BuildMatches(events: seq<Event>)
    ensures Matches(Build(events))
  {
    if events != [] {
      BuildMatches(events[..|events| - 1]);
      AppendMatches(Build(events[..|events| - 1]), events[|events| - 1]);
    }
  }

  lemma EmptyMessage(f: Factory)
    requires Matches(f)
    ensures f.msg.Len() == 0 <==> f.added == {} && f.dropped == {}
  {
    hide Lists;
    ListSizes(f);
  }

  lemma {:induction false} BothFamilies(l: seq<Node>, l6: seq<Node>, s: set<Addr>)
    requires Lists(l, s, false) && Lists(l6, s, true)
    ensures |l| + |l6| == |s|
  {
    if s == {} {
      assert forall n: Node :: Forms(s, n) == {};
      assert l != [] ==> multiset(l)[l[0]] > 0;
      assert l6 != [] ==> multiset(l6)[l6[0]] > 0;
    } else {
      var a :| a in s;
      ListsRemove(l, s, false, a);
      ListsRemove(l6, s, true, a);
      hide Lists;
      if Wire(a).v6 {
        BothFamilies(l, RemoveAt(l6, IndexOf(l6, Wire(a))), s - {a});
      } else {
        BothFamilies(RemoveAt(l, IndexOf(l, Wire(a))), l6, s - {a});
      }
      assert s == (s - {a}) + {a};
    }
  }

  /** A message lists as many addresses as its sets hold. */
  lemma ListSizes(f: Factory)
    requires Matches(f)
    ensures |f.msg.added + f.msg.added6| == |f.added| && |f.msg.dropped + f.msg.dropped6| == |f.dropped|
  {
    hide Lists;
    BothFamilies(f.msg.added, f.msg.added6, f.added);
    BothFamilies(f.msg.dropped, f.msg.dropped6, f.dropped);
  }

  ghost predicate Distinct(l: seq<Node>) {
    forall n: Node :: multiset(l)[n] <= 1
  }

  lemma ListsTwice(l: seq<Node>, l6: seq<Node>, s: set<Addr>, n: Node)
    requires Lists(l, s, false) && Lists(l6, s, true)
    ensures multiset(l + l6)[n] == |Forms(s, n)|
  {
  }

  /** A message lists no address twice exactly when its set has none in two forms. */
  lemma DistinctIff(l: seq<Node>, l6: seq<Node>, s: set<Addr>)
    requires Lists(l, s, false) && Lists(l6, s, true)
    ensures Distinct(l + l6) <==> OneForm(s)
  {
    forall n: Node
      ensures multiset(l + l6)[n] == |Forms(s, n)|
    {
      ListsTwice(l, l6, s, n);
    }
    hide Lists;
    if OneForm(s) {
      forall n: Node
        ensures |Forms(s, n)| <= 1
      {
        AtMostOne(Forms(s, n));
      }
    }
    forall a, b | a in s && b in s && Wire(a) == Wire(b) && a != b
      ensures !Distinct(l + l6)
    {
      SubsetSize({a, b}, Forms(s, Wire(a)));
    }
  }

  lemma AtMostOne(s: set<Addr>)
    requires forall a, b | a in s && b in s :: a == b
    ensures |s| <= 1
  {
    if s != {} {
      var a :| a in s;
      assert s == {a};
    }
  }

  // ---- what the addresses are, for alternating feeds ----

  /** The addresses added and not dropped since. */
  function Live(feed: seq<Event>): set<Addr> {
    if feed == [] then {}
    else
      var e := feed[|feed| - 1];
      if e.Add? then Live(feed[..|feed| - 1]) + {e.addr} else Live(feed[..|feed| - 1]) - {e.addr}
  }

  /** Each address is added, dropped, added, ... in turn. */
  ghost predicate Alternates(feed: seq<Event>) {
    forall i | 0 <= i < |feed| :: feed[i].Add? <==> feed[i].addr !in Live(feed[..i])
  }

  /** What a receiver makes of a message. */
  function Receive(remote: set<Node>, m: Msg): set<Node> {
    remote - (set n | n in m.dropped) - (set n | n in m.dropped6) + (set n | n in m.added) + (set n | n in m.added6)
  }

  lemma Listed(l: seq<Node>, l6: seq<Node>, s: set<Addr>, n: Node)
    requires Lists(l, s, false) && Lists(l6, s, true)
    ensures n in l || n in l6 <==> n in Wires(s)
  {
    assert n in l <==> multiset(l)[n] > 0;
    assert n in l6 <==> multiset(l6)[n] > 0;
    if n in Wires(s) {
      var a :| a in s && Wire(a) == n;
      assert a in Forms(s, n);
    } else {
      assert Forms(s, n) == {};
    }
  }

  lemma ReceiveSets(remote: set<Node>, f: Factory)
    requires Matches(f)
    ensures Receive(remote, f.msg) == remote - Wires(f.dropped) + Wires(f.added)
  {
    hide Lists, Wires;
    forall n: Node
      ensures n in f.msg.added || n in f.msg.added6 <==> n in Wires(f.added)
      ensures n in f.msg.dropped || n in f.msg.dropped6 <==> n in Wires(f.dropped)
    {
      Listed(f.msg.added, f.msg.added6, f.added, n);
      Listed(f.msg.dropped, f.msg.dropped6, f.dropped, n);
    }
  }

  /** The message drops an address that stays live in its other form. */
  ghost predicate Hides(f: Factory, was: set<Addr>) {
    exists a, b :: a in f.dropped && b in was - f.dropped && Wire(a) == Wire(b)
  }

  /** An address has two forms at most. */
  lemma TwoForms(a: Addr, b: Addr, c: Addr)
    requires Wire(a) == Wire(b) == Wire(c) && a != b
    ensures c == a || c == b
  {
  }

  /** A message that takes one live set to another does the same for a receiver exactly when it hides no address. */
  lemma ReceiveIff(f: Factory, was: set<Addr>, now: set<Addr>)
    requires Matches(f) && Carries(f, was, now)
    ensures Receive(Wires(was), f.msg) == Wires(now) <==> !Hides(f, was)
  {
    hide Matches, Receive;
    ReceiveSets(Wires(was), f);
    var got := Receive(Wires(was), f.msg);
    if Hides(f, was) {
      var a, b :| a in f.dropped && b in was - f.dropped && Wire(a) == Wire(b);
      assert b in now && Wire(b) in Wires(now);
      assert Wire(a) in Wires(f.dropped);
      forall c | c in f.added
        ensures Wire(c) != Wire(b)
      {
        if Wire(c) == Wire(b) {
          TwoForms(a, b, c);
        }
      }
    } else {
      forall n: Node
        ensures n in got <==> n in Wires(now)
      {
        NodeTold(f, was, now, n);
      }
    }
  }

  lemma NodeTold(f: Factory, was: set<Addr>, now: set<Addr>, n: Node)
    requires Carries(f, was, now) && !Hides(f, was)
    ensures n in Wires(was) - Wires(f.dropped) + Wires(f.added) <==> n in Wires(now)
  {
    if n in Wires(was) && n !in Wires(f.dropped) {
      var b :| b in was && Wire(b) == n;
      assert b in now;
    }
    if n in Wires(f.added) {
      var b :| b in f.added && Wire(b) == n;
      assert b in now;
    }
    if n in Wires(now) && n !in Wires(f.added) {
      var b :| b in now && Wire(b) == n;
      assert b in was - f.dropped && n in Wires(was);
      assert forall a | a in f.dropped :: Wire(a) != n;
    }
  }

  /** The message f takes the live set `was` to `now`, adding only what was not live and dropping only what was. */
  ghost predicate Carries(f: Factory, was: set<Addr>, now: set<Addr>) {
    was - f.dropped + f.added == now && f.added !! was && f.dropped <= was
  }

  lemma CarriesOn(f: Factory, was: set<Addr>, now: set<Addr>, e: Event)
    requires Carries(f, was, now) && (e.Add? <==> e.addr !in now)
    ensures Carries(Append(f, e), was, if e.Add? then now + {e.addr} else now - {e.addr})
  {
    assert e.addr in now <==> e.addr in f.added || (e.addr in was && e.addr !in f.dropped);
  }

  /** A delta cut from an alternating feed takes the live set at its start to the live set at its end. */
  lemma {:induction false} DeltaLive(feed: seq<Event>, from: nat, end: nat)
    requires from <= end <= |feed| && Alternates(feed)
    ensures Carries(Build(feed[from..end]), Live(feed[..from]), Live(feed[..end]))
    decreases end
  {
    hide Append;
    if from < end {
      DeltaLive(feed, from, end - 1);
      var d, u := feed[from..end], feed[..end];
      assert d[..|d| - 1] == feed[from..end - 1] && u[..|u| - 1] == feed[..end - 1];
      CarriesOn(Build(feed[from..end - 1]), Live(feed[..from]), Live(feed[..end - 1]), feed[end - 1]);
    }
  }

  // ---- flags ----

  /** The flags an address was last added with. */
  function LastFlags(feed: seq<Event>, a: Addr): nat {
    if feed == [] then 0
    else
      var e := feed[|feed| - 1];
      if e.Add? && e.addr == a then e.flags else LastFlags(feed[..|feed| - 1], a)
  }

  /** The list has the address with this flag beside it. */
  ghost predicate Flagged(l: seq<Node>, flags: seq<nat>, n: Node, flag: nat) {
    |flags| == |l| && exists i :: 0 <= i < |l| && l[i] == n && flags[i] == flag
  }

  ghost predicate Tagged(m: Msg, a: Addr, flag: nat) {
    if Wire(a).v6 then Flagged(m.added6, m.flags6, Wire(a), flag) else Flagged(m.added, m.flags, Wire(a), flag)
  }

  lemma FlaggedAppend(l: seq<Node>, flags: seq<nat>, x: Node, flag: nat, n: Node, was: nat)
    requires |flags| == |l|
    ensures Flagged(l + [x], flags + [flag], x, flag)
    ensures Flagged(l, flags, n, was) ==> Flagged(l + [x], flags + [flag], n, was)
  {
    assert (l + [x])[|l|] == x && (flags + [flag])[|l|] == flag;
    if Flagged(l, flags, n, was) {
      var i :| 0 <= i < |l| && l[i] == n && flags[i] == was;
      assert (l + [x])[i] == n && (flags + [flag])[i] == was;
    }
  }

  lemma FlaggedRemove(l: seq<Node>, flags: seq<nat>, k: nat, n: Node, flag: nat)
    requires k < |l| && l[k] != n && Flagged(l, flags, n, flag)
    ensures Flagged(RemoveAt(l, k), RemoveAt(flags, k), n, flag)
  {
    var i :| 0 <= i < |l| && l[i] == n && flags[i] == flag;
    RemovedMoves(l, k, i);
    RemovedMoves(flags, k, i);
    hide RemoveAt;
  }

  lemma RemovedMoves<T>(s: seq<T>, k: nat, i: nat)
    requires k < |s| && i < |s| && i != k
    ensures |RemoveAt(s, k)| == |s| - 1 && RemoveAt(s, k)[if i < k then i else i - 1] == s[i]
  {
  }

  /** An event keeps the flags of every address that stays in the message, and gives a new one its own. */
  lemma AppendTagged(f: Factory, e: Event, a: Addr, flag: nat)
    requires Matches(f) && (a in f.added ==> Tagged(f.msg, a, flag)) && a in Append(f, e).added
    requires forall b | b in f.added + {e.addr} && Wire(a) == Wire(b) :: a == b
    ensures Tagged(Append(f, e).msg, a, if a in f.added then flag else e.flags)
  {
    hide Lists;
    var m, x := f.msg, Wire(e.addr);
    if e.Add? && e.addr !in f.added && e.addr !in f.dropped {
      FlaggedAppend(m.added, m.flags, x, e.flags, Wire(a), flag);
      FlaggedAppend(m.added6, m.flags6, x, e.flags, Wire(a), flag);
    } else if e.Drop? && e.addr in f.added && e.addr !in f.dropped && x.v6 == Wire(a).v6 {
      ListsRemove(m.added, f.added, false, e.addr);
      ListsRemove(m.added6, f.added, true, e.addr);
      if x.v6 {
        FlaggedRemove(m.added6, m.flags6, IndexOf(m.added6, x), Wire(a), flag);
      } else {
        FlaggedRemove(m.added, m.flags, IndexOf(m.added, x), Wire(a), flag);
      }
    }
  }

  /** A message cut from an alternating feed without two forms of an address lists every address it adds with the flags
      it was last added with. */
  lemma {:induction false} FlagsTold(feed: seq<Event>, from: nat, end: nat, a: Addr)
    requires from <= end <= |feed| && Alternates(feed) && OneForm(Addrs(feed)) && a in Build(feed[from..end]).added
    ensures Tagged(Build(feed[from..end]).msg, a, LastFlags(feed[..end], a))
    decreases end
  {
    hide Append, Alternates, Matches, Live, Addrs, Tagged;
    if from < end {
      var d, u, e := feed[from..end], feed[..end], feed[end - 1];
      assert d[..|d| - 1] == feed[from..end - 1] && u[..|u| - 1] == feed[..end - 1];
      var f := Build(feed[from..end - 1]);
      BuildMatches(feed[from..end - 1]);
      if a in f.added {
        FlagsTold(feed, from, end - 1, a);
      }
      AddedLive(feed, from, end - 1);
      AddedLive(feed, from, end);
      AddedByAdd(f, e, a);
      NextAlternates(feed, end - 1);
      FeedAddr(feed, end - 1);
      AppendTagged(f, e, a, LastFlags(feed[..end - 1], a));
    }
  }

  lemma AddedLive(feed: seq<Event>, from: nat, end: nat)
    requires from <= end <= |feed| && Alternates(feed)
    ensures Build(feed[from..end]).added <= Live(feed[..end]) <= Addrs(feed)
  {
    DeltaLive(feed, from, end);
    LiveAddrs(feed[..end]);
    assert forall e | e in feed[..end] :: e in feed;
  }

  lemma AddedByAdd(f: Factory, e: Event, a: Addr)
    requires a in Append(f, e).added
    ensures a in f.added || (e.Add? && e.addr == a)
    ensures e.Add? && e.addr == a && a in f.added ==> Append(f, e) == f
  {
  }

  lemma NextAlternates(feed: seq<Event>, k: nat)
    requires Alternates(feed) && k < |feed|
    ensures feed[k].Add? <==> feed[k].addr !in Live(feed[..k])
  {
  }

  lemma FeedAddr(feed: seq<Event>, k: nat)
    requires k < |feed|
    ensures feed[k].addr in Addrs(feed)
  {
    assert feed[k] in feed;
  }

  // ---- messages and runs ----

  /** How many events of the feed from `from` on go into the next message: it stops when it is full. */
  function Take(feed: seq<Event>, from: nat, n: nat): (k: nat)
    requires from + n <= |feed|
    ensures n <= k && from + k <= |feed|
    decreases |feed| - from - n
  {
    if from + n == |feed| || Build(feed[from..from + n]).DeltaLen() >= MAX_DELTA then n else Take(feed, from, n + 1)
  }

  /** Genmsg: a first message tells everything, a later one the events since the cursor. */
  function Genmsg(feed: seq<Event>, cursor: Option<nat>): (Factory, Option<nat>)
    requires cursor.Some? ==> cursor.value <= |feed|
  {
    if cursor.None? then (Build(feed), if feed == [] then None else Some(|feed|))
    else
      var k := Take(feed, cursor.value, 0);
      (Build(feed[cursor.value..cursor.value + k]), Some(cursor.value + k))
  }

  lemma AppendOne(f: Factory, e: Event)
    ensures |Append(f, e).added| <= |f.added| + 1 && |Append(f, e).dropped| <= |f.dropped| + 1
  {
    var a := e.addr;
    if a in f.added {
      assert f.added == (f.added - {a}) + {a};
    }
    if a in f.dropped {
      assert f.dropped == (f.dropped - {a}) + {a};
    }
  }

  /** A later message adds and drops at most 50 addresses each, and if it could take more it takes it all. */
  lemma {:induction false} TakeBound(feed: seq<Event>, from: nat, n: nat)
    requires from + n <= |feed| && Build(feed[from..from + n]).DeltaLen() <= MAX_DELTA
    ensures var k := Take(feed, from, n); var f := Build(feed[from..from + k]);
            f.DeltaLen() <= MAX_DELTA && (f.DeltaLen() < MAX_DELTA ==> from + k == |feed|)
    decreases |feed| - from - n
  {
    hide Append;
    if from + n < |feed| && Build(feed[from..from + n]).DeltaLen() < MAX_DELTA {
      var d := feed[from..from + n + 1];
      assert d[..|d| - 1] == feed[from..from + n];
      AppendOne(Build(feed[from..from + n]), d[|d| - 1]);
      TakeBound(feed, from, n + 1);
    }
  }

  /** A torrent's feed, a connection's cursor and what its peer has made of the messages so far. */
  datatype State = State(feed: seq<Event>, cursor: Option<nat>, remote: set<Node>)

  datatype Act = Happen(event: Event) | Share

  predicate Sane(st: State) {
    st.cursor.Some? ==> st.cursor.value <= |st.feed|
  }

  /** genmsg sends nothing, and keeps its cursor, when the message would be empty. */
  function Step(st: State, act: Act): (st': State)
    requires Sane(st)
    ensures Sane(st')
  {
    match act
    case Happen(e) => st.(feed := st.feed + [e])
    case Share =>
      var (f, next) := Genmsg(st.feed, st.cursor);
      if f.msg.Len() == 0 then st else State(st.feed, next, Receive(st.remote, f.msg))
  }

  function Run(acts: seq<Act>): (st: State)
    ensures Sane(st)
  {
    if acts == [] then State([], None, {}) else Step(Run(acts[..|acts| - 1]), acts[|acts| - 1])
  }

  /** The live set at the sender's cursor. */
  function Told(st: State): set<Addr>
    requires Sane(st)
  {
    if st.cursor.None? then {} else Live(st.feed[..st.cursor.value])
  }

  /** The receiver holds exactly the addresses live at the sender's cursor. */
  ghost predicate Tells(st: State)
    requires Sane(st)
  {
    st.remote == Wires(Told(st))
  }

  /** The next message would hide an address. */
  ghost predicate NextHides(st: State)
    requires Sane(st)
  {
    Hides(Genmsg(st.feed, st.cursor).0, Told(st))
  }

  lemma AlternatesPrefix(feed: seq<Event>, n: nat)
    requires Alternates(feed) && n <= |feed|
    ensures Alternates(feed[..n])
  {
    assert forall i | 0 <= i < n :: feed[..n][..i] == feed[..i];
  }

  lemma NothingYet()
    ensures Live([]) == {} && Build([]) == Factory(EMPTY, {}, {})
  {
  }

  /** A message takes the live set at the cursor to the one at the next cursor, and to all live addresses if it is
      empty. */
  lemma MessageCarries(st: State)
    requires Sane(st) && Alternates(st.feed)
    ensures var (f, next) := Genmsg(st.feed, st.cursor);
            && Matches(f) && Sane(st.(cursor := next)) && Carries(f, Told(st), Told(st.(cursor := next)))
            && (f.msg.Len() == 0 ==> Told(st) == Live(st.feed))
  {
    hide Build, Live, Matches, Alternates, Take, Lists;
    var from := if st.cursor.None? then 0 else st.cursor.value;
    var k := if st.cursor.None? then |st.feed| else Take(st.feed, from, 0);
    assert st.cursor.None? ==> st.feed[0..|st.feed|] == st.feed;
    DeltaLive(st.feed, from, from + k);
    BuildMatches(st.feed[from..from + k]);
    EmptyMessage(Build(st.feed[from..from + k]));
    assert st.feed[..0] == [] && st.feed[..|st.feed|] == st.feed;
    NothingYet();
    if st.cursor.Some? {
      assert st.feed[from..from + 0] == [];
      TakeBound(st.feed, from, 0);
    }
  }

  /** Sharing keeps the receiver right exactly when the message hides no address. */
  lemma ShareTells(st: State)
    requires Sane(st) && Alternates(st.feed) && Tells(st)
    ensures Tells(Step(st, Share)) <==> !NextHides(st)
    ensures Genmsg(st.feed, st.cursor).0.msg.Len() == 0 ==> st.remote == Wires(Live(st.feed))
  {
    hide Live, Receive, Matches, Alternates, Wires, Hides, Genmsg;
    var (f, next) := Genmsg(st.feed, st.cursor);
    MessageCarries(st);
    ReceiveIff(f, Told(st), Told(st.(cursor := next)));
    EmptyMessage(f);
    if f.msg.Len() == 0 {
      NothingHides(f, Told(st));
    }
  }

  lemma NothingHides(f: Factory, was: set<Addr>)
    requires f.dropped == {}
    ensures !Hides(f, was)
  {
  }

  ghost predicate HidesNothing(acts: seq<Act>) {
    forall k | 0 <= k < |acts| && acts[k].Share? :: !NextHides(Run(acts[..k]))
  }

  ghost predicate AlwaysTells(acts: seq<Act>) {
    forall k | 0 <= k <= |acts| :: Tells(Run(acts[..k]))
  }

  lemma HappenTells(st: State, e: Event)
    requires Sane(st)
    ensures Tells(Step(st, Happen(e))) <==> Tells(st)
  {
    if st.cursor.Some? {
      assert (st.feed + [e])[..st.cursor.value] == st.feed[..st.cursor.value];
    }
  }

  lemma {:induction false} FeedPrefix(acts: seq<Act>, k: nat)
    requires k <= |acts|
    ensures |Run(acts[..k]).feed| <= |Run(acts).feed|
    ensures Run(acts).feed[..|Run(acts[..k]).feed|] == Run(acts[..k]).feed
  {
    if k == |acts| {
      assert acts[..k] == acts;
    } else {
      var before := acts[..|acts| - 1];
      assert before[..k] == acts[..k];
      FeedPrefix(before, k);
    }
  }

  lemma NextTells(acts: seq<Act>, k: nat)
    requires k < |acts| && Alternates(Run(acts).feed) && Tells(Run(acts[..k]))
    ensures Tells(Run(acts[..k + 1])) <==> (acts[k].Share? ==> !NextHides(Run(acts[..k])))
  {
    hide Alternates, Tells, NextHides, Step;
    var st := Run(acts[..k]);
    assert acts[..k + 1][..k] == acts[..k];
    if acts[k].Share? {
      FeedPrefix(acts, k);
      AlternatesPrefix(Run(acts).feed, |st.feed|);
      ShareTells(st);
    } else {
      HappenTells(st, acts[k].event);
    }
  }

  /** In every run over an alternating feed, however it is cut into messages, the receiver holds exactly the addresses
      live at the sender's cursor after every step, if and only if no message hides one. */
  lemma RunTellsIff(acts: seq<Act>)
    requires Alternates(Run(acts).feed)
    ensures AlwaysTells(acts) <==> HidesNothing(acts)
  {
    hide Alternates, Tells, NextHides, Run;
    if AlwaysTells(acts) {
      forall k | 0 <= k < |acts| && acts[k].Share?
        ensures !NextHides(Run(acts[..k]))
      {
        assert Tells(Run(acts[..k])) && Tells(Run(acts[..k + 1]));
        NextTells(acts, k);
      }
    }
    if HidesNothing(acts) {
      forall k | 0 <= k <= |acts|
        ensures Tells(Run(acts[..k]))
      {
        HidingNothingTells(acts, k);
      }
    }
  }

  lemma {:induction false} HidingNothingTells(acts: seq<Act>, k: nat)
    requires Alternates(Run(acts).feed) && HidesNothing(acts) && k <= |acts|
    ensures Tells(Run(acts[..k]))
  {
    if k == 0 {
      assert acts[..0] == [];
      assert Wires({}) == {};
    } else {
      HidingNothingTells(acts, k - 1);
      NextTells(acts, k - 1);
    }
  }

  /** The addresses of a feed. */
  function Addrs(feed: seq<Event>): set<Addr> {
    set e | e in feed :: e.addr
  }

  lemma {:induction false} LiveAddrs(feed: seq<Event>)
    ensures Live(feed) <= Addrs(feed)
  {
    if feed != [] {
      LiveAddrs(feed[..|feed| - 1]);
      assert feed[|feed| - 1] in feed && forall e | e in feed[..|feed| - 1] :: e in feed;
    }
  }

  /** Where no address comes in two forms no message hides one. */
  lemma OneFormHidesNot(st: State)
    requires Sane(st) && Alternates(st.feed) && OneForm(Addrs(st.feed))
    ensures !NextHides(st)
  {
    hide Genmsg, Alternates, Matches, Live, Addrs;
    MessageCarries(st);
    var f := Genmsg(st.feed, st.cursor).0;
    assert f.dropped <= Told(st);
    ToldAddrs(st);
  }

  lemma ToldAddrs(st: State)
    requires Sane(st)
    ensures Told(st) <= Addrs(st.feed)
  {
    if st.cursor.Some? {
      var feed := st.feed[..st.cursor.value];
      LiveAddrs(feed);
      assert forall e | e in feed :: e in st.feed;
    }
  }

  /** In every run over an alternating feed without two forms of an address the receiver holds exactly the addresses
      live at the sender's cursor, and when there is nothing to send it holds all live addresses. */
  lemma RunTells(acts: seq<Act>)
    requires Alternates(Run(acts).feed) && OneForm(Addrs(Run(acts).feed))
    ensures Tells(Run(acts))
    ensures Genmsg(Run(acts).feed, Run(acts).cursor).0.msg.Len() == 0 ==>
              Run(acts).remote == Wires(Live(Run(acts).feed))
  {
    hide Alternates, NextHides, Run, OneForm, Genmsg, Live, Wires, Addrs;
    forall k | 0 <= k < |acts| && acts[k].Share?
      ensures !NextHides(Run(acts[..k]))
    {
      FeedPrefix(acts, k);
      AlternatesPrefix(Run(acts).feed, |Run(acts[..k]).feed|);
      FormsPrefix(Run(acts).feed, |Run(acts[..k]).feed|);
      OneFormHidesNot(Run(acts[..k]));
    }
    RunTellsIff(acts);
    assert acts[..|acts|] == acts;
    ShareTells(Run(acts));
  }

  lemma FormsPrefix(feed: seq<Event>, n: nat)
    requires OneForm(Addrs(feed)) && n <= |feed|
    ensures OneForm(Addrs(feed[..n]))
  {
    assert forall e | e in feed[..n] :: e in feed;
    assert Addrs(feed[..n]) <= Addrs(feed);
  }

  lemma RunMore(acts: seq<Act>, act: Act)
    ensures Run(acts + [act]) == Step(Run(acts), act)
  {
    assert (acts + [act])[..|acts|] == acts;
  }

  lemma FeedMore(feed: seq<Event>, e: Event)
    ensures Build(feed + [e]) == Append(Build(feed), e)
    ensures Live(feed + [e]) == if e.Add? then Live(feed) + {e.addr} else Live(feed) - {e.addr}
  {
    assert (feed + [e])[..|feed|] == feed;
  }

  lemma AlternatesMore(feed: seq<Event>, e: Event)
    requires Alternates(feed) && (e.Add? <==> e.addr !in Live(feed))
    ensures Alternates(feed + [e])
  {
    assert forall i | 0 <= i <= |feed| :: (feed + [e])[..i] == feed[..i];
    assert feed[..|feed|] == feed;
  }

  /** A message from the event before the end on is that event. */
  lemma LastOne(feed: seq<Event>, e: Event)
    ensures Genmsg(feed + [e], Some(|feed|)) == (Build([e]), Some(|feed| + 1))
  {
    var all := feed + [e];
    assert all[|feed|..|feed|] == [] && all[|feed|..|feed| + 1] == [e];
    NothingYet();
    assert Take(all, |feed|, 0) == Take(all, |feed|, 1) == 1;
  }

  lemma DropMessage(a: Addr)
    ensures Build([Drop(a)]) == DropFrom(Factory(EMPTY, {}, {}), a)
  {
    assert [Drop(a)][..0] == [];
  }

  /** When a receiver has been told everything and two forms of an address are live, dropping one of them takes the
      address from the receiver while the other is live. */
  lemma DropHides(acts: seq<Act>, a: Addr, b: Addr)
    requires var st := Run(acts); Alternates(st.feed) && Tells(st) && st.cursor == Some(|st.feed|)
    requires a in Told(Run(acts)) && b in Told(Run(acts)) && a != b && Wire(a) == Wire(b)
    ensures var st' := Run(acts + [Happen(Drop(a))] + [Share]);
            Alternates(st'.feed) && b in Told(st') && !Tells(st') && Told(st') == Live(st'.feed)
  {
    hide Run, Live, Build, Genmsg, Alternates, Append;
    var st, e := Run(acts), Drop(a);
    RunMore(acts, Happen(e));
    RunMore(acts + [Happen(e)], Share);
    assert st.feed[..|st.feed|] == st.feed;
    FeedMore(st.feed, e);
    AlternatesMore(st.feed, e);
    LastOne(st.feed, e);
    DropMessage(a);
    var st' := Run(acts + [Happen(e)] + [Share]);
    assert st'.feed[..|st'.feed|] == st'.feed;
    assert Wire(b) !in st'.remote;
    assert b in Told(st') && Wire(b) in Wires(Told(st'));
  }

  /** The first message tells everything. */
  lemma FirstShare(acts: seq<Act>)
    requires var st := Run(acts); Alternates(st.feed) && Tells(st) && st.cursor == None && Live(st.feed) != {}
    ensures var st' := Run(acts + [Share]);
            st'.feed == Run(acts).feed && st'.cursor == Some(|st'.feed|) && Tells(st')
  {
    hide Run, Live, Build, Alternates, Matches;
    var st := Run(acts);
    RunMore(acts, Share);
    ShareTells(st);
    MessageCarries(st);
    EmptyMessage(Build(st.feed));
    NothingYet();
    assert !NextHides(st);
  }

  lemma AddOne(acts: seq<Act>, a: Addr)
    requires var st := Run(acts); Alternates(st.feed) && Tells(st) && st.cursor == None && a !in Live(st.feed)
    ensures var st, st' := Run(acts), Run(acts + [Happen(Add(a, 0))]);
            Alternates(st'.feed) && Tells(st') && st'.cursor == None && Live(st'.feed) == Live(st.feed) + {a}
  {
    hide Alternates, Tells, Live, Run;
    var feed := Run(acts).feed;
    RunMore(acts, Happen(Add(a, 0)));
    HappenTells(Run(acts), Add(a, 0));
    FeedMore(feed, Add(a, 0));
    AlternatesMore(feed, Add(a, 0));
  }

  lemma AddBoth(acts: seq<Act>, a: Addr, b: Addr) returns (acts': seq<Act>)
    requires acts == [] && a != b
    ensures var st := Run(acts'); Alternates(st.feed) && Tells(st) && st.cursor == None && Live(st.feed) == {a, b}
  {
    assert Wires({}) == {};
    hide Alternates, Tells, Live;
    NothingYet();
    StartTells();
    AddOne(acts, a);
    AddOne(acts + [Happen(Add(a, 0))], b);
    acts' := acts + [Happen(Add(a, 0))] + [Happen(Add(b, 0))];
  }

  lemma StartTells()
    ensures Alternates([]) && Tells(State([], None, {}))
  {
  }

  /** Every IPv4 address has a run that alternates and ends with its 4-in-6 form live and unknown to the receiver. */
  lemma TwoFormsHide(host: nat, port: nat) returns (acts: seq<Act>)
    ensures var b := Addr(Mapped, host, port);
            Alternates(Run(acts).feed) && b in Live(Run(acts).feed) && b in Told(Run(acts)) && !Tells(Run(acts))
  {
    hide Alternates, Run, Live, Tells;
    var a, b := Addr(V4, host, port), Addr(Mapped, host, port);
    var first := AddBoth([], a, b);
    FirstShare(first);
    var feed := Run(first).feed;
    assert feed[..|feed|] == feed;
    DropHides(first + [Share], a, b);
    acts := first + [Share] + [Happen(Drop(a))] + [Share];
  }
}
