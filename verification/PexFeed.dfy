/** Peer exchange as the torrent keeps it in place: message factories, the event feed and a connection's cursor.
    A link into the feed is the number of events up to it. */
module PexFeed {
  import opened Wrappers
  import opened Pex

  method Index(s: seq<Node>, n: Node) returns (i: int)
    ensures i == IndexOf(s, n)
  {
    i := 0;
    while i < |s|
      invariant 0 <= i <= |s| && n !in s[..i]
    {
      if s[i] == n {
        return;
      }
      i := i + 1;
    }
    return -1;
  }

  class MsgFactory {
    var msg: Msg
    var added: set<Addr>
    var dropped: set<Addr>

    constructor ()
      ensures View() == Build([])
    {
      msg, added, dropped := EMPTY, {}, {};
    }

    function View(): Factory
      reads this
    {
      Factory(msg, added, dropped)
    }

    method Add(a: Addr, flags: nat)
      modifies this
      ensures View() == AddTo(old(View()), a, flags)
    {
      if a in added {
        return;
      }
      var n := Wire(a);
      if !n.v6 {
        if a in dropped {
          var i := Index(msg.dropped, n);
          if i >= 0 {
            msg := msg.(dropped := msg.dropped[..i] + msg.dropped[i + 1..]);
          }
          dropped := dropped - {a};
          return;
        }
        msg := msg.(added := msg.added + [n], flags := msg.flags + [flags]);
      } else {
        if a in dropped {
          var i := Index(msg.dropped6, n);
          if i >= 0 {
            msg := msg.(dropped6 := msg.dropped6[..i] + msg.dropped6[i + 1..]);
          }
          dropped := dropped - {a};
          return;
        }
        msg := msg.(added6 := msg.added6 + [n], flags6 := msg.flags6 + [flags]);
      }
      added := added + {a};
    }

    method Drop(a: Addr)
      requires Matches(View())
      modifies this
      ensures View() == DropFrom(old(View()), a)
    {
      if a in dropped {
        return;
      }
      var n := Wire(a);
      if !n.v6 {
        if a in added {
          var i := Index(msg.added, n);
          if i >= 0 {
            msg := msg.(added := msg.added[..i] + msg.added[i + 1..], flags := msg.flags[..i] + msg.flags[i + 1..]);
          }
          added := added - {a};
          return;
        }
        msg := msg.(dropped := msg.dropped + [n]);
      } else {
        if a in added {
          var i := Index(msg.added6, n);
          if i >= 0 {
            msg := msg.(added6 := msg.added6[..i] + msg.added6[i + 1..],
                        flags6 := msg.flags6[..i] + msg.flags6[i + 1..]);
          }
          added := added - {a};
          return;
        }
        msg := msg.(dropped6 := msg.dropped6 + [n]);
      }
      dropped := dropped + {a};
    }

    method AppendEvent(e: Event)
      requires Matches(View())
      modifies this
      ensures View() == Append(old(View()), e) && Matches(View())
    {
      AppendMatches(View(), e);
      match e
      case Add(a, flags) => Add(a, flags);
      case Drop(a) => Drop(a);
    }
  }

  class PexState {
    var feed: seq<Event>
    const msg0: MsgFactory

    ghost predicate Valid()
      reads this, msg0
    {
      msg0.View() == Build(feed)
    }

    constructor ()
      ensures Valid() && feed == [] && fresh(msg0)
    {
      feed := [];
      msg0 := new MsgFactory();
    }

    method AppendEvent(e: Event)
      requires Valid()
      modifies this, msg0
      ensures Valid() && feed == old(feed) + [e]
    {
      BuildMatches(feed);
      msg0.AppendEvent(e);
      feed := feed + [e];
      assert feed[..|feed| - 1] == old(feed);
    }

    /** Collect events from `from` on until the message is full or the feed ends. */
    method Delta(from: nat) returns (msg: Msg, n: nat, ghost f: Factory)
      requires from <= |feed|
      ensures n == Take(feed, from, 0) && f == Build(feed[from..from + n]) && msg == f.msg
    {
      hide Matches, Append;
      var factory := new MsgFactory();
      n := 0;
      assert feed[from..from + n] == [];
      while from + n < |feed|
        invariant from + n <= |feed| && Take(feed, from, 0) == Take(feed, from, n)
        invariant factory.View() == Build(feed[from..from + n]) && fresh(factory)
      {
        if factory.View().DeltaLen() >= MAX_DELTA {
          break;
        }
        BuildMatches(feed[from..from + n]);
        BuildNext(feed, from, n);
        factory.AppendEvent(feed[from + n]);
        n := n + 1;
      }
      f := factory.View();
      msg := factory.msg;
    }

    /** A message and the cursor to pass to the next call. */
    method NextMsg(start: Option<nat>) returns (msg: Msg, last: Option<nat>)
      requires Valid() && (start.Some? ==> start.value <= |feed|)
      ensures msg == Genmsg(feed, start).0.msg && last == Genmsg(feed, start).1
      ensures start.Some? ==> |msg.added + msg.added6| <= MAX_DELTA && |msg.dropped + msg.dropped6| <= MAX_DELTA
    {
      hide Matches, Append, Build, Take;
      if start.None? {
        return msg0.msg, if feed == [] then None else Some(|feed|);
      }
      var from := start.value;
      var m, n, f := Delta(from);
      BuildMatches(feed[from..from + n]);
      assert feed[from..from + 0] == [];
      NothingYet();
      TakeBound(feed, from, 0);
      ListSizes(f);
      return m, Some(from + n);
    }
  }

  lemma BuildNext(feed: seq<Event>, from: nat, n: nat)
    requires from + n < |feed|
    ensures Build(feed[from..from + n + 1]) == Append(Build(feed[from..from + n]), feed[from + n])
  {
    assert feed[from..from + n + 1][..n] == feed[from..from + n];
  }

  /** A connection's cursor into the feed: None until its first message. */
  class PexConn {
    const pex: PexState
    var last: Option<nat>

    constructor (pex: PexState)
      ensures this.pex == pex && last == None
    {
      this.pex, last := pex, None;
    }

    method GenMsg(ghost remote: set<Node>) returns (tx: Option<Msg>)
      requires pex.Valid() && (last.Some? ==> last.value <= |pex.feed|)
      modifies this
      ensures var st := State(pex.feed, old(last), remote);
              && (tx.None? ==> Step(st, Share) == st && last == old(last))
              && (tx.Some? ==> Step(st, Share) == State(pex.feed, last, Receive(remote, tx.value)))
    {
      var msg, next := pex.NextMsg(last);
      if msg.Len() == 0 {
        return None;
      }
      last := next;
      return Some(msg);
    }
  }
}
