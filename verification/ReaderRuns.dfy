/** Runs of a torrent as its readers see them: each reader's range is that of its own position and readahead. */
module ReaderRuns {
  import opened Layouts
  import opened Wanted
  import opened Swarm
  import opened SwarmRuns
  import SwarmLaws
  import EventLaws

  /** A reader takes a new position, or anything else happens. */
  datatype Act = PosChanged(id: nat, reader: Reader) | Other(event: Event)

  /** Only posChanged moves a reader. */
  predicate Proper(a: Act) {
    a.Other? && a.event.Pieces? ==> !a.event.piece.ReaderTo?
  }

  function EventOf(l: Layout, a: Act): Event
    requires l.Valid()
  {
    match a
    case PosChanged(id, r) => Pieces(ReaderTo(id, PiecesUncached(l, r)))
    case Other(e) => e
  }

  function EventsOf(l: Layout, acts: seq<Act>): seq<Event>
    requires l.Valid()
  {
    seq(|acts|, k requires 0 <= k < |acts| => EventOf(l, acts[k]))
  }

  /** A reader that has not read yet. */
  const IDLE: Reader := Reader(0, 0, 0, 0, false)

  function Place(readers: map<nat, Reader>, a: Act): map<nat, Reader> {
    match a
    case PosChanged(id, r) => if id in readers then readers[id := r] else readers
    case Other(Pieces(OpenReader(id))) => if id in readers then readers else readers[id := IDLE]
    case Other(Pieces(EndReader(id))) => readers - {id}
    case Other(_) => readers
  }

  /** Where the readers are after a run. */
  function Placed(acts: seq<Act>): map<nat, Reader> {
    if acts == [] then map[] else Place(Placed(acts[..|acts| - 1]), acts[|acts| - 1])
  }

  /** Each reader's range is the one its position asks for. */
  ghost predicate InPlace(l: Layout, w: Want, readers: map<nat, Reader>)
    requires l.Valid()
  {
    && |w.pieces| == l.NumPieces() && w.readers.Keys == readers.Keys
    && forall id | id in readers :: w.readers[id] == PiecesUncached(l, readers[id])
  }

  // ---- what a step does to the readers ----

  lemma MovedReaders(s: State, id: nat, to: Range)
    requires Inv(s) && PieceEnabled(s, ReaderTo(id, to))
    ensures MoveReader(s, id, to).want.readers == s.want.readers[id := to]
    ensures |MoveReader(s, id, to).want.pieces| == |s.want.pieces|
  {
    PieceReaders(s, ReaderTo(id, to));
    hide MoveReader, Inv;
  }

  lemma ConnReaders(s: State, c: Peers.Peer, e: ConnEvent)
    requires Inv(s) && ConnEnabled(s, c, e)
    ensures ConnStep(s, c, e).want.readers == s.want.readers
    ensures |ConnStep(s, c, e).want.pieces| == |s.want.pieces|
  {
    hide Inv, ConnStep;
    if e.Written? {
      EventLaws.WrittenLaw(s, c, e.ok);
      assert Step(s, Conn(c, e)) == ConnStep(s, c, e);
      hide Step, EventLaws.Finishes, SwarmLaws.Withdrawn, SwarmLaws.Unwanted;
    } else {
      EventLaws.ConnWant(s, c, e);
    }
  }

  lemma PieceReaders(s: State, e: PieceEvent)
    requires Inv(s) && PieceEnabled(s, e)
    ensures PieceStep(s, e).want.readers ==
            match e
            case OpenReader(id) => s.want.readers[id := Range(0, 0)]
            case ReaderTo(id, to) => s.want.readers[id := to]
            case EndReader(id) => s.want.readers - {id}
            case _ => s.want.readers
    ensures |PieceStep(s, e).want.pieces| == |s.want.pieces|
  {
    hide Inv, PieceStep, SwarmLaws.Withdrawn, SwarmLaws.Unwanted, ReaderNow, ReaderReadahead;
    SwarmLaws.PieceAdjusts(s, e);
  }

  lemma StepInPlace(l: Layout, s: State, readers: map<nat, Reader>, a: Act)
    requires Inv(s) && l.Valid() && InPlace(l, s.want, readers) && Proper(a)
    ensures InPlace(l, Step(s, EventOf(l, a)).want, Place(readers, a))
  {
    hide Inv, ConnStep, PieceStep, PiecesUncached, Layout.NumPieces;
    var e := EventOf(l, a);
    match e {
      case Conn(c, conn) => if ConnEnabled(s, c, conn) { ConnReaders(s, c, conn); }
      case Pieces(piece) =>
        IdleRange(l);
        if a.PosChanged? {
          RangeInside(l, a.reader);
        }
        if PieceEnabled(s, piece) {
          PieceReaders(s, piece);
        }
      case _ =>
    }
  }

  lemma IdleRange(l: Layout)
    requires l.Valid()
    ensures PiecesUncached(l, IDLE) == Range(0, 0)
  {
  }

  lemma RangeInside(l: Layout, r: Reader)
    requires l.Valid()
    ensures PiecesUncached(l, r).end <= l.NumPieces()
  {
    var ra := if !r.reading then 0 else if r.readahead < 1 then 1 else r.readahead;
    ByteRegionExact(l, r.offset + r.pos, if ra > r.length - r.pos then r.length - r.pos else ra, 0);
  }

  lemma {:induction false} RunInPlace(l: Layout, s: State, acts: seq<Act>)
    requires Started(s) && Inv(s) && l.Valid() && |s.want.pieces| == l.NumPieces() && forall a | a in acts :: Proper(a)
    ensures InPlace(l, After(s, EventsOf(l, acts)).want, Placed(acts))
  {
    hide Step, Place, Inv, Layout.NumPieces, Proper;
    if acts == [] {
      assert EventsOf(l, acts) == [];
    } else {
      var before, a := acts[..|acts| - 1], acts[|acts| - 1];
      var events := EventsOf(l, acts);
      assert events[..|events| - 1] == EventsOf(l, before);
      assert a in acts && forall x | x in before :: x in acts;
      RunInPlace(l, s, before);
      StepInPlace(l, After(s, EventsOf(l, before)), Placed(before), a);
    }
  }

  // ---- the bytes readers want ----

  /** Some reader wants a byte of the piece. */
  ghost predicate BytesWanted(l: Layout, readers: map<nat, Reader>, i: nat)
    requires l.Valid()
  {
    exists id :: id in readers && ReaderAhead(l, readers[id], i)
  }

  ghost predicate ReaderAhead(l: Layout, r: Reader, i: nat)
    requires l.Valid()
  {
    exists b: nat | ByteIn(l, b, i) :: Ahead(r, b)
  }

  lemma WantedBytes(l: Layout, w: Want, readers: map<nat, Reader>, i: nat)
    requires l.Valid() && InPlace(l, w, readers)
    ensures ReaderWants(w, i) <==> BytesWanted(l, readers, i)
  {
    hide PiecesUncached, ReaderAhead, Layout.NumPieces;
    forall id | id in readers
      ensures w.readers[id].Has(i) <==> ReaderAhead(l, readers[id], i)
    {
      AheadRange(l, readers[id], i);
    }
    if ReaderWants(w, i) {
      var id :| id in w.readers && w.readers[id].Has(i);
      assert id in readers && ReaderAhead(l, readers[id], i);
    }
    if BytesWanted(l, readers, i) {
      var id :| id in readers && ReaderAhead(l, readers[id], i);
      assert id in w.readers && w.readers[id].Has(i);
    }
  }

  lemma AheadRange(l: Layout, r: Reader, i: nat)
    requires l.Valid()
    ensures PiecesUncached(l, r).Has(i) <==> ReaderAhead(l, r, i)
  {
    PiecesUncachedExact(l, r, i);
  }

  /** In every run the pending pieces are exactly those still to be had that hold a byte some reader wants from its
      position on, or that a file or their own priority asks for. */
  lemma RunServes(l: Layout, s: State, acts: seq<Act>, i: nat)
    requires Started(s) && l.Valid() && |s.want.pieces| == l.NumPieces() && forall a | a in acts :: Proper(a)
    ensures Inv(s)
    ensures var w := After(s, EventsOf(l, acts)).want;
            i in w.pending <==> && i < |w.pieces| && !Settled(w, i)
                                && (BytesWanted(l, Placed(acts), i) || FileWants(w.files, i)
                                    || w.pieces[i].priority > PRIORITY_NONE)
  {
    hide Started, After, Inv, Layout.NumPieces, BytesWanted;
    RunSafe(s, EventsOf(l, acts));
    RunInPlace(l, s, acts);
    WantedBytes(l, After(s, EventsOf(l, acts)).want, Placed(acts), i);
  }
}
