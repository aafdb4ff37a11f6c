/** Streams whose access units are key frames or not as a whole: there every packet is marked,
    however many of them a unit takes. */
module KeyPictures {
  import opened Bytes
  import opened AccessUnits
  import opened StreamParts
  import opened Boundaries
  import opened UnitBytes
  import opened Packetizing
  import opened PacketizingProofs
  import opened PacketizingRuns
  import opened PacketRoom
  import opened ChunkIndependence
  import opened KeyMarks
  import opened KeyRuns

  /** Every start code that does not end a unit has a key frame's header exactly when the one
      before it has. */
  ghost predicate KeysAlike(c: Splitter, t: seq<Byte>) {
    forall p: nat :: 0 < p && CodeAt(c, t, p) && !CutsAfter(c, t, p) ==> (KeyAt(c, t, p) <==> KeyBefore(c, t, p))
  }

  /** Every packet is marked as a key frame exactly when its unit is one. */
  ghost predicate AllKeysRight(c: Splitter, t: seq<Byte>, ps: seq<Packet>) {
    forall j :: 0 <= j < |ps| ==>
      var i := |Join(ps[..j]).0|;
      i < |Units(c, t)| && (ps[j].key <==> KeyBefore(c, t, UnitEnd(c, t, i)))
  }

  /** Every packet of unit `i` is marked by it. */
  ghost function UnitKey(c: Splitter, t: seq<Byte>, i: nat): Claim
    requires i < |Units(c, t)|
  {
    Claim(i, KeyBefore(c, t, UnitEnd(c, t, i)), true)
  }

  /** Within a unit the last header stays alike. */
  lemma {:induction false} KeyStays(c: Splitter, t: seq<Byte>, q: nat, p: nat)
    requires KeysAlike(c, t) && 0 < q <= p <= End(c, t, q) && q <= |t|
    ensures KeyBefore(c, t, p) <==> KeyBefore(c, t, q)
    decreases p - q
  {
    hide KeyBefore, StartsAt, KeyAt, CodeAt;
    if q < p {
      KeyStays(c, t, q + 1, p);
      BeforeNext(c, t, q);
      StartIs(c, t, q);
    }
  }

  lemma UnitDecides(c: Splitter, t: seq<Byte>, i: nat)
    requires KeysAlike(c, t) && Apart(c, t) && i < |Units(c, t)|
    ensures Decided(c, t, UnitKey(c, t, i))
  {
    hide KeysAlike, Apart, Split, Quiet, KeyBefore, TakenWith, IsKeyHeader, UnitEnd, Units;
    var x := UnitKey(c, t, i);
    forall q: nat | q <= |t| && Due(c, t, q, x)
      ensures IsKeyHeader(c, Split(c, t, q).header) == x.key && TakenWith(c, t, q, x.key)
    {
      StreamThere(c, t, i);
      EndOf(c, t, q);
      if q == 0 {
        QuietHeader(c, t, q);
        NothingTaken(c, t, x.key);
      } else {
        KeyStays(c, t, q, End(c, t, q));
        HeaderIs(c, t, q);
        KeyHeaderIs(c, Split(c, t, q).header);
        AllTaken(c, t, q, x.key);
      }
    }
  }

  lemma NothingTaken(c: Splitter, t: seq<Byte>, b: bool)
    ensures TakenWith(c, t, 0, b)
  {}

  /** A start code taken with what follows begins the unit that is open then. */
  lemma AllTaken(c: Splitter, t: seq<Byte>, q: nat, b: bool)
    requires KeysAlike(c, t) && Apart(c, t) && 0 < q <= |t| && KeyBefore(c, t, q) == b
    ensures TakenWith(c, t, q, b)
  {
    hide KeysAlike, Apart, Split, KeyBefore, CodeAt, Reach, IsKeyHeader;
    forall p: nat | CodeAt(c, t, p) && p < q <= p + Reach(c, t, p)
      ensures p + c.Carry() < |t| && IsKeyHeader(c, HeaderAt(c, t, p)) == b
    {
      CodeInside(c, t, p);
      TakenInUnit(c, t, p, q);
      KeyStays(c, t, p + 1, q);
      BeforeNext(c, t, p);
      StartIs(c, t, p);
      KeyHeaderIs(c, HeaderAt(c, t, p));
    }
  }

  lemma CodeInside(c: Splitter, t: seq<Byte>, p: nat)
    requires CodeAt(c, t, p)
    ensures p + c.Carry() < |t|
  {}

  lemma TakenInUnit(c: Splitter, t: seq<Byte>, p: nat, q: nat)
    requires Apart(c, t) && CodeAt(c, t, p) && p < q <= |t| && q <= p + Reach(c, t, p)
    ensures q <= End(c, t, p + 1)
  {
    hide Apart, Split, Calm, Reads, Reach;
    ApartCalm(c, t, p, q);
    CalmUnits(c, t, p, q);
    if q > End(c, t, p + 1) { PastEnd(c, t, p + 1, q); }
  }

  lemma CalmUnits(c: Splitter, t: seq<Byte>, p: nat, q: nat)
    requires CodeAt(c, t, p) && p < q <= |t| && Calm(c, t, p + 1, q, HeaderAt(c, t, p))
    ensures Split(c, t, q).units == Split(c, t, p + 1).units
  {
    assert Calm(c, t, p + 1, p + 1, HeaderAt(c, t, p));
    SplitAtCode(c, t, p, q);
    SplitAtCode(c, t, p, p + 1);
  }

  lemma AllFollow(c: Splitter, t: seq<Byte>, ps: seq<Packet>)
    requires Join(ps) == (Units(c, t), []) && (ps != [] ==> ps[|ps| - 1].finished)
    requires forall i :: 0 <= i < |Units(c, t)| ==> Marked(ps, UnitKey(c, t, i))
    ensures AllKeysRight(c, t, ps)
  {
    hide Join, KeyBefore, Units, UnitEnd;
    forall j | 0 <= j < |ps|
      ensures var i := |Join(ps[..j]).0|;
              i < |Units(c, t)| && (ps[j].key <==> KeyBefore(c, t, UnitEnd(c, t, i)))
    {
      UnitsLeft(ps, j);
      assert Marked(ps, UnitKey(c, t, |Join(ps[..j]).0|));
    }
  }

  /** Before a packet not all units are finished, when the last packet finishes one. */
  lemma UnitsLeft(ps: seq<Packet>, j: nat)
    requires j < |ps| && ps[|ps| - 1].finished
    ensures |Join(ps[..j]).0| < |Join(ps).0|
  {
    var n := |ps| - 1;
    JoinGrows(ps[..n], j);
    assert ps[..n][..j] == ps[..j];
  }

  /** In such a stream every packet of a unit, whole or cut by the cap, is marked as the unit
      is, however the stream is cut into chunks. */
  lemma AllKeysMarked(c: Splitter, chunks: seq<seq<Byte>>)
    requires LongEnough(c, chunks) && Apart(c, Flatten(chunks)) && Roomy(c, Flatten(chunks))
    requires KeysAlike(c, Flatten(chunks))
    ensures RunSafe(c, Initial(c), chunks) && AllKeysRight(c, Flatten(chunks), Pushed(c, chunks))
  {
    hide Follows, Tracks, Split, Apart, Packetized, Roomy, Join, Part, Run, RunFits, Bracketed, Finished, AllKeysRight;
    hide Units, KeysAlike, Marked, MarksAt, Decided, KeyBefore, UnitEnd, LongEnough;
    var t := Flatten(chunks);
    StreamUnits(c, chunks);
    forall i | 0 <= i < |Units(c, t)| ensures Marked(Pushed(c, chunks), UnitKey(c, t, i)) {
      UnitDecides(c, t, i);
      UnitMarked(c, chunks, UnitKey(c, t, i));
    }
    LastFinishes(c, chunks);
    AllFollow(c, t, Pushed(c, chunks));
  }

  lemma LastFinishes(c: Splitter, chunks: seq<seq<Byte>>)
    requires RunSafe(c, Initial(c), chunks)
    ensures var ps := Pushed(c, chunks); ps != [] ==> ps[|ps| - 1].finished
  {
    PushedEnds(c, chunks);
  }
}
