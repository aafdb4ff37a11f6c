/** That no start code hides a key frame is needed too, and what the marks say of a packet
    by itself. */
module KeysNeeded {
  import opened Bytes
  import opened AccessUnits
  import opened StreamParts
  import opened Boundaries
  import opened UnitBytes
  import opened Packetizing
  import opened PacketizingProofs
  import opened PacketizingRuns
  import opened PacketRoom
  import opened ChunkIndependence
  import opened ApartNeeded
  import opened RoomNeeded
  import opened KeyMarks
  import opened KeyRuns

  // ----- the chunking that marks a unit by the wrong header -----

  /** The packets pushed so far finish earlier units than the open one. */
  lemma NoneOpen(ps: seq<Packet>, x: Claim)
    requires |Join(ps).0| <= x.unit && !x.every
    ensures Marked(ps, x)
  {
    hide Join;
    forall j | 0 <= j < |ps| && ps[j].finished ensures |Join(ps[..j]).0| < x.unit {
      JoinGrows(ps, j);
    }
  }

  lemma {:induction false} SomeFinishes(ps: seq<Packet>, i: nat)
    requires i < |Join(ps).0|
    ensures exists j :: 0 <= j < |ps| && ps[j].finished && |Join(ps[..j]).0| == i
    decreases |ps|
  {
    var n := |ps| - 1;
    var front := ps[..n];
    if i < |Join(front).0| {
      SomeFinishes(front, i);
      var j :| 0 <= j < n && front[j].finished && |Join(front[..j]).0| == i;
      assert front[..j] == ps[..j];
    }
  }

  /** Up to the cache that begins at `p`. */
  lemma LeadTracks(c: Splitter, t: seq<Byte>, p: nat)
    requires Disjoint(c, t) && Apart(c, t) && 0 < p && CodeAt(c, t, p)
    ensures var d := t[..p + c.Carry()];
            && !NullWrite(c, Initial(c), d) && ChunkFits(c, Initial(c), d)
            && var s := Packetized(c, Initial(c), d);
            s.pes.Some? && Tracks(c, t, p, s) && |s.cache| == c.Carry() && Full(s)
  {
    hide Disjoint, Apart, Split, View, Sound, ChunkFits, Packetized, Filled, Leaves, Splitter.NalType, Full;
    var d := t[..p + c.Carry()];
    InitialFollows(c, t);
    assert Part(t, 0, d);
    EmptyFull(c);
    AloneFits(c, Initial(c), d);
    PrefixLeaves(c, t, p);
    ChunkCaches(c, Initial(c), d);
    ChunkTracks(c, t, 0, Initial(c), d, Packetized(c, Initial(c), d));
  }

  lemma EmptyFull(c: Splitter)
    ensures Full(Initial(c)) && Sound(Initial(c))
  {}

  /** The window that begins at `p` takes the last start code of the unit unseen. */
  lemma WindowHides(c: Splitter, t: seq<Byte>, p: nat, r: nat, s: State, e: seq<Byte>)
    requires Disjoint(c, t) && Apart(c, t) && Roomy(c, t) && 0 < p && CodeAt(c, t, p) && CodeAt(c, t, r)
    requires p < r < p + Reach(c, t, p) && Quiet(c, t, r + 1)
    requires s.pes.Some? && Tracks(c, t, p, s) && |s.cache| == c.Carry() && Full(s) && e == t[p + c.Carry()..]
    ensures WellFormed(c, s) && e != [] && !NullWrite(c, s, e) && WindowFits(c, s, e) && p + 2 * c.Carry() <= |t|
    ensures var o := Frame(c, s, e);
            && o.taken == c.Carry() && o.state.cache == [] && Full(o.state) && Tracks(c, t, p + 2 * c.Carry(), o.state)
            && o.state.header == HeaderAt(c, t, p)
  {
    hide Roomy, Split, View, Sound, Filled, Full, Splitter.NalType, Reads, WindowFits;
    assert r > p + c.Carry();
    hide Disjoint;
    assert Part(t, p + c.Carry(), e);
    WindowFitsRoom(c, t, p, s, e);
    var w := Window(c, s.cache, e);
    WindowIs(c, t, p, s, e);
    CodeShift(c, t, p, w, 0);
    CacheTracks(c, t, p, s, e);
    FrameFull(c, s, e);
    assert FindCode(c, w, 0) == 0;
  }

  /** There the unit is open and quiet, and its last start code is the one at `r`. */
  lemma HiddenUnit(c: Splitter, t: seq<Byte>, p: nat, r: nat, q: nat)
    requires Disjoint(c, t) && CodeAt(c, t, p) && CodeAt(c, t, r) && p < r < q <= |t| && q <= p + 2 * c.Carry()
    requires Quiet(c, t, r + 1)
    ensures var i := |Split(c, t, q).units|;
            Quiet(c, t, q) && i < |Units(c, t)| && (KeyBefore(c, t, UnitEnd(c, t, i)) <==> KeyAt(c, t, r))
  {
    hide Split, Quiet, KeyBefore, KeyAt, UnitEnd, Units, IsKeyHeader, Codeless, End;
    NoneBetween(c, t, p, r, q);
    CalmStretch(c, t, r + 1, q);
    CodelessAfter(c, t, r, q);
    QuietHeader(c, t, q);
    EndOf(c, t, q);
    StartIs(c, t, r);
    KeyHeaderIs(c, HeaderAt(c, t, r));
  }

  /** It is to be marked by the header at `p`. */
  lemma HiddenMarks(c: Splitter, t: seq<Byte>, q: nat, s: State, b: bool)
    requires 0 < q <= |t| && Tracks(c, t, q, s) && s.cache == [] && IsKeyHeader(c, s.header) == b && Quiet(c, t, q)
    ensures MarksAt(c, t, q, s, Claim(|Split(c, t, q).units|, b, false))
  {
    hide Split, Quiet, Sound, IsKeyHeader, Decided, Part;
    NoneOpen(s.pushed, Claim(|Split(c, t, q).units|, b, false));
    hide Marked, Join;
  }

  lemma NoneBetween(c: Splitter, t: seq<Byte>, p: nat, r: nat, q: nat)
    requires Disjoint(c, t) && CodeAt(c, t, p) && CodeAt(c, t, r) && p < r && q <= p + 2 * c.Carry()
    ensures Codeless(c, t, r + 1, q)
  {
    assert p + c.Carry() < r;
  }

  /** What is pushed from the window on. */
  lemma HiddenPushed(c: Splitter, t: seq<Byte>, p: nat, r: nat, s: State, e: seq<Byte>)
    requires Disjoint(c, t) && Apart(c, t) && Roomy(c, t) && 0 < p && CodeAt(c, t, p) && CodeAt(c, t, r)
    requires p < r < p + Reach(c, t, p) && Quiet(c, t, r + 1)
    requires s.pes.Some? && Tracks(c, t, p, s) && |s.cache| == c.Carry() && Full(s) && e == t[p + c.Carry()..]
    ensures WellFormed(c, s) && (e == [] || !NullWrite(c, s, e))
    ensures exists i ::
              && 0 <= i < |Units(c, t)| && (KeyBefore(c, t, UnitEnd(c, t, i)) <==> KeyAt(c, t, r))
              && Marked(Finished(c, Packetized(c, s, e)).pushed, Claim(i, IsKeyHeader(c, HeaderAt(c, t, p)), false))
  {
    var q := p + 2 * c.Carry();
    hide Apart, Roomy, Split, Quiet, Packetized, Finished, Units, Join, Full, KeyAt, KeyBefore, UnitEnd, MarksAt, Tracks;
    hide Marked, Disjoint, Frame, WindowFits, NullWrite, IsKeyHeader;
    WindowHides(c, t, p, r, s, e);
    var o := Frame(c, s, e);
    HiddenUnit(c, t, p, r, q);
    HiddenMarks(c, t, q, o.state, IsKeyHeader(c, HeaderAt(c, t, p)));
    var i := |Split(c, t, q).units|;
    Reaches(c, t, q, o.state);
    HiddenRest(c, t, q, s, e, o, Claim(i, IsKeyHeader(c, HeaderAt(c, t, p)), false));
  }

  lemma Reaches(c: Splitter, t: seq<Byte>, q: nat, s: State)
    requires Tracks(c, t, q, s) && s.cache == []
    ensures Follows(c, t, q, s)
  {}

  /** A start code that hides the last one of its unit in a window: with the chunks cut so
      that the window begins there, the unit is marked by the first of them. */
  lemma HiddenRun(c: Splitter, t: seq<Byte>, p: nat, r: nat)
    requires Disjoint(c, t) && Apart(c, t) && Roomy(c, t) && 0 < p && CodeAt(c, t, p) && CodeAt(c, t, r)
    requires p < r < p + Reach(c, t, p) && Quiet(c, t, r + 1) && (KeyAt(c, t, p) != KeyAt(c, t, r))
    ensures var chunks := [t[..p + c.Carry()], t[p + c.Carry()..]];
            && LongEnough(c, chunks) && Flatten(chunks) == t && RunSafe(c, Initial(c), chunks)
            && !KeysRight(c, t, Pushed(c, chunks))
  {
    hide Apart, Roomy, Split, Tracks, Quiet, Packetized, ChunkFits, RunFits, Run, RunSafe, Finished, Units, Join, Full;
    hide KeysRight, KeyAt, KeyBefore, UnitEnd, Marked, Disjoint, NullWrite, IsKeyHeader, Bracketed;
    var d, e := t[..p + c.Carry()], t[p + c.Carry()..];
    assert t == d + e;
    LeadTracks(c, t, p);
    var s := Packetized(c, Initial(c), d);
    HiddenPushed(c, t, p, r, s, e);
    TwoChunks(c, Initial(c), d, e, s, Packetized(c, s, e));
    HiddenLong(c, t, p, r, d, e);
    StreamUnits(c, [d, e]);
    StartIs(c, t, p);
    KeyHeaderIs(c, HeaderAt(c, t, p));
    var i :| 0 <= i < |Units(c, t)| && (KeyBefore(c, t, UnitEnd(c, t, i)) <==> KeyAt(c, t, r))
             && Marked(Finished(c, Packetized(c, s, e)).pushed, Claim(i, IsKeyHeader(c, HeaderAt(c, t, p)), false));
    MarkedWrong(c, t, Pushed(c, [d, e]), Claim(i, IsKeyHeader(c, HeaderAt(c, t, p)), false));
  }

  lemma HiddenLong(c: Splitter, t: seq<Byte>, p: nat, r: nat, d: seq<Byte>, e: seq<Byte>)
    requires Disjoint(c, t) && 0 < p < r && CodeAt(c, t, p) && CodeAt(c, t, r)
    requires d == t[..p + c.Carry()] && e == t[p + c.Carry()..]
    ensures LongEnough(c, [d, e])
  {
    BothLong(c, d, e);
  }

  lemma MarkedWrong(c: Splitter, t: seq<Byte>, ps: seq<Packet>, x: Claim)
    requires Join(ps).0 == Units(c, t) && x.unit < |Units(c, t)| && Marked(ps, x)
    requires KeyBefore(c, t, UnitEnd(c, t, x.unit)) != x.key
    ensures !KeysRight(c, t, ps)
  {
    hide Join, Units, UnitEnd, KeyBefore;
    SomeFinishes(ps, x.unit);
  }

  /** From the window on. */
  lemma HiddenRest(c: Splitter, t: seq<Byte>, q: nat, s: State, e: seq<Byte>, o: Outcome, x: Claim)
    requires Apart(c, t) && Roomy(c, t) && WellFormed(c, s) && s.pes.Some? && e != []
    requires !NullWrite(c, s, e) && WindowFits(c, s, e) && o == Frame(c, s, e) && o.state.cache == []
    requires Follows(c, t, q, o.state) && Full(o.state) && Part(t, q, e[o.taken..]) && q + |e| - o.taken == |t|
    requires MarksAt(c, t, q, o.state, x)
    ensures Marked(Finished(c, Packetized(c, s, e)).pushed, x)
  {
    hide Apart, Roomy, Split, Tracks, Frame, MarksAt, Full, WindowFits, Marked, Finished;
    var rest := e[o.taken..];
    var r := Packetized(c, s, e);
    assert r == Packetized(c, o.state, rest);
    ChunkFitsRoom(c, t, q, o.state, rest);
    ChunkTracks(c, t, q, o.state, rest, r);
    ChunkMarks(c, t, q, o.state, rest, r, x);
    FinishMarked(c, t, r, x);
  }

  /** Every chunking long enough finds the units and marks them rightly. */
  ghost predicate AlwaysMarks(c: Splitter, t: seq<Byte>) {
    forall chunks: seq<seq<Byte>> :: LongEnough(c, chunks) && Flatten(chunks) == t ==>
      Finds(c, t, chunks) && KeysRight(c, t, Pushed(c, chunks))
  }

  /** The exact conditions on the stream alone, for streams whose start codes do not overlap
      the headers before them: every chunking long enough finds the access units and marks
      them as the stream says if and only if the cuts are apart, nothing lacks room, and no
      start code hides a key frame or is hidden by one. */
  lemma KeysExactly(c: Splitter, t: seq<Byte>)
    requires Disjoint(c, t)
    ensures AlwaysMarks(c, t) <==> Apart(c, t) && Roomy(c, t) && KeysApart(c, t)
  {
    hide Units, Run, RunSafe, Roomy, Join, Finished, Apart, Disjoint, LongEnough, KeysRight, Bracketed, Quiet, KeyAt;
    StreamExactly(c, t);
    if Apart(c, t) && Roomy(c, t) && KeysApart(c, t) {
      forall chunks: seq<seq<Byte>> | LongEnough(c, chunks) && Flatten(chunks) == t
        ensures Finds(c, t, chunks) && KeysRight(c, t, Pushed(c, chunks))
      {
        KeysMarked(c, chunks);
      }
    } else if Apart(c, t) && Roomy(c, t) {
      SomeHidden(c, t);
      var p: nat, r: nat :| CodeAt(c, t, p) && CodeAt(c, t, r) && 0 < p < r < p + Reach(c, t, p) && Quiet(c, t, r + 1)
                            && KeyAt(c, t, p) != KeyAt(c, t, r);
      HiddenRun(c, t, p, r);
    }
  }

  lemma SomeHidden(c: Splitter, t: seq<Byte>)
    requires Disjoint(c, t) && !KeysApart(c, t)
    ensures exists p: nat, r: nat :: CodeAt(c, t, p) && CodeAt(c, t, r) && 0 < p < r < p + Reach(c, t, p)
                                     && Quiet(c, t, r + 1) && KeyAt(c, t, p) != KeyAt(c, t, r)
  {
    hide Quiet, KeyAt;
    var p: nat, r: nat :| CodeAt(c, t, p) && CodeAt(c, t, r) && p < r < p + Reach(c, t, p) && Quiet(c, t, r + 1)
                          && KeyAt(c, t, p) != KeyAt(c, t, r);
    assert 0 < p;
  }
}
