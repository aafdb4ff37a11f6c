/** The key marks of whole runs: when they are those of the stream, however it is cut into
    chunks. */
module KeyRuns {
  import opened Bytes
  import opened AccessUnits
  import opened StreamParts
  import opened Boundaries
  import opened UnitBytes
  import opened Packetizing
  import opened PacketizingProofs
  import opened PacketizingRuns
  import opened PacketRoom
  import opened ChunkIndependence
  import opened ApartNeeded
  import opened RoomNeeded
  import opened KeyMarks

  // ----- from call to call -----

  /** The marks of what was committed of the first `n` bytes. */
  ghost predicate MarksAt(c: Splitter, t: seq<Byte>, n: nat, s: State, x: Claim) {
    n >= |s.cache| && Marks(c, t, n - |s.cache|, s, x) && Ready(c, t, n - |s.cache|, x)
  }

  lemma CallMarks(c: Splitter, t: seq<Byte>, n: nat, s: State, data: seq<Byte>, o: Outcome, x: Claim)
    requires Follows(c, t, n, s) && Apart(c, t) && Part(t, n, data)
    requires data != [] && OnTime(c, s, data) && WindowFits(c, s, data)
    requires s.cache == [] || |data| >= c.Carry()
    requires o == Frame(c, s, data) && MarksAt(c, t, n, s, x)
    ensures MarksAt(c, t, n + o.taken, o.state, x)
  {
    hide Split, View, Frame, Apart, CodeAt, WindowFits, Marks, Ready, Tracks;
    FrameMarks(c, t, n - |s.cache|, s, data, x);
    FrameFollows(c, t, n, s, data, o);
    CallReaches(c, t, n, s, o, x);
  }

  lemma CallReaches(c: Splitter, t: seq<Byte>, n: nat, s: State, o: Outcome, x: Claim)
    requires n >= |s.cache| && Ready(c, t, n - |s.cache|, x) && |o.state.cache| <= |s.cache| + o.taken
    requires Marks(c, t, n + o.taken - |o.state.cache|, o.state, x) && Follows(c, t, n + o.taken, o.state)
    requires n - |s.cache| <= n + o.taken - |o.state.cache|
    ensures Ready(c, t, n + o.taken - |o.state.cache|, x)
  {
    hide Split, Ready;
    ReadyOn(c, t, n - |s.cache|, n + o.taken - |o.state.cache|, x);
  }

  lemma {:induction false} ChunkMarks(c: Splitter, t: seq<Byte>, n: nat, s: State, data: seq<Byte>, r: State,
                                      x: Claim)
    requires Follows(c, t, n, s) && Apart(c, t) && Part(t, n, data)
    requires WellFormed(c, s) && (data == [] || OnTime(c, s, data))
    requires s.cache == [] || |data| >= c.Carry()
    requires ChunkFits(c, s, data) && r == Packetized(c, s, data) && MarksAt(c, t, n, s, x)
    ensures MarksAt(c, t, n + |data|, r, x)
    decreases |data|
  {
    hide Split, View, Frame, Tracks, Apart, MarksAt, WindowFits;
    if data != [] {
      var o := Frame(c, s, data);
      var rest := data[o.taken..];
      FrameFollows(c, t, n, s, data, o);
      CallMarks(c, t, n, s, data, o, x);
      assert r == Packetized(c, o.state, rest);
      if rest != [] {
        ChunkMarks(c, t, n + o.taken, o.state, rest, r, x);
      }
    }
  }

  lemma {:induction false} RunMarks(c: Splitter, t: seq<Byte>, n: nat, s: State, chunks: seq<seq<Byte>>, r: State,
                                    x: Claim)
    requires Follows(c, t, n, s) && Apart(c, t) && Part(t, n, Flatten(chunks))
    requires WellFormed(c, s) && Prompt(c, s, chunks)
    requires RunSafe(c, s, chunks) && RunFits(c, s, chunks) && r == Run(c, s, chunks)
    requires forall j :: 0 <= j < |chunks| ==> |chunks[j]| >= c.Carry()
    requires MarksAt(c, t, n, s, x)
    ensures MarksAt(c, t, n + |Flatten(chunks)|, r, x)
    decreases |chunks|
  {
    hide Split, View, Frame, Tracks, Apart, Packetized, Part, MarksAt, ChunkFits;
    if chunks != [] {
      var d, rest := chunks[0], chunks[1..];
      var s' := Packetized(c, s, d);
      FirstChunk(t, n, chunks);
      ChunkTracks(c, t, n, s, d, s');
      ChunkMarks(c, t, n, s, d, s', x);
      RunMarks(c, t, n + |d|, s', rest, r, x);
    }
  }

  /** The last unit is marked by the header remembered. */
  lemma FinishMarked(c: Splitter, t: seq<Byte>, s: State, x: Claim)
    requires Follows(c, t, |t|, s) && s.pes.Some? && MarksAt(c, t, |t|, s, x)
    ensures Marked(Finished(c, s).pushed, x)
  {
    hide Join, Marked, Splitter.NalType, Splitter.IsKey, Split;
    var q := |t| - |s.cache|;
    EndCodeless(c, t, q);
    var p := Packet(s.first, true, IsKeyHeader(c, s.header), Write(s.pes.value, s.cache));
    MarkedMore(s.pushed, p, x);
  }

  lemma EndCodeless(c: Splitter, t: seq<Byte>, q: nat)
    requires q <= |t| <= q + c.Carry()
    ensures Quiet(c, t, q)
  {}

  // ----- what the marks are -----

  /** No start code hides, in a window, the last one of its unit, if only one of them is that
      of a key frame. */
  ghost predicate KeysApart(c: Splitter, t: seq<Byte>) {
    forall p: nat, r: nat :: CodeAt(c, t, p) && CodeAt(c, t, r) && p < r < p + Reach(c, t, p) && Quiet(c, t, r + 1) ==>
      (KeyAt(c, t, p) <==> KeyAt(c, t, r))
  }

  /** Every packet that finishes a unit is marked as a key frame exactly when the last start
      code of the unit has the header of one. */
  ghost predicate KeysRight(c: Splitter, t: seq<Byte>, ps: seq<Packet>) {
    forall j :: 0 <= j < |ps| && ps[j].finished ==>
      var i := |Join(ps[..j]).0|;
      i < |Units(c, t)| && (ps[j].key <==> KeyBefore(c, t, UnitEnd(c, t, i)))
  }

  /** The packet that finishes unit `i` is marked by the unit's last start code. */
  ghost function LastKey(c: Splitter, t: seq<Byte>, i: nat): Claim
    requires i < |Units(c, t)|
  {
    Claim(i, KeyBefore(c, t, UnitEnd(c, t, i)), false)
  }

  lemma EndOf(c: Splitter, t: seq<Byte>, q: nat)
    requires q <= |t| && t != []
    ensures var i := |Split(c, t, q).units|;
            i < |Units(c, t)| && UnitEnd(c, t, i) == End(c, t, q)
  {
    if q == 0 { EndIs(c, t, 1); } else { EndIs(c, t, q); }
  }

  lemma QuietHeader(c: Splitter, t: seq<Byte>, q: nat)
    requires q <= |t| && t != [] && Quiet(c, t, q)
    ensures IsKeyHeader(c, Split(c, t, q).header) <==> KeyBefore(c, t, End(c, t, q))
  {
    OpenOn(c, t, q, End(c, t, q));
    HeaderIs(c, t, End(c, t, q));
  }

  /** The last start code of a stretch. */
  lemma {:induction false} LastIn(c: Splitter, t: seq<Byte>, a: nat, b: nat) returns (r: nat)
    requires a <= b <= |t| && !Codeless(c, t, a, b)
    ensures a <= r < b && CodeAt(c, t, r) && Codeless(c, t, r + 1, b)
    decreases b - a
  {
    if CodeAt(c, t, b - 1) {
      r := b - 1;
    } else {
      r := LastIn(c, t, a, b - 1);
    }
  }

  /** In such streams every unit's mark is decided by its last start code. */
  lemma KeysDecide(c: Splitter, t: seq<Byte>, i: nat)
    requires KeysApart(c, t) && i < |Units(c, t)|
    ensures Decided(c, t, LastKey(c, t, i))
  {
    hide KeysApart, Split, Quiet, KeyBefore, TakenWith, IsKeyHeader;
    var b := KeyBefore(c, t, UnitEnd(c, t, i));
    forall q: nat | q <= |t| && |Split(c, t, q).units| == i && Quiet(c, t, q)
      ensures IsKeyHeader(c, Split(c, t, q).header) == b && TakenWith(c, t, q, b)
    {
      StreamThere(c, t, i);
      EndOf(c, t, q);
      QuietHeader(c, t, q);
      TakenDecides(c, t, q);
    }
  }

  lemma StreamThere(c: Splitter, t: seq<Byte>, i: nat)
    requires i < |Units(c, t)|
    ensures t != []
  {}

  lemma TakenDecides(c: Splitter, t: seq<Byte>, q: nat)
    requires KeysApart(c, t) && q <= |t| && Quiet(c, t, q)
    ensures TakenWith(c, t, q, IsKeyHeader(c, Split(c, t, q).header))
  {
    hide Split, Quiet, Codeless, Reach;
    forall p: nat | CodeAt(c, t, p) && p < q <= p + Reach(c, t, p)
      ensures IsKeyHeader(c, HeaderAt(c, t, p)) == IsKeyHeader(c, Split(c, t, q).header)
    {
      if Codeless(c, t, p + 1, q) {
        CodelessAfter(c, t, p, q);
      } else {
        var r := LastIn(c, t, p + 1, q);
        CodelessAfter(c, t, r, q);
        CalmStretch(c, t, r + 1, q);
        StartIs(c, t, p);
        StartIs(c, t, r);
        hide KeyAt, IsKeyHeader, CodeAt, StartsAt;
      }
    }
  }

  lemma {:induction false} JoinGrows(ps: seq<Packet>, j: nat)
    requires j <= |ps|
    ensures |Join(ps[..j]).0| <= |Join(ps).0|
    ensures j < |ps| && ps[j].finished ==> |Join(ps[..j]).0| < |Join(ps).0|
    decreases |ps|
  {
    if j < |ps| {
      var n := |ps| - 1;
      var front := ps[..n];
      JoinGrows(front, j);
      assert front[..j] == ps[..j];
    } else {
      assert ps[..j] == ps;
    }
  }

  lemma KeysFollow(c: Splitter, t: seq<Byte>, ps: seq<Packet>)
    requires |Join(ps).0| == |Units(c, t)|
    requires forall i :: 0 <= i < |Units(c, t)| ==> Marked(ps, LastKey(c, t, i))
    ensures KeysRight(c, t, ps)
  {
    hide Join, KeyBefore, Units, UnitEnd;
    forall j | 0 <= j < |ps| && ps[j].finished
      ensures var i := |Join(ps[..j]).0|;
              i < |Units(c, t)| && (ps[j].key <==> KeyBefore(c, t, UnitEnd(c, t, i)))
    {
      JoinGrows(ps, j);
      assert Marked(ps, LastKey(c, t, |Join(ps[..j]).0|));
    }
  }

  lemma InitialMarks(c: Splitter, t: seq<Byte>, x: Claim)
    requires Decided(c, t, x)
    ensures MarksAt(c, t, 0, Initial(c), x)
  {
    assert Initial(c).header == Split(c, t, 0).header;
    hide Split, Quiet, Splitter.IsKey;
  }

  /** When the units of a stream are found whatever the chunks are, and no start code hides
      the key frame behind it, the marks are those of the stream. */
  lemma KeysMarked(c: Splitter, chunks: seq<seq<Byte>>)
    requires LongEnough(c, chunks) && Apart(c, Flatten(chunks)) && Roomy(c, Flatten(chunks))
    requires KeysApart(c, Flatten(chunks))
    ensures RunSafe(c, Initial(c), chunks) && KeysRight(c, Flatten(chunks), Pushed(c, chunks))
  {
    hide Follows, Tracks, Split, Apart, Packetized, Roomy, Join, Part, Run, RunFits, Bracketed, Finished, KeysRight;
    hide Units, KeysApart, Marked, MarksAt, Decided, KeyBefore, UnitEnd;
    var t := Flatten(chunks);
    StreamUnits(c, chunks);
    forall i | 0 <= i < |Units(c, t)| ensures Marked(Pushed(c, chunks), LastKey(c, t, i)) {
      KeysDecide(c, t, i);
      UnitMarked(c, chunks, LastKey(c, t, i));
    }
    KeysFollow(c, t, Pushed(c, chunks));
  }

  lemma UnitMarked(c: Splitter, chunks: seq<seq<Byte>>, x: Claim)
    requires LongEnough(c, chunks) && Apart(c, Flatten(chunks)) && Roomy(c, Flatten(chunks))
    requires Decided(c, Flatten(chunks), x) && x.unit < |Units(c, Flatten(chunks))|
    ensures RunSafe(c, Initial(c), chunks) && Marked(Pushed(c, chunks), x)
  {
    hide Follows, Tracks, Split, Apart, Packetized, Roomy, Join, Part, RunFits, Finished, Marked, MarksAt, Decided;
    var t := Flatten(chunks);
    StreamThere(c, t, x.unit);
    LongEnoughRuns(c, chunks);
    InitialFollows(c, t);
    WholePart(t);
    InitialMarks(c, t, x);
    RunFitsRoom(c, t, 0, Initial(c), chunks);
    var r := Run(c, Initial(c), chunks);
    hide Run;
    RunTracks(c, t, 0, Initial(c), chunks, r);
    RunMarks(c, t, 0, Initial(c), chunks, r, x);
    RunMakes(c, Initial(c), chunks);
    SomeChunk(c, chunks);
    LongStream(c, chunks);
    FinishMarked(c, t, r, x);
  }

  lemma SomeChunk(c: Splitter, chunks: seq<seq<Byte>>)
    requires Flatten(chunks) != []
    ensures chunks != []
  {}
}
