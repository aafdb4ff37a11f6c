/** That the cuts of a stream are apart is not only enough for every chunking to find its
    access units: if they are not, some chunking misses one. */
module ApartNeeded {
  import opened Bytes
  import opened AccessUnits
  import opened Packetizing
  import opened PacketizingProofs
  import opened PacketizingRuns
  import opened StreamParts
  import opened ChunkIndependence
  import opened Boundaries

  // ----- what a call does to the open unit -----

  lemma BodyExtends(c: Splitter, s: State, data: seq<Byte>)
    requires WellFormed(c, s) && Sound(s) && s.cache == [] && data != [] && s.pes.Some?
    ensures Extends(View(s), View(Body(c, s, data).state))
  {
    hide Join, Bracketed, Fill, NextUnit, Splitter.NalType;
    if |data| > c.Carry() {
      var (k, h) := Scan(c, data, 0, s.header);
      var filled := Fill(c, s.(header := h), data[..k]);
      FillSound(c, s, h, data[..k], filled);
      if k < |data| - c.Carry() {
        NextUnitBegins(c, filled, HeaderAt(c, data, k), data[k..k + 4 + c.HeaderLen()]);
      }
    }
  }

  lemma FrameExtends(c: Splitter, s: State, data: seq<Byte>)
    requires WellFormed(c, s) && Sound(s) && data != [] && s.pes.Some? && WindowFits(c, s, data)
    ensures var r := Frame(c, s, data).state; Sound(r) && Extends(View(s), View(r))
  {
    hide Join, Bracketed, Body, FlushCache, WindowHit, Splitter.NalType;
    FrameLined(c, s, data);
    if |s.cache| + |data| > c.Carry() {
      if Hits(c, s, data) {
        var w := Window(c, s.cache, data);
        var i := FindCode(c, w, 0);
        if c.Cuts(s.header, HeaderAt(c, w, i)) { HitCuts(c, s, w, i); } else { HitContinues(c, s, w, i); }
      } else if s.cache == [] {
        BodyExtends(c, s, data);
      } else {
        FlushAdds(c, s);
        BodyExtends(c, FlushCache(c, s), data);
        ExtendsTwice(View(s), View(FlushCache(c, s)), View(Body(c, FlushCache(c, s), data).state));
      }
    }
  }

  lemma {:induction false} ChunkExtends(c: Splitter, s: State, data: seq<Byte>)
    requires WellFormed(c, s) && Sound(s) && s.pes.Some? && ChunkFits(c, s, data)
    ensures var r := Packetized(c, s, data); Sound(r) && Extends(View(s), View(r))
    decreases |data|
  {
    hide View, Sound, Frame, WindowFits;
    if data != [] {
      var o := Frame(c, s, data);
      FrameExtends(c, s, data);
      ChunkExtends(c, o.state, data[o.taken..]);
      ExtendsTwice(View(s), View(o.state), View(Packetized(c, s, data)));
    }
  }

  lemma FinishGoes(c: Splitter, s: State)
    requires WellFormed(c, s) && Sound(s) && s.pes.Some? && FinishFits(s)
    ensures Goes(View(s), Join(Finished(c, s).pushed).0)
  {
    hide Join, Bracketed, Splitter.NalType;
    var u := s.(pes := Some(s.pes.value + s.cache));
    PendingAdds(s, s.cache);
    WritesAll(s.pes.value, s.cache);
    var v := u.(cache := []);
    assert View(v) == View(u);
    PushFinished(c, v);
  }

  // ----- the chunking that misses a unit -----

  /** A call on a chunk longer than the cache, with an empty cache, takes a start code and
      its header or leaves the last bytes in the cache. */
  lemma CallCaches(c: Splitter, s: State, data: seq<Byte>, o: Outcome)
    requires WellFormed(c, s) && s.cache == [] && |data| > c.Carry() && o == Frame(c, s, data)
    ensures WindowFits(c, s, data)
    ensures if o.taken == |data| && o.state.cache != [] then o.state.cache == data[|data| - c.Carry()..]
            else o.state.cache == [] && o.taken > c.Carry() && CodeAt(c, data, o.taken - c.Carry() - 1)
  {
    hide Fill, Push, Splitter.NalType;
  }

  /** A chunk whose start codes leave a cache's length ends up with its end in the cache. */
  lemma {:induction false} ChunkCaches(c: Splitter, s: State, data: seq<Byte>)
    requires WellFormed(c, s) && s.cache == [] && |data| >= c.Carry() && Leaves(c, data, c.Carry())
    ensures !NullWrite(c, s, data) && ChunkFits(c, s, data)
    ensures Packetized(c, s, data).cache == data[|data| - c.Carry()..]
    decreases |data|
  {
    hide Splitter.NalType, WindowFits, CodeAt;
    if |data| == c.Carry() {
      CachedChunk(c, s, data);
      CachedFits(c, s, data);
      NilLeft(data);
    } else {
      var o := Frame(c, s, data);
      CallCaches(c, s, data, o);
      var rest := data[o.taken..];
      hide Frame;
      if o.state.cache == [] {
        RestLeaves(c, data, o.taken, c.Carry());
        ChunkCaches(c, o.state, rest);
        assert rest[|rest| - c.Carry()..] == data[|data| - c.Carry()..];
      } else {
        assert rest == [];
      }
    }
  }

  lemma PrefixLeaves(c: Splitter, t: seq<Byte>, p: nat)
    requires CodeAt(c, t, p) && Disjoint(c, t)
    ensures Leaves(c, t[..p + c.Carry()], c.Carry())
  {
    var d := t[..p + c.Carry()];
    forall k: nat | CodeAt(c, d, k) ensures k + 2 * c.Carry() < |d| {
      CodesBefore(c, t, p, k);
    }
  }

  /** The first chunk, up to the position `p` and a cache's length further. */
  lemma FirstPart(c: Splitter, t: seq<Byte>, p: nat)
    requires 0 < p && p + c.Carry() <= |t| && NoneBefore(c, t, p)
    requires Leaves(c, t[..p + c.Carry()], c.Carry())
    ensures var d := t[..p + c.Carry()];
            && !NullWrite(c, Initial(c), d) && ChunkFits(c, Initial(c), d)
            && var s := Packetized(c, Initial(c), d);
            s.pes.Some? && Tracks(c, d, p, s) && s.cache == d[p..]
  {
    hide Apart, NoneBefore, Splitter.NalType, Tracks, Part, Leaves, ChunkFits, Packetized;
    var d := t[..p + c.Carry()];
    ChunkCaches(c, Initial(c), d);
    FirstTracks(c, t, p);
  }

  lemma FirstTracks(c: Splitter, t: seq<Byte>, p: nat)
    requires 0 < p && p + c.Carry() <= |t| && NoneBefore(c, t, p)
    requires var d := t[..p + c.Carry()];
             && !NullWrite(c, Initial(c), d) && ChunkFits(c, Initial(c), d)
             && Packetized(c, Initial(c), d).cache == d[p..]
    ensures var d := t[..p + c.Carry()];
            var s := Packetized(c, Initial(c), d);
            s.pes.Some? && Tracks(c, d, p, s)
  {
    hide Apart, NoneBefore, Splitter.NalType, Tracks, Part, ChunkFits, Packetized;
    var d := t[..p + c.Carry()];
    PrefixApart(c, t, p);
    InitialFollows(c, d);
    WholePart(d);
    ChunkTracks(c, d, 0, Initial(c), d, Packetized(c, Initial(c), d));
  }

  /** The window that begins at `p` takes the start code at `r`. */
  lemma WindowMisses(c: Splitter, d: seq<Byte>, s: State, w: seq<Byte>, p: nat, r: nat)
    requires Tracks(c, d, p, s) && s.pes.Some? && p <= |d| && CodeAt(c, w, 0) && |w| == 2 * c.Carry()
    requires p < r < p + 2 * c.Carry() && |s.pes.value| + Needed(c, s, w, 0) <= MAX_PES
    ensures Sound(WindowHit(c, s, w, 0)) && Spans(View(WindowHit(c, s, w, 0)), r)
  {
    hide Join, Bracketed, Splitter.NalType, WindowHit, Split, Part;
    SplitConserves(c, d, p);
    FlattenSnoc(View(s).0, View(s).1);
    NilRight(View(s).1);
    if c.Cuts(s.header, HeaderAt(c, w, 0)) {
      HitCuts(c, s, w, 0);
      assert w[..0] == [];
    } else {
      HitContinues(c, s, w, 0);
    }
  }

  /** From the window on the unit open across `r` is pushed as one. */
  lemma SecondPart(c: Splitter, d: seq<Byte>, s: State, e: seq<Byte>, p: nat, r: nat)
    requires Tracks(c, d, p, s) && s.pes.Some? && p <= |d| && s.cache == d[p..] && |s.cache| == c.Carry()
    requires |e| >= c.Carry() && CodeAt(c, d[p..] + e, 0) && p < r < p + 2 * c.Carry()
    requires ChunkFits(c, s, e) && FinishFits(Packetized(c, s, e))
    ensures exists v :: Spans(v, r) && Goes(v, Join(Finished(c, Packetized(c, s, e)).pushed).0)
  {
    var w := Window(c, s.cache, e);
    BeginsWindow(c, d[p..], e);
    hide Tracks, Join, Bracketed, Splitter.NalType, WindowHit, CodeAt, Finished;
    assert FindCode(c, w, 0) == 0;
    WindowMisses(c, d, s, w, p, r);
    var o := Frame(c, s, e);
    var v := View(o.state);
    assert o == Outcome(WindowHit(c, s, w, 0), c.Carry());
    var rest := e[o.taken..];
    hide View, Frame, WindowFits;
    assert Packetized(c, s, e) == Packetized(c, o.state, rest);
    var z := Packetized(c, o.state, rest);
    ChunkExtends(c, o.state, rest);
    FinishGoes(c, z);
    ExtendsTwice(v, View(z), (Join(Finished(c, z).pushed).0, []));
    assert Goes(v, Join(Finished(c, z).pushed).0);
  }

  /** Bracketed packets hold nothing but their units and the open one. */
  lemma {:induction false} JoinData(ps: seq<Packet>)
    requires Bracketed(ps)
    ensures Flatten(Join(ps).0) + Join(ps).1 == Data(ps)
    ensures AtBoundary(ps) ==> Join(ps).1 == []
    decreases |ps|
  {
    if ps != [] {
      var n := |ps| - 1;
      var front, p := ps[..n], ps[n];
      JoinData(front);
      assert front + [p] == ps && p.first == AtBoundary(front);
      JoinSnoc(front, p);
      DataSnoc(front, p);
      var v := Join(front);
      FlattenSnoc(v.0, v.1 + p.data);
      Assoc(Flatten(v.0), v.1, p.data);
      NilRight(Flatten(v.0 + [v.1 + p.data]));
    }
  }

  /** The run finds the units of the stream. */
  ghost predicate Finds(c: Splitter, t: seq<Byte>, chunks: seq<seq<Byte>>) {
    RunSafe(c, Initial(c), chunks) && Join(Pushed(c, chunks)) == (Units(c, t), [])
  }

  /** A run that finds the units of its stream has lost nothing of it. */
  lemma FindsFits(c: Splitter, chunks: seq<seq<Byte>>)
    requires Prompt(c, Initial(c), chunks) && Finds(c, Flatten(chunks), chunks)
    ensures Fits(c, chunks)
  {
    hide Join, Bracketed, Run, RunSafe, Splitter.NalType, Prompt, Units;
    PromptSafe(c, Initial(c), chunks);
    InitialFollows(c, []);
    RunLined(c, Initial(c), chunks);
    FinishLined(c, Run(c, Initial(c), chunks));
    JoinData(Pushed(c, chunks));
    UnitsConserve(c, Flatten(chunks));
    NilRight(Flatten(Units(c, Flatten(chunks))));
    PushedConserves(c, chunks);
  }

  lemma FinishLined(c: Splitter, s: State)
    requires WellFormed(c, s) && Sound(s)
    ensures Bracketed(Finished(c, s).pushed)
  {
    if s.pes.Some? {
      hide Bracketed, Join;
      PushFinished(c, s.(pes := Some(Write(s.pes.value, s.cache)), cache := []));
    }
  }

  lemma HeaderHolds(c: Splitter, t: seq<Byte>, p: nat, r: nat)
    requires Disjoint(c, t) && Missed(c, t, p, r) && 0 < p
    ensures Split(c, t, r).header == HeaderAt(c, t, p)
  {
    SplitQuiet(c, t, p + 1, r);
  }

  lemma MissedRun(c: Splitter, t: seq<Byte>, p: nat, r: nat)
    requires 0 < p && Missed(c, t, p, r) && NoneBefore(c, t, p) && Disjoint(c, t)
    ensures var chunks := [t[..p + c.Carry()], t[p + c.Carry()..]];
            LongEnough(c, chunks) && Flatten(chunks) == t && !Finds(c, t, chunks)
  {
    var d, e := t[..p + c.Carry()], t[p + c.Carry()..];
    assert t == d + e;
    hide Apart, NoneBefore, Splitter.NalType, Tracks, Bracketed, Packetized, Frame, RunFits, Run, Finished, Units;
    hide ChunkFits, Leaves;
    PrefixLeaves(c, t, p);
    FirstPart(c, t, p);
    var s := Packetized(c, Initial(c), d);
    TwoChunks(c, Initial(c), d, e, s, Packetized(c, s, e));
    BothLong(c, d, e);
    if Finds(c, t, [d, e]) {
      FindsFits(c, [d, e]);
      StillBegins(c, t, p);
      HeaderHolds(c, t, p, r);
      var b := CutsAt(c, t, r);
      hide Missed, Disjoint, Finds, Join;
      SecondPart(c, d, s, e, p, r);
      var v :| Spans(v, r) && Goes(v, Join(Pushed(c, [d, e])).0);
      NoBoundary(v, Units(c, t), b);
    }
  }

  lemma BothLong(c: Splitter, d: seq<Byte>, e: seq<Byte>)
    requires |d| > c.Carry() && |e| >= c.Carry()
    ensures LongEnough(c, [d, e]) && Prompt(c, Initial(c), [d, e])
  {}

  /** With chunks long enough and cuts apart, a run finds the units of its stream if and
      only if every window and the last flush found room. */
  lemma FoundExactly(c: Splitter, chunks: seq<seq<Byte>>)
    requires LongEnough(c, chunks) && Apart(c, Flatten(chunks))
    ensures RunSafe(c, Initial(c), chunks)
    ensures Finds(c, Flatten(chunks), chunks) <==> Fits(c, chunks)
  {
    hide RunFits, Run, Finished, Join, Units, Apart;
    LongEnoughRuns(c, chunks);
    if Fits(c, chunks) { PushedUnits(c, chunks); }
    if Finds(c, Flatten(chunks), chunks) { FindsFits(c, chunks); }
  }

  /** Every chunking long enough finds the units. */
  ghost predicate AlwaysFinds(c: Splitter, t: seq<Byte>) {
    forall chunks: seq<seq<Byte>> :: LongEnough(c, chunks) && Flatten(chunks) == t ==> Finds(c, t, chunks)
  }

  /** Where start codes do not overlap the headers before them, cuts too near each other
      make some chunking miss a unit. */
  lemma NearMisses(c: Splitter, t: seq<Byte>)
    requires Disjoint(c, t) && !Apart(c, t)
    ensures !AlwaysFinds(c, t)
  {
    hide Finds, LongEnough, Apart;
    var p, r := SomeMissed(c, t);
    p, r := FirstMissed(c, t, p, r);
    MissedBehind(c, t, p, r);
    MissedRun(c, t, p, r);
  }

  /** At the very beginning nothing overlaps. */
  lemma MissedBehind(c: Splitter, t: seq<Byte>, p: nat, r: nat)
    requires Disjoint(c, t) && Missed(c, t, p, r)
    ensures 0 < p
  {}
}
