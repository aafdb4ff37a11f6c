/** That a stream is roomy is needed too: if it is not, some chunking loses bytes of it. */
module RoomNeeded {
  import opened Bytes
  import opened AccessUnits
  import opened Packetizing
  import opened PacketizingProofs
  import opened PacketizingRuns
  import opened StreamParts
  import opened ChunkIndependence
  import opened Boundaries
  import opened ApartNeeded
  import opened PacketRoom

  /** One chunk with the cache empty: no window, so nothing is lost. */
  lemma {:induction false} AloneFits(c: Splitter, s: State, data: seq<Byte>)
    requires WellFormed(c, s) && Sound(s) && Full(s) && s.cache == []
    ensures !NullWrite(c, s, data) && ChunkFits(c, s, data) && Full(Packetized(c, s, data))
    decreases |data|
  {
    hide Full, Sound;
    if data != [] {
      var o := Frame(c, s, data);
      hide Frame;
      FrameLined(c, s, data);
      FrameFull(c, s, data);
      if o.taken < |data| { AloneFits(c, o.state, data[o.taken..]); } else { assert data[o.taken..] == []; }
    }
  }

  /** A start code that cuts and its header, taken alone. */
  lemma CutTaken(c: Splitter, s: State, data: seq<Byte>, o: Outcome)
    requires WellFormed(c, s) && Sound(s) && s.cache == [] && |data| > c.Carry() && o == Frame(c, s, data)
    requires o.state.cache == []
    ensures |View(o.state).1| == c.Carry() + 1 && Sound(o.state)
  {
    hide Join, Bracketed, Fill, NextUnit, Splitter.NalType;
    var (k, h) := Scan(c, data, 0, s.header);
    FillSound(c, s, h, data[..k], Fill(c, s.(header := h), data[..k]));
    NextUnitBegins(c, Fill(c, s.(header := h), data[..k]), HeaderAt(c, data, k), data[k..k + 4 + c.HeaderLen()]);
  }

  /** Such a chunk leaves a cache's length in the cache, unless it ends near a cut. */
  lemma {:induction false} AloneCaches(c: Splitter, s: State, data: seq<Byte>)
    requires WellFormed(c, s) && Sound(s) && s.cache == []
    requires |data| >= c.Carry() || |View(s).1| == c.Carry() + 1
    ensures !NullWrite(c, s, data)
    ensures var r := Packetized(c, s, data); |r.cache| == c.Carry() || |View(r).1| == c.Carry() + 1
    decreases |data|
  {
    hide View, Sound, Splitter.NalType;
    if data != [] {
      var o := Frame(c, s, data);
      if |data| <= c.Carry() {
        CachedChunk(c, s, data);
        NilLeft(data);
        SameView(s, data);
      } else {
        CallCaches(c, s, data, o);
        hide Frame;
        if o.state.cache == [] {
          CutTaken(c, s, data, o);
          AloneCaches(c, o.state, data[o.taken..]);
        } else {
          assert data[o.taken..] == [];
        }
      }
    }
  }

  lemma SameView(s: State, cache: seq<Byte>)
    ensures View(s.(cache := cache)) == View(s)
  {}

  /** Inside a long unit the first chunk ends with its packet as full as the unit makes it. */
  lemma FirstFull(c: Splitter, t: seq<Byte>, q: nat)
    requires Apart(c, t) && 0 < q && q + c.Carry() <= |t| && |Split(c, t, q).open| > c.Carry() + 1
    ensures var d := t[..q + c.Carry()];
            && !NullWrite(c, Initial(c), d) && ChunkFits(c, Initial(c), d)
            && var s := Packetized(c, Initial(c), d);
            && s.pes.Some? && Tracks(c, t, q, s) && |s.cache| == c.Carry()
            && |s.pes.value| == Filled(|Split(c, t, q).open|)
  {
    hide Split, Apart, View, Sound, ChunkFits, Packetized, Filled, Splitter.NalType;
    var d := t[..q + c.Carry()];
    InitialFollows(c, t);
    assert Part(t, 0, d);
    AloneFits(c, Initial(c), d);
    AloneCaches(c, Initial(c), d);
    var s := Packetized(c, Initial(c), d);
    ChunkTracks(c, t, 0, Initial(c), d, s);
    if |s.cache| < c.Carry() { OpenBack(c, t, q, |d| - |s.cache|); }
  }

  /** The window's bytes, whoever looks at them. */
  lemma WindowAt(c: Splitter, t: seq<Byte>, q: nat, s: State)
    requires Tracks(c, t, q, s) && |s.cache| == c.Carry() && q + 2 * c.Carry() <= |t|
    ensures Window(c, s.cache, t[q + c.Carry()..]) == t[q..q + 2 * c.Carry()]
  {
    WindowIs(c, t, q, s, t[q + c.Carry()..]);
  }

  lemma WindowTight(c: Splitter, t: seq<Byte>, q: nat, s: State)
    requires Tracks(c, t, q, s) && |s.cache| == c.Carry() && q + 2 * c.Carry() <= |t| && Tight(c, t, q)
    requires s.pes.Some? && |s.pes.value| == Filled(|Split(c, t, q).open|)
    ensures WellFormed(c, s) && !ChunkFits(c, s, t[q + c.Carry()..])
  {
    hide Split, View, Sound, Filled, Splitter.NalType;
    var w := t[q..q + 2 * c.Carry()];
    WindowAt(c, t, q, s);
    AlikeNeeds(c, Split(c, t, q).header, s.header, w, FindCode(c, w, 0));
    assert !WindowFits(c, s, t[q + c.Carry()..]);
  }

  lemma TightRun(c: Splitter, t: seq<Byte>, q: nat)
    requires Apart(c, t) && q + 2 * c.Carry() <= |t| && Tight(c, t, q)
    ensures var chunks := [t[..q + c.Carry()], t[q + c.Carry()..]];
            LongEnough(c, chunks) && Flatten(chunks) == t && !Finds(c, t, chunks)
  {
    var d, e := t[..q + c.Carry()], t[q + c.Carry()..];
    assert t == d + e;
    FilledBound(|Split(c, t, q).open|);
    OpenBound(c, t, q);
    FirstFull(c, t, q);
    var s := Packetized(c, Initial(c), d);
    WindowTight(c, t, q, s);
    TwoChunks(c, Initial(c), d, e, s, Packetized(c, s, e));
    BothLong(c, d, e);
    hide Apart, Split, Tracks, Packetized, ChunkFits, RunFits, Run, RunSafe, Finished, Units, Join;
    if Finds(c, t, [d, e]) { FindsFits(c, [d, e]); }
  }

  /** The whole stream in one chunk, whose end finds no room. */
  lemma LastRun(c: Splitter, t: seq<Byte>)
    requires Apart(c, t) && |t| > c.Carry()
    requires Filled(|Split(c, t, |t| - c.Carry()).open|) + c.Carry() > MAX_PES
    ensures LongEnough(c, [t]) && Flatten([t]) == t && !Finds(c, t, [t])
  {
    var q := |t| - c.Carry();
    FilledBound(|Split(c, t, q).open|);
    OpenBound(c, t, q);
    assert t[..q + c.Carry()] == t;
    FirstFull(c, t, q);
    OneChunk(c, t);
    hide Apart, Split, Tracks, Packetized, ChunkFits, RunFits, Run, RunSafe, Finished, Units, Join;
    if Finds(c, t, [t]) { FindsFits(c, [t]); }
  }

  lemma OneChunk(c: Splitter, t: seq<Byte>)
    requires |t| > c.Carry() && !NullWrite(c, Initial(c), t)
    ensures Flatten([t]) == t && LongEnough(c, [t]) && Prompt(c, Initial(c), [t])
    ensures RunSafe(c, Initial(c), [t]) && Run(c, Initial(c), [t]) == Packetized(c, Initial(c), t)
  {
    var rest: seq<seq<Byte>> := [t][1..];
    assert rest == [];
    NilRight(t);
  }

  /** The exact conditions on the stream alone, for streams whose start codes do not
      overlap the headers before them: every chunking into pieces long enough finds the
      access units if and only if the cuts are apart and nothing lacks room. */
  lemma StreamExactly(c: Splitter, t: seq<Byte>)
    requires Disjoint(c, t)
    ensures AlwaysFinds(c, t) <==> Apart(c, t) && Roomy(c, t)
  {
    hide Units, Run, RunSafe, Tight, Join, Finished, Apart, Split, Filled, Disjoint, LongEnough;
    if !Apart(c, t) {
      NearMisses(c, t);
    } else if Roomy(c, t) {
      forall chunks: seq<seq<Byte>> | LongEnough(c, chunks) && Flatten(chunks) == t ensures Finds(c, t, chunks) {
        StreamUnits(c, chunks);
      }
    } else if q: nat :| q + 2 * c.Carry() <= |t| && Tight(c, t, q) {
      TightRun(c, t, q);
    } else {
      LastRun(c, t);
    }
  }
}
