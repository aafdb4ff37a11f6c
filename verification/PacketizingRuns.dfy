/** Whole runs of a packetizer: which of them write through the null packet, what the
    others keep, and how their packets are bracketed. */
module PacketizingRuns {
  import opened Bytes
  import opened AccessUnits
  import opened Packetizing
  import opened PacketizingProofs

  // ----- the null packet -----

  /** The first packet is made by a chunk longer than the cache, or never. */
  predicate Prompt(c: Splitter, s: State, chunks: seq<seq<Byte>>) {
    || s.pes.Some?
    || |s.cache| + |Flatten(chunks)| <= c.Carry()
    || (s.cache == [] && |Head(chunks)| > c.Carry())
  }

  /** A chunk that the cache takes. */
  lemma CachedChunk(c: Splitter, s: State, data: seq<Byte>)
    requires WellFormed(c, s) && |s.cache| + |data| <= c.Carry()
    ensures Packetized(c, s, data) == s.(cache := s.cache + data)
  {
    if data == [] {
      NilRight(s.cache);
    } else {
      var o := Frame(c, s, data);
      assert data[o.taken..] == [];
      assert Packetized(c, o.state, []) == o.state;
    }
  }

  lemma PromptStep(c: Splitter, s: State, chunks: seq<seq<Byte>>)
    requires WellFormed(c, s) && chunks != [] && Prompt(c, s, chunks)
    ensures chunks[0] != [] ==> OnTime(c, s, chunks[0]) && !NullWrite(c, s, chunks[0])
    ensures Prompt(c, Packetized(c, s, chunks[0]), chunks[1..])
  {
    hide Splitter.NalType;
    if |s.cache| + |chunks[0]| <= c.Carry() { CachedChunk(c, s, chunks[0]); }
    hide Packetized;
  }

  lemma {:induction false} PromptSafe(c: Splitter, s: State, chunks: seq<seq<Byte>>)
    requires WellFormed(c, s) && Prompt(c, s, chunks)
    ensures RunSafe(c, s, chunks)
    decreases |chunks|
  {
    hide Prompt, Packetized, NullWrite;
    if chunks != [] {
      PromptStep(c, s, chunks);
      PromptSafe(c, Packetized(c, s, chunks[0]), chunks[1..]);
    }
  }

  /** A start code at the beginning is seen alike in the window and in the stream. */
  lemma BeginsAlike(c: Splitter, s: State, w: seq<Byte>, t: seq<Byte>)
    requires |s.header| == c.HeaderLen() && w <= t && |w| > c.Carry()
    ensures BeginsCut(c, s, w) == BeginsCut(c, s, t)
  {
    assert Part(t, 0, w);
    PartSlice(t, 0, w, 4, 4 + c.HeaderLen());
  }

  /** The bytes `a` are cached and there is no packet yet. */
  lemma {:induction false} SafeFrom(c: Splitter, a: seq<Byte>, chunks: seq<seq<Byte>>)
    requires 0 < |a| <= c.Carry()
    ensures var s, t := Initial(c).(cache := a), a + Flatten(chunks);
            RunSafe(c, s, chunks) <==> |t| <= c.Carry() || BeginsCut(c, s, t)
    decreases |chunks|
  {
    hide BeginsCut, Packetized;
    var s, t := Initial(c).(cache := a), a + Flatten(chunks);
    if chunks != [] {
      var d, rest := chunks[0], chunks[1..];
      Assoc(a, d, Flatten(rest));
      if |a| + |d| <= c.Carry() {
        CachedChunk(c, s, d);
        SafeFrom(c, a + d, rest);
        if d == [] { NilRight(a); }
        BeginsSame(c, s, s.(cache := a + d), t);
      } else {
        var w := Window(c, a, d);
        assert t[..|w|] == w;
        BeginsAlike(c, s, w, t);
        if !NullWrite(c, s, d) { PromptSafe(c, Packetized(c, s, d), rest); }
      }
    }
  }

  lemma BeginsSame(c: Splitter, s: State, r: State, t: seq<Byte>)
    requires |s.header| == c.HeaderLen() && s.header == r.header
    ensures BeginsCut(c, s, t) == BeginsCut(c, r, t)
  {}

  /** Exactly when no call of a run writes through the null packet: the whole stream fits
      the cache, or the first bytes given are more than the cache holds, or the stream
      begins with a start code that cuts. */
  lemma {:induction false} SafeRuns(c: Splitter, chunks: seq<seq<Byte>>)
    ensures RunSafe(c, Initial(c), chunks)
       <==> |Flatten(chunks)| <= c.Carry() || |Head(chunks)| > c.Carry() || BeginsCut(c, Initial(c), Flatten(chunks))
    decreases |chunks|
  {
    hide Packetized, BeginsCut, NullWrite;
    if chunks != [] {
      var d := chunks[0];
      if d == [] {
        NilLeft(Flatten(chunks[1..]));
        CachedChunk(c, Initial(c), d);
        assert Initial(c).(cache := [] + d) == Initial(c);
        SafeRuns(c, chunks[1..]);
      } else if |d| > c.Carry() {
        PromptSafe(c, Initial(c), chunks);
      } else {
        NilLeft(d);
        CachedChunk(c, Initial(c), d);
        SafeFrom(c, d, chunks[1..]);
        BeginsSame(c, Initial(c), Initial(c).(cache := d), Flatten(chunks));
        NotNull(c, d);
      }
    }
  }

  lemma NotNull(c: Splitter, d: seq<Byte>)
    ensures !NullWrite(c, Initial(c), d)
  {}

  // ----- what is pushed -----

  /** Everything pushed for a stream given in `chunks` and then finished. */
  ghost function Pushed(c: Splitter, chunks: seq<seq<Byte>>): seq<Packet>
    requires RunSafe(c, Initial(c), chunks)
  {
    Finished(c, Run(c, Initial(c), chunks)).pushed
  }

  /** Every window of this chunk finds room. */
  ghost predicate ChunkFits(c: Splitter, s: State, data: seq<Byte>)
    requires WellFormed(c, s) && (data == [] || !NullWrite(c, s, data))
    decreases |data|
  {
    data != [] ==>
      var o := Frame(c, s, data);
      WindowFits(c, s, data) && ChunkFits(c, o.state, data[o.taken..])
  }

  /** Every window of this run finds room. */
  ghost predicate RunFits(c: Splitter, s: State, chunks: seq<seq<Byte>>)
    requires WellFormed(c, s) && RunSafe(c, s, chunks)
    decreases |chunks|
  {
    chunks != [] ==>
      ChunkFits(c, s, chunks[0]) && RunFits(c, Packetized(c, s, chunks[0]), chunks[1..])
  }

  /** The cache fits the last packet. */
  predicate FinishFits(s: State) {
    s.pes.Some? ==> |s.pes.value| + |s.cache| <= MAX_PES
  }

  ghost predicate Fits(c: Splitter, chunks: seq<seq<Byte>>)
    requires RunSafe(c, Initial(c), chunks)
  {
    RunFits(c, Initial(c), chunks) && FinishFits(Run(c, Initial(c), chunks))
  }

  /** A run of two chunks, step by step. */
  lemma TwoChunks(c: Splitter, s: State, a: seq<Byte>, b: seq<Byte>, u: State, r: State)
    requires WellFormed(c, s) && (a == [] || !NullWrite(c, s, a)) && u == Packetized(c, s, a)
    requires (b == [] || !NullWrite(c, u, b)) && r == Packetized(c, u, b)
    ensures Flatten([a, b]) == a + b
    ensures RunSafe(c, s, [a, b]) && Run(c, s, [a, b]) == r
    ensures RunFits(c, s, [a, b]) <==> ChunkFits(c, s, a) && ChunkFits(c, u, b)
  {
    hide Packetized, NullWrite, ChunkFits;
    var last: seq<seq<Byte>> := [b];
    assert [a, b][1..] == last && last[1..] == [];
    assert Flatten(last) == b;
    assert RunSafe(c, r, last[1..]) && Run(c, r, last[1..]) == r && RunFits(c, r, last[1..]);
    assert RunSafe(c, u, last) && Run(c, u, last) == r && (RunFits(c, u, last) <==> ChunkFits(c, u, b));
  }

  // ----- byte conservation -----

  /** Everything taken in and not lost. */
  function Held(s: State): seq<Byte> {
    Committed(s) + s.cache
  }

  lemma {:induction false} ChunkKeeps(c: Splitter, s: State, data: seq<Byte>, r: State)
    requires WellFormed(c, s) && Loaded(s) && (data == [] || !NullWrite(c, s, data))
    requires r == Packetized(c, s, data)
    ensures Loaded(r)
    ensures if ChunkFits(c, s, data) then Held(r) == Held(s) + data else |Held(r)| < |Held(s)| + |data|
    decreases |data|
  {
    hide Committed, Loaded, WindowFits, Frame;
    if data == [] {
      NilRight(Held(s));
    } else {
      var o := Frame(c, s, data);
      FrameConserves(c, s, data);
      ChunkKeeps(c, o.state, data[o.taken..], r);
      Halves(Held(s), data, o.taken);
    }
  }

  lemma {:induction false} RunKeeps(c: Splitter, s: State, chunks: seq<seq<Byte>>, r: State)
    requires WellFormed(c, s) && Loaded(s) && RunSafe(c, s, chunks) && r == Run(c, s, chunks)
    ensures Loaded(r)
    ensures if RunFits(c, s, chunks) then Held(r) == Held(s) + Flatten(chunks)
            else |Held(r)| < |Held(s)| + |Flatten(chunks)|
    decreases |chunks|
  {
    hide Held, Loaded, ChunkFits, Packetized, NullWrite;
    if chunks == [] {
      NilRight(Held(s));
    } else {
      var s' := Packetized(c, s, chunks[0]);
      ChunkKeeps(c, s, chunks[0], s');
      RunKeeps(c, s', chunks[1..], r);
      Assoc(Held(s), chunks[0], Flatten(chunks[1..]));
    }
  }

  /** A packet was made exactly when the stream is longer than the cache. */
  lemma {:induction false} RunMakes(c: Splitter, s: State, chunks: seq<seq<Byte>>)
    requires WellFormed(c, s) && RunSafe(c, s, chunks) && s.header == c.NoHeader()
    ensures Run(c, s, chunks).pes.Some? <==> s.pes.Some? || |s.cache| + |Flatten(chunks)| > c.Carry()
    decreases |chunks|
  {
    hide NullWrite, Packetized, Splitter.NalType;
    if chunks != [] {
      var d, rest := chunks[0], chunks[1..];
      var s' := Packetized(c, s, d);
      if s.pes.Some? || |s.cache| + |d| > c.Carry() {
        StaysMade(c, s', rest);
      } else {
        CachedChunk(c, s, d);
        RunMakes(c, s', rest);
      }
    }
  }

  lemma {:induction false} StaysMade(c: Splitter, s: State, chunks: seq<seq<Byte>>)
    requires WellFormed(c, s) && RunSafe(c, s, chunks) && s.pes.Some?
    ensures Run(c, s, chunks).pes.Some?
    decreases |chunks|
  {
    if chunks != [] { StaysMade(c, Packetized(c, s, chunks[0]), chunks[1..]); }
  }

  lemma FinishKeeps(c: Splitter, s: State)
    requires WellFormed(c, s) && s.pes.Some?
    ensures if FinishFits(s) then Data(Finished(c, s).pushed) == Held(s)
            else |Data(Finished(c, s).pushed)| < |Held(s)|
  {
    hide Splitter.NalType;
    var d := s.cache[..Room(s.pes.value, s.cache)];
    PendingCommits(s, d);
    var u := s.(pes := Some(s.pes.value + d), cache := [], finished := true);
    PushCommits(c, u);
    NilRight(Data(Push(c, u).pushed));
    assert Finished(c, s) == Push(c, u);
    if FinishFits(s) { Whole(s.cache); }
  }

  lemma NothingPushed(c: Splitter, s: State)
    requires WellFormed(c, s) && Loaded(s) && s.pes.None?
    ensures Data(Finished(c, s).pushed) == [] && Committed(s) == []
  {}

  /** Whatever the chunks: the pushed data is the input, byte for byte, if and only if
      every window and the final cache found room and the input was not left in the
      cache, as one of at most a cache's length is. */
  lemma PushedConserves(c: Splitter, chunks: seq<seq<Byte>>)
    requires RunSafe(c, Initial(c), chunks)
    ensures Data(Pushed(c, chunks)) == Flatten(chunks)
       <==> Fits(c, chunks) && (Flatten(chunks) == [] || |Flatten(chunks)| > c.Carry())
  {
    var s := Run(c, Initial(c), chunks);
    RunKeeps(c, Initial(c), chunks, s);
    NilLeft(Flatten(chunks));
    RunMakes(c, Initial(c), chunks);
    hide Finished, Data, Run, RunSafe, RunFits;
    if s.pes.Some? { FinishKeeps(c, s); } else { ShortFits(c, Initial(c), chunks); NothingPushed(c, s); }
  }

  lemma {:induction false} ShortFits(c: Splitter, s: State, chunks: seq<seq<Byte>>)
    requires WellFormed(c, s) && RunSafe(c, s, chunks) && |s.cache| + |Flatten(chunks)| <= c.Carry()
    ensures RunFits(c, s, chunks)
    decreases |chunks|
  {
    hide Packetized, Splitter.NalType;
    if chunks != [] {
      CachedChunk(c, s, chunks[0]);
      CachedFits(c, s, chunks[0]);
      ShortFits(c, Packetized(c, s, chunks[0]), chunks[1..]);
    }
  }

  lemma CachedFits(c: Splitter, s: State, data: seq<Byte>)
    requires WellFormed(c, s) && |s.cache| + |data| <= c.Carry()
    ensures ChunkFits(c, s, data)
  {
    if data != [] { assert data[Frame(c, s, data).taken..] == []; }
  }

  /** The last packet of a finished stream closes its access unit. */
  lemma PushedEnds(c: Splitter, chunks: seq<seq<Byte>>)
    requires RunSafe(c, Initial(c), chunks)
    ensures var p := Pushed(c, chunks);
            if |Flatten(chunks)| > c.Carry() then p != [] && p[|p| - 1].finished else p == []
  {
    var s := Run(c, Initial(c), chunks);
    RunMakes(c, Initial(c), chunks);
    RunKeeps(c, Initial(c), chunks, s);
    hide Run, RunSafe, Splitter.NalType;
  }

  // ----- brackets -----

  lemma {:induction false} ChunkLined(c: Splitter, s: State, data: seq<Byte>)
    requires WellFormed(c, s) && Sound(s) && (data == [] || (OnTime(c, s, data) && !NullWrite(c, s, data)))
    ensures Sound(Packetized(c, s, data))
    decreases |data|
  {
    hide Sound, Frame;
    if data != [] {
      var o := Frame(c, s, data);
      FrameLined(c, s, data);
      ChunkLined(c, o.state, data[o.taken..]);
    }
  }

  lemma {:induction false} RunLined(c: Splitter, s: State, chunks: seq<seq<Byte>>)
    requires WellFormed(c, s) && Sound(s) && RunSafe(c, s, chunks) && Prompt(c, s, chunks)
    ensures Sound(Run(c, s, chunks))
    decreases |chunks|
  {
    hide Sound, Packetized, Prompt, OnTime, NullWrite;
    if chunks != [] {
      PromptStep(c, s, chunks);
      ChunkLined(c, s, chunks[0]);
      RunLined(c, Packetized(c, s, chunks[0]), chunks[1..]);
    }
  }
}
