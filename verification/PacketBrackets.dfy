/** When the packets of a run are bracketed: a window that makes the first packet leaves
    `bFinished` set, and a call that then fills that packet sends it off as finished. */
module PacketBrackets {
  import opened Bytes
  import opened AccessUnits
  import opened Packetizing
  import opened PacketizingProofs
  import opened PacketizingRuns

  /** What a call gives the copy loops before it sets `bFinished` itself: the cache and the
      bytes scanned, unless it caches the chunk or finds a start code in the window. */
  function Before(c: Splitter, s: State, data: seq<Byte>): nat
    requires |s.header| == c.HeaderLen()
  {
    if |s.cache| + |data| <= c.Carry() || Hits(c, s, data) then 0
    else |s.cache| + if |data| <= c.Carry() then 0 else Scan(c, data, 0, s.header).0
  }

  /** The flag was left set and the packet does not hold what the call adds to it. */
  predicate Spills(c: Splitter, s: State, data: seq<Byte>)
    requires |s.header| == c.HeaderLen()
  {
    s.finished && s.pes.Some? && |s.pes.value| + Before(c, s, data) > MAX_PES
  }

  ghost predicate ChunkHolds(c: Splitter, s: State, data: seq<Byte>)
    requires WellFormed(c, s) && (data == [] || !NullWrite(c, s, data))
    decreases |data|
  {
    data != [] ==>
      var o := Frame(c, s, data);
      !Spills(c, s, data) && ChunkHolds(c, o.state, data[o.taken..])
  }

  /** No call of the run spills. */
  ghost predicate RunHolds(c: Splitter, s: State, chunks: seq<seq<Byte>>)
    requires WellFormed(c, s) && RunSafe(c, s, chunks)
    decreases |chunks|
  {
    chunks != [] ==>
      ChunkHolds(c, s, chunks[0]) && RunHolds(c, Packetized(c, s, chunks[0]), chunks[1..])
  }

  // ----- the three states -----

  /** The first packet, with the flag left set. */
  predicate Stale(s: State) {
    s.finished && s.first && s.pushed == [] && s.pes.Some? && s.pes.value != []
  }

  /** The first packet went off as finished in the middle of its unit. */
  predicate Slipped(s: State) {
    && !s.finished && s.pushed != [] && s.pushed[0].finished
    && if |s.pushed| == 1 then !s.first else !s.pushed[1].first
  }

  lemma PushSlips(c: Splitter, s: State)
    requires WellFormed(c, s) && (Stale(s) || Slipped(s.(finished := false))) && s.pes.Some?
    ensures Slipped(Push(c, s))
  {}

  lemma {:induction false} FillSlipped(c: Splitter, s: State, d: seq<Byte>)
    requires WellFormed(c, s) && Slipped(s)
    ensures Slipped(Fill(c, s, d))
    decreases |d|, if s.pes.Some? then 1 else 0
  {
    hide Splitter.NalType;
    if d != [] {
      var p := Pending(s);
      var w := Room(p, d);
      if w < |d| {
        var t := s.(pes := Some(Write(p, d)));
        PushSlips(c, t);
        FillSlipped(c, Push(c, t), d[w..]);
      }
    }
  }

  /** The copy loop on the first packet: either all fits, or it slips. */
  lemma FillStale(c: Splitter, s: State, d: seq<Byte>)
    requires WellFormed(c, s) && Stale(s)
    ensures if |s.pes.value| + |d| <= MAX_PES
            then Fill(c, s, d) == s.(pes := Some(s.pes.value + d)) && Stale(Fill(c, s, d))
            else Slipped(Fill(c, s, d))
  {
    hide Splitter.NalType, Push;
    var w := Room(s.pes.value, d);
    if w < |d| {
      var t := s.(pes := Some(Write(s.pes.value, d)));
      PushSlips(c, t);
      FillSlipped(c, Push(c, t), d[w..]);
    } else {
      Whole(d);
      if d == [] { NilRight(s.pes.value); }
    }
  }

  lemma NextSlipped(c: Splitter, s: State, header: seq<Byte>, d: seq<Byte>)
    requires WellFormed(c, s) && Slipped(s.(finished := false)) && s.pes.Some?
    requires |header| == c.HeaderLen() && |d| <= MAX_PES
    ensures Slipped(NextUnit(c, s, header, d))
  {
    PushSlips(c, s.(finished := true));
  }

  /** The end of the first unit clears the flag in time. */
  lemma NextStale(c: Splitter, s: State, header: seq<Byte>, d: seq<Byte>)
    requires WellFormed(c, s) && Stale(s) && |header| == c.HeaderLen() && 0 < |d| <= MAX_PES
    ensures Sound(NextUnit(c, s, header, d))
  {
    hide Splitter.NalType;
  }

  // ----- one call -----

  lemma BodySlipped(c: Splitter, s: State, data: seq<Byte>)
    requires WellFormed(c, s) && Slipped(s) && s.pes.Some? && s.cache == [] && data != []
    ensures Slipped(Body(c, s, data).state)
  {
    hide Splitter.NalType, Fill, NextUnit, Slipped;
    if |data| > c.Carry() {
      var (k, h) := Scan(c, data, 0, s.header);
      SlippedSame(s, s.(header := h));
      FillSlipped(c, s.(header := h), data[..k]);
      var filled := Fill(c, s.(header := h), data[..k]);
      if k < |data| - c.Carry() {
        SlippedSame(filled, filled.(finished := false));
        FillMade(c, s.(header := h), data[..k]);
        NextSlipped(c, filled, HeaderAt(c, data, k), data[k..k + 4 + c.HeaderLen()]);
      } else {
        SlippedSame(filled, filled.(cache := data[k..]));
      }
    } else {
      SlippedSame(s, s.(cache := data));
    }
  }

  lemma FillMade(c: Splitter, s: State, d: seq<Byte>)
    requires WellFormed(c, s) && s.pes.Some?
    ensures Fill(c, s, d).pes.Some?
  {}

  lemma SlippedSame(s: State, r: State)
    requires r.pushed == s.pushed && r.first == s.first && (r.finished == s.finished || !r.finished)
    ensures Slipped(s) ==> Slipped(r)
  {}

  lemma HitSlipped(c: Splitter, s: State, w: seq<Byte>, i: nat)
    requires WellFormed(c, s) && Slipped(s) && s.pes.Some? && CodeAt(c, w, i) && |w| <= 2 * c.Carry()
    ensures Slipped(WindowHit(c, s, w, i))
  {
    hide Splitter.NalType, NextUnit;
    if c.Cuts(s.header, HeaderAt(c, w, i)) {
      NextSlipped(c, s.(pes := Some(Write(s.pes.value, w[..i])), finished := true), HeaderAt(c, w, i), w[i..]);
    }
  }

  lemma FrameSlipped(c: Splitter, s: State, data: seq<Byte>)
    requires WellFormed(c, s) && Slipped(s) && s.pes.Some? && data != []
    ensures Slipped(Frame(c, s, data).state)
  {
    hide Splitter.NalType, Body, Fill, WindowHit, Slipped;
    if |s.cache| + |data| <= c.Carry() {
      SlippedSame(s, s.(cache := s.cache + data));
    } else if s.cache == [] {
      BodySlipped(c, s, data);
    } else if Hits(c, s, data) {
      var w := Window(c, s.cache, data);
      HitSlipped(c, s, w, FindCode(c, w, 0));
    } else {
      FillSlipped(c, s, s.cache);
      SlippedSame(Fill(c, s, s.cache), FlushCache(c, s));
      BodySlipped(c, FlushCache(c, s), data);
    }
  }

  /** The body of a call that does not spill ends the first unit or goes on with it. */
  lemma BodyStale(c: Splitter, s: State, data: seq<Byte>)
    requires WellFormed(c, s) && Stale(s) && s.cache == [] && data != []
    ensures var n, r := if |data| <= c.Carry() then 0 else Scan(c, data, 0, s.header).0, Body(c, s, data).state;
            if |s.pes.value| + n <= MAX_PES then Stale(r) || Sound(r) else Slipped(r)
  {
    hide Splitter.NalType, Fill, NextUnit, Scan;
    if |data| > c.Carry() {
      var (k, h) := Scan(c, data, 0, s.header);
      var filled := Fill(c, s.(header := h), data[..k]);
      FillStale(c, s.(header := h), data[..k]);
      if k < |data| - c.Carry() {
        var e, g := data[k..k + 4 + c.HeaderLen()], HeaderAt(c, data, k);
        if |s.pes.value| + k <= MAX_PES {
          NextStale(c, filled, g, e);
        } else {
          FillMade(c, s.(header := h), data[..k]);
          SlippedSame(filled, filled.(finished := false));
          NextSlipped(c, filled, g, e);
        }
      }
    }
  }

  lemma HitStale(c: Splitter, s: State, w: seq<Byte>, i: nat)
    requires WellFormed(c, s) && Stale(s) && CodeAt(c, w, i) && |w| <= 2 * c.Carry()
    ensures var r := WindowHit(c, s, w, i); Stale(r) || Sound(r)
  {
    hide Splitter.NalType, NextUnit;
    if c.Cuts(s.header, HeaderAt(c, w, i)) {
      NextStale(c, s.(pes := Some(Write(s.pes.value, w[..i]))), HeaderAt(c, w, i), w[i..]);
    }
  }

  lemma FlushStale(c: Splitter, s: State)
    requires WellFormed(c, s) && Stale(s)
    ensures if |s.pes.value| + |s.cache| <= MAX_PES
            then Stale(FlushCache(c, s)) && FlushCache(c, s).pes == Some(s.pes.value + s.cache)
            else Slipped(FlushCache(c, s))
    ensures FlushCache(c, s).header == s.header
  {
    hide Splitter.NalType, Fill;
    FillStale(c, s, s.cache);
  }

  /** A call from the first packet with the flag left set slips if and only if it spills. */
  lemma FrameStale(c: Splitter, s: State, data: seq<Byte>)
    requires WellFormed(c, s) && Stale(s) && data != []
    ensures var r := Frame(c, s, data).state;
            if Spills(c, s, data) then Slipped(r) else Stale(r) || Sound(r)
  {
    hide Splitter.NalType, Body, FlushCache, WindowHit, Slipped, Sound, Scan;
    if |s.cache| + |data| > c.Carry() {
      if s.cache == [] {
        BodyStale(c, s, data);
      } else if Hits(c, s, data) {
        var w := Window(c, s.cache, data);
        HitStale(c, s, w, FindCode(c, w, 0));
      } else {
        FlushStale(c, s);
        var t := FlushCache(c, s);
        if |s.pes.value| + |s.cache| <= MAX_PES { BodyStale(c, t, data); } else { BodySlipped(c, t, data); }
      }
    }
  }

  /** The window makes the first packet. */
  lemma LateStale(c: Splitter, s: State, data: seq<Byte>)
    requires WellFormed(c, s) && Sound(s) && data != [] && !OnTime(c, s, data) && !NullWrite(c, s, data)
    ensures Stale(Frame(c, s, data).state)
  {
    hide Splitter.NalType;
  }

  // ----- runs -----

  lemma {:induction false} ChunkSlipped(c: Splitter, s: State, data: seq<Byte>)
    requires WellFormed(c, s) && Slipped(s) && s.pes.Some?
    ensures var r := Packetized(c, s, data); Slipped(r) && r.pes.Some?
    decreases |data|
  {
    hide Slipped, Frame;
    if data != [] {
      FrameSlipped(c, s, data);
      var o := Frame(c, s, data);
      ChunkSlipped(c, o.state, data[o.taken..]);
    }
  }

  lemma {:induction false} RunSlipped(c: Splitter, s: State, chunks: seq<seq<Byte>>)
    requires WellFormed(c, s) && Slipped(s) && s.pes.Some? && RunSafe(c, s, chunks)
    ensures var r := Run(c, s, chunks); Slipped(r) && r.pes.Some?
    decreases |chunks|
  {
    hide Slipped, Packetized, NullWrite;
    if chunks != [] {
      ChunkSlipped(c, s, chunks[0]);
      RunSlipped(c, Packetized(c, s, chunks[0]), chunks[1..]);
    }
  }

  lemma FrameHolds(c: Splitter, s: State, data: seq<Byte>)
    requires WellFormed(c, s) && (Sound(s) || Stale(s)) && data != [] && !NullWrite(c, s, data)
    ensures var r := Frame(c, s, data).state;
            if Spills(c, s, data) then Slipped(r) && r.pes.Some? else Sound(r) || Stale(r)
  {
    hide Frame, Bracketed, Slipped, NullWrite, Before;
    if Stale(s) {
      FrameStale(c, s, data);
    } else if OnTime(c, s, data) {
      FrameLined(c, s, data);
    } else {
      LateStale(c, s, data);
    }
  }

  lemma {:induction false} ChunkModes(c: Splitter, s: State, data: seq<Byte>)
    requires WellFormed(c, s) && (Sound(s) || Stale(s)) && (data == [] || !NullWrite(c, s, data))
    ensures var r := Packetized(c, s, data);
            if ChunkHolds(c, s, data) then Sound(r) || Stale(r) else Slipped(r) && r.pes.Some?
    decreases |data|
  {
    hide Sound, Stale, Slipped, Frame, Spills;
    if data != [] {
      FrameHolds(c, s, data);
      var o := Frame(c, s, data);
      if Spills(c, s, data) { ChunkSlipped(c, o.state, data[o.taken..]); } else { ChunkModes(c, o.state, data[o.taken..]); }
    }
  }

  lemma {:induction false} RunModes(c: Splitter, s: State, chunks: seq<seq<Byte>>)
    requires WellFormed(c, s) && (Sound(s) || Stale(s)) && RunSafe(c, s, chunks)
    ensures var r := Run(c, s, chunks);
            if RunHolds(c, s, chunks) then Sound(r) || Stale(r) else Slipped(r) && r.pes.Some?
    decreases |chunks|
  {
    hide Sound, Stale, Slipped, Packetized, ChunkHolds, NullWrite;
    if chunks != [] {
      var t := Packetized(c, s, chunks[0]);
      ChunkModes(c, s, chunks[0]);
      if ChunkHolds(c, s, chunks[0]) { RunModes(c, t, chunks[1..]); } else { RunSlipped(c, t, chunks[1..]); }
    }
  }

  lemma InitialSound(c: Splitter)
    ensures Sound(Initial(c))
  {}

  /** Over every run that does not write through the null packet, whatever is lost: the
      packets are bracketed, and the pending one is a first one exactly after a finished
      one, if and only if no call spills. */
  lemma RunBrackets(c: Splitter, chunks: seq<seq<Byte>>)
    requires RunSafe(c, Initial(c), chunks)
    ensures var r := Run(c, Initial(c), chunks);
            Bracketed(r.pushed) && r.first == AtBoundary(r.pushed) <==> RunHolds(c, Initial(c), chunks)
  {
    hide Run, RunHolds, RunSafe;
    InitialSound(c);
    RunModes(c, Initial(c), chunks);
  }

  lemma FinishModes(c: Splitter, s: State)
    requires WellFormed(c, s) && (Sound(s) || Stale(s) || (Slipped(s) && s.pes.Some?))
    ensures Bracketed(Finished(c, s).pushed) <==> Sound(s) || Stale(s)
  {
    hide Splitter.NalType;
    if s.pes.Some? {
      var t := s.(pes := Some(Write(s.pes.value, s.cache)), cache := [], finished := true);
      if Sound(s) {
        PushFinished(c, t.(finished := false));
      } else if Slipped(s) {
        PushSlips(c, t);
      }
    }
  }

  /** The same of everything pushed for a finished stream. */
  lemma PushedBrackets(c: Splitter, chunks: seq<seq<Byte>>)
    requires RunSafe(c, Initial(c), chunks)
    ensures Bracketed(Pushed(c, chunks)) <==> RunHolds(c, Initial(c), chunks)
  {
    InitialSound(c);
    RunModes(c, Initial(c), chunks);
    FinishModes(c, Run(c, Initial(c), chunks));
    hide Run, RunHolds, RunSafe, Finished;
  }

  /** A run whose first packet is made by a chunk longer than the cache holds. */
  lemma {:induction false} PromptHolds(c: Splitter, chunks: seq<seq<Byte>>)
    requires Prompt(c, Initial(c), chunks)
    ensures RunSafe(c, Initial(c), chunks) && RunHolds(c, Initial(c), chunks)
  {
    PromptSafe(c, Initial(c), chunks);
    InitialSound(c);
    RunLined(c, Initial(c), chunks);
    RunModes(c, Initial(c), chunks);
    hide Run, RunHolds, RunSafe;
  }
}
