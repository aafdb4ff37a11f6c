/** When the flags of the fragments bracket the NAL units: a window that makes the first
    payload leaves `marker` set, and a call that then fills that payload sends it off as
    the last of its NAL unit. */
module FragmentFlags {
  import opened Bytes
  import opened AccessUnits
  import opened FragmentationUnits
  import opened FragmentationProofs
  import opened FragmentationRuns

  predicate Hits(s: State, data: seq<Byte>) {
    && s.cache != [] && |s.cache| + |data| > 4
    && var w := Window(NALS, s.cache, data); FindCode(NALS, w, 0) < |w| - 4
  }

  /** What a call gives the copy loops before it sets the marker itself. */
  function Before(s: State, data: seq<Byte>): nat {
    if |s.cache| + |data| <= 4 then 0
    else if Hits(s, data) then FindCode(NALS, Window(NALS, s.cache, data), 0)
    else |s.cache| + if |data| <= 4 then 0 else FindCode(NALS, data, 0)
  }

  /** The marker was left set and the payload does not hold what the call adds to it. */
  predicate Spills(m: nat, s: State, data: seq<Byte>) {
    s.marker && s.pending.Some? && |s.pending.value| + 2 + Before(s, data) > m
  }

  ghost predicate ChunkHolds(m: nat, s: State, data: seq<Byte>)
    requires WellFormed(m, s) && (data == [] || !NullWrite(s, data))
    decreases |data|
  {
    data != [] ==>
      var o := Format(m, s, data);
      !Spills(m, s, data) && ChunkHolds(m, o.state, data[o.taken..])
  }

  /** No call of the run spills. */
  ghost predicate RunHolds(m: nat, s: State, chunks: seq<seq<Byte>>)
    requires WellFormed(m, s) && RunSafe(m, s, chunks)
    decreases |chunks|
  {
    chunks != [] ==>
      ChunkHolds(m, s, chunks[0]) && RunHolds(m, Transport(m, s, chunks[0]), chunks[1..])
  }

  // ----- the three states -----

  /** The first payload, with the marker left set. */
  predicate Stale(m: nat, s: State) {
    s.marker && s.first && s.sent == [] && s.pending.Some?
  }

  /** The first fragment said that it ends a NAL unit that goes on. */
  ghost predicate Slipped(s: State) {
    && !s.marker && s.sent != [] && Readable(s.sent) && EndBit(s.sent[0])
    && if |s.sent| == 1 then !s.first else !StartBit(s.sent[1])
  }

  lemma PushSlips(m: nat, s: State)
    requires WellFormed(m, s) && (Stale(m, s) || Slipped(s.(marker := false))) && s.pending.Some?
    ensures Slipped(Push(m, s))
  {
    var f := Push(m, s).sent[|s.sent|];
    HeaderBits(f, s.header, s.first, s.marker, s.pending.value);
    hide StartBit, EndBit;
  }

  lemma SlippedSame(s: State, r: State)
    requires r.sent == s.sent && r.first == s.first && !r.marker
    ensures Slipped(s) ==> Slipped(r)
  {}

  lemma {:induction false} FillSlipped(m: nat, s: State, d: seq<Byte>)
    requires WellFormed(m, s) && Slipped(s)
    ensures Slipped(Fill(m, s, d))
    decreases |d|, if s.pending.Some? then 1 else 0
  {
    hide Slipped, Push;
    if d != [] {
      var p := if s.pending.Some? then s.pending.value else [];
      var w := Min(|d|, m - 2 - |p|);
      var t := s.(pending := Some(p + d[..w]));
      NotStaleMarker(s);
      SlippedSame(s, t);
      if w < |d| {
        SlippedSame(t, t.(marker := false));
        PushSlips(m, t);
        PushEmpties(m, t);
        FillSlipped(m, Push(m, t), d[w..]);
      }
    }
  }

  lemma NotStaleMarker(s: State)
    requires Slipped(s)
    ensures !s.marker
  {}

  lemma PushEmpties(m: nat, s: State)
    requires WellFormed(m, s) && s.pending.Some?
    ensures Push(m, s).pending.None?
  {}

  /** The copy loops on the first payload: either all fits, or it slips. */
  lemma FillStale(m: nat, s: State, d: seq<Byte>)
    requires WellFormed(m, s) && Stale(m, s)
    ensures if |s.pending.value| + 2 + |d| <= m
            then Fill(m, s, d) == s.(pending := Some(s.pending.value + d)) && Stale(m, Fill(m, s, d))
            else Slipped(Fill(m, s, d))
  {
    hide Push, Slipped;
    var w := Min(|d|, m - 2 - |s.pending.value|);
    if w < |d| {
      var t := s.(pending := Some(s.pending.value + d[..w]));
      PushSlips(m, t);
      FillSlipped(m, Push(m, t), d[w..]);
    } else {
      Whole(d);
      if d == [] { NilRight(s.pending.value); }
    }
  }

  lemma FillMade(m: nat, s: State, d: seq<Byte>)
    requires WellFormed(m, s) && s.pending.Some?
    ensures Fill(m, s, d).pending.Some?
  {}

  lemma NextSlipped(m: nat, s: State, h: Byte, d: seq<Byte>)
    requires WellFormed(m, s) && Slipped(s) && s.pending.Some? && |d| <= 3
    ensures Slipped(NextNal(m, s, h, d))
  {
    PushSlips(m, s.(marker := true));
    var f := Push(m, s.(marker := true)).sent[|s.sent|];
    hide StartBit, EndBit;
  }

  /** The end of the first NAL unit takes the marker in time. */
  lemma NextStale(m: nat, s: State, h: Byte, d: seq<Byte>)
    requires WellFormed(m, s) && Stale(m, s) && |d| <= 3
    ensures Sound(m, NextNal(m, s, h, d))
  {
    var u := s.(marker := false);
    NextNalBegins(m, u, h, d);
    assert NextNal(m, s, h, d) == NextNal(m, u, h, d);
  }

  // ----- one call -----

  lemma BodySlipped(m: nat, s: State, data: seq<Byte>)
    requires WellFormed(m, s) && Slipped(s) && s.pending.Some? && s.cache == [] && data != []
    ensures Slipped(Body(m, s, data).state)
  {
    hide Fill, NextNal, Slipped, CodeAt;
    NotStaleMarker(s);
    if |data| > 4 {
      var k := FindCode(NALS, data, 0);
      var filled := Fill(m, s, data[..k]);
      FillSlipped(m, s, data[..k]);
      FillMade(m, s, data[..k]);
      NotStaleMarker(filled);
      if k < |data| - 4 { NextSlipped(m, filled, data[k + 4], []); } else { SlippedSame(filled, filled.(cache := data[k..])); }
    } else {
      SlippedSame(s, s.(cache := data));
    }
  }

  lemma FormatSlipped(m: nat, s: State, data: seq<Byte>)
    requires WellFormed(m, s) && Slipped(s) && s.pending.Some? && data != []
    ensures Slipped(Format(m, s, data).state)
  {
    hide Fill, NextNal, Slipped, Body, CodeAt;
    NotStaleMarker(s);
    if |s.cache| + |data| <= 4 {
      SlippedSame(s, s.(cache := s.cache + data));
    } else if s.cache == [] {
      BodySlipped(m, s, data);
    } else if Hits(s, data) {
      var w := Window(NALS, s.cache, data);
      HitSlipped(m, s, w, FindCode(NALS, w, 0));
    } else {
      FillSlipped(m, s, s.cache);
      NotStaleMarker(Fill(m, s, s.cache));
      SlippedSame(Fill(m, s, s.cache), FlushCache(m, s));
      BodySlipped(m, FlushCache(m, s), data);
    }
  }

  lemma HitSlipped(m: nat, s: State, w: seq<Byte>, i: nat)
    requires WellFormed(m, s) && Slipped(s) && s.pending.Some? && CodeAt(NALS, w, i) && |w| <= 8
    ensures Slipped(WindowHit(m, s, w, i))
  {
    hide Fill, NextNal, Slipped;
    HitIs(m, s, w, i);
    FillSlipped(m, s, w[..i]);
    FillMade(m, s, w[..i]);
    NextSlipped(m, Fill(m, s, w[..i]), w[i + 4], w[i + 5..]);
  }

  lemma HitStale(m: nat, s: State, w: seq<Byte>, i: nat)
    requires WellFormed(m, s) && Stale(m, s) && CodeAt(NALS, w, i) && |w| <= 8
    ensures var r := WindowHit(m, s, w, i);
            if |s.pending.value| + 2 + i <= m then Sound(m, r) else Slipped(r)
  {
    hide Fill, NextNal, Slipped, Sound;
    HitIs(m, s, w, i);
    FillStale(m, s, w[..i]);
    FillMade(m, s, w[..i]);
    var filled := Fill(m, s, w[..i]);
    if |s.pending.value| + 2 + i <= m {
      NextStale(m, filled, w[i + 4], w[i + 5..]);
    } else {
      NextSlipped(m, filled, w[i + 4], w[i + 5..]);
    }
  }

  lemma BodyStale(m: nat, s: State, data: seq<Byte>)
    requires WellFormed(m, s) && Stale(m, s) && s.cache == [] && data != []
    ensures var n, r := if |data| <= 4 then 0 else FindCode(NALS, data, 0), Body(m, s, data).state;
            if |s.pending.value| + 2 + n <= m then Stale(m, r) || Sound(m, r) else Slipped(r)
  {
    hide Fill, NextNal, Slipped, Sound, CodeAt;
    if |data| > 4 {
      var k := FindCode(NALS, data, 0);
      var filled := Fill(m, s, data[..k]);
      FillStale(m, s, data[..k]);
      FillMade(m, s, data[..k]);
      if |s.pending.value| + 2 + k <= m {
        if k < |data| - 4 { NextStale(m, filled, data[k + 4], []); }
      } else {
        NotStaleMarker(filled);
        if k < |data| - 4 { NextSlipped(m, filled, data[k + 4], []); } else { SlippedSame(filled, filled.(cache := data[k..])); }
      }
    }
  }

  lemma FlushStale(m: nat, s: State)
    requires WellFormed(m, s) && Stale(m, s)
    ensures if |s.pending.value| + 2 + |s.cache| <= m
            then Stale(m, FlushCache(m, s)) && FlushCache(m, s).pending == Some(s.pending.value + s.cache)
            else Slipped(FlushCache(m, s))
  {
    hide Fill, Slipped;
    FillStale(m, s, s.cache);
    if |s.pending.value| + 2 + |s.cache| > m {
      NotStaleMarker(Fill(m, s, s.cache));
      SlippedSame(Fill(m, s, s.cache), FlushCache(m, s));
    }
  }

  /** A call from the first payload with the marker left set slips if and only if it spills. */
  lemma FormatStale(m: nat, s: State, data: seq<Byte>)
    requires WellFormed(m, s) && Stale(m, s) && data != []
    ensures var r := Format(m, s, data).state;
            if Spills(m, s, data) then Slipped(r) else Stale(m, r) || Sound(m, r)
  {
    hide Body, FlushCache, WindowHit, Slipped, Sound, CodeAt;
    if |s.cache| + |data| > 4 {
      if s.cache == [] {
        BodyStale(m, s, data);
      } else if Hits(s, data) {
        var w := Window(NALS, s.cache, data);
        HitStale(m, s, w, FindCode(NALS, w, 0));
      } else {
        FlushStale(m, s);
        var t := FlushCache(m, s);
        if |s.pending.value| + 2 + |s.cache| <= m { BodyStale(m, t, data); } else { BodySlipped(m, t, data); }
      }
    }
  }

  lemma LateStale(m: nat, s: State, data: seq<Byte>)
    requires Sound(m, s) && s.pending.None? && s.cache != [] && |s.cache| + |data| > 4 && !NullWrite(s, data)
    ensures Stale(m, Format(m, s, data).state)
  {
    hide Fragmented;
    var w := Window(NALS, s.cache, data);
    FillNone(m, s);
    assert w[..0] == [];
  }

  lemma FormatHolds(m: nat, s: State, data: seq<Byte>)
    requires WellFormed(m, s) && (Sound(m, s) || Stale(m, s)) && data != [] && !NullWrite(s, data)
    ensures var r := Format(m, s, data).state;
            if Spills(m, s, data) then Slipped(r) && r.pending.Some? else Sound(m, r) || Stale(m, r)
  {
    hide Format, Fragmented, Slipped, NullWrite, Before;
    if Stale(m, s) {
      FormatStale(m, s, data);
    } else if s.pending.Some? {
      FormatKeeps(m, s, data);
    } else if |s.cache| + |data| <= 4 {
      ShortKeeps(m, s, data);
    } else if s.cache == [] {
      FirstKeeps(m, s, data);
    } else {
      LateStale(m, s, data);
    }
  }

  lemma ShortKeeps(m: nat, s: State, data: seq<Byte>)
    requires Sound(m, s) && data != [] && |s.cache| + |data| <= 4
    ensures !NullWrite(s, data) && Sound(m, Format(m, s, data).state)
  {
    hide Fragmented;
  }

  // ----- runs -----

  lemma {:induction false} TransportSlipped(m: nat, s: State, data: seq<Byte>)
    requires WellFormed(m, s) && Slipped(s) && s.pending.Some?
    ensures var r := Transport(m, s, data); Slipped(r) && r.pending.Some?
    decreases |data|
  {
    hide Slipped, Format;
    if data != [] {
      FormatSlipped(m, s, data);
      var o := Format(m, s, data);
      TransportSlipped(m, o.state, data[o.taken..]);
    }
  }

  lemma {:induction false} RunSlipped(m: nat, s: State, chunks: seq<seq<Byte>>)
    requires WellFormed(m, s) && Slipped(s) && s.pending.Some? && RunSafe(m, s, chunks)
    ensures Slipped(Run(m, s, chunks))
    decreases |chunks|
  {
    hide Slipped, Transport, NullWrite;
    if chunks != [] {
      TransportSlipped(m, s, chunks[0]);
      RunSlipped(m, Transport(m, s, chunks[0]), chunks[1..]);
    }
  }

  lemma {:induction false} ChunkModes(m: nat, s: State, data: seq<Byte>)
    requires WellFormed(m, s) && (Sound(m, s) || Stale(m, s)) && (data == [] || !NullWrite(s, data))
    ensures var r := Transport(m, s, data);
            if ChunkHolds(m, s, data) then Sound(m, r) || Stale(m, r) else Slipped(r) && r.pending.Some?
    decreases |data|
  {
    hide Sound, Stale, Slipped, Format, Spills;
    if data != [] {
      FormatHolds(m, s, data);
      var o := Format(m, s, data);
      if Spills(m, s, data) {
        TransportSlipped(m, o.state, data[o.taken..]);
      } else {
        ChunkModes(m, o.state, data[o.taken..]);
      }
    }
  }

  lemma {:induction false} RunModes(m: nat, s: State, chunks: seq<seq<Byte>>)
    requires WellFormed(m, s) && (Sound(m, s) || Stale(m, s)) && RunSafe(m, s, chunks)
    ensures var r := Run(m, s, chunks);
            if RunHolds(m, s, chunks) then Sound(m, r) || Stale(m, r) else Slipped(r)
    decreases |chunks|
  {
    hide Sound, Stale, Slipped, Transport, ChunkHolds, NullWrite;
    if chunks != [] {
      var t := Transport(m, s, chunks[0]);
      ChunkModes(m, s, chunks[0]);
      if ChunkHolds(m, s, chunks[0]) { RunModes(m, t, chunks[1..]); } else { RunSlipped(m, t, chunks[1..]); }
    }
  }

  lemma ModesFlag(m: nat, r: State)
    requires WellFormed(m, r) && (Sound(m, r) || Stale(m, r) || Slipped(r))
    ensures Fragmented(m, r.sent) && r.first == AtStart(r.sent) <==> Sound(m, r) || Stale(m, r)
  {
    hide StartBit, EndBit;
  }

  /** Over every run that does not write through the null payload: the fragments sent are
      full and bracket the NAL units by their start and end flags, and the pending one
      begins a NAL unit exactly after one that ended one, if and only if no call spills. */
  lemma RunFlags(m: nat, header: Byte, chunks: seq<seq<Byte>>)
    requires m >= 5 && RunSafe(m, Initial(header), chunks)
    ensures var r := Run(m, Initial(header), chunks);
            Fragmented(m, r.sent) && r.first == AtStart(r.sent) <==> RunHolds(m, Initial(header), chunks)
  {
    RunModes(m, Initial(header), chunks);
    ModesFlag(m, Run(m, Initial(header), chunks));
    hide Run, RunHolds, RunSafe;
  }

  lemma {:induction false} ChunkSound(m: nat, s: State, data: seq<Byte>)
    requires Sound(m, s) && (s.pending.Some? || s.cache == [] || |s.cache| + |data| <= 4)
    ensures data != [] ==> !NullWrite(s, data)
    ensures ChunkHolds(m, s, data) && Sound(m, Transport(m, s, data))
    decreases |data|
  {
    hide Fragmented, Format, Stale;
    if data != [] {
      if s.pending.Some? {
        FormatKeeps(m, s, data);
      } else if |s.cache| + |data| <= 4 {
        ShortKeeps(m, s, data);
      } else {
        FirstKeeps(m, s, data);
      }
      var o := Format(m, s, data);
      ChunkSound(m, o.state, data[o.taken..]);
    }
  }

  lemma {:induction false} PromptSound(m: nat, s: State, chunks: seq<seq<Byte>>)
    requires Sound(m, s) && Prompt(s, chunks)
    ensures RunSafe(m, s, chunks) && RunHolds(m, s, chunks) && Sound(m, Run(m, s, chunks))
    decreases |chunks|
  {
    hide Fragmented, Transport, ChunkHolds, NullWrite;
    if chunks != [] {
      PromptStep(m, s, chunks);
      ChunkSound(m, s, chunks[0]);
      PromptSound(m, Transport(m, s, chunks[0]), chunks[1..]);
    }
  }

  /** A run whose first payload is made by a chunk longer than the cache never spills. */
  lemma PromptHolds(m: nat, header: Byte, chunks: seq<seq<Byte>>)
    requires m >= 5 && Prompt(Initial(header), chunks)
    ensures RunSafe(m, Initial(header), chunks) && RunHolds(m, Initial(header), chunks)
  {
    PromptSound(m, Initial(header), chunks);
  }

  // ----- a first payload made by the window -----

  /** The NAL unit in the next lemma: a start code, a header and sevens. */
  const FIRST: seq<Byte> := [0, 0, 0, 1]
  const NEXT: seq<Byte> := [9, 7, 7, 7, 7, 7, 7, 7, 7, 7, 7, 7, 7]

  lemma LateStart(header: Byte)
    ensures var s := Initial(header).(cache := FIRST);
            && !NullWrite(s, NEXT)
            && Format(5, s, NEXT) == Outcome(State(9, [], true, true, Some([7, 7, 7]), []), 4)
  {
    var s := Initial(header).(cache := FIRST);
    var w := Window(NALS, FIRST, NEXT);
    assert w == [0, 0, 0, 1, 9, 7, 7, 7];
    assert CodeAt(NALS, w, 0);
    assert w[..0] == [] && w[5..] == [7, 7, 7];
    assert Fill(5, s, w[..0]) == s;
  }

  lemma LateRest()
    ensures var s := State(9, [], true, true, Some([7, 7, 7]), []);
            var r := Format(5, s, NEXT[4..]);
            r.taken == 9 && |r.state.sent| == 2 && Readable(r.state.sent)
            && EndBit(r.state.sent[0]) && !StartBit(r.state.sent[1])
  {
    var s := State(9, [], true, true, Some([7, 7, 7]), []);
    var e := NEXT[4..];
    assert e == [7, 7, 7, 7, 7, 7, 7, 7, 7];
    NoCode(e, 0);
    var d := e[..5];
    var u := Push(5, s);
    assert Fill(5, s, d) == Fill(5, u, d) by {
      assert [7, 7, 7] + d[..0] == [7, 7, 7] && d[0..] == d;
    }
    var f := d[3..];
    assert Fill(5, u, d) == Fill(5, Push(5, u.(pending := Some([] + d[..3]))), f);
    assert f == [7, 7];
    assert Fill(5, Push(5, u.(pending := Some([] + d[..3]))), f).sent == Push(5, u.(pending := Some([] + d[..3]))).sent;
  }

  lemma {:induction false} NoCode(e: seq<Byte>, k: nat)
    requires k + 4 <= |e| && forall i :: 0 <= i < |e| ==> e[i] == 7
    ensures FindCode(NALS, e, k) == |e| - 4
    decreases |e| - k
  {
    if k + 4 < |e| { NoCode(e, k + 1); }
  }

  /** With payloads of 5 bytes and a NAL unit given in 4 bytes and the rest: no call is
      unsafe, but the first fragment sent says that it ends a NAL unit that goes on. */
  lemma LateStartMarks(header: Byte)
    ensures var s := Initial(header);
            RunSafe(5, s, [FIRST, NEXT]) && !Fragmented(5, Run(5, s, [FIRST, NEXT]).sent)
  {
    var s := Initial(header);
    var chunks: seq<seq<Byte>>, last: seq<seq<Byte>> := [FIRST, NEXT], [NEXT];
    assert chunks[1..] == last && last[1..] == [];
    LateStart(header);
    LateRest();
    CachedChunk(5, s, FIRST);
    NilLeft(FIRST);
    var s1 := s.(cache := FIRST);
    var o := Format(5, s1, NEXT);
    var p := Format(5, o.state, NEXT[4..]);
    assert NEXT[4..][p.taken..] == [];
    hide Format, NullWrite, StartBit, EndBit;
    assert Transport(5, o.state, NEXT[4..]) == p.state;
    assert Transport(5, s1, NEXT) == p.state;
    assert RunSafe(5, p.state, last[1..]) && Run(5, p.state, last[1..]) == p.state;
    assert RunSafe(5, s1, last) && Run(5, s1, last) == p.state;
    assert Run(5, s, chunks) == p.state;
  }
}
