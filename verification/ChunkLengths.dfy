/** Which streams a packetizer cuts right however short the chunks behind the first are:
    those whose start codes that cut come before any window can miss them. */
module ChunkLengths {
  import opened Bytes
  import opened AccessUnits
  import opened Packetizing
  import opened PacketizingProofs
  import opened PacketizingRuns
  import opened StreamParts
  import opened ChunkIndependence
  import opened Boundaries
  import opened ApartNeeded
  import opened PacketRoom
  import opened RoomNeeded

  /** Behind `q` nothing cuts. */
  ghost predicate Done(c: Splitter, t: seq<Byte>, q: nat) {
    forall j: nat :: q < j ==> !CutsAfter(c, t, j)
  }

  /** A start code no chunking hides when the first chunk is longer than the cache: one of
      the first two bytes begins it, or it follows one at the beginning that cuts, and with
      its header was taken alone. */
  predicate AtOnce(c: Splitter, t: seq<Byte>, p: nat) {
    p <= 1 || (p == c.Carry() + 1 && CodeAt(c, t, 0) && c.Cuts(c.NoHeader(), HeaderAt(c, t, 0)))
  }

  ghost predicate CutsAtOnce(c: Splitter, t: seq<Byte>) {
    forall p: nat :: CutsAfter(c, t, p) ==> AtOnce(c, t, p)
  }

  // ----- where nothing cuts any more -----

  lemma {:induction false} HeadersAlike(c: Splitter, t: seq<Byte>, a: nat, b: nat)
    requires a <= b <= |t| && forall j: nat :: a <= j < b ==> !CutsAfter(c, t, j)
    ensures Alike(c, Split(c, t, b).header, Split(c, t, a).header)
    decreases b - a
  {
    if a < b {
      HeadersAlike(c, t, a, b - 1);
      assert !CutsAfter(c, t, b - 1);
    }
  }

  lemma CalmFrom(c: Splitter, t: seq<Byte>, a: nat, b: nat, h: seq<Byte>)
    requires a <= b <= |t| && (forall j: nat :: a <= j < b ==> !CutsAfter(c, t, j))
    requires |h| == c.HeaderLen() && Alike(c, Split(c, t, a).header, h)
    ensures Calm(c, t, a, b, h)
  {
    forall j: nat | a <= j < b && CodeAt(c, t, j) ensures !c.Cuts(h, HeaderAt(c, t, j)) {
      HeadersAlike(c, t, a, j);
      assert !CutsAfter(c, t, j);
    }
  }

  lemma CalmBehind(c: Splitter, t: seq<Byte>, q: nat, p: nat, b: nat)
    requires Done(c, t, q) && q <= p < b <= |t| && CodeAt(c, t, p)
    ensures Calm(c, t, p + 1, b, HeaderAt(c, t, p))
  {
    assert Split(c, t, p + 1).header == HeaderAt(c, t, p);
    hide Split;
    CalmFrom(c, t, p + 1, b, HeaderAt(c, t, p));
  }

  lemma HitShort(c: Splitter, t: seq<Byte>, q: nat, s: State, w: seq<Byte>, i: nat)
    requires Tracks(c, t, q, s) && s.pes.Some? && Done(c, t, q)
    requires Part(t, q, w) && CodeAt(c, w, i) && |w| <= 2 * c.Carry()
    requires forall j: nat :: j < i ==> !CodeAt(c, w, j)
    requires |s.pes.value| + Needed(c, s, w, i) <= MAX_PES
    ensures Tracks(c, t, q + |w|, WindowHit(c, s, w, i))
  {
    hide Split, Sound, View, Reads, Done, WindowHit, Splitter.NalType, Calm, Needed;
    CodeShift(c, t, q, w, i);
    CalmBehind(c, t, q, q + i, q + |w|);
    WindowTracks(c, t, q, s, w, i);
  }

  /** The cache joins the open unit: what begins in it does not cut. */
  lemma FlushShort(c: Splitter, t: seq<Byte>, q: nat, s: State)
    requires Tracks(c, t, q, s) && s.pes.Some? && Done(c, t, q) && !CodeAt(c, t, q)
    ensures Tracks(c, t, q + |s.cache|, FlushCache(c, s))
  {
    hide Split, Join, Bracketed, Splitter.NalType, Fill;
    var n := q + |s.cache|;
    CalmFrom(c, t, q, n, s.header);
    SplitCalm(c, t, q, n, s.header);
    PartSlice(t, q, s.cache, 0, |s.cache|);
    Whole(s.cache);
    FlushAdds(c, s);
  }

  // ----- runs -----

  lemma BodyShort(c: Splitter, t: seq<Byte>, q: nat, s: State, data: seq<Byte>)
    requires Tracks(c, t, q, s) && s.cache == [] && Part(t, q, data) && data != []
    requires Disjoint(c, t) && Done(c, t, q)
    ensures var r := Body(c, s, data);
            && |r.state.cache| <= r.taken
            && Tracks(c, t, q + r.taken - |r.state.cache|, r.state)
            && Done(c, t, q + r.taken - |r.state.cache|)
  {
    hide Tracks, Body, Disjoint;
    BodyTracks(c, t, q, s, data);
  }

  lemma ShortCached(c: Splitter, t: seq<Byte>, q: nat, s: State, data: seq<Byte>)
    requires Tracks(c, t, q, s) && Part(t, q + |s.cache|, data) && |s.cache| + |data| <= c.Carry()
    ensures Tracks(c, t, q, s.(cache := s.cache + data))
  {
    hide Join, Split, Splitter.NalType;
    PartsJoin(t, q, s.cache, data);
  }

  /** One call, whatever its length, once nothing behind the committed bytes cuts. */
  lemma FrameShort(c: Splitter, t: seq<Byte>, q: nat, s: State, data: seq<Byte>)
    requires Tracks(c, t, q, s) && s.pes.Some? && Part(t, q + |s.cache|, data) && data != []
    requires Disjoint(c, t) && Done(c, t, q) && WindowFits(c, s, data)
    ensures var r := Frame(c, s, data);
            && |r.state.cache| <= |s.cache| + r.taken
            && Tracks(c, t, q + |s.cache| + r.taken - |r.state.cache|, r.state)
            && Done(c, t, q + |s.cache| + r.taken - |r.state.cache|)
  {
    hide Split, View, Sound, Reads, WindowHit, FlushCache, Body, Disjoint, Splitter.NalType;
    if |s.cache| + |data| <= c.Carry() {
      ShortCached(c, t, q, s, data);
    } else if s.cache == [] {
      BodyShort(c, t, q, s, data);
    } else {
      var w := Window(c, s.cache, data);
      var i := FindCode(c, w, 0);
      WindowIs(c, t, q, s, data);
      if i < |w| - c.Carry() {
        HitShort(c, t, q, s, w, i);
      } else {
        CodeShift(c, t, q, w, 0);
        FlushShort(c, t, q, s);
        BodyShort(c, t, q + |s.cache|, FlushCache(c, s), data);
      }
    }
  }

  /** `n` bytes were taken, and nothing cuts behind those committed. */
  ghost predicate Settled(c: Splitter, t: seq<Byte>, n: nat, s: State) {
    Follows(c, t, n, s) && s.pes.Some? && Done(c, t, n - |s.cache|) && Full(s)
  }

  lemma {:induction false} ChunkShort(c: Splitter, t: seq<Byte>, n: nat, s: State, data: seq<Byte>)
    requires Settled(c, t, n, s) && WellFormed(c, s) && s.pes.Some? && Part(t, n, data)
    requires Disjoint(c, t) && Roomy(c, t)
    ensures ChunkFits(c, s, data) && Settled(c, t, n + |data|, Packetized(c, s, data))
    decreases |data|
  {
    hide Tracks, Part, Done, Frame, Roomy, Disjoint, WindowFits, Full;
    if data != [] {
      FollowsFits(c, t, n, s, data);
      FrameShort(c, t, n - |s.cache|, s, data);
      var o := Frame(c, s, data);
      PartTail(t, n, data, o.taken);
      FollowsForms(c, t, n + o.taken - |o.state.cache|, o.state);
      ChunkShort(c, t, n + o.taken, o.state, data[o.taken..]);
    }
  }

  lemma FollowsForms(c: Splitter, t: seq<Byte>, q: nat, s: State)
    requires Tracks(c, t, q, s)
    ensures WellFormed(c, s)
  {}

  lemma {:induction false} RunShort(c: Splitter, t: seq<Byte>, n: nat, s: State, chunks: seq<seq<Byte>>)
    requires Settled(c, t, n, s) && WellFormed(c, s) && s.pes.Some? && Part(t, n, Flatten(chunks))
    requires Disjoint(c, t) && Roomy(c, t) && RunSafe(c, s, chunks)
    ensures RunFits(c, s, chunks) && Settled(c, t, n + |Flatten(chunks)|, Run(c, s, chunks))
    decreases |chunks|
  {
    hide Settled, Part, Roomy, Disjoint, ChunkFits, Packetized;
    if chunks != [] {
      FirstChunk(t, n, chunks);
      ChunkShort(c, t, n, s, chunks[0]);
      SettledHas(c, t, n + |chunks[0]|, Packetized(c, s, chunks[0]));
      RunShort(c, t, n + |chunks[0]|, Packetized(c, s, chunks[0]), chunks[1..]);
    }
  }

  lemma SettledHas(c: Splitter, t: seq<Byte>, n: nat, s: State)
    requires Settled(c, t, n, s)
    ensures s.pes.Some? && Follows(c, t, n, s) && Full(s)
  {}

  // ----- the first chunk -----

  /** Whatever the scan of a long first chunk stops at, nothing cuts behind it. */
  lemma FirstSettles(c: Splitter, t: seq<Byte>, d: seq<Byte>, k: nat, h: seq<Byte>)
    requires Part(t, 0, d) && |d| > c.Carry() && CutsAtOnce(c, t)
    requires (k, h) == Scan(c, d, 0, c.NoHeader())
    ensures Done(c, t, if k + c.Carry() == |d| then k else k + c.Carry() + 1)
    ensures k + c.Carry() == |d| ==> k > 0
  {
    var q := if k + c.Carry() == |d| then k else k + c.Carry() + 1;
    CodeShift(c, t, 0, d, 0);
    assert forall j: nat :: q < j && CutsAfter(c, t, j) ==> !AtOnce(c, t, j);
  }

  lemma FirstShort(c: Splitter, t: seq<Byte>, d: seq<Byte>)
    requires Part(t, 0, d) && |d| > c.Carry() && CutsAtOnce(c, t) && Disjoint(c, t)
    ensures !NullWrite(c, Initial(c), d) && WindowFits(c, Initial(c), d)
    ensures var o := Frame(c, Initial(c), d); Settled(c, t, o.taken, o.state)
  {
    hide Split, Sound, View, Disjoint, CutsAtOnce, Splitter.NalType, Fill, Push, Scan, Done, Full;
    var (k, h) := Scan(c, d, 0, c.NoHeader());
    InitialFollows(c, t);
    InitialFull(c, d);
    FirstSettles(c, t, d, k, h);
    BodyTracks(c, t, 0, Initial(c), d);
  }

  lemma InitialFull(c: Splitter, d: seq<Byte>)
    requires |d| > c.Carry()
    ensures !NullWrite(c, Initial(c), d) && WindowFits(c, Initial(c), d) && Full(Frame(c, Initial(c), d).state)
  {
    hide Frame;
    FrameFull(c, Initial(c), d);
  }

  /** One long chunk to begin with and then any. */
  ghost predicate BeginsLong(c: Splitter, chunks: seq<seq<Byte>>) {
    chunks != [] ==> |chunks[0]| > c.Carry()
  }

  lemma LongPrompt(c: Splitter, chunks: seq<seq<Byte>>)
    requires BeginsLong(c, chunks)
    ensures Prompt(c, Initial(c), chunks) && RunSafe(c, Initial(c), chunks)
  {
    PromptSafe(c, Initial(c), chunks);
  }

  lemma FirstChunkShort(c: Splitter, t: seq<Byte>, d: seq<Byte>)
    requires Part(t, 0, d) && |d| > c.Carry() && CutsAtOnce(c, t) && Disjoint(c, t) && Roomy(c, t)
    ensures !NullWrite(c, Initial(c), d) && ChunkFits(c, Initial(c), d)
    ensures Settled(c, t, |d|, Packetized(c, Initial(c), d))
  {
    hide Settled, Part, CutsAtOnce, Disjoint, Roomy, Frame, WindowFits, Packetized, ChunkFits, NullWrite, Follows;
    FirstShort(c, t, d);
    var o := Frame(c, Initial(c), d);
    PartTail(t, 0, d, o.taken);
    SettledHas(c, t, o.taken, o.state);
    CallByCall(c, Initial(c), d, o);
    ChunkShort(c, t, o.taken, o.state, d[o.taken..]);
  }

  lemma CallByCall(c: Splitter, s: State, data: seq<Byte>, o: Outcome)
    requires WellFormed(c, s) && data != [] && !NullWrite(c, s, data) && o == Frame(c, s, data)
    ensures var rest := data[o.taken..];
            && (rest == [] || !NullWrite(c, o.state, rest))
            && Packetized(c, s, data) == Packetized(c, o.state, rest)
            && (ChunkFits(c, s, data) <==> WindowFits(c, s, data) && ChunkFits(c, o.state, rest))
  {
    hide Frame, WindowFits;
  }

  /** Then every run finds the units of its stream. */
  lemma ShortFinds(c: Splitter, chunks: seq<seq<Byte>>)
    requires BeginsLong(c, chunks) && CutsAtOnce(c, Flatten(chunks)) && Disjoint(c, Flatten(chunks))
    requires Roomy(c, Flatten(chunks))
    ensures Finds(c, Flatten(chunks), chunks)
  {
    hide Settled, Part, CutsAtOnce, Disjoint, Roomy, Packetized, ChunkFits, Finished, Join, Units, Bracketed, Follows;
    LongPrompt(c, chunks);
    if chunks == [] {
      NoChunks(c);
    } else {
      var t := Flatten(chunks);
      WholePart(t);
      FirstChunk(t, 0, chunks);
      FirstChunkShort(c, t, chunks[0]);
      var s := Packetized(c, Initial(c), chunks[0]);
      SettledHas(c, t, |chunks[0]|, s);
      RunShort(c, t, |chunks[0]|, s, chunks[1..]);
      var r := Run(c, Initial(c), chunks);
      SettledHas(c, t, |t|, r);
      FinishFitsRoom(c, t, r);
      FinishFinds(c, t, r);
    }
  }

  // ----- the chunking that hides a start code -----

  lemma NoneMissed(c: Splitter, t: seq<Byte>, p: nat)
    requires Apart(c, t)
    ensures NoneBefore(c, t, p)
  {}

  /** The start codes before one that cuts end, with their headers, before the byte before it. */
  lemma HiddenLeaves(c: Splitter, t: seq<Byte>, p: nat)
    requires Disjoint(c, t) && Apart(c, t) && CutsAfter(c, t, p) && p >= 2
    requires !(p == c.Carry() + 1 && CodeAt(c, t, 0))
    ensures Leaves(c, t[..p - 1 + c.Carry()], c.Carry())
  {
    var d := t[..p - 1 + c.Carry()];
    forall k: nat | CodeAt(c, d, k) ensures k + 2 * c.Carry() < |d| {
      CodesBefore(c, t, p - 1, k);
      if k + c.Carry() + 1 == p { SplitQuiet(c, t, k + 1, p); }
    }
  }

  /** A start code at the beginning that does not cut is passed over. */
  lemma UncutFirst(c: Splitter, d: seq<Byte>)
    requires |d| == 2 * c.Carry() && CodeAt(c, d, 0) && !c.Cuts(c.NoHeader(), HeaderAt(c, d, 0))
    requires forall j: nat :: 0 < j < |d| ==> !CodeAt(c, d, j)
    ensures !NullWrite(c, Initial(c), d) && ChunkFits(c, Initial(c), d)
    ensures Packetized(c, Initial(c), d).cache == d[|d| - c.Carry()..]
  {
    hide Splitter.NalType, Fill, Push;
    var s := Initial(c);
    ScanQuiet(c, d, 1, HeaderAt(c, d, 0));
    var o := Frame(c, s, d);
    assert o.taken == |d| && o.state.cache == d[|d| - c.Carry()..];
    assert d[o.taken..] == [];
    CallByCall(c, s, d, o);
    assert Packetized(c, o.state, []) == o.state && ChunkFits(c, o.state, []);
  }

  lemma UncutCodes(c: Splitter, t: seq<Byte>, p: nat)
    requires Disjoint(c, t) && CodeAt(c, t, p) && p == c.Carry() + 1 && CodeAt(c, t, 0)
    ensures var d := t[..p - 1 + c.Carry()];
            && |d| == 2 * c.Carry() && CodeAt(c, d, 0) && HeaderAt(c, d, 0) == HeaderAt(c, t, 0)
            && forall j: nat :: 0 < j < |d| ==> !CodeAt(c, d, j)
  {
    var d := t[..p - 1 + c.Carry()];
    CodesBefore(c, t, p - 1, 0);
    forall j: nat | 0 < j < |d| ensures !CodeAt(c, d, j) {
      CodesBefore(c, t, p - 1, j);
    }
  }

  /** The first chunk ends so that the cache begins one byte before `p`. */
  lemma HiddenFirst(c: Splitter, t: seq<Byte>, p: nat)
    requires Disjoint(c, t) && Apart(c, t) && CutsAfter(c, t, p) && !AtOnce(c, t, p)
    ensures p + c.Carry() < |t|
    ensures var d := t[..p - 1 + c.Carry()];
            && !NullWrite(c, Initial(c), d)
            && var s := Packetized(c, Initial(c), d);
            s.pes.Some? && Tracks(c, d, p - 1, s) && s.cache == d[p - 1..]
  {
    hide Disjoint, Apart, NoneBefore, Leaves, ChunkFits, Packetized, Split, Tracks, Splitter.NalType;
    NoneMissed(c, t, p - 1);
    if p == c.Carry() + 1 && CodeAt(c, t, 0) {
      UncutCodes(c, t, p);
      UncutFirst(c, t[..p - 1 + c.Carry()]);
      FirstTracks(c, t, p - 1);
    } else {
      HiddenLeaves(c, t, p);
      FirstPart(c, t, p - 1);
    }
  }

  /** One byte more: the window sees the byte before `p` and no further, and the cache goes
      to the packet with the start code in it. */
  lemma HiddenByte(c: Splitter, d: seq<Byte>, s: State, p: nat, b: seq<Byte>)
    requires 0 < p <= |d| && Tracks(c, d, p - 1, s) && s.pes.Some? && s.cache == d[p - 1..]
    requires |s.cache| == c.Carry() && |b| == 1 && !CodeAt(c, s.cache + b, 0)
    ensures WellFormed(c, s)
    ensures var r := Packetized(c, s, b);
            r.pes.Some? && Sound(r) && Spans(View(r), p)
  {
    hide Join, Bracketed, Split, Splitter.NalType, Part;
    var w := Window(c, s.cache, b);
    Whole(b);
    assert FindCode(c, w, 0) == FindCode(c, w, 1) == 1;
    hide Fill;
    FlushAdds(c, s);
    var f := FlushCache(c, s);
    var o := Frame(c, s, b);
    assert o == Outcome(f.(cache := b), 1);
    assert b[1..] == [];
    assert Packetized(c, o.state, []) == o.state;
    assert View(o.state) == View(f);
    SplitConserves(c, d, p - 1);
    SomethingOpen(s);
  }

  lemma ThreeChunks(c: Splitter, s: State, a: seq<Byte>, b: seq<Byte>, e: seq<Byte>)
    requires WellFormed(c, s) && (a == [] || !NullWrite(c, s, a))
    requires Packetized(c, s, a).pes.Some? && Packetized(c, Packetized(c, s, a), b).pes.Some?
    ensures Flatten([a, b, e]) == a + b + e && RunSafe(c, s, [a, b, e])
    ensures var v := Packetized(c, Packetized(c, s, a), b);
            && Run(c, s, [a, b, e]) == Packetized(c, v, e)
            && (RunFits(c, s, [a, b, e]) ==> ChunkFits(c, v, e))
  {
    var u := Packetized(c, s, a);
    var v := Packetized(c, u, b);
    var rest: seq<seq<Byte>> := [b, e];
    assert [a, b, e][1..] == rest;
    TwoChunks(c, u, b, e, v, Packetized(c, v, e));
    Assoc(a, b, e);
    hide Packetized, NullWrite, ChunkFits;
  }

  /** What is pushed goes on from a unit open across `p`. */
  lemma HiddenGoes(c: Splitter, s: State, e: seq<Byte>, p: nat)
    requires WellFormed(c, s) && Sound(s) && s.pes.Some? && Spans(View(s), p)
    requires ChunkFits(c, s, e) && FinishFits(Packetized(c, s, e))
    ensures exists v :: Spans(v, p) && Goes(v, Join(Finished(c, Packetized(c, s, e)).pushed).0)
  {
    hide View, Sound, Packetized, ChunkFits, Join, Finished, Spans;
    var z := Packetized(c, s, e);
    ChunkExtends(c, s, e);
    FinishGoes(c, z);
    ExtendsTwice(View(s), View(z), (Join(Finished(c, z).pushed).0, []));
    assert Goes(View(s), Join(Finished(c, z).pushed).0);
  }

  /** A cut no window is sure to see at once: these three chunks do not find it. */
  lemma HiddenRun(c: Splitter, t: seq<Byte>, p: nat, d: seq<Byte>, b: seq<Byte>, e: seq<Byte>)
    requires Disjoint(c, t) && Apart(c, t) && CutsAfter(c, t, p) && !AtOnce(c, t, p)
    requires p + c.Carry() < |t|
    requires d == t[..p - 1 + c.Carry()] && b == t[p - 1 + c.Carry()..p + c.Carry()] && e == t[p + c.Carry()..]
    ensures BeginsLong(c, [d, b, e]) && Flatten([d, b, e]) == t && !Finds(c, t, [d, b, e])
  {
    hide Apart, Splitter.NalType, Tracks, Packetized, Run, RunSafe, RunFits, ChunkFits, Finished, Units, Join, Split;
    hide Bracketed, View, Sound, Spans;
    assert t == d + b + e;
    HiddenFirst(c, t, p);
    var s := Packetized(c, Initial(c), d);
    NoCodeBefore(c, t, p, d, b);
    HiddenByte(c, d, s, p, b);
    ThreeChunks(c, Initial(c), d, b, e);
    LongPrompt(c, [d, b, e]);
    if Finds(c, t, [d, b, e]) {
      FindsFits(c, [d, b, e]);
      HiddenGoes(c, Packetized(c, s, b), e, p);
      var n := CutsAt(c, t, p);
      var v :| Spans(v, p) && Goes(v, Join(Pushed(c, [d, b, e])).0);
      NoBoundary(v, Units(c, t), n);
    }
  }

  lemma NoCodeBefore(c: Splitter, t: seq<Byte>, p: nat, d: seq<Byte>, b: seq<Byte>)
    requires Disjoint(c, t) && CodeAt(c, t, p) && 2 <= p
    requires d == t[..p - 1 + c.Carry()] && b == t[p - 1 + c.Carry()..p + c.Carry()]
    ensures |d[p - 1..]| == c.Carry() && |b| == 1 && !CodeAt(c, d[p - 1..] + b, 0)
  {
    var w := d[p - 1..] + b;
    assert w == t[p - 1..p + c.Carry()];
    assert Part(t, p - 1, w);
    CodeShift(c, t, p - 1, w, 0);
  }

  /** Every run that begins with a long chunk finds the units. */
  ghost predicate AnyFinds(c: Splitter, t: seq<Byte>) {
    forall chunks: seq<seq<Byte>> :: BeginsLong(c, chunks) && Flatten(chunks) == t ==> Finds(c, t, chunks)
  }

  /** For streams whose start codes do not overlap the headers before them: whatever the
      lengths of the chunks behind a first one longer than the cache, every chunking finds
      the access units if and only if all start codes that cut are seen at once and nothing
      lacks room. */
  lemma LengthsExactly(c: Splitter, t: seq<Byte>)
    requires Disjoint(c, t)
    ensures AnyFinds(c, t) <==> CutsAtOnce(c, t) && Roomy(c, t)
  {
    hide Units, Run, RunSafe, Roomy, Join, Splitter.NalType, Finished, Apart, CutsAfter, AtOnce, Finds, CutsAtOnce;
    if CutsAtOnce(c, t) && Roomy(c, t) {
      forall chunks: seq<seq<Byte>> | BeginsLong(c, chunks) && Flatten(chunks) == t ensures Finds(c, t, chunks) {
        ShortFinds(c, chunks);
      }
    } else if Apart(c, t) && Roomy(c, t) {
      NotAtOnce(c, t);
    } else {
      StreamExactly(c, t);
      LongBegins(c, t);
    }
  }

  lemma NotAtOnce(c: Splitter, t: seq<Byte>)
    requires Disjoint(c, t) && Apart(c, t) && !CutsAtOnce(c, t)
    ensures !AnyFinds(c, t)
  {
    hide Disjoint, Apart, CutsAfter, AtOnce, Finds;
    var p: nat :| CutsAfter(c, t, p) && !AtOnce(c, t, p);
    HiddenFirst(c, t, p);
    HiddenRun(c, t, p, t[..p - 1 + c.Carry()], t[p - 1 + c.Carry()..p + c.Carry()], t[p + c.Carry()..]);
  }

  lemma LongBegins(c: Splitter, t: seq<Byte>)
    requires !AlwaysFinds(c, t)
    ensures !AnyFinds(c, t)
  {
    hide Finds;
    var chunks: seq<seq<Byte>> :| LongEnough(c, chunks) && Flatten(chunks) == t && !Finds(c, t, chunks);
    assert BeginsLong(c, chunks);
  }
}
