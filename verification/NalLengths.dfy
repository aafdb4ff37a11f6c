/** Which streams are carried right however short the chunks behind the first are: those
    whose start codes come before any window can miss them. */
module NalLengths {
  import opened Bytes
  import opened AccessUnits
  import opened StreamParts
  import opened Boundaries
  import opened FragmentationUnits
  import opened FragmentationProofs
  import opened FragmentationRuns
  import opened NalIndependence
  import opened NalsApart

  /** The only start codes are at the beginning and right behind the header there. */
  ghost predicate AtOnce(t: seq<Byte>) {
    forall p: nat :: CodeAt(NALS, t, p) ==> p == 0 || p == 5
  }

  ghost predicate NoMore(t: seq<Byte>, q: nat) {
    forall j: nat :: q < j ==> !CodeAt(NALS, t, j)
  }

  lemma OnceApart(t: seq<Byte>)
    requires AtOnce(t)
    ensures Apart(NALS, t) && NoMore(t, 5)
  {}

  // ----- where no start code begins any more -----

  /** The cache joins the open NAL unit: no start code begins in it. */
  lemma FlushShort(m: nat, t: seq<Byte>, q: nat, s: State)
    requires Tracks(m, t, q, s) && NoMore(t, q) && !CodeAt(NALS, t, q)
    ensures WellFormed(m, s) && s.pending.Some? && Tracks(m, t, q + |s.cache|, FlushCache(m, s))
  {
    hide Nals, Fill, Fragmented, Split, CodeAt, Part;
    FlushView(m, s);
    QuietCache(t, q, s.cache);
  }

  lemma QuietCache(t: seq<Byte>, q: nat, d: seq<Byte>)
    requires Part(t, q, d) && NoMore(t, q) && !CodeAt(NALS, t, q)
    ensures var a, b := Split(NALS, t, q), Split(NALS, t, q + |d|);
            b.units == a.units && b.open == a.open + d && Part(t, q + |d|, [])
  {
    hide CodeAt, Split;
    SplitQuiet(NALS, t, q, q + |d|);
  }

  lemma FlushView(m: nat, s: State)
    requires Sound(m, s) && s.pending.Some?
    ensures var r := FlushCache(m, s);
            Sound(m, r) && View(r).0 == View(s).0 && View(r).1 == View(s).1 + s.cache
  {
    hide Nals, Fragmented;
    FillKeeps(m, s, s.cache, Fill(m, s, s.cache));
    hide Fill;
  }

  lemma CacheBound(m: nat, s: State, data: seq<Byte>)
    requires WellFormed(m, s) && data != [] && !NullWrite(s, data)
    ensures var o := Format(m, s, data); |o.state.cache| <= |s.cache| + o.taken
  {
    hide Fill, Push;
  }

  lemma ShortCached(m: nat, t: seq<Byte>, n: nat, s: State, data: seq<Byte>)
    requires Follows(m, t, n, s) && Part(t, n, data) && |s.cache| + |data| <= 4
    ensures Follows(m, t, n + |data|, s.(cache := s.cache + data))
  {
    hide Nals, Fragmented, Split;
    PartsJoin(t, n - |s.cache|, s.cache, data);
  }

  lemma FormatShort(m: nat, t: seq<Byte>, n: nat, s: State, data: seq<Byte>)
    requires Follows(m, t, n, s) && WellFormed(m, s) && s.pending.Some? && Part(t, n, data) && data != []
    requires Apart(NALS, t) && NoMore(t, n - |s.cache|)
    ensures var o := Format(m, s, data);
            Follows(m, t, n + o.taken, o.state) && NoMore(t, n + o.taken - |o.state.cache|)
  {
    hide Body, WindowHit, FlushCache, View, Split, Fragmented, Apart, CodeAt;
    CacheBound(m, s, data);
    var q := n - |s.cache|;
    if |s.cache| + |data| <= 4 {
      ShortCached(m, t, n, s, data);
    } else if s.cache == [] {
      BodyFollows(m, t, n, s, data, Format(m, s, data));
    } else {
      var w := Window(NALS, s.cache, data);
      var i := FindCode(NALS, w, 0);
      PartsJoin(t, q, s.cache, data[..Min(|data|, 4)]);
      if i < |w| - 4 {
        HitFollows(m, t, q, s, w, i);
      } else {
        CodeShift(NALS, t, q, w, 0);
        FlushShort(m, t, q, s);
        BodyFollows(m, t, n, FlushCache(m, s), data, Format(m, s, data));
      }
    }
  }

  // ----- runs -----

  ghost predicate Settled(m: nat, t: seq<Byte>, n: nat, s: State) {
    Follows(m, t, n, s) && NoMore(t, n - |s.cache|)
  }

  lemma SettledHas(m: nat, t: seq<Byte>, n: nat, s: State)
    requires Settled(m, t, n, s)
    ensures Sound(m, s) && s.pending.Some? && Follows(m, t, n, s)
  {}

  lemma {:induction false} TransportShort(m: nat, t: seq<Byte>, n: nat, s: State, data: seq<Byte>)
    requires Settled(m, t, n, s) && WellFormed(m, s) && s.pending.Some? && Part(t, n, data) && Apart(NALS, t)
    ensures Settled(m, t, n + |data|, Transport(m, s, data))
    decreases |data|
  {
    hide Tracks, Format, NoMore, Apart, Part;
    if data != [] {
      var o := Format(m, s, data);
      FormatShort(m, t, n, s, data);
      PartTail(t, n, data, o.taken);
      TransportShort(m, t, n + o.taken, o.state, data[o.taken..]);
    }
  }

  lemma {:induction false} RunShort(m: nat, t: seq<Byte>, n: nat, s: State, chunks: seq<seq<Byte>>)
    requires Settled(m, t, n, s) && WellFormed(m, s) && s.pending.Some? && Part(t, n, Flatten(chunks))
    requires Apart(NALS, t) && RunSafe(m, s, chunks)
    ensures Settled(m, t, n + |Flatten(chunks)|, Run(m, s, chunks))
    decreases |chunks|
  {
    hide Settled, Apart, Part, Transport;
    if chunks != [] {
      FirstChunk(t, n, chunks);
      TransportShort(m, t, n, s, chunks[0]);
      SettledHas(m, t, n + |chunks[0]|, Transport(m, s, chunks[0]));
      RunShort(m, t, n + |chunks[0]|, Transport(m, s, chunks[0]), chunks[1..]);
    }
  }

  lemma FirstShort(m: nat, t: seq<Byte>, header: Byte, d: seq<Byte>)
    requires m >= 5 && |d| > 4 && Part(t, 0, d) && CodeAt(NALS, t, 0) && AtOnce(t)
    ensures !NullWrite(Initial(header), d) && Settled(m, t, |d|, Transport(m, Initial(header), d))
  {
    OnceApart(t);
    hide Tracks, Format, Apart, Part, CodeAt, AtOnce, NoMore;
    var o := Format(m, Initial(header), d);
    FirstFollows(m, t, header, d, o);
    PartTail(t, 0, d, 5);
    FollowsHas(m, t, 5, o.state);
    TransportShort(m, t, 5, o.state, d[5..]);
  }

  /** A first chunk over the cache size, and then any. */
  ghost predicate BeginsLong(chunks: seq<seq<Byte>>) {
    chunks != [] && |chunks[0]| > 4
  }

  /** Then every run carries the NAL units of its stream. */
  lemma ShortCarries(m: nat, header: Byte, chunks: seq<seq<Byte>>)
    requires m >= 5 && BeginsLong(chunks) && CodeAt(NALS, Flatten(chunks), 0) && AtOnce(Flatten(chunks))
    ensures Carries(m, header, Flatten(chunks), chunks)
  {
    hide Settled, Apart, Part, Transport, Units, CodeAt, Follows, Carried, AtOnce, Fragmented;
    var t := Flatten(chunks);
    OnceApart(t);
    WholePart(t);
    FirstChunk(t, 0, chunks);
    PromptSafe(m, Initial(header), chunks);
    FirstShort(m, t, header, chunks[0]);
    var s := Transport(m, Initial(header), chunks[0]);
    SettledHas(m, t, |chunks[0]|, s);
    RunShort(m, t, |chunks[0]|, s, chunks[1..]);
    SettledHas(m, t, |t|, Run(m, Initial(header), chunks));
    CarriedAll(m, t, Run(m, Initial(header), chunks));
  }

  // ----- the chunking that hides a start code -----

  lemma HiddenLeaves(t: seq<Byte>, p: nat)
    requires Apart(NALS, t) && CodeAt(NALS, t, 0) && CodeAt(NALS, t, p) && p != 0 && p != 5
    ensures p > 5 && NoneBefore(NALS, t, p - 1) && Leaves(NALS, t[..p + 3], 4)
  {
    var d := t[..p + 3];
    forall k: nat | CodeAt(NALS, d, k) ensures k + 8 < |d| {
      CodesBefore(NALS, t, p - 1, k);
    }
  }

  /** One byte more: the window sees the byte before `p` and no further. */
  lemma HiddenByte(m: nat, d: seq<Byte>, s: State, p: nat, b: seq<Byte>)
    requires 0 < p <= |d| && Tracks(m, d, p - 1, s) && WellFormed(m, s) && s.pending.Some? && s.cache == d[p - 1..]
    requires |s.cache| == 4 && |b| == 1 && !CodeAt(NALS, s.cache + b, 0)
    ensures var r := Transport(m, s, b); r.pending.Some? && Sound(m, r) && Spans(View(r), p)
  {
    hide Nals, Split, Fragmented, Part, Fill;
    var w := Window(NALS, s.cache, b);
    Whole(b);
    assert FindCode(NALS, w, 0) == FindCode(NALS, w, 1) == 1;
    var f := FlushCache(m, s);
    FillKeeps(m, s, s.cache, Fill(m, s, s.cache));
    var o := Format(m, s, b);
    assert o == Outcome(f.(cache := b), 1);
    assert b[1..] == [];
    assert Transport(m, o.state, []) == o.state;
    assert View(o.state) == View(Fill(m, s, s.cache));
    SplitConserves(NALS, d, p - 1);
    OpenNonEmpty(NALS, d, p - 1);
  }

  lemma ThreeChunks(m: nat, s: State, a: seq<Byte>, b: seq<Byte>, e: seq<Byte>)
    requires WellFormed(m, s) && (a == [] || !NullWrite(s, a)) && Transport(m, s, a).pending.Some?
    ensures Flatten([a, b, e]) == a + b + e && RunSafe(m, s, [a, b, e])
    ensures Run(m, s, [a, b, e]) == Transport(m, Transport(m, Transport(m, s, a), b), e)
  {
    var rest: seq<seq<Byte>> := [b, e];
    assert [a, b, e][1..] == rest;
    TwoChunks(m, Transport(m, s, a), b, e);
    Assoc(a, b, e);
    hide Transport, NullWrite;
  }

  lemma HiddenRun(m: nat, header: Byte, t: seq<Byte>, p: nat, d: seq<Byte>, b: seq<Byte>, e: seq<Byte>)
    requires m >= 5 && Apart(NALS, t) && CodeAt(NALS, t, 0) && CodeAt(NALS, t, p) && 5 < p && p + 4 < |t|
    requires d == t[..p + 3] && b == t[p + 3..p + 4] && e == t[p + 4..]
    ensures BeginsLong([d, b, e]) && Flatten([d, b, e]) == t && !Carries(m, header, t, [d, b, e])
  {
    hide Apart, Tracks, Transport, Run, RunSafe, Units, View, Spans, CodeAt, Split, Goes, Carried, Leaves, Fragmented;
    assert t == d + b + e;
    HiddenLeaves(t, p);
    FirstPart(m, header, t, p - 1);
    var s := Transport(m, Initial(header), d);
    TracksHas(m, d, p - 1, s);
    NotBefore(t, p, d, b);
    HiddenByte(m, d, s, p, b);
    ThreeChunks(m, Initial(header), d, b, e);
    var u := Transport(m, s, b);
    TransportExtends(m, u, e);
    CarriedGoes(m, View(u), Transport(m, u, e));
    if Carries(m, header, t, [d, b, e]) { NotCarried(m, t, p, Transport(m, u, e)); }
  }

  lemma NotBefore(t: seq<Byte>, p: nat, d: seq<Byte>, b: seq<Byte>)
    requires CodeAt(NALS, t, p) && 0 < p && d == t[..p + 3] && b == t[p + 3..p + 4]
    ensures |d[p - 1..]| == 4 && |b| == 1 && !CodeAt(NALS, d[p - 1..] + b, 0)
  {
    var w := d[p - 1..] + b;
    assert w[3] == t[p + 2] == 0;
  }

  /** Every run that begins with a long chunk carries the NAL units. */
  ghost predicate AnyCarries(m: nat, header: Byte, t: seq<Byte>)
    requires m >= 5
  {
    forall chunks: seq<seq<Byte>> :: BeginsLong(chunks) && Flatten(chunks) == t ==> Carries(m, header, t, chunks)
  }

  /** For a stream that begins with a start code: whatever the lengths of the chunks behind
      a first one longer than the cache, every chunking carries the NAL units if and only if
      no start code begins behind the fifth byte. */
  lemma LengthsExactly(m: nat, header: Byte, t: seq<Byte>)
    requires m >= 5 && CodeAt(NALS, t, 0)
    ensures AnyCarries(m, header, t) <==> AtOnce(t)
  {
    hide Units, Run, RunSafe, Fragmented, CodeAt, Apart, View, Carries;
    if AtOnce(t) {
      forall chunks: seq<seq<Byte>> | BeginsLong(chunks) && Flatten(chunks) == t ensures Carries(m, header, t, chunks) {
        ShortCarries(m, header, chunks);
      }
    } else if Apart(NALS, t) {
      var p: nat :| CodeAt(NALS, t, p) && p != 0 && p != 5;
      HiddenLeaves(t, p);
      CodeInside(t, p);
      HiddenRun(m, header, t, p, t[..p + 3], t[p + 3..p + 4], t[p + 4..]);
    } else {
      ApartExactly(m, header, t);
      LongBegins(m, header, t);
    }
  }

  lemma CodeInside(t: seq<Byte>, p: nat)
    requires CodeAt(NALS, t, p)
    ensures p + 4 < |t|
  {}

  lemma LongBegins(m: nat, header: Byte, t: seq<Byte>)
    requires m >= 5 && !AlwaysCarries(m, header, t)
    ensures !AnyCarries(m, header, t)
  {
    hide Carries;
    var chunks: seq<seq<Byte>> :| LongEnough(chunks) && Flatten(chunks) == t && !Carries(m, header, t, chunks);
    assert BeginsLong(chunks);
  }
}
