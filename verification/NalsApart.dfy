/** That the start codes of a stream are apart is not only enough for every chunking to
    carry its NAL units: if they are not, some chunking does not. */
module NalsApart {
  import opened Bytes
  import opened AccessUnits
  import opened StreamParts
  import opened Boundaries
  import opened FragmentationUnits
  import opened FragmentationProofs
  import opened FragmentationRuns
  import opened NalIndependence

  // ----- what a call does to the open NAL unit -----

  lemma BodyExtends(m: nat, s: State, data: seq<Byte>)
    requires Sound(m, s) && s.pending.Some? && s.cache == [] && data != []
    ensures var r := Body(m, s, data).state; Sound(m, r) && Extends(View(s), View(r))
  {
    hide Nals, Fill, NextNal, Fragmented, CodeAt;
    if |data| <= 4 {
      BodyKeeps(m, s, data);
    } else {
      var k := FindCode(NALS, data, 0);
      if k == |data| - 4 {
        FillKeeps(m, s, data[..k], Fill(m, s, data[..k]));
      } else {
        CutKeeps(m, s, data, k, [], NextNal(m, Fill(m, s, data[..k]), data[k + 4], []));
      }
    }
  }

  lemma HitExtends(m: nat, s: State, w: seq<Byte>, i: nat)
    requires Sound(m, s) && s.pending.Some? && CodeAt(NALS, w, i) && |w| <= 8 && |w| <= i + 8
    ensures var r := WindowHit(m, s, w, i); Sound(m, r) && Extends(View(s), View(r))
  {
    hide Nals, Fill, NextNal, Fragmented, WindowHit;
    HitIs(m, s, w, i);
    assert w[i + 5..] == w[i + 5..|w|];
    CutKeeps(m, s, w, i, w[i + 5..], WindowHit(m, s, w, i));
  }

  lemma FlushExtends(m: nat, s: State)
    requires Sound(m, s) && s.pending.Some?
    ensures var r := FlushCache(m, s); Sound(m, r) && Extends(View(s), View(r))
  {
    hide Nals, Fill, Fragmented;
    FillKeeps(m, s, s.cache, Fill(m, s, s.cache));
  }

  lemma FormatExtends(m: nat, s: State, data: seq<Byte>)
    requires Sound(m, s) && s.pending.Some? && data != []
    ensures var r := Format(m, s, data).state; Sound(m, r) && Extends(View(s), View(r))
  {
    hide Nals, Fill, FlushCache, Fragmented, Body, WindowHit;
    if |s.cache| + |data| <= 4 {
      FormatKeeps(m, s, data);
    } else if s.cache == [] {
      BodyExtends(m, s, data);
    } else {
      var w := Window(NALS, s.cache, data);
      var i := FindCode(NALS, w, 0);
      if i < |w| - 4 {
        HitExtends(m, s, w, i);
      } else {
        FlushExtends(m, s);
        BodyExtends(m, FlushCache(m, s), data);
        ExtendsTwice(View(s), View(FlushCache(m, s)), View(Body(m, FlushCache(m, s), data).state));
      }
    }
  }

  lemma {:induction false} TransportExtends(m: nat, s: State, data: seq<Byte>)
    requires Sound(m, s) && s.pending.Some?
    ensures var r := Transport(m, s, data); Sound(m, r) && Extends(View(s), View(r))
    decreases |data|
  {
    hide View, Fragmented, Format;
    if data != [] {
      var o := Format(m, s, data);
      FormatExtends(m, s, data);
      TransportExtends(m, o.state, data[o.taken..]);
      ExtendsTwice(View(s), View(o.state), View(Transport(m, s, data)));
    }
  }

  // ----- the chunking that misses a unit -----

  /** A call on a chunk longer than the cache, with an empty cache, takes a start code and
      its header or leaves the last bytes in the cache. */
  lemma CallCaches(m: nat, s: State, data: seq<Byte>, o: Outcome)
    requires WellFormed(m, s) && s.cache == [] && |data| > 4 && o == Format(m, s, data)
    ensures if o.taken == |data| && o.state.cache != [] then o.state.cache == data[|data| - 4..]
            else o.state.cache == [] && o.taken > 4 && CodeAt(NALS, data, o.taken - 5)
  {
    hide Fill, Push;
  }

  /** A chunk whose start codes leave a cache's length ends up with its end in the cache. */
  lemma {:induction false} ChunkCaches(m: nat, s: State, data: seq<Byte>)
    requires WellFormed(m, s) && s.cache == [] && |data| >= 4 && Leaves(NALS, data, 4)
    ensures !NullWrite(s, data) && Transport(m, s, data).cache == data[|data| - 4..]
    decreases |data|
  {
    hide CodeAt;
    if |data| == 4 {
      CachedChunk(m, s, data);
      NilLeft(data);
    } else {
      var o := Format(m, s, data);
      CallCaches(m, s, data, o);
      var rest := data[o.taken..];
      hide Format;
      if o.state.cache == [] {
        RestLeaves(NALS, data, o.taken, 4);
        ChunkCaches(m, o.state, rest);
        assert rest[|rest| - 4..] == data[|data| - 4..];
      } else {
        assert rest == [];
      }
    }
  }

  /** Every start code cuts, so up to the first miss they leave each other's headers. */
  lemma PrefixLeaves(t: seq<Byte>, p: nat)
    requires 0 < p && CodeAt(NALS, t, p) && NoneBefore(NALS, t, p)
    ensures Leaves(NALS, t[..p + 4], 4)
  {
    var d := t[..p + 4];
    forall k: nat | CodeAt(NALS, d, k) ensures k + 8 < |d| {
      CodesBefore(NALS, t, p, k);
      assert !Missed(NALS, t, k, p);
    }
  }

  /** The first chunk, up to the position `p` and a cache's length further. */
  lemma FirstPart(m: nat, header: Byte, t: seq<Byte>, p: nat)
    requires m >= 5 && 0 < p && p + 4 < |t| && CodeAt(NALS, t, 0) && NoneBefore(NALS, t, p)
    requires Leaves(NALS, t[..p + 4], 4)
    ensures var d := t[..p + 4];
            && !NullWrite(Initial(header), d)
            && var s := Transport(m, Initial(header), d);
            Tracks(m, d, p, s) && s.cache == d[p..]
  {
    hide Apart, NoneBefore, Tracks, Part, Leaves, Split, CodeAt, Transport, Format;
    var d := t[..p + 4];
    PrefixApart(NALS, t, p);
    CodesBefore(NALS, t, p, 0);
    ChunkCaches(m, Initial(header), d);
    WholeChunk(m, header, d);
  }

  /** One chunk of a stream that begins with a start code. */
  lemma WholeChunk(m: nat, header: Byte, d: seq<Byte>)
    requires m >= 5 && |d| > 4 && CodeAt(NALS, d, 0) && Apart(NALS, d) && !NullWrite(Initial(header), d)
    ensures Follows(m, d, |d|, Transport(m, Initial(header), d))
  {
    hide Apart, Tracks, Part, Split, CodeAt, Format;
    WholePart(d);
    var o := Format(m, Initial(header), d);
    FirstFollows(m, d, header, d, o);
    PartTail(d, 0, d, 5);
    FollowsHas(m, d, 5, o.state);
    TransportFollows(m, d, 5, o.state, d[5..], Transport(m, o.state, d[5..]));
  }

  lemma FollowsHas(m: nat, t: seq<Byte>, n: nat, s: State)
    requires Follows(m, t, n, s)
    ensures Sound(m, s) && s.pending.Some?
  {}

  /** The window that begins at `p` takes the start code at `r`. */
  lemma WindowMisses(m: nat, d: seq<Byte>, s: State, w: seq<Byte>, p: nat, r: nat)
    requires Tracks(m, d, p, s) && p <= |d| && CodeAt(NALS, w, 0) && |w| == 8
    requires WellFormed(m, s) && s.pending.Some? && p < r < p + 8
    ensures Sound(m, WindowHit(m, s, w, 0)) && Spans(View(WindowHit(m, s, w, 0)), r)
  {
    hide Nals, Fill, NextNal, Fragmented, WindowHit, Split, Part;
    HitIs(m, s, w, 0);
    assert w[5..] == w[5..|w|] && w[..0] == [] && w[0..8] == w;
    CutKeeps(m, s, w, 0, w[5..], WindowHit(m, s, w, 0));
    NilRight(View(s).1);
    SplitConserves(NALS, d, p);
    FlattenSnoc(View(s).0, View(s).1);
  }

  /** The units a run carries go on where an earlier state stopped. */
  lemma CarriedGoes(m: nat, v: (seq<seq<Byte>>, seq<Byte>), s: State)
    requires Sound(m, s) && Extends(v, View(s))
    ensures Goes(v, Carried(s))
  {
    hide View, Fragmented;
  }

  lemma SecondPart(m: nat, d: seq<Byte>, s: State, e: seq<Byte>, p: nat, r: nat)
    requires Tracks(m, d, p, s) && WellFormed(m, s) && s.pending.Some? && p <= |d|
    requires s.cache == d[p..] && |s.cache| == 4 && |e| >= 4
    requires CodeAt(NALS, d[p..] + e, 0) && p < r < p + 8
    ensures Sound(m, Transport(m, s, e))
    ensures exists v :: Spans(v, r) && Goes(v, Carried(Transport(m, s, e)))
  {
    var w := Window(NALS, s.cache, e);
    BeginsWindow(NALS, d[p..], e);
    hide Tracks, View, Fragmented, WindowHit, CodeAt, Spans;
    WindowMisses(m, d, s, w, p, r);
    var o := Format(m, s, e);
    assert o == Outcome(WindowHit(m, s, w, 0), 4);
    var rest := e[4..];
    hide Format;
    assert Transport(m, s, e) == Transport(m, o.state, rest);
    TransportExtends(m, o.state, rest);
    CarriedGoes(m, View(o.state), Transport(m, o.state, rest));
  }

  /** The run carries the NAL units of the stream. */
  ghost predicate Carries(m: nat, header: Byte, t: seq<Byte>, chunks: seq<seq<Byte>>)
    requires m >= 5
  {
    && RunSafe(m, Initial(header), chunks)
    && var r := Run(m, Initial(header), chunks);
    Fragmented(m, r.sent) && Carried(r) == Units(NALS, t)
  }

  /** The second start code, four bytes into the stream, is taken with the first. */
  lemma MissedAtOnce(m: nat, header: Byte, t: seq<Byte>)
    requires m >= 5 && CodeAt(NALS, t, 0) && CodeAt(NALS, t, 4)
    ensures LongEnough([t]) && Flatten([t]) == t && !Carries(m, header, t, [t])
  {
    var s := Initial(header);
    var r := Transport(m, s, t);
    OneChunk(m, s, t);
    FirstCall(m, header, t);
    var b := CutsAt(NALS, t, 4);
    hide Format, CodeAt, View, Fragmented, Units;
    var o := Format(m, s, t);
    TransportExtends(m, o.state, t[5..]);
    CarriedGoes(m, View(o.state), r);
    if Carries(m, header, t, [t]) { NoBoundary(View(o.state), Units(NALS, t), b); }
  }

  lemma FirstCall(m: nat, header: Byte, t: seq<Byte>)
    requires m >= 5 && CodeAt(NALS, t, 0)
    ensures !NullWrite(Initial(header), t)
    ensures var o := Format(m, Initial(header), t);
            o.taken == 5 && Sound(m, o.state) && o.state.pending.Some? && Spans(View(o.state), 4)
  {
    assert FindCode(NALS, t, 0) == 0 && t[..0] == [];
    hide Nals, Fragmented, Fill;
    FillNone(m, Initial(header));
    NextNalBegins(m, Initial(header), t[4], []);
    NilRight(StartCode(t[4]));
  }

  lemma OneChunk(m: nat, s: State, a: seq<Byte>)
    requires WellFormed(m, s) && (a == [] || !NullWrite(s, a))
    ensures RunSafe(m, s, [a]) && Run(m, s, [a]) == Transport(m, s, a) && Flatten([a]) == a
  {
    hide Transport, NullWrite;
    var chunks: seq<seq<Byte>> := [a];
    var r := Transport(m, s, a);
    assert chunks[1..] == [];
    assert RunSafe(m, r, chunks[1..]) && Run(m, r, chunks[1..]) == r;
    assert RunSafe(m, s, chunks) && Run(m, s, chunks) == r;
  }

  lemma TwoChunks(m: nat, s: State, a: seq<Byte>, b: seq<Byte>)
    requires WellFormed(m, s) && (a == [] || !NullWrite(s, a))
    requires b == [] || !NullWrite(Transport(m, s, a), b)
    ensures RunSafe(m, s, [a, b]) && Run(m, s, [a, b]) == Transport(m, Transport(m, s, a), b)
    ensures Flatten([a, b]) == a + b
  {
    hide Transport, NullWrite;
    var last: seq<seq<Byte>> := [b];
    assert [a, b][1..] == last;
    OneChunk(m, Transport(m, s, a), b);
  }

  lemma MissedRoom(t: seq<Byte>, p: nat, r: nat)
    requires Missed(NALS, t, p, r) && 0 < p
    ensures p + 8 < |t| && r < p + 8
  {}

  lemma MissedRun(m: nat, header: Byte, t: seq<Byte>, p: nat, r: nat, d: seq<Byte>, e: seq<Byte>)
    requires m >= 5 && 0 < p && CodeAt(NALS, t, 0) && Missed(NALS, t, p, r) && NoneBefore(NALS, t, p)
    requires p + 4 < |t| && d == t[..p + 4] && e == t[p + 4..]
    ensures LongEnough([d, e]) && Flatten([d, e]) == t && !Carries(m, header, t, [d, e])
  {
    hide NoneBefore, Tracks, Fragmented, Transport, Run, Units, Spans, View, CodeAt, Split, Goes, Carried, Leaves;
    MissedRoom(t, p, r);
    assert t == d + e;
    PrefixLeaves(t, p);
    FirstPart(m, header, t, p);
    var s := Transport(m, Initial(header), d);
    TracksHas(m, d, p, s);
    StillBegins(NALS, t, p);
    TwoChunks(m, Initial(header), d, e);
    SecondPart(m, d, s, e, p, r);
    if Carries(m, header, t, [d, e]) { NotCarried(m, t, r, Transport(m, s, e)); }
  }

  /** A unit is open across a start code. */
  lemma NotCarried(m: nat, t: seq<Byte>, r: nat, s: State)
    requires 0 < r && CodeAt(NALS, t, r) && Fragmented(m, s.sent)
    requires exists v :: Spans(v, r) && Goes(v, Carried(s))
    ensures Carried(s) != Units(NALS, t)
  {
    hide Units, Carried, Fragmented, Goes, Spans;
    var b := CutsAt(NALS, t, r);
    var v :| Spans(v, r) && Goes(v, Carried(s));
    if Carried(s) == Units(NALS, t) { NoBoundary(v, Units(NALS, t), b); }
  }

  lemma TracksHas(m: nat, t: seq<Byte>, q: nat, s: State)
    requires Tracks(m, t, q, s)
    ensures Sound(m, s) && s.pending.Some?
  {}

  /** Every chunking long enough carries the NAL units. */
  ghost predicate AlwaysCarries(m: nat, header: Byte, t: seq<Byte>)
    requires m >= 5
  {
    forall chunks: seq<seq<Byte>> :: LongEnough(chunks) && Flatten(chunks) == t ==> Carries(m, header, t, chunks)
  }

  /** For a stream that begins with a start code: every chunking into pieces long enough
      carries the NAL units if and only if the start codes are apart. */
  lemma ApartExactly(m: nat, header: Byte, t: seq<Byte>)
    requires m >= 5 && CodeAt(NALS, t, 0)
    ensures AlwaysCarries(m, header, t) <==> Apart(NALS, t)
  {
    hide Units, Run, RunSafe, Fragmented, CodeAt, Apart, View, Carries;
    if Apart(NALS, t) {
      forall chunks: seq<seq<Byte>> | LongEnough(chunks) && Flatten(chunks) == t ensures Carries(m, header, t, chunks) {
        AlwaysOne(m, header, chunks);
      }
    } else {
      var p, r := SomeMissed(NALS, t);
      p, r := FirstMissed(NALS, t, p, r);
      if p == 0 {
        MissedFour(t, r);
        MissedAtOnce(m, header, t);
        assert !AlwaysCarries(m, header, t);
      } else {
        MissedRoom(t, p, r);
        MissedRun(m, header, t, p, r, t[..p + 4], t[p + 4..]);
        assert !AlwaysCarries(m, header, t);
      }
    }
  }

  lemma AlwaysOne(m: nat, header: Byte, chunks: seq<seq<Byte>>)
    requires m >= 5 && LongEnough(chunks) && CodeAt(NALS, Flatten(chunks), 0) && Apart(NALS, Flatten(chunks))
    ensures Carries(m, header, Flatten(chunks), chunks)
  {
    CarriesNals(m, header, chunks);
  }

  lemma MissedFour(t: seq<Byte>, r: nat)
    requires Missed(NALS, t, 0, r)
    ensures r == 4
  {}

  // ----- where the chunk lengths matter -----

  const BEGIN: seq<Byte> := [0, 0, 0, 1, 9, 7, 0, 0, 0]
  const LAST: seq<Byte> := [1, 7]

  lemma BeginRuns(header: Byte)
    ensures !NullWrite(Initial(header), BEGIN)
    ensures Transport(100, Initial(header), BEGIN) == State(9, [7, 0, 0, 0], true, false, Some([]), [])
  {
    var s := Initial(header);
    assert CodeAt(NALS, BEGIN, 0) && FindCode(NALS, BEGIN, 0) == 0 && BEGIN[..0] == [];
    FillNone(100, s);
    var u := State(9, [], true, false, Some([]), []);
    assert Format(100, s, BEGIN) == Outcome(u, 5);
    assert BEGIN[5..] == [7, 0, 0, 0];
    CachedChunk(100, u, BEGIN[5..]);
    NilLeft(BEGIN[5..]);
  }

  lemma OneRuns(one: seq<Byte>)
    requires one == [1]
    ensures Transport(100, State(9, [7, 0, 0, 0], true, false, Some([]), []), one)
         == State(9, [1], true, false, Some([7, 0, 0, 0]), [])
  {
    var s := State(9, [7, 0, 0, 0], true, false, Some([]), []);
    var w := Window(NALS, s.cache, one);
    assert w == [7, 0, 0, 0, 1] && FindCode(NALS, w, 0) == FindCode(NALS, w, 1) == 1;
    assert [] + s.cache[..4] == s.cache;
    var r := State(9, [1], true, false, Some([7, 0, 0, 0]), []);
    assert Fill(100, s, s.cache) == s.(pending := Some(s.cache));
    assert Format(100, s, one) == Outcome(r, 1);
    assert one[1..] == [];
  }

  lemma ShortStream(t: seq<Byte>)
    requires t == [0, 0, 0, 1, 9, 7, 0, 0, 0, 1, 1, 7]
    ensures CodeAt(NALS, t, 0) && CodeAt(NALS, t, 6) && Apart(NALS, t)
  {
    forall p: nat | CodeAt(NALS, t, p) ensures p == 0 || p == 6 {
      assert p < 8 && t[p] == 0 && t[p + 3] == 1;
    }
  }

  lemma ShortRun(header: Byte, chunks: seq<seq<Byte>>)
    requires chunks == [BEGIN, [1], LAST]
    ensures RunSafe(100, Initial(header), chunks)
    ensures Run(100, Initial(header), chunks) == State(9, [1, 1, 7], true, false, Some([7, 0, 0, 0]), [])
  {
    var one: seq<Byte>, u := [1], State(9, [7, 0, 0, 0], true, false, Some([]), []);
    var v := State(9, [1], true, false, Some([7, 0, 0, 0]), []);
    assert chunks[1..] == [one, LAST];
    BeginRuns(header);
    OneRuns(one);
    CachedChunk(100, v, LAST);
    hide Transport;
    TwoChunks(100, u, one, LAST);
  }

  /** A chunk of one byte hides a start code that begins in the cache. */
  lemma ShortChunkMissesNal(header: Byte)
    ensures var chunks: seq<seq<Byte>> := [BEGIN, [1], LAST];
            && CodeAt(NALS, Flatten(chunks), 0) && Apart(NALS, Flatten(chunks))
            && RunSafe(100, Initial(header), chunks) && !Carries(100, header, Flatten(chunks), chunks)
  {
    var chunks: seq<seq<Byte>> := [BEGIN, [1], LAST];
    hide Run, RunSafe, Apart, CodeAt, Units, Fragmented, Carried, Flatten;
    ThreeFlat(BEGIN, [1], LAST);
    var t := Flatten(chunks);
    assert t == BEGIN + [1] + LAST;
    ShortStream(t);
    ShortRun(header, chunks);
    ShortOpen();
    NotCarried(100, t, 6, State(9, [1, 1, 7], true, false, Some([7, 0, 0, 0]), []));
  }

  lemma ShortOpen()
    ensures var r := State(9, [1, 1, 7], true, false, Some([7, 0, 0, 0]), []);
            Fragmented(100, r.sent) && exists v :: Spans(v, 6) && Goes(v, Carried(r))
  {
    var r := State(9, [1, 1, 7], true, false, Some([7, 0, 0, 0]), []);
    var v := View(r);
    assert PendingBytes(r) == [0, 0, 0, 1, 9, 7, 0, 0, 0];
    NilLeft(PendingBytes(r));
    assert Flatten(v.0) == [];
    assert Spans(v, 6);
    assert Goes(v, Carried(r));
  }

  lemma ThreeFlat(a: seq<Byte>, b: seq<Byte>, c: seq<Byte>)
    ensures Flatten([a, b, c]) == a + b + c
  {
    var all: seq<seq<Byte>> := [a, b, c];
    assert all[1..] == [b, c] && all[1..][1..] == [c];
    assert Flatten([c]) == c && Flatten([b, c]) == b + c;
    Assoc(a, b, c);
  }
}
