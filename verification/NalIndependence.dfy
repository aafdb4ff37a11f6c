/** The NAL units the RTP fragments carry are those of the whole stream, however
    the stream was cut into chunks. */
module NalIndependence {
  import opened Bytes
  import opened AccessUnits
  import opened StreamParts
  import opened FragmentationUnits
  import opened FragmentationProofs
  import opened FragmentationRuns

  ghost predicate Tracks(m: nat, t: seq<Byte>, q: nat, s: State) {
    && Sound(m, s) && s.pending.Some? && q > 0
    && Part(t, q, s.cache)
    && Split(NALS, t, q).units == View(s).0
    && Split(NALS, t, q).open == View(s).1
  }

  /** `n` bytes were taken; those not in the cache are tracked. */
  ghost predicate Follows(m: nat, t: seq<Byte>, n: nat, s: State) {
    n >= |s.cache| && Tracks(m, t, n - |s.cache|, s)
  }

  /** The splitter at the first start code of a part, with the five bytes and up to
      three more. */
  lemma CutSplit(t: seq<Byte>, q: nat, d: seq<Byte>, k: nat, n: nat)
    requires q > 0 && Part(t, q, d) && Apart(NALS, t)
    requires CodeAt(NALS, d, k) && forall j: nat :: j < k ==> !CodeAt(NALS, d, j)
    requires k + 5 <= n <= |d| && n <= k + 8
    ensures var r, r' := Split(NALS, t, q), Split(NALS, t, q + n);
            r'.units == r.units + [r.open + d[..k]] && r'.open == d[k..n]
  {
    hide Split, Part, Splitter.NalType, Calm, Apart;
    var w := d[..n];
    FrontOf(t, q, d, k, n);
    OpenNonEmpty(NALS, t, q);
    CodeShift(NALS, t, q, w, k);
    ApartCalm(NALS, t, q + k, q + n);
    HitPart(NALS, t, q, w, k);
  }

  lemma FrontOf(t: seq<Byte>, q: nat, d: seq<Byte>, k: nat, n: nat)
    requires Part(t, q, d) && CodeAt(NALS, d, k) && k + 5 <= n <= |d|
    requires forall j: nat :: j < k ==> !CodeAt(NALS, d, j)
    ensures var w := d[..n];
            && Part(t, q, w) && CodeAt(NALS, w, k) && w[..k] == d[..k] && w[k..] == d[k..n]
            && forall j: nat :: j < k ==> !CodeAt(NALS, w, j)
  {
    PartSlice(t, q, d, 0, n);
    var w := d[..n];
    assert d[0..n] == w;
    forall j: nat | j < k ensures CodeAt(NALS, w, j) == CodeAt(NALS, d, j) {
      assert w[j] == d[j] && w[j + 1] == d[j + 1] && w[j + 2] == d[j + 2] && w[j + 3] == d[j + 3];
    }
  }

  /** A NAL unit ends before `d[k..]`; the start code, the header and `e` begin the
      next one. */
  lemma CutTracks(m: nat, t: seq<Byte>, q: nat, s: State, d: seq<Byte>, k: nat, e: seq<Byte>, r: State)
    requires Tracks(m, t, q, s) && Part(t, q, d) && Apart(NALS, t)
    requires CodeAt(NALS, d, k) && forall j: nat :: j < k ==> !CodeAt(NALS, d, j)
    requires |e| <= 3 && k + 5 + |e| <= |d| && e == d[k + 5..k + 5 + |e|]
    requires r == NextNal(m, Fill(m, s, d[..k]), d[k + 4], e)
    ensures Tracks(m, t, q + k + 5 + |e|, r)
  {
    hide Split, Apart, View, Fragmented;
    CutKeeps(m, s, d, k, e, r);
    CutSplit(t, q, d, k, k + 5 + |e|);
  }

  /** Bytes without a start code join the open NAL unit. */
  lemma FillTracks(m: nat, t: seq<Byte>, q: nat, s: State, d: seq<Byte>, k: nat, cache: seq<Byte>)
    requires Tracks(m, t, q, s) && Part(t, q, d) && k + 4 <= |d|
    requires forall j: nat :: j < k ==> !CodeAt(NALS, d, j)
    requires cache == [] || (cache == d[k..] && |d| - k <= 4)
    ensures Tracks(m, t, q + k, Fill(m, s, d[..k]).(cache := cache))
  {
    var r := Fill(m, s, d[..k]);
    FillKeeps(m, s, d[..k], r);
    QuietPart(NALS, t, q, d, k);
    PartSlice(t, q, d, k, |d|);
    assert d[k..|d|] == d[k..];
    hide Nals, Split, Fragmented;
    assert View(r.(cache := cache)) == View(r);
  }

  /** Too few bytes to look at. */
  lemma CachedFollows(m: nat, t: seq<Byte>, n: nat, s: State, data: seq<Byte>, r: State)
    requires Tracks(m, t, n, s) && s.cache == [] && Part(t, n, data) && |data| <= 4
    requires r == s.(cache := data)
    ensures Follows(m, t, n + |data|, r)
  {
    hide Nals, Split, Part;
  }

  lemma BodyFollows(m: nat, t: seq<Byte>, n: nat, s: State, data: seq<Byte>, o: Outcome)
    requires Tracks(m, t, n, s) && s.cache == [] && Part(t, n, data) && data != [] && Apart(NALS, t)
    requires o == Body(m, s, data)
    ensures Follows(m, t, n + o.taken, o.state)
  {
    hide Fill, NextNal, View, Split, Fragmented, Apart, Part;
    if |data| <= 4 {
      CachedFollows(m, t, n, s, data, o.state);
    } else {
      var k := FindCode(NALS, data, 0);
      if k == |data| - 4 {
        FillTracks(m, t, n, s, data, k, data[k..]);
      } else {
        CutTracks(m, t, n, s, data, k, [], o.state);
      }
    }
  }

  /** A chunk that meets a cache, with a start code in the window. */
  lemma HitFollows(m: nat, t: seq<Byte>, q: nat, s: State, w: seq<Byte>, i: nat)
    requires Tracks(m, t, q, s) && WellFormed(m, s) && s.pending.Some?
    requires Part(t, q, w) && Apart(NALS, t) && |w| <= 8
    requires CodeAt(NALS, w, i) && forall j: nat :: j < i ==> !CodeAt(NALS, w, j)
    requires i + 5 + 3 >= |w|
    ensures Follows(m, t, q + |w|, WindowHit(m, s, w, i))
  {
    hide Fill, NextNal, View, Split, Fragmented, Apart, Part;
    HitIs(m, s, w, i);
    assert w[i + 5..] == w[i + 5..|w|];
    CutTracks(m, t, q, s, w, i, w[i + 5..], WindowHit(m, s, w, i));
  }

  /** A chunk that meets a cache, with no start code in the window. */
  lemma QuietFollows(m: nat, t: seq<Byte>, q: nat, s: State, data: seq<Byte>, w: seq<Byte>, o: Outcome)
    requires Tracks(m, t, q, s) && WellFormed(m, s) && s.pending.Some? && s.cache != []
    requires Part(t, q + |s.cache|, data) && Apart(NALS, t)
    requires Part(t, q, w) && |w| == |s.cache| + 4 && w[..|s.cache|] == s.cache
    requires forall j: nat :: j < |s.cache| ==> !CodeAt(NALS, w, j)
    requires data != [] && o == Body(m, FlushCache(m, s), data)
    ensures Follows(m, t, q + |s.cache| + o.taken, o.state)
  {
    hide Body, Fill, View, Split, Fragmented, Apart, Part, CodeAt, Sound;
    FillTracks(m, t, q, s, w, |s.cache|, []);
    BodyFollows(m, t, q + |s.cache|, FlushCache(m, s), data, o);
  }

  lemma CacheFollows(m: nat, t: seq<Byte>, q: nat, s: State, data: seq<Byte>, o: Outcome)
    requires Tracks(m, t, q, s) && Part(t, q + |s.cache|, data) && s.cache != [] && Apart(NALS, t)
    requires |data| >= 4 && o == Format(m, s, data)
    ensures Follows(m, t, q + |s.cache| + o.taken, o.state)
  {
    hide Body, WindowHit, FlushCache, View, Split, Fragmented, Apart, CodeAt, Follows;
    var w := Window(NALS, s.cache, data);
    var i := FindCode(NALS, w, 0);
    PartsJoin(t, q, s.cache, data[..4]);
    assert w[..|s.cache|] == s.cache;
    hide Part;
    if i < |w| - 4 { HitFollows(m, t, q, s, w, i); } else { QuietFollows(m, t, q, s, data, w, o); }
  }

  lemma FormatFollows(m: nat, t: seq<Byte>, n: nat, s: State, data: seq<Byte>, o: Outcome)
    requires Follows(m, t, n, s) && Part(t, n, data) && data != [] && Apart(NALS, t)
    requires s.cache == [] || |data| >= 4
    requires o == Format(m, s, data)
    ensures Follows(m, t, n + o.taken, o.state)
  {
    hide Body, View, Split, Fragmented, Apart, Part;
    if s.cache != [] {
      CacheFollows(m, t, n - |s.cache|, s, data, o);
    } else if |data| > 4 {
      BodyFollows(m, t, n, s, data, o);
    } else {
      NilLeft(data);
      CachedFollows(m, t, n, s, data, o.state);
    }
  }

  lemma {:induction false} TransportFollows(m: nat, t: seq<Byte>, n: nat, s: State, data: seq<Byte>, r: State)
    requires Follows(m, t, n, s) && Part(t, n, data) && Apart(NALS, t)
    requires s.cache == [] || |data| >= 4
    requires WellFormed(m, s) && s.pending.Some? && r == Transport(m, s, data)
    ensures Follows(m, t, n + |data|, r)
    decreases |data|
  {
    hide Format, Split, View, Sound, Apart, Part;
    if data != [] {
      var o := Format(m, s, data);
      FormatFollows(m, t, n, s, data, o);
      PartTail(t, n, data, o.taken);
      if o.taken < |data| {
        TransportFollows(m, t, n + o.taken, o.state, data[o.taken..], r);
      } else {
        assert data[o.taken..] == [];
      }
    }
  }

  lemma {:induction false} RunFollows(m: nat, t: seq<Byte>, n: nat, s: State, chunks: seq<seq<Byte>>, r: State)
    requires Follows(m, t, n, s) && Part(t, n, Flatten(chunks)) && Apart(NALS, t)
    requires forall i :: 0 <= i < |chunks| ==> |chunks[i]| >= 4
    requires WellFormed(m, s) && s.pending.Some? && RunSafe(m, s, chunks) && r == Run(m, s, chunks)
    ensures Follows(m, t, n + |Flatten(chunks)|, r)
    decreases |chunks|
  {
    hide Transport, Split, View, Sound, Apart, Part;
    if chunks != [] {
      var d := chunks[0];
      FirstChunk(t, n, chunks);
      TransportFollows(m, t, n, s, d, Transport(m, s, d));
      RunFollows(m, t, n + |d|, Transport(m, s, d), chunks[1..], r);
    }
  }

  /** The first call, on a stream that begins with a start code. */
  lemma FirstFollows(m: nat, t: seq<Byte>, header: Byte, data: seq<Byte>, o: Outcome)
    requires m >= 5 && |data| > 4 && Part(t, 0, data) && CodeAt(NALS, t, 0) && Apart(NALS, t)
    requires o == Format(m, Initial(header), data)
    ensures o.taken == 5 && o.state.cache == [] && Follows(m, t, 5, o.state)
  {
    hide Split, Apart, Part, CodeAt, Splitter.NalType;
    FirstCode(t, data);
    NextNalBegins(m, Initial(header), data[4], []);
    NilRight(StartCode(data[4]));
  }

  lemma FirstCode(t: seq<Byte>, data: seq<Byte>)
    requires |data| > 4 && Part(t, 0, data) && CodeAt(NALS, t, 0) && Apart(NALS, t)
    ensures FindCode(NALS, data, 0) == 0 && data[..0] == [] && data[0..5] == StartCode(data[4])
    ensures |t| >= 5 && Split(NALS, t, 5).units == [] && Split(NALS, t, 5).open == data[0..5] && Part(t, 5, [])
  {
    hide Split, Apart;
    CodeShift(NALS, t, 0, data, 0);
    CodeIs(data, 0);
    PartSlice(t, 0, data, 0, 5);
    ApartCalm(NALS, t, 0, 5);
    SplitAtCode(NALS, t, 0, 5);
    NilLeft(t[0..5]);
    NoCutYet(t);
  }

  lemma NoCutYet(t: seq<Byte>)
    ensures Split(NALS, t, 0) == Cut([], [], NALS.NoHeader())
  {}

  /** A first chunk over the cache size and none under it. */
  ghost predicate LongEnough(chunks: seq<seq<Byte>>) {
    && chunks != [] && |chunks[0]| > 4
    && forall i :: 0 <= i < |chunks| ==> |chunks[i]| >= 4
  }

  /** The NAL units sent, and the open one with the pending fragment and the cache. */
  ghost function Carried(s: State): seq<seq<Byte>>
    requires Readable(s.sent)
  {
    View(s).0 + [View(s).1 + s.cache]
  }

  lemma CarriedAll(m: nat, t: seq<Byte>, s: State)
    requires Follows(m, t, |t|, s)
    ensures Carried(s) == Units(NALS, t)
  {
    var q := |t| - |s.cache|;
    assert t[q..|t|] == s.cache;
    OpenNonEmpty(NALS, t, |t|);
    hide Nals, Fragmented, Split;
    SplitQuiet(NALS, t, q, |t|);
  }

  /** For a stream that begins with a start code and has its start codes apart (eight
      bytes, and five behind the first), any chunking into pieces of four bytes or more
      carries exactly the NAL units of the stream. */
  lemma CarriesNals(m: nat, header: Byte, chunks: seq<seq<Byte>>)
    requires m >= 5 && LongEnough(chunks)
    requires CodeAt(NALS, Flatten(chunks), 0) && Apart(NALS, Flatten(chunks))
    ensures RunSafe(m, Initial(header), chunks)
    ensures var r := Run(m, Initial(header), chunks);
            Fragmented(m, r.sent) && Carried(r) == Units(NALS, Flatten(chunks))
  {
    var t, s, d := Flatten(chunks), Initial(header), chunks[0];
    WholePart(t);
    FirstChunk(t, 0, chunks);
    PromptSafe(m, s, chunks);
    var o := Format(m, s, d);
    FirstFollows(m, t, header, d, o);
    hide Format, Follows, Split, View, Apart, Part, Units;
    RestFollows(m, t, o, s, chunks, Run(m, s, chunks));
    CarriedAll(m, t, Run(m, s, chunks));
  }

  lemma RestFollows(m: nat, t: seq<Byte>, o: Outcome, s: State, chunks: seq<seq<Byte>>, r: State)
    requires t == Flatten(chunks) && Apart(NALS, t) && chunks != [] && |chunks[0]| > 4
    requires forall i :: 0 <= i < |chunks| ==> |chunks[i]| >= 4
    requires WellFormed(m, s) && RunSafe(m, s, chunks) && r == Run(m, s, chunks)
    requires o == Format(m, s, chunks[0]) && Follows(m, t, o.taken, o.state) && o.state.cache == []
    ensures Follows(m, t, |t|, r)
  {
    hide Format, Follows, Split, View, Apart, Part, CodeAt, NullWrite, LongEnough;
    var d := chunks[0];
    var e := d[o.taken..];
    WholePart(t);
    FirstChunk(t, 0, chunks);
    PartTail(t, 0, d, o.taken);
    var u := Transport(m, s, d);
    TransportFollows(m, t, o.taken, o.state, e, u);
    RunFollows(m, t, |d|, u, chunks[1..], r);
  }

  /** Two chunkings of the same stream carry the same NAL units. */
  lemma NalsIndependent(m: nat, header: Byte, a: seq<seq<Byte>>, b: seq<seq<Byte>>)
    requires m >= 5 && LongEnough(a) && LongEnough(b)
    requires Flatten(a) == Flatten(b) && CodeAt(NALS, Flatten(a), 0) && Apart(NALS, Flatten(a))
    ensures var s := Initial(header);
            && RunSafe(m, s, a) && RunSafe(m, s, b)
            && Fragmented(m, Run(m, s, a).sent) && Fragmented(m, Run(m, s, b).sent)
            && Carried(Run(m, s, a)) == Carried(Run(m, s, b))
  {
    CarriesNals(m, header, a);
    CarriesNals(m, header, b);
  }
}
