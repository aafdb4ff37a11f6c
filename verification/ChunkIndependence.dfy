/** The access units a packetizer finds are those of the whole stream, however
    the stream was cut into chunks. */
module ChunkIndependence {
  import opened Bytes
  import opened AccessUnits
  import opened Packetizing
  import opened PacketizingProofs
  import opened PacketizingRuns
  import opened StreamParts
  import opened PacketRoom

  /** The first `q` bytes of `t` are committed, cut as the whole stream is cut, and
      the cache holds the bytes after them. */
  ghost predicate Tracks(c: Splitter, t: seq<Byte>, q: nat, s: State) {
    && WellFormed(c, s) && Sound(s)
    && Part(t, q, s.cache)
    && Reads(c, Split(c, t, q), View(s).0, View(s).1, s.header)
  }

  /** `data` is what comes next in `t`, and the cuts of `t` are apart. */
  ghost predicate Next(c: Splitter, t: seq<Byte>, q: nat, s: State, data: seq<Byte>) {
    Apart(c, t) && Part(t, q + |s.cache|, data)
  }

  /** One position that does not cut. */
  lemma SplitStep(c: Splitter, t: seq<Byte>, p: nat, header: seq<Byte>)
    requires p < |t| && |header| == c.HeaderLen() && Alike(c, Split(c, t, p).header, header)
    requires CodeAt(c, t, p) ==> !c.Cuts(header, HeaderAt(c, t, p))
    ensures var r := Split(c, t, p);
            Reads(c, Split(c, t, p + 1), r.units, r.open + [t[p]],
                  if CodeAt(c, t, p) then HeaderAt(c, t, p) else header)
  {}

  /** The scan loop passes what the whole-stream splitter passes. */
  lemma {:induction false} ScanTracks(c: Splitter, t: seq<Byte>, q: nat, data: seq<Byte>, k: nat, header: seq<Byte>,
                                      units: seq<seq<Byte>>, open: seq<Byte>)
    requires Part(t, q, data) && k + c.Carry() <= |data| && |header| == c.HeaderLen()
    requires Reads(c, Split(c, t, q + k), units, open, header)
    ensures var (k', h) := Scan(c, data, k, header);
            Reads(c, Split(c, t, q + k'), units, open + data[k..k'], h)
    decreases |data| - k
  {
    hide Split, Splitter.NalType;
    var (k', h) := Scan(c, data, k, header);
    if k' == k {
      NilRight(open);
      assert data[k..k] == [];
      assert h == header;
    } else {
      CodeShift(c, t, q, data, k);
      SplitStep(c, t, q + k, header);
      var h := if CodeAt(c, data, k) then HeaderAt(c, data, k) else header;
      ScanTracks(c, t, q, data, k + 1, h, units, open + [data[k]]);
      Snip(open, data, k, k');
    }
  }

  lemma Snip(a: seq<Byte>, d: seq<Byte>, k: nat, n: nat)
    requires k < n <= |d|
    ensures a + [d[k]] + d[k + 1..n] == a + d[k..n]
  {
    assert [d[k]] + d[k + 1..n] == d[k..n];
    Assoc(a, [d[k]], d[k + 1..n]);
  }

  /** The scan over a part of the stream, as far as it goes. */
  lemma SplitScanned(c: Splitter, t: seq<Byte>, q: nat, s: State, data: seq<Byte>, k: nat, h: seq<Byte>)
    requires Tracks(c, t, q, s) && Part(t, q, data) && c.Carry() <= |data|
    requires (k, h) == Scan(c, data, 0, s.header)
    ensures Reads(c, Split(c, t, q + k), View(s).0, View(s).1 + data[..k], h)
  {
    hide Split, Splitter.NalType, Scan, Sound, View;
    ScanTracks(c, t, q, data, 0, s.header, View(s).0, View(s).1);
    assert data[0..k] == data[..k];
  }

  lemma FillSound(c: Splitter, s: State, header: seq<Byte>, d: seq<Byte>, r: State)
    requires WellFormed(c, s) && Sound(s) && |header| == c.HeaderLen()
    requires r == Fill(c, s.(header := header), d)
    ensures Sound(r) && View(r) == (View(s).0, View(s).1 + d)
    ensures View(r).1 == [] <==> r.pes.None?
  {
    FillAdds(c, s.(header := header), d);
    FillCommits(c, s.(header := header), d);
  }

  /** Where the scan stops without a cut. */
  lemma BodyQuiet(c: Splitter, t: seq<Byte>, q: nat, s: State, data: seq<Byte>, k: nat, header: seq<Byte>)
    requires Tracks(c, t, q, s) && s.cache == [] && Part(t, q, data)
    requires k + c.Carry() == |data| && 0 < k && (k, header) == Scan(c, data, 0, s.header)
    ensures Tracks(c, t, q + k, Fill(c, s.(header := header), data[..k]).(cache := data[k..]))
  {
    hide Join, Bracketed, CodeAt, Fill, Scan, Split, Splitter.NalType;
    FillSound(c, s, header, data[..k], Fill(c, s.(header := header), data[..k]));
    SplitScanned(c, t, q, s, data, k, header);
    PartSlice(t, q, data, k, |data|);
    assert data[k..|data|] == data[k..];
  }

  /** Only at the very beginning is nothing open. */
  lemma NothingOpen(c: Splitter, t: seq<Byte>, q: nat)
    requires q <= |t|
    ensures Split(c, t, q).open == [] <==> q == 0
    ensures q == 0 ==> Split(c, t, q) == Cut([], [], c.NoHeader())
  {
    OpenNonEmpty(c, t, q);
  }

  /** Nothing cuts inside a start code that cuts or inside its header. */
  lemma CutCalm(c: Splitter, t: seq<Byte>, p: nat, header: seq<Byte>, n: nat)
    requires Apart(c, t) || Disjoint(c, t)
    requires CodeAt(c, t, p) && n == p + 4 + c.HeaderLen()
    requires |header| == c.HeaderLen() && c.Cuts(header, HeaderAt(c, t, p)) && Alike(c, Split(c, t, p).header, header)
    ensures Calm(c, t, p + 1, n, HeaderAt(c, t, p))
  {
    NothingOpen(c, t, p);
    if Apart(c, t) {
      hide Split;
      ApartCalm(c, t, p, n);
    }
  }

  /** What the splitter does at the cut the scan stops at: the source takes the
      start code and the header in one piece, so nothing may cut inside them. */
  lemma SplitAtCut(c: Splitter, t: seq<Byte>, q: nat, data: seq<Byte>, k: nat, units: seq<seq<Byte>>, open: seq<Byte>,
                   header: seq<Byte>, n: nat)
    requires Part(t, q, data) && CodeAt(c, data, k) && n == k + 4 + c.HeaderLen()
    requires |header| == c.HeaderLen() && c.Cuts(header, HeaderAt(c, data, k))
    requires Reads(c, Split(c, t, q + k), units, open, header)
    requires Calm(c, t, q + k + 1, q + n, HeaderAt(c, data, k))
    ensures Reads(c, Split(c, t, q + n), if open != [] then units + [open] else units, data[k..n], HeaderAt(c, data, k))
  {
    hide Split, Part, Calm;
    CodeShift(c, t, q, data, k);
    NothingOpen(c, t, q + k);
    SplitAtCode(c, t, q + k, q + n);
    PartSlice(t, q, data, k, n);
    if open == [] { NilLeft(data[k..n]); }
  }

  /** A unit ended, if one was open, and the next begun. */
  lemma NextTracks(c: Splitter, t: seq<Byte>, n: nat, s: State, e: seq<Byte>, h: seq<Byte>)
    requires WellFormed(c, s) && Sound(s) && (View(s).1 == [] <==> s.pes.None?)
    requires |h| == c.HeaderLen() && 0 < |e| <= MAX_PES && n <= |t|
    requires Reads(c, Split(c, t, n), if View(s).1 != [] then View(s).0 + [View(s).1] else View(s).0, e, h)
    ensures Tracks(c, t, n, NextUnit(c, s, h, e))
  {
    hide Join, Bracketed, Split, Splitter.NalType;
    NextUnitBegins(c, s, h, e);
  }

  lemma BodyCuts(c: Splitter, t: seq<Byte>, q: nat, s: State, data: seq<Byte>, k: nat, header: seq<Byte>, n: nat)
    requires Tracks(c, t, q, s) && s.cache == [] && Part(t, q, data) && (Apart(c, t) || Disjoint(c, t))
    requires k + c.Carry() < |data| && (k, header) == Scan(c, data, 0, s.header)
    requires n == k + 4 + c.HeaderLen()
    ensures Tracks(c, t, q + n,
                   NextUnit(c, Fill(c, s.(header := header), data[..k]), HeaderAt(c, data, k), data[k..n]))
  {
    hide Join, Bracketed, Fill, NextUnit, Apart, Disjoint, Calm, Split, Part, Alike, Splitter.NalType;
    var filled := Fill(c, s.(header := header), data[..k]);
    FillSound(c, s, header, data[..k], filled);
    SplitScanned(c, t, q, s, data, k, header);
    PartReaches(t, q, data, n);
    CodeShift(c, t, q, data, k);
    CutCalm(c, t, q + k, header, q + n);
    hide Scan, CodeAt, View, Sound, Tracks;
    SplitAtCut(c, t, q, data, k, View(s).0, View(s).1 + data[..k], header, n);
    NextTracks(c, t, q + n, filled, data[k..n], HeaderAt(c, data, k));
  }

  lemma PartReaches(t: seq<Byte>, q: nat, data: seq<Byte>, n: nat)
    requires Part(t, q, data) && n <= |data|
    ensures q + n <= |t|
  {}

  lemma BodyTracks(c: Splitter, t: seq<Byte>, q: nat, s: State, data: seq<Byte>)
    requires Tracks(c, t, q, s) && s.cache == [] && Part(t, q, data) && data != []
    requires Apart(c, t) || Disjoint(c, t)
    ensures var r := Body(c, s, data);
            |r.state.cache| <= r.taken && Tracks(c, t, q + r.taken - |r.state.cache|, r.state)
  {
    hide Split, Join, Apart, Disjoint, Fill, Scan;
    if |data| > c.Carry() {
      var (k, h) := Scan(c, data, 0, s.header);
      if k + c.Carry() == |data| {
        BodyQuiet(c, t, q, s, data, k, h);
      } else {
        BodyCuts(c, t, q, s, data, k, h, k + 4 + c.HeaderLen());
      }
    }
  }

  /** The window holds what follows the committed bytes. */
  lemma WindowIs(c: Splitter, t: seq<Byte>, q: nat, s: State, data: seq<Byte>)
    requires Part(t, q, s.cache) && Part(t, q + |s.cache|, data)
    ensures Part(t, q, Window(c, s.cache, data))
  {
    PartsJoin(t, q, s.cache, data[..Min(|data|, c.Carry())]);
  }

  /** The window takes everything behind its first start code without another look. */
  lemma WindowTracks(c: Splitter, t: seq<Byte>, q: nat, s: State, w: seq<Byte>, i: nat)
    requires Tracks(c, t, q, s) && s.pes.Some?
    requires Part(t, q, w) && CodeAt(c, w, i) && |w| <= 2 * c.Carry()
    requires Calm(c, t, q + i + 1, q + |w|, HeaderAt(c, w, i))
    requires forall j: nat :: j < i ==> !CodeAt(c, w, j)
    requires |s.pes.value| + Needed(c, s, w, i) <= MAX_PES
    ensures Tracks(c, t, q + |w|, WindowHit(c, s, w, i))
  {
    hide Join, Bracketed, Calm, Split, WindowHit, Splitter.NalType;
    WindowSplit(c, t, q, s, w, i);
    if c.Cuts(s.header, HeaderAt(c, w, i)) { HitCuts(c, s, w, i); } else { HitContinues(c, s, w, i); }
  }

  lemma SomethingOpen(s: State)
    requires Sound(s) && s.pes.Some?
    ensures View(s).1 != []
  {}

  lemma WindowSplit(c: Splitter, t: seq<Byte>, q: nat, s: State, w: seq<Byte>, i: nat)
    requires Tracks(c, t, q, s) && s.pes.Some?
    requires Part(t, q, w) && CodeAt(c, w, i) && |w| <= 2 * c.Carry()
    requires Calm(c, t, q + i + 1, q + |w|, HeaderAt(c, w, i))
    requires forall j: nat :: j < i ==> !CodeAt(c, w, j)
    ensures var h := HeaderAt(c, w, i);
            && q + |w| <= |t| && View(s).1 + w[..i] != []
            && if c.Cuts(s.header, h) then Reads(c, Split(c, t, q + |w|), View(s).0 + [View(s).1 + w[..i]], w[i..], h)
               else Reads(c, Split(c, t, q + |w|), View(s).0, View(s).1 + w, h)
  {
    hide Join, Bracketed, Split, View, Sound, Calm, Splitter.NalType;
    SomethingOpen(s);
    NothingOpen(c, t, q);
    HitPart(c, t, q, w, i);
  }

  /** In a stream whose cuts are apart nothing in a window cuts behind its first start code. */
  lemma WindowCalm(c: Splitter, t: seq<Byte>, q: nat, s: State, w: seq<Byte>, i: nat)
    requires Tracks(c, t, q, s) && s.pes.Some? && Apart(c, t)
    requires Part(t, q, w) && CodeAt(c, w, i) && |w| <= 2 * c.Carry()
    ensures Calm(c, t, q + i + 1, q + |w|, HeaderAt(c, w, i))
  {
    hide Join, Bracketed, Apart, Split, View, Sound, Calm, Splitter.NalType;
    SomethingOpen(s);
    NothingOpen(c, t, q);
    CodeShift(c, t, q, w, i);
    ApartCalm(c, t, q + i, q + |w|);
  }

  /** Without a start code in the window the cache joins the open unit. */
  lemma FlushTracks(c: Splitter, t: seq<Byte>, q: nat, s: State, w: seq<Byte>)
    requires Tracks(c, t, q, s) && s.pes.Some?
    requires |w| == |s.cache| + c.Carry() && Part(t, q, w)
    requires forall j: nat :: j < |s.cache| ==> !CodeAt(c, w, j)
    ensures Tracks(c, t, q + |s.cache|, FlushCache(c, s))
  {
    hide Join, Bracketed, Apart, Split, Splitter.NalType;
    QuietPart(c, t, q, w, |s.cache|);
    PartSlice(t, q, w, 0, |s.cache|);
    assert w[0..|s.cache|] == w[..|s.cache|];
    FlushAdds(c, s);
  }

  /** A chunk that meets a cache. */
  lemma CacheTracks(c: Splitter, t: seq<Byte>, q: nat, s: State, data: seq<Byte>)
    requires Tracks(c, t, q, s) && Next(c, t, q, s, data) && s.cache != [] && s.pes.Some?
    requires |data| >= c.Carry() && WindowFits(c, s, data)
    ensures var r := Frame(c, s, data);
            && |r.state.cache| <= |s.cache| + r.taken
            && Tracks(c, t, q + |s.cache| + r.taken - |r.state.cache|, r.state)
  {
    hide Split, View, Sound, CodeAt, Apart, WindowHit, FlushCache, Body, Splitter.NalType;
    WindowIs(c, t, q, s, data);
    var w := Window(c, s.cache, data);
    var i := FindCode(c, w, 0);
    if i < |w| - c.Carry() {
      WindowCalm(c, t, q, s, w, i);
      WindowTracks(c, t, q, s, w, i);
    } else {
      FlushTracks(c, t, q, s, w);
      BodyTracks(c, t, q + |s.cache|, FlushCache(c, s), data);
    }
  }

  /** One call tracks the whole-stream splitter, whatever part of the stream the
      chunk is, provided a chunk that meets a cache is at least a cache long. */
  lemma FrameTracks(c: Splitter, t: seq<Byte>, q: nat, s: State, data: seq<Byte>)
    requires Tracks(c, t, q, s) && Next(c, t, q, s, data) && data != [] && OnTime(c, s, data)
    requires s.cache == [] || |data| >= c.Carry()
    requires WindowFits(c, s, data)
    ensures var r := Frame(c, s, data);
            && |r.state.cache| <= |s.cache| + r.taken
            && Tracks(c, t, q + |s.cache| + r.taken - |r.state.cache|, r.state)
  {
    hide Split, Join, Apart, WindowFits;
    if s.cache != [] {
      CacheTracks(c, t, q, s, data);
    } else if |data| > c.Carry() {
      BodyTracks(c, t, q, s, data);
    }
  }

  // ----- runs -----

  ghost predicate Follows(c: Splitter, t: seq<Byte>, n: nat, s: State)
  {
    n >= |s.cache| && Tracks(c, t, n - |s.cache|, s)
  }

  lemma FrameFollows(c: Splitter, t: seq<Byte>, n: nat, s: State, data: seq<Byte>, o: Outcome)
    requires Follows(c, t, n, s) && Apart(c, t) && Part(t, n, data)
    requires data != [] && OnTime(c, s, data) && WindowFits(c, s, data)
    requires s.cache == [] || |data| >= c.Carry()
    requires o == Frame(c, s, data)
    ensures Follows(c, t, n + o.taken, o.state) && Part(t, n + o.taken, data[o.taken..])
  {
    hide Split, View, Frame, Apart, CodeAt, WindowFits;
    FrameTracks(c, t, n - |s.cache|, s, data);
    PartTail(t, n, data, o.taken);
  }

  /** One chunk, call after call. */
  lemma {:induction false} ChunkTracks(c: Splitter, t: seq<Byte>, n: nat, s: State, data: seq<Byte>, r: State)
    requires Follows(c, t, n, s) && Apart(c, t) && Part(t, n, data)
    requires WellFormed(c, s) && (data == [] || OnTime(c, s, data))
    requires s.cache == [] || |data| >= c.Carry()
    requires ChunkFits(c, s, data) && r == Packetized(c, s, data)
    ensures Follows(c, t, n + |data|, r)
    decreases |data|
  {
    hide Split, View, Frame, Tracks, Apart;
    if data != [] {
      var o := Frame(c, s, data);
      var rest := data[o.taken..];
      FrameFollows(c, t, n, s, data, o);
      assert r == Packetized(c, o.state, rest);
      if rest != [] {
        ChunkTracks(c, t, n + o.taken, o.state, rest, r);
      }
    }
  }

  /** A whole run of chunks, each at least a cache long. */
  lemma {:induction false} RunTracks(c: Splitter, t: seq<Byte>, n: nat, s: State, chunks: seq<seq<Byte>>, r: State)
    requires Follows(c, t, n, s) && Apart(c, t) && Part(t, n, Flatten(chunks))
    requires WellFormed(c, s) && Prompt(c, s, chunks)
    requires RunSafe(c, s, chunks) && RunFits(c, s, chunks) && r == Run(c, s, chunks)
    requires forall i :: 0 <= i < |chunks| ==> |chunks[i]| >= c.Carry()
    ensures Follows(c, t, n + |Flatten(chunks)|, r)
    decreases |chunks|
  {
    hide Split, View, Frame, Tracks, Apart, Packetized, Part;
    if chunks != [] {
      var d, rest := chunks[0], chunks[1..];
      var s' := Packetized(c, s, d);
      FirstChunk(t, n, chunks);
      ChunkTracks(c, t, n, s, d, s');
      RunTracks(c, t, n + |d|, s', rest, r);
    }
  }

  // ----- the theorems -----

  lemma InitialFollows(c: Splitter, t: seq<Byte>)
    ensures Follows(c, t, 0, Initial(c))
  {}

  /** At the end of the stream every unit has been pushed, and nothing is open. */
  lemma FinishFinds(c: Splitter, t: seq<Byte>, s: State)
    requires Follows(c, t, |t|, s) && s.pes.Some? && FinishFits(s)
    ensures Join(Finished(c, s).pushed) == (Units(c, t), []) && Bracketed(Finished(c, s).pushed)
  {
    hide Split, Join, Bracketed, Splitter.NalType;
    LastUnit(c, t, |t| - |s.cache|, s);
    var u := s.(pes := Some(s.pes.value + s.cache));
    PendingAdds(s, s.cache);
    WritesAll(s.pes.value, s.cache);
    var v := u.(cache := []);
    assert View(v) == View(u);
    PushFinished(c, v);
  }

  /** The cached bytes are too few for another start code. */
  lemma LastUnit(c: Splitter, t: seq<Byte>, q: nat, s: State)
    requires Tracks(c, t, q, s) && q + |s.cache| == |t| && s.pes.Some?
    ensures Units(c, t) == View(s).0 + [View(s).1 + s.cache]
  {
    hide Join, Bracketed, Splitter.NalType;
    assert t[q..] == s.cache == t[q..|t|];
    SplitQuiet(c, t, q, |t|);
  }

  ghost predicate LongEnough(c: Splitter, chunks: seq<seq<Byte>>) {
    && (chunks != [] ==> |chunks[0]| > c.Carry())
    && forall i :: 0 <= i < |chunks| ==> |chunks[i]| >= c.Carry()
  }

  lemma LongEnoughRuns(c: Splitter, chunks: seq<seq<Byte>>)
    requires LongEnough(c, chunks)
    ensures Prompt(c, Initial(c), chunks) && RunSafe(c, Initial(c), chunks)
  {
    PromptSafe(c, Initial(c), chunks);
  }

  lemma LongStream(c: Splitter, chunks: seq<seq<Byte>>)
    requires LongEnough(c, chunks) && chunks != []
    ensures |Flatten(chunks)| > c.Carry()
  {}

  /** The units pushed for any chunking are the units of the whole stream. */
  lemma PushedUnits(c: Splitter, chunks: seq<seq<Byte>>)
    requires LongEnough(c, chunks) && Apart(c, Flatten(chunks))
    requires RunSafe(c, Initial(c), chunks) && Fits(c, chunks)
    ensures Join(Pushed(c, chunks)) == (Units(c, Flatten(chunks)), []) && Bracketed(Pushed(c, chunks))
  {
    hide Tracks, Split, Apart, Packetized, Join, Bracketed, Units, RunSafe, Run, Finished, RunFits, Part;
    var t := Flatten(chunks);
    var s := Run(c, Initial(c), chunks);
    if chunks == [] {
      NoChunks(c);
    } else {
      InitialFollows(c, t);
      WholePart(t);
      LongEnoughRuns(c, chunks);
      RunTracks(c, t, 0, Initial(c), chunks, s);
      RunMakes(c, Initial(c), chunks);
      FinishFinds(c, t, s);
    }
  }

  lemma NoChunks(c: Splitter)
    ensures Run(c, Initial(c), []) == Initial(c) && Finished(c, Initial(c)).pushed == []
    ensures Join([]) == ([], []) && Bracketed([]) && Units(c, []) == []
  {}

  /** Two chunkings of the same stream push the same access units. */
  lemma ChunkIndependent(c: Splitter, a: seq<seq<Byte>>, b: seq<seq<Byte>>)
    requires Flatten(a) == Flatten(b) && Apart(c, Flatten(a))
    requires LongEnough(c, a) && RunSafe(c, Initial(c), a) && Fits(c, a)
    requires LongEnough(c, b) && RunSafe(c, Initial(c), b) && Fits(c, b)
    ensures Join(Pushed(c, a)) == Join(Pushed(c, b))
  {
    PushedUnits(c, a);
    PushedUnits(c, b);
  }

  // ----- a condition on the stream alone -----

  /** No access unit of the stream is longer than `m`. */
  ghost predicate UnitsWithin(c: Splitter, t: seq<Byte>, m: nat) {
    forall i :: 0 <= i < |Units(c, t)| ==> |Units(c, t)[i]| <= m
  }

  /** What is cut or open at `q` is all, or the beginning, of a unit. */
  lemma {:induction false} CutWithin(c: Splitter, t: seq<Byte>, q: nat, m: nat)
    requires UnitsWithin(c, t, m) && q <= |t|
    ensures var r := Split(c, t, q);
            |r.open| <= m && forall i :: 0 <= i < |r.units| ==> |r.units[i]| <= m
    decreases |t| - q
  {
    var r := Split(c, t, q);
    if q == |t| {
      assert forall i :: 0 <= i < |r.units| ==> Units(c, t)[i] == r.units[i];
      assert r.open != [] ==> Units(c, t)[|r.units|] == r.open;
    } else {
      CutWithin(c, t, q + 1, m);
      var n := Split(c, t, q + 1);
      assert n.units == r.units || (|n.units| == |r.units| + 1 && n.units[|r.units|] == r.open);
      assert forall i :: 0 <= i < |r.units| ==> r.units[i] == n.units[i];
    }
  }

  /** When no unit is longer than a packet, nothing lacks room. */
  lemma WithinRoomy(c: Splitter, t: seq<Byte>)
    requires Apart(c, t) && UnitsWithin(c, t, MAX_PES)
    ensures Roomy(c, t)
  {
    hide Apart, UnitsWithin, Split, Tight, Filled;
    forall q: nat | q + 2 * c.Carry() <= |t| ensures !Tight(c, t, q) {
      WithinLoose(c, t, q);
    }
    if |t| > c.Carry() {
      var q := |t| - c.Carry();
      CutWithin(c, t, |t|, MAX_PES);
      SplitQuiet(c, t, q, |t|);
      FilledBound(|Split(c, t, q).open|);
    }
  }

  lemma WithinLoose(c: Splitter, t: seq<Byte>, q: nat)
    requires Apart(c, t) && UnitsWithin(c, t, MAX_PES) && q + 2 * c.Carry() <= |t|
    ensures !Tight(c, t, q)
  {
    hide Apart, UnitsWithin, Split, Filled, Splitter.NalType;
    var w, r := t[q..q + 2 * c.Carry()], Split(c, t, q);
    var i := FindCode(c, w, 0);
    FilledBound(|r.open|);
    NothingOpen(c, t, q);
    if i < c.Carry() && q > 0 { WindowWithin(c, t, q, w, i); }
  }

  lemma WindowWithin(c: Splitter, t: seq<Byte>, q: nat, w: seq<Byte>, i: nat)
    requires Apart(c, t) && UnitsWithin(c, t, MAX_PES) && 0 < q
    requires Part(t, q, w) && |w| <= 2 * c.Carry() && CodeAt(c, w, i)
    requires forall j: nat :: j < i ==> !CodeAt(c, w, j)
    ensures |Split(c, t, q).open| + NeededAt(c, Split(c, t, q).header, w, i) <= MAX_PES
  {
    hide Apart, UnitsWithin, Split, Splitter.NalType, Calm;
    var r, n := Split(c, t, q), q + |w|;
    NothingOpen(c, t, q);
    CodeShift(c, t, q, w, i);
    ApartCalm(c, t, q + i, n);
    HitPart(c, t, q, w, i);
    CutWithin(c, t, n, MAX_PES);
    if c.Cuts(r.header, HeaderAt(c, w, i)) { assert Split(c, t, n).units[|r.units|] == r.open + w[..i]; }
  }

  /** A window always finds room in a roomy stream. */
  lemma WindowFitsRoom(c: Splitter, t: seq<Byte>, q: nat, s: State, data: seq<Byte>)
    requires Tracks(c, t, q, s) && Full(s) && Part(t, q + |s.cache|, data) && data != [] && OnTime(c, s, data)
    requires Roomy(c, t)
    ensures WindowFits(c, s, data)
  {
    if Hits(c, s, data) {
      var w := Window(c, s.cache, data);
      var i := FindCode(c, w, 0);
      WindowIs(c, t, q, s, data);
      hide Roomy, Part, Join, Bracketed, FindCode, Filled, Splitter.NalType;
      WindowRoom(c, t, q, w, i, s.header);
    }
  }

  lemma FollowsFits(c: Splitter, t: seq<Byte>, n: nat, s: State, data: seq<Byte>)
    requires Follows(c, t, n, s) && Full(s) && Part(t, n, data)
    requires WellFormed(c, s) && data != [] && OnTime(c, s, data) && Roomy(c, t)
    ensures WindowFits(c, s, data) && Full(Frame(c, s, data).state)
  {
    hide Roomy, Full, Frame, WindowFits, View, Reads;
    WindowFitsRoom(c, t, n - |s.cache|, s, data);
    FrameFull(c, s, data);
  }

  lemma {:induction false} ChunkFitsRoom(c: Splitter, t: seq<Byte>, n: nat, s: State, data: seq<Byte>)
    requires Follows(c, t, n, s) && Full(s) && Apart(c, t) && Part(t, n, data)
    requires WellFormed(c, s) && (data == [] || OnTime(c, s, data))
    requires s.cache == [] || |data| >= c.Carry()
    requires Roomy(c, t)
    ensures ChunkFits(c, s, data) && Full(Packetized(c, s, data))
    decreases |data|
  {
    hide Split, View, Frame, Tracks, Apart, Roomy, WindowFits, Full;
    if data != [] {
      FollowsFits(c, t, n, s, data);
      var o := Frame(c, s, data);
      FrameFollows(c, t, n, s, data, o);
      if o.taken < |data| {
        ChunkFitsRoom(c, t, n + o.taken, o.state, data[o.taken..]);
      }
    }
  }

  lemma {:induction false} RunFitsRoom(c: Splitter, t: seq<Byte>, n: nat, s: State, chunks: seq<seq<Byte>>)
    requires Follows(c, t, n, s) && Full(s) && Apart(c, t) && Part(t, n, Flatten(chunks))
    requires WellFormed(c, s) && Prompt(c, s, chunks) && RunSafe(c, s, chunks)
    requires forall i :: 0 <= i < |chunks| ==> |chunks[i]| >= c.Carry()
    requires Roomy(c, t)
    ensures RunFits(c, s, chunks) && Full(Run(c, s, chunks))
    decreases |chunks|
  {
    hide Split, View, Tracks, Apart, Packetized, Part, Roomy, ChunkFits, Full;
    if chunks != [] {
      var d, rest := chunks[0], chunks[1..];
      var s' := Packetized(c, s, d);
      FirstChunk(t, n, chunks);
      ChunkFitsRoom(c, t, n, s, d);
      ChunkTracks(c, t, n, s, d, s');
      RunFitsRoom(c, t, n + |d|, s', rest);
    }
  }

  lemma FinishFitsRoom(c: Splitter, t: seq<Byte>, s: State)
    requires Follows(c, t, |t|, s) && Full(s) && Roomy(c, t)
    ensures FinishFits(s)
  {
    hide Roomy, Filled, Split, View;
    FlushRoom(c, t, |s.cache|);
  }

  /** Without any condition on the run: when the chunks are long enough, the start
      codes that cut apart and the stream roomy, the units pushed are the units of the
      stream. */
  lemma StreamUnits(c: Splitter, chunks: seq<seq<Byte>>)
    requires LongEnough(c, chunks) && Apart(c, Flatten(chunks)) && Roomy(c, Flatten(chunks))
    ensures RunSafe(c, Initial(c), chunks)
    ensures Join(Pushed(c, chunks)) == (Units(c, Flatten(chunks)), []) && Bracketed(Pushed(c, chunks))
  {
    hide Follows, Tracks, Split, Apart, Packetized, Roomy, Join, Part, Run, RunFits, Flatten, Bracketed, Finished;
    var t := Flatten(chunks);
    LongEnoughRuns(c, chunks);
    InitialFollows(c, t);
    WholePart(t);
    RunFitsRoom(c, t, 0, Initial(c), chunks);
    RunTracks(c, t, 0, Initial(c), chunks, Run(c, Initial(c), chunks));
    FinishFitsRoom(c, t, Run(c, Initial(c), chunks));
    PushedUnits(c, chunks);
  }
}
