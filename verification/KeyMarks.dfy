/** Which packets the packetizers mark as key frames. */
module KeyMarks {
  import opened Bytes
  import opened AccessUnits
  import opened StreamParts
  import opened Boundaries
  import opened UnitBytes
  import opened Packetizing
  import opened PacketizingProofs
  import opened PacketizingRuns
  import opened PacketRoom
  import opened ChunkIndependence

  // ----- the unit open at a position -----

  /** Where the unit open at `q` ends. */
  ghost function End(c: Splitter, t: seq<Byte>, q: nat): (n: nat)
    ensures q <= |t| ==> q <= n <= |t|
    decreases |t| - q
  {
    if q >= |t| then |t| else if q > 0 && CutsAfter(c, t, q) then q else End(c, t, q + 1)
  }

  /** No start code joins it any more. */
  ghost predicate Quiet(c: Splitter, t: seq<Byte>, q: nat) {
    forall p: nat :: q <= p < End(c, t, q) ==> !CodeAt(c, t, p)
  }

  /** Where the unit `i` of the stream ends. */
  function UnitEnd(c: Splitter, t: seq<Byte>, i: nat): nat
    requires i < |Units(c, t)|
  {
    |Flatten(Units(c, t)[..i + 1])|
  }

  lemma {:induction false} EndIs(c: Splitter, t: seq<Byte>, q: nat)
    requires 0 < q <= |t|
    ensures var i := |Split(c, t, q).units|;
            i < |Units(c, t)| && UnitEnd(c, t, i) == End(c, t, q)
    decreases |t| - q
  {
    hide Splitter.NalType;
    OpenNonEmpty(c, t, q);
    if q == |t| {
      LastEnds(c, t);
    } else if CutsAfter(c, t, q) {
      CutEnds(c, t, q);
    } else {
      EndIs(c, t, q + 1);
    }
  }

  lemma LastEnds(c: Splitter, t: seq<Byte>)
    requires t != []
    ensures var i := |Split(c, t, |t|).units|;
            i < |Units(c, t)| && UnitEnd(c, t, i) == |t|
  {
    var r := Split(c, t, |t|);
    OpenNonEmpty(c, t, |t|);
    SplitConserves(c, t, |t|);
    hide Split;
    FlattenSnoc(r.units, r.open);
    assert Units(c, t)[..|r.units| + 1] == r.units + [r.open];
  }

  lemma CutEnds(c: Splitter, t: seq<Byte>, q: nat)
    requires 0 < q < |t| && CutsAfter(c, t, q)
    ensures var i := |Split(c, t, q).units|;
            i < |Units(c, t)| && UnitEnd(c, t, i) == q
  {
    var r, n := Split(c, t, q), Split(c, t, q + 1);
    OpenNonEmpty(c, t, q);
    assert n.units == r.units + [r.open];
    SplitConserves(c, t, q);
    SplitGrows(c, t, q + 1, |t|);
    hide Split;
    FlattenSnoc(r.units, r.open);
    assert Units(c, t)[..|r.units| + 1] == n.units;
  }

  /** Up to its end it is one unit, and from a quiet place on under one header. */
  lemma {:induction false} OpenOn(c: Splitter, t: seq<Byte>, q: nat, p: nat)
    requires q <= p <= End(c, t, q) && q <= |t|
    ensures Split(c, t, p).units == Split(c, t, q).units && End(c, t, p) == End(c, t, q)
    ensures Quiet(c, t, q) ==> Split(c, t, p).header == Split(c, t, q).header && Quiet(c, t, p)
    decreases p - q
  {
    hide Splitter.NalType;
    if q < p {
      assert q == 0 || !CutsAfter(c, t, q);
      OpenOn(c, t, q + 1, p);
    }
  }

  // ----- the marks -----

  /** That a unit is marked `key`: the packet that finishes it, or every packet of it. */
  datatype Claim = Claim(unit: nat, key: bool, every: bool)

  ghost predicate Marked(ps: seq<Packet>, x: Claim) {
    forall j :: 0 <= j < |ps| && (x.every || ps[j].finished) && |Join(ps[..j]).0| == x.unit ==> ps[j].key == x.key
  }

  lemma MarkedMore(ps: seq<Packet>, p: Packet, x: Claim)
    ensures Marked(ps + [p], x)
       <==> Marked(ps, x) && ((x.every || p.finished) && |Join(ps).0| == x.unit ==> p.key == x.key)
  {
    hide Join;
    var more := ps + [p];
    assert more[|ps|] == p && more[..|ps|] == ps;
    forall j | 0 <= j < |ps| ensures more[j] == ps[j] && more[..j] == ps[..j] {}
  }

  predicate IsKeyHeader(c: Splitter, h: seq<Byte>)
    requires |h| == c.HeaderLen()
  {
    c.IsKey(c.NalType(h))
  }

  lemma KeyHeaderIs(c: Splitter, h: seq<Byte>)
    requires |h| == c.HeaderLen()
    ensures IsKeyHeader(c, h) == c.IsKey(c.NalType(h))
  {}

  /** The header of unit `x.unit` has to say `x.key` at `q`. */
  ghost predicate Due(c: Splitter, t: seq<Byte>, q: nat, x: Claim)
    requires q <= |t|
  {
    |Split(c, t, q).units| == x.unit && (Quiet(c, t, q) || (x.every && q > 0))
  }

  /** What is pushed is marked, and the header remembered is the one to mark by. */
  ghost predicate Marks(c: Splitter, t: seq<Byte>, q: nat, s: State, x: Claim) {
    && |s.header| == c.HeaderLen() && q <= |t|
    && Marked(s.pushed, x)
    && (Due(c, t, q, x) ==> IsKeyHeader(c, s.header) == x.key) && (q == 0 ==> s.header == c.NoHeader())
  }

  /** The copy loop pushes packets of the open unit, and none that finishes it. */
  lemma {:induction false} FillMarked(c: Splitter, s: State, d: seq<Byte>, x: Claim)
    requires WellFormed(c, s) && Marked(s.pushed, x) && !s.finished
    requires x.every && d != [] && |Join(s.pushed).0| == x.unit ==> IsKeyHeader(c, s.header) == x.key
    ensures Marked(Fill(c, s, d).pushed, x) && !Fill(c, s, d).finished
    decreases |d|, if s.pes.Some? then 1 else 0
  {
    if d != [] {
      var p := Pending(s);
      var w := Room(p, d);
      if w < |d| {
        var u := s.(pes := Some(p + d[..w]));
        MarkedMore(s.pushed, Packet(s.first, false, IsKeyHeader(c, s.header), p + d[..w]), x);
        UnfinishedSame(s.pushed, Packet(s.first, false, IsKeyHeader(c, s.header), p + d[..w]));
        hide Marked, Join;
        FillMarked(c, Push(c, u), d[w..], x);
      }
    }
  }

  lemma UnfinishedSame(ps: seq<Packet>, p: Packet)
    requires !p.finished
    ensures Join(ps + [p]).0 == Join(ps).0
  {
    assert (ps + [p])[..|ps|] == ps;
  }

  /** The packet that ends a unit is marked by the header remembered. */
  lemma NextMarked(c: Splitter, s: State, header: seq<Byte>, d: seq<Byte>, x: Claim)
    requires WellFormed(c, s) && |header| == c.HeaderLen() && |d| <= MAX_PES && Marked(s.pushed, x)
    requires s.pes.Some? && |Join(s.pushed).0| == x.unit ==> IsKeyHeader(c, s.header) == x.key
    ensures Marked(NextUnit(c, s, header, d).pushed, x)
  {
    hide Join, Marked, Splitter.NalType, Splitter.IsKey;
    if s.pes.Some? {
      MarkedMore(s.pushed, Packet(s.first, true, IsKeyHeader(c, s.header), s.pes.value), x);
    }
  }

  // ----- what decides the mark -----

  /** From `q` on: every header under which a place is reached where it is due says so, or the
      unit is over, or it is quiet already and only its last packet counts. */
  ghost predicate Ready(c: Splitter, t: seq<Byte>, q: nat, x: Claim) {
    q <= |t| &&
      (|| Decided(c, t, x) || |Split(c, t, q).units| > x.unit
       || (|Split(c, t, q).units| == x.unit && Quiet(c, t, q) && !x.every))
  }

  ghost predicate Decided(c: Splitter, t: seq<Byte>, x: Claim) {
    forall q: nat :: q <= |t| && Due(c, t, q, x) ==>
      IsKeyHeader(c, Split(c, t, q).header) == x.key && TakenWith(c, t, q, x.key)
  }

  /** So does every start code whose window may end at `q`. */
  ghost predicate TakenWith(c: Splitter, t: seq<Byte>, q: nat, b: bool) {
    forall p: nat :: CodeAt(c, t, p) && p < q <= p + Reach(c, t, p) ==> IsKeyHeader(c, HeaderAt(c, t, p)) == b
  }

  lemma ReadyOn(c: Splitter, t: seq<Byte>, q: nat, p: nat, x: Claim)
    requires Ready(c, t, q, x) && q <= p <= |t|
    ensures Ready(c, t, p, x)
  {
    hide Decided, Quiet;
    SplitGrows(c, t, q, p);
    if !Decided(c, t, x) && |Split(c, t, q).units| == x.unit && |Split(c, t, p).units| == x.unit {
      if p > End(c, t, q) {
        OpenOn(c, t, q, End(c, t, q));
        PastEnd(c, t, q, p);
      } else {
        OpenOn(c, t, q, p);
      }
    }
  }

  lemma PastEnd(c: Splitter, t: seq<Byte>, q: nat, p: nat)
    requires q <= End(c, t, q) < p <= |t|
    ensures |Split(c, t, p).units| > |Split(c, t, q).units|
  {
    hide Split, CutsAfter;
    var n := End(c, t, q);
    OpenOn(c, t, q, n);
    EndCuts(c, t, q);
    CutUnits(c, t, n);
    SplitGrows(c, t, n + 1, p);
  }

  lemma CutUnits(c: Splitter, t: seq<Byte>, n: nat)
    requires 0 < n < |t| && CutsAfter(c, t, n)
    ensures |Split(c, t, n + 1).units| == |Split(c, t, n).units| + 1
  {
    OpenNonEmpty(c, t, n);
  }

  lemma {:induction false} EndCuts(c: Splitter, t: seq<Byte>, q: nat)
    requires q <= |t|
    ensures End(c, t, q) == |t| || (End(c, t, q) > 0 && CutsAfter(c, t, End(c, t, q)))
    decreases |t| - q
  {
    if q < |t| && !(q > 0 && CutsAfter(c, t, q)) { EndCuts(c, t, q + 1); }
  }

  // ----- one call -----

  ghost predicate Codeless(c: Splitter, t: seq<Byte>, q: nat, p: nat) {
    forall j: nat :: q <= j < p ==> !CodeAt(c, t, j)
  }

  lemma CodelessMore(c: Splitter, t: seq<Byte>, q: nat, p: nat)
    requires q < p
    ensures Codeless(c, t, q, p) <==> !CodeAt(c, t, q) && Codeless(c, t, q + 1, p)
  {
    hide CodeAt;
  }

  /** A stretch without start codes. */
  lemma {:induction false} CalmStretch(c: Splitter, t: seq<Byte>, q: nat, p: nat)
    requires q <= p <= |t| && Codeless(c, t, q, p)
    ensures Split(c, t, p).units == Split(c, t, q).units && End(c, t, p) == End(c, t, q)
    ensures Split(c, t, p).header == Split(c, t, q).header && (Quiet(c, t, p) <==> Quiet(c, t, q))
    decreases p - q
  {
    if q < p {
      CalmStretch(c, t, q + 1, p);
      assert !CutsAfter(c, t, q);
    }
  }

  lemma ScanStep(c: Splitter, d: seq<Byte>, k: nat, header: seq<Byte>)
    requires k + c.Carry() <= |d| && |header| == c.HeaderLen() && Scan(c, d, k, header).0 > k
    ensures k + c.Carry() < |d|
    ensures Scan(c, d, k, header) == Scan(c, d, k + 1, if CodeAt(c, d, k) then HeaderAt(c, d, k) else header)
  {
    hide CodeAt, HeaderAt, Splitter.NalType;
  }

  lemma ScanStays(c: Splitter, d: seq<Byte>, k: nat, header: seq<Byte>)
    requires k + c.Carry() <= |d| && |header| == c.HeaderLen() && Scan(c, d, k, header).0 == k
    ensures Scan(c, d, k, header).1 == header
  {
    hide CodeAt, HeaderAt, Splitter.NalType;
  }

  /** The header of a scan is that of the last start code it passed. */
  lemma {:induction false} ScanHeader(c: Splitter, t: seq<Byte>, q: nat, data: seq<Byte>, k: nat, header: seq<Byte>)
    requires Part(t, q, data) && k + c.Carry() <= |data| && |header| == c.HeaderLen()
    ensures var (n, h) := Scan(c, data, k, header);
            h == if Codeless(c, t, q + k, q + n) then header else Split(c, t, q + n).header
    decreases |data| - k
  {
    hide Codeless, Split, Scan, CodeAt, HeaderAt;
    var n := Scan(c, data, k, header).0;
    if k < n {
      ScanStep(c, data, k, header);
      CodeShift(c, t, q, data, k);
      CodelessMore(c, t, q + k, q + n);
      ScanHeader(c, t, q, data, k + 1, if CodeAt(c, data, k) then HeaderAt(c, data, k) else header);
      if CodeAt(c, t, q + k) && Codeless(c, t, q + k + 1, q + n) { CodelessAfter(c, t, q + k, q + n); }
    } else {
      ScanStays(c, data, k, header);
      NoStretch(c, t, q + k);
    }
  }

  lemma NoStretch(c: Splitter, t: seq<Byte>, q: nat)
    ensures Codeless(c, t, q, q)
  {}

  lemma CodelessAfter(c: Splitter, t: seq<Byte>, q: nat, p: nat)
    requires q < p <= |t| && CodeAt(c, t, q) && Codeless(c, t, q + 1, p)
    ensures Split(c, t, p).header == HeaderAt(c, t, q)
  {
    SplitQuiet(c, t, q + 1, p);
  }

  /** A header read on the way to a quiet place. */
  lemma ScanDecides(c: Splitter, t: seq<Byte>, q: nat, p: nat, x: Claim)
    requires Ready(c, t, q, x) && q <= p <= |t| && Due(c, t, p, x) && !Codeless(c, t, q, p)
    ensures IsKeyHeader(c, Split(c, t, p).header) == x.key
  {
    hide Split, IsKeyHeader, CodeAt;
    if !Decided(c, t, x) {
      SplitGrows(c, t, q, p);
      if p > End(c, t, q) { PastEnd(c, t, q, p); }
    }
  }

  /** Without a start code on the way it was due before, or nothing was read yet. */
  lemma StillDue(c: Splitter, t: seq<Byte>, q: nat, p: nat, h: seq<Byte>, x: Claim)
    requires Ready(c, t, q, x) && q <= p <= |t| && Codeless(c, t, q, p) && Due(c, t, p, x)
    requires |h| == c.HeaderLen() && (Due(c, t, q, x) ==> IsKeyHeader(c, h) == x.key) && (q == 0 ==> h == c.NoHeader())
    ensures IsKeyHeader(c, h) == x.key
  {
    CalmStretch(c, t, q, p);
    if q == 0 { assert Split(c, t, 0).header == h; }
    hide Split, Quiet, IsKeyHeader, Codeless, TakenWith;
  }

  /** The marks go with a scan to where it stops. */
  lemma ScanMarks(c: Splitter, t: seq<Byte>, q: nat, s: State, data: seq<Byte>, n: nat, h: seq<Byte>, x: Claim)
    requires Tracks(c, t, q, s) && Marks(c, t, q, s, x) && Ready(c, t, q, x)
    requires Part(t, q, data) && c.Carry() <= |data| && (n, h) == Scan(c, data, 0, s.header)
    ensures Marks(c, t, q + n, s.(header := h), x)
  {
    hide Split, Marked, CodeAt, Codeless, Quiet, Splitter.NalType, Scan, Ready, Reads, View, Sound;
    ScanHeader(c, t, q, data, 0, s.header);
    NoStretch(c, t, 0);
    if Due(c, t, q + n, x) {
      if Codeless(c, t, q, q + n) {
        StillDue(c, t, q, q + n, s.header, x);
      } else {
        ScanDecides(c, t, q, q + n, x);
      }
    }
  }

  /** A start code and what is taken with it begin the unit at `p`. */
  lemma TakenMarks(c: Splitter, t: seq<Byte>, q: nat, p: nat, n: nat, r: State, x: Claim)
    requires Ready(c, t, q, x) && q <= p < n <= |t| && CodeAt(c, t, p) && n <= p + Reach(c, t, p)
    requires r.header == HeaderAt(c, t, p) && Marked(r.pushed, x)
    ensures Marks(c, t, n, r, x)
  {
    hide Split, Marked, Quiet, Splitter.NalType, Splitter.IsKey, CodeAt, Reach;
    if Due(c, t, n, x) && !Decided(c, t, x) {
      SplitGrows(c, t, q, n);
      if n > End(c, t, q) { PastEnd(c, t, q, n); }
      NotQuiet(c, t, q, p);
    }
  }

  lemma NotQuiet(c: Splitter, t: seq<Byte>, q: nat, p: nat)
    requires q <= p < End(c, t, q) && CodeAt(c, t, p)
    ensures !Quiet(c, t, q)
  {}

  lemma SameMarks(c: Splitter, t: seq<Byte>, q: nat, s: State, cache: seq<Byte>, x: Claim)
    requires Marks(c, t, q, s, x)
    ensures Marks(c, t, q, s.(cache := cache), x)
  {}

  /** The scan of a call with the cache empty, and what it pushes. */
  lemma ScannedMarks(c: Splitter, t: seq<Byte>, q: nat, s: State, data: seq<Byte>, k: nat, h: seq<Byte>, x: Claim)
    requires Tracks(c, t, q, s) && Part(t, q, data) && c.Carry() <= |data|
    requires (k, h) == Scan(c, data, 0, s.header) && Marks(c, t, q, s, x) && Ready(c, t, q, x)
    ensures Marks(c, t, q + k, Fill(c, s.(header := h), data[..k]), x)
  {
    hide Split, Join, Fill, Scan, Marks, Ready, View, Splitter.NalType, CodeAt, Bracketed;
    ScanMarks(c, t, q, s, data, k, h, x);
    SplitScanned(c, t, q, s, data, k, h);
    SameView(s, h);
    hide Reads;
    FilledMarks(c, t, q + k, s.(header := h), data[..k], x);
  }

  lemma BodyIs(c: Splitter, s: State, data: seq<Byte>, k: nat, h: seq<Byte>)
    requires WellFormed(c, s) && s.cache == [] && |data| > c.Carry() && (k, h) == Scan(c, data, 0, s.header)
    ensures var r, f, n := Body(c, s, data), Fill(c, s.(header := h), data[..k]), k + 4 + c.HeaderLen();
            if k + c.Carry() < |data| then
              r == Outcome(NextUnit(c, f, HeaderAt(c, data, k), data[k..n]), n) && r.state.cache == []
            else
              r == Outcome(f.(cache := data[k..]), |data|)
  {
    hide Fill, Push, Scan, CodeAt, Splitter.NalType;
  }

  lemma BodyMarks(c: Splitter, t: seq<Byte>, q: nat, s: State, data: seq<Byte>, x: Claim)
    requires Tracks(c, t, q, s) && s.cache == [] && Part(t, q, data) && data != []
    requires Apart(c, t) || Disjoint(c, t)
    requires Marks(c, t, q, s, x) && Ready(c, t, q, x)
    ensures var r := Body(c, s, data);
            |r.state.cache| <= r.taken && Marks(c, t, q + r.taken - |r.state.cache|, r.state, x)
  {
    hide Split, Join, Apart, Disjoint, Fill, Push, Scan, Marks, Ready, View, Splitter.NalType, CodeAt, Bracketed, Part;
    if |data| <= c.Carry() {
      SameMarks(c, t, q, s, data, x);
    } else {
      var (k, h) := Scan(c, data, 0, s.header);
      BodyIs(c, s, data, k, h);
      hide Body, NextUnit, Reads, Sound;
      ScannedMarks(c, t, q, s, data, k, h, x);
      if k + c.Carry() < |data| {
        BodyCutMarks(c, t, q, s, data, k, h, x);
      } else {
        SameMarks(c, t, q + k, Fill(c, s.(header := h), data[..k]), data[k..], x);
      }
    }
  }

  lemma SameView(s: State, h: seq<Byte>)
    ensures View(s.(header := h)) == View(s)
  {}

  lemma FilledMarks(c: Splitter, t: seq<Byte>, q: nat, s: State, d: seq<Byte>, x: Claim)
    requires WellFormed(c, s) && !s.finished && Marks(c, t, q, s, x)
    requires View(s).0 == Split(c, t, q).units && (d != [] ==> q > 0)
    ensures Marks(c, t, q, Fill(c, s, d), x)
  {
    hide Split, Marked, Quiet;
    FillMarked(c, s, d, x);
  }

  /** The unit open before a start code that cuts is pushed, and the next one begun. */
  lemma CutMarked(c: Splitter, t: seq<Byte>, p: nat, f: State, d: seq<Byte>, x: Claim)
    requires WellFormed(c, f) && CodeAt(c, t, p) && c.Cuts(f.header, HeaderAt(c, t, p))
    requires p < p + |d| <= |t| && Reads(c, Split(c, t, p), View(f).0, View(f).1, f.header)
    requires (View(f).1 == [] <==> f.pes.None?) && |d| <= 2 * c.Carry() && (p == 0 ==> |d| <= c.Carry() + 1)
    requires Marks(c, t, p, f, x) && Ready(c, t, p, x)
    ensures Marks(c, t, p + |d|, NextUnit(c, f, HeaderAt(c, t, p), d), x)
  {
    hide Split, Marked, Join, Ready, Splitter.NalType, Splitter.IsKey;
    NothingOpen(c, t, p);
    if f.pes.Some? { assert End(c, t, p) == p; }
    NextMarked(c, f, HeaderAt(c, t, p), d, x);
    TakenMarks(c, t, p, p, p + |d|, NextUnit(c, f, HeaderAt(c, t, p), d), x);
  }

  lemma BodyCutMarks(c: Splitter, t: seq<Byte>, q: nat, s: State, data: seq<Byte>, k: nat, h: seq<Byte>, x: Claim)
    requires Tracks(c, t, q, s) && s.cache == [] && Part(t, q, data) && k + c.Carry() < |data|
    requires (k, h) == Scan(c, data, 0, s.header) && Ready(c, t, q, x)
    requires Marks(c, t, q + k, Fill(c, s.(header := h), data[..k]), x)
    ensures var n := k + 4 + c.HeaderLen();
            Marks(c, t, q + n, NextUnit(c, Fill(c, s.(header := h), data[..k]), HeaderAt(c, data, k), data[k..n]), x)
  {
    hide Split, Join, Fill, NextUnit, Marks, Ready, Splitter.NalType, Splitter.IsKey, Bracketed, Apart, Disjoint;
    var n := k + 4 + c.HeaderLen();
    var f := Fill(c, s.(header := h), data[..k]);
    SplitScanned(c, t, q, s, data, k, h);
    FillSound(c, s, h, data[..k], f);
    CodeShift(c, t, q, data, k);
    PartReaches(t, q, data, n);
    ReadyOn(c, t, q, q + k, x);
    hide Scan, View, Sound;
    CutMarked(c, t, q + k, f, data[k..n], x);
  }

  /** A window that finds a start code. */
  lemma HitMarks(c: Splitter, t: seq<Byte>, q: nat, s: State, w: seq<Byte>, k: nat, x: Claim)
    requires Tracks(c, t, q, s) && s.pes.Some? && Part(t, q, w) && CodeAt(c, w, k) && |w| <= 2 * c.Carry()
    requires forall j: nat :: j < k ==> !CodeAt(c, w, j)
    requires |s.pes.value| + Needed(c, s, w, k) <= MAX_PES
    requires Marks(c, t, q, s, x) && Ready(c, t, q, x)
    ensures Marks(c, t, q + |w|, WindowHit(c, s, w, k), x)
  {
    hide Split, Join, Marks, Ready, View, Sound, Reads, Splitter.NalType, Splitter.IsKey, Quiet, Bracketed;
    HitBehind(c, t, q, s);
    PartReaches(t, q, w, k);
    ReadyOn(c, t, q, q + k, x);
    CodeShift(c, t, q, w, k);
    if c.Cuts(s.header, HeaderAt(c, w, k)) {
      HitCutMarks(c, t, q, s, w, k, x);
    } else {
      NoCutCommits(c, s, w, k);
      MarksHave(c, t, q, s, x);
      TakenMarks(c, t, q + k, q + k, q + |w|, WindowHit(c, s, w, k), x);
    }
  }

  lemma MarksHave(c: Splitter, t: seq<Byte>, q: nat, s: State, x: Claim)
    requires Marks(c, t, q, s, x)
    ensures Marked(s.pushed, x)
  {}

  lemma HitBehind(c: Splitter, t: seq<Byte>, q: nat, s: State)
    requires Tracks(c, t, q, s) && s.pes.Some?
    ensures 0 < q <= |t|
  {
    SomethingOpen(s);
    NothingOpen(c, t, q);
  }

  lemma WindowCodeless(c: Splitter, t: seq<Byte>, q: nat, w: seq<Byte>, k: nat)
    requires Part(t, q, w) && k + c.Carry() <= |w| && forall j: nat :: j < k ==> !CodeAt(c, w, j)
    ensures q + k <= |t| && Codeless(c, t, q, q + k)
  {
    forall j: nat | q <= j < q + k ensures !CodeAt(c, t, j) {
      CodeShift(c, t, q, w, j - q);
    }
  }

  lemma HitCutMarks(c: Splitter, t: seq<Byte>, q: nat, s: State, w: seq<Byte>, k: nat, x: Claim)
    requires Tracks(c, t, q, s) && s.pes.Some? && Part(t, q, w) && CodeAt(c, w, k) && |w| <= 2 * c.Carry()
    requires forall j: nat :: j < k ==> !CodeAt(c, w, j)
    requires |s.pes.value| + k <= MAX_PES && c.Cuts(s.header, HeaderAt(c, w, k)) && 0 < q
    requires Marks(c, t, q, s, x) && Ready(c, t, q + k, x)
    ensures Marks(c, t, q + |w|, WindowHit(c, s, w, k), x)
  {
    hide Split, Join, Marks, Ready, Sound, Splitter.NalType, Splitter.IsKey, Quiet, Bracketed;
    var f := s.(pes := Some(s.pes.value + w[..k]));
    WritesAll(s.pes.value, w[..k]);
    assert WindowHit(c, s, w, k) == NextUnit(c, f.(finished := true), HeaderAt(c, w, k), w[k..])
        == NextUnit(c, f, HeaderAt(c, w, k), w[k..]);
    QuietPart(c, t, q, w, k);
    CodeShift(c, t, q, w, k);
    SomethingOpen(s);
    Assoc(Join(s.pushed).1, s.pes.value, w[..k]);
    MarksOn(c, t, q, s, f, k, w, x);
    CutMarked(c, t, q + k, f, w[k..], x);
  }

  /** Bytes without a start code change no mark. */
  lemma MarksOn(c: Splitter, t: seq<Byte>, q: nat, s: State, f: State, k: nat, w: seq<Byte>, x: Claim)
    requires Marks(c, t, q, s, x) && f.header == s.header && f.pushed == s.pushed && q > 0
    requires Part(t, q, w) && k + c.Carry() <= |w| && forall j: nat :: j < k ==> !CodeAt(c, w, j)
    ensures Marks(c, t, q + k, f, x)
  {
    hide Split, Quiet, Marked;
    WindowCodeless(c, t, q, w, k);
    CalmStretch(c, t, q, q + k);
  }

  lemma FlushMarks(c: Splitter, t: seq<Byte>, q: nat, s: State, w: seq<Byte>, x: Claim)
    requires Tracks(c, t, q, s) && s.pes.Some? && Marks(c, t, q, s, x)
    requires |w| == |s.cache| + c.Carry() && Part(t, q, w)
    requires forall j: nat :: j < |s.cache| ==> !CodeAt(c, w, j)
    ensures Marks(c, t, q + |s.cache|, FlushCache(c, s), x)
  {
    hide Split, Quiet, Marks, Fill, Splitter.NalType;
    HitBehind(c, t, q, s);
    MarksOn(c, t, q, s, s, |s.cache|, w, x);
    WindowCodeless(c, t, q, w, |s.cache|);
    CalmStretch(c, t, q, q + |s.cache|);
    FilledMarks(c, t, q + |s.cache|, s, s.cache, x);
    SameMarks(c, t, q + |s.cache|, Fill(c, s, s.cache), [], x);
  }

  /** One call. */
  lemma FrameMarks(c: Splitter, t: seq<Byte>, q: nat, s: State, data: seq<Byte>, x: Claim)
    requires Tracks(c, t, q, s) && Next(c, t, q, s, data) && data != [] && OnTime(c, s, data)
    requires s.cache == [] || |data| >= c.Carry()
    requires WindowFits(c, s, data) && Marks(c, t, q, s, x) && Ready(c, t, q, x)
    ensures var r := Frame(c, s, data);
            && |r.state.cache| <= |s.cache| + r.taken
            && Marks(c, t, q + |s.cache| + r.taken - |r.state.cache|, r.state, x)
  {
    hide Split, View, Sound, CodeAt, Apart, WindowHit, FlushCache, Body, Splitter.NalType, Marks, Ready;
    if |s.cache| + |data| <= c.Carry() {
      SameMarks(c, t, q, s, s.cache + data, x);
    } else if s.cache == [] {
      BodyMarks(c, t, q, s, data, x);
    } else {
      WindowIs(c, t, q, s, data);
      var w := Window(c, s.cache, data);
      var k := FindCode(c, w, 0);
      if k < |w| - c.Carry() {
        HitMarks(c, t, q, s, w, k, x);
      } else {
        FlushTracks(c, t, q, s, w);
        FlushMarks(c, t, q, s, w, x);
        ReadyOn(c, t, q, q + |s.cache|, x);
        BodyMarks(c, t, q + |s.cache|, FlushCache(c, s), data, x);
      }
    }
  }
}
