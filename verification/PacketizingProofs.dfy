/** What one call of a packetizer keeps: every byte, exactly when it finds room, and
    the brackets around its packets. */
module PacketizingProofs {
  import opened Bytes
  import opened AccessUnits
  import opened Packetizing

  // ----- bytes -----

  /** The pending packet is not empty, and there is one once anything was pushed. */
  predicate Loaded(s: State) {
    && (s.pes.Some? ==> s.pes.value != [])
    && (s.pes.None? ==> s.pushed == [])
  }

  lemma DataSnoc(ps: seq<Packet>, p: Packet)
    ensures Data(ps + [p]) == Data(ps) + p.data
  {
    assert (ps + [p])[..|ps|] == ps;
  }

  lemma PushCommits(c: Splitter, s: State)
    requires WellFormed(c, s)
    ensures Committed(Push(c, s)) == Committed(s)
  {
    if s.pes.Some? {
      DataSnoc(s.pushed, Packet(s.first, s.finished, c.IsKey(c.NalType(s.header)), s.pes.value));
      NilRight(Committed(s));
    }
  }

  lemma PendingCommits(s: State, d: seq<Byte>)
    ensures Committed(s.(pes := Some(Pending(s) + d))) == Committed(s) + d
  {
    Assoc(Data(s.pushed), Pending(s), d);
  }

  /** The copy loop commits its bytes and no others. */
  lemma {:induction false} FillCommits(c: Splitter, s: State, d: seq<Byte>)
    requires WellFormed(c, s) && (s.pes.Some? ==> s.pes.value != [])
    ensures var r := Fill(c, s, d);
            && Committed(r) == Committed(s) + d
            && (r.pes.Some? ==> r.pes.value != []) && (d == [] ==> r == s)
    decreases |d|, if s.pes.Some? then 1 else 0
  {
    hide Data, Splitter.NalType;
    if d == [] {
      NilRight(Committed(s));
    } else {
      var w := Room(Pending(s), d);
      var t := s.(pes := Some(Pending(s) + d[..w]));
      PendingCommits(s, d[..w]);
      if w < |d| {
        PushCommits(c, t);
        hide Committed;
        FillCommits(c, Push(c, t), d[w..]);
        Halves(Committed(s), d, w);
      } else {
        Whole(d);
      }
    }
  }

  lemma FlushCommits(c: Splitter, s: State)
    requires WellFormed(c, s) && Loaded(s) && s.pes.Some?
    ensures Loaded(FlushCache(c, s)) && Committed(FlushCache(c, s)) == Committed(s) + s.cache
  {
    hide Data, Fill;
    FillCommits(c, s, s.cache);
  }

  lemma NextUnitCommits(c: Splitter, s: State, header: seq<Byte>, d: seq<Byte>)
    requires WellFormed(c, s) && |header| == c.HeaderLen() && 0 < |d| <= MAX_PES
    ensures var r := NextUnit(c, s, header, d); Loaded(r) && r.cache == [] && Committed(r) == Committed(s) + d
  {
    hide Data, Splitter.NalType;
    var u := s.(finished := true);
    assert Committed(u) == Committed(s);
    if s.pes.Some? { PushCommits(c, u); }
    var ended := if s.pes.Some? then Push(c, u) else s;
    NilRight(Data(ended.pushed));
  }

  lemma WritesAll(pes: seq<Byte>, d: seq<Byte>)
    requires |pes| + |d| <= MAX_PES
    ensures Write(pes, d) == pes + d
  {
    Whole(d);
  }

  /** The bytes of the window that must fit the pending packet. */
  function Needed(c: Splitter, s: State, w: seq<Byte>, i: nat): nat
    requires WellFormed(c, s) && CodeAt(c, w, i)
  {
    if c.Cuts(s.header, HeaderAt(c, w, i)) then i else |w|
  }

  /** A window hit that ends the access unit. */
  lemma CutCommits(c: Splitter, s: State, w: seq<Byte>, i: nat)
    requires WellFormed(c, s) && Loaded(s) && CodeAt(c, w, i) && |w| <= 2 * c.Carry()
    requires s.pes.Some? || (i == 0 && BeginsCut(c, s, w))
    requires c.Cuts(s.header, HeaderAt(c, w, i)) && |Pending(s)| + i <= MAX_PES
    ensures Loaded(WindowHit(c, s, w, i)) && Committed(WindowHit(c, s, w, i)) == Committed(s) + w
  {
    hide Data, Splitter.NalType;
    var before := if s.pes.Some? then s.(pes := Some(Pending(s) + w[..i])) else s;
    if s.pes.Some? {
      PendingCommits(s, w[..i]);
      WritesAll(s.pes.value, w[..i]);
    } else {
      NilRight(Committed(s));
    }
    NextUnitCommits(c, before.(finished := true), HeaderAt(c, w, i), w[i..]);
    Halves(Committed(s), w, i);
  }

  /** A window hit inside an access unit. */
  lemma NoCutCommits(c: Splitter, s: State, w: seq<Byte>, i: nat)
    requires WellFormed(c, s) && s.pes.Some? && CodeAt(c, w, i) && |w| <= 2 * c.Carry()
    requires !c.Cuts(s.header, HeaderAt(c, w, i)) && |s.pes.value| + |w| <= MAX_PES
    ensures WindowHit(c, s, w, i)
         == s.(header := HeaderAt(c, w, i), cache := [], pes := Some(s.pes.value + w))
    ensures Loaded(WindowHit(c, s, w, i)) && Committed(WindowHit(c, s, w, i)) == Committed(s) + w
  {
    hide Data, Splitter.NalType;
    WritesAll(s.pes.value, w[..i]);
    WritesAll(s.pes.value + w[..i], w[i..]);
    Halves(s.pes.value, w, i);
    PendingCommits(s, w);
  }

  /** When the room is missing the window's bytes are cut short. */
  lemma HitLoses(c: Splitter, s: State, w: seq<Byte>, i: nat)
    requires WellFormed(c, s) && Loaded(s) && s.pes.Some? && CodeAt(c, w, i) && |w| <= 2 * c.Carry()
    requires |s.pes.value| + Needed(c, s, w, i) > MAX_PES
    ensures Loaded(WindowHit(c, s, w, i))
    ensures |Committed(WindowHit(c, s, w, i))| < |Committed(s)| + |w|
  {
    hide Splitter.NalType;
    var n := Room(s.pes.value, w[..i]);
    var before := s.(pes := Some(s.pes.value + w[..i][..n]));
    PendingCommits(s, w[..i][..n]);
    if c.Cuts(s.header, HeaderAt(c, w, i)) {
      NextUnitCommits(c, before.(finished := true), HeaderAt(c, w, i), w[i..]);
    }
  }

  /** The pending packet has room for the bytes the window adds to it. */
  predicate WindowFits(c: Splitter, s: State, data: seq<Byte>)
    requires WellFormed(c, s) && data != [] && !NullWrite(c, s, data)
  {
    if |s.cache| + |data| <= c.Carry() || s.cache == [] || s.pes.None? then true
    else
      var w := Window(c, s.cache, data);
      var i := FindCode(c, w, 0);
      i < |w| - c.Carry() ==> |s.pes.value| + Needed(c, s, w, i) <= MAX_PES
  }

  lemma BodyConserves(c: Splitter, s: State, data: seq<Byte>)
    requires WellFormed(c, s) && Loaded(s) && s.cache == [] && data != []
    ensures var r := Body(c, s, data);
            && Loaded(r.state)
            && Committed(r.state) + r.state.cache == Committed(s) + data[..r.taken]
  {
    hide Data, Fill, NextUnit, Splitter.NalType;
    if |data| > c.Carry() {
      var (k, h) := Scan(c, data, 0, s.header);
      var s' := s.(header := h);
      var filled := Fill(c, s', data[..k]);
      FillCommits(c, s', data[..k]);
      if k == |data| - c.Carry() {
        JoinSlices(Committed(s), data, k, |data|);
      } else {
        var n := k + 4 + c.HeaderLen();
        NextUnitCommits(c, filled, HeaderAt(c, data, k), data[k..n]);
        JoinSlices(Committed(s), data, k, n);
        NilRight(Committed(s) + data[..n]);
      }
    }
  }

  /** The window finds a start code in this call. */
  predicate Hits(c: Splitter, s: State, data: seq<Byte>) {
    && s.cache != [] && |s.cache| + |data| > c.Carry()
    && var w := Window(c, s.cache, data); FindCode(c, w, 0) < |w| - c.Carry()
  }

  /** The call `o` kept every byte it took, in order. */
  ghost predicate Keeps(s: State, data: seq<Byte>, o: Outcome)
    requires o.taken <= |data|
  {
    Committed(o.state) + o.state.cache == Committed(s) + s.cache + data[..o.taken]
  }

  ghost predicate Loses(s: State, o: Outcome) {
    |Committed(o.state)| + |o.state.cache| < |Committed(s)| + |s.cache| + o.taken
  }

  lemma HitCall(c: Splitter, s: State, data: seq<Byte>)
    requires WellFormed(c, s) && Loaded(s) && data != [] && !NullWrite(c, s, data) && Hits(c, s, data)
    ensures var r := Frame(c, s, data);
            Loaded(r.state) && if WindowFits(c, s, data) then Keeps(s, data, r) else Loses(s, r)
  {
    hide Data, Loaded, WindowHit, Splitter.NalType;
    var w := Window(c, s.cache, data);
    var i := FindCode(c, w, 0);
    var r := WindowHit(c, s, w, i);
    NilRight(Committed(r));
    if WindowFits(c, s, data) {
      if c.Cuts(s.header, HeaderAt(c, w, i)) { CutCommits(c, s, w, i); } else { NoCutCommits(c, s, w, i); }
      assert Committed(s) + w == Committed(s) + s.cache + data[..Min(|data|, c.Carry())];
    } else {
      HitLoses(c, s, w, i);
    }
  }

  lemma QuietCall(c: Splitter, s: State, data: seq<Byte>)
    requires WellFormed(c, s) && Loaded(s) && data != [] && !NullWrite(c, s, data)
    requires !Hits(c, s, data)
    ensures var r := Frame(c, s, data); Keeps(s, data, r) && Loaded(r.state)
  {
    hide Data, Splitter.NalType, Body, FlushCache;
    if |s.cache| + |data| <= c.Carry() {
      Assoc(Committed(s), s.cache, data);
      Whole(data);
    } else {
      var t := if s.cache == [] then s else FlushCache(c, s);
      if s.cache == [] { NilRight(Committed(s)); } else { FlushCommits(c, s); }
      BodyConserves(c, t, data);
    }
  }

  /** Every call that does not write through the null packet keeps every byte, in order,
      if and only if the pending packet has room when the window finds a start code. */
  lemma FrameConserves(c: Splitter, s: State, data: seq<Byte>)
    requires WellFormed(c, s) && Loaded(s) && data != [] && !NullWrite(c, s, data)
    ensures var r := Frame(c, s, data);
            && (Keeps(s, data, r) <==> WindowFits(c, s, data))
            && (!WindowFits(c, s, data) ==> Loses(s, r))
            && Loaded(r.state)
  {
    if Hits(c, s, data) { HitCall(c, s, data); } else { QuietCall(c, s, data); }
  }

  /** The scan over bytes without a start code runs to its end. */
  lemma {:induction false} ScanQuiet(c: Splitter, d: seq<Byte>, k: nat, header: seq<Byte>)
    requires k + c.Carry() <= |d| && |header| == c.HeaderLen()
    requires forall j: nat :: k <= j < |d| - c.Carry() ==> !CodeAt(c, d, j)
    ensures Scan(c, d, k, header) == (|d| - c.Carry(), header)
    decreases |d| - k
  {
    if k + c.Carry() < |d| { ScanQuiet(c, d, k + 1, header); }
  }

  // ----- brackets -----

  /** The packets so far are bracketed and the pending one is flagged to fit. */
  ghost predicate Lined(s: State) {
    && Bracketed(s.pushed)
    && s.first == AtBoundary(s.pushed)
    && !s.finished
  }

  ghost predicate Sound(s: State) {
    Lined(s) && Loaded(s)
  }

  /** Complete units, and the open unit with the pending packet. */
  function View(s: State): (seq<seq<Byte>>, seq<Byte>) {
    (Join(s.pushed).0, Join(s.pushed).1 + Pending(s))
  }

  /** `r` is `s` with `d` added to its open unit. */
  ghost predicate Adds(s: State, d: seq<Byte>, r: State) {
    Lined(r) && View(r) == (View(s).0, View(s).1 + d)
  }

  lemma AddsTwice(s: State, d: seq<Byte>, t: State, e: seq<Byte>, r: State, de: seq<Byte>)
    requires Adds(s, d, t) && Adds(t, e, r) && de == d + e
    ensures Adds(s, de, r)
  {
    hide Join, Lined;
    Assoc(View(s).1, d, e);
  }

  lemma AddsNothing(s: State, r: State)
    requires Lined(r) && View(r) == View(s)
    ensures Adds(s, [], r)
  {
    NilRight(View(s).1);
  }

  lemma PendingAdds(s: State, d: seq<Byte>)
    requires Lined(s)
    ensures Adds(s, d, s.(pes := Some(Pending(s) + d)))
  {
    hide Join, Bracketed;
    Assoc(Join(s.pushed).1, Pending(s), d);
  }

  /** One more packet, in bracketed order. */
  lemma JoinSnoc(ps: seq<Packet>, p: Packet)
    requires Bracketed(ps) && p.first == AtBoundary(ps)
    ensures Bracketed(ps + [p]) && AtBoundary(ps + [p]) == p.finished
    ensures Join(ps + [p]) == if p.finished then (Join(ps).0 + [Join(ps).1 + p.data], [])
                              else (Join(ps).0, Join(ps).1 + p.data)
  {
    assert (ps + [p])[..|ps|] == ps;
    if p.first { assert [] + p.data == p.data; }
  }

  lemma PushUnfinished(c: Splitter, s: State)
    requires WellFormed(c, s) && Lined(s)
    ensures Adds(s, [], Push(c, s))
  {
    var r := Push(c, s);
    if s.pes.Some? {
      JoinSnoc(s.pushed, Packet(s.first, false, c.IsKey(c.NalType(s.header)), s.pes.value));
      NilRight(Join(r.pushed).1);
    }
    AddsNothing(s, r);
  }

  lemma PushFinished(c: Splitter, s: State)
    requires WellFormed(c, s) && Lined(s) && s.pes.Some?
    ensures var r := Push(c, s.(finished := true));
            && Bracketed(r.pushed) && AtBoundary(r.pushed)
            && Join(r.pushed) == (View(s).0 + [View(s).1], [])
  {
    JoinSnoc(s.pushed, Packet(s.first, true, c.IsKey(c.NalType(s.header)), s.pes.value));
  }

  /** The copy loop appends its bytes to the open unit and to nothing else. */
  lemma {:induction false} FillAdds(c: Splitter, s: State, d: seq<Byte>)
    requires WellFormed(c, s) && Lined(s)
    requires s.pes.Some? ==> s.pes.value != []
    ensures Adds(s, d, Fill(c, s, d))
    decreases |d|, if s.pes.Some? then 1 else 0
  {
    hide Join, Bracketed, Splitter.NalType;
    if d == [] {
      AddsNothing(s, s);
    } else {
      var pes := Pending(s);
      var w := Room(pes, d);
      var t := s.(pes := Some(pes + d[..w]));
      PendingAdds(s, d[..w]);
      if w < |d| {
        var u := Push(c, t);
        PushUnfinished(c, t);
        FillAdds(c, u, d[w..]);
        Slices(d, 0, w, |d|);
        assert d[0..|d|] == d && d[0..w] == d[..w] && d[w..|d|] == d[w..];
        AddsTwice(t, [], u, d[w..], Fill(c, u, d[w..]), d[w..]);
        AddsTwice(s, d[..w], t, d[w..], Fill(c, u, d[w..]), d);
      } else {
        Whole(d);
      }
    }
  }

  lemma FlushAdds(c: Splitter, s: State)
    requires WellFormed(c, s) && Sound(s) && s.pes.Some?
    ensures Sound(FlushCache(c, s)) && Adds(s, s.cache, FlushCache(c, s))
  {
    hide Join, Fill, Bracketed;
    FillAdds(c, s, s.cache);
    FillCommits(c, s, s.cache);
  }

  lemma NextUnitBegins(c: Splitter, s: State, header: seq<Byte>, d: seq<Byte>)
    requires WellFormed(c, s) && Lined(s) && |header| == c.HeaderLen() && 0 < |d| <= MAX_PES
    requires s.pes.None? ==> s.pushed == []
    ensures var r := NextUnit(c, s, header, d);
            && Sound(r)
            && View(r) == (if s.pes.Some? then View(s).0 + [View(s).1] else View(s).0, d)
  {
    hide Bracketed, Splitter.NalType;
    if s.pes.Some? { PushFinished(c, s); }
    assert [] + d == d;
  }

  /** A window hit that ends the access unit: the bytes before the start code close
      it, if they fit, and the rest of the window begins the next. */
  lemma HitCuts(c: Splitter, s: State, w: seq<Byte>, i: nat)
    requires WellFormed(c, s) && Sound(s) && s.pes.Some? && CodeAt(c, w, i) && |w| <= 2 * c.Carry()
    requires c.Cuts(s.header, HeaderAt(c, w, i)) && |s.pes.value| + i <= MAX_PES
    ensures var r := WindowHit(c, s, w, i);
            Sound(r) && View(r) == (View(s).0 + [View(s).1 + w[..i]], w[i..])
    ensures View(s).1 + w[..i] != []
  {
    assert View(s).1 + w[..i] != [];
    hide View, Bracketed, Splitter.NalType;
    var before := s.(pes := Some(s.pes.value + w[..i]));
    PendingAdds(s, w[..i]);
    WritesAll(s.pes.value, w[..i]);
    NextUnitBegins(c, before, HeaderAt(c, w, i), w[i..]);
  }

  /** A window hit inside an access unit: the whole window joins it, if it fits. */
  lemma HitContinues(c: Splitter, s: State, w: seq<Byte>, i: nat)
    requires WellFormed(c, s) && Sound(s) && s.pes.Some? && CodeAt(c, w, i) && |w| <= 2 * c.Carry()
    requires !c.Cuts(s.header, HeaderAt(c, w, i)) && |s.pes.value| + |w| <= MAX_PES
    ensures var r := WindowHit(c, s, w, i);
            Sound(r) && View(r) == (View(s).0, View(s).1 + w)
  {
    hide Join, Bracketed, Splitter.NalType, WindowHit;
    NoCutCommits(c, s, w, i);
    PendingAdds(s, w);
  }

  lemma HitLined(c: Splitter, s: State, w: seq<Byte>, i: nat)
    requires WellFormed(c, s) && Sound(s) && s.pes.Some? && CodeAt(c, w, i) && |w| <= 2 * c.Carry()
    ensures Sound(WindowHit(c, s, w, i))
  {
    hide Join, Bracketed, Splitter.NalType;
    if c.Cuts(s.header, HeaderAt(c, w, i)) {
      NextUnitBegins(c, s.(pes := Some(Write(s.pes.value, w[..i]))), HeaderAt(c, w, i), w[i..]);
    }
  }

  lemma BodyLined(c: Splitter, s: State, data: seq<Byte>)
    requires WellFormed(c, s) && Sound(s) && s.cache == [] && data != []
    ensures Sound(Body(c, s, data).state)
  {
    hide Join, Bracketed, Fill, NextUnit, Splitter.NalType;
    if |data| > c.Carry() {
      var (k, h) := Scan(c, data, 0, s.header);
      var s' := s.(header := h);
      FillAdds(c, s', data[..k]);
      FillCommits(c, s', data[..k]);
      if k < |data| - c.Carry() {
        NextUnitBegins(c, Fill(c, s', data[..k]), HeaderAt(c, data, k), data[k..k + 4 + c.HeaderLen()]);
      }
    }
  }

  /** The first packet is not made by a window: there is one already, or the cache is
      empty, or it takes the whole chunk. */
  predicate OnTime(c: Splitter, s: State, data: seq<Byte>) {
    s.pes.Some? || s.cache == [] || |s.cache| + |data| <= c.Carry()
  }

  /** Whatever is lost, every such call keeps the brackets. */
  lemma FrameLined(c: Splitter, s: State, data: seq<Byte>)
    requires WellFormed(c, s) && Sound(s) && data != [] && OnTime(c, s, data)
    ensures !NullWrite(c, s, data) && Sound(Frame(c, s, data).state)
  {
    hide Join, Bracketed, Body, FlushCache, WindowHit, Splitter.NalType;
    if |s.cache| + |data| > c.Carry() {
      if Hits(c, s, data) {
        var w := Window(c, s.cache, data);
        HitLined(c, s, w, FindCode(c, w, 0));
      } else if s.cache == [] {
        BodyLined(c, s, data);
      } else {
        FlushAdds(c, s);
        BodyLined(c, FlushCache(c, s), data);
      }
    }
  }
}
