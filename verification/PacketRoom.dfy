/** Where a packetizer runs out of room: how full the pending packet is at each byte of a
    unit, and which streams a window or the last flush finds no room for. */
module PacketRoom {
  import opened Bytes
  import opened AccessUnits
  import opened StreamParts
  import opened Packetizing
  import opened PacketizingProofs

  /** Bytes in the pending packet when `n` bytes of its unit were committed. */
  function Filled(n: nat): nat {
    if n == 0 then 0 else (n - 1) % MAX_PES + 1
  }

  lemma FilledBack(n: nat, d: nat)
    requires d < Filled(n)
    ensures d < n && Filled(n - d) == Filled(n) - d
  {}

  lemma FilledBound(n: nat)
    ensures Filled(n) <= n && Filled(n) <= MAX_PES
  {}

  lemma FilledMore(n: nat, d: nat)
    requires n > 0 && Filled(n) + d <= MAX_PES
    ensures Filled(n + d) == Filled(n) + d
  {}

  lemma FilledFirst(d: nat)
    requires d <= MAX_PES
    ensures Filled(d) == d
  {}

  /** What a window adds to the pending packet: the bytes before a start code that cuts, or
      all. */
  function NeededAt(c: Splitter, h: seq<Byte>, w: seq<Byte>, i: nat): (n: nat)
    requires |h| == c.HeaderLen() && CodeAt(c, w, i)
    ensures n <= |w|
  {
    if c.Cuts(h, HeaderAt(c, w, i)) then i else |w|
  }

  /** The window over the bytes from `q` on finds a start code and no room for what it
      adds. */
  ghost predicate Tight(c: Splitter, t: seq<Byte>, q: nat)
    requires q + 2 * c.Carry() <= |t|
  {
    var r, w := Split(c, t, q), t[q..q + 2 * c.Carry()];
    var i := FindCode(c, w, 0);
    i < c.Carry() && Filled(|r.open|) + NeededAt(c, r.header, w, i) > MAX_PES
  }

  /** Neither any window nor the last flush lacks room. */
  ghost predicate Roomy(c: Splitter, t: seq<Byte>) {
    && (forall q: nat :: q + 2 * c.Carry() <= |t| ==> !Tight(c, t, q))
    && (|t| > c.Carry() ==> Filled(|Split(c, t, |t| - c.Carry()).open|) + c.Carry() <= MAX_PES)
  }

  // ----- the open unit, some bytes earlier -----

  lemma {:induction false} OpenBack(c: Splitter, t: seq<Byte>, a: nat, b: nat)
    requires a <= b <= |t| && |Split(c, t, b).open| > b - a
    ensures |Split(c, t, a).open| == |Split(c, t, b).open| - (b - a)
    ensures forall j: nat :: a <= j < b && CodeAt(c, t, j) ==> !c.Cuts(Split(c, t, j).header, HeaderAt(c, t, j))
    decreases b - a
  {
    hide Splitter.NalType;
    if a < b {
      var r := Split(c, t, b - 1);
      assert r.open != [];
      OpenBack(c, t, a, b - 1);
    }
  }

  lemma {:induction false} OpenBound(c: Splitter, t: seq<Byte>, q: nat)
    requires q <= |t|
    ensures |Split(c, t, q).open| <= q
  {
    if q > 0 { OpenBound(c, t, q - 1); }
  }

  /** A shorter window without room is the end of a whole one without. */
  lemma TightBack(c: Splitter, t: seq<Byte>, q: nat, w: seq<Byte>, i: nat)
    requires Part(t, q, w) && |w| <= 2 * c.Carry() && CodeAt(c, w, i)
    requires forall j: nat :: j < i ==> !CodeAt(c, w, j)
    requires Filled(|Split(c, t, q).open|) + NeededAt(c, Split(c, t, q).header, w, i) > MAX_PES
    ensures var p := q as int + |w| - 2 * c.Carry(); 0 <= p && p + 2 * c.Carry() <= |t| && Tight(c, t, p)
  {
    hide Splitter.NalType, Split, CodeAt, Filled, NeededAt, Alike;
    var d, n := 2 * c.Carry() - |w|, |Split(c, t, q).open|;
    OpenBound(c, t, q);
    assert d < Filled(n);
    FilledBack(n, d);
    OpenBack(c, t, q - d, q);
    NeededBack(c, t, q - d, q, w, i);
    hide Part;
  }

  lemma NeededBack(c: Splitter, t: seq<Byte>, p: nat, q: nat, w: seq<Byte>, i: nat)
    requires Part(t, q, w) && p <= q && q + |w| == p + 2 * c.Carry() && CodeAt(c, w, i)
    requires forall j: nat :: j < i ==> !CodeAt(c, w, j)
    requires forall j: nat :: p <= j < q && CodeAt(c, t, j) ==> !c.Cuts(Split(c, t, j).header, HeaderAt(c, t, j))
    ensures p + 2 * c.Carry() <= |t|
    ensures var v := t[p..p + 2 * c.Carry()];
            var k := FindCode(c, v, 0);
            k < c.Carry() && NeededAt(c, Split(c, t, p).header, v, k) >= NeededAt(c, Split(c, t, q).header, w, i) + (q - p)
  {
    hide Splitter.NalType, Split, CodeAt, Part;
    WiderWindow(c, t, p, q, w, i);
    var v := t[p..p + 2 * c.Carry()];
    var k := FindCode(c, v, 0);
    if k < q - p {
      QuietPart(c, t, p, v, k);
      CodeShift(c, t, p, v, k);
    } else {
      QuietPart(c, t, p, v, q - p);
    }
  }

  lemma WiderWindow(c: Splitter, t: seq<Byte>, p: nat, q: nat, w: seq<Byte>, i: nat)
    requires Part(t, q, w) && p <= q && q + |w| == p + 2 * c.Carry() && CodeAt(c, w, i)
    requires forall j: nat :: j < i ==> !CodeAt(c, w, j)
    ensures p + 2 * c.Carry() <= |t|
    ensures var v := t[p..p + 2 * c.Carry()];
            && Part(t, p, v) && q - p + i < c.Carry() && CodeAt(c, v, q - p + i) && HeaderAt(c, v, q - p + i) == HeaderAt(c, w, i)
            && forall j: nat :: q - p <= j < q - p + i ==> !CodeAt(c, v, j)
  {
    var v := t[p..p + 2 * c.Carry()];
    PartSlice(t, p, v, q - p, |v|);
    assert v[q - p..|v|] == w;
    forall j: nat | q - p <= j < q - p + i ensures !CodeAt(c, v, j) {
      assert !CodeAt(c, w, j - (q - p));
    }
  }

  /** In a roomy stream the packet has room for any window ... */
  lemma WindowRoom(c: Splitter, t: seq<Byte>, q: nat, w: seq<Byte>, i: nat, h: seq<Byte>)
    requires Roomy(c, t) && Part(t, q, w) && |w| <= 2 * c.Carry() && CodeAt(c, w, i)
    requires forall j: nat :: j < i ==> !CodeAt(c, w, j)
    requires |h| == c.HeaderLen() && Alike(c, Split(c, t, q).header, h)
    ensures Filled(|Split(c, t, q).open|) + NeededAt(c, h, w, i) <= MAX_PES
  {
    hide Splitter.NalType, Split, CodeAt, Filled, Tight;
    AlikeNeeds(c, Split(c, t, q).header, h, w, i);
    hide NeededAt;
    if Filled(|Split(c, t, q).open|) + NeededAt(c, h, w, i) > MAX_PES { TightBack(c, t, q, w, i); }
  }

  lemma AlikeNeeds(c: Splitter, g: seq<Byte>, h: seq<Byte>, w: seq<Byte>, i: nat)
    requires |g| == c.HeaderLen() && |h| == c.HeaderLen() && Alike(c, g, h) && CodeAt(c, w, i)
    ensures NeededAt(c, g, w, i) == NeededAt(c, h, w, i)
  {}

  /** ... and for the last bytes. */
  lemma FlushRoom(c: Splitter, t: seq<Byte>, m: nat)
    requires Roomy(c, t) && m <= c.Carry() && m <= |t|
    ensures Filled(|Split(c, t, |t| - m).open|) + m <= MAX_PES
  {
    hide Splitter.NalType, Split, Tight, Filled;
    var n, d := |Split(c, t, |t| - m).open|, c.Carry() - m;
    OpenBound(c, t, |t| - m);
    if Filled(n) + m > MAX_PES {
      FilledBack(n, d);
      OpenBack(c, t, |t| - c.Carry(), |t| - m);
    }
  }

  // ----- how full the packet is -----

  /** The pending packet holds what its unit leaves it. */
  ghost predicate Full(s: State) {
    s.pes.Some? ==> |s.pes.value| == Filled(|View(s).1|)
  }

  /** The copy loop, behind `n` bytes of the unit. */
  lemma {:induction false} FillLength(c: Splitter, s: State, d: seq<Byte>, n: nat)
    requires WellFormed(c, s) && if s.pes.Some? then |s.pes.value| == Filled(n) else n % MAX_PES == 0
    ensures var r := Fill(c, s, d);
            r.pes.Some? ==> |r.pes.value| == Filled(n + |d|)
    decreases |d|, if s.pes.Some? then 1 else 0
  {
    hide Splitter.NalType;
    if d != [] {
      var p := Pending(s);
      var w := Room(p, d);
      if w < |d| {
        FilledWraps(n, w, |p|);
        FillLength(c, Push(c, s.(pes := Some(p + d[..w]))), d[w..], n + w);
      } else {
        FilledPast(n, w, |p|);
      }
    }
  }

  lemma FilledWraps(n: nat, w: nat, p: nat)
    requires p + w == MAX_PES && (p == Filled(n) || (p == 0 && n % MAX_PES == 0))
    ensures (n + w) % MAX_PES == 0
  {}

  lemma FilledPast(n: nat, w: nat, p: nat)
    requires 0 < p + w <= MAX_PES && w > 0 && (p == Filled(n) || (p == 0 && n % MAX_PES == 0))
    ensures Filled(n + w) == p + w
  {}

  lemma FillFull(c: Splitter, s: State, header: seq<Byte>, d: seq<Byte>)
    requires WellFormed(c, s) && Sound(s) && Full(s) && |header| == c.HeaderLen()
    ensures Full(Fill(c, s.(header := header), d))
  {
    hide Fill, Bracketed, Splitter.NalType, Filled;
    FillAdds(c, s.(header := header), d);
    FillLength(c, s.(header := header), d, |View(s).1|);
  }

  lemma NextFull(c: Splitter, s: State, header: seq<Byte>, d: seq<Byte>)
    requires WellFormed(c, s) && Lined(s) && |header| == c.HeaderLen() && 0 < |d| <= MAX_PES
    requires s.pes.None? ==> s.pushed == []
    ensures Full(NextUnit(c, s, header, d))
  {
    hide Join, Bracketed, Splitter.NalType;
    NextUnitBegins(c, s, header, d);
  }

  lemma BodyFull(c: Splitter, s: State, data: seq<Byte>)
    requires WellFormed(c, s) && Sound(s) && Full(s) && s.cache == [] && data != []
    ensures Full(Body(c, s, data).state)
  {
    hide Join, Bracketed, Fill, NextUnit, Filled, Splitter.NalType;
    if |data| > c.Carry() {
      var (k, h) := Scan(c, data, 0, s.header);
      var filled := Fill(c, s.(header := h), data[..k]);
      FillFull(c, s, h, data[..k]);
      if k < |data| - c.Carry() {
        FillAdds(c, s.(header := h), data[..k]);
        FillCommits(c, s.(header := h), data[..k]);
        NextFull(c, filled, HeaderAt(c, data, k), data[k..k + 4 + c.HeaderLen()]);
      }
    }
  }

  lemma HitFull(c: Splitter, s: State, w: seq<Byte>, i: nat)
    requires WellFormed(c, s) && Sound(s) && Full(s) && s.pes.Some? && CodeAt(c, w, i) && |w| <= 2 * c.Carry()
    requires |s.pes.value| + Needed(c, s, w, i) <= MAX_PES
    ensures Full(WindowHit(c, s, w, i))
  {
    hide Join, Bracketed, Splitter.NalType, WindowHit, Filled;
    FilledFirst(|w| - i);
    if c.Cuts(s.header, HeaderAt(c, w, i)) {
      HitCuts(c, s, w, i);
      CutPending(c, s, w, i);
    } else {
      HitContinues(c, s, w, i);
      NoCutCommits(c, s, w, i);
      assert s.pes.value != [];
      FilledMore(|View(s).1|, |w|);
    }
  }

  lemma CutPending(c: Splitter, s: State, w: seq<Byte>, i: nat)
    requires WellFormed(c, s) && s.pes.Some? && CodeAt(c, w, i) && |w| <= 2 * c.Carry()
    requires c.Cuts(s.header, HeaderAt(c, w, i))
    ensures WindowHit(c, s, w, i).pes == Some(w[i..])
  {
    hide Splitter.NalType;
  }

  lemma FlushFull(c: Splitter, s: State)
    requires WellFormed(c, s) && Sound(s) && Full(s) && s.pes.Some?
    ensures Full(FlushCache(c, s))
  {
    hide Join, Bracketed, Fill, Splitter.NalType, Filled;
    FillFull(c, s, s.header, s.cache);
    assert s.(header := s.header) == s;
  }

  lemma FrameFull(c: Splitter, s: State, data: seq<Byte>)
    requires WellFormed(c, s) && Sound(s) && Full(s) && data != [] && OnTime(c, s, data)
    requires !NullWrite(c, s, data) && WindowFits(c, s, data)
    ensures Full(Frame(c, s, data).state)
  {
    hide Join, Bracketed, Body, FlushCache, WindowHit, Filled, Splitter.NalType;
    if |s.cache| + |data| > c.Carry() {
      if Hits(c, s, data) {
        var w := Window(c, s.cache, data);
        HitFull(c, s, w, FindCode(c, w, 0));
      } else if s.cache == [] {
        BodyFull(c, s, data);
      } else {
        FlushFull(c, s);
        FlushAdds(c, s);
        BodyFull(c, FlushCache(c, s), data);
      }
    }
  }
}
