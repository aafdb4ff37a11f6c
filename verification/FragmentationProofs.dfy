/** What a receiver of the H.264 fragments gets back. */
module FragmentationProofs {
  import opened Bytes
  import opened AccessUnits
  import opened FragmentationUnits

  /** The next fragment begins a NAL unit. */
  ghost predicate AtStart(fs: seq<Fragment>)
    requires Readable(fs)
  {
    fs == [] || EndBit(fs[|fs| - 1])
  }

  ghost predicate Sound(m: nat, s: State) {
    && WellFormed(m, s)
    && Fragmented(m, s.sent)
    && s.first == AtStart(s.sent) && !s.marker
    && (s.pending.None? ==> s.sent == [])
  }

  function PendingBytes(s: State): seq<Byte> {
    if s.pending.None? then [] else (if s.first then StartCode(s.header) else []) + s.pending.value
  }

  /** The complete NAL units, and the open one with the pending fragment. */
  ghost function View(s: State): (seq<seq<Byte>>, seq<Byte>)
    requires Readable(s.sent)
  {
    (Nals(s.sent).0, Nals(s.sent).1 + PendingBytes(s))
  }

  // ----- one fragment -----

  /** The two-byte header carries the flags and the whole NAL header. */
  lemma HeaderBits(f: Fragment, h: Byte, first: bool, marker: bool, d: seq<Byte>)
    requires f == Fragment(first, marker, [Indicator(h), FuHeader(first, marker, h % 32)] + d)
    ensures StartBit(f) == first && EndBit(f) == marker && NalHeader(f) == h && f.payload[2..] == d
    ensures f.payload[0] % 32 == 28
  {}

  lemma NalsSnoc(m: nat, fs: seq<Fragment>, f: Fragment)
    requires Fragmented(m, fs) && |f.payload| >= 2 && |f.payload| <= m
    requires f.first == StartBit(f) == AtStart(fs) && f.marker == EndBit(f)
    requires !f.marker ==> |f.payload| == m
    ensures Fragmented(m, fs + [f]) && AtStart(fs + [f]) == f.marker
    ensures Nals(fs + [f]) == if f.marker then (Nals(fs).0 + [Nals(fs).1 + Rebuilt(f)], [])
                              else (Nals(fs).0, Nals(fs).1 + Rebuilt(f))
  {
    hide Rebuilt, StartBit, EndBit, Fragmented;
    FragmentedMore(m, fs, f);
    assert (fs + [f])[..|fs|] == fs && (fs + [f])[|fs|] == f;
    NilLeft(Rebuilt(f));
  }

  lemma FragmentedMore(m: nat, fs: seq<Fragment>, f: Fragment)
    requires Fragmented(m, fs) && |f.payload| >= 2 && |f.payload| <= m
    requires f.first == StartBit(f) == AtStart(fs) && f.marker == EndBit(f)
    requires !f.marker ==> |f.payload| == m
    ensures Fragmented(m, fs + [f]) && AtStart(fs + [f]) == f.marker
  {
    hide StartBit, EndBit;
  }

  /** The pending fragment is pushed; short only when it ends its NAL unit. */
  lemma PushSends(m: nat, s: State, marker: bool)
    requires Fragmented(m, s.sent) && WellFormed(m, s) && s.first == AtStart(s.sent)
    requires s.pending.Some? && (!marker ==> |s.pending.value| + 2 == m)
    ensures var r := Push(m, s.(marker := marker));
            && Fragmented(m, r.sent) && AtStart(r.sent) == marker
            && Nals(r.sent) == if marker then (View(s).0 + [View(s).1], []) else View(s)
  {
    var f := Push(m, s.(marker := marker)).sent[|s.sent|];
    HeaderBits(f, s.header, s.first, marker, s.pending.value);
    NalsSnoc(m, s.sent, f);
  }

  // ----- the copy loops -----

  lemma PendingGrows(m: nat, s: State, d: seq<Byte>)
    requires Fragmented(m, s.sent) && s.pending.Some?
    ensures View(s.(pending := Some(s.pending.value + d))) == (View(s).0, View(s).1 + d)
  {
    var lead := if s.first then StartCode(s.header) else [];
    Assoc(lead, s.pending.value, d);
    Assoc(Nals(s.sent).1, PendingBytes(s), d);
  }

  /** The copy loops append their bytes to the open NAL unit and to nothing else;
      every fragment they push is full. */
  lemma {:induction false} FillAdds(m: nat, s: State, d: seq<Byte>)
    requires Fragmented(m, s.sent) && WellFormed(m, s) && s.first == AtStart(s.sent) && s.pending.Some? && !s.marker
    ensures var r := Fill(m, s, d);
            && Fragmented(m, r.sent) && r.first == AtStart(r.sent) && !r.marker
            && View(r) == (View(s).0, View(s).1 + d)
    decreases |d|, |s.pending.value|
  {
    hide Nals, Fragmented, StartBit, EndBit;
    if d == [] {
      NilRight(View(s).1);
    } else {
      var p := s.pending.value;
      var w := Min(|d|, m - 2 - |p|);
      var t := s.(pending := Some(p + d[..w]));
      PendingGrows(m, s, d[..w]);
      if w < |d| {
        PushSends(m, t, false);
        assert t.(marker := false) == t;
        var u := Push(m, t).(pending := Some([]));
        NilRight(Nals(u.sent).1);
        assert PendingBytes(u) == [];
        FillFresh(m, Push(m, t), d[w..]);
        FillAdds(m, u, d[w..]);
        Halves(View(s).1, d, w);
      } else {
        Whole(d);
      }
    }
  }

  lemma FillNone(m: nat, s: State)
    requires WellFormed(m, s)
    ensures Fill(m, s, []) == s
  {}

  /** Starting a payload with the first byte that needs it, or just before. */
  lemma FillFresh(m: nat, s: State, d: seq<Byte>)
    requires WellFormed(m, s) && s.pending.None? && d != []
    ensures Fill(m, s, d) == Fill(m, s.(pending := Some([])), d)
  {}

  /** A NAL unit ends and the next one begins. */
  lemma NextNalBegins(m: nat, s: State, h: Byte, d: seq<Byte>)
    requires Fragmented(m, s.sent) && WellFormed(m, s) && s.first == AtStart(s.sent) && |d| <= 3 && !s.marker
    requires s.pending.None? ==> s.sent == []
    ensures var r := NextNal(m, s, h, d);
            && Sound(m, r)
            && View(r) == (if s.pending.Some? then View(s).0 + [View(s).1] else View(s).0,
                              StartCode(h) + d)
  {
    hide Fragmented, StartBit, EndBit;
    if s.pending.Some? { PushSends(m, s, true); }
    NilLeft(StartCode(h) + d);
  }

  lemma CodeIs(d: seq<Byte>, k: nat)
    requires CodeAt(NALS, d, k)
    ensures StartCode(d[k + 4]) == d[k..k + 5] && HeaderAt(NALS, d, k) == [d[k + 4]]
  {}

  // ----- one call -----

  lemma FillKeeps(m: nat, s: State, d: seq<Byte>, r: State)
    requires Sound(m, s) && s.pending.Some? && r == Fill(m, s, d)
    ensures Sound(m, r) && r.pending.Some? && View(r) == (View(s).0, View(s).1 + d)
  {
    FillAdds(m, s, d);
  }

  /** The NAL unit that ends before `d[k..]` and the one its start code begins. */
  lemma CutKeeps(m: nat, s: State, d: seq<Byte>, k: nat, e: seq<Byte>, r: State)
    requires Sound(m, s) && s.pending.Some? && CodeAt(NALS, d, k) && |e| <= 3
    requires k + 5 + |e| <= |d| && e == d[k + 5..k + 5 + |e|]
    requires r == NextNal(m, Fill(m, s, d[..k]), d[k + 4], e)
    ensures Sound(m, r) && r.cache == []
    ensures View(r) == (View(s).0 + [View(s).1 + d[..k]], d[k..k + 5 + |e|])
  {
    hide Nals, Fill, NextNal, Fragmented, View;
    var n := k + 5 + |e|;
    var filled := Fill(m, s, d[..k]);
    FillKeeps(m, s, d[..k], filled);
    NextNalBegins(m, filled, d[k + 4], e);
    CodeIs(d, k);
    Slices(d, k, k + 5, n);
  }

  lemma HitIs(m: nat, s: State, w: seq<Byte>, i: nat)
    requires WellFormed(m, s) && s.pending.Some? && CodeAt(NALS, w, i) && |w| <= 8
    ensures WindowHit(m, s, w, i) == NextNal(m, Fill(m, s, w[..i]), w[i + 4], w[i + 5..])
  {}

  lemma BodyKeeps(m: nat, s: State, data: seq<Byte>)
    requires Sound(m, s) && s.pending.Some? && s.cache == [] && data != []
    ensures Sound(m, Body(m, s, data).state)
  {
    hide Nals, Fill, NextNal, Fragmented, View, CodeAt, AtStart;
    if |data| > 4 {
      var k := FindCode(NALS, data, 0);
      if k == |data| - 4 {
        FillKeeps(m, s, data[..k], Fill(m, s, data[..k]));
      } else {
        CutKeeps(m, s, data, k, [], NextNal(m, Fill(m, s, data[..k]), data[k + 4], []));
      }
    }
  }

  lemma FormatKeeps(m: nat, s: State, data: seq<Byte>)
    requires Sound(m, s) && s.pending.Some? && data != []
    ensures Sound(m, Format(m, s, data).state)
  {
    hide Nals, Fill, NextNal, Fragmented, Body;
    if |s.cache| + |data| > 4 {
      if s.cache == [] {
        BodyKeeps(m, s, data);
      } else {
        var w := Window(NALS, s.cache, data);
        var i := FindCode(NALS, w, 0);
        if i < |w| - 4 {
          assert w[i + 5..] == w[i + 5..|w|];
          HitIs(m, s, w, i);
          CutKeeps(m, s, w, i, w[i + 5..], WindowHit(m, s, w, i));
        } else {
          FillKeeps(m, s, s.cache, Fill(m, s, s.cache));
          BodyKeeps(m, FlushCache(m, s), data);
        }
      }
    }
  }

  /** The first call, on more bytes than the cache holds. */
  lemma FirstKeeps(m: nat, s: State, data: seq<Byte>)
    requires m >= 5 && s.pending.None? && s.first && !s.marker && s.sent == [] && s.cache == [] && |data| > 4
    ensures Sound(m, Format(m, s, data).state)
  {
    var k := FindCode(NALS, data, 0);
    if k == 0 {
      assert data[..0] == [];
      NextNalBegins(m, s, data[4], []);
    } else {
      var s0 := s.(pending := Some([]));
      FillFresh(m, s, data[..k]);
      assert Format(m, s, data) == Body(m, s0, data);
      BodyKeeps(m, s0, data);
    }
  }
}
