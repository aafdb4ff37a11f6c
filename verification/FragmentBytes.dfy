/** What a receiver of the H.264 fragments puts together again, whatever the flags say. */
module FragmentBytes {
  import opened Bytes
  import opened AccessUnits
  import opened FragmentationUnits
  import opened FragmentationProofs

  function Flat(v: (seq<seq<Byte>>, seq<Byte>)): seq<Byte> {
    Flatten(v.0) + v.1
  }

  /** The byte stream a receiver rebuilds from the fragments, the pending fragment
      and the cache. */
  ghost function Held(s: State): seq<Byte>
    requires Readable(s.sent)
  {
    Flat(View(s)) + s.cache
  }

  /** A fragment that begins a NAL unit finds none open. */
  ghost predicate Kept(m: nat, s: State)
    ensures Kept(m, s) ==> WellFormed(m, s) && Readable(s.sent)
  {
    && WellFormed(m, s) && Readable(s.sent)
    && (s.first ==> Nals(s.sent).1 == [])
    && (s.pending.None? ==> s.sent == [])
  }

  lemma FlatGrows(v: (seq<seq<Byte>>, seq<Byte>), d: seq<Byte>)
    ensures Flat((v.0, v.1 + d)) == Flat(v) + d
  {
    Assoc(Flatten(v.0), v.1, d);
  }

  lemma FlatCloses(v: (seq<seq<Byte>>, seq<Byte>), d: seq<Byte>)
    ensures Flat((v.0 + [v.1], d)) == Flat(v) + d
  {
    FlattenSnoc(v.0, v.1);
  }

  /** A fragment pushed gives the receiver its bytes; one with the end flag closes the
      NAL unit. */
  lemma PushGives(m: nat, s: State)
    requires Kept(m, s) && s.pending.Some?
    ensures var r := Push(m, s);
            && Readable(r.sent) && !r.first
            && Nals(r.sent) == (if s.marker then (View(s).0 + [View(s).1], []) else View(s))
            && Flat(Nals(r.sent)) == Flat(View(s))
  {
    var f := Push(m, s).sent[|s.sent|];
    HeaderBits(f, s.header, s.first, s.marker, s.pending.value);
    var fs := s.sent + [f];
    assert fs[..|s.sent|] == s.sent && fs[|s.sent|] == f;
    assert Rebuilt(f) == PendingBytes(s);
    hide Rebuilt, StartBit, EndBit;
    if s.first { NilLeft(PendingBytes(s)); }
    FlatCloses(View(s), []);
    NilRight(Flat(View(s)));
  }

  lemma PendingGives(s: State, d: seq<Byte>)
    requires Readable(s.sent) && s.pending.Some?
    ensures var r := s.(pending := Some(s.pending.value + d));
            View(r) == (View(s).0, View(s).1 + d) && Flat(View(r)) == Flat(View(s)) + d
  {
    var lead := if s.first then StartCode(s.header) else [];
    Assoc(lead, s.pending.value, d);
    Assoc(Nals(s.sent).1, PendingBytes(s), d);
    FlatGrows(View(s), d);
  }

  /** The copy loops give the receiver their bytes and no others. */
  lemma {:induction false} FillGives(m: nat, s: State, d: seq<Byte>)
    requires Kept(m, s) && s.pending.Some?
    ensures var r := Fill(m, s, d); Kept(m, r) && r.pending.Some? && Flat(View(r)) == Flat(View(s)) + d
    decreases |d|, |s.pending.value|
  {
    hide Nals, Flat, StartBit, EndBit;
    if d == [] {
      NilRight(Flat(View(s)));
    } else {
      var p := s.pending.value;
      var w := Min(|d|, m - 2 - |p|);
      var t := s.(pending := Some(p + d[..w]));
      PendingGives(s, d[..w]);
      if w < |d| {
        PushGives(m, t);
        var u := Push(m, t).(pending := Some([]));
        NilRight(Nals(u.sent).1);
        assert PendingBytes(u) == [];
        FillFresh(m, Push(m, t), d[w..]);
        hide View;
        FillGives(m, u, d[w..]);
        Halves(Flat(View(s)), d, w);
      } else {
        Whole(d);
      }
    }
  }

  lemma NextGives(m: nat, s: State, h: Byte, d: seq<Byte>)
    requires Kept(m, s) && |d| <= 3 && s.pending.Some?
    ensures var r := NextNal(m, s, h, d);
            Kept(m, r) && r.cache == [] && Flat(View(r)) == Flat(View(s)) + (StartCode(h) + d)
  {
    hide StartBit, EndBit, StartCode;
    var u := s.(marker := true);
    assert View(u) == View(s);
    PushGives(m, u);
    var v := Nals(Push(m, u).sent);
    NilLeft(StartCode(h) + d);
    FlatGrows(v, StartCode(h) + d);
  }

  /** The bytes up to a start code, the start code, its header and up to three more. */
  lemma CutGives(m: nat, s: State, d: seq<Byte>, k: nat, e: seq<Byte>, r: State)
    requires Kept(m, s) && s.pending.Some? && CodeAt(NALS, d, k) && |e| <= 3
    requires k + 5 + |e| <= |d| && e == d[k + 5..k + 5 + |e|]
    requires r == NextNal(m, Fill(m, s, d[..k]), d[k + 4], e)
    ensures Kept(m, r) && Held(r) == Flat(View(s)) + d[..k + 5 + |e|]
  {
    hide Nals, Fill, NextNal, Flat, View, Kept;
    var n := k + 5 + |e|;
    FillGives(m, s, d[..k]);
    NextGives(m, Fill(m, s, d[..k]), d[k + 4], e);
    CodeIs(d, k);
    Slices(d, k, k + 5, n);
    JoinSlices(Flat(View(s)), d, k, n);
    NilRight(Flat(View(r)));
  }

  lemma CacheKept(m: nat, s: State, cache: seq<Byte>)
    requires Kept(m, s) && |cache| <= 4
    ensures Kept(m, s.(cache := cache)) && Held(s.(cache := cache)) == Flat(View(s)) + cache
  {
    assert View(s.(cache := cache)) == View(s);
  }

  lemma BodyGives(m: nat, s: State, data: seq<Byte>)
    requires Kept(m, s) && s.pending.Some? && s.cache == [] && data != []
    ensures var r := Body(m, s, data);
            Kept(m, r.state) && Held(r.state) == Flat(View(s)) + data[..r.taken]
  {
    hide Nals, Fill, NextNal, Flat, View;
    if |data| <= 4 {
      CacheKept(m, s, data);
      Whole(data);
    } else {
      var k := FindCode(NALS, data, 0);
      if k == |data| - 4 {
        FillGives(m, s, data[..k]);
        CacheKept(m, Fill(m, s, data[..k]), data[k..]);
        Halves(Flat(View(s)), data, k);
        Whole(data);
      } else {
        CutGives(m, s, data, k, [], NextNal(m, Fill(m, s, data[..k]), data[k + 4], []));
      }
    }
  }

  /** One call gives the receiver the bytes it takes. */
  lemma FormatGives(m: nat, s: State, data: seq<Byte>)
    requires Kept(m, s) && s.pending.Some? && data != []
    ensures var r := Format(m, s, data);
            Kept(m, r.state) && Held(r.state) == Held(s) + data[..r.taken]
  {
    hide Nals, Fill, NextNal, Flat, Body, View;
    if |s.cache| + |data| <= 4 {
      CacheKept(m, s, s.cache + data);
      Assoc(Flat(View(s)), s.cache, data);
      Whole(data);
    } else if s.cache == [] {
      BodyGives(m, s, data);
      NilRight(Flat(View(s)));
    } else {
      var w := Window(NALS, s.cache, data);
      var i := FindCode(NALS, w, 0);
      if i < |w| - 4 {
        HitIs(m, s, w, i);
        assert w[i + 5..] == w[i + 5..|w|];
        CutGives(m, s, w, i, w[i + 5..], WindowHit(m, s, w, i));
        Whole(w);
        Assoc(Flat(View(s)), s.cache, data[..Min(|data|, 4)]);
      } else {
        FillGives(m, s, s.cache);
        CacheKept(m, Fill(m, s, s.cache), []);
        NilRight(Flat(View(s)) + s.cache);
        BodyGives(m, FlushCache(m, s), data);
      }
    }
  }

  // ----- the first payload -----

  /** What the receiver gets before the first byte of the stream: nothing when the
      stream begins with a start code, else a start code and the unset header. */
  function Lead(header: Byte, data: seq<Byte>): seq<Byte> {
    if CodeAt(NALS, data, 0) then [] else StartCode(header)
  }

  lemma BeginGives(m: nat, s: State, h: Byte, d: seq<Byte>)
    requires m >= 5 && s.first && s.pending.None? && s.sent == [] && |s.cache| <= 4 && |d| <= 3
    ensures var r := NextNal(m, s, h, d); Kept(m, r) && Held(r) == StartCode(h) + d
  {
    NilLeft(StartCode(h) + d);
    NilRight(StartCode(h) + d);
  }

  /** On more bytes than the cache holds. */
  lemma FirstGives(m: nat, header: Byte, data: seq<Byte>)
    requires m >= 5 && |data| > 4
    ensures !NullWrite(Initial(header), data)
    ensures var r := Format(m, Initial(header), data);
            Kept(m, r.state) && Held(r.state) == Lead(header, data) + data[..r.taken]
  {
    var s := Initial(header);
    var k := FindCode(NALS, data, 0);
    if CodeAt(NALS, data, 0) {
      assert k == 0 && data[..0] == [];
      CodeIs(data, 0);
      BeginGives(m, s, data[4], []);
      assert data[0..5] == data[..5];
      NilRight(StartCode(data[4]));
    } else {
      var s0 := s.(pending := Some([]));
      FillFresh(m, s, data[..k]);
      assert Format(m, s, data) == Body(m, s0, data);
      NilRight(StartCode(header));
      NilLeft(StartCode(header));
      BodyGives(m, s0, data);
    }
  }

  /** With a window that begins with a start code. */
  lemma LateGives(m: nat, s: State, data: seq<Byte>)
    requires m >= 5 && s.first && s.pending.None? && s.sent == [] && s.cache != [] && |s.cache| <= 4
    requires |s.cache| + |data| > 4 && !NullWrite(s, data)
    ensures var r := Format(m, s, data);
            Kept(m, r.state) && Held(r.state) == s.cache + data[..r.taken]
  {
    hide Held, Kept, StartCode, Fill, CodeAt;
    var w := Window(NALS, s.cache, data);
    BeginsWith(w);
    FillNone(m, s);
    BeginGives(m, s.(marker := true), w[4], w[5..]);
  }

  lemma BeginsWith(w: seq<Byte>)
    requires CodeAt(NALS, w, 0)
    ensures |w| > 4 && FindCode(NALS, w, 0) == 0 && w[..0] == [] && StartCode(w[4]) + w[5..] == w
  {
    CodeIs(w, 0);
    hide StartCode;
    assert w[0..5] + w[5..] == w;
  }
}
