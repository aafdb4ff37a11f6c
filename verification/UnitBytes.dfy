/** Access units told from the bytes of the stream: where they end, and which hold a key
    frame. */
module UnitBytes {
  import opened Bytes
  import opened AccessUnits
  import opened Boundaries

  /** Four bytes 0, 0, 0, 1 begin at `p`, with a NAL header behind them. */
  predicate StartsAt(c: Splitter, t: seq<Byte>, p: nat) {
    p + (if c.Hevc? then 6 else 5) <= |t| && t[p..p + 4] == [0, 0, 0, 1]
  }

  /** The header is that of a slice of a P or B picture: type 1. */
  predicate SliceAt(c: Splitter, t: seq<Byte>, p: nat) {
    p + 4 < |t| && if c.Hevc? then t[p + 4] / 2 % 64 == 1 else t[p + 4] % 32 == 1
  }

  /** Or that of a key frame or its parameter sets: types 5 to 8, or 19 and 32 to 34. */
  predicate KeyAt(c: Splitter, t: seq<Byte>, p: nat) {
    p + 4 < |t| && if c.Hevc? then t[p + 4] / 2 % 64 in {19, 32, 33, 34} else t[p + 4] % 32 in {5, 6, 7, 8}
  }

  /** The last start code before `n`. */
  ghost predicate LastStart(c: Splitter, t: seq<Byte>, p: nat, n: nat) {
    p < n && StartsAt(c, t, p) && forall j: nat :: p < j < n ==> !StartsAt(c, t, j)
  }

  ghost predicate SliceBefore(c: Splitter, t: seq<Byte>, n: nat) {
    exists p: nat :: LastStart(c, t, p, n) && SliceAt(c, t, p)
  }

  ghost predicate KeyBefore(c: Splitter, t: seq<Byte>, n: nat) {
    exists p: nat :: LastStart(c, t, p, n) && KeyAt(c, t, p)
  }

  lemma StartIs(c: Splitter, t: seq<Byte>, p: nat)
    ensures StartsAt(c, t, p) <==> CodeAt(c, t, p)
    ensures CodeAt(c, t, p) ==> var h := HeaderAt(c, t, p);
                                (SliceAt(c, t, p) <==> c.NalType(h) == 1) && (KeyAt(c, t, p) <==> c.IsKey(c.NalType(h)))
  {
    if p + 4 <= |t| {
      var s := t[p..p + 4];
      assert s == [s[0], s[1], s[2], s[3]];
    }
    if CodeAt(c, t, p) { TypeIs(c, t, p); }
  }

  lemma TypeIs(c: Splitter, t: seq<Byte>, p: nat)
    requires p + c.Carry() < |t|
    ensures var h := HeaderAt(c, t, p);
            (SliceAt(c, t, p) <==> c.NalType(h) == 1) && (KeyAt(c, t, p) <==> c.IsKey(c.NalType(h)))
  {
    assert HeaderAt(c, t, p)[0] == t[p + 4];
    SixBits(t[p + 4]);
  }

  lemma SixBits(b: Byte)
    ensures b % 128 / 2 == b / 2 % 64
  {}

  lemma BeforeNext(c: Splitter, t: seq<Byte>, p: nat)
    ensures StartsAt(c, t, p) ==> (SliceBefore(c, t, p + 1) <==> SliceAt(c, t, p))
                                  && (KeyBefore(c, t, p + 1) <==> KeyAt(c, t, p))
    ensures !StartsAt(c, t, p) ==> (SliceBefore(c, t, p + 1) <==> SliceBefore(c, t, p))
                                   && (KeyBefore(c, t, p + 1) <==> KeyBefore(c, t, p))
  {
    hide SliceAt, KeyAt;
    if StartsAt(c, t, p) {
      hide StartsAt;
      assert LastStart(c, t, p, p + 1);
    } else {
      hide StartsAt;
      assert forall q: nat :: LastStart(c, t, q, p + 1) <==> LastStart(c, t, q, p);
    }
    hide LastStart;
  }

  /** The header the splitter remembers is that of the last start code. */
  lemma {:induction false} HeaderIs(c: Splitter, t: seq<Byte>, n: nat)
    requires n <= |t|
    ensures var h := Split(c, t, n).header;
            (c.NalType(h) == 1 <==> SliceBefore(c, t, n)) && (c.IsKey(c.NalType(h)) <==> KeyBefore(c, t, n))
  {
    if n > 0 {
      HeaderIs(c, t, n - 1);
      StartIs(c, t, n - 1);
      BeforeNext(c, t, n - 1);
      assert Split(c, t, n).header == if CodeAt(c, t, n - 1) then HeaderAt(c, t, n - 1) else Split(c, t, n - 1).header;
      hide StartsAt, SliceAt, KeyAt, SliceBefore, KeyBefore, CodeAt, Splitter.IsKey, Splitter.NalType;
    }
  }

  // ----- where units end -----

  lemma {:induction false} SplitGoes(c: Splitter, t: seq<Byte>, a: nat, b: nat)
    requires a <= b <= |t|
    ensures var v, w := Split(c, t, a), Split(c, t, b);
            Extends((v.units, v.open), (w.units, w.open))
    decreases b - a
  {
    if a < b {
      var v, u, w := Split(c, t, a), Split(c, t, b - 1), Split(c, t, b);
      SplitGoes(c, t, a, b - 1);
      assert (w.units == u.units && u.open <= w.open) || w.units == u.units + [u.open];
    }
  }

  /** A unit of the stream ends at `p`. */
  ghost predicate EndsAt(c: Splitter, t: seq<Byte>, p: nat) {
    exists b :: 0 <= b <= |Units(c, t)| && |Flatten(Units(c, t)[..b])| == p
  }

  lemma NoEnd(c: Splitter, t: seq<Byte>, p: nat)
    requires 0 < p < |t| && !CutsAfter(c, t, p)
    ensures !EndsAt(c, t, p)
  {
    var r := Split(c, t, p + 1);
    OpenNonEmpty(c, t, p);
    SplitConserves(c, t, p + 1);
    assert |r.open| >= 2;
    SplitGoes(c, t, p + 1, |t|);
    hide Split;
    var v, x := (r.units, r.open), Units(c, t);
    assert Goes(v, x);
    forall b | 0 <= b <= |x| ensures |Flatten(x[..b])| != p {
      NoBoundary(v, x, b);
    }
  }

  /** Where the access units of a stream end, byte by byte: at every start code that has a
      slice behind it or before it; NAL units end at every start code. */
  lemma UnitsEnd(c: Splitter, t: seq<Byte>, p: nat)
    requires 0 < p < |t|
    ensures EndsAt(c, t, p)
       <==> StartsAt(c, t, p) && (c.Nal? || SliceAt(c, t, p) || SliceBefore(c, t, p))
  {
    StartIs(c, t, p);
    HeaderIs(c, t, p);
    hide StartsAt, SliceAt, SliceBefore, CodeAt, Splitter.NalType;
    if CutsAfter(c, t, p) {
      var b := CutsAt(c, t, p);
    } else {
      NoEnd(c, t, p);
    }
  }
}
