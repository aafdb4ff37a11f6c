/** Where the units of a stream begin and end, and what shows that a run that took a start
    code without looking at it cannot have found them. */
module Boundaries {
  import opened Bytes
  import opened AccessUnits
  import opened StreamParts

  /** The whole-stream splitter cuts at `p`, or would if a unit were open. */
  ghost predicate CutsAfter(c: Splitter, t: seq<Byte>, p: nat) {
    CodeAt(c, t, p) && c.Cuts(Split(c, t, p).header, HeaderAt(c, t, p))
  }

  // ----- where two lists of units part -----

  /** `x` goes on where `v` stops: the same units, then the open one and perhaps more. */
  predicate Goes(v: (seq<seq<Byte>>, seq<Byte>), x: seq<seq<Byte>>) {
    |v.0| < |x| && v.0 <= x && v.1 <= x[|v.0|]
  }

  /** A unit of `v` is open across the position `r`. */
  predicate Spans(v: (seq<seq<Byte>>, seq<Byte>), r: nat) {
    |Flatten(v.0)| < r < |Flatten(v.0)| + |v.1|
  }

  lemma {:induction false} FlattenGrows(x: seq<seq<Byte>>, a: nat, b: nat)
    requires a <= b <= |x|
    ensures |Flatten(x[..a])| <= |Flatten(x[..b])|
    decreases b
  {
    if a < b {
      FlattenGrows(x, a, b - 1);
      assert x[..b] == x[..b - 1] + [x[b - 1]];
      FlattenSnoc(x[..b - 1], x[b - 1]);
    }
  }

  /** Units that go on from one open across `r` are not cut at `r`. */
  lemma NoBoundary(v: (seq<seq<Byte>>, seq<Byte>), x: seq<seq<Byte>>, b: nat)
    requires Goes(v, x) && b <= |x|
    ensures !Spans(v, |Flatten(x[..b])|)
  {
    var a := |v.0|;
    assert x[..a] == v.0 && x[..a + 1] == x[..a] + [x[a]];
    FlattenSnoc(x[..a], x[a]);
    if a < b { FlattenGrows(x, a + 1, b); } else { FlattenGrows(x, b, a); }
  }

  lemma {:induction false} SplitGrows(c: Splitter, t: seq<Byte>, a: nat, b: nat)
    requires a <= b <= |t|
    ensures Split(c, t, a).units <= Split(c, t, b).units
    decreases b - a
  {
    if a < b { SplitGrows(c, t, a, b - 1); }
  }

  /** The units of the stream are cut at a start code that cuts. */
  lemma CutsAt(c: Splitter, t: seq<Byte>, r: nat) returns (b: nat)
    requires 0 < r && CodeAt(c, t, r) && c.Cuts(Split(c, t, r).header, HeaderAt(c, t, r))
    ensures b <= |Units(c, t)| && |Flatten(Units(c, t)[..b])| == r
  {
    var u := Split(c, t, r + 1).units;
    b := |u|;
    OpenNonEmpty(c, t, r);
    SplitConserves(c, t, r + 1);
    SplitGrows(c, t, r + 1, |t|);
    assert Units(c, t)[..b] == u;
  }

  /** The units of `s`, its open one perhaps grown or closed, are those `r` has. */
  predicate Extends(v: (seq<seq<Byte>>, seq<Byte>), w: (seq<seq<Byte>>, seq<Byte>)) {
    (w.0 == v.0 && v.1 <= w.1) || Goes(v, w.0)
  }

  lemma ExtendsTwice(u: (seq<seq<Byte>>, seq<Byte>), v: (seq<seq<Byte>>, seq<Byte>), w: (seq<seq<Byte>>, seq<Byte>))
    requires Extends(u, v) && Extends(v, w)
    ensures Extends(u, w)
  {}

  // ----- the first start code missed -----

  /** A start code that cuts, taken with one before it. */
  ghost predicate Missed(c: Splitter, t: seq<Byte>, p: nat, r: nat) {
    && CodeAt(c, t, p) && CodeAt(c, t, r) && p < r < p + Reach(c, t, p)
    && c.Cuts(HeaderAt(c, t, p), HeaderAt(c, t, r))
  }

  ghost predicate NoneBefore(c: Splitter, t: seq<Byte>, p: nat) {
    forall k: nat, j: nat :: k < p ==> !Missed(c, t, k, j)
  }

  lemma {:induction false} FirstMissed(c: Splitter, t: seq<Byte>, p: nat, r: nat) returns (p': nat, r': nat)
    requires Missed(c, t, p, r)
    ensures Missed(c, t, p', r') && NoneBefore(c, t, p')
    decreases p
  {
    if k: nat, j: nat :| k < p && Missed(c, t, k, j) {
      p', r' := FirstMissed(c, t, k, j);
    } else {
      p', r' := p, r;
    }
  }

  lemma CodesBefore(c: Splitter, t: seq<Byte>, p: nat, k: nat)
    requires p + c.Carry() <= |t|
    ensures CodeAt(c, t[..p + c.Carry()], k) <==> k < p && CodeAt(c, t, k)
    ensures k < p ==> HeaderAt(c, t[..p + c.Carry()], k) == HeaderAt(c, t, k)
  {
    var u := t[..p + c.Carry()];
    assert Part(t, 0, u);
    if k < p { CodeShift(c, t, 0, u, k); }
  }

  /** Up to its first miss the stream's cuts are apart. */
  lemma PrefixApart(c: Splitter, t: seq<Byte>, p: nat)
    requires p + c.Carry() <= |t| && NoneBefore(c, t, p)
    ensures Apart(c, t[..p + c.Carry()])
  {
    var u := t[..p + c.Carry()];
    forall k: nat, j: nat | CodeAt(c, u, k) && CodeAt(c, u, j) && k < j < k + Reach(c, u, k)
      ensures !c.Cuts(HeaderAt(c, u, k), HeaderAt(c, u, j))
    {
      CodesBefore(c, t, p, k);
      CodesBefore(c, t, p, j);
      assert !Missed(c, t, k, j);
    }
  }

  /** Every start code of the chunk leaves `m` bytes after its header. */
  ghost predicate Leaves(c: Splitter, data: seq<Byte>, m: nat) {
    forall k: nat :: CodeAt(c, data, k) ==> k + c.Carry() + m < |data|
  }

  lemma RestLeaves(c: Splitter, data: seq<Byte>, n: nat, m: nat)
    requires Leaves(c, data, m) && n <= |data|
    ensures Leaves(c, data[n..], m)
  {
    forall k: nat | CodeAt(c, data[n..], k) ensures k + c.Carry() + m < |data| - n {
      assert CodeAt(c, data, n + k);
    }
  }

  lemma StillBegins(c: Splitter, t: seq<Byte>, p: nat)
    requires CodeAt(c, t, p)
    ensures var d, e := t[..p + c.Carry()], t[p + c.Carry()..];
            |d[p..]| == c.Carry() && CodeAt(c, d[p..] + e, 0)
  {
    var d, e := t[..p + c.Carry()], t[p + c.Carry()..];
    assert d[p..] + e == t[p..];
  }

  lemma BeginsWindow(c: Splitter, cache: seq<Byte>, e: seq<Byte>)
    requires |cache| == c.Carry() && |e| >= c.Carry() && CodeAt(c, cache + e, 0)
    ensures CodeAt(c, Window(c, cache, e), 0) && FindCode(c, Window(c, cache, e), 0) == 0
  {
    var w := Window(c, cache, e);
    assert w[c.Carry()..] == e[..c.Carry()];
    assert forall k :: 0 <= k < |w| ==> w[k] == (cache + e)[k];
  }

  lemma SomeMissed(c: Splitter, t: seq<Byte>) returns (p: nat, r: nat)
    requires !Apart(c, t)
    ensures Missed(c, t, p, r)
  {
    p, r :| CodeAt(c, t, p) && CodeAt(c, t, r) && p < r < p + Reach(c, t, p)
            && c.Cuts(HeaderAt(c, t, p), HeaderAt(c, t, r));
  }
}
