/** What an access unit is: the whole-stream definition every chunked
    packetizer has to agree with.

    `Split` reads a byte stream from left to right, once, and knows nothing of
    chunks, caches or packet sizes. */
module AccessUnits {
  import opened Bytes

  /** How a stream is cut: H.264 and H.265 into access units, or H.264 into NAL
      units. */
  datatype Splitter = Avc | Hevc | Nal {
    /** Bytes in a NAL unit header. */
    function HeaderLen(): nat { if Hevc? then 2 else 1 }

    /** Bytes after the first byte of a start code up to and with the header:
        also the size of the carry cache. */
    function Carry(): nat { 3 + HeaderLen() }

    function NalType(header: seq<Byte>): nat
      requires |header| == HeaderLen()
    {
      if Hevc? then header[0] % 128 / 2 else header[0] % 32
    }

    /** A slice of a P or B picture on either side ends the access unit; every NAL
        unit ends where the next begins. */
    predicate Cuts(last: seq<Byte>, next: seq<Byte>)
      requires |last| == HeaderLen() && |next| == HeaderLen()
    {
      Nal? || NalType(last) == 1 || NalType(next) == 1
    }

    predicate IsKey(nalType: nat) {
      if Hevc? then nalType == 19 || 32 <= nalType <= 34 else 5 <= nalType <= 8
    }

    /** The header before any NAL unit was seen. */
    function NoHeader(): seq<Byte> { seq(HeaderLen(), _ => 0) }
  }

  /** A start code begins at `p` and its NAL header is inside `t`. */
  predicate CodeAt(c: Splitter, t: seq<Byte>, p: nat) {
    && p + c.Carry() < |t|
    && t[p] == 0 && t[p + 1] == 0 && t[p + 2] == 0 && t[p + 3] == 1
  }

  function HeaderAt(c: Splitter, t: seq<Byte>, p: nat): (h: seq<Byte>)
    requires p + c.Carry() < |t|
    ensures |h| == c.HeaderLen()
  {
    t[p + 4..p + 4 + c.HeaderLen()]
  }

  /** The first start code at or after `k`, or |t| - carry when there is none. */
  function FindCode(c: Splitter, t: seq<Byte>, k: nat): (i: nat)
    requires k + c.Carry() <= |t|
    ensures k <= i <= |t| - c.Carry()
    ensures forall j: nat :: k <= j < i ==> !CodeAt(c, t, j)
    ensures i < |t| - c.Carry() ==> CodeAt(c, t, i)
    decreases |t| - k
  {
    if k + c.Carry() == |t| || CodeAt(c, t, k) then k else FindCode(c, t, k + 1)
  }

  /** The bytes in which a start code across a chunk boundary is looked for. */
  function Window(c: Splitter, cache: seq<Byte>, data: seq<Byte>): (w: seq<Byte>)
    ensures |w| == |cache| + Min(|data|, c.Carry())
  {
    cache + data[..Min(|data|, c.Carry())]
  }

  /** Complete units, the bytes of the open one, and the last NAL header. */
  datatype Cut = Cut(units: seq<seq<Byte>>, open: seq<Byte>, header: seq<Byte>)

  /** The stream `t` cut into access units, as far as its first `q` bytes. */
  function Split(c: Splitter, t: seq<Byte>, q: nat): (r: Cut)
    requires q <= |t|
    ensures |r.header| == c.HeaderLen()
  {
    if q == 0 then Cut([], [], c.NoHeader())
    else
      var r, p := Split(c, t, q - 1), q - 1;
      if !CodeAt(c, t, p) then r.(open := r.open + [t[p]])
      else
        var h := HeaderAt(c, t, p);
        if c.Cuts(r.header, h) && r.open != [] then Cut(r.units + [r.open], [t[p]], h)
        else Cut(r.units, r.open + [t[p]], h)
  }

  /** Every access unit of the stream, the last one closed by its end. */
  function Units(c: Splitter, t: seq<Byte>): seq<seq<Byte>> {
    var r := Split(c, t, |t|);
    if r.open == [] then r.units else r.units + [r.open]
  }

  /** How many bytes the source takes with a start code at `p`, looking for no other
      among them: a window, at most, and before any window can be only a start code
      that cuts, with its header. */
  function Reach(c: Splitter, t: seq<Byte>, p: nat): nat
    requires CodeAt(c, t, p)
  {
    if p > 0 then 2 * c.Carry() else if c.Cuts(c.NoHeader(), HeaderAt(c, t, 0)) then c.Carry() + 1 else 0
  }

  /** No start code that cuts is taken with the one before it. */
  ghost predicate Apart(c: Splitter, t: seq<Byte>) {
    forall p: nat, r: nat :: CodeAt(c, t, p) && CodeAt(c, t, r) && p < r < p + Reach(c, t, p) ==>
      !c.Cuts(HeaderAt(c, t, p), HeaderAt(c, t, r))
  }

  /** No start code begins inside another or inside the header after it. */
  ghost predicate Disjoint(c: Splitter, t: seq<Byte>) {
    forall p: nat, r: nat :: CodeAt(c, t, p) && CodeAt(c, t, r) && p < r ==> p + c.Carry() < r
  }

  /** No start code from `a` up to `b` cuts after `h`. */
  ghost predicate Calm(c: Splitter, t: seq<Byte>, a: nat, b: nat, h: seq<Byte>)
    requires |h| == c.HeaderLen()
  {
    forall j: nat :: a <= j < b && CodeAt(c, t, j) ==> !c.Cuts(h, HeaderAt(c, t, j))
  }

  /** Headers after which the same start codes cut. */
  predicate Alike(c: Splitter, g: seq<Byte>, h: seq<Byte>)
    requires |g| == c.HeaderLen() && |h| == c.HeaderLen()
  {
    c.Nal? || (c.NalType(g) == 1 <==> c.NalType(h) == 1)
  }

  /** Cut so far into these units and this open one, under a header like `h`. */
  predicate Reads(c: Splitter, r: Cut, units: seq<seq<Byte>>, open: seq<Byte>, h: seq<Byte>)
    requires |r.header| == c.HeaderLen() && |h| == c.HeaderLen()
  {
    r.units == units && r.open == open && Alike(c, r.header, h)
  }

  /** No byte is lost, added or moved by cutting. */
  lemma {:induction false} SplitConserves(c: Splitter, t: seq<Byte>, q: nat)
    requires q <= |t|
    ensures Flatten(Split(c, t, q).units) + Split(c, t, q).open == t[..q]
  {
    if q > 0 {
      SplitConserves(c, t, q - 1);
      var r, n := Split(c, t, q - 1), Split(c, t, q);
      var x := t[q - 1];
      assert (n.units == r.units && n.open == r.open + [x]) || (n.units == r.units + [r.open] && n.open == [x]);
      hide Split;
      OneMore(r, n, x);
      assert t[..q] == t[..q - 1] + [x];
    }
  }

  lemma OneMore(r: Cut, n: Cut, x: Byte)
    requires (n.units == r.units && n.open == r.open + [x]) || (n.units == r.units + [r.open] && n.open == [x])
    ensures Flatten(n.units) + n.open == Flatten(r.units) + r.open + [x]
  {
    hide Flatten;
    FlattenSnoc(r.units, r.open);
    Assoc(Flatten(r.units), r.open, [x]);
  }

  /** The units of a stream, end to end, are the stream. */
  lemma UnitsConserve(c: Splitter, t: seq<Byte>)
    ensures Flatten(Units(c, t)) == t
  {
    SplitConserves(c, t, |t|);
    var r := Split(c, t, |t|);
    FlattenSnoc(r.units, r.open);
    assert t[..|t|] == t;
  }

  lemma {:induction false} OpenNonEmpty(c: Splitter, t: seq<Byte>, q: nat)
    requires q <= |t|
    ensures q > 0 ==> Split(c, t, q).open != []
    ensures forall u :: u in Split(c, t, q).units ==> u != []
  {
    if q > 0 { OpenNonEmpty(c, t, q - 1); }
  }

  lemma UnitsNonEmpty(c: Splitter, t: seq<Byte>)
    ensures forall u :: u in Units(c, t) ==> u != []
  {
    OpenNonEmpty(c, t, |t|);
  }

  /** A stretch without start codes only grows the open unit. */
  lemma {:induction false} SplitQuiet(c: Splitter, t: seq<Byte>, a: nat, b: nat)
    requires a <= b <= |t|
    requires forall p: nat :: a <= p < b ==> !CodeAt(c, t, p)
    ensures Split(c, t, b) == Split(c, t, a).(open := Split(c, t, a).open + t[a..b])
    decreases b - a
  {
    if a == b {
      assert t[a..b] == [];
    } else {
      SplitQuiet(c, t, a, b - 1);
      assert t[a..b] == t[a..b - 1] + [t[b - 1]];
    }
  }

  /** A stretch whose start codes do not cut only grows the open unit. */
  lemma {:induction false} SplitCalm(c: Splitter, t: seq<Byte>, a: nat, b: nat, h: seq<Byte>)
    requires a <= b <= |t| && |h| == c.HeaderLen()
    requires Alike(c, Split(c, t, a).header, h) && Calm(c, t, a, b, h)
    ensures Reads(c, Split(c, t, b), Split(c, t, a).units, Split(c, t, a).open + t[a..b], h)
    decreases b - a
  {
    var r := Split(c, t, a);
    if a == b {
      assert t[a..b] == [];
      NilRight(r.open);
    } else {
      SplitCalm(c, t, a, b - 1, h);
      assert t[a..b] == t[a..b - 1] + [t[b - 1]];
      Assoc(r.open, t[a..b - 1], [t[b - 1]]);
    }
  }

  /** What follows a start code, up to the next one that cuts, belongs to its unit. */
  lemma SplitAtCode(c: Splitter, t: seq<Byte>, p: nat, b: nat)
    requires CodeAt(c, t, p) && p < b <= |t| && Calm(c, t, p + 1, b, HeaderAt(c, t, p))
    ensures var r, h := Split(c, t, p), HeaderAt(c, t, p);
            if c.Cuts(r.header, h) && r.open != [] then Reads(c, Split(c, t, b), r.units + [r.open], t[p..b], h)
            else Reads(c, Split(c, t, b), r.units, r.open + t[p..b], h)
  {
    var r, n := Split(c, t, p), Split(c, t, p + 1);
    assert n.header == HeaderAt(c, t, p);
    assert [t[p]] + t[p + 1..b] == t[p..b];
    Assoc(r.open, [t[p]], t[p + 1..b]);
    hide Splitter.NalType, Calm;
    SplitCalm(c, t, p + 1, b, HeaderAt(c, t, p));
  }
}
