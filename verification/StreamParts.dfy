/** What the whole-stream splitter does on a part of the stream. */
module StreamParts {
  import opened Bytes
  import opened AccessUnits

  /** A start code inside a part of the stream is that start code of the stream. */
  lemma CodeShift(c: Splitter, t: seq<Byte>, q: nat, d: seq<Byte>, k: nat)
    requires Part(t, q, d) && k + c.Carry() < |d|
    ensures CodeAt(c, t, q + k) == CodeAt(c, d, k)
    ensures HeaderAt(c, t, q + k) == HeaderAt(c, d, k)
  {
    PartSlice(t, q, d, k + 4, k + 4 + c.HeaderLen());
  }

  /** A part without start codes before `i` only grows the open unit so far. */
  lemma QuietPart(c: Splitter, t: seq<Byte>, q: nat, w: seq<Byte>, i: nat)
    requires Part(t, q, w) && i + c.Carry() <= |w|
    requires forall j: nat :: j < i ==> !CodeAt(c, w, j)
    ensures var r := Split(c, t, q);
            Split(c, t, q + i) == r.(open := r.open + w[..i])
  {
    hide Split;
    forall p: nat | q <= p < q + i ensures !CodeAt(c, t, p) {
      CodeShift(c, t, q, w, p - q);
    }
    SplitQuiet(c, t, q, q + i);
    PartSlice(t, q, w, 0, i);
    assert w[0..i] == w[..i];
  }

  /** The first start code of a part, and what follows it up to one that cuts. */
  lemma HitPart(c: Splitter, t: seq<Byte>, q: nat, w: seq<Byte>, i: nat)
    requires Part(t, q, w) && CodeAt(c, w, i)
    requires forall j: nat :: j < i ==> !CodeAt(c, w, j)
    requires Calm(c, t, q + i + 1, q + |w|, HeaderAt(c, w, i))
    ensures var r, h := Split(c, t, q), HeaderAt(c, w, i);
            if c.Cuts(r.header, h) && r.open + w[..i] != []
            then Reads(c, Split(c, t, q + |w|), r.units + [r.open + w[..i]], w[i..], h)
            else Reads(c, Split(c, t, q + |w|), r.units, r.open + w, h)
  {
    hide Split, Splitter.NalType, Calm;
    QuietPart(c, t, q, w, i);
    CodeShift(c, t, q, w, i);
    SplitAtCode(c, t, q + i, q + |w|);
    PartSlice(t, q, w, i, |w|);
    Halves(Split(c, t, q).open, w, i);
    Whole(w);
  }

  /** In a stream whose cuts are apart nothing within reach of a start code cuts. */
  lemma ApartCalm(c: Splitter, t: seq<Byte>, p: nat, b: nat)
    requires Apart(c, t) && CodeAt(c, t, p) && b <= p + Reach(c, t, p)
    ensures Calm(c, t, p + 1, b, HeaderAt(c, t, p))
  {}

  lemma FirstChunk(t: seq<Byte>, n: nat, chunks: seq<seq<Byte>>)
    requires Part(t, n, Flatten(chunks)) && chunks != []
    ensures Part(t, n, chunks[0]) && Part(t, n + |chunks[0]|, Flatten(chunks[1..]))
    ensures |Flatten(chunks)| == |chunks[0]| + |Flatten(chunks[1..])|
  {
    var all, d := Flatten(chunks), chunks[0];
    PartSlice(t, n, all, 0, |d|);
    PartSlice(t, n, all, |d|, |all|);
    assert all[0..|d|] == d && all[|d|..|all|] == Flatten(chunks[1..]);
  }
}
