/** The key mark of one packet, told from its own bytes, and what goes wrong when a window
    hides a key frame. */
module KeyPackets {
  import opened Bytes
  import opened AccessUnits
  import opened StreamParts
  import opened Boundaries
  import opened UnitBytes
  import opened Packetizing
  import opened PacketizingProofs
  import opened PacketizingRuns
  import opened PacketRoom
  import opened ChunkIndependence
  import opened ApartNeeded
  import opened KeyMarks
  import opened KeyRuns
  import opened KeysNeeded

  // ----- a packet that holds a whole unit -----

  /** A unit behind the first begins with a start code. */
  lemma UnitBegins(c: Splitter, t: seq<Byte>, i: nat)
    requires 0 < i < |Units(c, t)|
    ensures StartsAt(c, t, UnitEnd(c, t, i - 1)) && 0 < UnitEnd(c, t, i - 1) < |t|
  {
    var a := UnitEnd(c, t, i - 1);
    UnitsConserve(c, t);
    UnitsNonEmpty(c, t);
    EndBounds(Units(c, t), i);
    assert EndsAt(c, t, a);
    UnitsEnd(c, t, a);
  }

  lemma EndBounds(units: seq<seq<Byte>>, i: nat)
    requires 0 < i < |units| && forall u :: u in units ==> u != []
    ensures 0 < |Flatten(units[..i])| < |Flatten(units[..i + 1])| <= |Flatten(units)|
  {
    assert units[..i + 1] == units[..i] + [units[i]] && units[..i] == units[..i - 1] + [units[i - 1]];
    assert units[i] in units && units[i - 1] in units;
    FlattenSnoc(units[..i], units[i]);
    FlattenSnoc(units[..i - 1], units[i - 1]);
    assert units == units[..i + 1] + units[i + 1..];
    FlattenConcat(units[..i + 1], units[i + 1..]);
  }

  /** Where unit `i` lies in the stream. */
  lemma UnitIs(c: Splitter, t: seq<Byte>, i: nat)
    requires i < |Units(c, t)|
    ensures var u, b := Units(c, t)[i], UnitEnd(c, t, i);
            && u != [] && |u| <= b <= |t| && u == t[b - |u|..b]
            && b - |u| == if i == 0 then 0 else UnitEnd(c, t, i - 1)
  {
    UnitsConserve(c, t);
    UnitsNonEmpty(c, t);
    hide Units;
    assert Units(c, t)[i] in Units(c, t);
    PartOf(Units(c, t), i);
    if i > 0 { assert i - 1 + 1 == i; }
  }

  lemma PartOf(units: seq<seq<Byte>>, i: nat)
    requires i < |units|
    ensures var u, a, b := units[i], |Flatten(units[..i])|, |Flatten(units[..i + 1])|;
            b == a + |u| && b <= |Flatten(units)| && u == Flatten(units)[a..b]
    ensures i == 0 ==> |Flatten(units[..i])| == 0
  {
    assert i == 0 ==> units[..i] == [];
    var a, z := Flatten(units[..i]), Flatten(units[i + 1..]);
    assert units[..i + 1] == units[..i] + [units[i]];
    FlattenSnoc(units[..i], units[i]);
    assert units == units[..i + 1] + units[i + 1..];
    FlattenConcat(units[..i + 1], units[i + 1..]);
    hide Flatten;
    Cutting(a, units[i], z);
    assert Flatten(units) == a + units[i] + z;
  }

  lemma Cutting(a: seq<Byte>, u: seq<Byte>, z: seq<Byte>)
    ensures (a + u + z)[|a|..|a| + |u|] == u
  {}

  /** Start codes of the stream inside a unit are start codes of the unit, when none overlaps
      the header of another. */
  lemma UnitStarts(c: Splitter, t: seq<Byte>, a: nat, b: nat, p: nat)
    requires Disjoint(c, t) && a <= p < b <= |t| && (b == |t| || StartsAt(c, t, b))
    ensures StartsAt(c, t[a..b], p - a) <==> StartsAt(c, t, p)
    ensures StartsAt(c, t, p) ==> (KeyAt(c, t[a..b], p - a) <==> KeyAt(c, t, p))
  {
    var u := t[a..b];
    if p + 4 <= b { SliceOfSlice(t, a, b, p - a, p - a + 4); }
    if StartsAt(c, t, p) {
      HeaderInside(c, t, p, b);
      assert u[p - a + 4] == t[p + 4];
    }
  }

  lemma SliceOfSlice(t: seq<Byte>, a: nat, b: nat, i: nat, j: nat)
    requires a <= b <= |t| && i <= j <= b - a
    ensures t[a..b][i..j] == t[a + i..a + j]
  {
    assert Part(t, a, t[a..b]);
    PartSlice(t, a, t[a..b], i, j);
  }

  lemma HeaderInside(c: Splitter, t: seq<Byte>, p: nat, b: nat)
    requires Disjoint(c, t) && p < b <= |t| && (b == |t| || StartsAt(c, t, b)) && StartsAt(c, t, p)
    ensures p + c.Carry() < b
  {
    StartIs(c, t, p);
    StartIs(c, t, b);
    hide StartsAt;
    if b < |t| { assert CodeAt(c, t, p) && CodeAt(c, t, b); }
  }

  /** The key mark of a unit, from its own bytes. */
  lemma KeyInUnit(c: Splitter, t: seq<Byte>, i: nat)
    requires Disjoint(c, t) && i < |Units(c, t)|
    ensures var u := Units(c, t)[i];
            KeyBefore(c, u, |u|) <==> KeyBefore(c, t, UnitEnd(c, t, i))
  {
    hide Disjoint, StartsAt, KeyAt, Units, UnitEnd;
    var u, b := Units(c, t)[i], UnitEnd(c, t, i);
    UnitIs(c, t, i);
    var a := b - |u|;
    if i > 0 { UnitBegins(c, t, i); }
    if i + 1 < |Units(c, t)| { UnitBegins(c, t, i + 1); } else { LastUnitEnds(c, t); }
    forall p: nat | a <= p < b
      ensures StartsAt(c, u, p - a) <==> StartsAt(c, t, p)
      ensures StartsAt(c, t, p) ==> (KeyAt(c, u, p - a) <==> KeyAt(c, t, p))
    {
      UnitStarts(c, t, a, b, p);
    }
    KeyShifts(c, t, a, b, u);
  }

  lemma KeyShifts(c: Splitter, t: seq<Byte>, a: nat, b: nat, u: seq<Byte>)
    requires a < b <= |t| && |u| == b - a && (a == 0 || StartsAt(c, t, a))
    requires forall p: nat :: a <= p < b ==> (StartsAt(c, u, p - a) <==> StartsAt(c, t, p))
    requires forall p: nat :: a <= p < b && StartsAt(c, t, p) ==> (KeyAt(c, u, p - a) <==> KeyAt(c, t, p))
    ensures KeyBefore(c, u, |u|) <==> KeyBefore(c, t, b)
  {
    hide StartsAt, KeyAt;
    if KeyBefore(c, t, b) {
      var p: nat :| LastStart(c, t, p, b) && KeyAt(c, t, p);
      assert a <= p;
      forall j: nat | p - a < j < |u| ensures !StartsAt(c, u, j) {
        assert !StartsAt(c, t, a + j);
      }
      assert LastStart(c, u, p - a, |u|);
    }
    if KeyBefore(c, u, |u|) {
      var p: nat :| LastStart(c, u, p, |u|) && KeyAt(c, u, p);
      assert StartsAt(c, u, (a + p) - a);
      forall j: nat | a + p < j < b ensures !StartsAt(c, t, j) {
        assert !StartsAt(c, u, j - a);
      }
      assert LastStart(c, t, a + p, b);
    }
  }

  lemma LastUnitEnds(c: Splitter, t: seq<Byte>)
    requires t != []
    ensures Units(c, t) != [] && UnitEnd(c, t, |Units(c, t)| - 1) == |t|
  {
    UnitsConserve(c, t);
    assert Units(c, t)[..|Units(c, t)|] == Units(c, t);
  }

  /** A packet that begins and finishes a unit. */
  lemma UnitOf(ps: seq<Packet>, j: nat)
    requires j < |ps| && ps[j].first && ps[j].finished
    ensures var i := |Join(ps[..j]).0|; i < |Join(ps).0| && Join(ps).0[i] == ps[j].data
    decreases |ps|
  {
    var n := |ps| - 1;
    var front := ps[..n];
    if j < n {
      UnitOf(front, j);
      assert front[..j] == ps[..j];
    } else {
      NilLeft(ps[j].data);
    }
  }

  /** Every packet that holds a whole unit is marked as a key frame exactly when the last
      start code in its own data has the header of one. */
  lemma WholeUnitMarks(c: Splitter, chunks: seq<seq<Byte>>)
    requires LongEnough(c, chunks) && Apart(c, Flatten(chunks)) && Roomy(c, Flatten(chunks))
    requires KeysApart(c, Flatten(chunks)) && Disjoint(c, Flatten(chunks))
    ensures RunSafe(c, Initial(c), chunks)
    ensures forall p :: p in Pushed(c, chunks) && p.first && p.finished ==>
              (p.key <==> KeyBefore(c, p.data, |p.data|))
  {
    hide Apart, Roomy, KeysApart, Disjoint, LongEnough, Join, Units, UnitEnd, KeyBefore, RunSafe, Run, Finished, Bracketed;
    var t := Flatten(chunks);
    KeysMarked(c, chunks);
    StreamUnits(c, chunks);
    var ps := Pushed(c, chunks);
    forall p | p in ps && p.first && p.finished ensures p.key <==> KeyBefore(c, p.data, |p.data|) {
      var j :| 0 <= j < |ps| && ps[j] == p;
      UnitOf(ps, j);
      KeyInUnit(c, t, |Join(ps[..j]).0|);
    }
  }

  // ----- packets cut by the cap -----

  /** What the copy loop pushes is marked by the header it began with. */
  lemma {:induction false} FillKeys(c: Splitter, s: State, d: seq<Byte>)
    requires WellFormed(c, s)
    ensures var r := Fill(c, s, d).pushed;
            s.pushed <= r && forall j :: |s.pushed| <= j < |r| ==> r[j].key == IsKeyHeader(c, s.header)
    decreases |d|, if s.pes.Some? then 1 else 0
  {
    hide Splitter.NalType, Splitter.IsKey;
    if d != [] {
      var p := Pending(s);
      var w := Room(p, d);
      if w < |d| {
        FillKeys(c, Push(c, s.(pes := Some(p + d[..w]))), d[w..]);
      }
    }
  }

  lemma BodyKeys(c: Splitter, s: State, data: seq<Byte>)
    requires WellFormed(c, s) && s.cache == [] && |data| > c.Carry()
    ensures var r := Body(c, s, data).state.pushed;
            s.pushed <= r && forall j :: |s.pushed| <= j < |r| ==>
              r[j].key == IsKeyHeader(c, Scan(c, data, 0, s.header).1)
  {
    hide Splitter.NalType, Splitter.IsKey, CodeAt, Scan, Fill;
    var (k, h) := Scan(c, data, 0, s.header);
    FillKeys(c, s.(header := h), data[..k]);
  }

  /** A call with the cache empty marks what it pushes by the last start code it passed
      before it stopped, even one behind the packet; if it passed none, by the one
      remembered. */
  lemma CapMarks(c: Splitter, s: State, data: seq<Byte>)
    requires WellFormed(c, s) && s.cache == [] && |data| > c.Carry()
    ensures var k, r := Scan(c, data, 0, s.header).0, Body(c, s, data).state.pushed;
            s.pushed <= r && forall j :: |s.pushed| <= j < |r| ==>
              (r[j].key <==> if exists p: nat :: p < k && StartsAt(c, data, p) then KeyBefore(c, data, k)
                             else IsKeyHeader(c, s.header))
  {
    hide Splitter.NalType, Splitter.IsKey, KeyBefore, StartsAt, Split, CodeAt, Scan, Body, Codeless, IsKeyHeader;
    var k := Scan(c, data, 0, s.header).0;
    WholePart(data);
    ScanHeader(c, data, 0, data, 0, s.header);
    HeaderIs(c, data, k);
    StartsAre(c, data, k);
    BodyKeys(c, s, data);
  }

  lemma StartsAre(c: Splitter, data: seq<Byte>, k: nat)
    ensures Codeless(c, data, 0, k) <==> !exists p: nat :: p < k && StartsAt(c, data, p)
    ensures forall h :: |h| == c.HeaderLen() ==> IsKeyHeader(c, h) == c.IsKey(c.NalType(h))
  {
    forall p: nat ensures StartsAt(c, data, p) <==> CodeAt(c, data, p) {
      StartIs(c, data, p);
    }
    hide StartsAt, CodeAt;
  }

  // ----- a hidden key frame -----

  /** A slice; then an access unit delimiter and, six bytes on, a key frame. */
  const HIDDEN: seq<Byte> := [0, 0, 0, 1, 0x41, 7, 0, 0, 0, 1, 9, 0xF0, 0, 0, 0, 1, 0x65, 7, 7, 7]

  lemma HiddenStarts()
    ensures forall p: nat :: CodeAt(Avc, HIDDEN, p) <==> p == 0 || p == 6 || p == 12
    ensures HeaderAt(Avc, HIDDEN, 0) == [0x41] && HeaderAt(Avc, HIDDEN, 6) == [9] && HeaderAt(Avc, HIDDEN, 12) == [0x65]
  {
    assert HIDDEN[4..5] == [0x41] && HIDDEN[10..11] == [9] && HIDDEN[16..17] == [0x65];
    forall p: nat | CodeAt(Avc, HIDDEN, p) ensures p == 0 || p == 6 || p == 12 {
      assert p + 3 < 20 && HIDDEN[p + 3] == 1;
    }
  }

  /** A stream shorter than a packet lacks room nowhere. */
  lemma ShortRoomy(c: Splitter, t: seq<Byte>)
    requires |t| <= MAX_PES
    ensures Roomy(c, t)
  {
    hide Split;
    forall q: nat | q + 2 * c.Carry() <= |t| ensures !Tight(c, t, q) {
      OpenBound(c, t, q);
      FilledBound(|Split(c, t, q).open|);
    }
    if |t| > c.Carry() {
      OpenBound(c, t, |t| - c.Carry());
      FilledBound(|Split(c, t, |t| - c.Carry()).open|);
    }
  }

  /** Why no start code may hide a key frame: cut behind the tenth byte, the stream's units
      are found, but the window sees the delimiter only, and the key frame's unit is not
      marked. */
  lemma HiddenKeyFrame()
    ensures var chunks := [HIDDEN[..10], HIDDEN[10..]];
            && Flatten(chunks) == HIDDEN && Disjoint(Avc, HIDDEN) && Apart(Avc, HIDDEN) && Roomy(Avc, HIDDEN)
            && LongEnough(Avc, chunks) && RunSafe(Avc, Initial(Avc), chunks)
            && !KeysRight(Avc, HIDDEN, Pushed(Avc, chunks))
  {
    HiddenSpaced();
    HiddenTypes();
    ShortRoomy(Avc, HIDDEN);
    hide Roomy, Apart, Disjoint, Quiet, KeyAt, CodeAt, KeysRight, RunSafe, Finished, Run, LongEnough, Reach;
    HiddenRun(Avc, HIDDEN, 6, 12);
  }

  lemma HiddenSpaced()
    ensures Disjoint(Avc, HIDDEN) && Apart(Avc, HIDDEN)
  {
    HiddenStarts();
    hide CodeAt;
  }

  lemma HiddenTypes()
    ensures CodeAt(Avc, HIDDEN, 6) && CodeAt(Avc, HIDDEN, 12) && Reach(Avc, HIDDEN, 6) == 8 && Quiet(Avc, HIDDEN, 13)
    ensures KeyAt(Avc, HIDDEN, 12) && !KeyAt(Avc, HIDDEN, 6)
  {
    HiddenStarts();
    hide CodeAt, End;
  }
}
