/** Runs that show what goes wrong without each of the conditions: chunk lengths, start
    code spacing, units within a packet, and a first packet not made by a window. */
module ChunkWitnesses {
  import opened Bytes
  import opened AccessUnits
  import opened Packetizing
  import opened PacketizingProofs
  import opened PacketizingRuns
  import opened ChunkIndependence

  const LEAD: seq<Byte> := [7, 7, 0, 0, 0]
  const UNIT: seq<Byte> := [0, 0, 0, 1, 1]

  /** After the five bytes of LEAD one is committed and four are cached. */
  const LED := State([0], [7, 0, 0, 0], true, false, Some([7]), [])

  lemma AfterLead()
    ensures !NullWrite(Avc, Initial(Avc), LEAD) && Packetized(Avc, Initial(Avc), LEAD) == LED
  {
    var s := Initial(Avc);
    assert s.header == [0];
    assert Scan(Avc, LEAD, 0, s.header) == Scan(Avc, LEAD, 1, s.header) == (1, s.header);
    assert LEAD[..1] == [7] && LEAD[1..] == [7, 0, 0, 0];
    assert Write([], [7]) == [7];
    assert Fill(Avc, s, [7]) == s.(pes := Some([7]));
    assert Frame(Avc, s, LEAD) == Outcome(LED, 5);
    assert LEAD[5..] == [];
  }

  /** A start code at `p` that cuts, and the quiet bytes up to `b`. */
  lemma CutHere(t: seq<Byte>, p: nat, b: nat, unit: seq<Byte>, r: Cut, n: Cut)
    requires CodeAt(Avc, t, p) && HeaderAt(Avc, t, p) == [1] && p < b <= |t|
    requires forall i: nat :: p < i < b ==> !CodeAt(Avc, t, i)
    requires r == Split(Avc, t, p) && r.open != [] && unit == t[p..b]
    requires n == Cut(r.units + [r.open], unit, [1])
    ensures Split(Avc, t, b) == n
  {
    SplitQuiet(Avc, t, p + 1, b);
    assert unit == [t[p]] + t[p + 1..b];
  }

  lemma FirstUnit(t: seq<Byte>)
    requires |t| >= 7 && t[0] == t[1] == 7 && t[2] == t[3] == t[4] == 0 && t[5] == t[6] == 1
    ensures Split(Avc, t, 7) == Cut([[7, 7]], UNIT, [1])
  {
    var r := Cut([], [7, 7], [0]);
    assert Split(Avc, t, 2) == r by {
      SplitQuiet(Avc, t, 0, 2);
      assert t[0..2] == [7, 7];
      NilLeft([7, 7]);
    }
    assert t[2..7] == UNIT;
    assert HeaderAt(Avc, t, 2) == [1];
    NilLeft([r.open]);
    hide Split;
    CutHere(t, 2, 7, UNIT, r, Cut([[7, 7]], UNIT, [1]));
  }

  lemma OnePacket(s: State, unit: seq<Byte>)
    requires WellFormed(Avc, s) && s.pes.Some? && s.first && !s.finished && s.pushed == [] && FinishFits(s)
    requires unit == s.pes.value + s.cache
    ensures Join(Finished(Avc, s).pushed).0 == [unit]
  {
    Whole(s.cache);
    hide Splitter.NalType, Join;
    var v := s.(pes := Some(unit), cache := []);
    assert Join([]) == ([], []) by { JoinNone(); }
    PushFinished(Avc, v);
    NilLeft(unit);
    NilLeft([unit]);
  }

  lemma JoinNone()
    ensures Join([]) == ([], [])
  {}

  /** A chunk shorter than the cache hides a start code that begins inside the
      cache: the stream has two access units and one is pushed. */
  lemma ShortChunkMissesUnit()
    ensures var chunks: seq<seq<Byte>> := [LEAD, [1], [1]];
            && RunSafe(Avc, Initial(Avc), chunks)
            && Flatten(chunks) == LEAD + [1, 1]
            && Units(Avc, Flatten(chunks)) == [[7, 7], UNIT]
            && Join(Pushed(Avc, chunks)).0 == [LEAD + [1, 1]]
  {
    var one: seq<Byte> := [1];
    var chunks := [LEAD, one, one];
    assert chunks[1..] == [one, one] && [one, one][1..] == [one] && [one][1..] == [];
    assert Flatten([one]) == one && Flatten([one, one]) == [1, 1];
    FirstUnit(LEAD + [1, 1]);
    hide Packetized, Split, Join, Frame, CodeAt, Finished;
    AfterLead();
    ShortChunks(one);
    var s3 := State([0], [1, 1], true, false, Some(LEAD), []);
    assert Run(Avc, s3, []) == s3;
    assert Run(Avc, LED.(cache := [1], pes := Some(LEAD)), [one]) == s3;
    assert Run(Avc, LED, [one, one]) == s3;
    assert Run(Avc, Initial(Avc), chunks) == s3;
    OnePacket(s3, LEAD + [1, 1]);
  }

  lemma ShortChunks(one: seq<Byte>)
    requires one == [1]
    ensures Packetized(Avc, LED, one) == LED.(cache := [1], pes := Some(LEAD))
    ensures Packetized(Avc, LED.(cache := [1], pes := Some(LEAD)), one) == LED.(cache := [1, 1], pes := Some(LEAD))
  {
    var s2 := LED.(cache := [1], pes := Some(LEAD));
    assert Window(Avc, LED.cache, one) == [7, 0, 0, 0, 1];
    assert FindCode(Avc, Window(Avc, LED.cache, one), 0) == 1;
    assert [7] + [7, 0, 0, 0][..4] == LEAD;
    assert Frame(Avc, LED, one) == Outcome(s2, 1);
    assert Frame(Avc, s2, one) == Outcome(s2.(cache := [1, 1]), 1);
    assert one[1..] == [];
  }

  /** A second start code inside the window is passed over: the stream has three
      access units and two are pushed. */
  lemma CloseCodesMissUnit()
    ensures var chunks: seq<seq<Byte>> := [LEAD, [1, 1, 0, 0, 0, 1, 1]];
            && LongEnough(Avc, chunks) && RunSafe(Avc, Initial(Avc), chunks)
            && Flatten(chunks) == [7, 7] + UNIT + UNIT
            && Units(Avc, Flatten(chunks)) == [[7, 7], UNIT, UNIT]
            && Join(Pushed(Avc, chunks)).0 == [[7, 7], UNIT + UNIT]
  {
    var next: seq<Byte> := [1, 1, 0, 0, 0, 1, 1];
    var chunks := [LEAD, next];
    assert chunks[1..] == [next] && [next][1..] == [];
    assert Flatten([next]) == next;
    assert Flatten(chunks) == [7, 7] + UNIT + UNIT;
    SecondUnit(Flatten(chunks));
    hide Split, Join, Frame, Finished, Run, Apart;
    var s2 := State([1], [0, 1, 1], true, false, Some(UNIT + [0, 0]), [Packet(true, true, false, [7, 7])]);
    CloseRun(next, s2);
    TwoPackets(s2);
  }

  lemma CloseRun(next: seq<Byte>, r: State)
    requires next == [1, 1, 0, 0, 0, 1, 1]
    requires r == State([1], [0, 1, 1], true, false, Some(UNIT + [0, 0]), [Packet(true, true, false, [7, 7])])
    ensures RunSafe(Avc, Initial(Avc), [LEAD, next]) && Run(Avc, Initial(Avc), [LEAD, next]) == r
  {
    hide Packetized, Frame;
    AfterLead();
    SecondChunk(next);
    TwoChunks(Avc, Initial(Avc), LEAD, next, LED, r);
  }

  lemma SecondUnit(t: seq<Byte>)
    requires t == [7, 7] + UNIT + UNIT
    ensures Split(Avc, t, |t|) == Cut([[7, 7], UNIT], UNIT, [1])
  {
    hide Split, Splitter.NalType;
    assert t == [7, 7, 0, 0, 0, 1, 1, 0, 0, 0, 1, 1];
    FirstUnit(t);
    assert CodeAt(Avc, t, 7) && HeaderAt(Avc, t, 7) == [1];
    assert t[7..12] == UNIT;
    assert [[7, 7]] + [UNIT] == [[7, 7], UNIT];
    CutHere(t, 7, 12, UNIT, Cut([[7, 7]], UNIT, [1]), Cut([[7, 7], UNIT], UNIT, [1]));
  }

  lemma SecondChunk(next: seq<Byte>)
    requires next == [1, 1, 0, 0, 0, 1, 1]
    ensures Packetized(Avc, LED, next)
         == State([1], [0, 1, 1], true, false, Some(UNIT + [0, 0]), [Packet(true, true, false, [7, 7])])
  {
    var w := Window(Avc, LED.cache, next);
    assert w == [7, 0, 0, 0, 1, 1, 0, 0];
    assert !CodeAt(Avc, w, 0) && CodeAt(Avc, w, 1) && HeaderAt(Avc, w, 1) == [1];
    assert FindCode(Avc, w, 0) == FindCode(Avc, w, 1) == 1;
    assert [7] + w[..1][..1] == [7, 7];
    assert w[1..] == UNIT + [0, 0];
    var p := Packet(true, true, false, [7, 7]);
    NilLeft([p]);
    var s2 := State([1], [], true, false, Some(UNIT + [0, 0]), [p]);
    assert WindowHit(Avc, LED, w, 1) == s2;
    assert Frame(Avc, LED, next) == Outcome(s2, 4);
    var rest: seq<Byte> := next[4..];
    NilLeft(rest);
    assert rest == [0, 1, 1] && rest[3..] == [];
    assert Frame(Avc, s2, rest) == Outcome(s2.(cache := [0, 1, 1]), 3);
  }

  lemma TwoPackets(s: State)
    requires s == State([1], [0, 1, 1], true, false, Some(UNIT + [0, 0]), [Packet(true, true, false, [7, 7])])
    ensures Join(Finished(Avc, s).pushed).0 == [[7, 7], UNIT + UNIT]
  {
    var p := s.pushed[0];
    assert Join([p]) == ([[7, 7]], []) by {
      assert [p][..0] == [];
      NilLeft([7, 7]);
      NilLeft([[7, 7]]);
    }
    var unit := UNIT + UNIT;
    assert UNIT + [0, 0] + [0, 1, 1] == unit;
    Whole(s.cache);
    hide Join, Splitter.NalType;
    PushFinished(Avc, s.(pes := Some(unit), cache := []));
    NilLeft(unit);
    assert [[7, 7]] + [unit] == [[7, 7], unit];
  }

  // ----- room -----

  function Sevens(n: nat): (r: seq<Byte>)
    ensures |r| == n && forall i :: 0 <= i < n ==> r[i] == 7
  {
    seq(n, _ => 7)
  }

  /** A chunk without a start code, of at most one packet and the cache. */
  lemma QuietChunk(d: seq<Byte>)
    requires 4 < |d| <= MAX_PES + 4 && forall j: nat :: j < |d| ==> !CodeAt(Avc, d, j)
    ensures !NullWrite(Avc, Initial(Avc), d)
    ensures var n := |d| - 4;
            Packetized(Avc, Initial(Avc), d) == Initial(Avc).(pes := Some(d[..n]), cache := d[n..])
  {
    var s, n := Initial(Avc), |d| - 4;
    ScanQuiet(Avc, d, 0, s.header);
    var f := s.(pes := Some(d[..n]));
    assert Fill(Avc, s, d[..n]) == f by {
      Whole(d[..n]);
      NilLeft(d[..n]);
    }
    assert Frame(Avc, s, d) == Outcome(f.(cache := d[n..]), |d|);
    assert d[|d|..] == [];
  }

  /** The pending packet is full and the window begins a new unit with its second byte:
      the first is lost. */
  lemma NoRoom(s: State, next: seq<Byte>)
    requires WellFormed(Avc, s) && s.pes.Some? && |s.pes.value| == MAX_PES && s.cache == [7, 0, 0, 0]
    requires next == [1, 1, 7, 7]
    ensures !ChunkFits(Avc, s, next)
  {
    var w := Window(Avc, s.cache, next);
    assert w == [7, 0, 0, 0, 1, 1, 7, 7];
    assert !CodeAt(Avc, w, 0) && CodeAt(Avc, w, 1);
    assert FindCode(Avc, w, 0) == FindCode(Avc, w, 1) == 1;
    assert !WindowFits(Avc, s, next);
  }

  function FullPacket(): seq<Byte> { Sevens(MAX_PES + 1) + [0, 0, 0] }

  lemma FullPacketIs()
    ensures var d := FullPacket();
            && |d| == MAX_PES + 4 && d[MAX_PES..] == [7, 0, 0, 0]
            && forall j: nat :: j < |d| ==> !CodeAt(Avc, d, j)
  {}

  /** Long chunks and one start code, but a unit longer than a packet: a byte is lost. */
  lemma LongUnitLosesByte()
    ensures var chunks := [FullPacket(), [1, 1, 7, 7]];
            && LongEnough(Avc, chunks) && Apart(Avc, Flatten(chunks))
            && RunSafe(Avc, Initial(Avc), chunks)
            && Data(Pushed(Avc, chunks)) != Flatten(chunks)
  {
    var d: seq<Byte>, next: seq<Byte> := FullPacket(), [1, 1, 7, 7];
    hide Packetized, Frame, ChunkFits, FullPacket, Apart, Run, Finished, NullWrite, CodeAt;
    FullPacketIs();
    OneCode(d + next);
    QuietChunk(d);
    var u := Packetized(Avc, Initial(Avc), d);
    NoRoom(u, next);
    NoFit(d, next, u);
    PushedConserves(Avc, [d, next]);
  }

  lemma NoFit(d: seq<Byte>, next: seq<Byte>, u: State)
    requires |d| == MAX_PES + 4 && |next| == 4 && !NullWrite(Avc, Initial(Avc), d)
    requires u == Packetized(Avc, Initial(Avc), d) && u.pes.Some? && !ChunkFits(Avc, u, next)
    ensures RunSafe(Avc, Initial(Avc), [d, next]) && !RunFits(Avc, Initial(Avc), [d, next])
    ensures Flatten([d, next]) == d + next && LongEnough(Avc, [d, next])
  {
    hide Packetized, ChunkFits;
    TwoChunks(Avc, Initial(Avc), d, next, u, Packetized(Avc, u, next));
    assert [d, next][1..] == [next];
  }

  lemma OneCode(t: seq<Byte>)
    requires t == FullPacket() + [1, 1, 7, 7]
    ensures Apart(Avc, t)
  {
    forall p: nat | CodeAt(Avc, t, p) ensures p == MAX_PES + 1 {
      assert t[MAX_PES] == 7 && t[MAX_PES + 4] == 1;
    }
  }

  // ----- a first packet made by a window -----

  const CODE: seq<Byte> := [0, 0, 0, 1]

  function LongSlice(): seq<Byte> { [1] + Sevens(2 * MAX_PES) }

  /** The window makes the first packet and leaves `bFinished` set. */
  lemma LateStart()
    ensures var d := LongSlice();
            var s := Initial(Avc).(cache := CODE);
            && !NullWrite(Avc, s, d)
            && Frame(Avc, s, d) == Outcome(State([1], [], true, true, Some([0, 0, 0, 1, 1, 7, 7, 7]), []), 4)
  {
    var s, d := Initial(Avc).(cache := CODE), LongSlice();
    SliceBegins();
    var w := Window(Avc, CODE, d);
    assert w == [0, 0, 0, 1, 1, 7, 7, 7];
    assert CodeAt(Avc, w, 0) && HeaderAt(Avc, w, 0) == [1];
    assert w[0..] == w;
  }

  lemma SliceBegins()
    ensures |LongSlice()| > 4 && LongSlice()[..4] == [1, 7, 7, 7]
  {
    var d := LongSlice();
    assert d[0] == 1 && d[1] == 7 && d[2] == 7 && d[3] == 7;
  }

  /** Two packets of one unit, the first marked finished and the second not first. */
  ghost predicate Slipped(ps: seq<Packet>) {
    |ps| >= 2 && ps[0].finished && !ps[1].first
  }

  lemma FillSlips(s: State, d: seq<Byte>)
    requires WellFormed(Avc, s) && s.finished && s.first && s.pes.Some? && s.pushed == []
    requires |d| > 2 * MAX_PES - |s.pes.value|
    ensures Slipped(Fill(Avc, s, d).pushed)
  {
    hide Splitter.NalType;
    var w := Room(s.pes.value, d);
    var u := Push(Avc, s.(pes := Some(Write(s.pes.value, d))));
    assert Fill(Avc, s, d) == Fill(Avc, u, d[w..]);
    var e := d[w..];
    var v := Push(Avc, u.(pes := Some(Write([], e))));
    assert Fill(Avc, u, e) == Fill(Avc, v, e[Room([], e)..]);
    PushedGrows(v, e[Room([], e)..]);
  }

  lemma {:induction false} PushedGrows(s: State, d: seq<Byte>)
    requires WellFormed(Avc, s)
    ensures s.pushed <= Fill(Avc, s, d).pushed
    decreases |d|, if s.pes.Some? then 1 else 0
  {
    hide Splitter.NalType;
    if d != [] {
      var p := if s.pes.Some? then s.pes.value else [];
      var w := Room(p, d);
      if w < |d| { PushedGrows(Push(Avc, s.(pes := Some(Write(p, d)))), d[w..]); }
    }
  }

  lemma SlipBody(s: State, d: seq<Byte>)
    requires WellFormed(Avc, s) && s.finished && s.first && s.pes.Some? && |s.pes.value| == 8
    requires s.pushed == [] && s.cache == []
    requires d == Sevens(2 * MAX_PES - 3)
    ensures var o := Frame(Avc, s, d); o.taken == |d| && Slipped(o.state.pushed)
  {
    hide Splitter.NalType, Fill, Slipped;
    var k := |d| - 4;
    ScanQuiet(Avc, d, 0, s.header);
    FillSlips(s.(header := s.header), d[..k]);
  }

  lemma FinishSlips(s: State)
    requires WellFormed(Avc, s) && Slipped(s.pushed)
    ensures !Bracketed(Finished(Avc, s).pushed)
  {
    hide Splitter.NalType;
    var ps := Finished(Avc, s).pushed;
    assert ps[0] == s.pushed[0] && ps[1] == s.pushed[1];
  }

  lemma RestOfSlice()
    ensures LongSlice()[4..] == Sevens(2 * MAX_PES - 3)
  {}

  /** The long slice after its start code. */
  lemma SlipChunk(s: State)
    requires s == Initial(Avc).(cache := CODE)
    ensures !NullWrite(Avc, s, LongSlice())
    ensures var r := Packetized(Avc, s, LongSlice()); r.pes.Some? && Slipped(r.pushed)
  {
    LateStart();
    RestOfSlice();
    var d := LongSlice();
    var o := Frame(Avc, s, d);
    var e := d[4..];
    hide Frame, Slipped, LongSlice, Sevens;
    SlipBody(o.state, e);
    var o' := Frame(Avc, o.state, e);
    assert e[o'.taken..] == [];
    assert Packetized(Avc, o.state, e) == o'.state;
  }

  /** The first slice in pieces of 4 bytes and more than 130000: no call is unsafe, but
      the first packet pushed ends a unit that goes on. */
  lemma LateStartSlips()
    ensures var chunks := [CODE, LongSlice()];
            RunSafe(Avc, Initial(Avc), chunks) && !Bracketed(Pushed(Avc, chunks))
  {
    var s, d := Initial(Avc), LongSlice();
    var s1 := s.(cache := CODE);
    SlipChunk(s1);
    hide Frame, LongSlice, Splitter.NalType, Packetized, Slipped, Finished;
    NotNull(Avc, CODE);
    CachedChunk(Avc, s, CODE);
    NilLeft(CODE);
    var r := Packetized(Avc, s1, d);
    TwoChunks(Avc, s, CODE, d, s1, r);
    FinishSlips(r);
  }
}
