/** H.264 over RTP: one call of RtpPayloadAvc::format as a function of its state.

    The payload under construction is kept without its first two bytes, which
    the source fills in when the fragment is pushed. */
module FragmentationUnits {
  import opened Bytes
  import opened AccessUnits

  const NALS := Nal

  /** What is pushed to the RTP participant; `payload` is what goes on the wire. */
  datatype Fragment = Fragment(first: bool, marker: bool, payload: seq<Byte>)

  /** `first` and `marker` are the flags of the pending fragment. */
  datatype State = State(header: Byte, cache: seq<Byte>, first: bool, marker: bool,
                         pending: Option<seq<Byte>>, sent: seq<Fragment>)

  datatype Outcome = Outcome(state: State, taken: nat)

  /** `m` is the longest payload. */
  ghost predicate WellFormed(m: nat, s: State) {
    && m >= 5
    && |s.cache| <= 4
    && (s.pending.Some? ==> |s.pending.value| + 2 <= m)
  }

  /** The source leaves the header of a fresh object unset. */
  function Initial(header: Byte): State {
    State(header, [], true, false, None, [])
  }

  // ----- the two bytes before the data (section 5.8 of RFC 6184) -----

  function Indicator(header: Byte): Byte { header / 32 * 32 + 28 }

  function FuHeader(start: bool, end: bool, nalType: nat): Byte
    requires nalType < 32
  {
    (if start then 128 else 0) + (if end then 64 else 0) + nalType
  }

  /** pushFomated: without a payload nothing happens, and the flags stay as they are. */
  function Push(m: nat, s: State): (r: State)
    requires WellFormed(m, s)
    ensures WellFormed(m, r)
  {
    if s.pending.None? then s
    else
      var payload := [Indicator(s.header), FuHeader(s.first, s.marker, s.header % 32)] + s.pending.value;
      s.(first := false, marker := false, pending := None, sent := s.sent + [Fragment(s.first, s.marker, payload)])
  }

  /** Both copy loops: a full payload is pushed before a byte that needs a new one. */
  function Fill(m: nat, s: State, d: seq<Byte>): (r: State)
    requires WellFormed(m, s)
    ensures WellFormed(m, r)
    ensures r.header == s.header && r.cache == s.cache
    ensures d != [] || s.pending.Some? ==> r.pending.Some?
    decreases |d|, if s.pending.Some? then 1 else 0
  {
    if d == [] then s
    else
      var p := if s.pending.Some? then s.pending.value else [];
      var w := Min(|d|, m - 2 - |p|);
      var t := s.(pending := Some(p + d[..w]));
      if w < |d| then Fill(m, Push(m, t), d[w..]) else t
  }

  /** The pending fragment ends its NAL unit; the next one starts with header `h`. */
  function NextNal(m: nat, s: State, h: Byte, d: seq<Byte>): (r: State)
    requires WellFormed(m, s) && |d| <= 3
    ensures WellFormed(m, r) && r.pending == Some(d) && r.cache == [] && r.header == h
  {
    var ended := if s.pending.Some? then Push(m, s.(marker := true)) else s;
    ended.(header := h, first := true, pending := Some(d), cache := [])
  }

  /** A start code at `i` of the window. Without a payload `marker` is set for a push that
      does nothing, so it stays set on the payload made next. */
  function WindowHit(m: nat, s: State, w: seq<Byte>, i: nat): (r: State)
    requires WellFormed(m, s) && CodeAt(NALS, w, i) && |w| <= 8 && (s.pending.Some? || i == 0)
    ensures WellFormed(m, r) && r.pending.Some? && r.cache == []
  {
    NextNal(m, Fill(m, s, w[..i]).(marker := true), w[i + 4], w[i + 5..])
  }

  function FlushCache(m: nat, s: State): (r: State)
    requires WellFormed(m, s) && s.pending.Some?
    ensures WellFormed(m, r) && r.pending.Some? && r.cache == []
  {
    Fill(m, s, s.cache).(cache := [])
  }

  function Body(m: nat, s: State, data: seq<Byte>): (r: Outcome)
    requires WellFormed(m, s) && s.cache == [] && data != []
    ensures WellFormed(m, r.state) && 0 < r.taken <= |data|
    ensures s.pending.Some? || |data| > 4 ==> r.state.pending.Some?
    ensures r.taken < |data| ==> r.state.cache == []
  {
    if |data| <= 4 then Outcome(s.(cache := data), |data|)
    else
      var k := FindCode(NALS, data, 0);
      var filled := Fill(m, s, data[..k]);
      if k == |data| - 4 then Outcome(filled.(cache := data[k..]), |data|)
      else Outcome(NextNal(m, filled, data[k + 4], []), k + 5)
  }

  /** Whether the call dereferences the null payload pointer: the cache has to go to a
      payload, there is none, and no start code begins the window. */
  predicate NullWrite(s: State, data: seq<Byte>) {
    && s.pending.None? && s.cache != [] && |s.cache| + |data| > 4
    && !CodeAt(NALS, Window(NALS, s.cache, data), 0)
  }

  /** format on a non-empty chunk. */
  function Format(m: nat, s: State, data: seq<Byte>): (r: Outcome)
    requires WellFormed(m, s) && data != [] && !NullWrite(s, data)
    ensures WellFormed(m, r.state) && 0 < r.taken <= |data|
    ensures s.pending.Some? || |s.cache| + |data| > 4 ==> r.state.pending.Some?
    ensures r.taken < |data| ==> r.state.cache == [] && r.state.pending.Some?
  {
    if |s.cache| + |data| <= 4 then Outcome(s.(cache := s.cache + data), |data|)
    else if s.cache == [] then Body(m, s, data)
    else
      var w := Window(NALS, s.cache, data);
      var i := FindCode(NALS, w, 0);
      if i < |w| - 4 then Outcome(WindowHit(m, s, w, i), Min(|data|, 4))
      else Body(m, FlushCache(m, s), data)
  }

  /** RtpParticipant::transport: format until the chunk is taken. */
  function Transport(m: nat, s: State, data: seq<Byte>): (r: State)
    requires WellFormed(m, s) && (data == [] || !NullWrite(s, data))
    ensures WellFormed(m, r)
    ensures s.pending.Some? || |s.cache| + |data| > 4 ==> r.pending.Some?
    decreases |data|
  {
    if data == [] then s
    else
      var o := Format(m, s, data);
      Transport(m, o.state, data[o.taken..])
  }

  /** No call of the run writes through the null payload. */
  ghost predicate RunSafe(m: nat, s: State, chunks: seq<seq<Byte>>)
    requires WellFormed(m, s)
    decreases |chunks|
  {
    chunks != [] ==>
      && (chunks[0] != [] ==> !NullWrite(s, chunks[0]))
      && RunSafe(m, Transport(m, s, chunks[0]), chunks[1..])
  }

  ghost function Run(m: nat, s: State, chunks: seq<seq<Byte>>): (r: State)
    requires WellFormed(m, s) && RunSafe(m, s, chunks)
    ensures WellFormed(m, r)
    decreases |chunks|
  {
    if chunks == [] then s
    else Run(m, Transport(m, s, chunks[0]), chunks[1..])
  }

  // ----- the receiver (section 5.8 of RFC 6184) -----

  predicate StartBit(f: Fragment)
    requires |f.payload| >= 2
  {
    f.payload[1] >= 128
  }

  predicate EndBit(f: Fragment)
    requires |f.payload| >= 2
  {
    f.payload[1] % 128 >= 64
  }

  /** The NAL header a receiver puts together again. */
  function NalHeader(f: Fragment): (h: Byte)
    requires |f.payload| >= 2
  {
    f.payload[0] / 32 * 32 + f.payload[1] % 32
  }

  function StartCode(header: Byte): seq<Byte> { [0, 0, 0, 1, header] }

  function Rebuilt(f: Fragment): seq<Byte>
    requires |f.payload| >= 2
  {
    (if StartBit(f) then StartCode(NalHeader(f)) else []) + f.payload[2..]
  }

  ghost predicate Readable(fs: seq<Fragment>) {
    forall i :: 0 <= i < |fs| ==> |fs[i].payload| >= 2
  }

  /** The NAL units a receiver rebuilds: complete ones, and the open rest. */
  ghost function Nals(fs: seq<Fragment>): (seq<seq<Byte>>, seq<Byte>)
    requires Readable(fs)
  {
    if fs == [] then ([], [])
    else
      var (nals, rest) := Nals(fs[..|fs| - 1]);
      var f := fs[|fs| - 1];
      var nal := (if StartBit(f) then [] else rest) + Rebuilt(f);
      if EndBit(f) then (nals + [nal], []) else (nals, nal)
  }

  /** What the fragments of a run look like: start and end bits bracket each NAL
      unit, and only its last fragment may be short. */
  ghost predicate Fragmented(m: nat, fs: seq<Fragment>)
    ensures Fragmented(m, fs) ==> Readable(fs)
  {
    && Readable(fs)
    && (fs != [] ==> StartBit(fs[0]))
    && (forall i :: 0 < i < |fs| ==> StartBit(fs[i]) == EndBit(fs[i - 1]))
    && (forall i :: 0 <= i < |fs| ==>
          && fs[i].first == StartBit(fs[i]) && fs[i].marker == EndBit(fs[i])
          && |fs[i].payload| <= m && (!EndBit(fs[i]) ==> |fs[i].payload| == m))
  }
}
