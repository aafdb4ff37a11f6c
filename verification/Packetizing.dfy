/** One call of the packetizers as a function of their state.

    PacketizedAVC and PacketizedHEVC are the same algorithm over a one-byte and
    a two-byte NAL header, so the splitter is a parameter. `Frame` is what one
    packetizeFrame call does to the state; the class `Packetizer` implements it
    with the source's buffers and loops. */
module Packetizing {
  import opened Bytes
  import opened AccessUnits

  const MAX_PES := 65000

  /** What is pushed to the multiplexer. */
  datatype Packet = Packet(first: bool, finished: bool, key: bool, data: seq<Byte>)

  /** The fields between two calls. `first` and `finished` are the flags of the pending
      packet, `pes` its data, `pushed` everything handed to the multiplexer so far. */
  datatype State = State(header: seq<Byte>, cache: seq<Byte>, first: bool, finished: bool,
                         pes: Option<seq<Byte>>, pushed: seq<Packet>)

  datatype Outcome = Outcome(state: State, taken: nat)

  ghost predicate WellFormed(c: Splitter, s: State) {
    && |s.header| == c.HeaderLen()
    && |s.cache| <= c.Carry()
    && (s.pes.Some? ==> |s.pes.value| <= MAX_PES)
  }

  function Initial(c: Splitter): (s: State)
    ensures WellFormed(c, s)
  {
    State(c.NoHeader(), [], true, false, None, [])
  }

  // ----- the steps of one call -----

  /** PESPacket::writeDataByte: as much of `d` as the 65000-byte cap leaves room for. */
  function Room(pes: seq<Byte>, d: seq<Byte>): (n: nat)
    requires |pes| <= MAX_PES
    ensures n <= |d|
  {
    Min(|d|, MAX_PES - |pes|)
  }

  function Write(pes: seq<Byte>, d: seq<Byte>): (r: seq<Byte>)
    requires |pes| <= MAX_PES
    ensures |r| <= MAX_PES
  {
    pes + d[..Room(pes, d)]
  }

  /** pushPacket: without a packet nothing happens, and the flags stay as they are. */
  function Push(c: Splitter, s: State): (r: State)
    requires WellFormed(c, s)
    ensures WellFormed(c, r)
  {
    if s.pes.None? then s
    else
      var key := c.IsKey(c.NalType(s.header));
      s.(first := false, finished := false, pes := None,
         pushed := s.pushed + [Packet(s.first, s.finished, key, s.pes.value)])
  }

  /** The copy loop: packets are pushed, unfinished, as they fill up. */
  function Fill(c: Splitter, s: State, d: seq<Byte>): (r: State)
    requires WellFormed(c, s)
    ensures WellFormed(c, r)
    ensures r.header == s.header && r.cache == s.cache
    ensures d != [] ==> r.pes.Some?
    decreases |d|, if s.pes.Some? then 1 else 0
  {
    if d == [] then s
    else
      var pes := if s.pes.Some? then s.pes.value else [];
      var w := Room(pes, d);
      var t := s.(pes := Some(Write(pes, d)));
      if w < |d| then Fill(c, Push(c, t), d[w..]) else t
  }

  /** The scan loop: stops at the first start code that ends the access unit, and
      remembers the header of every start code it passes. */
  function Scan(c: Splitter, d: seq<Byte>, k: nat, header: seq<Byte>): (r: (nat, seq<Byte>))
    requires k + c.Carry() <= |d| && |header| == c.HeaderLen()
    ensures k <= r.0 <= |d| - c.Carry() && |r.1| == c.HeaderLen()
    ensures r.0 < |d| - c.Carry() ==> CodeAt(c, d, r.0) && c.Cuts(r.1, HeaderAt(c, d, r.0))
    decreases |d| - k
  {
    if k + c.Carry() == |d| then (k, header)
    else if !CodeAt(c, d, k) then Scan(c, d, k + 1, header)
    else if c.Cuts(header, HeaderAt(c, d, k)) then (k, header)
    else Scan(c, d, k + 1, HeaderAt(c, d, k))
  }

  /** The pending packet, if any, ends its access unit; `d` begins the next one. */
  function NextUnit(c: Splitter, s: State, header: seq<Byte>, d: seq<Byte>): (r: State)
    requires WellFormed(c, s) && |header| == c.HeaderLen() && |d| <= MAX_PES
    ensures WellFormed(c, r)
  {
    var ended := if s.pes.Some? then Push(c, s.(finished := true)) else s;
    ended.(header := header, first := true, pes := Some(d), cache := [])
  }

  /** A start code that cuts begins the window: the only hit that needs no packet. */
  predicate BeginsCut(c: Splitter, s: State, w: seq<Byte>)
    requires |s.header| == c.HeaderLen()
  {
    CodeAt(c, w, 0) && c.Cuts(s.header, HeaderAt(c, w, 0))
  }

  /** A start code at `i` of the window. Without a packet `bFinished` is set for a push
      that does nothing, so it stays set on the packet made next. */
  function WindowHit(c: Splitter, s: State, w: seq<Byte>, i: nat): (r: State)
    requires WellFormed(c, s) && CodeAt(c, w, i) && |w| <= 2 * c.Carry()
    requires s.pes.Some? || (i == 0 && BeginsCut(c, s, w))
    ensures WellFormed(c, r) && r.pes.Some? && r.cache == [] && r.header == HeaderAt(c, w, i)
  {
    var h := HeaderAt(c, w, i);
    var before := if s.pes.Some? then s.(pes := Some(Write(s.pes.value, w[..i]))) else s;
    if c.Cuts(s.header, h) then NextUnit(c, before.(finished := true), h, w[i..])
    else before.(header := h, cache := [], pes := Some(Write(before.pes.value, w[i..])))
  }

  /** No start code in the window: the cache goes into the pending packet, and into
      the next one when that is full. */
  function FlushCache(c: Splitter, s: State): (r: State)
    requires WellFormed(c, s) && s.pes.Some?
    ensures WellFormed(c, r) && r.pes.Some? && r.cache == []
  {
    Fill(c, s, s.cache).(cache := [])
  }

  /** The new data, once the cache is empty. */
  function Body(c: Splitter, s: State, data: seq<Byte>): (r: Outcome)
    requires WellFormed(c, s) && s.cache == [] && data != []
    ensures WellFormed(c, r.state) && 0 < r.taken <= |data|
    ensures s.pes.Some? || |data| > c.Carry() ==> r.state.pes.Some?
    ensures r.taken < |data| ==> r.state.cache == []
  {
    if |data| <= c.Carry() then Outcome(s.(cache := data), |data|)
    else
      var (k, h) := Scan(c, data, 0, s.header);
      var filled := Fill(c, s.(header := h), data[..k]);
      if k == |data| - c.Carry() then Outcome(filled.(cache := data[k..]), |data|)
      else
        var n := k + 4 + c.HeaderLen();
        Outcome(NextUnit(c, filled, HeaderAt(c, data, k), data[k..n]), n)
  }

  /** Whether the call dereferences the null PES pointer: the cache has to go to a
      packet, there is none, and the window does not begin with one either. */
  predicate NullWrite(c: Splitter, s: State, data: seq<Byte>)
    requires |s.header| == c.HeaderLen()
  {
    && s.pes.None? && s.cache != [] && |s.cache| + |data| > c.Carry()
    && !BeginsCut(c, s, Window(c, s.cache, data))
  }

  /** packetizeFrame on a non-empty chunk: the new state and the bytes taken. */
  function Frame(c: Splitter, s: State, data: seq<Byte>): (r: Outcome)
    requires WellFormed(c, s) && data != [] && !NullWrite(c, s, data)
    ensures WellFormed(c, r.state) && 0 < r.taken <= |data|
    ensures s.pes.Some? || |s.cache| + |data| > c.Carry() ==> r.state.pes.Some?
    ensures r.taken < |data| ==> r.state.cache == [] && r.state.pes.Some?
  {
    if |s.cache| + |data| <= c.Carry() then Outcome(s.(cache := s.cache + data), |data|)
    else if s.cache == [] then Body(c, s, data)
    else
      var w := Window(c, s.cache, data);
      var i := FindCode(c, w, 0);
      if i < |w| - c.Carry() then Outcome(WindowHit(c, s, w, i), Min(|data|, c.Carry()))
      else Body(c, FlushCache(c, s), data)
  }

  /** packetized: the chunk, call after call; after the first call there is a packet. */
  function Packetized(c: Splitter, s: State, data: seq<Byte>): (r: State)
    requires WellFormed(c, s) && (data == [] || !NullWrite(c, s, data))
    ensures WellFormed(c, r)
    ensures s.pes.Some? || |s.cache| + |data| > c.Carry() ==> r.pes.Some?
    decreases |data|
  {
    if data == [] then s
    else
      var o := Frame(c, s, data);
      Packetized(c, o.state, data[o.taken..])
  }

  /** finished: the cache is written and the last packet pushed. */
  function Finished(c: Splitter, s: State): (r: State)
    requires WellFormed(c, s)
    ensures WellFormed(c, r)
  {
    if s.pes.None? then s
    else
      var t := s.(pes := Some(Write(s.pes.value, s.cache)), cache := []);
      Push(c, t.(finished := true))
  }

  /** No call of the run writes through the null packet. */
  ghost predicate RunSafe(c: Splitter, s: State, chunks: seq<seq<Byte>>)
    requires WellFormed(c, s)
    decreases |chunks|
  {
    chunks != [] ==>
      && (chunks[0] != [] ==> !NullWrite(c, s, chunks[0]))
      && RunSafe(c, Packetized(c, s, chunks[0]), chunks[1..])
  }

  /** A whole run: chunk after chunk. */
  ghost function Run(c: Splitter, s: State, chunks: seq<seq<Byte>>): (r: State)
    requires WellFormed(c, s) && RunSafe(c, s, chunks)
    ensures WellFormed(c, r)
    decreases |chunks|
  {
    if chunks == [] then s
    else Run(c, Packetized(c, s, chunks[0]), chunks[1..])
  }

  // ----- what the packets say -----

  function Data(ps: seq<Packet>): seq<Byte> {
    if ps == [] then [] else Data(ps[..|ps| - 1]) + ps[|ps| - 1].data
  }

  /** Packets joined from `first` to `finished`: complete units, and the open rest. */
  function Join(ps: seq<Packet>): (seq<seq<Byte>>, seq<Byte>) {
    if ps == [] then ([], [])
    else
      var (units, open) := Join(ps[..|ps| - 1]);
      var p := ps[|ps| - 1];
      var unit := (if p.first then [] else open) + p.data;
      if p.finished then (units + [unit], []) else (units, unit)
  }

  /** The next packet is to be a first one. */
  predicate AtBoundary(ps: seq<Packet>) {
    ps == [] || ps[|ps| - 1].finished
  }

  /** Each packet starts a unit exactly when the one before it finished one. */
  ghost predicate Bracketed(ps: seq<Packet>) {
    && (ps != [] ==> ps[0].first)
    && forall i :: 0 < i < |ps| ==> ps[i].first == ps[i - 1].finished
  }

  function Pending(s: State): seq<Byte> {
    if s.pes.Some? then s.pes.value else []
  }

  /** Everything committed to PES packets, pushed or pending. */
  function Committed(s: State): seq<Byte> {
    Data(s.pushed) + Pending(s)
  }
}
