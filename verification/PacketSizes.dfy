/** How long the packets of a run are. */
module PacketSizes {
  import opened Bytes
  import opened AccessUnits
  import opened Packetizing
  import opened PacketizingRuns

  /** None holds more than 65000 bytes, and only one that finishes a unit holds fewer. */
  ghost predicate Sized(ps: seq<Packet>) {
    forall i :: 0 <= i < |ps| ==> |ps[i].data| <= 65000 && (!ps[i].finished ==> |ps[i].data| == 65000)
  }

  lemma MoreSized(ps: seq<Packet>, p: Packet)
    requires Sized(ps) && |p.data| <= 65000 && (!p.finished ==> |p.data| == 65000)
    ensures Sized(ps + [p])
  {}

  lemma {:induction false} FillSized(c: Splitter, s: State, d: seq<Byte>)
    requires WellFormed(c, s) && Sized(s.pushed)
    ensures Sized(Fill(c, s, d).pushed)
    decreases |d|, if s.pes.Some? then 1 else 0
  {
    hide Sized, Splitter.NalType, Splitter.IsKey;
    if d != [] {
      var p := Pending(s);
      var w := Room(p, d);
      if w < |d| {
        var u := s.(pes := Some(p + d[..w]));
        PushSized(c, u);
        FillSized(c, Push(c, u), d[w..]);
      }
    }
  }

  lemma PushSized(c: Splitter, s: State)
    requires WellFormed(c, s) && Sized(s.pushed)
    requires s.pes.Some? && !s.finished ==> |s.pes.value| == 65000
    ensures Sized(Push(c, s).pushed)
  {
    hide Sized, Splitter.NalType, Splitter.IsKey;
    if s.pes.Some? {
      MoreSized(s.pushed, Packet(s.first, s.finished, c.IsKey(c.NalType(s.header)), s.pes.value));
    }
  }

  lemma NextSized(c: Splitter, s: State, header: seq<Byte>, d: seq<Byte>)
    requires WellFormed(c, s) && |header| == c.HeaderLen() && |d| <= MAX_PES && Sized(s.pushed)
    ensures Sized(NextUnit(c, s, header, d).pushed)
  {
    hide Sized, Push;
    if s.pes.Some? { PushSized(c, s.(finished := true)); }
  }

  lemma BodySized(c: Splitter, s: State, data: seq<Byte>)
    requires WellFormed(c, s) && s.cache == [] && data != [] && Sized(s.pushed)
    ensures Sized(Body(c, s, data).state.pushed)
  {
    hide Sized, Fill, NextUnit, Scan, CodeAt, Splitter.NalType;
    if |data| > c.Carry() {
      var (k, h) := Scan(c, data, 0, s.header);
      var filled := Fill(c, s.(header := h), data[..k]);
      FillSized(c, s.(header := h), data[..k]);
      if k < |data| - c.Carry() {
        NextSized(c, filled, HeaderAt(c, data, k), data[k..k + 4 + c.HeaderLen()]);
      }
    }
  }

  lemma HitSized(c: Splitter, s: State, w: seq<Byte>, i: nat)
    requires WellFormed(c, s) && CodeAt(c, w, i) && |w| <= 2 * c.Carry() && Sized(s.pushed)
    requires s.pes.Some? || (i == 0 && BeginsCut(c, s, w))
    ensures Sized(WindowHit(c, s, w, i).pushed)
  {
    hide Sized, NextUnit, Splitter.NalType;
    var before := if s.pes.Some? then s.(pes := Some(Write(s.pes.value, w[..i]))) else s;
    if c.Cuts(s.header, HeaderAt(c, w, i)) {
      NextSized(c, before.(finished := true), HeaderAt(c, w, i), w[i..]);
    }
  }

  lemma FrameSized(c: Splitter, s: State, data: seq<Byte>)
    requires WellFormed(c, s) && data != [] && !NullWrite(c, s, data) && Sized(s.pushed)
    ensures Sized(Frame(c, s, data).state.pushed)
  {
    hide Sized, Body, WindowHit, Fill, CodeAt, Splitter.NalType;
    if |s.cache| + |data| > c.Carry() {
      if s.cache == [] {
        BodySized(c, s, data);
      } else {
        var w := Window(c, s.cache, data);
        var i := FindCode(c, w, 0);
        if i < |w| - c.Carry() {
          HitSized(c, s, w, i);
        } else {
          FillSized(c, s, s.cache);
          BodySized(c, FlushCache(c, s), data);
        }
      }
    }
  }

  lemma {:induction false} ChunkSized(c: Splitter, s: State, data: seq<Byte>)
    requires WellFormed(c, s) && (data == [] || !NullWrite(c, s, data)) && Sized(s.pushed)
    ensures Sized(Packetized(c, s, data).pushed)
    decreases |data|
  {
    hide Sized, Frame;
    if data != [] {
      FrameSized(c, s, data);
      var o := Frame(c, s, data);
      ChunkSized(c, o.state, data[o.taken..]);
    }
  }

  lemma {:induction false} RunSized(c: Splitter, s: State, chunks: seq<seq<Byte>>)
    requires WellFormed(c, s) && RunSafe(c, s, chunks) && Sized(s.pushed)
    ensures Sized(Run(c, s, chunks).pushed)
    decreases |chunks|
  {
    hide Sized, Packetized, NullWrite;
    if chunks != [] {
      ChunkSized(c, s, chunks[0]);
      RunSized(c, Packetized(c, s, chunks[0]), chunks[1..]);
    }
  }

  /** Over every run that does not write through the null packet: the cap of 65000 bytes cuts
      a unit and nothing else does. */
  lemma PushedSized(c: Splitter, chunks: seq<seq<Byte>>)
    requires RunSafe(c, Initial(c), chunks)
    ensures Sized(Pushed(c, chunks))
  {
    RunSized(c, Initial(c), chunks);
    var s := Run(c, Initial(c), chunks);
    hide Run, RunSafe, Sized, Push;
    if s.pes.Some? {
      PushSized(c, s.(pes := Some(Write(s.pes.value, s.cache)), cache := [], finished := true));
    }
  }
}
