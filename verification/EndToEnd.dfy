/** From the encoder's bytes to the RTP payloads and back. */
module EndToEnd {
  import opened Bytes
  import opened AccessUnits
  import opened Headers
  import opened Timestamps
  import opened Muxing
  import opened MuxingProofs
  import opened MuxDraining
  import opened Demultiplexing
  import opened Fragmenting
  import P = Packetizing
  import R = PacketizingRuns
  import C = ChunkIndependence
  import L = PacketRoom
  import B = UnitBytes
  import M = KeyMarks
  import K = KeyPictures

  // ----- the payloads of packs -----

  /** Every RTP payload made of the packs sent. */
  function Payloads(packs: seq<Pack>, f: Fields, maxLen: nat): seq<Payload>
    requires maxLen > 0
  {
    FormatCalls(f, SentCalls(packs), maxLen)
  }

  /** In every interleaving: the payloads, joined and demultiplexed by start codes and
      length fields, give every pack sent so far as it was made up: its clock, its stream
      table exactly if it has one, its maps, all data and times, and a rate that counts
      them. */
  lemma PayloadsDeliver(steps: seq<Step>, f: Fields, maxLen: nat)
    requires maxLen > 0 && forall i :: 0 <= i < |steps| ==> StepOk(steps[i])
    ensures var packs := Run(steps).sent;
            Demux(Joined(Payloads(packs, f, maxLen)), []) == Some(Views(packs))
  {
    hide Run, Demux, SentCalls, StepOk;
    RunOk(steps);
    PacksDeliver(Run(steps).sent, f, maxLen);
  }

  lemma PacksDeliver(packs: seq<Pack>, f: Fields, maxLen: nat)
    requires maxLen > 0 && AllReadable(packs)
    ensures Demux(Joined(Payloads(packs, f, maxLen)), []) == Some(Views(packs))
  {
    hide SentCalls, AllReadable, Views;
    CallsJoin(f, SentCalls(packs), maxLen);
    DemuxSent(packs, []);
    NilRight(Flatten(SentCalls(packs)));
  }

  /** The times of the payloads that begin a frame. */
  function Starts(ps: seq<Payload>): seq<nat> {
    if ps == [] then []
    else
      var before := Starts(ps[..|ps| - 1]);
      if ps[|ps| - 1].first then before + [ps[|ps| - 1].ms] else before
  }

  function PackTimes(packs: seq<Pack>): seq<nat> {
    seq(|packs|, i requires 0 <= i < |packs| => Presentation(Seen(packs[i].scr)))
  }

  lemma {:induction false} StartsConcat(a: seq<Payload>, b: seq<Payload>)
    ensures Starts(a + b) == Starts(a) + Starts(b)
    decreases |b|
  {
    if b == [] {
      NilRight(a);
      NilRight(Starts(a));
    } else {
      var n := |b| - 1;
      assert (a + b)[..|a + b| - 1] == a + b[..n];
      StartsConcat(a, b[..n]);
      Assoc(Starts(a), Starts(b[..n]), [b[n].ms]);
    }
  }

  lemma {:induction false} StartsOfCut(ps: seq<Payload>, f: Fields, maxLen: nat)
    requires CutRight(ps, f, maxLen)
    ensures Starts(ps) == if ps != [] && f.first then [f.ms] else []
    decreases |ps|
  {
    if ps != [] {
      StartsOfCut(ps[..|ps| - 1], f, maxLen);
    }
  }

  lemma CallStarts(f: Fields, d: seq<Byte>, maxLen: nat)
    requires maxLen > 0 && d != []
    ensures Starts(Formatted(f, d, maxLen)) == if Begin(f, d).first then [Begin(f, d).ms] else []
  {
    FragmentsAre(Begin(f, d), d, maxLen);
    StartsOfCut(Formatted(f, d, maxLen), Begin(f, d), maxLen);
  }

  lemma {:induction false} MoreCalls(f: Fields, a: seq<seq<Byte>>, d: seq<Byte>, maxLen: nat)
    requires maxLen > 0
    ensures FormatCalls(f, a + [d], maxLen) == FormatCalls(f, a, maxLen) + Formatted(AfterCalls(f, a), d, maxLen)
    ensures AfterCalls(f, a + [d]) == After(AfterCalls(f, a), d)
  {
    assert (a + [d])[..|a + [d]| - 1] == a;
  }

  lemma HeaderStarts(p: Pack)
    requires Readable(p)
    ensures IsPackHeader(HeaderCall(p)) && |HeaderCall(p)| > 8
    ensures DecodeMs(HeaderCall(p)) == Presentation(Seen(p.scr))
  {
    HeaderDecodes(HeadOf(p), SystemBytes(p));
    hide SystemBytes, RateUnits, BigEndian;
    var h := PackHeaderBytes(HeadOf(p));
    assert h[..4] == [0, 0, 1, 0xBA];
  }

  lemma ItemStarts(streamMap: seq<Elementary>, it: Item)
    requires ItemOk(it)
    ensures ItemCall(streamMap, it) != [] && !IsPackHeader(ItemCall(streamMap, it))
  {}

  /** After a whole pack nothing is pending and no payload waits for the first mark. */
  lemma {:induction false} ItemsStart(f: Fields, calls: seq<seq<Byte>>, p: Pack, items: seq<Item>, maxLen: nat)
    requires maxLen > 0 && Readable(p) && ItemsOk(items)
    ensures var all := calls + ([HeaderCall(p)] + ItemCalls(p.streamMap, items));
            && AfterCalls(f, all) == Fields(false, 0, Presentation(Seen(p.scr)))
            && Starts(FormatCalls(f, all, maxLen)) == Starts(FormatCalls(f, calls, maxLen)) + [Presentation(Seen(p.scr))]
    decreases |items|
  {
    hide Readable, HeaderCall, ItemCall, DecodeMs, ItemOk;
    if items == [] {
      var d := HeaderCall(p);
      HeaderStarts(p);
      NilRight([d]);
      MoreCalls(f, calls, d, maxLen);
      CallStarts(AfterCalls(f, calls), d, maxLen);
      StartsConcat(FormatCalls(f, calls, maxLen), Formatted(AfterCalls(f, calls), d, maxLen));
    } else {
      var front, it := items[..|items| - 1], items[|items| - 1];
      var before, d := calls + ([HeaderCall(p)] + ItemCalls(p.streamMap, front)), ItemCall(p.streamMap, it);
      ItemsStart(f, calls, p, front, maxLen);
      ItemStarts(p.streamMap, it);
      MoreCalls(f, before, d, maxLen);
      CallStarts(AfterCalls(f, before), d, maxLen);
      StartsConcat(FormatCalls(f, before, maxLen), Formatted(AfterCalls(f, before), d, maxLen));
      NilRight(Starts(FormatCalls(f, before, maxLen)));
      Regroup3(calls, [HeaderCall(p)], ItemCalls(p.streamMap, front), [d]);
    }
  }

  lemma Regroup3<T>(a: seq<T>, b: seq<T>, c: seq<T>, d: seq<T>)
    ensures a + (b + c) + d == a + (b + (c + d))
  {}

  lemma MoreTimes(packs: seq<Pack>)
    requires packs != []
    ensures var n := |packs| - 1;
            PackTimes(packs) == PackTimes(packs[..n]) + [Presentation(Seen(packs[n].scr))]
  {}

  /** Each pack sent gives exactly one payload marked as the first of a frame, with the
      time in its clock as the decode sees it. */
  lemma {:induction false} PackStarts(packs: seq<Pack>, f: Fields, maxLen: nat)
    requires maxLen > 0 && AllReadable(packs)
    ensures Starts(Payloads(packs, f, maxLen)) == PackTimes(packs)
  {
    if packs != [] {
      var n := |packs| - 1;
      var front, p := packs[..n], packs[n];
      PackStarts(front, f, maxLen);
      hide FormatCalls, AfterCalls, Readable, HeaderCall, ItemCalls, Starts, PackTimes, Presentation, Seen;
      ItemsStart(f, SentCalls(front), p, p.items, maxLen);
      MoreTimes(packs);
    }
  }

  // ----- from the encoder's bytes -----

  /** A multiplexer packet as the packetizer pushed it. */
  function Plain(p: Packet): P.Packet {
    P.Packet(p.first, p.finished, p.key, p.pes.data)
  }

  function PlainAll(ps: seq<Packet>): (r: seq<P.Packet>)
    ensures |r| == |ps|
    ensures forall i :: 0 <= i < |ps| ==> r[i] == Plain(ps[i])
  {
    seq(|ps|, i requires 0 <= i < |ps| => Plain(ps[i]))
  }

  lemma {:induction false} OpenJoins(a: seq<Packet>, v: seq<Packet>, units: seq<seq<Byte>>)
    requires OpenUnit(v) && v != [] && P.Join(PlainAll(a)) == (units, [])
    ensures P.Join(PlainAll(a + v)) == if v[|v| - 1].finished then (units + [Data(v)], []) else (units, Data(v))
    decreases |v|
  {
    var n := |v| - 1;
    var front, p := v[..n], v[n];
    MorePlain(a + front, p);
    assert a + front + [p] == a + v;
    if front == [] {
      assert a + front == a;
      assert Data(v) == [] + p.pes.data;
    } else {
      assert front[|front| - 1] == v[n - 1] && !v[n - 1].finished;
      OpenJoins(a, front, units);
    }
  }

  lemma MorePlain(a: seq<Packet>, p: Packet)
    ensures PlainAll(a + [p])[..|a|] == PlainAll(a) && PlainAll(a + [p])[|a|] == Plain(p)
  {}

  /** The access units shown, one for each pack with video. */
  function Shown(packs: seq<Pack>): seq<seq<Byte>> {
    if packs == [] then []
    else
      var before, v := Shown(packs[..|packs| - 1]), Videos(packs[|packs| - 1].items);
      if v == [] then before else before + [Data(v)]
  }

  lemma {:induction false} SentJoins(packs: seq<Pack>)
    requires AllMade(packs)
    ensures P.Join(PlainAll(SentVideos(packs))) == (Shown(packs), [])
  {
    if packs != [] {
      var n := |packs| - 1;
      var v := Videos(packs[n].items);
      SentJoins(packs[..n]);
      assert WellMade(packs[n]);
      if v == [] {
        NilRight(SentVideos(packs[..n]));
      } else {
        OpenJoins(SentVideos(packs[..n]), v, Shown(packs[..n]));
      }
    }
  }

  function NonEmpty(ds: seq<seq<Byte>>): seq<seq<Byte>> {
    if ds == [] then []
    else
      var before, d := NonEmpty(ds[..|ds| - 1]), ds[|ds| - 1];
      if d == [] then before else before + [d]
  }

  lemma {:induction false} ShownData(packs: seq<Pack>)
    requires forall u :: u in Shown(packs) ==> u != []
    ensures NonEmpty(PackData(packs)) == Shown(packs)
  {
    if packs != [] {
      var n := |packs| - 1;
      var v := Videos(packs[n].items);
      assert PackData(packs)[..n] == PackData(packs[..n]);
      assert forall u :: u in Shown(packs[..n]) ==> u in Shown(packs);
      ShownData(packs[..n]);
      if v != [] { assert Data(v) in Shown(packs); }
    }
  }

  lemma DrainedOk(m: Mux)
    requires !m.running && !m.exited && Sendable(m)
    ensures Sendable(Drained(m))
    decreases |m.video|, m.midTurn
  {
    hide Sendable, Send;
    TurnOk(m);
    if m.midTurn {
      SendOk(m);
      SendFlags(m);
      DrainedOk(Send(m));
    } else if Continues(m) {
      SendOk(Turn(m));
      FlagsStay(m);
      DrainedOk(Send(Turn(m)));
    }
  }

  /** The whole path. A stream in chunks long enough, with its cuts apart and
      nowhere short of room, is packetized and pushed, in any interleaving with the
      multiplexer and with audio; `finished` stores both flags. The payloads, joined and
      demultiplexed, then give the access units of the stream: as many packs with video,
      one unit each, in order. */
  lemma StreamDelivers(c: Splitter, chunks: seq<seq<Byte>>, steps: seq<Step>, f: Fields, maxLen: nat)
    requires chunks != [] && C.LongEnough(c, chunks) && Apart(c, Flatten(chunks))
    requires L.Roomy(c, Flatten(chunks)) && P.RunSafe(c, P.Initial(c), chunks)
    requires Possible(steps) && (forall i :: 0 <= i < |steps| ==> StepOk(steps[i])) && maxLen > 0
    requires PlainAll(PushedVideo(steps)) == R.Pushed(c, chunks)
    requires var m := Run(steps); !m.running && m.finishFlag && !m.exited
    ensures var d := Demux(Joined(Payloads(Drained(Run(steps)).sent, f, maxLen)), []);
            d.Some? && NonEmpty(Pictures(d.value)) == Units(c, Flatten(chunks))
  {
    hide Run, Possible, StepOk, Apart, L.Roomy, R.Pushed, C.LongEnough, Drained, Demux, Units;
    hide P.Join, P.RunSafe, P.Bracketed, Bracketed, PushedVideo, SentVideos, AllMade, AllReadable;
    var m, packs := Run(steps), Drained(Run(steps)).sent;
    C.StreamUnits(c, chunks);
    C.LongStream(c, chunks);
    R.PushedEnds(c, chunks);
    PlainBrackets(PushedVideo(steps));
    FinishDrains(steps);
    RunOk(steps);
    DrainedOk(m);
    UnitsShown(c, Flatten(chunks), packs);
    SendableOk(Drained(m));
    PicturesAre(packs);
    PacksDeliver(packs, f, maxLen);
  }

  lemma SendableOk(m: Mux)
    requires Sendable(m)
    ensures AllReadable(m.sent)
  {}

  lemma UnitsShown(c: Splitter, t: seq<Byte>, packs: seq<Pack>)
    requires AllMade(packs) && P.Join(PlainAll(SentVideos(packs))) == (Units(c, t), [])
    ensures NonEmpty(PackData(packs)) == Units(c, t)
  {
    hide P.Join, Units;
    SentJoins(packs);
    UnitsNonEmpty(c, t);
    ShownData(packs);
  }

  lemma PlainBrackets(ps: seq<Packet>)
    requires P.Bracketed(PlainAll(ps))
    ensures Bracketed(ps)
  {
    var q := PlainAll(ps);
    forall i | 0 < i < |ps| ensures ps[i].first == ps[i - 1].finished {
      assert q[i].first == q[i - 1].finished;
    }
  }

  // ----- key frames -----

  /** The packs with video. */
  function WithVideo(packs: seq<Pack>): seq<Pack> {
    if packs == [] then []
    else
      var before, p := WithVideo(packs[..|packs| - 1]), packs[|packs| - 1];
      if Videos(p.items) == [] then before else before + [p]
  }

  /** A key frame's pack has a stream table, and the map before everything else; no other
      pack has. */
  predicate ShowsKey(v: View, key: bool) {
    v.elements != [] && v.system.Some? == key && v.elements[0].Map? == key
  }

  lemma {:induction false} ElementsAt(streamMap: seq<Elementary>, items: seq<Item>, k: nat)
    requires k < |items|
    ensures |Elements(streamMap, items)| == |items|
    ensures Elements(streamMap, items)[k].Map? == items[k].Psm?
  {
    var n := |items| - 1;
    if k < n { ElementsAt(streamMap, items[..n], k); } else if n > 0 { ElementsAt(streamMap, items[..n], 0); }
  }

  lemma MadeShows(p: Pack)
    requires WellMade(p) && Videos(p.items) != []
    ensures ShowsKey(Show(p), Videos(p.items)[0].key)
  {
    var v := Videos(p.items);
    assert p.items[0] == (if v[0].key then Psm else Video(v[0]));
    ElementsAt(p.streamMap, p.items, 0);
    hide Elements, Videos;
  }

  /** The packets of unit `k` are marked `keys(k)`. */
  predicate KeyedBy(ps: seq<P.Packet>, keys: nat -> bool) {
    forall j :: 0 <= j < |ps| ==> ps[j].key == keys(|P.Join(ps[..j]).0|)
  }

  lemma KeyedPrefix(a: seq<Packet>, v: seq<Packet>, keys: nat -> bool)
    requires KeyedBy(PlainAll(a + v), keys)
    ensures KeyedBy(PlainAll(a), keys)
    ensures v != [] ==> v[0].key == keys(|P.Join(PlainAll(a)).0|)
  {
    hide P.Join;
    var ps, front := PlainAll(a + v), PlainAll(a);
    assert ps[..|a|] == front;
    forall j | 0 <= j < |a| ensures front[j] == ps[j] && front[..j] == ps[..j] {}
    if v != [] { assert ps[|a|] == Plain(v[0]); }
  }

  /** The packs with video carry the units in order, and show which are key frames when their
      packets are marked so. */
  lemma {:induction false} PacksShow(packs: seq<Pack>, keys: nat -> bool)
    requires AllMade(packs) && KeyedBy(PlainAll(SentVideos(packs)), keys)
    ensures var with := WithVideo(packs);
            && |with| == |Shown(packs)|
            && forall k :: 0 <= k < |with| ==> Data(Videos(with[k].items)) == Shown(packs)[k] && ShowsKey(Show(with[k]), keys(k))
  {
    hide KeyedBy, WellMade, Show, ShowsKey, P.Join, Videos, Data;
    if packs != [] {
      var n := |packs| - 1;
      var front, v := packs[..n], Videos(packs[n].items);
      KeyedPrefix(SentVideos(front), v, keys);
      PacksShow(front, keys);
      SentJoins(front);
      if v != [] { MadeShows(packs[n]); }
    }
  }

  /** The views with a picture. */
  function Shots(views: seq<View>): seq<View> {
    if views == [] then []
    else
      var before, v := Shots(views[..|views| - 1]), views[|views| - 1];
      if Picture(v.elements) == [] then before else before + [v]
  }

  lemma MoreViews(packs: seq<Pack>, p: Pack)
    ensures Views(packs + [p]) == Views(packs) + [Show(p)]
    ensures Shots(Views(packs) + [Show(p)])
         == Shots(Views(packs)) + (if Picture(Show(p).elements) == [] then [] else [Show(p)])
    ensures WithVideo(packs + [p]) == WithVideo(packs) + (if Videos(p.items) == [] then [] else [p])
  {
    hide Show, Picture, Videos, Data;
    assert (packs + [p])[..|packs|] == packs && (Views(packs) + [Show(p)])[..|packs|] == Views(packs);
    NilRight(Shots(Views(packs)));
    NilRight(WithVideo(packs));
  }

  lemma {:induction false} ShotsAre(packs: seq<Pack>)
    requires AllReadable(packs) && forall i :: 0 <= i < |packs| && Videos(packs[i].items) != [] ==> Data(Videos(packs[i].items)) != []
    ensures Shots(Views(packs)) == Views(WithVideo(packs)) && AllReadable(WithVideo(packs))
  {
    if packs == [] {
      assert Views(packs) == [];
    } else {
      var n := |packs| - 1;
      var front, p := packs[..n], packs[n];
      assert Readable(p) && AllReadable(front) && front + [p] == packs;
      assert forall i :: 0 <= i < n ==> front[i] == packs[i];
      hide Show, Picture, Videos, Data, Readable, Views, Shots, WithVideo, AllReadable;
      ShotsAre(front);
      PackAdded(WithVideo(front), p);
      MoreViews(front, p);
      MoreViews(WithVideo(front), p);
      ShowElements(p);
      PictureIs(p.streamMap, p.items);
      NilRight(Shots(Views(front)));
      NilRight(WithVideo(front));
      NoPicture();
    }
  }

  lemma {:induction false} ShownNonEmpty(packs: seq<Pack>, i: nat)
    requires i < |packs| && Videos(packs[i].items) != []
    ensures Data(Videos(packs[i].items)) in Shown(packs)
  {
    hide Videos, Data;
    if i < |packs| - 1 { ShownNonEmpty(packs[..|packs| - 1], i); }
  }

  lemma ShowElements(p: Pack)
    ensures Show(p).elements == Elements(p.streamMap, p.items)
    ensures Readable(p) ==> ItemsOk(p.items)
  {}

  lemma NoPicture()
    ensures Data([]) == []
  {}

  /** The whole path, with key frames: where each access unit is one as a whole or not at all,
      the k-th pack with a picture shows the k-th access unit of the stream, with a stream
      table and the map before it exactly if the unit is a key frame. */
  lemma KeysDeliver(c: Splitter, chunks: seq<seq<Byte>>, steps: seq<Step>, f: Fields, maxLen: nat)
    requires chunks != [] && C.LongEnough(c, chunks) && Apart(c, Flatten(chunks))
    requires L.Roomy(c, Flatten(chunks)) && K.KeysAlike(c, Flatten(chunks)) && P.RunSafe(c, P.Initial(c), chunks)
    requires Possible(steps) && (forall i :: 0 <= i < |steps| ==> StepOk(steps[i])) && maxLen > 0
    requires PlainAll(PushedVideo(steps)) == R.Pushed(c, chunks)
    requires var m := Run(steps); !m.running && m.finishFlag && !m.exited
    ensures var d := Demux(Joined(Payloads(Drained(Run(steps)).sent, f, maxLen)), []);
            var t := Flatten(chunks);
            && d.Some? && |Shots(d.value)| == |Units(c, t)|
            && forall k :: 0 <= k < |Units(c, t)| ==>
                 && Picture(Shots(d.value)[k].elements) == Units(c, t)[k]
                 && ShowsKey(Shots(d.value)[k], B.KeyBefore(c, t, M.UnitEnd(c, t, k)))
  {
    hide Run, Possible, StepOk, Apart, L.Roomy, R.Pushed, C.LongEnough, Drained, Demux, Units, K.KeysAlike, Show;
    hide P.Join, P.RunSafe, P.Bracketed, Bracketed, PushedVideo, SentVideos, AllMade, AllReadable, ShowsKey, Sendable;
    hide B.KeyBefore, M.UnitEnd, Picture, Videos, Data, Elements;
    var t, m, packs := Flatten(chunks), Run(steps), Drained(Run(steps)).sent;
    C.StreamUnits(c, chunks);
    C.LongStream(c, chunks);
    R.PushedEnds(c, chunks);
    K.AllKeysMarked(c, chunks);
    PlainBrackets(PushedVideo(steps));
    FinishDrains(steps);
    RunOk(steps);
    DrainedOk(m);
    SendableOk(Drained(m));
    PacksDeliver(packs, f, maxLen);
    KeysShow(c, t, packs);
  }

  lemma KeysShow(c: Splitter, t: seq<Byte>, packs: seq<Pack>)
    requires AllMade(packs) && AllReadable(packs) && P.Join(PlainAll(SentVideos(packs))) == (Units(c, t), [])
    requires K.AllKeysRight(c, t, PlainAll(SentVideos(packs)))
    ensures var shots := Shots(Views(packs));
            && |shots| == |Units(c, t)|
            && forall k :: 0 <= k < |Units(c, t)| ==>
                 && Picture(shots[k].elements) == Units(c, t)[k]
                 && ShowsKey(shots[k], B.KeyBefore(c, t, M.UnitEnd(c, t, k)))
  {
    hide P.Join, Units, ShowsKey, B.KeyBefore, M.UnitEnd, Show, Picture, Videos, Data, Elements;
    var keys: nat -> bool := (k: nat) => k < |Units(c, t)| && B.KeyBefore(c, t, M.UnitEnd(c, t, k));
    SentJoins(packs);
    UnitsNonEmpty(c, t);
    assert KeyedBy(PlainAll(SentVideos(packs)), keys);
    hide KeyedBy, AllMade, AllReadable;
    PacksShow(packs, keys);
    forall i | 0 <= i < |packs| && Videos(packs[i].items) != [] ensures Data(Videos(packs[i].items)) != [] {
      ShownNonEmpty(packs, i);
    }
    ShotsAre(packs);
    PicturesAre(WithVideo(packs));
    forall k | 0 <= k < |Units(c, t)|
      ensures Picture(Views(WithVideo(packs))[k].elements) == Pictures(Views(WithVideo(packs)))[k]
    {}
  }
}
