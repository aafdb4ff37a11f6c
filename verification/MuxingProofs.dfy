/** What every interleaving of the multiplexer's steps keeps. */
module MuxingProofs {
  import opened Bytes
  import opened Headers
  import opened ProgramStream
  import opened Packs
  import opened Timestamps
  import opened Muxing

  // ----- the items of a pack -----

  lemma MoreItems(items: seq<Item>, x: Item)
    ensures Videos(items + [x]) == Videos(items) + (if x.Video? then [x.packet] else [])
    ensures Audios(items + [x]) == Audios(items) + (if x.Audio? then [x.packet] else [])
  {
    var more := items + [x];
    assert more[..|more| - 1] == items;
    NilRight(Videos(items));
    NilRight(Audios(items));
  }

  lemma {:induction false} DrainIs(m: Mux)
    ensures var d := DrainAudio(m);
            && d == m.(audio := [], items := m.items + AudioItems(m.audio), bounds := d.bounds, streamMap := d.streamMap)
            && Videos(d.items) == Videos(m.items) && Audios(d.items) == Audios(m.items) + m.audio
    decreases |m.audio|
  {
    if m.audio == [] {
      assert AudioItems([]) == [];
      NilRight(m.items);
      NilRight(Audios(m.items));
    } else {
      var a, rest := m.audio[0], m.audio[1..];
      MoreItems(m.items, Audio(a));
      DrainIs(AddAudio(m.(audio := rest), a));
      FirstAudio(m.audio);
      hide AudioItems, Videos, Audios;
      NilRight(Videos(m.items));
      Assoc(Audios(m.items), [a], rest);
      Assoc(m.items, [Audio(a)], AudioItems(rest));
    }
  }

  lemma FirstAudio(audio: seq<Packet>)
    requires audio != []
    ensures [audio[0]] + audio[1..] == audio
    ensures [Audio(audio[0])] + AudioItems(audio[1..]) == AudioItems(audio)
  {}

  lemma MoreSent(packs: seq<Pack>, p: Pack)
    ensures SentVideos(packs + [p]) == SentVideos(packs) + Videos(p.items)
    ensures SentAudios(packs + [p]) == SentAudios(packs) + Audios(p.items)
  {
    var more := packs + [p];
    assert more[..|more| - 1] == packs;
  }

  // ----- conservation, in first-in first-out order -----

  /** Video packets that left the queue. */
  function Taken(m: Mux): seq<Packet> {
    SentVideos(m.sent) + Videos(m.items)
  }

  ghost predicate Conserved(m: Mux, pushedVideo: seq<Packet>, pushedAudio: seq<Packet>) {
    && Taken(m) + m.video == pushedVideo
    && SentAudios(m.sent) + Audios(m.items) + m.audio == pushedAudio
  }

  lemma AddVideoItems(m: Mux, p: Packet)
    ensures Videos(AddVideo(m, p).items) == Videos(m.items) + [p]
    ensures Audios(AddVideo(m, p).items) == Audios(m.items)
  {
    var psm := if p.first && p.key then [Psm] else [];
    if psm != [] { MoreItems(m.items, Psm); }
    NilRight(m.items);
    MoreItems(m.items + psm, Video(p));
    NilRight(Videos(m.items));
    NilRight(Audios(m.items));
  }

  lemma TurnTakes(m: Mux)
    requires Continues(m) && m.video != []
    ensures Taken(Turn(m)) == Taken(m) + [m.video[0]] && Turn(m).video == m.video[1..]
    ensures Audios(Turn(m).items) == Audios(m.items) && Turn(m).audio == m.audio && Turn(m).sent == m.sent
  {
    AddVideoItems(m.(midTurn := true, video := m.video[1..]), m.video[0]);
    Assoc(SentVideos(m.sent), Videos(m.items), [m.video[0]]);
  }

  lemma SendKeeps(m: Mux)
    ensures Taken(Send(m)) == Taken(m) && Send(m).video == m.video
    ensures SentAudios(Send(m).sent) + Audios(Send(m).items) + Send(m).audio == SentAudios(m.sent) + Audios(m.items) + m.audio
  {
    if m.unitFinished {
      DrainIs(m);
      var d := DrainAudio(m);
      MoreSent(m.sent, Current(d));
      NilRight(SentVideos(Send(m).sent));
      NilRight(SentAudios(Send(m).sent));
      NilRight(SentAudios(Send(m).sent));
      Assoc(SentAudios(m.sent), Audios(m.items), m.audio);
    }
  }

  lemma NextConserves(m: Mux, s: Step, pv: seq<Packet>, pa: seq<Packet>)
    requires Conserved(m, pv, pa)
    ensures Conserved(Next(m, s), if s.PushVideo? then pv + [s.packet] else pv,
                      if s.PushAudio? then pa + [s.packet] else pa)
  {
    match s
    case PushVideo(p) => Assoc(Taken(m), m.video, [p]);
    case PushAudio(p) => Assoc(SentAudios(m.sent) + Audios(m.items), m.audio, [p]);
    case TurnStep =>
      if Continues(m) && m.video != [] {
        TurnTakes(m);
        assert [m.video[0]] + m.video[1..] == m.video;
        Assoc(Taken(m), [m.video[0]], m.video[1..]);
      }
    case SendStep => SendKeeps(m);
    case Stop =>
    case Flag =>
  }

  /** In every interleaving: what was pushed is what was sent, then what is in the
      current pack, then what is queued, in the order pushed. */
  lemma {:induction false} RunConserves(steps: seq<Step>)
    ensures Conserved(Run(steps), PushedVideo(steps), PushedAudio(steps))
  {
    if steps != [] {
      var front, s := steps[..|steps| - 1], steps[|steps| - 1];
      RunConserves(front);
      NextConserves(Run(front), s, PushedVideo(front), PushedAudio(front));
    }
  }

  // ----- the shape of packs -----

  ghost predicate AllMade(packs: seq<Pack>) {
    forall i :: 0 <= i < |packs| ==> WellMade(packs[i])
  }

  lemma MoreMade(packs: seq<Pack>, p: Pack)
    requires AllMade(packs) && WellMade(p)
    ensures AllMade(packs + [p])
  {}

  ghost predicate Shaped(m: Mux) {
    AllMade(m.sent) && Building(m)
  }

  /** The pack being filled holds an open or just finished unit, and no audio yet. */
  ghost predicate Building(m: Mux) {
    var v, taken := Videos(m.items), Taken(m);
    && m.items == UnitItems(v) && OpenUnit(v)
    && Stamped(m.scr, m.ext, m.hasSystem, v)
    && m.unitFinished == (taken != [] && taken[|taken| - 1].finished)
    && (!m.midTurn ==> v == [] || !m.unitFinished)
    && (v == [] ==> taken == [] || m.unitFinished)
  }

  /** The next packet of a bracketed stream opens a unit when the last one closed one. */
  lemma NextFirst(taken: seq<Packet>, video: seq<Packet>)
    requires video != [] && Bracketed(taken + video)
    ensures video[0].first == (taken == [] || taken[|taken| - 1].finished)
  {
    var all := taken + video;
    assert all[|taken|] == video[0];
    if taken != [] { assert all[|taken|].first == all[|taken| - 1].finished; }
  }

  lemma MoreUnit(v: seq<Packet>, p: Packet)
    requires OpenUnit(v) && p.first == (v == []) && (v != [] ==> !v[|v| - 1].finished)
    ensures OpenUnit(v + [p])
    ensures UnitItems(v + [p]) == UnitItems(v) + (if p.first && p.key then [Psm] else []) + [Video(p)]
  {
    var w := v + [p];
    assert VideoItems(w) == VideoItems(v) + [Video(p)];
    if v == [] {
      assert UnitItems(v) == [];
    } else {
      assert w[0] == v[0];
      Assoc(if v[0].key then [Psm] else [], VideoItems(v), [Video(p)]);
      NilRight(UnitItems(v));
    }
  }

  /** A packet taken between two units, or inside one. */
  lemma TakenFirst(sent: seq<Packet>, v: seq<Packet>, video: seq<Packet>, done: bool)
    requires video != [] && Bracketed(sent + v + video)
    requires var taken := sent + v; done == (taken != [] && taken[|taken| - 1].finished) && (v == [] ==> taken == [] || done)
    requires v == [] || !done
    ensures video[0].first == (v == []) && (v != [] ==> !v[|v| - 1].finished)
  {
    NextFirst(sent + v, video);
    if v != [] { LastTaken(sent, v); }
  }

  lemma TurnShapes(m: Mux)
    requires Shaped(m) && !m.midTurn && Bracketed(Taken(m) + m.video)
    ensures Shaped(Turn(m))
  {
    if Continues(m) && m.video != [] {
      hide AllMade;
      TurnTakes(m);
      TurnBuilds(m, m.video[0], Videos(m.items), Taken(m));
    }
  }

  lemma TurnBuilds(m: Mux, p: Packet, v: seq<Packet>, taken: seq<Packet>)
    requires Building(m) && !m.midTurn && v == Videos(m.items) && taken == Taken(m)
    requires Continues(m) && m.video != [] && p == m.video[0] && Bracketed(taken + m.video)
    requires Taken(Turn(m)) == taken + [p]
    ensures Building(Turn(m))
  {
    hide UnitItems, OpenUnit, Bracketed, Stamped, Videos;
    TakenFirst(SentVideos(m.sent), v, m.video, m.unitFinished);
    AddVideoItems(m.(midTurn := true, video := m.video[1..]), p);
    MoreUnit(v, p);
    StampMore(m.scr, m.ext, m.hasSystem, v, p);
    SnocLast(v, p);
    SnocLast(taken, p);
  }

  lemma StampMore(scr: nat, ext: nat, hasSystem: bool, v: seq<Packet>, p: Packet)
    requires Stamped(scr, ext, hasSystem, v) && p.first == (v == [])
    ensures Stamped(if p.first then Base(Presentation(p.pes.pts)) else scr,
                    if p.first then Extension(Presentation(p.pes.pts)) else ext,
                    hasSystem || (p.first && p.key), v + [p])
  {
    hide Base, Presentation, Extension;
    SnocLast(v, p);
  }

  lemma SnocLast(v: seq<Packet>, p: Packet)
    ensures var w := v + [p]; w != [] && w[|w| - 1] == p && w[0] == (if v == [] then p else v[0])
  {}

  lemma LastTaken(sent: seq<Packet>, v: seq<Packet>)
    requires v != []
    ensures (sent + v)[|sent + v| - 1] == v[|v| - 1]
  {}

  lemma SendShapes(m: Mux)
    requires Shaped(m) && m.midTurn
    ensures Shaped(Send(m))
  {
    if m.unitFinished {
      hide UnitItems, OpenUnit, Stamped, Videos, Audios, AudioItems, WellMade, AllMade;
      var d, v := DrainAudio(m), Videos(m.items);
      DrainIs(m);
      SendKeeps(m);
      if v != [] { LastTaken(SentVideos(m.sent), v); }
      UnitHasNoAudio(v);
      NilLeft(m.audio);
      Made(Current(d), v, m.audio);
      MoreMade(m.sent, Current(d));
      NothingOpen(m.scr, m.ext);
    }
  }

  lemma Made(p: Pack, v: seq<Packet>, a: seq<Packet>)
    requires Videos(p.items) == v && Audios(p.items) == a && p.items == UnitItems(v) + AudioItems(a)
    requires OpenUnit(v) && (v != [] ==> v[|v| - 1].finished) && Stamped(p.scr, p.ext, p.system.Some?, v)
    ensures WellMade(p)
  {}

  lemma NothingOpen(scr: nat, ext: nat)
    ensures UnitItems([]) == [] && OpenUnit([]) && Videos([]) == [] && Stamped(scr, ext, false, [])
  {}

  lemma {:induction false} UnitHasNoAudio(v: seq<Packet>)
    ensures Audios(UnitItems(v)) == []
  {
    if v == [] {
    } else {
      var front, p := v[..|v| - 1], v[|v| - 1];
      assert VideoItems(v) == VideoItems(front) + [Video(p)];
      var psm := if v[0].key then [Psm] else [];
      Assoc(psm, VideoItems(front), [Video(p)]);
      MoreItems(psm + VideoItems(front), Video(p));
      if front == [] {
        assert psm + VideoItems(front) == psm;
        MoreItems([], Psm);
      } else {
        UnitHasNoAudio(front);
      }
    }
  }

  lemma BracketedPrefix(a: seq<Packet>, b: seq<Packet>)
    requires Bracketed(a + b)
    ensures Bracketed(a)
  {
    forall i | 0 < i < |a| ensures a[i].first == a[i - 1].finished {
      assert (a + b)[i] == a[i] && (a + b)[i - 1] == a[i - 1];
    }
    if a != [] { assert (a + b)[0] == a[0]; }
  }

  lemma NextShapes(m: Mux, s: Step)
    requires Shaped(m) && Enabled(m, s) && Bracketed(Taken(m) + m.video)
    ensures Shaped(Next(m, s))
  {
    match s
    case TurnStep => TurnShapes(m);
    case SendStep => SendShapes(m);
    case _ =>
  }

  /** What was pushed by the last step. */
  function LastPushed(steps: seq<Step>): (more: seq<Packet>)
    requires steps != []
    ensures PushedVideo(steps) == PushedVideo(steps[..|steps| - 1]) + more
  {
    NilRight(PushedVideo(steps[..|steps| - 1]));
    if steps[|steps| - 1].PushVideo? then [steps[|steps| - 1].packet] else []
  }

  /** In every interleaving, when the packets pushed come in whole access units, every
      pack sent holds one complete unit or no video, in the order map, video, audio,
      under the clock of its unit. */
  lemma {:induction false} RunShapes(steps: seq<Step>)
    requires Possible(steps) && Bracketed(PushedVideo(steps))
    ensures Shaped(Run(steps))
  {
    if steps == [] {
    } else {
      var front, s := steps[..|steps| - 1], steps[|steps| - 1];
      BracketedPrefix(PushedVideo(front), LastPushed(steps));
      RunConserves(front);
      RunShapes(front);
      NextShapes(Run(front), s);
    }
  }

  // ----- the tables -----

  predicate HasType(es: seq<Elementary>, streamType: Byte) {
    exists i :: 0 <= i < |es| && es[i].streamType == streamType
  }

  predicate HasId(bs: seq<StreamBound>, id: Byte) {
    exists i :: 0 <= i < |bs| && bs[i].streamId == id
  }

  predicate Tabled(it: Item, bounds: seq<StreamBound>, es: seq<Elementary>) {
    match it
    case Psm => true
    case Video(p) => HasId(bounds, 0xE0) && HasType(es, p.streamType)
    case Audio(p) => HasId(bounds, 0xC0) && HasType(es, p.streamType)
  }

  ghost predicate AllTabled(items: seq<Item>, bounds: seq<StreamBound>, es: seq<Elementary>) {
    forall i :: 0 <= i < |items| ==> Tabled(items[i], bounds, es)
  }

  /** The system header of a pack lists every stream in it, and its map every type. */
  ghost predicate TablesCover(p: Pack) {
    && (p.system.Some? ==> AllTabled(p.items, p.system.value, p.streamMap))
    && forall i :: 0 <= i < |p.items| && !p.items[i].Psm? ==> HasType(p.streamMap, p.items[i].packet.streamType)
  }

  ghost predicate AllCover(packs: seq<Pack>) {
    forall i :: 0 <= i < |packs| ==> TablesCover(packs[i])
  }

  lemma Grown(bounds: seq<StreamBound>, b: StreamBound, es: seq<Elementary>, e: Elementary)
    ensures HasId(AddBound(bounds, b), b.streamId) && HasType(AddElementary(es, e), e.streamType)
    ensures bounds <= AddBound(bounds, b) && es <= AddElementary(es, e)
  {
    var more, other := bounds + [b], es + [e];
    assert more[|bounds|] == b && other[|es|] == e;
  }

  lemma StillTabled(items: seq<Item>, bounds: seq<StreamBound>, es: seq<Elementary>,
                    bounds': seq<StreamBound>, es': seq<Elementary>)
    requires AllTabled(items, bounds, es) && bounds <= bounds' && es <= es'
    ensures AllTabled(items, bounds', es')
  {
    forall i | 0 <= i < |items| ensures Tabled(items[i], bounds', es') {
      assert Tabled(items[i], bounds, es);
      if !items[i].Psm? {
        var id := if items[i].Video? then 0xE0 else 0xC0;
        var j :| 0 <= j < |bounds| && bounds[j].streamId == id;
        var k :| 0 <= k < |es| && es[k].streamType == items[i].packet.streamType;
        assert bounds'[j].streamId == id && es'[k].streamType == items[i].packet.streamType;
      }
    }
  }

  lemma MoreTabled(items: seq<Item>, it: Item, bounds: seq<StreamBound>, es: seq<Elementary>)
    requires AllTabled(items, bounds, es) && Tabled(it, bounds, es)
    ensures AllTabled(items + [it], bounds, es)
  {}

  lemma VideoTabled(m: Mux, p: Packet)
    requires AllTabled(m.items, m.bounds, m.streamMap)
    ensures var r := AddVideo(m, p); AllTabled(r.items, r.bounds, r.streamMap)
  {
    hide AllTabled, AddBound, AddElementary, HasType, HasId, Base, Extension, Presentation;
    var r := AddVideo(m, p);
    Grown(m.bounds, VIDEO_BOUND, m.streamMap, Elementary(p.streamType, 0xE0));
    StillTabled(m.items, m.bounds, m.streamMap, r.bounds, r.streamMap);
    if p.first && p.key { MoreTabled(m.items, Psm, r.bounds, r.streamMap); }
    NilRight(m.items);
    MoreTabled(m.items + (if p.first && p.key then [Psm] else []), Video(p), r.bounds, r.streamMap);
  }

  lemma {:induction false} AudioTabled(m: Mux)
    requires AllTabled(m.items, m.bounds, m.streamMap)
    ensures var d := DrainAudio(m); AllTabled(d.items, d.bounds, d.streamMap)
    decreases |m.audio|
  {
    hide AllTabled, AddBound, AddElementary, HasType, HasId;
    if m.audio != [] {
      var p := m.audio[0];
      var r := AddAudio(m.(audio := m.audio[1..]), p);
      Grown(m.bounds, AUDIO_BOUND, m.streamMap, Elementary(p.streamType, 0xC0));
      StillTabled(m.items, m.bounds, m.streamMap, r.bounds, r.streamMap);
      MoreTabled(m.items, Audio(p), r.bounds, r.streamMap);
      AudioTabled(r);
    }
  }

  lemma CurrentCovers(m: Mux)
    requires AllTabled(m.items, m.bounds, m.streamMap)
    ensures TablesCover(Current(m)) && AllTabled([], m.bounds, m.streamMap)
  {
    hide HasType, HasId;
    assert forall i :: 0 <= i < |m.items| ==> Tabled(m.items[i], m.bounds, m.streamMap);
  }

  lemma MoreCover(packs: seq<Pack>, p: Pack)
    requires AllCover(packs) && TablesCover(p)
    ensures AllCover(packs + [p])
  {}

  lemma NextCovers(m: Mux, s: Step)
    requires AllCover(m.sent) && AllTabled(m.items, m.bounds, m.streamMap)
    ensures var n := Next(m, s); AllCover(n.sent) && AllTabled(n.items, n.bounds, n.streamMap)
  {
    hide AllCover, TablesCover, AllTabled, AddVideo, AudioItems;
    match s
    case TurnStep =>
      if Continues(m) && m.video != [] {
        var n := m.(midTurn := true, video := m.video[1..]);
        VideoTabled(n, m.video[0]);
        AddVideoSent(n, m.video[0]);
      }
    case SendStep =>
      if m.unitFinished {
        AudioTabled(m);
        DrainIs(m);
        CurrentCovers(DrainAudio(m));
        MoreCover(m.sent, Current(DrainAudio(m)));
      }
    case _ =>
  }

  lemma AddVideoSent(m: Mux, p: Packet)
    ensures AddVideo(m, p).sent == m.sent
  {}

  /** In every interleaving the tables sent with a pack cover what is in it. */
  lemma {:induction false} RunCovers(steps: seq<Step>)
    ensures var m := Run(steps); AllCover(m.sent) && AllTabled(m.items, m.bounds, m.streamMap)
  {
    if steps != [] {
      RunCovers(steps[..|steps| - 1]);
      NextCovers(Run(steps[..|steps| - 1]), steps[|steps| - 1]);
    }
  }
}
