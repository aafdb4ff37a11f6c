/** What the stream table and the map say, entry by entry, in every interleaving. */
module MuxTables {
  import opened Bytes
  import opened Headers
  import opened ProgramStream
  import opened Packs
  import opened Timestamps
  import opened Muxing
  import opened MuxingProofs

  // ----- what may be listed -----

  /** The stream types of the video and of the audio packets pushed. */
  datatype Types = Types(video: set<Byte>, audio: set<Byte>)

  function PushedTypes(steps: seq<Step>): Types {
    Types(set p | p in PushedVideo(steps) :: p.streamType, set p | p in PushedAudio(steps) :: p.streamType)
  }

  /** Stream 0xE0 has a bound of 100 units of 128 bytes, stream 0xC0 one of 1000 of 1024: both
      as the fields of the table give them. */
  ghost predicate BoundsTrue(bs: seq<StreamBound>) {
    forall i :: 0 <= i < |bs| ==> bs[i] in {StreamBound(0xE0, 0, 100), StreamBound(0xC0, 1, 1000)}
  }

  /** A type is listed for stream 0xE0 only if video was pushed with it, and for 0xC0 only if
      audio was. */
  ghost predicate MapTrue(es: seq<Elementary>, types: Types) {
    forall i :: 0 <= i < |es| ==>
      || (es[i].streamId == 0xE0 && es[i].streamType in types.video)
      || (es[i].streamId == 0xC0 && es[i].streamType in types.audio)
  }

  ghost predicate ItemsTyped(items: seq<Item>, types: Types) {
    forall i :: 0 <= i < |items| ==>
      (items[i].Video? ==> items[i].packet.streamType in types.video)
      && (items[i].Audio? ==> items[i].packet.streamType in types.audio)
  }

  ghost predicate PackTrue(p: Pack, types: Types) {
    MapTrue(p.streamMap, types) && ItemsTyped(p.items, types) && (p.system.Some? ==> BoundsTrue(p.system.value))
  }

  ghost predicate AllTrue(packs: seq<Pack>, types: Types) {
    forall i :: 0 <= i < |packs| ==> PackTrue(packs[i], types)
  }

  ghost predicate Typed(ps: seq<Packet>, types: set<Byte>) {
    forall i :: 0 <= i < |ps| ==> ps[i].streamType in types
  }

  ghost predicate TablesTrue(m: Mux, types: Types) {
    && AllTrue(m.sent, types) && BoundsTrue(m.bounds) && MapTrue(m.streamMap, types)
    && ItemsTyped(m.items, types) && Typed(m.video, types.video) && Typed(m.audio, types.audio)
  }

  // ----- every run -----

  lemma BoundTrue(bs: seq<StreamBound>, b: StreamBound)
    requires BoundsTrue(bs) && b in {StreamBound(0xE0, 0, 100), StreamBound(0xC0, 1, 1000)}
    ensures BoundsTrue(AddBound(bs, b))
  {}

  lemma EntryTrue(es: seq<Elementary>, e: Elementary, types: Types)
    requires MapTrue(es, types)
    requires (e.streamId == 0xE0 && e.streamType in types.video) || (e.streamId == 0xC0 && e.streamType in types.audio)
    ensures MapTrue(AddElementary(es, e), types)
  {}

  lemma {:induction false} DrainTrue(m: Mux, types: Types)
    requires TablesTrue(m, types)
    ensures TablesTrue(DrainAudio(m), types)
    decreases |m.audio|
  {
    hide AddBound, AddElementary, AllTrue;
    if m.audio != [] {
      var p := m.audio[0];
      BoundTrue(m.bounds, AUDIO_BOUND);
      EntryTrue(m.streamMap, Elementary(p.streamType, 0xC0), types);
      DrainTrue(AddAudio(m.(audio := m.audio[1..]), p), types);
    }
  }

  lemma TurnTrue(m: Mux, types: Types)
    requires TablesTrue(m, types)
    ensures TablesTrue(Turn(m), types)
  {
    hide AddBound, AddElementary, AllTrue;
    if Continues(m) && m.video != [] {
      BoundTrue(m.bounds, VIDEO_BOUND);
      EntryTrue(m.streamMap, Elementary(m.video[0].streamType, 0xE0), types);
    }
  }

  lemma SendTrue(m: Mux, types: Types)
    requires TablesTrue(m, types)
    ensures TablesTrue(Send(m), types)
  {
    DrainTrue(m, types);
    hide DrainAudio, BoundsTrue, MapTrue;
  }

  lemma NextTrue(m: Mux, s: Step, types: Types)
    requires TablesTrue(m, types)
    requires s.PushVideo? ==> s.packet.streamType in types.video
    requires s.PushAudio? ==> s.packet.streamType in types.audio
    ensures TablesTrue(Next(m, s), types)
  {
    hide Turn, Send;
    match s
    case TurnStep => TurnTrue(m, types);
    case SendStep => SendTrue(m, types);
    case _ =>
  }

  lemma StillTrue(m: Mux, less: Types, more: Types)
    requires TablesTrue(m, less) && less.video <= more.video && less.audio <= more.audio
    ensures TablesTrue(m, more)
  {}

  lemma MoreTypes(steps: seq<Step>)
    requires steps != []
    ensures var n, less, more := |steps| - 1, PushedTypes(steps[..|steps| - 1]), PushedTypes(steps);
            && less.video <= more.video && less.audio <= more.audio
            && (steps[n].PushVideo? ==> steps[n].packet.streamType in more.video)
            && (steps[n].PushAudio? ==> steps[n].packet.streamType in more.audio)
  {
    var n := |steps| - 1;
    assert forall p :: p in PushedVideo(steps[..n]) ==> p in PushedVideo(steps);
    assert forall p :: p in PushedAudio(steps[..n]) ==> p in PushedAudio(steps);
    if steps[n].PushVideo? { assert steps[n].packet in PushedVideo(steps); }
    if steps[n].PushAudio? { assert steps[n].packet in PushedAudio(steps); }
  }

  /** In every interleaving the tables of every pack list the two streams with their bounds,
      and a type only for a stream it was pushed for. */
  lemma {:induction false} RunTrue(steps: seq<Step>)
    ensures TablesTrue(Run(steps), PushedTypes(steps))
  {
    if steps != [] {
      var n := |steps| - 1;
      RunTrue(steps[..n]);
      MoreTypes(steps);
      StillTrue(Run(steps[..n]), PushedTypes(steps[..n]), PushedTypes(steps));
      hide TablesTrue, PushedTypes, Next;
      NextTrue(Run(steps[..n]), steps[n], PushedTypes(steps));
    }
  }

  /** So where video and audio share no type, the map of a pack lists the type of each packet
      in it under the stream that carries it. */
  lemma TypesListed(steps: seq<Step>, i: nat, k: nat)
    requires PushedTypes(steps).video !! PushedTypes(steps).audio
    requires i < |Run(steps).sent| && k < |Run(steps).sent[i].items| && !Run(steps).sent[i].items[k].Psm?
    ensures var p := Run(steps).sent[i];
            Elementary(p.items[k].packet.streamType, if p.items[k].Video? then 0xE0 else 0xC0) in p.streamMap
  {
    RunTrue(steps);
    RunCovers(steps);
    var p, types := Run(steps).sent[i], PushedTypes(steps);
    hide Run, PushedTypes;
    assert PackTrue(p, types) && TablesCover(p);
    assert HasType(p.streamMap, p.items[k].packet.streamType);
    var j :| 0 <= j < |p.streamMap| && p.streamMap[j].streamType == p.items[k].packet.streamType;
    assert p.streamMap[j] in p.streamMap;
  }

  // ----- how the tables grow -----

  lemma {:induction false} DrainGrows(m: Mux)
    ensures var d := DrainAudio(m); m.bounds <= d.bounds && m.streamMap <= d.streamMap
    decreases |m.audio|
  {
    if m.audio != [] {
      var p := m.audio[0];
      Grown(m.bounds, AUDIO_BOUND, m.streamMap, Elementary(p.streamType, 0xC0));
      DrainGrows(AddAudio(m.(audio := m.audio[1..]), p));
      hide AddBound, AddElementary;
    }
  }

  lemma NextGrows(m: Mux, s: Step)
    ensures var n := Next(m, s); m.bounds <= n.bounds && m.streamMap <= n.streamMap
  {
    hide AddBound, AddElementary, DrainAudio;
    match s
    case TurnStep =>
      if Continues(m) && m.video != [] {
        Grown(m.bounds, VIDEO_BOUND, m.streamMap, Elementary(m.video[0].streamType, 0xE0));
      }
    case SendStep => DrainGrows(m);
    case _ =>
  }

  /** A step keeps what the tables list and adds at their end. */
  lemma TablesGrow(steps: seq<Step>)
    requires steps != []
    ensures var m, n := Run(steps[..|steps| - 1]), Run(steps); m.bounds <= n.bounds && m.streamMap <= n.streamMap
  {
    hide Next;
    NextGrows(Run(steps[..|steps| - 1]), steps[|steps| - 1]);
  }

  // ----- the clock -----

  /** The last packet that begins an access unit. */
  function LastFirst(ps: seq<Packet>): Option<Packet> {
    if ps == [] then None
    else if ps[|ps| - 1].first then Some(ps[|ps| - 1]) else LastFirst(ps[..|ps| - 1])
  }

  /** The clock after these packets: that of the last access unit begun, and nothing before
      the first. */
  predicate ClockOf(scr: nat, ext: nat, ps: seq<Packet>) {
    match LastFirst(ps)
    case None => scr == 0 && ext == 0
    case Some(p) => scr == Base(Presentation(p.pes.pts)) && ext == Extension(Presentation(p.pes.pts))
  }

  /** Each pack has the clock of the last access unit begun in it or in a pack before it. */
  ghost predicate AllClocked(packs: seq<Pack>) {
    forall i :: 0 <= i < |packs| ==> ClockOf(packs[i].scr, packs[i].ext, SentVideos(packs[..i + 1]))
  }

  ghost predicate Clocked(m: Mux) {
    AllClocked(m.sent) && ClockOf(m.scr, m.ext, SentVideos(m.sent) + Videos(m.items))
  }

  lemma AddClocked(m: Mux, p: Packet)
    requires Clocked(m)
    ensures Clocked(AddVideo(m, p))
  {
    hide Base, Extension, Presentation, AllClocked, AddBound, AddElementary;
    var psm := if p.first && p.key then [Psm] else [];
    PsmIsNoVideo(m.items, psm);
    MoreItems(m.items + psm, Video(p));
    Assoc(SentVideos(m.sent), Videos(m.items), [p]);
    var all := SentVideos(m.sent) + Videos(m.items) + [p];
    assert all[..|all| - 1] == SentVideos(m.sent) + Videos(m.items);
  }

  lemma PsmIsNoVideo(items: seq<Item>, psm: seq<Item>)
    requires psm == [] || psm == [Psm]
    ensures Videos(items + psm) == Videos(items)
  {
    if psm == [] {
      NilRight(items);
    } else {
      assert (items + psm)[..|items|] == items;
    }
  }

  lemma SendClocked(m: Mux)
    requires Clocked(m)
    ensures Clocked(Send(m))
  {
    if m.unitFinished {
      DrainIs(m);
      var d := DrainAudio(m);
      hide DrainAudio, AudioItems, ClockOf, Videos;
      MoreClocked(m.sent, Current(d));
      NoVideos(SentVideos(m.sent + [Current(d)]));
    }
  }

  lemma NoVideos(a: seq<Packet>)
    ensures a + Videos([]) == a
  {}

  lemma MoreClocked(packs: seq<Pack>, p: Pack)
    requires AllClocked(packs) && ClockOf(p.scr, p.ext, SentVideos(packs) + Videos(p.items))
    ensures AllClocked(packs + [p]) && SentVideos(packs + [p]) == SentVideos(packs) + Videos(p.items)
  {
    hide ClockOf, Videos;
    var more := packs + [p];
    assert more[..|packs|] == packs && more[..|packs| + 1] == more;
    forall i | 0 <= i < |packs| ensures more[i] == packs[i] && more[..i + 1] == packs[..i + 1] {}
  }

  lemma NextClocked(m: Mux, s: Step)
    requires Clocked(m)
    ensures Clocked(Next(m, s))
  {
    hide AllClocked, ClockOf, AddVideo, Send, SentVideos, Videos;
    match s
    case TurnStep =>
      if Continues(m) && m.video != [] { AddClocked(m.(midTurn := true, video := m.video[1..]), m.video[0]); }
    case SendStep => SendClocked(m);
    case _ =>
  }

  /** In every interleaving the clock of a pack is that of the last access unit begun when it
      was sent, also when the pack holds no video. */
  lemma {:induction false} RunClocked(steps: seq<Step>)
    ensures Clocked(Run(steps))
  {
    if steps == [] {
      NoVideos(SentVideos([]));
    } else {
      RunClocked(steps[..|steps| - 1]);
      hide Clocked, Next;
      NextClocked(Run(steps[..|steps| - 1]), steps[|steps| - 1]);
    }
  }

  // ----- the audio -----

  /** A pack takes all audio that is queued when its unit is finished, and none before. */
  lemma SendTakesAudio(steps: seq<Step>)
    requires steps != [] && steps[|steps| - 1] == SendStep
    ensures var m, n := Run(steps[..|steps| - 1]), Run(steps);
            if m.unitFinished then
              && n.audio == [] && |n.sent| == |m.sent| + 1 && n.sent[..|m.sent|] == m.sent
              && Audios(n.sent[|m.sent|].items) == Audios(m.items) + m.audio
            else n.audio == m.audio && n.sent == m.sent
  {
    DrainIs(Run(steps[..|steps| - 1]));
    hide DrainAudio, AudioItems, Audios;
  }
}
