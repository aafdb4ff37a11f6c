/** The bytes PSMux::sendPack hands out, and a demultiplexer that follows the layouts of
    ISO/IEC 13818-1: start codes and length fields only. */
module Demultiplexing {
  import opened Bytes
  import opened Headers
  import opened ProgramStream
  import opened Packs
  import opened Timestamps
  import opened Muxing
  import opened MuxingProofs

  // ----- what is sent -----

  /** The bytes that count for program_mux_rate: getBitStreamLength is not virtual, so a
      map counts nothing. */
  function Counted(it: Item): nat {
    match it
    case Psm => 0
    case Video(p) => |PesBytes(p.pes)|
    case Audio(p) => |PesBytes(p.pes)|
  }

  function Lengths(items: seq<Item>): nat {
    if items == [] then 0 else Lengths(items[..|items| - 1]) + Counted(items[|items| - 1])
  }

  function SystemBytes(p: Pack): seq<Byte> {
    if p.system.Some? then SystemHeaderBytes(p.system.value) else []
  }

  function HeadOf(p: Pack): PackHead {
    PackHead(p.scr, p.ext, (Lengths(p.items) + |SystemBytes(p)|) % 0x1_0000_0000)
  }

  /** The pack header with its system header, as one callback. */
  function HeaderCall(p: Pack): seq<Byte> {
    PackHeaderBytes(HeadOf(p)) + SystemBytes(p)
  }

  function ItemCall(streamMap: seq<Elementary>, it: Item): seq<Byte> {
    match it
    case Psm => PsmBytes(streamMap)
    case Video(p) => PesBytes(p.pes)
    case Audio(p) => PesBytes(p.pes)
  }

  function ItemCalls(streamMap: seq<Elementary>, items: seq<Item>): seq<seq<Byte>> {
    if items == [] then []
    else ItemCalls(streamMap, items[..|items| - 1]) + [ItemCall(streamMap, items[|items| - 1])]
  }

  /** The callbacks of one pack: the header, then each packet. */
  function PackCalls(p: Pack): seq<seq<Byte>> {
    [HeaderCall(p)] + ItemCalls(p.streamMap, p.items)
  }

  function SentCalls(packs: seq<Pack>): seq<seq<Byte>> {
    if packs == [] then [] else SentCalls(packs[..|packs| - 1]) + PackCalls(packs[|packs| - 1])
  }

  // ----- the reader -----

  datatype Element = Map(streams: seq<Elementary>) | Stream(id: Byte, pts: nat, data: seq<Byte>)

  /** What a demultiplexer learns from a pack: the clock, the rate in units of 50 bytes, the
      stream table if one came, and the maps and PES packets in their order. */
  datatype View = View(clock: nat, ext: nat, units: nat, system: Option<seq<StreamBound>>, elements: seq<Element>)

  /** A pack starts at a pack header of 14 bytes. A system header may follow
      it at once and nowhere else; every other element is a map or a PES packet. */
  function Demux(d: seq<Byte>, packs: seq<View>): Option<seq<View>>
    decreases |d|
  {
    if d == [] then Some(packs)
    else if |d| >= 14 && d[..4] == [0, 0, 1, 0xBA] then
      var h := ReadPackHeader(d);
      if h.None? then None
      else Demux(d[14..], packs + [View(h.value.0, h.value.1, h.value.2, None, [])])
    else
      var e := ReadElement(d);
      if e.None? || packs == [] then None
      else
        var n := Learn(packs[|packs| - 1], d, e.value.0);
        if n.None? then None else Demux(d[e.value.1..], packs[..|packs| - 1] + [n.value])
  }

  /** What the element `id` that begins `d` adds to its pack. */
  function Learn(v: View, d: seq<Byte>, id: Byte): Option<View> {
    if id == 0xBB then
      var table := ReadSystemHeader(d);
      if table.None? || v.system.Some? || v.elements != [] then None else Some(v.(system := table))
    else if id == 0xBC then
      var streams := ReadMap(d);
      if streams.None? then None else Some(v.(elements := v.elements + [Map(streams.value)]))
    else
      var p := ReadPes(d);
      if p.None? then None else Some(v.(elements := v.elements + [Stream(p.value.0, p.value.1, p.value.2)]))
  }

  // ----- what it should learn -----

  function Elements(streamMap: seq<Elementary>, items: seq<Item>): seq<Element> {
    if items == [] then []
    else
      var before, it := Elements(streamMap, items[..|items| - 1]), items[|items| - 1];
      match it
      case Psm => before + [Map(streamMap)]
      case Video(p) => before + [Stream(p.pes.streamId, p.pes.pts, p.pes.data)]
      case Audio(p) => before + [Stream(p.pes.streamId, p.pes.pts, p.pes.data)]
  }

  /** The bytes of the PES packets, 14 before the data of each. */
  function StreamBytes(elements: seq<Element>): nat {
    if elements == [] then 0
    else
      var e := elements[|elements| - 1];
      StreamBytes(elements[..|elements| - 1]) + if e.Stream? then 14 + |e.data| else 0
  }

  /** The rate counts the PES packets and the system header, and no map. */
  function RateBytes(p: Pack): nat {
    StreamBytes(Elements(p.streamMap, p.items)) + if p.system.Some? then 12 + 3 * |p.system.value| else 0
  }

  function Show(p: Pack): View {
    View(p.scr, p.ext, RateUnits(RateBytes(p) % 0x1_0000_0000), p.system, Elements(p.streamMap, p.items))
  }

  function Views(packs: seq<Pack>): seq<View> {
    seq(|packs|, i requires 0 <= i < |packs| => Show(packs[i]))
  }

  /** The video data of a pack: that of stream 0xE0. */
  function Picture(elements: seq<Element>): seq<Byte> {
    if elements == [] then []
    else
      var before, e := Picture(elements[..|elements| - 1]), elements[|elements| - 1];
      if e.Stream? && e.id == 0xE0 then before + e.data else before
  }

  function Pictures(views: seq<View>): seq<seq<Byte>> {
    seq(|views|, i requires 0 <= i < |views| => Picture(views[i].elements))
  }

  function Data(ps: seq<Packet>): seq<Byte> {
    if ps == [] then [] else Data(ps[..|ps| - 1]) + ps[|ps| - 1].pes.data
  }

  function PackData(packs: seq<Pack>): seq<seq<Byte>> {
    seq(|packs|, i requires 0 <= i < |packs| => Data(Videos(packs[i].items)))
  }

  // ----- what can be in a pack -----

  ghost predicate VideoOk(p: Packet) {
    PesOk(p.pes) && p.pes.streamId == 0xE0
  }

  ghost predicate AudioOk(p: Packet) {
    PesOk(p.pes) && p.pes.streamId == 0xC0
  }

  ghost predicate ItemOk(it: Item) {
    match it
    case Psm => true
    case Video(p) => VideoOk(p)
    case Audio(p) => AudioOk(p)
  }

  ghost predicate ItemsOk(items: seq<Item>) {
    forall i :: 0 <= i < |items| ==> ItemOk(items[i])
  }

  ghost predicate Readable(p: Pack) {
    && p.scr < TIME && p.ext < 300 && ItemsOk(p.items) && MapOk(p.streamMap)
    && (p.system.Some? ==> Table(p.system.value))
  }

  ghost predicate AllReadable(packs: seq<Pack>) {
    forall i :: 0 <= i < |packs| ==> Readable(packs[i])
  }

  // ----- reading one element -----

  lemma DemuxElement(e: seq<Byte>, id: Byte, rest: seq<Byte>, packs: seq<View>, v: View, n: View)
    requires ReadElement(e + rest) == Some((id, |e|)) && |e| >= 6 && id != 0xBA
    requires Learn(v, e + rest, id) == Some(n)
    ensures Demux(e + rest, packs + [v]) == Demux(rest, packs + [n])
  {
    hide Learn;
    var d, all := e + rest, packs + [v];
    assert d[|e|..] == rest;
    assert d[..4][3] == d[3];
    assert all[..|all| - 1] == packs;
  }

  lemma DemuxHeader(h: PackHead, rest: seq<Byte>, packs: seq<View>)
    requires PackOk(h)
    ensures Demux(PackHeaderBytes(h) + rest, packs)
         == Demux(rest, packs + [View(h.scr, h.ext, RateUnits(h.rate), None, [])])
  {
    var d := PackHeaderBytes(h) + rest;
    PackHeaderReads(h, rest);
    hide RateUnits, PackHeaderBytes, StampMarked;
    assert d[14..] == rest;
  }

  lemma DemuxItem(streamMap: seq<Elementary>, it: Item, rest: seq<Byte>, packs: seq<View>, v: View, items: seq<Item>)
    requires ItemOk(it) && MapOk(streamMap) && v.elements == Elements(streamMap, items)
    ensures Demux(ItemCall(streamMap, it) + rest, packs + [v])
         == Demux(rest, packs + [v.(elements := Elements(streamMap, items + [it]))])
  {
    hide PesBytes, PsmBytes, Demux, MapOk, ReadPes, ReadMap;
    var n := v.(elements := Elements(streamMap, items + [it]));
    assert (items + [it])[..|items|] == items;
    match it
    case Psm =>
      MapSize(streamMap);
      PsmReads(streamMap, rest);
      PsmLength(streamMap);
      DemuxElement(PsmBytes(streamMap), 0xBC, rest, packs, v, n);
    case Video(p) =>
      PesReads(p.pes, rest);
      PesLength(p.pes);
      DemuxElement(PesBytes(p.pes), 0xE0, rest, packs, v, n);
    case Audio(p) =>
      PesReads(p.pes, rest);
      PesLength(p.pes);
      DemuxElement(PesBytes(p.pes), 0xC0, rest, packs, v, n);
  }

  lemma PsmLength(es: seq<Elementary>)
    ensures |PsmBytes(es)| >= 6
  {}

  lemma PesLength(p: Pes)
    ensures |PesBytes(p)| == 14 + |p.data|
  {}

  // ----- reading packs -----

  lemma {:induction false} DemuxItems(streamMap: seq<Elementary>, items: seq<Item>, rest: seq<Byte>,
                                      packs: seq<View>, v: View)
    requires ItemsOk(items) && MapOk(streamMap) && v.elements == []
    ensures Demux(Flatten(ItemCalls(streamMap, items)) + rest, packs + [v])
         == Demux(rest, packs + [v.(elements := Elements(streamMap, items))])
    decreases |items|
  {
    hide MapOk, ItemCall, Demux, ItemOk;
    if items == [] {
      NilLeft(rest);
      assert v.(elements := Elements(streamMap, items)) == v;
    } else {
      hide Elements;
      var front, it := items[..|items| - 1], items[|items| - 1];
      var call := ItemCall(streamMap, it);
      FlattenSnoc(ItemCalls(streamMap, front), call);
      Assoc(Flatten(ItemCalls(streamMap, front)), call, rest);
      DemuxItems(streamMap, front, call + rest, packs, v);
      DemuxItem(streamMap, it, rest, packs, v.(elements := Elements(streamMap, front)), front);
      assert front + [it] == items;
    }
  }

  lemma DemuxPack(p: Pack, rest: seq<Byte>, packs: seq<View>)
    requires Readable(p)
    ensures Demux(Flatten(PackCalls(p)) + rest, packs) == Demux(rest, packs + [Show(p)])
  {
    hide Demux, PackHeaderBytes, ItemsOk, MapOk, Table, SystemHeaderBytes, Elements, Lengths, RateUnits;
    var tail := Flatten(ItemCalls(p.streamMap, p.items));
    assert PackCalls(p)[1..] == ItemCalls(p.streamMap, p.items);
    HeaderReads(p, tail + rest, packs);
    Assoc(HeaderCall(p), tail, rest);
    DemuxItems(p.streamMap, p.items, rest, packs, HeaderView(p));
  }

  /** A pack before its elements. */
  function HeaderView(p: Pack): View {
    Show(p).(elements := [])
  }

  /** The first callback of a pack gives the clock, the rate and, from byte 14 to its end, the
      stream table exactly when the pack has one. */
  lemma HeaderReads(p: Pack, rest: seq<Byte>, packs: seq<View>)
    requires Readable(p)
    ensures Demux(HeaderCall(p) + rest, packs) == Demux(rest, packs + [HeaderView(p)])
  {
    hide Demux, PackHeaderBytes, Table, SystemHeaderBytes, Elements, Lengths, RateUnits, StreamBytes, ItemsOk, MapOk;
    var v := View(p.scr, p.ext, RateUnits(HeadOf(p).rate), None, []);
    RateIs(p);
    Assoc(PackHeaderBytes(HeadOf(p)), SystemBytes(p), rest);
    DemuxHeader(HeadOf(p), SystemBytes(p) + rest, packs);
    if p.system.Some? {
      DemuxSystem(p.system.value, rest, packs, v);
    } else {
      NilLeft(rest);
    }
  }

  lemma {:induction false} LengthsAre(streamMap: seq<Elementary>, items: seq<Item>)
    ensures Lengths(items) == StreamBytes(Elements(streamMap, items))
  {
    hide PesBytes;
    if items != [] {
      LengthsAre(streamMap, items[..|items| - 1]);
      var it := items[|items| - 1];
      if !it.Psm? { PesLength(it.packet.pes); }
    }
  }

  lemma RateIs(p: Pack)
    ensures HeadOf(p).rate == RateBytes(p) % 0x1_0000_0000
  {
    LengthsAre(p.streamMap, p.items);
    if p.system.Some? { SystemLength(p.system.value); }
    hide Lengths, StreamBytes, Elements, SystemHeaderBytes;
  }

  lemma DemuxSystem(table: seq<StreamBound>, rest: seq<Byte>, packs: seq<View>, v: View)
    requires Table(table) && v.system.None? && v.elements == []
    ensures Demux(SystemHeaderBytes(table) + rest, packs + [v]) == Demux(rest, packs + [v.(system := Some(table))])
  {
    TableSize(table);
    SystemHeaderReads(table, rest);
    SystemLength(table);
    hide SystemHeaderBytes, Demux, ReadSystemHeader;
    DemuxElement(SystemHeaderBytes(table), 0xBB, rest, packs, v, v.(system := Some(table)));
  }

  lemma SystemLength(table: seq<StreamBound>)
    ensures |SystemHeaderBytes(table)| == 12 + 3 * |table|
  {}

  /** Reading everything sent gives, pack by pack, exactly what was put in: the clock, the
      stream table, the maps and the PES packets, and a rate that counts them. */
  lemma {:induction false} DemuxSent(packs: seq<Pack>, rest: seq<Byte>)
    requires AllReadable(packs)
    ensures Demux(Flatten(SentCalls(packs)) + rest, []) == Demux(rest, Views(packs))
    decreases |packs|
  {
    hide Demux, Readable, PackCalls, Show;
    if packs == [] {
      NilLeft(rest);
      assert Views(packs) == [];
    } else {
      var front, p := packs[..|packs| - 1], packs[|packs| - 1];
      var next := Flatten(PackCalls(p));
      FlattenConcat(SentCalls(front), PackCalls(p));
      Assoc(Flatten(SentCalls(front)), next, rest);
      DemuxSent(front, next + rest);
      DemuxPack(p, rest, Views(front));
      assert Views(front) + [Show(p)] == Views(packs);
    }
  }

  /** The video of a pack is that of its video packets. */
  lemma {:induction false} PictureIs(streamMap: seq<Elementary>, items: seq<Item>)
    requires ItemsOk(items)
    ensures Picture(Elements(streamMap, items)) == Data(Videos(items))
  {
    if items != [] {
      var front, it := items[..|items| - 1], items[|items| - 1];
      PictureIs(streamMap, front);
      assert ItemOk(it);
    }
  }

  lemma PicturesAre(packs: seq<Pack>)
    requires AllReadable(packs)
    ensures Pictures(Views(packs)) == PackData(packs)
  {
    hide Elements, Videos, Data, Picture, ItemsOk;
    forall i | 0 <= i < |packs| ensures Pictures(Views(packs))[i] == PackData(packs)[i] {
      assert Readable(packs[i]);
      PictureIs(packs[i].streamMap, packs[i].items);
    }
  }

  // ----- what every run sends is readable -----

  ghost predicate VideosOk(ps: seq<Packet>) {
    forall i :: 0 <= i < |ps| ==> VideoOk(ps[i])
  }

  ghost predicate AudiosOk(ps: seq<Packet>) {
    forall i :: 0 <= i < |ps| ==> AudioOk(ps[i])
  }

  ghost predicate Sendable(m: Mux) {
    && m.scr < TIME && m.ext < 300 && Table(m.bounds) && MapOk(m.streamMap)
    && ItemsOk(m.items) && VideosOk(m.video) && AudiosOk(m.audio) && AllReadable(m.sent)
  }

  ghost predicate StepOk(s: Step) {
    (s.PushVideo? ==> VideoOk(s.packet)) && (s.PushAudio? ==> AudioOk(s.packet))
  }

  lemma BoundAdded(bs: seq<StreamBound>, b: StreamBound)
    requires Table(bs) && BoundOk(b)
    ensures Table(AddBound(bs, b))
  {}

  lemma MapAdded(es: seq<Elementary>, e: Elementary)
    requires MapOk(es) && e.streamId != 0xFD
    ensures MapOk(AddElementary(es, e))
  {}

  lemma ItemAdded(items: seq<Item>, it: Item)
    requires ItemsOk(items) && ItemOk(it)
    ensures ItemsOk(items + [it])
  {}

  lemma PackAdded(packs: seq<Pack>, p: Pack)
    requires AllReadable(packs) && Readable(p)
    ensures AllReadable(packs + [p])
  {}

  lemma Clocks(p: Packet)
    ensures Base(Presentation(p.pes.pts)) < TIME && Extension(Presentation(p.pes.pts)) < 300
  {}

  lemma VideoAdds(m: Mux, p: Packet)
    requires Sendable(m) && VideoOk(p)
    ensures Sendable(AddVideo(m, p))
  {
    BoundAdded(m.bounds, VIDEO_BOUND);
    MapAdded(m.streamMap, Elementary(p.streamType, 0xE0));
    Clocks(p);
    if p.first && p.key { ItemAdded(m.items, Psm); }
    NilRight(m.items);
    ItemAdded(m.items + (if p.first && p.key then [Psm] else []), Video(p));
    hide Table, MapOk, ItemsOk, VideosOk, AudiosOk, AllReadable, Base, Presentation, Extension, AddBound, AddElementary;
  }

  lemma {:induction false} AudioAdds(m: Mux)
    requires Sendable(m)
    ensures Sendable(DrainAudio(m))
    decreases |m.audio|
  {
    if m.audio != [] {
      var p := m.audio[0];
      BoundAdded(m.bounds, AUDIO_BOUND);
      MapAdded(m.streamMap, Elementary(p.streamType, 0xC0));
      ItemAdded(m.items, Audio(p));
      assert AudiosOk(m.audio[1..]);
      hide Table, MapOk, ItemsOk, VideosOk, AudiosOk, AllReadable, AddBound, AddElementary;
      AudioAdds(AddAudio(m.(audio := m.audio[1..]), p));
    }
  }

  lemma NothingYet()
    ensures ItemsOk([]) && VideosOk([])
  {}

  lemma SendOk(m: Mux)
    requires Sendable(m)
    ensures Sendable(Send(m))
  {
    if m.unitFinished {
      hide Table, MapOk, ItemsOk, VideosOk, AudiosOk, AllReadable;
      AudioAdds(m);
      PackAdded(DrainAudio(m).sent, Current(DrainAudio(m)));
      NothingYet();
    }
  }

  lemma TurnOk(m: Mux)
    requires Sendable(m)
    ensures Sendable(Turn(m))
  {
    if Continues(m) && m.video != [] {
      var n := m.(midTurn := true, video := m.video[1..]);
      assert VideosOk(n.video);
      assert VideoOk(m.video[0]);
      hide Table, MapOk, ItemsOk, VideosOk, AudiosOk, AllReadable, AddVideo, VideoOk;
      VideoAdds(n, m.video[0]);
    }
  }

  lemma NextOk(m: Mux, s: Step)
    requires Sendable(m) && StepOk(s)
    ensures Sendable(Next(m, s))
  {
    match s
    case TurnStep => TurnOk(m);
    case SendStep => SendOk(m);
    case PushVideo(p) => assert VideosOk(m.video + [p]);
    case PushAudio(p) => assert AudiosOk(m.audio + [p]);
    case Stop =>
    case Flag =>
  }

  lemma {:induction false} RunOk(steps: seq<Step>)
    requires forall i :: 0 <= i < |steps| ==> StepOk(steps[i])
    ensures Sendable(Run(steps))
  {
    if steps != [] {
      RunOk(steps[..|steps| - 1]);
      NextOk(Run(steps[..|steps| - 1]), steps[|steps| - 1]);
    }
  }
}
