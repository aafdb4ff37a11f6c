/** The multiplexer thread of PS/PSMux.cpp as a state machine.

    Pushes come from other threads; the thread itself takes at most one video packet
    per turn under the video lock, then, when the access unit is finished, empties the
    audio queue under the audio lock and sends the pack. Each is one atomic step. */
module Muxing {
  import opened Bytes
  import opened Headers
  import opened ProgramStream
  import opened Packs
  import opened Timestamps

  datatype Packet = Packet(first: bool, finished: bool, key: bool, streamType: Byte, pes: Pes)

  datatype Item = Psm | Video(packet: Packet) | Audio(packet: Packet)

  /** A pack as it was serialised: the tables are those of the moment it was sent. */
  datatype Pack = Pack(scr: nat, ext: nat, system: Option<seq<StreamBound>>,
                       streamMap: seq<Elementary>, items: seq<Item>)

  /** `midTurn`: the video lock of this turn was released, the audio lock not yet
      taken. `left`: the video queue as the thread found it when it stopped. */
  datatype Mux = Mux(running: bool, finishFlag: bool, exited: bool, midTurn: bool,
                     video: seq<Packet>, audio: seq<Packet>, left: seq<Packet>,
                     unitFinished: bool, scr: nat, ext: nat, hasSystem: bool, items: seq<Item>,
                     bounds: seq<StreamBound>, streamMap: seq<Elementary>, sent: seq<Pack>)

  const VIDEO_BOUND := StreamBound(0xE0, 0, 100)
  const AUDIO_BOUND := StreamBound(0xC0, 1, 1000)

  function Initial(): Mux {
    Mux(true, false, false, false, [], [], [], false, 0, 0, false, [], [], [], [])
  }

  // ----- the steps -----

  /** The packet joins the current pack; the first of an access unit sets the clock, a
      key frame brings the system header and the map. */
  function AddVideo(m: Mux, p: Packet): Mux {
    var psm := if p.first && p.key then [Psm] else [];
    m.(bounds := AddBound(m.bounds, VIDEO_BOUND),
       streamMap := AddElementary(m.streamMap, Elementary(p.streamType, 0xE0)),
       scr := if p.first then Base(Presentation(p.pes.pts)) else m.scr,
       ext := if p.first then Extension(Presentation(p.pes.pts)) else m.ext,
       hasSystem := m.hasSystem || (p.first && p.key),
       items := m.items + psm + [Video(p)],
       unitFinished := p.finished)
  }

  predicate Continues(m: Mux) {
    m.running || (m.finishFlag && m.video != [])
  }

  /** The loop test and, when it holds, the part under the video lock. */
  function Turn(m: Mux): Mux {
    if !Continues(m) then m.(exited := true, left := m.video)
    else if m.video == [] then m.(midTurn := true)
    else AddVideo(m.(midTurn := true, video := m.video[1..]), m.video[0])
  }

  function AddAudio(m: Mux, p: Packet): Mux {
    m.(bounds := AddBound(m.bounds, AUDIO_BOUND),
       streamMap := AddElementary(m.streamMap, Elementary(p.streamType, 0xC0)),
       items := m.items + [Audio(p)])
  }

  function DrainAudio(m: Mux): Mux
    decreases |m.audio|
  {
    if m.audio == [] then m else DrainAudio(AddAudio(m.(audio := m.audio[1..]), m.audio[0]))
  }

  function Current(m: Mux): Pack {
    Pack(m.scr, m.ext, if m.hasSystem then Some(m.bounds) else None, m.streamMap, m.items)
  }

  /** The rest of a turn: nothing while the access unit is open. The clock of the pack
      survives Pack::clear. */
  function Send(m: Mux): Mux {
    if !m.unitFinished then m.(midTurn := false)
    else
      var d := DrainAudio(m);
      d.(midTurn := false, sent := d.sent + [Current(d)], items := [], hasSystem := false)
  }

  /** PSMux::finished stores its two flags one after the other. */
  datatype Step = PushVideo(packet: Packet) | PushAudio(packet: Packet) | TurnStep | SendStep | Stop | Flag

  predicate Enabled(m: Mux, s: Step) {
    match s
    case TurnStep => !m.exited && !m.midTurn
    case SendStep => !m.exited && m.midTurn
    case _ => true
  }

  function Next(m: Mux, s: Step): Mux {
    match s
    case PushVideo(p) => m.(video := m.video + [p])
    case PushAudio(p) => m.(audio := m.audio + [p])
    case TurnStep => Turn(m)
    case SendStep => Send(m)
    case Stop => m.(running := false)
    case Flag => m.(finishFlag := true)
  }

  /** The state after any interleaving, the last step first taken off. */
  function Run(steps: seq<Step>): Mux {
    if steps == [] then Initial() else Next(Run(steps[..|steps| - 1]), steps[|steps| - 1])
  }

  predicate Possible(steps: seq<Step>) {
    steps == [] || (Possible(steps[..|steps| - 1]) && Enabled(Run(steps[..|steps| - 1]), steps[|steps| - 1]))
  }

  function PushedVideo(steps: seq<Step>): seq<Packet> {
    if steps == [] then []
    else
      var before := PushedVideo(steps[..|steps| - 1]);
      if steps[|steps| - 1].PushVideo? then before + [steps[|steps| - 1].packet] else before
  }

  function PushedAudio(steps: seq<Step>): seq<Packet> {
    if steps == [] then []
    else
      var before := PushedAudio(steps[..|steps| - 1]);
      if steps[|steps| - 1].PushAudio? then before + [steps[|steps| - 1].packet] else before
  }

  // ----- what is in a pack -----

  function Videos(items: seq<Item>): seq<Packet> {
    if items == [] then []
    else
      var before := Videos(items[..|items| - 1]);
      if items[|items| - 1].Video? then before + [items[|items| - 1].packet] else before
  }

  function Audios(items: seq<Item>): seq<Packet> {
    if items == [] then []
    else
      var before := Audios(items[..|items| - 1]);
      if items[|items| - 1].Audio? then before + [items[|items| - 1].packet] else before
  }

  function SentVideos(packs: seq<Pack>): seq<Packet> {
    if packs == [] then [] else SentVideos(packs[..|packs| - 1]) + Videos(packs[|packs| - 1].items)
  }

  function SentAudios(packs: seq<Pack>): seq<Packet> {
    if packs == [] then [] else SentAudios(packs[..|packs| - 1]) + Audios(packs[|packs| - 1].items)
  }

  /** Packets of whole access units, the last perhaps open. */
  ghost predicate Bracketed(ps: seq<Packet>) {
    && (ps != [] ==> ps[0].first)
    && forall i :: 0 < i < |ps| ==> ps[i].first == ps[i - 1].finished
  }

  /** The packets of one access unit and of nothing else. */
  ghost predicate CompleteUnit(ps: seq<Packet>) {
    && OpenUnit(ps) && ps != [] && ps[|ps| - 1].finished
  }

  ghost predicate OpenUnit(ps: seq<Packet>) {
    && (ps != [] ==> ps[0].first)
    && (forall i :: 0 < i < |ps| ==> !ps[i].first)
    && (forall i :: 0 <= i < |ps| - 1 ==> !ps[i].finished)
  }

  function VideoItems(ps: seq<Packet>): (r: seq<Item>)
    ensures |r| == |ps|
    ensures forall i :: 0 <= i < |ps| ==> r[i] == Video(ps[i])
  {
    seq(|ps|, i requires 0 <= i < |ps| => Video(ps[i]))
  }

  function AudioItems(ps: seq<Packet>): (r: seq<Item>)
    ensures |r| == |ps|
    ensures forall i :: 0 <= i < |ps| ==> r[i] == Audio(ps[i])
  {
    seq(|ps|, i requires 0 <= i < |ps| => Audio(ps[i]))
  }

  /** The map when the unit is a key frame, then the unit's packets. */
  function UnitItems(ps: seq<Packet>): seq<Item> {
    (if ps != [] && ps[0].key then [Psm] else []) + VideoItems(ps)
  }

  /** The clock fields and the system header belong to the access unit in the pack. */
  ghost predicate Stamped(scr: nat, ext: nat, hasSystem: bool, ps: seq<Packet>) {
    && (ps != [] ==> scr == Base(Presentation(ps[0].pes.pts)) && ext == Extension(Presentation(ps[0].pes.pts)))
    && hasSystem == (ps != [] && ps[0].key)
  }

  /** One complete access unit or no video, then the audio. */
  ghost predicate WellMade(p: Pack) {
    var v, a := Videos(p.items), Audios(p.items);
    && (v == [] || CompleteUnit(v))
    && p.items == UnitItems(v) + AudioItems(a)
    && Stamped(p.scr, p.ext, p.system.Some?, v)
  }
}
