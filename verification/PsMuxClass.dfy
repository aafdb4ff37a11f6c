/** PS/PSMux.cpp and Pack of PS/Semantics.cpp with their queues, flags and buffers. */
module PsMuxClass {
  import opened Bytes
  import opened Bits
  import opened BitStreamClass
  import opened Headers
  import opened ProgramStream
  import opened Packs
  import opened Timestamps
  import opened Muxing
  import opened MuxingProofs
  import opened MuxDraining
  import opened Demultiplexing

  lemma ItemsMore(m: seq<Elementary>, items: seq<Item>, i: nat)
    requires i < |items|
    ensures Lengths(items[..i + 1]) == Lengths(items[..i]) + Counted(items[i])
    ensures ItemCalls(m, items[..i + 1]) == ItemCalls(m, items[..i]) + [ItemCall(m, items[i])]
  {
    assert items[..i + 1][..i] == items[..i];
  }

  lemma NoItems(m: seq<Elementary>, rate: nat)
    requires rate < 0x1_0000_0000
    ensures ItemCalls(m, []) == [] && Rated(rate, Lengths([])) == rate
  {}

  /** updateMuxRate, in 32 bits. */
  function Rated(rate: nat, n: nat): (r: nat)
    ensures r < 0x1_0000_0000
  {
    (rate + n) % 0x1_0000_0000
  }

  lemma RateMore(rate: nat, a: nat, b: nat)
    ensures Rated(Rated(rate, a), b) == Rated(rate, a + b)
  {}

  /** One packet serialised, and the bytes that count for the rate. */
  method ItemStream(psm: ProgramStreamMap, it: Item) returns (d: seq<Byte>, counted: nat)
    requires psm.Valid() && ItemOk(it)
    modifies psm.bitstream
    ensures psm.Valid() && d == ItemCall(psm.streams, it) && counted == Counted(it)
  {
    hide BitStream.Valid, PesBytes, PsmBytes, BitStream.Data;
    match it
    case Psm =>
      psm.ToBitStream();
      d, counted := psm.bitstream.Data(), 0;
    case Video(p) =>
      var bs := new BitStream(32);
      PesToBitStream(bs, p.pes);
      d, counted := bs.Data(), |bs.Data()|;
    case Audio(p) =>
      var bs := new BitStream(32);
      PesToBitStream(bs, p.pes);
      d, counted := bs.Data(), |bs.Data()|;
  }

  method ItemStreams(psm: ProgramStreamMap, items: seq<Item>, rate: nat) returns (streams: seq<seq<Byte>>, rated: nat)
    requires psm.Valid() && ItemsOk(items) && rate < 0x1_0000_0000
    modifies psm.bitstream
    ensures psm.Valid() && streams == ItemCalls(psm.streams, items) && rated == Rated(rate, Lengths(items))
  {
    hide ItemCall, ItemCalls, Lengths, Counted, ItemOk, Rated;
    NoItems(psm.streams, rate);
    streams, rated := [], rate;
    for i := 0 to |items|
      invariant psm.Valid() && streams == ItemCalls(psm.streams, items[..i])
      invariant rated == Rated(rate, Lengths(items[..i]))
    {
      var d, n := ItemStream(psm, items[i]);
      ItemsMore(psm.streams, items, i);
      RateMore(rate, Lengths(items[..i]), n);
      streams := streams + [d];
      rated := Rated(rated, n);
    }
    Whole(items);
  }

  /** The header bytes, then the system header's copied at a byte boundary. */
  method HeaderStream(bs: BitStream, h: PackHead)
    requires bs.Valid() && bs.lengthFieldOffset < 0 && PackOk(h)
    modifies bs
    ensures bs.Valid() && bs.Data() == PackHeaderBytes(h)
  {
    hide PackHeaderBytes;
    bs.Clear();
    PutPackHeader(bs, h);
    FinishPlain(bs, PackHeaderBytes(h));
  }

  method AppendStream(bs: BitStream, ghost done: seq<Byte>, other: BitStream)
    requires Emitted(bs, done) && bs != other && other.Valid()
    modifies bs
    ensures Emitted(bs, done + other.Data())
  {
    AtBoundary(bs, done);
    BytesBitsConcat(done, other.Data());
    hide BytesBits, BitStream.Data;
    bs.WriteBitStream(other);
  }

  method HeaderWithSystem(bs: BitStream, h: PackHead, system: SystemHeader)
    requires bs.Valid() && bs.lengthFieldOffset < 0 && PackOk(h) && bs != system.bitstream && system.Valid()
    modifies bs
    ensures bs.Valid() && bs.Data() == PackHeaderBytes(h) + system.bitstream.Data()
  {
    hide PackHeaderBytes, Emitted, BitStream.Valid, BitStream.Data, Table;
    bs.Clear();
    PutPackHeader(bs, h);
    AppendStream(bs, PackHeaderBytes(h), system.bitstream);
    FinishPlain(bs, PackHeaderBytes(h) + system.bitstream.Data());
  }

  /** The source's Pack with its PackHeader; the PES packets are held by value. */
  class PackBuffer {
    const bitstream: BitStream
    var scr: nat
    var ext: nat
    var rate: nat
    var system: SystemHeader?
    var items: seq<Item>

    ghost predicate Valid()
      reads this, bitstream
    {
      && scr < TIME && ext < 300 && rate < 0x1_0000_0000
      && ItemsOk(items) && bitstream.Valid() && bitstream.lengthFieldOffset < 0
    }

    constructor ()
      ensures Valid() && fresh(bitstream) && scr == 0 && ext == 0 && rate == 0 && system == null && items == []
    {
      bitstream := new BitStream();
      scr, ext, rate, system, items := 0, 0, 0, null, [];
    }

    method SetScr(ms: nat)
      requires Valid()
      modifies this`scr, this`ext
      ensures Valid() && scr == Base(ms) && ext == Extension(ms)
    {
      var ticks := 27000 * ms % WORD64;
      scr := ticks / 300 % TIME;
      ext := ticks % 300;
    }

    method AddPesPacket(it: Item)
      requires Valid() && ItemOk(it)
      modifies this`items
      ensures Valid() && items == old(items) + [it]
    {
      items := items + [it];
    }

    /** The clock is not cleared. */
    method Clear()
      requires Valid()
      modifies this`rate, this`system, this`items
      ensures Valid() && rate == 0 && system == null && items == []
    {
      rate, system, items := 0, null, [];
    }

    /** What the next serialisation shows. */
    ghost function Value(psm: ProgramStreamMap): Pack
      reads this, psm, system
    {
      Pack(scr, ext, if system != null then Some(system.streamTypes) else None, psm.streams, items)
    }

    method ToBitStream(psm: ProgramStreamMap) returns (streams: seq<seq<Byte>>)
      requires Valid() && psm.Valid() && rate == 0 && bitstream != psm.bitstream
      requires system != null ==> system.Valid() && system.bitstream != bitstream && system.bitstream != psm.bitstream
      modifies this`rate, bitstream, psm.bitstream, if system != null then {system.bitstream} else {}
      ensures Valid() && psm.Valid() && (system != null ==> system.Valid())
      ensures bitstream.Data() == HeaderCall(Value(psm)) && streams == ItemCalls(psm.streams, items)
    {
      hide BitStream.Valid, BitStream.Data, PackHeaderBytes, SystemHeaderBytes, Lengths, ItemCalls;
      streams, rate := ItemStreams(psm, items, rate);
      if system != null {
        system.ToBitStream();
        RateMore(0, Lengths(items), |system.bitstream.Data()|);
        rate := Rated(rate, |system.bitstream.Data()|);
        HeaderWithSystem(bitstream, PackHead(scr, ext, rate), system);
      } else {
        HeaderStream(bitstream, PackHead(scr, ext, rate));
        NilRight(PackHeaderBytes(PackHead(scr, ext, rate)));
      }
    }
  }

  /** The queues, and the locals of the thread function. */
  class PsMux {
    var videoStream: seq<Packet>
    var audioStream: seq<Packet>
    var running: bool
    var finishFlag: bool

    const pack: PackBuffer
    const systemHeader: SystemHeader
    const psm: ProgramStreamMap
    var unitFinished: bool
    var exited: bool
    var midTurn: bool

    /** What onProgramStream was called with. */
    var calls: seq<seq<Byte>>
    ghost var sent: seq<Pack>
    ghost var left: seq<Packet>

    ghost function Repr(): set<object> {
      {this, pack, pack.bitstream, psm, psm.bitstream, systemHeader, systemHeader.bitstream}
    }

    ghost predicate Apart() {
      && pack.bitstream != psm.bitstream && pack.bitstream != systemHeader.bitstream
      && psm.bitstream != systemHeader.bitstream
    }

    ghost predicate Valid()
      reads Repr()
    {
      Coherent() && pack.rate == 0
    }

    /** Valid but for the rate summed up for the pack being sent. */
    ghost predicate Coherent()
      reads Repr()
    {
      && Apart() && pack.Valid() && psm.Valid() && systemHeader.Valid()
      && (pack.system == null || pack.system == systemHeader)
      && VideosOk(videoStream) && AudiosOk(audioStream)
      && calls == SentCalls(sent)
    }

    ghost function Model(): Mux
      reads Repr()
    {
      Mux(running, finishFlag, exited, midTurn, videoStream, audioStream, left, unitFinished,
          pack.scr, pack.ext, pack.system != null, pack.items, systemHeader.streamTypes, psm.streams, sent)
    }

    constructor (unset: nat)
      requires unset < 0x1_0000
      ensures Valid() && Model() == Initial() && fresh(Repr() - {this})
    {
      videoStream, audioStream, running, finishFlag := [], [], true, false;
      pack := new PackBuffer();
      systemHeader := new SystemHeader(unset);
      psm := new ProgramStreamMap();
      unitFinished, exited, midTurn := false, false, false;
      calls, sent, left := [], [], [];
    }

    method PushVideoPES(p: Packet) returns (ok: bool)
      requires Valid() && VideoOk(p)
      modifies this`videoStream
      ensures Valid() && ok && Model() == Next(old(Model()), PushVideo(p))
    {
      videoStream := videoStream + [p];
      ok := true;
    }

    method PushAudioPES(p: Packet) returns (ok: bool)
      requires Valid() && AudioOk(p)
      modifies this`audioStream
      ensures Valid() && ok && Model() == Next(old(Model()), PushAudio(p))
    {
      audioStream := audioStream + [p];
      ok := true;
    }

    method StopRunning()
      requires Valid()
      modifies this`running
      ensures Valid() && Model() == Next(old(Model()), Stop)
    {
      running := false;
    }

    method SetFinishFlag()
      requires Valid()
      modifies this`finishFlag
      ensures Valid() && Model() == Next(old(Model()), Flag)
    {
      finishFlag := true;
    }

    /** The packet joins the pack. */
    method TakeVideo(p: Packet)
      requires Valid() && VideoOk(p)
      modifies this`unitFinished, pack, psm, systemHeader
      ensures Valid() && Model() == AddVideo(old(Model()), p)
    {
      hide Table, MapOk, ItemsOk, Base, Extension, Presentation, BitStream.Valid, SentCalls;
      ghost var items := pack.items;
      systemHeader.AddVideoStreamType(0xE0);
      psm.AddElementaryStream(p.streamType, 0xE0);
      NilRight(items);
      if p.first {
        pack.SetScr(Presentation(p.pes.pts));
        if p.key {
          pack.system := systemHeader;
          pack.AddPesPacket(Psm);
        }
      }
      pack.AddPesPacket(Video(p));
      unitFinished := p.finished;
    }

    /** The loop test and the part under the video lock. */
    method Turn()
      requires Valid() && !exited && !midTurn
      modifies this, pack, psm, systemHeader
      ensures Valid() && Model() == Next(old(Model()), TurnStep)
      ensures unchanged(this`videoStream) || |videoStream| == |old(videoStream)| - 1
    {
      hide AddVideo, SentCalls;
      if !(running || (finishFlag && videoStream != [])) {
        exited, left := true, videoStream;
        return;
      }
      midTurn := true;
      if videoStream != [] {
        var p := videoStream[0];
        videoStream := videoStream[1..];
        TakeVideo(p);
      }
    }

    method TakeAudio(p: Packet)
      requires Valid() && AudioOk(p)
      modifies pack, psm, systemHeader
      ensures Valid() && Model() == AddAudio(old(Model()), p)
    {
      hide Table, MapOk, ItemsOk, BitStream.Valid, SentCalls;
      systemHeader.AddAudioStreamType(0xC0);
      psm.AddElementaryStream(p.streamType, 0xC0);
      pack.AddPesPacket(Audio(p));
    }

    /** The whole audio queue, under its lock. */
    method TakeAllAudio()
      requires Valid()
      modifies this`audioStream, pack, psm, systemHeader
      ensures Valid() && Model() == DrainAudio(old(Model()))
    {
      ghost var all := DrainAudio(Model());
      hide AddAudio, SentCalls;
      while audioStream != []
        invariant Valid() && DrainAudio(Model()) == all
        decreases |audioStream|
      {
        var p := audioStream[0];
        ghost var m := Model();
        audioStream := audioStream[1..];
        assert Model() == m.(audio := m.audio[1..]);
        TakeAudio(p);
      }
    }

    /** onProgramStream for the header, then for each packet. */
    method Callback(header: seq<Byte>, streams: seq<seq<Byte>>)
      modifies this`calls
      ensures calls == old(calls) + ([header] + streams)
    {
      calls := calls + [header];
      ghost var before := calls;
      for i := 0 to |streams|
        invariant calls == before + streams[..i]
      {
        calls := calls + [streams[i]];
        assert streams[..i + 1] == streams[..i] + [streams[i]];
      }
      Whole(streams);
      Assoc(old(calls), [header], streams);
    }

    /** sendPack. */
    method SendPack()
      requires Valid()
      modifies this`calls, this`sent, pack`rate, pack.bitstream, psm.bitstream, systemHeader.bitstream
      ensures Coherent() && Model() == old(Model()).(sent := old(sent) + [Current(old(Model()))])
    {
      hide HeaderCall, ItemCalls, SentCalls, ItemsOk, VideosOk, AudiosOk, BitStream.Valid, BitStream.Data, Table, MapOk;
      ghost var p := pack.Value(psm);
      var streams := pack.ToBitStream(psm);
      Callback(pack.bitstream.Data(), streams);
      MoreCallsSent(sent, p);
      sent := sent + [p];
    }

    /** The rest of a turn, under the audio lock and after it. */
    method FinishTurn()
      requires Valid() && !exited && midTurn
      modifies Repr()
      ensures Valid() && Model() == Next(old(Model()), SendStep)
      ensures videoStream == old(videoStream)
    {
      hide DrainAudio, SentCalls, ItemsOk, VideosOk, AudiosOk, Table, MapOk, BitStream.Valid, AudioItems;
      DrainIs(Model());
      if unitFinished {
        TakeAllAudio();
        SendPack();
        pack.Clear();
      }
      midTurn := false;
    }

    lemma Shows()
      requires Valid()
      ensures var m := Model();
              m.running == running && m.exited == exited && m.midTurn == midTurn && m.video == videoStream
    {}

    /** The thread's turns once nothing more is pushed. */
    method Multiplexed()
      requires Valid() && !running && !exited
      modifies Repr()
      ensures Valid() && Model() == Drained(old(Model()))
    {
      hide Valid, Model, Muxing.Turn, Send, Next;
      Shows();
      ghost var m := Model();
      ghost var all := Drained(m);
      if midTurn {
        NextIs(m);
        FinishTurn();
        Shows();
        m := Model();
      }
      while !exited
        invariant Valid() && !running && !midTurn && m == Model()
        invariant m.running == running && m.exited == exited && m.midTurn == midTurn && m.video == videoStream
        invariant if exited then m == all else Drained(m) == all
        decreases |videoStream|, !exited
      {
        NextIs(m);
        DrainedStep(m);
        Turn();
        Shows();
        if !exited {
          NextIs(Model());
          FinishTurn();
          Shows();
        }
        m := Model();
      }
    }
  }

  lemma NextIs(m: Mux)
    ensures Next(m, TurnStep) == Turn(m) && Next(m, SendStep) == Send(m)
    ensures Send(m).running == m.running && Send(m).exited == m.exited && !Send(m).midTurn
  {
    SendFlags(m);
  }

  lemma DrainedStep(m: Mux)
    requires !m.running && !m.exited && !m.midTurn
    ensures Turn(m).running == m.running && Turn(m).midTurn == Continues(m) && Turn(m).exited == !Continues(m)
    ensures Continues(m) ==> var n := Send(Turn(m));
              !n.running && !n.exited && !n.midTurn && n.video == if m.video == [] then [] else m.video[1..]
    ensures Drained(m) == if Continues(m) then Drained(Send(Turn(m))) else Turn(m)
  {
    hide Send;
    if Continues(m) { FlagsStay(m); }
  }

  lemma MoreCallsSent(packs: seq<Pack>, p: Pack)
    ensures SentCalls(packs + [p]) == SentCalls(packs) + ([HeaderCall(p)] + ItemCalls(p.streamMap, p.items))
  {
    var more := packs + [p];
    assert more[..|more| - 1] == packs;
  }
}
