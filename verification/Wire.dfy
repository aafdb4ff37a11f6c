/** What the payloads are on the wire: numbered, stamped, and still the video. */
module Wire {
  import opened Bytes
  import opened Timestamps
  import opened Demultiplexing
  import opened Fragmenting
  import opened EndToEnd
  import A = AccessUnits
  import P = Packetizing
  import R = PacketizingRuns
  import C = ChunkIndependence
  import L = PacketRoom
  import M = Muxing
  import D = MuxDraining
  import N = Numbering
  import F = FragmentationUnits
  import FP = FragmentationProofs
  import I = NalIndependence

  function Carried(ps: seq<N.Packet>): (r: seq<Payload>)
    ensures |r| == |ps| && forall i :: 0 <= i < |ps| ==> r[i] == ps[i].payload
  {
    seq(|ps|, i requires 0 <= i < |ps| => ps[i].payload)
  }

  /** The packets that the network took. */
  function Arrived(ps: seq<N.Packet>): seq<N.Packet> {
    if ps == [] then []
    else
      var before := Arrived(ps[..|ps| - 1]);
      if ps[|ps| - 1].sent then before + [ps[|ps| - 1]] else before
  }

  /** No payload is dequeued while there is no connection, and the network takes each one
      dequeued. */
  ghost predicate Online(s: N.Sender, steps: seq<N.Step>) {
    steps == [] ||
      var front, step := steps[..|steps| - 1], steps[|steps| - 1];
      Online(s, front)
      && (step.Turn? && N.Run(s, front).queue != [] ==> N.Run(s, front).connected && step.sendOk)
  }

  /** Every payload dequeued so far was taken by the network. */
  ghost predicate Sent(s: N.Sender) {
    && Arrived(s.packets) == s.packets && Carried(s.packets) == s.taken
    && forall i :: 0 <= i < |s.packets| ==> s.packets[i].index == i
  }

  lemma NextArrives(t: N.Sender, ok: bool)
    requires t.queue != []
    ensures var r := N.Take(t, ok);
            && Arrived(r.packets) == Arrived(t.packets) + (if t.connected && ok then [r.packets[|t.packets|]] else [])
            && |r.taken| == |t.taken| + 1
  {
    var r := N.Take(t, ok);
    NilRight(Arrived(t.packets));
    if t.connected { assert r.packets[..|t.packets|] == t.packets; }
  }

  /** Every payload dequeued arrives if and only if the run stays online. */
  lemma {:induction false} OnlineSends(s: N.Sender, steps: seq<N.Step>)
    requires Sent(s)
    ensures var r := N.Run(s, steps);
            if Online(s, steps) then Sent(r) else |Arrived(r.packets)| < |r.taken|
  {
    if steps != [] {
      var front, step := steps[..|steps| - 1], steps[|steps| - 1];
      OnlineSends(s, front);
      var t, r := N.Run(s, front), N.Run(s, steps);
      if step.Turn? && t.queue != [] {
        NextArrives(t, step.sendOk);
        hide Arrived;
        if t.connected && step.sendOk && Online(s, front) {
          assert Carried(r.packets) == Carried(t.packets) + [t.queue[0]];
        }
      }
    }
  }

  /** The multiplexer's packs, sent online: the packets that arrive carry consecutive
      numbers, and their payloads, joined and demultiplexed, are exactly the video of the
      packs. */
  lemma Delivers(steps: seq<M.Step>, net: seq<N.Step>, f: Fields, maxLen: nat, seq0: nat, ts0: nat)
    requires maxLen > 0 && (forall i :: 0 <= i < |steps| ==> StepOk(steps[i])) && seq0 < N.WORD16
    requires N.Pushed(net) == Payloads(M.Run(steps).sent, f, maxLen)
    requires N.Run(N.Initial(seq0, ts0), net).queue == [] && Online(N.Initial(seq0, ts0), net)
    ensures var packets := Arrived(N.Run(N.Initial(seq0, ts0), net).packets);
            && (forall i :: 0 <= i < |packets| ==> packets[i].seqNo == (seq0 + i) % 0x1_0000)
            && Demux(Joined(Carried(packets)), []) == Some(Views(M.Run(steps).sent))
  {
    hide Demux, Payloads, Views, M.Run, StepOk, N.Run, N.Pushed, Online, Joined, Sent, Arrived, N.Counted;
    AllTaken(N.Initial(seq0, ts0), net, seq0, ts0);
    InNumber(N.Run(N.Initial(seq0, ts0), net), seq0);
    PayloadsDeliver(steps, f, maxLen);
  }

  /** The whole path, on to the network: sent online, the packets that arrive carry
      consecutive numbers and, joined and demultiplexed, the access units of the stream. */
  lemma StreamDelivers(c: A.Splitter, chunks: seq<seq<Byte>>, steps: seq<M.Step>, net: seq<N.Step>, f: Fields,
                       maxLen: nat, seq0: nat, ts0: nat)
    requires chunks != [] && C.LongEnough(c, chunks) && A.Apart(c, Flatten(chunks))
    requires L.Roomy(c, Flatten(chunks)) && P.RunSafe(c, P.Initial(c), chunks)
    requires M.Possible(steps) && (forall i :: 0 <= i < |steps| ==> StepOk(steps[i])) && maxLen > 0
    requires PlainAll(M.PushedVideo(steps)) == R.Pushed(c, chunks)
    requires var m := M.Run(steps); !m.running && m.finishFlag && !m.exited
    requires N.Pushed(net) == Payloads(D.Drained(M.Run(steps)).sent, f, maxLen) && seq0 < N.WORD16
    requires N.Run(N.Initial(seq0, ts0), net).queue == [] && Online(N.Initial(seq0, ts0), net)
    ensures var packets := Arrived(N.Run(N.Initial(seq0, ts0), net).packets);
            var d := Demux(Joined(Carried(packets)), []);
            && (forall i :: 0 <= i < |packets| ==> packets[i].seqNo == (seq0 + i) % 0x1_0000)
            && d.Some? && NonEmpty(Pictures(d.value)) == A.Units(c, Flatten(chunks))
  {
    hide Demux, Payloads, M.Run, StepOk, N.Run, N.Pushed, Online, Joined, Sent, Arrived, N.Counted, M.Possible, A.Apart;
    hide L.Roomy, R.Pushed, C.LongEnough, D.Drained, A.Units, P.RunSafe, M.PushedVideo, PlainAll;
    AllTaken(N.Initial(seq0, ts0), net, seq0, ts0);
    InNumber(N.Run(N.Initial(seq0, ts0), net), seq0);
    EndToEnd.StreamDelivers(c, chunks, steps, f, maxLen);
  }

  // ----- H.264 fragments -----

  /** The payloads RtpPayloadAvc queues: its fragments with their flags. */
  ghost predicate Queued(ps: seq<Payload>, fs: seq<F.Fragment>) {
    |ps| == |fs| && forall i :: 0 <= i < |ps| ==> F.Fragment(ps[i].first, ps[i].marker != 0, ps[i].data) == fs[i]
  }

  /** A packet as it is received: the payload, its start bit and the packet's marker. */
  function Fragment(p: N.Packet): F.Fragment {
    var d := p.payload.data;
    F.Fragment(|d| >= 2 && F.StartBit(F.Fragment(false, false, d)), p.marker == 1, d)
  }

  function Received(ps: seq<N.Packet>): (r: seq<F.Fragment>)
    ensures |r| == |ps|
  {
    seq(|ps|, i requires 0 <= i < |ps| => Fragment(ps[i]))
  }

  /** The H.264 path on to the network. Sent online, the fragments of a stream in long
      chunks arrive under consecutive numbers, the marker bit set exactly on the last one
      of a NAL unit, and rebuild the NAL units of the stream in order: all of them but the
      last, which still waits for a start code to end it, and the beginning of that. */
  lemma NalsDeliver(m: nat, header: Byte, chunks: seq<seq<Byte>>, net: seq<N.Step>, seq0: nat, ts0: nat)
    requires m >= 5 && I.LongEnough(chunks) && seq0 < N.WORD16
    requires A.CodeAt(A.Nal, Flatten(chunks), 0) && A.Apart(A.Nal, Flatten(chunks))
    requires F.RunSafe(m, F.Initial(header), chunks) && Queued(N.Pushed(net), F.Run(m, F.Initial(header), chunks).sent)
    requires N.Run(N.Initial(seq0, ts0), net).queue == [] && Online(N.Initial(seq0, ts0), net)
    ensures var packets := Arrived(N.Run(N.Initial(seq0, ts0), net).packets);
            && (forall i :: 0 <= i < |packets| ==> packets[i].seqNo == (seq0 + i) % 0x1_0000)
            && F.Fragmented(m, Received(packets))
    ensures var (units, open) := F.Nals(Received(Arrived(N.Run(N.Initial(seq0, ts0), net).packets)));
            var all := A.Units(A.Nal, Flatten(chunks));
            all != [] && units == all[..|all| - 1] && open <= all[|all| - 1]
  {
    hide F.Run, N.Run, N.Pushed, Online, N.Counted, A.Apart, A.Units, F.Fragmented, A.CodeAt, F.Nals;
    var r := F.Run(m, F.Initial(header), chunks);
    I.CarriesNals(m, header, chunks);
    AllTaken(N.Initial(seq0, ts0), net, seq0, ts0);
    var n := N.Run(N.Initial(seq0, ts0), net);
    InNumber(n, seq0);
    SameFragments(n, seq0, m, r.sent);
    var all := A.Units(A.Nal, Flatten(chunks));
    assert all[..|all| - 1] == F.Nals(r.sent).0;
  }

  lemma SameFragments(n: N.Sender, seq0: nat, m: nat, fs: seq<F.Fragment>)
    requires F.Fragmented(m, fs) && Sent(n) && N.Counted(n, seq0) && Queued(Carried(n.packets), fs)
    ensures Received(n.packets) == fs
  {
    forall i | 0 <= i < |fs| ensures Received(n.packets)[i] == fs[i] {
      assert N.Numbered(n.packets[i], seq0, n.taken);
      assert n.packets[i].payload == Carried(n.packets)[i];
    }
  }

  lemma InNumber(r: N.Sender, seq0: nat)
    requires Sent(r) && N.Counted(r, seq0)
    ensures forall i :: 0 <= i < |r.packets| ==> r.packets[i].seqNo == (seq0 + i) % 0x1_0000
  {
    forall i | 0 <= i < |r.packets| ensures r.packets[i].seqNo == (seq0 + i) % 0x1_0000 {
      assert N.Numbered(r.packets[i], seq0, r.taken);
    }
  }

  lemma AllTaken(s: N.Sender, net: seq<N.Step>, seq0: nat, ts0: nat)
    requires s == N.Initial(seq0, ts0) && seq0 < N.WORD16 && N.Run(s, net).queue == [] && Online(s, net)
    ensures var r := N.Run(s, net); Sent(r) && N.Counted(r, seq0) && Carried(r.packets) == N.Pushed(net)
  {
    OnlineSends(s, net);
    N.RunNumbers(seq0, ts0, net);
    NilRight(N.Run(s, net).taken);
  }

  // ----- time stamps -----

  /** The frame times of the packets that begin a frame. */
  function FrameTimes(ps: seq<N.Packet>): seq<nat> {
    if ps == [] then []
    else
      var before := FrameTimes(ps[..|ps| - 1]);
      if ps[|ps| - 1].payload.first then before + [ps[|ps| - 1].frameMs] else before
  }

  /** A packet that begins a frame stands for its payload's time. */
  ghost predicate Timed(ps: seq<N.Packet>) {
    forall i :: 0 <= i < |ps| && ps[i].payload.first ==> ps[i].frameMs == ps[i].payload.ms
  }

  lemma {:induction false} TimesStart(ps: seq<N.Packet>)
    requires Timed(ps)
    ensures FrameTimes(ps) == Starts(Carried(ps))
  {
    if ps != [] {
      var n := |ps| - 1;
      assert Carried(ps)[..n] == Carried(ps[..n]);
      TimesStart(ps[..n]);
    }
  }

  lemma {:induction false} FrameIs(s: N.Sender, steps: seq<N.Step>)
    requires s.packets == []
    ensures Timed(N.Run(s, steps).packets)
  {
    if steps != [] {
      var front, step := steps[..|steps| - 1], steps[|steps| - 1];
      FrameIs(s, front);
      var t, r := N.Run(s, front), N.Run(s, steps);
      assert r.packets == t.packets
          || (|r.packets| == |t.packets| + 1 && r.packets[..|t.packets|] == t.packets
              && (r.packets[|t.packets|].payload.first ==>
                    r.packets[|t.packets|].frameMs == r.packets[|t.packets|].payload.ms));
    }
  }

  /** The `i`-th time is near enough to the one before it, the first to zero. */
  predicate MovesAt(times: seq<nat>, i: nat)
    requires i < |times|
  {
    N.MovesBy(times[i], if i == 0 then 0 else times[i - 1])
  }

  ghost predicate Moving(times: seq<nat>, n: nat) {
    forall i :: n <= i < |times| ==> MovesAt(times, i)
  }

  lemma MovingMore(times: seq<nat>, x: nat, n: nat)
    requires n <= |times|
    ensures Moving(times + [x], n)
       <==> Moving(times, n) && N.MovesBy(x, if times == [] then 0 else times[|times| - 1])
  {
    var more := times + [x];
    assert MovesAt(more, |times|) == N.MovesBy(x, if times == [] then 0 else times[|times| - 1]);
    forall i | 0 <= i < |times| ensures MovesAt(more, i) == MovesAt(times, i) {
      assert more[i] == times[i] && (i > 0 ==> more[i - 1] == times[i - 1]);
    }
    hide MovesAt;
  }

  lemma {:induction false} RunConcat(s: N.Sender, a: seq<N.Step>, b: seq<N.Step>)
    ensures N.Run(s, a + b) == N.Run(N.Run(s, a), b)
    decreases |b|
  {
    if b == [] {
      NilRight(a);
    } else {
      var n := |b| - 1;
      assert (a + b)[..|a + b| - 1] == a + b[..n];
      RunConcat(s, a, b[..n]);
    }
  }

  /** The last frame time taken is the one the next is measured from. */
  lemma {:induction false} LastTaken(s: N.Sender, steps: seq<N.Step>)
    requires s.taken == [] && s.lastMs == 0 && Online(s, steps)
    ensures var r := N.Run(s, steps);
            var t := Starts(r.taken);
            r.lastMs == if t == [] then 0 else t[|t| - 1]
  {
    if steps != [] {
      var front, step := steps[..|steps| - 1], steps[|steps| - 1];
      LastTaken(s, front);
      var r := N.Run(s, front);
      if step.Turn? && r.queue != [] { assert (r.taken + [r.queue[0]])[..|r.taken|] == r.taken; }
    }
  }

  lemma {:induction false} TakenGrows(s: N.Sender, steps: seq<N.Step>)
    ensures Starts(s.taken) <= Starts(N.Run(s, steps).taken)
  {
    if steps != [] {
      var front, step := steps[..|steps| - 1], steps[|steps| - 1];
      TakenGrows(s, front);
      var r := N.Run(s, front);
      if step.Turn? && r.queue != [] { assert (r.taken + [r.queue[0]])[..|r.taken|] == r.taken; }
    }
  }

  lemma NextMoves(r: N.Sender, step: N.Step, n: nat)
    requires n <= |Starts(r.taken)|
    requires r.lastMs == var t := Starts(r.taken); if t == [] then 0 else t[|t| - 1]
    requires step.Turn? && r.queue != [] ==> r.connected
    ensures Moving(Starts(N.Next(r, step).taken), n)
       <==> Moving(Starts(r.taken), n)
            && (step.Turn? && r.queue != [] && r.connected && r.queue[0].first ==> N.MovesBy(r.queue[0].ms, r.lastMs))
  {
    hide Moving, N.MovesBy;
    if step.Turn? && r.queue != [] {
      var p := r.queue[0];
      assert (r.taken + [p])[..|r.taken|] == r.taken;
      if p.first { MovingMore(Starts(r.taken), p.ms, n); }
    }
  }

  /** Online, whether each frame moves the time stamp is a matter of the frame times. */
  lemma {:induction false} MovesOfTimes(s: N.Sender, a: seq<N.Step>, b: seq<N.Step>)
    requires s.taken == [] && s.lastMs == 0 && Online(s, a + b)
    ensures N.EachMoves(N.Run(s, a), b)
       <==> Moving(Starts(N.Run(s, a + b).taken), |Starts(N.Run(s, a).taken)|)
    decreases |b|
  {
    if b == [] {
      NilRight(a);
    } else {
      hide Moving, Starts, N.MovesBy, N.Next;
      var k := |b| - 1;
      var front := a + b[..k];
      assert (a + b)[..|a + b| - 1] == front && (a + b)[|a + b| - 1] == b[k];
      MovesOfTimes(s, a, b[..k]);
      RunConcat(s, a, b[..k]);
      LastTaken(s, front);
      TakenGrows(N.Run(s, a), b[..k]);
      NextMoves(N.Run(s, front), b[k], |Starts(N.Run(s, a).taken)|);
    }
  }

  /** RTP time stamps follow the pack clocks: sent online, the frames' times are the times
      in the packs' clocks, and every packet sent after `a` is stamped by 90 times the
      milliseconds since then, modulo 2^32, if and only if each of these times is near
      enough to the one before it. */
  lemma StampsFollow(packs: seq<M.Pack>, a: seq<N.Step>, b: seq<N.Step>, f: Fields, maxLen: nat, seq0: nat, ts0: nat)
    requires maxLen > 0 && AllReadable(packs) && seq0 < N.WORD16 && ts0 < N.WORD16
    requires N.Pushed(a + b) == Payloads(packs, f, maxLen) && Online(N.Initial(seq0, ts0), a + b)
    requires N.Run(N.Initial(seq0, ts0), a + b).queue == []
    ensures FrameTimes(Arrived(N.Run(N.Initial(seq0, ts0), a + b).packets)) == PackTimes(packs)
    ensures var s := N.Run(N.Initial(seq0, ts0), a);
            N.AllStamped(s, Arrived(N.Run(N.Initial(seq0, ts0), a + b).packets))
            <==> Moving(PackTimes(packs), |Starts(s.taken)|)
  {
    hide AllReadable, Payloads, PackTimes, Moving, N.AllStamped, N.EachMoves, Starts, Arrived, N.Run, Online;
    var s := N.Initial(seq0, ts0);
    PackStarts(packs, f, maxLen);
    AllTaken(s, a + b, seq0, ts0);
    FrameIs(s, a + b);
    TimesStart(N.Run(s, a + b).packets);
    MovesOfTimes(s, a, b);
    N.StampFits(s, a);
    N.PacketsTelescope(N.Run(s, a), b);
    RunConcat(s, a, b);
  }
}
