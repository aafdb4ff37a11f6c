/** RTP/RtpParticipant.cpp: the sender thread's queue, sequence numbers and time stamps
    (section 5.1 of RFC 3550). */
module Numbering {
  import opened Bytes
  import opened Fragmenting

  const WORD16: nat := 0x1_0000
  const WORD32: nat := 0x1_0000_0000

  /** A packet handed to the network. `index` counts the payloads dequeued before it;
      `frameMs` is the frame time its time stamp stands for; `sent` is whether the network
      took it. */
  datatype Packet = Packet(index: nat, seqNo: nat, ts: nat, marker: nat, frameMs: nat, payload: Payload, sent: bool)

  datatype Sender = Sender(queue: seq<Payload>, taken: seq<Payload>, seqNo: nat, ts: nat, lastMs: nat,
                           connected: bool, packets: seq<Packet>)

  /** Both numbers start at random. */
  function Initial(seq0: nat, ts0: nat): Sender {
    Sender([], [], seq0, ts0, 0, false, [])
  }

  /** The difference of two 64-bit times cut to 32 bits; a jump of more than a second
      counts as none. */
  function Delta(ms: nat, last: nat): nat {
    (ms as int - last as int) % WORD32
  }

  function Stamp(s: Sender, p: Payload): nat {
    if !p.first then s.ts
    else (s.ts + (if Delta(p.ms, s.lastMs) > 1000 then 0 else Delta(p.ms, s.lastMs)) * 90) % WORD32
  }

  /** One payload dequeued: handed to the network when connected, numbered in any case. A
      send that fails ends the connection. */
  function Take(s: Sender, sendOk: bool): Sender
    requires s.queue != []
  {
    var p := s.queue[0];
    var t := s.(queue := s.queue[1..], taken := s.taken + [p], seqNo := (s.seqNo + 1) % WORD16);
    if !s.connected then t
    else
      var ts, last := Stamp(s, p), if p.first then p.ms else s.lastMs;
      var q := Packet(|s.taken|, s.seqNo, ts, if p.marker != 0 then 1 else 0, last, p, sendOk);
      t.(ts := ts, lastMs := last, packets := s.packets + [q], connected := sendOk)
  }

  datatype Step = Push(payload: Payload) | Turn(sendOk: bool) | Connect(ok: bool) | Disconnect

  function Next(s: Sender, step: Step): Sender {
    match step
    case Push(p) => s.(queue := s.queue + [p])
    case Turn(ok) => if s.queue == [] then s else Take(s, ok)
    case Connect(ok) => if s.connected then s else s.(connected := ok)
    case Disconnect => s.(connected := false)
  }

  function Run(s: Sender, steps: seq<Step>): Sender {
    if steps == [] then s else Next(Run(s, steps[..|steps| - 1]), steps[|steps| - 1])
  }

  function Pushed(steps: seq<Step>): seq<Payload> {
    if steps == [] then []
    else
      var before := Pushed(steps[..|steps| - 1]);
      if steps[|steps| - 1].Push? then before + [steps[|steps| - 1].payload] else before
  }

  // ----- sequence numbers -----

  ghost predicate Numbered(p: Packet, seq0: nat, taken: seq<Payload>) {
    && p.index < |taken| && p.payload == taken[p.index] && p.seqNo == (seq0 + p.index) % 0x1_0000
    && p.marker == (if p.payload.marker != 0 then 1 else 0)
  }

  ghost predicate AllNumbered(packets: seq<Packet>, seq0: nat, taken: seq<Payload>) {
    && (forall i :: 0 <= i < |packets| ==> Numbered(packets[i], seq0, taken))
    && forall i, j :: 0 <= i < j < |packets| ==> packets[i].index < packets[j].index
  }

  lemma StillNumbered(packets: seq<Packet>, seq0: nat, taken: seq<Payload>, p: Payload)
    requires AllNumbered(packets, seq0, taken)
    ensures AllNumbered(packets, seq0, taken + [p])
  {
    forall i | 0 <= i < |packets| ensures Numbered(packets[i], seq0, taken + [p]) {
      assert Numbered(packets[i], seq0, taken);
    }
  }

  lemma MoreNumbered(packets: seq<Packet>, seq0: nat, taken: seq<Payload>, q: Packet)
    requires AllNumbered(packets, seq0, taken) && q.index == |taken| && q.seqNo == (seq0 + |taken|) % WORD16
    requires q.marker == if q.payload.marker != 0 then 1 else 0
    ensures AllNumbered(packets + [q], seq0, taken + [q.payload])
  {
    StillNumbered(packets, seq0, taken, q.payload);
    var more := packets + [q];
    assert Numbered(q, seq0, taken + [q.payload]);
    forall i, j | 0 <= i < j < |more| ensures more[i].index < more[j].index {
      assert Numbered(more[i], seq0, if j == |packets| then taken else taken + [q.payload]);
    }
  }

  lemma SeqWraps(seq0: nat, n: nat)
    ensures ((seq0 + n) % WORD16 + 1) % WORD16 == (seq0 + (n + 1)) % WORD16
  {}

  ghost predicate Counted(s: Sender, seq0: nat) {
    AllNumbered(s.packets, seq0, s.taken) && s.seqNo == (seq0 + |s.taken|) % 0x1_0000
  }

  lemma NextNumbers(s: Sender, step: Step, seq0: nat)
    requires Counted(s, seq0)
    ensures Counted(Next(s, step), seq0)
  {
    if step.Turn? && s.queue != [] {
      hide AllNumbered;
      var p, n := s.queue[0], Next(s, step);
      SeqWraps(seq0, |s.taken|);
      StillNumbered(s.packets, seq0, s.taken, p);
      if s.connected { MoreNumbered(s.packets, seq0, s.taken, n.packets[|s.packets|]); }
    }
  }

  lemma {:induction false} Queued(s: Sender, steps: seq<Step>)
    ensures Run(s, steps).taken + Run(s, steps).queue == s.taken + s.queue + Pushed(steps)
  {
    if steps == [] {
      NilRight(s.taken + s.queue);
    } else {
      var front, step := steps[..|steps| - 1], steps[|steps| - 1];
      var r := Run(s, front);
      Queued(s, front);
      match step
      case Push(p) =>
        Assoc(r.taken, r.queue, [p]);
        Assoc(s.taken + s.queue, Pushed(front), [p]);
      case Turn(ok) =>
        if r.queue != [] {
          assert [r.queue[0]] + r.queue[1..] == r.queue;
          Assoc(r.taken, [r.queue[0]], r.queue[1..]);
        }
      case Connect(ok) =>
      case Disconnect =>
    }
  }

  /** Whatever the network does: payloads leave the queue in the order pushed, the k-th
      to leave it carries number seq0 + k modulo 2^16 if it is sent, and takes it up if
      it is not. */
  lemma {:induction false} RunNumbers(seq0: nat, ts0: nat, steps: seq<Step>)
    requires seq0 < WORD16
    ensures Counted(Run(Initial(seq0, ts0), steps), seq0)
    ensures var r := Run(Initial(seq0, ts0), steps); r.taken + r.queue == Pushed(steps)
  {
    if steps != [] {
      var front, step := steps[..|steps| - 1], steps[|steps| - 1];
      RunNumbers(seq0, ts0, front);
      NextNumbers(Run(Initial(seq0, ts0), front), step, seq0);
    }
    Queued(Initial(seq0, ts0), steps);
    NilLeft(Pushed(steps));
  }

  // ----- the connection -----

  /** The network took every packet of `after` behind those of `before`. */
  predicate TookAll(before: seq<Packet>, after: seq<Packet>) {
    forall i :: |before| <= i < |after| ==> after[i].sent
  }

  predicate Stays(steps: seq<Step>, k: nat) {
    forall l :: k < l < |steps| ==> steps[l] != Disconnect
  }

  lemma StaysMore(steps: seq<Step>, k: nat)
    requires steps != [] && k < |steps| - 1
    ensures Stays(steps, k) <==> Stays(steps[..|steps| - 1], k) && steps[|steps| - 1] != Disconnect
  {
    var front := steps[..|steps| - 1];
    assert forall l :: 0 <= l < |front| ==> front[l] == steps[l];
  }

  /** The connection was made in step `k`, and nothing has ended it since: no disconnect, and
      no packet that the network did not take. */
  ghost predicate LinkedSince(s: Sender, steps: seq<Step>, k: nat)
    requires k < |steps|
  {
    && steps[k] == Connect(true) && Stays(steps, k)
    && TookAll(Run(s, steps[..k]).packets, Run(s, steps).packets)
  }

  ghost predicate Linked(s: Sender, steps: seq<Step>) {
    exists k :: 0 <= k < |steps| && LinkedSince(s, steps, k)
  }

  lemma {:induction false} PacketsGrow(s: Sender, steps: seq<Step>, k: nat)
    requires k <= |steps|
    ensures Run(s, steps[..k]).packets <= Run(s, steps).packets
    decreases |steps|
  {
    if k < |steps| {
      var front := steps[..|steps| - 1];
      PacketsGrow(s, front, k);
      assert front[..k] == steps[..k];
    } else {
      assert steps[..k] == steps;
    }
  }

  lemma StillLinked(s: Sender, steps: seq<Step>, k: nat)
    requires steps != [] && k < |steps| - 1
    ensures var n := |steps| - 1;
            var p, q := Run(s, steps[..n]).packets, Run(s, steps).packets;
            LinkedSince(s, steps, k) <==> LinkedSince(s, steps[..n], k) && steps[n] != Disconnect && TookAll(p, q)
  {
    var n := |steps| - 1;
    var front := steps[..n];
    assert front[..k] == steps[..k];
    PacketsGrow(s, front, k);
    PacketsGrow(s, steps, n);
    hide Run, TookAll, Stays;
    Taken(Run(s, front[..k]).packets, Run(s, front).packets, Run(s, steps).packets);
    StaysMore(steps, k);
    assert front[k] == steps[k];
  }

  lemma Taken(o: seq<Packet>, p: seq<Packet>, q: seq<Packet>)
    requires o <= p <= q
    ensures TookAll(o, q) <==> TookAll(o, p) && TookAll(p, q)
  {
    assert forall i :: 0 <= i < |p| ==> q[i] == p[i];
  }

  lemma LinkedMore(s: Sender, steps: seq<Step>)
    requires steps != []
    ensures var n := |steps| - 1;
            var p, q := Run(s, steps[..n]).packets, Run(s, steps).packets;
            Linked(s, steps)
            <==> steps[n] == Connect(true) || (Linked(s, steps[..n]) && steps[n] != Disconnect && TookAll(p, q))
  {
    var n := |steps| - 1;
    var front := steps[..n];
    if steps[n] == Connect(true) {
      ConnectSends(s, steps);
      assert LinkedSince(s, steps, n);
    }
    hide Run, TookAll;
    forall k | 0 <= k < n
      ensures LinkedSince(s, steps, k)
         <==> LinkedSince(s, front, k) && steps[n] != Disconnect && TookAll(Run(s, front).packets, Run(s, steps).packets)
    {
      StillLinked(s, steps, k);
    }
    assert LinkedSince(s, steps, n) ==> steps[n] == Connect(true);
    hide LinkedSince;
  }

  lemma ConnectSends(s: Sender, steps: seq<Step>)
    requires steps != [] && steps[|steps| - 1] == Connect(true)
    ensures Run(s, steps).packets == Run(s, steps[..|steps| - 1]).packets
  {}

  lemma NextConnected(r: Sender, step: Step)
    ensures var n := Next(r, step);
            n.connected
            <==> step == Connect(true) || (r.connected && step != Disconnect && TookAll(r.packets, n.packets))
  {
    hide Stamp;
    var p, q := r.packets, Next(r, step).packets;
    assert |q| == |p| || (|q| == |p| + 1 && (TookAll(p, q) <==> q[|p|].sent));
  }

  /** A participant that began unconnected is connected if and only if it was connected and
      since then neither disconnected nor lost a packet. */
  lemma {:induction false} ConnectedIs(s: Sender, steps: seq<Step>)
    requires !s.connected
    ensures Run(s, steps).connected <==> Linked(s, steps)
  {
    if steps != [] {
      ConnectedIs(s, steps[..|steps| - 1]);
      LinkedMore(s, steps);
      NextConnected(Run(s, steps[..|steps| - 1]), steps[|steps| - 1]);
      hide Linked, Next, TookAll;
    }
  }

  /** What is dequeued goes to the network exactly then; so after a packet the network did
      not take, none follows before the connection is made anew. */
  lemma HandedOver(s: Sender, steps: seq<Step>, ok: bool)
    requires !s.connected && Run(s, steps).queue != []
    ensures var r := Run(s, steps);
            |Run(s, steps + [Turn(ok)]).packets| == |r.packets| + if Linked(s, steps) then 1 else 0
  {
    ConnectedIs(s, steps);
    assert (steps + [Turn(ok)])[..|steps|] == steps;
  }

  /** Between a packet the network did not take and the next one the connection is made
      anew. */
  lemma {:induction false} FailureReconnects(s: Sender, steps: seq<Step>, i: nat)
    requires !s.connected && |s.packets| <= i && i + 1 < |Run(s, steps).packets| && !Run(s, steps).packets[i].sent
    ensures exists k :: 0 <= k < |steps| && steps[k] == Connect(true) && |Run(s, steps[..k]).packets| == i + 1
  {
    var n := |steps| - 1;
    var front := steps[..n];
    var r := Run(s, front);
    if i + 1 < |r.packets| {
      FailureReconnects(s, front, i);
      var k :| 0 <= k < n && front[k] == Connect(true) && |Run(s, front[..k]).packets| == i + 1;
      assert front[..k] == steps[..k];
    } else {
      ConnectedIs(s, front);
      assert Next(r, steps[n]) == Run(s, steps) && |r.packets| == i + 1 && r.connected;
      var k :| 0 <= k < n && LinkedSince(s, front, k);
      PacketsGrow(s, front, k);
      assert front[..k] == steps[..k];
      assert r.packets[i] == Run(s, steps).packets[i];
      assert |Run(s, front[..k]).packets| > i;
    }
  }

  // ----- time stamps -----

  /** The 32-bit gap is at most a second, or half the range, which 90 takes to zero. */
  predicate MovesBy(ms: nat, last: nat) {
    var gap := (ms as int - last as int) % 0x1_0000_0000;
    gap <= 1000 || gap == 0x8000_0000
  }

  /** A frame's time stamp moves on by 90 times its milliseconds exactly when the gap does
      so. */
  lemma StampMoves(s: Sender, p: Payload)
    requires p.first && s.ts < WORD32
    ensures Stamp(s, p) == (s.ts + 90 * (p.ms as int - s.lastMs as int)) % 0x1_0000_0000 <==> MovesBy(p.ms, s.lastMs)
  {
    var d, x := Delta(p.ms, s.lastMs), p.ms as int - s.lastMs as int;
    SameModulo(s.ts, x, d);
    if d > 1000 { NoMove(s.ts, d); }
  }

  lemma SameModulo(ts: nat, x: int, d: nat)
    requires d == x % WORD32
    ensures (ts + 90 * x) % WORD32 == (ts + 90 * d) % WORD32
  {
    var q := x / WORD32;
    assert x == q * WORD32 + d;
    assert ts + 90 * x == ts + 90 * d + 90 * q * WORD32;
    AddMultiple(ts + 90 * d, 90 * q);
  }

  lemma AddMultiple(a: int, k: int)
    ensures (a + k * WORD32) % WORD32 == a % WORD32
  {}

  lemma NoMove(ts: nat, d: nat)
    requires ts < WORD32 && d < WORD32
    ensures (ts + 90 * d) % WORD32 == ts <==> d == 0 || d == 0x8000_0000
  {
    if (ts + 90 * d) % WORD32 == ts {
      var k := (ts + 90 * d) / WORD32;
      assert 90 * d == k * WORD32;
      assert 45 * d == k * 0x8000_0000;
      assert d % 0x8000_0000 == 0;
    }
  }

  /** Time stamp `u` of a frame at `b` is as far from `t` as `b` is from `a`. */
  predicate InStep(t: nat, a: nat, u: nat, b: nat) {
    u == (t + 90 * (b as int - a as int)) % 0x1_0000_0000
  }

  lemma Telescope(t: nat, a: nat, u: nat, b: nat, v: nat, c: nat)
    requires InStep(t, a, u, b)
    ensures InStep(t, a, v, c) <==> InStep(u, b, v, c)
  {
    var q := (t + 90 * (b as int - a as int)) / WORD32;
    assert t + 90 * (c as int - a as int) == u + 90 * (c as int - b as int) + q * WORD32;
    AddMultiple(u + 90 * (c as int - b as int), q);
  }

  /** Each frame handed to the network is near enough to the one before it. */
  ghost predicate EachMoves(s: Sender, steps: seq<Step>) {
    steps == [] ||
      var front, step := steps[..|steps| - 1], steps[|steps| - 1];
      var r := Run(s, front);
      EachMoves(s, front)
      && (step.Turn? && r.queue != [] && r.connected && r.queue[0].first ==> MovesBy(r.queue[0].ms, r.lastMs))
  }

  lemma NextStamp(s: Sender, r: Sender, step: Step)
    requires InStep(s.ts, s.lastMs, r.ts, r.lastMs)
    ensures var n := Next(r, step);
            InStep(s.ts, s.lastMs, n.ts, n.lastMs)
            <==> (step.Turn? && r.queue != [] && r.connected && r.queue[0].first ==> MovesBy(r.queue[0].ms, r.lastMs))
  {
    hide Delta;
    if step.Turn? && r.queue != [] && r.connected && r.queue[0].first {
      var p := r.queue[0];
      StampMoves(r, p);
      Telescope(s.ts, s.lastMs, r.ts, r.lastMs, Stamp(r, p), p.ms);
    }
  }

  /** From any state, through connections and losses: the time stamp keeps up with the
      frame times, modulo 2^32, after every step if and only if each frame moves it. */
  lemma {:induction false} StampsTelescope(s: Sender, steps: seq<Step>)
    requires s.ts < WORD32
    ensures EachMoves(s, steps) <==> forall n :: 0 <= n <= |steps| ==> InStepAt(s, steps[..n])
  {
    if steps == [] {
      assert InStepAt(s, []);
      assert forall n :: 0 <= n <= |steps| ==> steps[..n] == [];
    } else {
      var k := |steps| - 1;
      var front := steps[..k];
      StampsTelescope(s, front);
      assert steps[..|steps|] == steps && front[..k] == front;
      assert forall n :: 0 <= n <= k ==> front[..n] == steps[..n];
      if InStepAt(s, front) { NextStamp(s, Run(s, front), steps[k]); }
      hide InStepAt, Next;
      assert InStepAt(s, steps[..|steps|]) == InStepAt(s, steps) && InStepAt(s, steps[..k]) == InStepAt(s, front);
    }
  }

  predicate InStepAt(s: Sender, steps: seq<Step>) {
    InStep(s.ts, s.lastMs, Run(s, steps).ts, Run(s, steps).lastMs)
  }

  /** Every packet handed to the network since `s` is stamped with its frame's time, so
      that two of them differ by 90 times the milliseconds between their frames, modulo
      2^32, if and only if each frame moves the time stamp. */
  lemma {:induction false} PacketsTelescope(s: Sender, steps: seq<Step>)
    requires s.ts < WORD32
    ensures var r := Run(s, steps); s.packets <= r.packets && (EachMoves(s, steps) <==> AllStamped(s, r.packets))
  {
    if steps == [] {
      assert InStep(s.ts, s.lastMs, s.ts, s.lastMs);
    } else {
      var k := |steps| - 1;
      var front := steps[..k];
      var r, n := Run(s, front), Run(s, steps);
      PacketsTelescope(s, front);
      if EachMoves(s, front) {
        StampsTelescope(s, front);
        assert front[..k] == front;
        assert InStepAt(s, front[..k]);
        NextStamp(s, r, steps[k]);
      }
      hide InStep, Stamp;
      MoreStamped(s, r.packets, n.packets);
    }
  }

  lemma MoreStamped(s: Sender, a: seq<Packet>, b: seq<Packet>)
    requires s.packets <= a && (b == a || (|b| == |a| + 1 && b[..|a|] == a))
    ensures AllStamped(s, b) <==> AllStamped(s, a) && (b != a ==> Stamped(b[|a|], s.ts, s.lastMs))
  {
    hide Stamped;
    assert forall i :: 0 <= i < |a| ==> b[i] == a[i];
    if AllStamped(s, b) { assert forall i :: |s.packets| <= i < |a| ==> Stamped(b[i], s.ts, s.lastMs); }
  }

  predicate AllStamped(s: Sender, packets: seq<Packet>) {
    forall i :: |s.packets| <= i < |packets| ==> Stamped(packets[i], s.ts, s.lastMs)
  }

  predicate Stamped(p: Packet, ts: nat, ms: nat) {
    InStep(ts, ms, p.ts, p.frameMs)
  }

  lemma {:induction false} StampFits(s: Sender, steps: seq<Step>)
    requires s.ts < WORD32
    ensures Run(s, steps).ts < WORD32
  {
    if steps != [] { StampFits(s, steps[..|steps| - 1]); }
  }

  /** Between the frames nothing moves it, connected or not. */
  lemma {:induction false} StampStays(s: Sender, steps: seq<Step>)
    requires forall p :: p in s.queue || p in Pushed(steps) ==> !p.first
    ensures var r := Run(s, steps);
            r.ts == s.ts && r.lastMs == s.lastMs && forall p :: p in r.queue ==> !p.first
  {
    if steps != [] {
      var n := |steps| - 1;
      assert forall p :: p in Pushed(steps[..n]) ==> p in Pushed(steps);
      StampStays(s, steps[..n]);
      if steps[n].Push? { assert steps[n].payload in Pushed(steps); }
    }
  }

  // ----- the participant -----

  class RtpParticipant {
    /** The queue, the fixed header's numbers and the last frame's time. */
    var formated: seq<Payload>
    var seqNo: nat
    var ts: nat
    var lastMs: nat
    /** The transport: whether there is one, and a destination for it. */
    const hasNet: bool
    const hasDestination: bool
    var connected: bool
    var packets: seq<Packet>
    ghost var taken: seq<Payload>

    ghost predicate Valid()
      reads this
    {
      seqNo < WORD16 && ts < WORD32 && index == |taken| && (connected ==> hasNet)
    }

    /** Payloads dequeued. */
    var index: nat

    ghost function Model(): Sender
      reads this
    {
      Sender(formated, taken, seqNo, ts, lastMs, connected, packets)
    }

    constructor (seq0: nat, ts0: nat, net: bool, destination: bool)
      requires seq0 < WORD16 && ts0 < WORD16
      ensures Valid() && Model() == Initial(seq0, ts0) && hasNet == net && hasDestination == destination
    {
      hasNet, hasDestination := net, destination;
      formated, packets, taken, index := [], [], [], 0;
      seqNo, ts, lastMs, connected := seq0, ts0, 0, false;
    }

    method PushPayload(p: Payload) returns (ok: bool)
      requires Valid()
      modifies this`formated
      ensures Valid() && ok && Model() == Next(old(Model()), Push(p))
    {
      formated := formated + [p];
      ok := true;
    }

    /** connect, with what the network answers when it is asked. */
    method DoConnect(answer: bool) returns (ok: bool)
      requires Valid()
      modifies this`connected
      ensures Valid() && ok == (hasNet && hasDestination && !old(connected) && answer)
      ensures Model() == if hasNet && hasDestination then Next(old(Model()), Connect(answer)) else old(Model())
    {
      if !hasNet || connected { return false; }
      if !hasDestination { return false; }
      connected := answer;
      ok := answer;
    }

    /** disconnect; both transports answer true. */
    method DoDisconnect() returns (ok: bool)
      requires Valid()
      modifies this`connected
      ensures Valid() && Model() == Next(old(Model()), Disconnect) && ok == old(connected)
    {
      if !hasNet || !connected { return false; }
      connected := false;
      ok := true;
    }

    /** One turn of the sender thread; `sendOk` is what the network answers. */
    method ThreadTurn(sendOk: bool)
      requires Valid()
      modifies this
      ensures Valid() && Model() == Next(old(Model()), Turn(sendOk))
    {
      if formated == [] { return; }
      var p := formated[0];
      formated := formated[1..];
      var m := 0;
      if connected {
        if p.first {
          var delta := (p.ms as int - lastMs as int) % WORD32;
          ts := (ts + (if delta > 1000 then 0 else delta) * 90) % WORD32;
          lastMs := p.ms;
        }
        if p.marker != 0 { m := 1; }
        packets := packets + [Packet(index, seqNo, ts, m, lastMs, p, sendOk)];
        if !sendOk { connected := false; }
      }
      seqNo := (seqNo + 1) % WORD16;
      taken := taken + [p];
      index := index + 1;
    }
  }
}
