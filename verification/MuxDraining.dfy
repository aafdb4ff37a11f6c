/** PSMux::finished: what the thread still sends, and the race between its two flags. */
module MuxDraining {
  import opened Bytes
  import opened Muxing
  import opened MuxingProofs

  /** The turns left once nothing more is pushed. */
  function Drained(m: Mux): Mux
    requires !m.running && !m.exited
    decreases |m.video|, m.midTurn
  {
    if m.midTurn then
      SendFlags(m);
      Drained(Send(m))
    else if !Continues(m) then Turn(m)
    else
      FlagsStay(m);
      Drained(Send(Turn(m)))
  }

  lemma SendFlags(m: Mux)
    ensures var n := Send(m);
            n == m.(midTurn := n.midTurn, audio := n.audio, hasSystem := n.hasSystem, items := n.items,
                    bounds := n.bounds, streamMap := n.streamMap, sent := n.sent) && !n.midTurn
  {
    hide DrainAudio, AudioItems;
    DrainIs(m);
  }

  lemma FlagsStay(m: Mux)
    requires Continues(m)
    ensures var n := Send(Turn(m));
            && n.running == m.running && n.finishFlag == m.finishFlag && n.exited == m.exited
            && !n.midTurn && n.video == if m.video == [] then [] else m.video[1..]
  {
    hide Send;
    SendFlags(Turn(m));
  }

  lemma TurnAndSend(m: Mux)
    requires Continues(m) && m.video != [] && !m.midTurn
    requires Shaped(m) && Bracketed(Taken(m) + m.video)
    ensures var n := Send(Turn(m));
            && Taken(n) == Taken(m) + [m.video[0]] && Shaped(n)
            && SentAudios(n.sent) + Audios(n.items) + n.audio == SentAudios(m.sent) + Audios(m.items) + m.audio
  {
    assert Turn(m).midTurn;
    hide Shaped, Bracketed, Send, Turn, Taken;
    TurnTakes(m);
    TurnShapes(m);
    SendKeeps(Turn(m));
    SendShapes(Turn(m));
  }

  /** The rest of a turn, once nothing more is pushed. */
  lemma SendOnly(m: Mux)
    requires m.midTurn && Shaped(m) && Bracketed(Taken(m) + m.video)
    ensures var n := Send(m);
            && n.running == m.running && n.finishFlag == m.finishFlag && n.exited == m.exited && !n.midTurn
            && n.video == m.video && Taken(n) == Taken(m) && Shaped(n)
            && SentAudios(n.sent) + Audios(n.items) + n.audio == SentAudios(m.sent) + Audios(m.items) + m.audio
  {
    hide Shaped, Bracketed, Send, Turn, Taken;
    SendFlags(m);
    SendKeeps(m);
    SendShapes(m);
  }

  lemma LastTurn(m: Mux)
    requires !m.running && !m.exited && !m.midTurn && m.video == [] && Shaped(m)
    ensures var d := Drained(m);
            && d.exited && d.left == [] && !d.midTurn && Taken(d) == Taken(m) && Shaped(d)
            && SentAudios(d.sent) + Audios(d.items) + d.audio == SentAudios(m.sent) + Audios(m.items) + m.audio
  {}

  lemma {:induction false} DrainedTakes(m: Mux)
    requires !m.running && m.finishFlag && !m.exited
    requires Shaped(m) && Bracketed(Taken(m) + m.video)
    ensures var d := Drained(m);
            d.exited && d.left == [] && !d.midTurn && Taken(d) == Taken(m) + m.video && Shaped(d)
    ensures var d := Drained(m);
            SentAudios(d.sent) + Audios(d.items) + d.audio == SentAudios(m.sent) + Audios(m.items) + m.audio
    decreases |m.video|, m.midTurn
  {
    hide Shaped, Bracketed, Send, Turn, Taken;
    if m.midTurn {
      SendOnly(m);
      DrainedTakes(Send(m));
    } else if m.video == [] {
      NilRight(Taken(m));
      LastTurn(m);
    } else {
      FlagsStay(m);
      TurnAndSend(m);
      assert [m.video[0]] + m.video[1..] == m.video;
      Assoc(Taken(m), [m.video[0]], m.video[1..]);
      DrainedTakes(Send(Turn(m)));
    }
  }

  /** After both flags are stored, with no more pushes: when the last packet closes its
      access unit, every video packet ever pushed is sent, in order, one unit a pack. */
  lemma FinishDrains(steps: seq<Step>)
    requires Possible(steps) && Bracketed(PushedVideo(steps))
    requires var m := Run(steps); !m.running && m.finishFlag && !m.exited
    requires var v := PushedVideo(steps); v != [] && v[|v| - 1].finished
    ensures var d := Drained(Run(steps));
            d.exited && d.left == [] && SentVideos(d.sent) == PushedVideo(steps) && AllMade(d.sent)
    ensures var d := Drained(Run(steps));
            SentAudios(d.sent) + d.audio == PushedAudio(steps)
  {
    hide Drained, Bracketed, Run;
    var m := Run(steps);
    RunConserves(steps);
    RunShapes(steps);
    DrainedTakes(m);
    AllSent(Drained(m), PushedVideo(steps));
  }

  lemma AllSent(d: Mux, pushed: seq<Packet>)
    requires Shaped(d) && !d.midTurn && Taken(d) == pushed && pushed != [] && pushed[|pushed| - 1].finished
    ensures SentVideos(d.sent) == pushed && Videos(d.items) == [] && Audios(d.items) == []
    ensures SentAudios(d.sent) + Audios(d.items) + d.audio == SentAudios(d.sent) + d.audio
  {
    NilRight(SentVideos(d.sent));
    NilRight(SentAudios(d.sent));
  }

  /** The thread tests its loop between the two stores of `finished`, with video queued. */
  predicate Caught(m: Mux, s: Step) {
    s.TurnStep? && !m.running && !m.finishFlag && m.video != []
  }

  ghost predicate CaughtAt(steps: seq<Step>, k: nat)
    requires k < |steps|
  {
    Caught(Run(steps[..k]), steps[k])
  }

  lemma TurnLeaves(m: Mux)
    ensures var n := Turn(m);
            if Continues(m) then n.left == m.left && n.exited == m.exited else n.left == m.video && n.exited
  {}

  lemma LeftAfter(m: Mux, s: Step)
    requires Enabled(m, s) && (m.left != [] ==> m.exited)
    ensures var n := Next(m, s);
            && (n.left != [] <==> m.left != [] || Caught(m, s)) && (n.left != [] ==> n.exited)
  {
    hide Send, AddVideo;
    if s.SendStep? { SendFlags(m); } else if s.TurnStep? { TurnLeaves(m); }
  }

  /** The two stores are separate, so draining is not certain: the thread stops with video
      in the queue exactly when the loop is tested between them with video queued. */
  lemma {:induction false} LeftBehind(steps: seq<Step>)
    requires Possible(steps)
    ensures Run(steps).left != [] <==> exists k :: 0 <= k < |steps| && CaughtAt(steps, k)
    ensures Run(steps).left != [] ==> Run(steps).exited
  {
    if steps != [] {
      var n := |steps| - 1;
      var front := steps[..n];
      LeftBehind(front);
      LeftAfter(Run(front), steps[n]);
      hide Caught, Next;
      forall k | 0 <= k < n ensures CaughtAt(steps, k) == CaughtAt(front, k) {
        assert front[..k] == steps[..k];
      }
      assert CaughtAt(steps, n) == Caught(Run(front), steps[n]);
    }
  }

  /** Caught between the stores, or pushed once the thread is gone. */
  predicate Leaves(m: Mux, s: Step) {
    Caught(m, s) || (s.PushVideo? && m.exited)
  }

  ghost predicate LeavesAt(steps: seq<Step>, k: nat)
    requires k < |steps|
  {
    Leaves(Run(steps[..k]), steps[k])
  }

  lemma QueueAfter(m: Mux, s: Step)
    requires Enabled(m, s)
    ensures var n := Next(m, s);
            if n.exited then n.video != [] <==> (m.exited && m.video != []) || Leaves(m, s)
            else !m.exited && !Leaves(m, s)
  {
    hide Send;
    if s.SendStep? { SendFlags(m); }
  }

  lemma MoreLeaves(steps: seq<Step>)
    requires steps != []
    ensures var n := |steps| - 1;
            (exists k :: 0 <= k < |steps| && LeavesAt(steps, k))
            <==> (exists k :: 0 <= k < n && LeavesAt(steps[..n], k)) || Leaves(Run(steps[..n]), steps[n])
  {
    hide Leaves, Run;
    var n := |steps| - 1;
    var front := steps[..n];
    forall k | 0 <= k < n ensures LeavesAt(steps, k) == LeavesAt(front, k) {
      assert front[..k] == steps[..k];
    }
    assert LeavesAt(steps, n) == Leaves(Run(front), steps[n]);
    hide LeavesAt;
  }

  /** Once the thread has stopped, video stays queued exactly when it was caught between
      the two stores or pushed afterwards. */
  lemma {:induction false} StaysQueued(steps: seq<Step>)
    requires Possible(steps)
    ensures var m, left := Run(steps), exists k :: 0 <= k < |steps| && LeavesAt(steps, k);
            if m.exited then m.video != [] <==> left else !left
  {
    if steps != [] {
      var n := |steps| - 1;
      var front := steps[..n];
      StaysQueued(front);
      QueueAfter(Run(front), steps[n]);
      hide Leaves, LeavesAt, Next;
      MoreLeaves(steps);
    }
  }

  lemma FinishRace(p: Packet)
    ensures var steps := [PushVideo(p), Stop, TurnStep];
            Possible(steps) && Run(steps).left == [p] && Run(steps).sent == []
  {
    var a: seq<Step> := [PushVideo(p)];
    var b := [PushVideo(p), Stop];
    var c := [PushVideo(p), Stop, TurnStep];
    assert a[..0] == [] && b[..1] == a && c[..2] == b;
    assert Run(a).video == [p] by { assert [] + [p] == [p]; }
    assert Possible(a) && Possible(b);
  }
}
