/** RTP/Payload/RtpPayloadPS.cpp: each call's bytes cut at the payload limit. */
module Fragmenting {
  import opened Bytes
  import opened Headers
  import opened Timestamps

  /** What is queued for the sender, and the fields kept for the next payload. */
  datatype Payload = Payload(first: bool, marker: Byte, ms: nat, data: seq<Byte>)
  datatype Fields = Fields(first: bool, marker: Byte, ms: nat)

  predicate IsPackHeader(d: seq<Byte>) {
    |d| >= 4 && d[0] == 0 && d[1] == 0 && d[2] == 1 && d[3] == 0xBA
  }

  /** A pack header marks the next payload and sets the time from its clock. */
  function Begin(f: Fields, d: seq<Byte>): Fields {
    if !IsPackHeader(d) then f
    else f.(first := true, ms := if |d| > 8 then DecodeMs(d) else f.ms)
  }

  function Fragments(f: Fields, d: seq<Byte>, maxLen: nat): seq<Payload>
    requires maxLen > 0
    decreases |d|
  {
    if d == [] then []
    else
      var n := Min(maxLen, |d|);
      [Payload(f.first, f.marker, f.ms, d[..n])] + Fragments(Fields(false, 0, f.ms), d[n..], maxLen)
  }

  function Formatted(f: Fields, d: seq<Byte>, maxLen: nat): seq<Payload>
    requires maxLen > 0
  {
    Fragments(Begin(f, d), d, maxLen)
  }

  function After(f: Fields, d: seq<Byte>): Fields {
    if d == [] then f else Fields(false, 0, Begin(f, d).ms)
  }

  function AfterCalls(f: Fields, calls: seq<seq<Byte>>): Fields {
    if calls == [] then f else After(AfterCalls(f, calls[..|calls| - 1]), calls[|calls| - 1])
  }

  function FormatCalls(f: Fields, calls: seq<seq<Byte>>, maxLen: nat): seq<Payload>
    requires maxLen > 0
  {
    if calls == [] then []
    else
      var front := calls[..|calls| - 1];
      FormatCalls(f, front, maxLen) + Formatted(AfterCalls(f, front), calls[|calls| - 1], maxLen)
  }

  function Joined(ps: seq<Payload>): seq<Byte> {
    if ps == [] then [] else Joined(ps[..|ps| - 1]) + ps[|ps| - 1].data
  }

  // ----- one call -----

  lemma {:induction false} JoinedConcat(a: seq<Payload>, b: seq<Payload>)
    ensures Joined(a + b) == Joined(a) + Joined(b)
    decreases |b|
  {
    if b == [] {
      NilRight(a);
      NilRight(Joined(a));
    } else {
      var n := |b| - 1;
      assert (a + b)[..|a + b| - 1] == a + b[..n];
      JoinedConcat(a, b[..n]);
      Assoc(Joined(a), Joined(b[..n]), b[n].data);
    }
  }

  /** Full but for the last; only the first carries what the call began with. */
  ghost predicate CutRight(ps: seq<Payload>, f: Fields, maxLen: nat) {
    && (forall i :: 0 <= i < |ps| ==> 0 < |ps[i].data| <= maxLen && ps[i].ms == f.ms)
    && (forall i :: 0 <= i < |ps| - 1 ==> |ps[i].data| == maxLen)
    && (ps != [] ==> ps[0].first == f.first && ps[0].marker == f.marker)
    && (forall i :: 0 < i < |ps| ==> !ps[i].first && ps[i].marker == 0)
  }

  lemma CutFirst(p: Payload, rest: seq<Payload>, f: Fields, maxLen: nat)
    requires CutRight(rest, Fields(false, 0, f.ms), maxLen)
    requires p.first == f.first && p.marker == f.marker && p.ms == f.ms
    requires 0 < |p.data| <= maxLen && (rest != [] ==> |p.data| == maxLen)
    ensures CutRight([p] + rest, f, maxLen)
  {
    var all := [p] + rest;
    assert forall i :: 0 < i < |all| ==> all[i] == rest[i - 1];
  }

  /** The fragments of one call are, end to end, the bytes given. */
  lemma {:induction false} FragmentsAre(f: Fields, d: seq<Byte>, maxLen: nat)
    requires maxLen > 0
    ensures var ps := Fragments(f, d, maxLen);
            CutRight(ps, f, maxLen) && Joined(ps) == d && (ps == [] <==> d == [])
    decreases |d|
  {
    if d != [] {
      hide CutRight;
      var n := Min(maxLen, |d|);
      var g := Fields(false, 0, f.ms);
      var p, rest := Payload(f.first, f.marker, f.ms, d[..n]), Fragments(g, d[n..], maxLen);
      FragmentsAre(g, d[n..], maxLen);
      CutFirst(p, rest, f, maxLen);
      JoinedConcat([p], rest);
      assert [p][..0] == [];
      NilLeft(p.data);
      assert d[..n] + d[n..] == d;
    } else {
      assert CutRight([], f, maxLen);
    }
  }

  /** Any number of calls: what is sent is what was given. */
  lemma {:induction false} CallsJoin(f: Fields, calls: seq<seq<Byte>>, maxLen: nat)
    requires maxLen > 0
    ensures Joined(FormatCalls(f, calls, maxLen)) == Flatten(calls)
    decreases |calls|
  {
    if calls != [] {
      var n := |calls| - 1;
      var front, d := calls[..n], calls[n];
      CallsJoin(f, front, maxLen);
      FragmentsAre(Begin(AfterCalls(f, front), d), d, maxLen);
      JoinedConcat(FormatCalls(f, front, maxLen), Formatted(AfterCalls(f, front), d, maxLen));
      FlattenSnoc(front, d);
      assert front + [d] == calls;
    }
  }

  class RtpPayloadPS {
    const maxLen: nat
    var first: bool
    var marker: Byte
    var ms: nat
    var payload: Option<seq<Byte>>
    /** What the participant was given. */
    var pushed: seq<Payload>

    ghost predicate Valid()
      reads this
    {
      maxLen > 0 && payload.None?
    }

    ghost function Model(): Fields
      reads this
    {
      Fields(first, marker, ms)
    }

    /** The source leaves the first payload's flags unset. */
    constructor (maxLen: nat, first: bool, marker: Byte, ms: nat)
      requires maxLen > 0
      ensures Valid() && this.maxLen == maxLen && Model() == Fields(first, marker, ms) && pushed == []
    {
      this.maxLen, this.first, this.marker, this.ms := maxLen, first, marker, ms;
      payload, pushed := None, [];
    }

    method PushFormated()
      requires payload.Some?
      modifies this
      ensures pushed == old(pushed) + [Payload(old(first), old(marker), ms, old(payload).value)]
      ensures Model() == Fields(false, 0, old(ms)) && payload.None?
    {
      pushed := pushed + [Payload(first, marker, ms, payload.value)];
      marker := 0;
      first := false;
      payload := None;
    }

    /** format: the fragments of `d` follow what was pushed, and none is kept back. */
    method Format(d: seq<Byte>) returns (n: nat)
      requires Valid()
      modifies this
      ensures Valid() && n == |d|
      ensures pushed == old(pushed) + Formatted(old(Model()), d, maxLen)
      ensures Model() == After(old(Model()), d)
    {
      if |d| == 0 {
        assert Formatted(Model(), d, maxLen) == [];
        NilRight(pushed);
        return 0;
      }
      if IsPackHeader(d) {
        first := true;
        if |d| > 8 { ms := DecodeMs(d); }
      }
      ghost var f := Model();
      n := Cut(d);
      if payload.Some? {
        PushFormated();
        NilRight(pushed);
      }
    }

    /** The loop: full fragments are pushed as they fill. */
    method Cut(d: seq<Byte>) returns (n: nat)
      requires Valid() && d != []
      modifies this
      ensures maxLen > 0 && n == |d|
      ensures ms == old(ms)
      ensures payload.Some? ==> |payload.value| < maxLen
      ensures (if payload.Some? then pushed + [Payload(first, marker, ms, payload.value)] else pushed)
           == old(pushed) + Fragments(old(Model()), d, maxLen)
      ensures payload.None? ==> Model() == Fields(false, 0, ms)
    {
      n := 0;
      ghost var all := pushed + Fragments(Model(), d, maxLen);
      Whole(d);
      while n < |d|
        invariant n <= |d| && maxLen > 0 && ms == old(ms)
        invariant payload.Some? ==> n == |d| && |payload.value| < maxLen
        invariant payload.None? ==> pushed + Fragments(Model(), d[n..], maxLen) == all
        invariant payload.Some? ==> pushed + [Payload(first, marker, ms, payload.value)] == all
        invariant n > 0 && payload.None? ==> Model() == Fields(false, 0, ms)
      {
        var w := if maxLen > |d| - n then |d| - n else maxLen;
        ghost var f, rest := Model(), d[n..];
        assert rest[..w] == d[n..n + w] && rest[w..] == d[n + w..];
        ghost var p := Payload(first, marker, ms, d[n..n + w]);
        assert Fragments(f, rest, maxLen) == [p] + Fragments(Fields(false, 0, ms), d[n + w..], maxLen);
        Assoc(pushed, [p], Fragments(Fields(false, 0, ms), d[n + w..], maxLen));
        payload := Some(d[n..n + w]);
        n := n + w;
        if w >= maxLen {
          PushFormated();
        } else {
          assert Fragments(Fields(false, 0, ms), d[n..], maxLen) == [];
          NilRight(pushed + [p]);
        }
      }
      if payload.None? { NilRight(pushed); }
    }
  }
}
