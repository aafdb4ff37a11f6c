/** RtpPayloadAvc: the fields, buffers and loops of the source, proved to compute
    `FragmentationUnits`. */
module RtpPayloadAvcClass {
  import opened Bytes
  import opened AccessUnits
  import opened FragmentationUnits
  import opened FragmentationProofs

  class RtpPayloadAvc {
    const maxLen: nat
    const cache: array<Byte>
    var cacheLen: nat
    var naluHeader: Byte
    // m_formated
    var bFirst: bool
    var marker: bool
    var payload: Option<seq<Byte>>
    // what the participant was given
    var sent: seq<Fragment>

    ghost predicate Valid()
      reads this, cache
    {
      && cache.Length == 4 && cacheLen <= 4
      && (payload.Some? ==> |payload.value| >= 2)
      && WellFormed(maxLen, Model())
    }

    ghost function Model(): State
      reads this, cache
    {
      State(naluHeader, if cacheLen <= cache.Length then cache[..cacheLen] else [], bFirst, marker,
            if payload.Some? && |payload.value| >= 2 then Some(payload.value[2..]) else None, sent)
    }

    /** The source leaves m_naluHeader unset: `unset` is what it holds. */
    constructor (m: nat, unset: Byte)
      requires m >= 5
      ensures Valid() && maxLen == m && Model() == Initial(unset) && fresh(cache)
    {
      maxLen := m;
      cache := new Byte[4](_ => 0);
      cacheLen, naluHeader := 0, unset;
      bFirst, marker, payload, sent := true, false, None, [];
    }

    /** pushFomated */
    method PushFormated()
      requires Valid()
      modifies this
      ensures Valid() && payload.None? && Model() == Push(maxLen, old(Model()))
    {
      if payload.None? { return; }
      var p := payload.value;
      p := p[0 := Indicator(naluHeader)];
      p := p[1 := FuHeader(bFirst, marker, naluHeader % 32)];
      assert p == [p[0], p[1]] + payload.value[2..];
      sent := sent + [Fragment(bFirst, marker, p)];
      bFirst, marker, payload := false, false, None;
    }

    /** A payload that holds only room for the two header bytes. */
    method NewPayload()
      requires Valid()
      modifies this`payload
      ensures Valid() && payload.Some? && Model() == old(Model()).(pending := Some([]))
    {
      payload := Some([0, 0]);
    }

    /** Bytes at the end of the payload. */
    method Extend(d: seq<Byte>)
      requires Valid() && payload.Some? && |payload.value| + |d| <= maxLen
      modifies this`payload
      ensures Valid() && payload.Some?
      ensures Model() == old(Model()).(pending := Some(old(Model()).pending.value + d))
    {
      assert (payload.value + d)[2..] == payload.value[2..] + d;
      payload := Some(payload.value + d);
    }

    /** The loops that append byte by byte, lines 100 to 109 and 129 to 138. */
    method AppendBytes(d: seq<Byte>)
      requires Valid() && payload.Some?
      modifies this
      ensures Valid() && payload.Some? && Model() == Fill(maxLen, old(Model()), d)
    {
      ghost var s := Model();
      for j := 0 to |d|
        invariant Valid() && payload.Some?
        invariant Fill(maxLen, s, d) == Fill(maxLen, Model(), d[j..])
      {
        hide Fill, Push;
        ghost var was, rest := Model(), d[j..];
        if |payload.value| >= maxLen {
          PushFormated();
          NewPayload();
        }
        Extend([d[j]]);
        assert rest[1..] == d[j + 1..] && rest[0] == d[j];
        OneByte(maxLen, was, rest, Model());
      }
      assert d[|d|..] == [];
    }

    /** The copy loop, lines 162 to 183. */
    method CopyBytes(d: seq<Byte>)
      requires Valid()
      modifies this
      ensures Valid() && Model() == Fill(maxLen, old(Model()), d)
    {
      hide Fill, Push, FuHeader, Indicator;
      ghost var s := Model();
      var cpyed := 0;
      Whole(d);
      while cpyed < |d|
        invariant 0 <= cpyed <= |d|
        invariant Valid() && Fill(maxLen, s, d) == Fill(maxLen, Model(), d[cpyed..])
        decreases |d| - cpyed, if payload.Some? then 1 else 0
      {
        ghost var was := Model();
        var rest := d[cpyed..];
        if payload.None? { NewPayload(); }
        var ori := |payload.value|;
        var wr := |d| - cpyed;
        if wr > maxLen - ori { wr := maxLen - ori; }
        Extend(rest[..wr]);
        cpyed := cpyed + wr;
        if cpyed < |d| { PushFormated(); }
        assert rest[wr..] == d[cpyed..];
        CopyStep(maxLen, was, rest, wr, Model());
      }
      assert d[cpyed..] == [];
      FillNone(maxLen, Model());
    }

    /** A payload that begins a NAL unit. */
    method BeginNal(header: Byte, d: seq<Byte>)
      requires Valid() && |d| <= 3
      modifies this
      ensures Valid()
      ensures Model() == old(Model()).(header := header, first := true, pending := Some(d), cache := [])
    {
      naluHeader, bFirst := header, true;
      NewPayload();
      Extend(d);
      NilLeft(d);
      cacheLen := 0;
    }

    /** Lines 99 to 125: the start code found at `i`. */
    method TakeWindow(assemble: seq<Byte>, i: nat)
      requires Valid() && CodeAt(NALS, assemble, i) && |assemble| <= 8 && (payload.Some? || i == 0)
      modifies this
      ensures Valid() && cacheLen == 0 && Model() == WindowHit(maxLen, old(Model()), assemble, i)
    {
      hide FuHeader, Indicator;
      if i > 0 {
        hide Fill;
        AppendBytes(assemble[..i]);
      }
      marker := true;
      PushFormated();
      BeginNal(assemble[i + 4], assemble[i + 5..]);
    }

    /** Lines 79 to 141: the cache and the first bytes of the chunk are searched for a
        start code; when there is none the cache goes to the payload. */
    method SearchWindow(data: seq<Byte>) returns (found: bool)
      requires Valid() && cacheLen > 0 && cacheLen + |data| > 4 && !NullWrite(Model(), data)
      modifies this
      ensures Valid() && cacheLen == 0
      ensures var s := old(Model());
              var w := Window(NALS, s.cache, data);
              var i := FindCode(NALS, w, 0);
              && found == (i < |w| - 4)
              && Model() == if found then WindowHit(maxLen, s, w, i) else FlushCache(maxLen, s)
    {
      hide Fill, Push, WindowHit;
      var dataLen := if |data| > 4 then 4 else |data|;
      var assemble := cache[..cacheLen] + data[..dataLen];
      ghost var s := Model();
      var i := 0;
      while i < |assemble| - 4
        invariant 0 <= i <= |assemble| - 4
        invariant FindCode(NALS, assemble, 0) == FindCode(NALS, assemble, i)
        invariant Valid() && Model() == s
      {
        if assemble[i] == 0 && assemble[i + 1] == 0 && assemble[i + 2] == 0 && assemble[i + 3] == 1 {
          TakeWindow(assemble, i);
          return true;
        }
        i := i + 1;
      }
      AppendBytes(cache[..cacheLen]);
      cacheLen := 0;
      return false;
    }

    /** Lines 143 to 208: the chunk, once the cache is empty. */
    method TakeBody(data: seq<Byte>) returns (taken: nat)
      requires Valid() && cacheLen == 0 && data != []
      modifies this, cache
      ensures Valid() && Outcome(Model(), taken) == Body(maxLen, old(Model()), data)
    {
      hide Fill, Push;
      if |data| <= 4 {
        forall j | 0 <= j < |data| { cache[j] := data[j]; }
        cacheLen := |data|;
        assert cache[..cacheLen] == data;
        return |data|;
      }
      var parsed := 0;
      while parsed < |data| - 4
        invariant 0 <= parsed <= |data| - 4
        invariant FindCode(NALS, data, 0) == FindCode(NALS, data, parsed)
      {
        if data[parsed] == 0 && data[parsed + 1] == 0 && data[parsed + 2] == 0 && data[parsed + 3] == 1 { break; }
        parsed := parsed + 1;
      }
      CopyBytes(data[..parsed]);
      if parsed == |data| - 4 {
        forall j | 0 <= j < 4 { cache[j] := data[parsed + j]; }
        cacheLen := 4;
        assert cache[..cacheLen] == data[parsed..];
        return parsed + 4;
      }
      if payload.Some? {
        marker := true;
        PushFormated();
      }
      BeginNal(data[parsed + 4], []);
      return parsed + 5;
    }

    /** format, for a chunk of any size. */
    method FormatChunk(data: seq<Byte>) returns (taken: nat)
      requires Valid() && (data != [] ==> !NullWrite(Model(), data))
      modifies this, cache
      ensures Valid() && taken <= |data|
      ensures if data == [] then taken == 0 && Model() == old(Model())
              else Outcome(Model(), taken) == Format(maxLen, old(Model()), data)
    {
      if |data| == 0 { return 0; }
      ghost var s := Model();
      if cacheLen + |data| <= 4 {
        forall j | 0 <= j < |data| { cache[cacheLen + j] := data[j]; }
        cacheLen := cacheLen + |data|;
        assert cache[..cacheLen] == s.cache + data;
        return |data|;
      }
      hide Body, WindowHit, FlushCache;
      if cacheLen > 0 {
        var found := SearchWindow(data);
        if found { return if |data| > 4 then 4 else |data|; }
      }
      taken := TakeBody(data);
    }

    /** RtpParticipant::transport over this payload format. */
    method TransportChunk(data: seq<Byte>) returns (tlen: nat)
      requires Valid() && (data == [] || !NullWrite(Model(), data))
      modifies this, cache
      ensures Valid() && tlen == |data| && Model() == Transport(maxLen, old(Model()), data)
    {
      hide Format;
      ghost var s := Model();
      tlen := 0;
      assert data[0..] == data;
      while tlen < |data|
        invariant tlen <= |data| && Valid()
        invariant data[tlen..] == [] || !NullWrite(Model(), data[tlen..])
        invariant Transport(maxLen, s, data) == Transport(maxLen, Model(), data[tlen..])
      {
        var rest := data[tlen..];
        var flen := FormatChunk(rest);
        assert rest[flen..] == data[tlen + flen..];
        tlen := tlen + flen;
      }
    }
  }

  /** One round of the copy loop is one step of filling. */
  lemma CopyStep(m: nat, s: State, d: seq<Byte>, w: nat, r: State)
    requires WellFormed(m, s) && d != [] && w <= |d|
    requires var p := if s.pending.Some? then s.pending.value else [];
             var t := s.(pending := Some(p + d[..w]));
             w == Min(|d|, m - 2 - |p|) && r == if w < |d| then Push(m, t) else t
    ensures WellFormed(m, r) && Fill(m, s, d) == Fill(m, r, d[w..])
  {}

  /** Appending one byte is the first step of filling. */
  lemma OneByte(m: nat, s: State, d: seq<Byte>, r: State)
    requires WellFormed(m, s) && s.pending.Some? && d != []
    requires var full := |s.pending.value| + 2 >= m;
             var t := if full then Push(m, s).(pending := Some([])) else s;
             r == t.(pending := Some(t.pending.value + [d[0]]))
    ensures WellFormed(m, r) && Fill(m, s, d) == Fill(m, r, d[1..])
  {
    var full := |s.pending.value| + 2 >= m;
    var t := if full then Push(m, s).(pending := Some([])) else s;
    if full {
      assert s.pending.value + d[..0] == s.pending.value;
      assert s.(pending := Some(s.pending.value + d[..0])) == s;
      assert Fill(m, s, d) == Fill(m, Push(m, s), d);
      FillFresh(m, Push(m, s), d);
    }
    StepFill(m, t, d, r);
  }

  lemma StepFill(m: nat, t: State, d: seq<Byte>, r: State)
    requires WellFormed(m, t) && t.pending.Some? && d != [] && |t.pending.value| + 2 < m
    requires r == t.(pending := Some(t.pending.value + [d[0]]))
    ensures Fill(m, t, d) == Fill(m, r, d[1..])
  {
    var p := t.pending.value;
    var w := Min(|d|, m - 2 - |p|);
    var e := d[1..];
    assert d[..w] == [d[0]] + e[..w - 1] && d[w..] == e[w - 1..];
    Assoc(p, [d[0]], e[..w - 1]);
    if e == [] { NilRight(p + [d[0]]); }
  }
}
