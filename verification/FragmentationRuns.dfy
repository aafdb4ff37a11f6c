/** Whole runs of the H.264 payload format: which of them write through the null
    payload, and what a receiver gets from the others. */
module FragmentationRuns {
  import opened Bytes
  import opened AccessUnits
  import opened FragmentationUnits
  import opened FragmentationProofs
  import opened FragmentBytes

  // ----- the null payload -----

  /** The first payload is made by a chunk longer than the cache, or never. */
  predicate Prompt(s: State, chunks: seq<seq<Byte>>) {
    || s.pending.Some?
    || |s.cache| + |Flatten(chunks)| <= 4
    || (s.cache == [] && |Head(chunks)| > 4)
  }

  /** A chunk that the cache takes. */
  lemma CachedChunk(m: nat, s: State, data: seq<Byte>)
    requires WellFormed(m, s) && |s.cache| + |data| <= 4
    ensures Transport(m, s, data) == s.(cache := s.cache + data)
  {
    if data == [] {
      NilRight(s.cache);
    } else {
      var o := Format(m, s, data);
      assert data[o.taken..] == [];
      assert Transport(m, o.state, []) == o.state;
    }
  }

  lemma PromptStep(m: nat, s: State, chunks: seq<seq<Byte>>)
    requires WellFormed(m, s) && chunks != [] && Prompt(s, chunks)
    ensures chunks[0] != [] ==> !NullWrite(s, chunks[0])
    ensures Prompt(Transport(m, s, chunks[0]), chunks[1..])
  {
    if |s.cache| + |chunks[0]| <= 4 { CachedChunk(m, s, chunks[0]); }
    hide Transport;
  }

  lemma {:induction false} PromptSafe(m: nat, s: State, chunks: seq<seq<Byte>>)
    requires WellFormed(m, s) && Prompt(s, chunks)
    ensures RunSafe(m, s, chunks)
    decreases |chunks|
  {
    hide Prompt, Transport, NullWrite;
    if chunks != [] {
      PromptStep(m, s, chunks);
      PromptSafe(m, Transport(m, s, chunks[0]), chunks[1..]);
    }
  }

  /** The bytes `a` are cached and there is no payload yet. */
  lemma {:induction false} SafeFrom(m: nat, header: Byte, a: seq<Byte>, chunks: seq<seq<Byte>>)
    requires m >= 5 && 0 < |a| <= 4
    ensures var s, t := Initial(header).(cache := a), a + Flatten(chunks);
            RunSafe(m, s, chunks) <==> |t| <= 4 || CodeAt(NALS, t, 0)
    decreases |chunks|
  {
    hide Transport;
    var s, t := Initial(header).(cache := a), a + Flatten(chunks);
    if chunks != [] {
      var d, rest := chunks[0], chunks[1..];
      Assoc(a, d, Flatten(rest));
      if |a| + |d| <= 4 {
        CachedChunk(m, s, d);
        SafeFrom(m, header, a + d, rest);
        if d == [] { NilRight(a); }
      } else {
        var w := Window(NALS, a, d);
        assert t[..|w|] == w;
        assert CodeAt(NALS, w, 0) == CodeAt(NALS, t, 0);
        if !NullWrite(s, d) { PromptSafe(m, Transport(m, s, d), rest); }
      }
    }
  }

  /** Exactly when no call of a run writes through the null payload: the whole stream
      fits the cache, or the first bytes given are more than the cache holds, or the
      stream begins with a start code. */
  lemma {:induction false} SafeRuns(m: nat, header: Byte, chunks: seq<seq<Byte>>)
    requires m >= 5
    ensures var t := Flatten(chunks);
            RunSafe(m, Initial(header), chunks) <==> |t| <= 4 || |Head(chunks)| > 4 || CodeAt(NALS, t, 0)
    decreases |chunks|
  {
    hide Transport, CodeAt;
    if chunks != [] {
      var d := chunks[0];
      if d == [] {
        NilLeft(Flatten(chunks[1..]));
        CachedChunk(m, Initial(header), d);
        assert Initial(header).(cache := [] + d) == Initial(header);
        SafeRuns(m, header, chunks[1..]);
      } else if |d| > 4 {
        PromptSafe(m, Initial(header), chunks);
      } else {
        NilLeft(d);
        CachedChunk(m, Initial(header), d);
        SafeFrom(m, header, d, chunks[1..]);
      }
    }
  }

  // ----- reassembly -----

  lemma {:induction false} TransportGives(m: nat, s: State, data: seq<Byte>, r: State)
    requires Kept(m, s) && s.pending.Some? && r == Transport(m, s, data)
    ensures Kept(m, r) && r.pending.Some? && Held(r) == Held(s) + data
    decreases |data|
  {
    hide Held, Format, Kept;
    if data == [] {
      NilRight(Held(s));
    } else {
      var o := Format(m, s, data);
      FormatGives(m, s, data);
      TransportGives(m, o.state, data[o.taken..], r);
      Halves(Held(s), data, o.taken);
    }
  }

  lemma {:induction false} RunGives(m: nat, s: State, chunks: seq<seq<Byte>>, r: State)
    requires Kept(m, s) && s.pending.Some? && RunSafe(m, s, chunks) && r == Run(m, s, chunks)
    ensures Kept(m, r) && r.pending.Some? && Held(r) == Held(s) + Flatten(chunks)
    decreases |chunks|
  {
    hide Held, Transport, Kept;
    if chunks == [] {
      NilRight(Held(s));
    } else {
      var t := Transport(m, s, chunks[0]);
      TransportGives(m, s, chunks[0], t);
      RunGives(m, t, chunks[1..], r);
      Assoc(Held(s), chunks[0], Flatten(chunks[1..]));
    }
  }

  /** The chunk that makes the first payload. */
  lemma FirstChunkGives(m: nat, header: Byte, a: seq<Byte>, d: seq<Byte>, rest: seq<Byte>)
    requires m >= 5 && |a| <= 4 && |a| + |d| > 4
    requires var s := Initial(header).(cache := a); !NullWrite(s, d)
    ensures var r := Transport(m, Initial(header).(cache := a), d);
            && Kept(m, r) && r.pending.Some?
            && Held(r) == Lead(header, a + d + rest) + (a + d)
  {
    var s := Initial(header).(cache := a);
    var o := Format(m, s, d);
    var t := a + d + rest;
    if a == [] {
      FirstGives(m, header, d);
      assert CodeAt(NALS, d, 0) == CodeAt(NALS, t, 0);
    } else {
      LateGives(m, s, d);
      BeginsStream(a, d, rest);
    }
    hide Held, Format, Kept, CodeAt;
    assert Held(o.state) == Lead(header, t) + (a + d[..o.taken]);
    TransportGives(m, o.state, d[o.taken..], Transport(m, s, d));
    Assoc(Lead(header, t), a + d[..o.taken], d[o.taken..]);
    Halves(a, d, o.taken);
  }

  lemma BeginsStream(a: seq<Byte>, d: seq<Byte>, rest: seq<Byte>)
    requires 0 < |a| <= 4 && |a| + |d| > 4 && CodeAt(NALS, Window(NALS, a, d), 0)
    ensures CodeAt(NALS, a + d + rest, 0)
  {
    var w, t := Window(NALS, a, d), a + d + rest;
    assert t[..|w|] == w;
  }

  lemma {:induction false} CachedGives(m: nat, header: Byte, a: seq<Byte>, chunks: seq<seq<Byte>>)
    requires m >= 5 && |a| <= 4 && RunSafe(m, Initial(header).(cache := a), chunks)
    ensures var r, t := Run(m, Initial(header).(cache := a), chunks), a + Flatten(chunks);
            Readable(r.sent) && Held(r) == (if |t| > 4 then Lead(header, t) else []) + t
    decreases |chunks|
  {
    hide Transport, Lead, Held, Kept, CodeAt;
    var s := Initial(header).(cache := a);
    if chunks == [] {
      NilRight(a);
      OnlyCached(header, a);
      NilLeft(a);
    } else {
      var d, rest := chunks[0], chunks[1..];
      Assoc(a, d, Flatten(rest));
      if |a| + |d| <= 4 {
        CachedChunk(m, s, d);
        CachedGives(m, header, a + d, rest);
      } else {
        FirstChunkGives(m, header, a, d, Flatten(rest));
        RunGives(m, Transport(m, s, d), rest, Run(m, s, chunks));
        Assoc(Lead(header, a + d + Flatten(rest)), a + d, Flatten(rest));
      }
    }
  }

  lemma OnlyCached(header: Byte, a: seq<Byte>)
    ensures Held(Initial(header).(cache := a)) == a
  {
    NilLeft(a);
  }

  /** Reassembly, over every run that does not write through the null payload and whatever
      the flags say: the receiver rebuilds the stream byte for byte from the fragments, the
      pending fragment and the cache (behind the unset header, when the stream is longer
      than the cache and does not begin with a start code). */
  lemma Reassembles(m: nat, header: Byte, chunks: seq<seq<Byte>>)
    requires m >= 5 && RunSafe(m, Initial(header), chunks)
    ensures var r, t := Run(m, Initial(header), chunks), Flatten(chunks);
            Readable(r.sent) && Held(r) == (if |t| > 4 then Lead(header, t) else []) + t
  {
    assert Initial(header).(cache := []) == Initial(header);
    NilLeft(Flatten(chunks));
    CachedGives(m, header, [], chunks);
  }
}
