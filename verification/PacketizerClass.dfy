/** PacketizedAVC and PacketizedHEVC: the fields, buffers and loops of the source,
    proved to compute `Packetizing`. */
module PacketizerClass {
  import opened Bytes
  import opened AccessUnits
  import opened Packetizing

  class Packetizer {
    const splitter: Splitter
    const naluHeader: array<Byte>
    const cache: array<Byte>
    var cacheLen: nat
    // m_packet
    var bFirst: bool
    var bFinished: bool
    var bKeyFrame: bool
    var pes: Option<seq<Byte>>
    // what the multiplexer was given
    var pushed: seq<Packet>

    ghost predicate Valid()
      reads this, naluHeader, cache
    {
      && naluHeader != cache
      && naluHeader.Length == splitter.HeaderLen()
      && cache.Length == splitter.Carry()
      && cacheLen <= cache.Length
      && !bKeyFrame
      && WellFormed(splitter, Model())
    }

    ghost function Model(): State
      reads this, naluHeader, cache
    {
      State(naluHeader[..], if cacheLen <= cache.Length then cache[..cacheLen] else [], bFirst, bFinished,
            pes, pushed)
    }

    constructor (c: Splitter)
      ensures Valid() && splitter == c && Model() == Initial(c)
      ensures fresh(naluHeader) && fresh(cache)
    {
      splitter := c;
      naluHeader := new Byte[c.HeaderLen()](_ => 0);
      cache := new Byte[c.Carry()](_ => 0);
      cacheLen := 0;
      bFirst, bFinished, bKeyFrame := true, false, false;
      pes, pushed := None, [];
      new;
      assert naluHeader[..] == c.NoHeader();
    }

    /** pushPacket */
    method PushPacket()
      requires Valid()
      modifies this
      ensures Valid() && Model() == Push(splitter, old(Model()))
    {
      if pes.None? { return; }
      bKeyFrame := splitter.IsKey(splitter.NalType(naluHeader[..]));
      pushed := pushed + [Packet(bFirst, bFinished, bKeyFrame, pes.value)];
      bFirst, bFinished, bKeyFrame := false, false, false;
      pes := None;
    }

    /** PESPacket::writeDataByte on the pending packet. */
    method WriteDataByte(d: seq<Byte>) returns (n: nat)
      requires Valid() && pes.Some?
      modifies this`pes
      ensures Valid() && n == Room(old(pes).value, d)
      ensures Model() == old(Model()).(pes := Some(Write(old(pes).value, d)))
    {
      n := if |pes.value| + |d| > MAX_PES then MAX_PES - |pes.value| else |d|;
      pes := Some(pes.value + d[..n]);
    }

    /** The header bytes after the start code at `p`. */
    method KeepHeader(d: seq<Byte>, p: nat)
      requires Valid() && p + splitter.Carry() < |d|
      modifies naluHeader
      ensures Valid() && Model() == old(Model()).(header := HeaderAt(splitter, d, p))
    {
      forall j | 0 <= j < naluHeader.Length { naluHeader[j] := d[p + 4 + j]; }
      assert naluHeader[..] == HeaderAt(splitter, d, p);
    }

    /** A new packet, the first of its unit, begins with `d[p..n]`. */
    method BeginUnit(d: seq<Byte>, p: nat, n: nat)
      requires Valid() && p + splitter.Carry() < |d| && p <= n <= |d| && n - p <= MAX_PES
      modifies this, naluHeader
      ensures Valid() && cacheLen == 0
      ensures Model() == old(Model()).(header := HeaderAt(splitter, d, p), first := true, pes := Some(d[p..n]), cache := [])
    {
      KeepHeader(d, p);
      bFirst := true;
      pes := Some([]);
      cacheLen := 0;
      var w := WriteDataByte(d[p..n]);
      assert [] + d[p..n][..w] == d[p..n];
    }

    /** Lines 68 to 118: the cache and the first bytes of the chunk are searched for
        a start code; when there is none the cache goes to the pending packet. */
    method SearchWindow(data: seq<Byte>) returns (found: bool)
      requires Valid() && cacheLen > 0 && cacheLen + |data| > splitter.Carry()
      requires !NullWrite(splitter, Model(), data)
      modifies this, naluHeader
      ensures Valid() && cacheLen == 0
      ensures var s := old(Model());
              var w := Window(splitter, s.cache, data);
              var i := FindCode(splitter, w, 0);
              && found == (i < |w| - splitter.Carry())
              && Model() == if found then WindowHit(splitter, s, w, i) else FlushCache(splitter, s)
    {
      hide Splitter.NalType, Push, Fill, FlushCache;
      var dataLen := if |data| > splitter.Carry() then splitter.Carry() else |data|;
      var assemble := cache[..cacheLen] + data[..dataLen];
      ghost var s := Model();
      assert assemble == Window(splitter, s.cache, data);
      var i := 0;
      while i < |assemble| - splitter.Carry()
        invariant 0 <= i <= |assemble| - splitter.Carry()
        invariant FindCode(splitter, assemble, 0) == FindCode(splitter, assemble, i)
        invariant Valid() && Model() == s
      {
        if assemble[i] == 0 && assemble[i + 1] == 0 && assemble[i + 2] == 0 && assemble[i + 3] == 1 {
          TakeWindow(assemble, i);
          return true;
        }
        i := i + 1;
      }

      WriteCache();
      return false;
    }

    /** Lines 91 to 103: the start code found at `i`. */
    method TakeWindow(assemble: seq<Byte>, i: nat)
      requires Valid() && CodeAt(splitter, assemble, i) && |assemble| <= 2 * splitter.Carry()
      requires pes.Some? || (i == 0 && BeginsCut(splitter, Model(), assemble))
      modifies this, naluHeader
      ensures Valid() && cacheLen == 0 && Model() == WindowHit(splitter, old(Model()), assemble, i)
    {
      if i > 0 {
        var _ := WriteDataByte(assemble[..i]);
      } else if pes.Some? {
        assert Write(pes.value, assemble[..i]) == pes.value;
      }
      if splitter.Cuts(naluHeader[..], HeaderAt(splitter, assemble, i)) {
        bFinished := true;
        PushPacket();
        BeginUnit(assemble, i, |assemble|);
        assert assemble[i..|assemble|] == assemble[i..];
      } else {
        KeepHeader(assemble, i);
        var _ := WriteDataByte(assemble[i..]);
        cacheLen := 0;
      }
    }

    /** Lines 110 to 117: the cache goes to the pending packet, and what does not fit
        to a new one. */
    method WriteCache()
      requires Valid() && pes.Some? && cacheLen > 0
      modifies this
      ensures Valid() && cacheLen == 0 && Model() == FlushCache(splitter, old(Model()))
    {
      var carried := cache[..cacheLen];
      var len := WriteDataByte(carried);
      if len < cacheLen {
        PushPacket();
        ghost var u := Model();
        pes := Some([]);
        var _ := WriteDataByte(carried[len..]);
        assert Fill(splitter, u, carried[len..]) == u.(pes := Some(Write([], carried[len..])));
      }
      cacheLen := 0;
    }

    /** Lines 120 to 182: the chunk, once the cache is empty. */
    method TakeBody(data: seq<Byte>) returns (taken: nat)
      requires Valid() && cacheLen == 0 && data != []
      modifies this, naluHeader, cache
      ensures Valid()
      ensures Outcome(Model(), taken) == Body(splitter, old(Model()), data)
    {
      hide Splitter.NalType, Push, Fill, Scan;
      ghost var s := Model();
      var carry := splitter.Carry();
      if |data| <= carry {
        forall j | 0 <= j < |data| { cache[j] := data[j]; }
        cacheLen := |data|;
        assert cache[..cacheLen] == data;
        return |data|;
      }

      var parsed := ScanForCut(data);
      FillPackets(data[..parsed]);

      if parsed == |data| - carry {
        forall j | 0 <= j < carry { cache[j] := data[parsed + j]; }
        cacheLen := carry;
        assert cache[..cacheLen] == data[parsed..];
        return parsed + carry;
      }
      if pes.Some? {
        bFinished := true;
        PushPacket();
      }
      BeginUnit(data, parsed, parsed + 4 + splitter.HeaderLen());
      return parsed + 4 + splitter.HeaderLen();
    }

    /** Lines 127 to 143: the scan loop. */
    method ScanForCut(data: seq<Byte>) returns (parsed: nat)
      requires Valid() && |data| > splitter.Carry()
      modifies naluHeader
      ensures Valid() && Model() == old(Model()).(header := naluHeader[..])
      ensures Scan(splitter, data, 0, old(naluHeader[..])) == (parsed, naluHeader[..])
    {
      ghost var s := Model();
      parsed := 0;
      while parsed < |data| - splitter.Carry()
        invariant 0 <= parsed <= |data| - splitter.Carry()
        invariant Valid() && Model() == s.(header := naluHeader[..])
        invariant Scan(splitter, data, 0, s.header) == Scan(splitter, data, parsed, naluHeader[..])
      {
        if data[parsed] == 0 && data[parsed + 1] == 0 && data[parsed + 2] == 0 && data[parsed + 3] == 1 {
          if splitter.Cuts(naluHeader[..], data[parsed + 4..parsed + 4 + splitter.HeaderLen()]) { return; }
          KeepHeader(data, parsed);
        }
        parsed := parsed + 1;
      }
    }

    /** Lines 145 to 158: the copy loop. */
    method FillPackets(d: seq<Byte>)
      requires Valid()
      modifies this
      ensures Valid() && Model() == Fill(splitter, old(Model()), d)
    {
      ghost var s := Model();
      var len := 0;
      while len < |d|
        invariant 0 <= len <= |d|
        invariant Valid() && Fill(splitter, s, d) == Fill(splitter, Model(), d[len..])
        decreases |d| - len, if pes.Some? then 1 else 0
      {
        ghost var was := Model();
        var rest := d[len..];
        if pes.None? { pes := Some([]); }
        var w := WriteDataByte(rest);
        if w < |rest| { PushPacket(); }
        len := len + w;
        assert rest[w..] == d[len..];
      }
    }

    /** packetizeFrame */
    method PacketizeFrame(data: seq<Byte>) returns (taken: nat)
      requires Valid() && (data != [] ==> !NullWrite(splitter, Model(), data))
      modifies this, naluHeader, cache
      ensures Valid() && taken <= |data|
      ensures if data == [] then taken == 0 && Model() == old(Model())
              else Outcome(Model(), taken) == Frame(splitter, old(Model()), data)
    {
      if |data| == 0 { return 0; }
      ghost var s := Model();
      if cacheLen + |data| <= cache.Length {
        forall j | 0 <= j < |data| { cache[cacheLen + j] := data[j]; }
        cacheLen := cacheLen + |data|;
        assert cache[..cacheLen] == s.cache + data;
        return |data|;
      }
      if cacheLen > 0 {
        var found := SearchWindow(data);
        if found { return if |data| > splitter.Carry() then splitter.Carry() else |data|; }
      }
      taken := TakeBody(data);
    }

    /** packetized: the calls until the chunk is taken. */
    method Packetize(data: seq<Byte>) returns (len: nat)
      requires Valid() && (data == [] || !NullWrite(splitter, Model(), data))
      modifies this, naluHeader, cache
      ensures Valid() && len == |data|
      ensures Model() == Packetized(splitter, old(Model()), data)
    {
      hide Frame;
      ghost var s := Model();
      len := 0;
      assert data[0..] == data;
      while len < |data|
        invariant len <= |data| && Valid()
        invariant data[len..] == [] || !NullWrite(splitter, Model(), data[len..])
        invariant Packetized(splitter, s, data) == Packetized(splitter, Model(), data[len..])
      {
        var rest := data[len..];
        var plen := PacketizeFrame(rest);
        assert rest[plen..] == data[len + plen..];
        len := len + plen;
      }
    }

    /** finished */
    method Finish()
      requires Valid()
      modifies this
      ensures Valid() && Model() == Finished(splitter, old(Model()))
    {
      if pes.None? { return; }
      var carried := cache[..cacheLen];
      if cacheLen > 0 {
        var _ := WriteDataByte(carried);
        cacheLen := 0;
      } else {
        assert Write(pes.value, carried) == pes.value;
      }
      bFinished := true;
      PushPacket();
    }
  }
}
