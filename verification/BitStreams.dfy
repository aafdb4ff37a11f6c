/** The bit writer of PS/Semantics.cpp. */
module BitStreams {
  import opened Bytes
  import opened Bits

  // ----- write8 on the byte vector -----

  function Zeros(n: nat): (z: seq<Byte>)
    ensures |z| == n && forall i :: 0 <= i < n ==> z[i] == 0
  {
    seq(n, i => 0)
  }

  /** The vector grows by 128 bytes past the current one when it ends here. */
  function Resized(stream: seq<Byte>, index: nat): (r: seq<Byte>)
    ensures |r| > index && stream <= r
    ensures forall i :: |stream| <= i < |r| ==> r[i] == 0
    ensures |r| == if |stream| <= index then index + 128 else |stream|
  {
    if |stream| <= index then stream + Zeros(index + 128 - |stream|) else stream
  }

  /** The chosen bits of `value`, moved to the top of a byte. */
  function TopBits(n: nat, value: Byte, s: nat): (v2: Byte)
    requires 0 < n && s + n <= 8
  {
    var v1 := Shl(Shr(value, s), s);
    LowByte(Shl(v1, 8 - s - n));
    Low(Shl(v1, 8 - s - n), 8)
  }

  lemma LowByte(v: nat)
    ensures Low(v, 8) < 256
  {
    LowBound(v, 8);
    Pow2Values();
  }

  lemma TopBitsAre(n: nat, value: Byte, s: nat, j: nat)
    requires 0 < n && s + n <= 8 && j < 8
    ensures Bit(TopBits(n, value, s), 7 - j) == (j < n && Bit(value, s + n - 1 - j))
  {
    var v1 := Shl(Shr(value, s), s);
    var k := 7 - j;
    BitLow(Shl(v1, 8 - s - n), 8, k);
    BitShl(v1, 8 - s - n, k);
    if k >= 8 - s - n {
      BitShl(Shr(value, s), s, k - (8 - s - n));
      if s + n - 1 - j >= s { BitShr(value, s, n - 1 - j); }
    }
  }

  /** Bits of a byte at index 8 and above are zero. */
  lemma HighBits(v: Byte, k: nat)
    requires k >= 8
    ensures !Bit(v, k)
  {
    LowBound(v, 8);
    Pow2Values();
    BitLow(v, 8, k);
  }

  /** The vector after write8: its current byte or-ed, its next byte assigned. */
  function Put8(stream: seq<Byte>, offset: nat, n: nat, value: Byte, s: nat): (r: seq<Byte>)
    requires 0 < n && s + n <= 8
    requires offset % 8 + n > 8 ==> |Resized(stream, offset / 8)| > offset / 8 + 1
    ensures |r| == |Resized(stream, offset / 8)|
  {
    var index, o := offset / 8, offset % 8;
    var st := Resized(stream, index);
    var v2 := TopBits(n, value, s);
    var v3 := Shr(v2, o);
    ShrLe(v2, o);
    Pow2Values();
    OrBound(st[index], v3, 8);
    var st' := st[index := Or(st[index], v3)];
    var nextn := n - (8 - o);
    if nextn > 0 then
      LowByte(Shl(v2, n - nextn));
      st'[index + 1 := Low(Shl(v2, n - nextn), 8)]
    else st'
  }

  lemma OredByte(a: Byte, n: nat, value: Byte, s: nat, o: nat, j: nat)
    requires 0 < n && s + n <= 8 && o < 8 && j < 8
    ensures Bit(Or(a, Shr(TopBits(n, value, s), o)), 7 - j)
         == (Bit(a, 7 - j) || (o <= j < o + n && Bit(value, s + n - 1 - (j - o))))
  {
    var v2 := TopBits(n, value, s);
    BitOr(a, Shr(v2, o), 7 - j);
    BitShr(v2, o, 7 - j);
    if j >= o {
      TopBitsAre(n, value, s, j - o);
    } else {
      HighBits(v2, o + 7 - j);
    }
  }

  lemma NextByte(n: nat, value: Byte, s: nat, o: nat, j: nat)
    requires 0 < n && s + n <= 8 && o < 8 && o + n > 8 && j < 8
    ensures Bit(Low(Shl(TopBits(n, value, s), 8 - o), 8), 7 - j)
         == (j + 8 - o < n && Bit(value, s + n - 1 - (j + 8 - o)))
  {
    var v2 := TopBits(n, value, s);
    BitLow(Shl(v2, 8 - o), 8, 7 - j);
    BitShl(v2, 8 - o, 7 - j);
    if 7 - j >= 8 - o { TopBitsAre(n, value, s, j + 8 - o); }
  }

  /** The bits written so far. */
  function Written(stream: seq<Byte>, offset: nat): seq<bool>
    requires offset <= 8 * |stream|
  {
    BytesBits(stream)[..offset]
  }

  /** Nothing but zeros at and beyond `offset`: what the or-ing relies on. */
  ghost predicate Clean(stream: seq<Byte>, offset: nat) {
    && offset <= 8 * |stream|
    && forall k {:trigger BytesBits(stream)[k]} :: offset <= k < 8 * |stream| ==> !BytesBits(stream)[k]
  }

  lemma ResizedClean(stream: seq<Byte>, offset: nat)
    requires Clean(stream, offset)
    ensures var st := Resized(stream, offset / 8);
            Clean(st, offset) && Written(st, offset) == Written(stream, offset)
  {
    var st := Resized(stream, offset / 8);
    forall k | 0 <= k < 8 * |st| ensures BytesBits(st)[k] == (k < 8 * |stream| && BytesBits(stream)[k]) {
      if k >= 8 * |stream| { BitZero(7 - k % 8); }
    }
  }

  lemma Put8Bit(stream: seq<Byte>, offset: nat, n: nat, value: Byte, s: nat, k: nat)
    requires 0 < n && s + n <= 8 && |stream| > offset / 8 && Clean(stream, offset)
    requires offset % 8 + n > 8 ==> |stream| > offset / 8 + 1
    requires k < 8 * |stream|
    ensures BytesBits(Put8(stream, offset, n, value, s))[k]
         == if k < offset then BytesBits(stream)[k]
            else k < offset + n && Bit(value, s + n - 1 - (k - offset))
  {
    var index, o, j := offset / 8, offset % 8, k % 8;
    if k / 8 == index {
      OredByte(stream[index], n, value, s, o, j);
      assert BytesBits(stream)[k] == Bit(stream[index], 7 - j);
    } else if k / 8 == index + 1 && o + n > 8 {
      NextByte(n, value, s, o, j);
    } else {
      assert Put8(stream, offset, n, value, s)[k / 8] == stream[k / 8];
      assert BytesBits(stream)[k] == Bit(stream[k / 8], 7 - j);
    }
  }

  /** write8 appends exactly the chosen bits, whatever the offset, and keeps the rest
      of the vector zero. */
  lemma Put8Appends(stream: seq<Byte>, offset: nat, n: nat, value: Byte, s: nat)
    requires 0 < n && s + n <= 8 && Clean(stream, offset)
    requires offset % 8 + n > 8 ==> |Resized(stream, offset / 8)| > offset / 8 + 1
    ensures var r := Put8(stream, offset, n, value, s);
            && Clean(r, offset + n)
            && Written(r, offset + n) == Written(stream, offset) + ToBits(n, Shr(value, s))
  {
    hide Put8, Bit, Shr, ToBits, BytesBits;
    var st := Resized(stream, offset / 8);
    ResizedClean(stream, offset);
    PutOnResized(stream, offset, n, value, s);
    var r := Put8(stream, offset, n, value, s);
    var add := ToBits(n, Shr(value, s));
    forall k | 0 <= k < 8 * |r|
      ensures BytesBits(r)[k] == if k < offset then BytesBits(st)[k] else k < offset + n && add[k - offset]
    {
      Put8Bit(st, offset, n, value, s, k);
      if offset <= k < offset + n { BitShr(value, s, n - 1 - (k - offset)); }
    }
    RunOfBits(BytesBits(st), BytesBits(r), offset, add);
  }

  lemma PutOnResized(stream: seq<Byte>, offset: nat, n: nat, value: Byte, s: nat)
    requires 0 < n && s + n <= 8
    requires offset % 8 + n > 8 ==> |Resized(stream, offset / 8)| > offset / 8 + 1
    ensures Put8(stream, offset, n, value, s) == Put8(Resized(stream, offset / 8), offset, n, value, s)
  {}

  lemma RunOfBits(a: seq<bool>, b: seq<bool>, offset: nat, add: seq<bool>)
    requires |a| == |b| && offset + |add| <= |b|
    requires forall k :: 0 <= k < |b| ==> b[k] == if k < offset then a[k] else k < offset + |add| && add[k - offset]
    ensures b[..offset + |add|] == a[..offset] + add
    ensures forall k :: offset + |add| <= k < |b| ==> !b[k]
  {
    var l, r := b[..offset + |add|], a[..offset] + add;
    assert forall k :: 0 <= k < |l| ==> l[k] == r[k];
  }
}
