/** Bytes, and the option type the stages share. */
module Bytes {
  type Byte = x: int | 0 <= x < 256

  datatype Option<+T> = None | Some(value: T)

  function Min(a: int, b: int): int { if a <= b then a else b }

  /** The chunks of a stream, end to end. */
  function Flatten<T>(chunks: seq<seq<T>>): seq<T> {
    if chunks == [] then [] else chunks[0] + Flatten(chunks[1..])
  }

  /** The first chunk that is not empty. */
  function Head<T(==)>(chunks: seq<seq<T>>): seq<T> {
    if chunks == [] then [] else if chunks[0] != [] then chunks[0] else Head(chunks[1..])
  }

  lemma {:induction false} FlattenConcat<T>(a: seq<seq<T>>, b: seq<seq<T>>)
    ensures Flatten(a + b) == Flatten(a) + Flatten(b)
  {
    if a == [] {
      assert a + b == b;
    } else {
      FlattenConcat(a[1..], b);
      assert (a + b)[1..] == a[1..] + b;
      Assoc(a[0], Flatten(a[1..]), Flatten(b));
    }
  }

  lemma Assoc<T>(a: seq<T>, b: seq<T>, c: seq<T>)
    ensures a + b + c == a + (b + c)
  {}

  lemma Slices<T>(d: seq<T>, a: nat, b: nat, c: nat)
    requires a <= b <= c <= |d|
    ensures d[a..b] + d[b..c] == d[a..c]
  {}

  /** `d` is the part of `t` that begins at `q`. */
  ghost predicate Part<T>(t: seq<T>, q: nat, d: seq<T>) {
    && q + |d| <= |t|
    && forall j {:trigger d[j]} :: 0 <= j < |d| ==> d[j] == t[q + j]
  }

  lemma PartSlice<T>(t: seq<T>, q: nat, d: seq<T>, a: nat, b: nat)
    requires Part(t, q, d) && a <= b <= |d|
    ensures t[q + a..q + b] == d[a..b] && Part(t, q + a, d[a..b])
  {
    var e, f := t[q + a..q + b], d[a..b];
    assert forall j :: 0 <= j < b - a ==> e[j] == t[q + a + j] && f[j] == d[a + j];
  }

  lemma PartTail<T>(t: seq<T>, q: nat, d: seq<T>, k: nat)
    requires Part(t, q, d) && k <= |d|
    ensures Part(t, q + k, d[k..])
  {
    var e := d[k..];
    assert forall j :: 0 <= j < |e| ==> e[j] == d[k + j];
  }

  lemma WholePart<T>(t: seq<T>)
    ensures Part(t, 0, t)
  {}

  lemma PartsJoin<T>(t: seq<T>, q: nat, d: seq<T>, e: seq<T>)
    requires Part(t, q, d) && Part(t, q + |d|, e)
    ensures Part(t, q, d + e)
  {
    var de := d + e;
    assert forall j :: |d| <= j < |de| ==> de[j] == e[j - |d|];
  }

  lemma Whole<T>(d: seq<T>)
    ensures d[..|d|] == d && d[0..] == d && d[0..|d|] == d
  {}

  lemma NilRight<T>(a: seq<T>)
    ensures a + [] == a
  {}

  lemma NilLeft<T>(a: seq<T>)
    ensures [] + a == a
  {}

  lemma FlattenSnoc<T>(a: seq<seq<T>>, x: seq<T>)
    ensures Flatten(a + [x]) == Flatten(a) + x
  {
    FlattenConcat(a, [x]);
    assert Flatten([x]) == x + Flatten([]);
  }

  lemma Halves<T>(a: seq<T>, d: seq<T>, k: nat)
    requires k <= |d|
    ensures a + d[..k] + d[k..] == a + d
  {
    assert d[..k] + d[k..] == d;
    Assoc(a, d[..k], d[k..]);
  }

  lemma JoinSlices<T>(a: seq<T>, d: seq<T>, k: nat, n: nat)
    requires k <= n <= |d|
    ensures a + d[..k] + d[k..n] == a + d[..n]
    ensures n == |d| ==> d[k..n] == d[k..]
  {
    assert d[..k] + d[k..n] == d[..n];
    Assoc(a, d[..k], d[k..n]);
  }
}
