/**
 * Sequences of chart points: Python's clamped prefix slice, closing a point
 * sequence into a polygon, the segments a renderer draws between consecutive
 * points, and the pairing of radial values with angular labels.
 */
module Polyline {

  /** Python's `s[:k]` for a non-negative `k`: never fails, and is all of `s` when `s` is shorter than `k`. */
  function PrefixSlice<T>(s: seq<T>, k: nat): (p: seq<T>)
    ensures |p| == if k <= |s| then k else |s|
    ensures p <= s
  {
    if k <= |s| then s[..k] else s
  }

  /** `c` is `s` with its first element repeated once at the end. */
  ghost predicate ClosingOf<T>(c: seq<T>, s: seq<T>)
  {
    && |s| > 0
    && |c| == |s| + 1
    && c[..|s|] == s
    && c[|s|] == s[0]
  }

  /** A point sequence that ends where it starts. */
  ghost predicate IsClosed<T>(c: seq<T>)
  {
    |c| >= 2 && c[0] == c[|c| - 1]
  }

  lemma ClosingIsClosed<T>(c: seq<T>, s: seq<T>)
    requires ClosingOf(c, s)
    ensures IsClosed(c)
    ensures |c| == |s| + 1
  {
  }

  /** The straight segments a renderer draws when it joins each point to the next. */
  function Segments<T>(c: seq<T>): (e: seq<(T, T)>)
    ensures |e| == if |c| < 2 then 0 else |c| - 1
    ensures forall i :: 0 <= i < |e| ==> e[i] == (c[i], c[i + 1])
  {
    if |c| < 2 then [] else [(c[0], c[1])] + Segments(c[1..])
  }

  /** The edges of the polygon with vertices `s` in order: every vertex joined to the next, the last to the first. */
  function PolygonEdges<T>(s: seq<T>): seq<(T, T)>
  {
    seq(|s|, i requires 0 <= i < |s| => (s[i], if i + 1 < |s| then s[i + 1] else s[0]))
  }

  /** Drawing the segments of a closed sequence draws exactly the polygon over the original points. */
  lemma ClosingDrawsPolygon<T>(c: seq<T>, s: seq<T>)
    requires ClosingOf(c, s)
    ensures Segments(c) == PolygonEdges(s)
  {
  }

  /** Points formed by pairing the i-th element of `a` with the i-th element of `b`. */
  function Zip<A, B>(a: seq<A>, b: seq<B>): (z: seq<(A, B)>)
    requires |a| == |b|
    ensures |z| == |a|
    ensures forall i :: 0 <= i < |z| ==> z[i] == (a[i], b[i])
  {
    if |a| == 0 then [] else [(a[0], b[0])] + Zip(a[1..], b[1..])
  }

  /** Closing two sequences of equal length separately closes the sequence of their pairs. */
  lemma ZipOfClosings<A, B>(ca: seq<A>, a: seq<A>, cb: seq<B>, b: seq<B>)
    requires ClosingOf(ca, a) && ClosingOf(cb, b) && |a| == |b|
    ensures ClosingOf(Zip(ca, cb), Zip(a, b))
  {
  }
}
