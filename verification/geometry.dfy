/**
 * Shared vocabulary of the panel tools: planar points in millimetres,
 * polylines, the DXF entity as the geometry code sees it, and the small
 * sequence and string helpers (min/max over a non-empty sequence, substring
 * containment, last index of a character) that the Python code gets from
 * its built-ins.
 */
module Geometry {

  datatype Option<T> = None | Some(value: T)

  /** A point (x, y); coordinates are exact reals, not IEEE doubles. */
  datatype Point = Point(x: real, y: real)

  /** An ordered point list; order is significant (outline or cut segment). */
  type Polyline = seq<Point>

  /**
   * A drawing entity reduced to what the core reads: its DXF type name
   * (`POLYLINE`, `LWPOLYLINE`, `LINE`, ...), its layer and its ordered 2D
   * vertices.
   */
  datatype Entity = Entity(dxfType: string, layer: string, points: Polyline)

  /** Python's `min` over a non-empty sequence of numbers. */
  function MinOf(xs: seq<real>): (m: real)
    requires |xs| > 0
    ensures m in xs
    ensures forall i :: 0 <= i < |xs| ==> m <= xs[i]
  {
    if |xs| == 1 then xs[0]
    else
      var rest := MinOf(xs[1..]);
      if xs[0] <= rest then xs[0] else rest
  }

  /** Python's `max` over a non-empty sequence of numbers. */
  function MaxOf(xs: seq<real>): (m: real)
    requires |xs| > 0
    ensures m in xs
    ensures forall i :: 0 <= i < |xs| ==> xs[i] <= m
  {
    if |xs| == 1 then xs[0]
    else
      var rest := MaxOf(xs[1..]);
      if rest <= xs[0] then xs[0] else rest
  }

  /** A member of `xs` that bounds it from below is its minimum. */
  lemma MinOfUnique(xs: seq<real>, v: real)
    requires v in xs && forall i :: 0 <= i < |xs| ==> v <= xs[i]
    ensures MinOf(xs) == v
  {
    var k :| 0 <= k < |xs| && xs[k] == MinOf(xs);
    var j :| 0 <= j < |xs| && xs[j] == v;
  }

  /** A member of `xs` that bounds it from above is its maximum. */
  lemma MaxOfUnique(xs: seq<real>, v: real)
    requires v in xs && forall i :: 0 <= i < |xs| ==> xs[i] <= v
    ensures MaxOf(xs) == v
  {
    var k :| 0 <= k < |xs| && xs[k] == MaxOf(xs);
    var j :| 0 <= j < |xs| && xs[j] == v;
  }

  function Xs(pts: Polyline): (r: seq<real>)
    ensures |r| == |pts|
  {
    seq(|pts|, i requires 0 <= i < |pts| => pts[i].x)
  }

  function Ys(pts: Polyline): (r: seq<real>)
    ensures |r| == |pts|
  {
    seq(|pts|, i requires 0 <= i < |pts| => pts[i].y)
  }

  /** Bounding box of a non-empty polyline, one side at a time. */
  function MinX(pts: Polyline): (r: real)
    requires |pts| > 0
  {
    MinOf(Xs(pts))
  }

  function MaxX(pts: Polyline): (r: real)
    requires |pts| > 0
  {
    MaxOf(Xs(pts))
  }

  function MinY(pts: Polyline): (r: real)
    requires |pts| > 0
  {
    MinOf(Ys(pts))
  }

  function MaxY(pts: Polyline): (r: real)
    requires |pts| > 0
  {
    MaxOf(Ys(pts))
  }

  /** Python's `sub in s` on strings: `sub` occurs at some position of `s`. */
  predicate Contains(s: string, sub: string)
    decreases |s|
  {
    |sub| <= |s| && (s[..|sub|] == sub || Contains(s[1..], sub))
  }

  /** Python's `s.rfind(c)`: the last index holding `c`, or -1. */
  function LastIndex(s: string, c: char): (r: int)
    ensures -1 <= r < |s|
    ensures r >= 0 ==> s[r] == c
    ensures forall j :: r < j < |s| ==> s[j] != c
    ensures r == -1 <==> c !in s
  {
    if |s| == 0 then -1
    else if s[|s| - 1] == c then |s| - 1
    else
      var r := LastIndex(s[..|s| - 1], c);
      assert c in s[..|s| - 1] ==> c in s;
      assert forall j :: 0 <= j < |s| - 1 ==> s[..|s| - 1][j] == s[j];
      r
  }
}
