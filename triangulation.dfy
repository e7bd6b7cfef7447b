/**
 * The triangulation of one face: a triangle is kept, a quad is split along the
 * diagonal from its first corner, and a larger polygon is fanned from its first corner.
 */
module Triangulation {

  /**
   * The face corner that entry `k` of a fan from corner 0 refers to: triangle
   * number t (from 0) is corners (0, t + 1, t + 2), stored at entries 3t, 3t + 1, 3t + 2.
   */
  function FanCorner(k: nat): nat {
    if k % 3 == 0 then 0 else k / 3 + k % 3
  }

  /** Entry j of triangle t refers to corner 0 for j = 0 and to corner t + j otherwise. */
  lemma FanCornerAt(t: nat, j: nat)
    requires j < 3
    ensures FanCorner(3 * t + j) == if j == 0 then 0 else t + j
  {
    assert (3 * t + j) / 3 == t && (3 * t + j) % 3 == j;
  }

  /** The fan triangles (v0, vi, vi+1) for i = `from`, ..., |vs| - 2, appended in that order. */
  function FanFrom<T>(vs: seq<T>, from: nat): (r: seq<T>)
    requires 1 <= from
    ensures |r| == if from + 1 < |vs| then 3 * (|vs| - 1 - from) else 0
    decreases |vs| - from
  {
    if from + 1 < |vs| then [vs[0], vs[from], vs[from + 1]] + FanFrom(vs, from + 1) else []
  }

  /** Entry k of the fan from triangle `from` refers to corner FanCorner(3 * (from - 1) + k). */
  lemma {:induction false} FanFromAt<T>(vs: seq<T>, from: nat, k: nat)
    requires 1 <= from && k < |FanFrom(vs, from)|
    ensures FanCorner(3 * (from - 1) + k) < |vs|
    ensures FanFrom(vs, from)[k] == vs[FanCorner(3 * (from - 1) + k)]
    decreases |vs| - from
  {
    if k < 3 {
      FanCornerAt(from - 1, k);
    } else {
      FanFromAt(vs, from + 1, k - 3);
      assert 3 * (from - 1) + k == 3 * from + (k - 3);
    }
  }

  /**
   * The index entries a face with corners `vs` contributes: 3 corners as they are,
   * 4 corners as two triangles, more than 4 as a fan, fewer than 3 nothing.
   */
  function Triangulate<T>(vs: seq<T>): (r: seq<T>)
    ensures |r| == if |vs| < 3 then 0 else 3 * (|vs| - 2)
    ensures |r| % 3 == 0
  {
    if |vs| == 3 then [vs[0], vs[1], vs[2]]
    else if |vs| == 4 then [vs[0], vs[1], vs[2], vs[0], vs[2], vs[3]]
    else if |vs| > 4 then FanFrom(vs, 1)
    else []
  }

  /**
   * Whatever the number of corners, the entries are those of the fan from corner 0:
   * the triangle and quad cases agree with the general N-gon rule.
   */
  lemma TriangulateAt<T>(vs: seq<T>, k: nat)
    requires k < |Triangulate(vs)|
    ensures FanCorner(k) < |vs|
    ensures Triangulate(vs)[k] == vs[FanCorner(k)]
  {
    if |vs| > 4 {
      FanFromAt(vs, 1, k);
    } else {
      FanCornerAt(k / 3, k % 3);
    }
  }

  /** Triangle t of any face with at least 3 corners is (v0, v[t+1], v[t+2]). */
  lemma FanTriangle<T>(vs: seq<T>, t: nat)
    requires t + 2 < |vs|
    ensures 3 * t + 2 < |Triangulate(vs)|
    ensures Triangulate(vs)[3 * t] == vs[0]
    ensures Triangulate(vs)[3 * t + 1] == vs[t + 1]
    ensures Triangulate(vs)[3 * t + 2] == vs[t + 2]
  {
    FanCornerAt(t, 0);
    FanCornerAt(t, 1);
    FanCornerAt(t, 2);
    TriangulateAt(vs, 3 * t);
    TriangulateAt(vs, 3 * t + 1);
    TriangulateAt(vs, 3 * t + 2);
  }

  /** A triangle keeps its corners in source order, without permutation. */
  lemma TriangleKept<T>(vs: seq<T>)
    requires |vs| == 3
    ensures Triangulate(vs) == vs
  {
  }

  /** The quad split is the fan of a 4-gon: (v0, v1, v2) then (v0, v2, v3). */
  lemma QuadIsFan<T>(vs: seq<T>)
    requires |vs| == 4
    ensures Triangulate(vs) == [vs[0], vs[1], vs[2], vs[0], vs[2], vs[3]]
    ensures Triangulate(vs) == FanFrom(vs, 1)
  {
    assert FanFrom(vs, 3) == [];
    assert FanFrom(vs, 2) == [vs[0], vs[2], vs[3]];
  }

  /** Every entry a face contributes is one of its corners. */
  lemma EntriesAreCorners<T>(vs: seq<T>, k: nat)
    requires k < |Triangulate(vs)|
    ensures Triangulate(vs)[k] in vs
  {
    TriangulateAt(vs, k);
  }
}
