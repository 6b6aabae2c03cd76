/**
 * Three-dimensional points and vectors (Space<3> in the tracker), the C
 * library's round(), and the voxel grid the tracker indexes.
 * Floating-point coordinates are modelled as exact reals.
 */
module Geometry {

  /** A point or vector with three real coordinates. */
  datatype Vec = Vec(x: real, y: real, z: real)

  const Zero: Vec := Vec(0.0, 0.0, 0.0)

  /** Space<3>::zeroVector(v): the "no direction yet" sentinel test. */
  predicate IsZero(v: Vec) { v == Zero }

  function Add(a: Vec, b: Vec): Vec { Vec(a.x + b.x, a.y + b.y, a.z + b.z) }

  function Scale(v: Vec, k: real): Vec { Vec(v.x * k, v.y * k, v.z * k) }

  predicate NoZeroComponent(d: Vec) { d.x != 0.0 && d.y != 0.0 && d.z != 0.0 }

  /** Element-wise division (a physical direction divided by the voxel size). */
  function Div(v: Vec, d: Vec): Vec
    requires NoZeroComponent(d)
  {
    Vec(v.x / d.x, v.y / d.y, v.z / d.z)
  }

  function Dot(a: Vec, b: Vec): real { a.x * b.x + a.y * b.y + a.z * b.z }

  function Abs(r: real): real { if r < 0.0 then -r else r }

  /**
   * C's round(): the nearest integer, halfway cases rounded away from zero.
   * The two clauses pin the result down uniquely, tie-breaking included.
   */
  function Round(x: real): (r: int)
    ensures x >= 0.0 ==> x - 0.5 < r as real <= x + 0.5
    ensures x < 0.0 ==> x - 0.5 <= r as real < x + 0.5
  {
    if x >= 0.0 then (x + 0.5).Floor else -((-x + 0.5).Floor)
  }

  /** Rounding never reverses the order of two reals. */
  lemma RoundMonotone(a: real, b: real)
    requires a <= b
    ensures Round(a) <= Round(b)
  {
  }

  /**
   * The per-axis bounds check of the tracker: on a grid axis of n >= 1 voxels,
   * the rounded coordinate is a valid index exactly when the coordinate lies
   * strictly between -0.5 and n - 0.5 (round(-0.5) is -1, not 0).
   */
  lemma AxisInRange(x: real, n: int)
    requires n >= 1
    ensures 0 <= Round(x) <= n - 1 <==> -0.5 < x < n as real - 0.5
  {
  }

  /** An integer voxel index (i, j, k). */
  datatype Voxel = Voxel(i: int, j: int, k: int)

  /** The extents of a voxel grid, one per axis. */
  datatype Grid = Grid(nx: int, ny: int, nz: int)

  predicate PositiveGrid(g: Grid) { g.nx >= 1 && g.ny >= 1 && g.nz >= 1 }

  predicate InGrid(v: Voxel, g: Grid)
  {
    0 <= v.i <= g.nx - 1 && 0 <= v.j <= g.ny - 1 && 0 <= v.k <= g.nz - 1
  }

  /** The voxel a point falls in: each coordinate rounded. */
  function RoundVoxel(p: Vec): Voxel { Voxel(Round(p.x), Round(p.y), Round(p.z)) }

  /** A point is within the grid when its rounded voxel is. */
  predicate InBounds(p: Vec, g: Grid) { InGrid(RoundVoxel(p), g) }

  /** The set of voxels of a sequence of points, built up point by point. */
  ghost function VoxelsOf(ps: seq<Vec>): set<Voxel>
  {
    if ps == [] then {} else VoxelsOf(ps[..|ps| - 1]) + {RoundVoxel(ps[|ps| - 1])}
  }

  /** Appending a point adds exactly its voxel. */
  lemma VoxelsOfAppend(ps: seq<Vec>, p: Vec)
    ensures VoxelsOf(ps + [p]) == VoxelsOf(ps) + {RoundVoxel(p)}
  {
    assert (ps + [p])[..|ps|] == ps;
  }

  /** A voxel is in VoxelsOf(ps) exactly when some point of ps rounds to it. */
  lemma {:induction false} VoxelsOfMembers(ps: seq<Vec>, v: Voxel)
    ensures v in VoxelsOf(ps) <==> exists n :: 0 <= n < |ps| && RoundVoxel(ps[n]) == v
  {
    if ps != [] {
      var init := ps[..|ps| - 1];
      VoxelsOfMembers(init, v);
      if v in VoxelsOf(init) {
        var n :| 0 <= n < |init| && RoundVoxel(init[n]) == v;
        assert ps[n] == init[n];
      }
      if exists n :: 0 <= n < |ps| && RoundVoxel(ps[n]) == v {
        var n :| 0 <= n < |ps| && RoundVoxel(ps[n]) == v;
        if n < |init| {
          assert init[n] == ps[n];
        }
      }
    }
  }
}
