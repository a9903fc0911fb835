/** The pure parts of Domain.cpp: the corner-consistency check, the sample
    parameters xi and eta, and the per-point transfinite blend whose values
    generate_grid stores. `tanh` is the C library's hyperbolic tangent; it
    is a parameter here, and lemmas assume only the facts about it they use. */
module Tfi {
  import opened Geometry
  import opened Indexing

  /** Corner tolerance of check_consistency. */
  const Small: real := 0.00001

  function Abs(a: real): real {
    if a < 0.0 then -a else a
  }

  /** abs(d) < SMALL, written as the interval -SMALL < d < SMALL. */
  predicate Near(d: real) {
    -Small < d < Small
  }

  /** Domain::check_consistency: the `correct &= abs(gap) < SMALL` chain over
      the lower-left, lower-right, upper-right and upper-left corner, x then y. */
  function CheckConsistency(sides: Sides): bool {
    var b, r, t, l := sides[Bottom], sides[Right], sides[Top], sides[Left];
    && Near(l.x(0.0) - b.x(0.0)) && Near(l.y(0.0) - b.y(0.0))
    && Near(b.x(1.0) - r.x(0.0)) && Near(b.y(1.0) - r.y(0.0))
    && Near(r.x(1.0) - t.x(1.0)) && Near(r.y(1.0) - t.y(1.0))
    && Near(t.x(0.0) - l.x(1.0)) && Near(t.y(0.0) - l.y(1.0))
  }

  /** Two points agree in both coordinates up to the corner tolerance. */
  predicate Close(p: Point, q: Point) {
    Abs(p.x - q.x) < Small && Abs(p.y - q.y) < Small
  }

  /** The corner table the four curves must satisfy (within tolerance). */
  predicate CornersClose(sides: Sides) {
    var b, r, t, l := sides[Bottom], sides[Right], sides[Top], sides[Left];
    Close(l.At(0.0), b.At(0.0)) && Close(b.At(1.0), r.At(0.0)) &&
    Close(r.At(1.0), t.At(1.0)) && Close(t.At(0.0), l.At(1.0))
  }

  /** The same corner table with exact equality. */
  predicate CornersMeet(sides: Sides) {
    var b, r, t, l := sides[Bottom], sides[Right], sides[Top], sides[Left];
    l.At(0.0) == b.At(0.0) && b.At(1.0) == r.At(0.0) &&
    r.At(1.0) == t.At(1.0) && t.At(0.0) == l.At(1.0)
  }

  /** check_consistency holds exactly when all four corners of the table match,
      each in x and in y, strictly within the tolerance 1e-5. */
  lemma CheckConsistencyIff(sides: Sides)
    ensures CheckConsistency(sides) <==> CornersClose(sides)
  {
  }

  /** The interval form of the tolerance test is abs(d) < SMALL, in either order of subtraction. */
  lemma NearIsAbsBelowSmall(d: real)
    ensures Near(d) <==> Abs(d) < Small
    ensures Near(d) <==> Near(-d)
  {
  }

  /** Exactly meeting corners pass the check. */
  lemma MeetingCornersAreConsistent(sides: Sides)
    requires CornersMeet(sides)
    ensures CheckConsistency(sides)
  {
    CheckConsistencyIff(sides);
  }

  /** The uniform parameter xi = hx * i with hx = 1 / nx. */
  function Xi(i: int, nx: int): real
    requires nx > 0
  {
    (1.0 / nx as real) * i as real
  }

  /** The clustered parameter eta = 1 + tanh(3 (hy * j - 1)) / tanh(3) with hy = 1 / ny. */
  function Eta(j: int, ny: int, tanh: real -> real): real
    requires ny > 0 && tanh(3.0) != 0.0
  {
    1.0 + tanh(3.0 * ((1.0 / ny as real) * j as real - 1.0)) / tanh(3.0)
  }

  /** The blending functions phi0 and phi1. */
  function Phi0(s: real): real { 1.0 - s }
  function Phi1(s: real): real { s }

  /** One coordinate of the blend in the interpolation loop: edge terms l, r
      (left and right samples of row j), b, t (bottom and top samples of column
      i), minus the four corner terms weighted by phi0/phi1 of xi and eta. */
  function Blend(xi: real, eta: real, l: real, r: real, b: real, t: real,
                 c00: real, c10: real, c01: real, c11: real): real
  {
    Phi0(xi) * l + Phi1(xi) * r + Phi0(eta) * b + Phi1(eta) * t
    - Phi0(xi) * Phi0(eta) * c00 - Phi1(xi) * Phi0(eta) * c10
    - Phi0(xi) * Phi1(eta) * c01 - Phi1(xi) * Phi1(eta) * c11
  }

  /** botPts[i], topPts[i], leftPts[j] and rightPts[j] of generate_grid. */
  function BottomSample(sides: Sides, nx: int, i: int): Point
    requires nx > 0
  {
    sides[Bottom].At(Xi(i, nx))
  }

  function TopSample(sides: Sides, nx: int, i: int): Point
    requires nx > 0
  {
    sides[Top].At(Xi(i, nx))
  }

  function LeftSample(sides: Sides, ny: int, tanh: real -> real, j: int): Point
    requires ny > 0 && tanh(3.0) != 0.0
  {
    sides[Left].At(Eta(j, ny, tanh))
  }

  function RightSample(sides: Sides, ny: int, tanh: real -> real, j: int): Point
    requires ny > 0 && tanh(3.0) != 0.0
  {
    sides[Right].At(Eta(j, ny, tanh))
  }

  /** The blend of one point from its samples: l, r of its row, b, t of its
      column, and the first samples b0, r0, l0, t0. The x corner terms use
      b0.x and r0.x; the y corner terms use l0.y and t0.y. */
  function BlendPoint(xi: real, eta: real, l: Point, r: Point, b: Point, t: Point,
                      b0: Point, r0: Point, l0: Point, t0: Point): Point
  {
    Point(Blend(xi, eta, l.x, r.x, b.x, t.x, b0.x, r0.x, b0.x, r0.x),
          Blend(xi, eta, l.y, r.y, b.y, t.y, l0.y, l0.y, t0.y, t0.y))
  }

  /** Grid point (i, j) as generate_grid computes it. */
  function GridPoint(sides: Sides, nx: int, ny: int, tanh: real -> real, i: int, j: int): Point
    requires nx > 0 && ny > 0 && tanh(3.0) != 0.0
  {
    BlendPoint(Xi(i, nx), Eta(j, ny, tanh),
               LeftSample(sides, ny, tanh, j), RightSample(sides, ny, tanh, j),
               BottomSample(sides, nx, i), TopSample(sides, nx, i),
               BottomSample(sides, nx, 0), RightSample(sides, ny, tanh, 0),
               LeftSample(sides, ny, tanh, 0), TopSample(sides, nx, 0))
  }

  /** The x_ buffer generate_grid fills: slot j * (nx + 1) + i holds the x
      coordinate of grid point (i, j), for every point of the grid. */
  function GridX(sides: Sides, nx: int, ny: int, tanh: real -> real): (r: seq<real>)
    requires nx > 0 && ny > 0 && tanh(3.0) != 0.0
    ensures |r| == Size(nx, ny)
    ensures forall i, j :: 0 <= i <= nx && 0 <= j <= ny ==>
      0 <= Index(i, j, nx) < |r| && r[Index(i, j, nx)] == GridPoint(sides, nx, ny, tanh, i, j).x
  {
    Layout((i, j) => GridPoint(sides, nx, ny, tanh, i, j).x, nx, ny + 1)
  }

  /** The y_ buffer generate_grid fills, laid out like GridX. */
  function GridY(sides: Sides, nx: int, ny: int, tanh: real -> real): (r: seq<real>)
    requires nx > 0 && ny > 0 && tanh(3.0) != 0.0
    ensures |r| == Size(nx, ny)
    ensures forall i, j :: 0 <= i <= nx && 0 <= j <= ny ==>
      0 <= Index(i, j, nx) < |r| && r[Index(i, j, nx)] == GridPoint(sides, nx, ny, tanh, i, j).y
  {
    Layout((i, j) => GridPoint(sides, nx, ny, tanh, i, j).y, nx, ny + 1)
  }
}
