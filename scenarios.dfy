/** Concrete inputs that exhibit the two discrepancies between Domain.cpp and
    what its comments and the transfinite-interpolation scheme call for. */
module Scenarios {
  import opened Geometry
  import opened Indexing
  import opened Tfi
  import opened TfiProperties
  import opened GridDomain

  /** The unit square, sides in the order bottom, right, top, left. */
  const UnitSquare: Sides :=
    [Curve(t => t, t => 0.0), Curve(t => 1.0, t => t),
     Curve(t => t, t => 1.0), Curve(t => 0.0, t => t)]

  /** The unit square moved one unit to the right. */
  const ShiftedSquare: Sides :=
    [Curve(t => t + 1.0, t => 0.0), Curve(t => 2.0, t => t),
     Curve(t => t + 1.0, t => 1.0), Curve(t => 1.0, t => t)]

  /** The quadrilateral with corners (0, 0), (1, 1), (1, 2), (0, 1): its
      bottom and top are not horizontal. */
  const Slanted: Sides :=
    [Curve(t => t, t => t), Curve(t => 1.0, t => 1.0 + t),
     Curve(t => t, t => 1.0 + t), Curve(t => 0.0, t => t)]

  /** The lower-left grid point is the lower-left corner, so two grids over
      domains with different lower-left corners differ in slot 0. */
  lemma FirstSlotIsLowerLeftCorner(sides: Sides, nx: int, ny: int, tanh: real -> real)
    requires nx > 0 && ny > 0 && TanhFacts(tanh) && CornersMeet(sides)
    ensures GridX(sides, nx, ny, tanh)[0] == sides[Bottom].x(0.0)
    ensures GridY(sides, nx, ny, tanh)[0] == sides[Bottom].y(0.0)
  {
    GridCorners(sides, nx, ny, tanh);
    assert Index(0, 0, nx) == 0;
  }

  /** A Domain over `sides` with a generated 1 by 1 grid and the identity
      standing in for tanh. */
  method GridOver(sides: Sides) returns (d: Domain)
    requires CornersMeet(sides)
    ensures fresh(d) && d.Valid() && d.sides == sides && d.nx == 1 && d.ny == 1
    ensures d.xs != null && d.xs.Length > 0 && d.xs[0] == sides[Bottom].x(0.0)
  {
    var id: real -> real := t => t;
    assert TanhFacts(id);
    MeetingCornersAreConsistent(sides);
    assert [sides[Bottom], sides[Right], sides[Top], sides[Left]] == sides;
    d := new Domain(sides[Bottom], sides[Right], sides[Top], sides[Left]);
    var _ := d.GenerateGrid(1, 1, id);
    FirstSlotIsLowerLeftCorner(sides, 1, 1, id);
  }

  /** operator= with equal grid sizes: after `a = b` the sides are b's but
      the grid is still the one generated over a's sides, so the two
      domains disagree on their points. */
  method StaleAssignment() returns (a: Domain, b: Domain)
    ensures a != b && a.Valid() && b.Valid()
    ensures a.sides == b.sides
    ensures a.State() != b.State()
  {
    assert CornersMeet(UnitSquare) && CornersMeet(ShiftedSquare);
    a := GridOver(UnitSquare);
    b := GridOver(ShiftedSquare);
    a.Assign(b);
    assert a.xs[0] == 0.0 && b.xs[0] == 1.0;
  }

  /** The same two domains with the copying assignment: the grids agree. */
  method FreshAssignment() returns (a: Domain, b: Domain)
    ensures a != b && a.Valid() && b.Valid()
    ensures a.sides == b.sides && a.State() == b.State()
  {
    assert CornersMeet(UnitSquare) && CornersMeet(ShiftedSquare);
    a := GridOver(UnitSquare);
    b := GridOver(ShiftedSquare);
    a.AssignCopy(b);
  }

  /** On the slanted quadrilateral the curves meet at their corners, yet the
      grid's lower-right point is (1, 2) rather than the corner (1, 1): the
      corner terms of the y blend take leftPts[0].y where bottom(1).y belongs. */
  lemma SlantedCornerMisplaced(nx: int, ny: int, tanh: real -> real)
    requires nx > 0 && ny > 0 && TanhFacts(tanh)
    ensures CornersMeet(Slanted) && CheckConsistency(Slanted) && !Rectangular(Slanted)
    ensures Slanted[Bottom].At(1.0) == Point(1.0, 1.0)
    ensures GridPoint(Slanted, nx, ny, tanh, nx, 0) == Point(1.0, 2.0)
  {
    assert CornersMeet(Slanted);
    MeetingCornersAreConsistent(Slanted);
    GridCorners(Slanted, nx, ny, tanh);
  }

  /** Textbook interpolation puts the same corner where it belongs. */
  lemma SlantedCornerTextbook()
    ensures TextbookTfi(Slanted, 1.0, 0.0) == Point(1.0, 1.0)
  {
    assert CornersMeet(Slanted);
    TextbookTfiReproducesBoundary(Slanted, 1.0);
  }
}
