/** The Domain class of Domain.cpp: four boundary curves and, once a grid has
    been generated, two row-major coordinate buffers of (nx + 1) * (ny + 1)
    entries each. The fatal exits of Domain.cpp become error results. */
module GridDomain {
  import opened Geometry
  import opened Indexing
  import opened Tfi

  /** The three fatal errors of Domain.cpp. */
  datatype DomainError = InconsistentBoundary | InvalidGridSize | NoGrid

  datatype Result<T> = Ok(value: T) | Err(error: DomainError)

  datatype Outcome = Pass | Fail(error: DomainError)

  /** The observable grid of a Domain: none, or the sizes and both buffers. */
  datatype GridState = Ungenerated | Generated(nx: int, ny: int, xs: seq<real>, ys: seq<real>)

  /** A fresh buffer with the contents of `src` (new double[n] + memcpy). */
  method CopyBuffer(src: array<real>) returns (dst: array<real>)
    ensures fresh(dst) && dst[..] == src[..]
  {
    dst := new real[src.Length];
    var k := 0;
    while k < src.Length
      invariant 0 <= k <= src.Length
      invariant forall m :: 0 <= m < k ==> dst[m] == src[m]
    {
      dst[k] := src[k];
      k := k + 1;
    }
  }

  class Domain {
    var nx: int
    var ny: int
    var xs: array?<real>
    var ys: array?<real>
    var sides: Sides

    /** The class invariant: the buffers are both present or both absent;
        without them the sizes are 0, with them the sizes are positive and
        both buffers have Size(nx, ny) slots. (That the sides passed the
        corner check is stated by the constructor and kept by every method,
        which either leaves the sides alone or copies another Domain's.) */
    ghost predicate Valid()
      reads this
    {
      && (xs == null <==> ys == null)
      && (xs == null ==> nx == 0 && ny == 0)
      && (xs != null ==> nx > 0 && ny > 0 && xs != ys &&
                         xs.Length == Size(nx, ny) && ys.Length == Size(nx, ny))
    }

    ghost function State(): GridState
      reads this, xs, ys
    {
      if xs == null || ys == null then Ungenerated
      else Generated(nx, ny, xs[..], ys[..])
    }

    /** Domain(bottom, right, top, left) on its success path: the process
        exits unless check_consistency holds. */
    constructor (bottom: Curve, right: Curve, top: Curve, left: Curve)
      requires CheckConsistency([bottom, right, top, left])
      ensures Valid()
      ensures sides == [bottom, right, top, left] && CheckConsistency(sides)
      ensures nx == 0 && ny == 0 && xs == null && ys == null && State() == Ungenerated
    {
      sides := [bottom, right, top, left];
      nx, ny := 0, 0;
      xs, ys := null, null;
    }

    /** Copy constructor: the sides are copied; a present grid is deep-copied
        into fresh buffers; otherwise the copy has no grid. */
    constructor Copy(other: Domain)
      requires other.Valid()
      ensures Valid()
      ensures sides == other.sides
      ensures nx == other.nx && ny == other.ny && State() == other.State()
      ensures xs != null ==> fresh(xs) && fresh(ys)
    {
      sides := other.sides;
      nx, ny := other.nx, other.ny;
      if other.xs != null && other.ys != null {
        var cx := CopyBuffer(other.xs);
        var cy := CopyBuffer(other.ys);
        xs, ys := cx, cy;
      } else {
        nx, ny := 0, 0;
        xs, ys := null, null;
      }
    }

    /** operator= as written: nothing happens on self-assignment; otherwise
        the sides are copied, and the grid is replaced by a copy of the
        other's (or reset) only when the sizes differ. With equal sizes the
        old buffers and their contents stay. */
    method Assign(other: Domain)
      requires Valid() && other.Valid()
      modifies this
      ensures Valid()
      ensures other == this ==> unchanged(this)
      ensures other != this ==> sides == other.sides
      ensures other != this && (old(nx) != other.nx || old(ny) != other.ny) ==>
        nx == other.nx && ny == other.ny && State() == other.State() &&
        (xs != null ==> fresh(xs) && fresh(ys))
      ensures other != this && old(nx) == other.nx && old(ny) == other.ny ==>
        nx == old(nx) && ny == old(ny) && xs == old(xs) && ys == old(ys) &&
        State() == old(State())
    {
      if this != other {
        sides := other.sides;
        if nx != other.nx || ny != other.ny {
          nx, ny := other.nx, other.ny;
          if other.xs != null && other.ys != null {
            xs := CopyBuffer(other.xs);
            ys := CopyBuffer(other.ys);
          } else {
            nx, ny := 0, 0;
            xs, ys := null, null;
          }
        }
      }
    }

    /** operator= as evidently intended: after `this = other` the grids are
        equal, whatever the sizes were. */
    method AssignCopy(other: Domain)
      requires Valid() && other.Valid()
      modifies this
      ensures Valid()
      ensures sides == other.sides
      ensures nx == other.nx && ny == other.ny && State() == other.State()
      ensures other != this && xs != null ==> fresh(xs) && fresh(ys)
    {
      if this != other {
        sides := other.sides;
        nx, ny := other.nx, other.ny;
        if other.xs != null && other.ys != null {
          xs := CopyBuffer(other.xs);
          ys := CopyBuffer(other.ys);
        } else {
          nx, ny := 0, 0;
          xs, ys := null, null;
        }
      }
    }

    /** generate_grid(nX, nY): rejects non-positive sizes before touching
        anything; otherwise replaces the grid with fresh buffers of
        Size(nX, nY) slots holding the blended points. */
    method GenerateGrid(nX: int, nY: int, tanh: real -> real) returns (outcome: Outcome)
      requires Valid() && tanh(3.0) != 0.0
      modifies this
      ensures Valid() && sides == old(sides)
      ensures outcome.Fail? <==> nX <= 0 || nY <= 0
      ensures outcome.Fail? ==> outcome.error == InvalidGridSize && unchanged(this)
      ensures outcome.Pass? ==>
        && nx == nX && ny == nY && fresh(xs) && fresh(ys)
        && State() == Generated(nX, nY, GridX(sides, nX, nY, tanh), GridY(sides, nX, nY, tanh))
    {
      if nX <= 0 || nY <= 0 {
        return Fail(InvalidGridSize);
      }
      var gx, gy := BuildGrid(sides, nX, nY, tanh);
      nx, ny := nX, nY;
      xs, ys := gx, gy;
      outcome := Pass;
    }

    /** print_grid without the file: fails when no grid exists, otherwise
        yields the points with j outer and i inner, which is buffer order. */
    method PrintGrid() returns (r: Result<seq<Point>>)
      requires Valid()
      ensures r.Err? <==> xs == null || ys == null
      ensures r.Err? ==> r.error == NoGrid
      ensures r.Ok? ==> (xs != null && ys != null &&
        |r.value| == Size(nx, ny) == xs.Length &&
        forall k :: 0 <= k < |r.value| ==> r.value[k] == Point(xs[k], ys[k]))
    {
      if xs == null || ys == null {
        return Err(NoGrid);
      }
      var pts: seq<Point> := [];
      var j := 0;
      while j <= ny
        invariant 0 <= j <= ny + 1
        invariant |pts| == Index(0, j, nx) <= Size(nx, ny)
        invariant forall k :: 0 <= k < |pts| ==> pts[k] == Point(xs[k], ys[k])
      {
        var i := 0;
        while i <= nx
          invariant 0 <= i <= nx + 1
          invariant |pts| == Index(i, j, nx) <= Size(nx, ny)
          invariant forall k :: 0 <= k < |pts| ==> pts[k] == Point(xs[k], ys[k])
        {
          IndexInBounds(i, j, nx, ny);
          var k := Index(i, j, nx);
          pts := pts + [Point(xs[k], ys[k])];
          i := i + 1;
        }
        RowStartBounded(j + 1, nx, ny);
        j := j + 1;
      }
      return Ok(pts);
    }
  }

  /** The first sampling loop of generate_grid: botPts and topPts hold the
      bottom and top curves at xi_i = hx * i, for i = 0 .. nx. */
  method SampleBottomTop(sides: Sides, nx: int) returns (botPts: array<Point>, topPts: array<Point>)
    requires nx > 0
    ensures fresh(botPts) && fresh(topPts)
    ensures botPts.Length == nx + 1 && topPts.Length == nx + 1
    ensures forall k :: 0 <= k <= nx ==>
      botPts[k] == BottomSample(sides, nx, k) && topPts[k] == TopSample(sides, nx, k)
  {
    botPts := new Point[nx + 1];
    topPts := new Point[nx + 1];
    var i := 0;
    while i <= nx
      invariant 0 <= i <= nx + 1
      invariant forall k :: 0 <= k < i ==>
        botPts[k] == BottomSample(sides, nx, k) && topPts[k] == TopSample(sides, nx, k)
    {
      var xi := Xi(i, nx);
      botPts[i] := sides[Bottom].At(xi);
      topPts[i] := sides[Top].At(xi);
      i := i + 1;
    }
  }

  /** The second sampling loop of generate_grid: leftPts and rightPts hold
      the left and right curves at the clustered eta_j, for j = 0 .. ny. */
  method SampleLeftRight(sides: Sides, ny: int, tanh: real -> real) returns (leftPts: array<Point>, rightPts: array<Point>)
    requires ny > 0 && tanh(3.0) != 0.0
    ensures fresh(leftPts) && fresh(rightPts)
    ensures leftPts.Length == ny + 1 && rightPts.Length == ny + 1
    ensures forall k :: 0 <= k <= ny ==>
      leftPts[k] == LeftSample(sides, ny, tanh, k) && rightPts[k] == RightSample(sides, ny, tanh, k)
  {
    leftPts := new Point[ny + 1];
    rightPts := new Point[ny + 1];
    var j := 0;
    while j <= ny
      invariant 0 <= j <= ny + 1
      invariant forall k :: 0 <= k < j ==>
        leftPts[k] == LeftSample(sides, ny, tanh, k) && rightPts[k] == RightSample(sides, ny, tanh, k)
    {
      var eta := Eta(j, ny, tanh);
      leftPts[j] := sides[Left].At(eta);
      rightPts[j] := sides[Right].At(eta);
      j := j + 1;
    }
  }

  /** Both boundary sample arrays of generate_grid hold what its sampling
      loops compute. */
  ghost predicate Sampled(sides: Sides, nx: int, ny: int, tanh: real -> real,
                          botPts: array<Point>, topPts: array<Point>,
                          leftPts: array<Point>, rightPts: array<Point>)
    requires nx > 0 && ny > 0 && tanh(3.0) != 0.0
    reads botPts, topPts, leftPts, rightPts
  {
    && botPts.Length == nx + 1 && topPts.Length == nx + 1
    && leftPts.Length == ny + 1 && rightPts.Length == ny + 1
    && (forall k :: 0 <= k <= nx ==>
          botPts[k] == BottomSample(sides, nx, k) && topPts[k] == TopSample(sides, nx, k))
    && (forall k :: 0 <= k <= ny ==>
          leftPts[k] == LeftSample(sides, ny, tanh, k) && rightPts[k] == RightSample(sides, ny, tanh, k))
  }

  /** The body of generate_grid after its size check: allocates both
      buffers, samples the four sides and fills every slot. */
  method BuildGrid(sides: Sides, nx: int, ny: int, tanh: real -> real) returns (gx: array<real>, gy: array<real>)
    requires nx > 0 && ny > 0 && tanh(3.0) != 0.0
    ensures fresh(gx) && fresh(gy) && gx != gy
    ensures gx.Length == Size(nx, ny) && gy.Length == Size(nx, ny)
    ensures gx[..] == GridX(sides, nx, ny, tanh) && gy[..] == GridY(sides, nx, ny, tanh)
  {
    RowStartBounded(ny + 1, nx, ny);
    gx := new real[Size(nx, ny)];
    gy := new real[Size(nx, ny)];
    var botPts, topPts := SampleBottomTop(sides, nx);
    var leftPts, rightPts := SampleLeftRight(sides, ny, tanh);
    GridXYTargets(sides, nx, ny, tanh);
    Interpolate(sides, nx, ny, tanh, botPts, topPts, leftPts, rightPts, gx, gy,
                GridX(sides, nx, ny, tanh), GridY(sides, nx, ny, tanh));
  }

  /** wantX and wantY hold the coordinates of grid point (i, j) in slot
      j * (nx + 1) + i: what GridX and GridY hold. */
  ghost predicate GridTargets(sides: Sides, nx: int, ny: int, tanh: real -> real,
                              wantX: seq<real>, wantY: seq<real>)
    requires nx > 0 && ny > 0 && tanh(3.0) != 0.0
  {
    && |wantX| == Size(nx, ny) && |wantY| == Size(nx, ny)
    && forall i, j :: 0 <= i <= nx && 0 <= j <= ny ==>
         && 0 <= Index(i, j, nx) < Size(nx, ny)
         && wantX[Index(i, j, nx)] == GridPoint(sides, nx, ny, tanh, i, j).x
         && wantY[Index(i, j, nx)] == GridPoint(sides, nx, ny, tanh, i, j).y
  }

  /** Row j of the targets, addressed from its first slot `start`. */
  ghost predicate RowTargets(sides: Sides, nx: int, ny: int, tanh: real -> real,
                             wantX: seq<real>, wantY: seq<real>, j: int, start: int)
    requires nx > 0 && ny > 0 && tanh(3.0) != 0.0
  {
    && 0 <= start && start + nx + 1 <= |wantX| && start + nx + 1 <= |wantY|
    && forall i :: 0 <= i <= nx ==>
         && wantX[start + i] == GridPoint(sides, nx, ny, tanh, i, j).x
         && wantY[start + i] == GridPoint(sides, nx, ny, tanh, i, j).y
  }

  lemma GridXYTargets(sides: Sides, nx: int, ny: int, tanh: real -> real)
    requires nx > 0 && ny > 0 && tanh(3.0) != 0.0
    ensures GridTargets(sides, nx, ny, tanh, GridX(sides, nx, ny, tanh), GridY(sides, nx, ny, tanh))
  {
  }

  lemma TargetsOfRow(sides: Sides, nx: int, ny: int, tanh: real -> real,
                     wantX: seq<real>, wantY: seq<real>, j: int)
    requires nx > 0 && ny > 0 && tanh(3.0) != 0.0 && 0 <= j <= ny
    requires GridTargets(sides, nx, ny, tanh, wantX, wantY)
    requires 0 <= RowStart(j, nx) && RowStart(j, nx) + nx + 1 <= Size(nx, ny)
    ensures RowTargets(sides, nx, ny, tanh, wantX, wantY, j, RowStart(j, nx))
  {
    forall i | 0 <= i <= nx
      ensures && wantX[RowStart(j, nx) + i] == GridPoint(sides, nx, ny, tanh, i, j).x
              && wantY[RowStart(j, nx) + i] == GridPoint(sides, nx, ny, tanh, i, j).y
    {
      assert Index(i, j, nx) == RowStart(j, nx) + i;
    }
  }

  /** The interpolation loops of generate_grid: with the boundary samples in
      place, fills slot j * (nx + 1) + i of both buffers with grid point (i, j),
      row j = 0 .. ny after row. */
  method Interpolate(sides: Sides, nx: int, ny: int, tanh: real -> real,
                     botPts: array<Point>, topPts: array<Point>,
                     leftPts: array<Point>, rightPts: array<Point>,
                     gx: array<real>, gy: array<real>, ghost wantX: seq<real>, ghost wantY: seq<real>)
    requires nx > 0 && ny > 0 && tanh(3.0) != 0.0
    requires Sampled(sides, nx, ny, tanh, botPts, topPts, leftPts, rightPts)
    requires gx != gy && gx.Length == Size(nx, ny) && gy.Length == Size(nx, ny)
    requires GridTargets(sides, nx, ny, tanh, wantX, wantY)
    modifies gx, gy
    ensures gx[..] == wantX && gy[..] == wantY
  {
    var j := 0;
    while j <= ny
      invariant 0 <= j <= ny + 1
      invariant 0 <= RowStart(j, nx) <= Size(nx, ny)
      invariant forall k :: 0 <= k < RowStart(j, nx) ==> gx[k] == wantX[k] && gy[k] == wantY[k]
    {
      RowStartMonotone(j, j + 1, nx);
      RowStartBounded(j + 1, nx, ny);
      TargetsOfRow(sides, nx, ny, tanh, wantX, wantY, j);
      InterpolateRow(sides, nx, ny, tanh, botPts, topPts, leftPts, rightPts, gx, gy, j, RowStart(j, nx), wantX, wantY);
      j := j + 1;
    }
    assert gx[..] == wantX;
    assert gy[..] == wantY;
  }

  /** The inner interpolation loop for row j, whose first slot is `start`. */
  method InterpolateRow(sides: Sides, nx: int, ny: int, tanh: real -> real,
                        botPts: array<Point>, topPts: array<Point>,
                        leftPts: array<Point>, rightPts: array<Point>,
                        gx: array<real>, gy: array<real>, j: int, start: int,
                        ghost wantX: seq<real>, ghost wantY: seq<real>)
    requires nx > 0 && ny > 0 && tanh(3.0) != 0.0 && 0 <= j <= ny
    requires Sampled(sides, nx, ny, tanh, botPts, topPts, leftPts, rightPts)
    requires gx != gy && |wantX| == gx.Length && |wantY| == gy.Length
    requires RowTargets(sides, nx, ny, tanh, wantX, wantY, j, start)
    requires forall k :: 0 <= k < start ==> gx[k] == wantX[k] && gy[k] == wantY[k]
    modifies gx, gy
    ensures forall k :: 0 <= k < start + nx + 1 ==> gx[k] == wantX[k] && gy[k] == wantY[k]
  {
    var i := 0;
    while i <= nx
      invariant 0 <= i <= nx + 1
      invariant forall k :: 0 <= k < start + i ==> gx[k] == wantX[k] && gy[k] == wantY[k]
    {
      var p := BlendAt(sides, nx, ny, tanh, botPts, topPts, leftPts, rightPts, i, j, start, wantX, wantY);
      gx[start + i] := p.x;
      gy[start + i] := p.y;
      i := i + 1;
    }
  }

  /** The body of the interpolation loops for point (i, j): blends the
      samples taken on the four sides into grid point (i, j), the point that
      belongs in slot start + i. */
  method BlendAt(sides: Sides, nx: int, ny: int, tanh: real -> real,
                 botPts: array<Point>, topPts: array<Point>,
                 leftPts: array<Point>, rightPts: array<Point>, i: int, j: int,
                 ghost start: int, ghost wantX: seq<real>, ghost wantY: seq<real>) returns (p: Point)
    requires nx > 0 && ny > 0 && tanh(3.0) != 0.0 && 0 <= i <= nx && 0 <= j <= ny
    requires Sampled(sides, nx, ny, tanh, botPts, topPts, leftPts, rightPts)
    requires RowTargets(sides, nx, ny, tanh, wantX, wantY, j, start)
    ensures p.x == wantX[start + i] && p.y == wantY[start + i]
  {
    var xi, eta := Xi(i, nx), Eta(j, ny, tanh);
    p := BlendPoint(xi, eta, leftPts[j], rightPts[j], botPts[i], topPts[i],
                    botPts[0], rightPts[0], leftPts[0], topPts[0]);
    assert p == GridPoint(sides, nx, ny, tanh, i, j);
  }

  /** Domain(bottom, right, top, left) with its fatal exit made an error:
      a Domain exists exactly when check_consistency holds, and it then has
      the sides in the order bottom, right, top, left and no grid. */
  method NewDomain(bottom: Curve, right: Curve, top: Curve, left: Curve) returns (r: Result<Domain>)
    ensures r.Err? <==> !CheckConsistency([bottom, right, top, left])
    ensures r.Err? ==> r.error == InconsistentBoundary
    ensures r.Ok? ==> (fresh(r.value) && r.value.Valid() &&
      r.value.sides == [bottom, right, top, left] && r.value.State() == Ungenerated)
  {
    if !CheckConsistency([bottom, right, top, left]) {
      return Err(InconsistentBoundary);
    }
    var d := new Domain(bottom, right, top, left);
    return Ok(d);
  }
}
