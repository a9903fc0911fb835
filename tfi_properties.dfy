/** What the clustering transform and the blend of generate_grid guarantee.
    The hyperbolic tangent is not defined here; each lemma names the facts
    about it that its proof uses. */
module TfiProperties {
  import opened Geometry
  import opened Indexing
  import opened Tfi

  /** The facts about tanh that fix the end points of the clustering:
      tanh(0) = 0, tanh is odd at 3, and tanh(3) is not zero. */
  predicate TanhFacts(tanh: real -> real) {
    tanh(0.0) == 0.0 && tanh(-3.0) == -tanh(3.0) && tanh(3.0) != 0.0
  }

  ghost predicate StrictlyIncreasing(f: real -> real) {
    forall a, b :: a < b ==> f(a) < f(b)
  }

  /** The uniform parameter runs from 0 at i = 0 to 1 at i = nx. */
  lemma XiEndpoints(nx: int)
    requires nx > 0
    ensures Xi(0, nx) == 0.0 && Xi(nx, nx) == 1.0
  {
  }

  /** The clustered parameter is 0 on the first row and 1 on the last. */
  lemma EtaEndpoints(ny: int, tanh: real -> real)
    requires ny > 0 && TanhFacts(tanh)
    ensures Eta(0, ny, tanh) == 0.0 && Eta(ny, ny, tanh) == 1.0
  {
    assert 3.0 * ((1.0 / ny as real) * 0 as real - 1.0) == -3.0;
    assert 3.0 * ((1.0 / ny as real) * ny as real - 1.0) == 0.0;
  }

  /** With an increasing tanh, eta strictly increases with the row index. */
  lemma EtaIncreasing(ny: int, tanh: real -> real, j: int, k: int)
    requires ny > 0 && TanhFacts(tanh) && StrictlyIncreasing(tanh)
    requires j < k
    ensures Eta(j, ny, tanh) < Eta(k, ny, tanh)
  {
    var hy := 1.0 / ny as real;
    assert hy > 0.0;
    assert hy * j as real < hy * k as real;
    var a, b := 3.0 * (hy * j as real - 1.0), 3.0 * (hy * k as real - 1.0);
    assert a < b;
    assert tanh(a) < tanh(b);
    assert tanh(3.0) > tanh(0.0) == 0.0;
    DivPreservesOrder(tanh(a), tanh(b), tanh(3.0));
  }

  lemma DivPreservesOrder(p: real, q: real, c: real)
    requires p < q && c > 0.0
    ensures p / c < q / c
  {
    var d := q / c - p / c;
    assert d * c == q - p;
  }

  /** f is strictly convex on [-3, 0], stated for equally spaced arguments:
      over two equal steps, the second rise exceeds the first. tanh has this
      property there, since its slope grows towards 0. */
  ghost predicate EqualStepsRiseBelowZero(f: real -> real) {
    forall a, b, c :: -3.0 <= a < b < c <= 0.0 && b - a == c - b ==> f(b) - f(a) < f(c) - f(b)
  }

  /** The gap between consecutive rows grows with j: the rows crowd
      together at eta = 0, along the bottom curve, and spread out towards
      the top curve. */
  lemma EtaStepsGrow(ny: int, tanh: real -> real, j: int)
    requires ny > 0 && tanh(3.0) > 0.0 && EqualStepsRiseBelowZero(tanh)
    requires 0 <= j && j + 2 <= ny
    ensures Eta(j + 1, ny, tanh) - Eta(j, ny, tanh) < Eta(j + 2, ny, tanh) - Eta(j + 1, ny, tanh)
  {
    var a, b, c := EtaArgument(j, ny), EtaArgument(j + 1, ny), EtaArgument(j + 2, ny);
    TanhRisesGrow(ny, tanh, j);
    DivPreservesOrder(tanh(b) - tanh(a), tanh(c) - tanh(b), tanh(3.0));
    EtaGap(ny, tanh, j, j + 1);
    EtaGap(ny, tanh, j + 1, j + 2);
  }

  /** tanh rises more over the later of two consecutive row steps. */
  lemma TanhRisesGrow(ny: int, tanh: real -> real, j: int)
    requires ny > 0 && EqualStepsRiseBelowZero(tanh)
    requires 0 <= j && j + 2 <= ny
    ensures var a, b, c := EtaArgument(j, ny), EtaArgument(j + 1, ny), EtaArgument(j + 2, ny);
      tanh(b) - tanh(a) < tanh(c) - tanh(b)
  {
    EtaArgumentsEquallySpaced(j, ny);
  }

  /** The gap between two rows' eta is the gap between their tanh values,
      scaled by 1 / tanh(3). */
  lemma EtaGap(ny: int, tanh: real -> real, j: int, k: int)
    requires ny > 0 && tanh(3.0) != 0.0
    ensures Eta(k, ny, tanh) - Eta(j, ny, tanh)
         == (tanh(EtaArgument(k, ny)) - tanh(EtaArgument(j, ny))) / tanh(3.0)
  {
    QuotientGap(tanh(EtaArgument(j, ny)), tanh(EtaArgument(k, ny)), tanh(3.0));
  }

  /** The argument 3 (hy * j - 1) of tanh in eta. */
  function EtaArgument(j: int, ny: int): real
    requires ny > 0
  {
    3.0 * ((1.0 / ny as real) * j as real - 1.0)
  }

  /** The arguments of three consecutive rows are equally spaced in [-3, 0]. */
  lemma EtaArgumentsEquallySpaced(j: int, ny: int)
    requires ny > 0 && 0 <= j && j + 2 <= ny
    ensures var a, b, c := EtaArgument(j, ny), EtaArgument(j + 1, ny), EtaArgument(j + 2, ny);
      -3.0 <= a < b < c <= 0.0 && b - a == c - b
  {
    var hy := 1.0 / ny as real;
    assert hy > 0.0;
    assert hy * (j + 2) as real <= hy * ny as real == 1.0;
  }

  lemma QuotientGap(x: real, y: real, c: real)
    requires c != 0.0
    ensures (1.0 + y / c) - (1.0 + x / c) == (y - x) / c
  {
  }

  /** Every row's eta lies in [0, 1]: the left and right curves are sampled
      only inside their parameter range. */
  lemma EtaInUnitInterval(ny: int, tanh: real -> real, j: int)
    requires ny > 0 && TanhFacts(tanh) && StrictlyIncreasing(tanh)
    requires 0 <= j <= ny
    ensures 0.0 <= Eta(j, ny, tanh) <= 1.0
  {
    EtaEndpoints(ny, tanh);
    if 0 < j { EtaIncreasing(ny, tanh, 0, j); }
    if j < ny { EtaIncreasing(ny, tanh, j, ny); }
  }

  /** Textbook transfinite interpolation of the four curves at (xi, eta):
      edge terms minus the bilinear blend of the curves' own four corners
      bottom(0), bottom(1), top(0), top(1). */
  function TextbookTfi(sides: Sides, xi: real, eta: real): Point {
    var b, r, t, l := sides[Bottom], sides[Right], sides[Top], sides[Left];
    Point(
      (1.0 - xi) * l.x(eta) + xi * r.x(eta) + (1.0 - eta) * b.x(xi) + eta * t.x(xi)
      - ((1.0 - xi) * (1.0 - eta) * b.x(0.0) + xi * (1.0 - eta) * b.x(1.0)
         + (1.0 - xi) * eta * t.x(0.0) + xi * eta * t.x(1.0)),
      (1.0 - xi) * l.y(eta) + xi * r.y(eta) + (1.0 - eta) * b.y(xi) + eta * t.y(xi)
      - ((1.0 - xi) * (1.0 - eta) * b.y(0.0) + xi * (1.0 - eta) * b.y(1.0)
         + (1.0 - xi) * eta * t.y(0.0) + xi * eta * t.y(1.0)))
  }

  /** Textbook TFI interpolates all four curves once their corners meet. */
  lemma TextbookTfiReproducesBoundary(sides: Sides, s: real)
    requires CornersMeet(sides)
    ensures TextbookTfi(sides, 0.0, s) == sides[Left].At(s)
    ensures TextbookTfi(sides, 1.0, s) == sides[Right].At(s)
    ensures TextbookTfi(sides, s, 0.0) == sides[Bottom].At(s)
    ensures TextbookTfi(sides, s, 1.0) == sides[Top].At(s)
  {
    var b, r, t, l := sides[Bottom], sides[Right], sides[Top], sides[Left];
    assert b.At(0.0) == l.At(0.0) && b.At(1.0) == r.At(0.0) && t.At(0.0) == l.At(1.0) && t.At(1.0) == r.At(1.0);
    assert TextbookTfi(sides, 0.0, s).x == l.x(s) && TextbookTfi(sides, 0.0, s).y == l.y(s);
    assert TextbookTfi(sides, 1.0, s).x == r.x(s) && TextbookTfi(sides, 1.0, s).y == r.y(s);
    assert TextbookTfi(sides, s, 0.0).x == b.x(s) && TextbookTfi(sides, s, 0.0).y == b.y(s);
    assert TextbookTfi(sides, s, 1.0).x == t.x(s) && TextbookTfi(sides, s, 1.0).y == t.y(s);
  }

  /** The four corners of the domain form an axis-aligned rectangle:
      left and right end-chords are vertical, bottom and top ones horizontal. */
  predicate Rectangular(sides: Sides) {
    var b, t := sides[Bottom], sides[Top];
    b.x(0.0) == t.x(0.0) && b.x(1.0) == t.x(1.0) &&
    b.y(0.0) == b.y(1.0) && t.y(0.0) == t.y(1.0)
  }

  /** The four corner points of the generated grid for any four curves,
      including corners that only agree within the tolerance: each is an
      edge sample plus the gaps that the corner terms leave uncancelled. */
  lemma GridCornerValues(sides: Sides, nx: int, ny: int, tanh: real -> real)
    requires nx > 0 && ny > 0 && TanhFacts(tanh)
    ensures var b, r, t, l := sides[Bottom], sides[Right], sides[Top], sides[Left];
      && GridPoint(sides, nx, ny, tanh, 0, 0) == Point(l.x(0.0), b.y(0.0))
      && GridPoint(sides, nx, ny, tanh, nx, 0) == Point(b.x(1.0), r.y(0.0) + b.y(1.0) - l.y(0.0))
      && GridPoint(sides, nx, ny, tanh, 0, ny) == Point(l.x(1.0) + t.x(0.0) - b.x(0.0), l.y(1.0))
      && GridPoint(sides, nx, ny, tanh, nx, ny) == Point(r.x(1.0) + t.x(1.0) - r.x(0.0), r.y(1.0) + t.y(1.0) - t.y(0.0))
  {
    XiEndpoints(nx);
    EtaEndpoints(ny, tanh);
  }

  /** The four corner points of the generated grid, for exactly meeting curves:
      only the lower-left one is the curves' corner in general; the others are
      shifted by the gaps the asymmetric corner terms leave. */
  lemma GridCorners(sides: Sides, nx: int, ny: int, tanh: real -> real)
    requires nx > 0 && ny > 0 && TanhFacts(tanh) && CornersMeet(sides)
    ensures var b, t := sides[Bottom], sides[Top];
      && GridPoint(sides, nx, ny, tanh, 0, 0) == b.At(0.0)
      && GridPoint(sides, nx, ny, tanh, nx, 0) == Point(b.x(1.0), 2.0 * b.y(1.0) - b.y(0.0))
      && GridPoint(sides, nx, ny, tanh, 0, ny) == Point(2.0 * t.x(0.0) - b.x(0.0), t.y(0.0))
      && GridPoint(sides, nx, ny, tanh, nx, ny) == Point(2.0 * t.x(1.0) - b.x(1.0), 2.0 * t.y(1.0) - t.y(0.0))
  {
    GridCornerValues(sides, nx, ny, tanh);
  }

  /** The grid's corners are the curves' corners exactly when those corners
      form an axis-aligned rectangle. */
  lemma GridCornersExactIffRectangular(sides: Sides, nx: int, ny: int, tanh: real -> real)
    requires nx > 0 && ny > 0 && TanhFacts(tanh) && CornersMeet(sides)
    ensures (var b, t := sides[Bottom], sides[Top];
      && GridPoint(sides, nx, ny, tanh, 0, 0) == b.At(0.0)
      && GridPoint(sides, nx, ny, tanh, nx, 0) == b.At(1.0)
      && GridPoint(sides, nx, ny, tanh, 0, ny) == t.At(0.0)
      && GridPoint(sides, nx, ny, tanh, nx, ny) == t.At(1.0))
      <==> Rectangular(sides)
  {
    GridCorners(sides, nx, ny, tanh);
  }

  /** On an axis-aligned rectangle of corners, the source's blend is textbook
      TFI evaluated at (xi_i, eta_j). */
  lemma GridIsTextbookTfiOnRectangles(sides: Sides, nx: int, ny: int, tanh: real -> real, i: int, j: int)
    requires nx > 0 && ny > 0 && TanhFacts(tanh)
    requires CornersMeet(sides) && Rectangular(sides)
    ensures GridPoint(sides, nx, ny, tanh, i, j) == TextbookTfi(sides, Xi(i, nx), Eta(j, ny, tanh))
  {
    XiEndpoints(nx);
    EtaEndpoints(ny, tanh);
    var b, r, t, l := sides[Bottom], sides[Right], sides[Top], sides[Left];
    var xi, eta := Xi(i, nx), Eta(j, ny, tanh);
    var p := GridPoint(sides, nx, ny, tanh, i, j);
    assert p.x == Blend(xi, eta, l.x(eta), r.x(eta), b.x(xi), t.x(xi), b.x(0.0), b.x(1.0), t.x(0.0), t.x(1.0));
    assert p.y == Blend(xi, eta, l.y(eta), r.y(eta), b.y(xi), t.y(xi), b.y(0.0), b.y(1.0), t.y(0.0), t.y(1.0));
    BlendIsTextbook(xi, eta, l.x(eta), r.x(eta), b.x(xi), t.x(xi), b.x(0.0), b.x(1.0), t.x(0.0), t.x(1.0));
    BlendIsTextbook(xi, eta, l.y(eta), r.y(eta), b.y(xi), t.y(xi), b.y(0.0), b.y(1.0), t.y(0.0), t.y(1.0));
  }

  /** The bilinear interpolant of four corner values at (xi, eta): the
      correction that TFI subtracts from its edge terms. */
  function CornerCorrection(xi: real, eta: real, c00: real, c10: real, c01: real, c11: real): real {
    (1.0 - xi) * (1.0 - eta) * c00 + xi * (1.0 - eta) * c10
    + (1.0 - xi) * eta * c01 + xi * eta * c11
  }

  /** The phi0/phi1 form of the blend: edge terms minus the bilinear correction. */
  lemma BlendIsTextbook(xi: real, eta: real, l: real, r: real, b: real, t: real,
                        c00: real, c10: real, c01: real, c11: real)
    ensures Blend(xi, eta, l, r, b, t, c00, c10, c01, c11) ==
      (1.0 - xi) * l + xi * r + (1.0 - eta) * b + eta * t
      - CornerCorrection(xi, eta, c00, c10, c01, c11)
  {
  }

  /** The x corner terms repeat (b0, r0) for the top corners: the correction
      loses its dependence on eta, and it is the bilinear correction of the
      corners (b0, r0, c01, c11) for every (xi, eta) exactly when the top
      corners are c01 = b0 and c11 = r0. */
  lemma XCornerPattern(b0: real, r0: real, c01: real, c11: real)
    ensures forall xi, eta :: CornerCorrection(xi, eta, b0, r0, b0, r0) == (1.0 - xi) * b0 + xi * r0
    ensures (forall xi, eta :: CornerCorrection(xi, eta, b0, r0, b0, r0) == CornerCorrection(xi, eta, b0, r0, c01, c11))
            <==> c01 == b0 && c11 == r0
  {
    if forall xi, eta :: CornerCorrection(xi, eta, b0, r0, b0, r0) == CornerCorrection(xi, eta, b0, r0, c01, c11) {
      assert CornerCorrection(0.0, 1.0, b0, r0, b0, r0) == CornerCorrection(0.0, 1.0, b0, r0, c01, c11);
      assert CornerCorrection(1.0, 1.0, b0, r0, b0, r0) == CornerCorrection(1.0, 1.0, b0, r0, c01, c11);
    }
  }

  /** The y corner terms repeat l0 and t0 along each edge: the correction
      loses its dependence on xi, and it is the bilinear correction of the
      corners (l0, c10, t0, c11) for every (xi, eta) exactly when the right
      corners are c10 = l0 and c11 = t0. */
  lemma YCornerPattern(l0: real, t0: real, c10: real, c11: real)
    ensures forall xi, eta :: CornerCorrection(xi, eta, l0, l0, t0, t0) == (1.0 - eta) * l0 + eta * t0
    ensures (forall xi, eta :: CornerCorrection(xi, eta, l0, l0, t0, t0) == CornerCorrection(xi, eta, l0, c10, t0, c11))
            <==> c10 == l0 && c11 == t0
  {
    if forall xi, eta :: CornerCorrection(xi, eta, l0, l0, t0, t0) == CornerCorrection(xi, eta, l0, c10, t0, c11) {
      assert CornerCorrection(1.0, 0.0, l0, l0, t0, t0) == CornerCorrection(1.0, 0.0, l0, c10, t0, c11);
      assert CornerCorrection(1.0, 1.0, l0, l0, t0, t0) == CornerCorrection(1.0, 1.0, l0, c10, t0, c11);
    }
  }

  /** On an axis-aligned rectangle of corners, the grid's first and last
      columns and rows are the samples of the four curves. */
  lemma GridReproducesRectangleBoundary(sides: Sides, nx: int, ny: int, tanh: real -> real, i: int, j: int)
    requires nx > 0 && ny > 0 && TanhFacts(tanh)
    requires CornersMeet(sides) && Rectangular(sides)
    ensures GridPoint(sides, nx, ny, tanh, 0, j) == LeftSample(sides, ny, tanh, j)
    ensures GridPoint(sides, nx, ny, tanh, nx, j) == RightSample(sides, ny, tanh, j)
    ensures GridPoint(sides, nx, ny, tanh, i, 0) == BottomSample(sides, nx, i)
    ensures GridPoint(sides, nx, ny, tanh, i, ny) == TopSample(sides, nx, i)
  {
    XiEndpoints(nx);
    EtaEndpoints(ny, tanh);
    GridIsTextbookTfiOnRectangles(sides, nx, ny, tanh, 0, j);
    GridIsTextbookTfiOnRectangles(sides, nx, ny, tanh, nx, j);
    GridIsTextbookTfiOnRectangles(sides, nx, ny, tanh, i, 0);
    GridIsTextbookTfiOnRectangles(sides, nx, ny, tanh, i, ny);
    TextbookTfiReproducesBoundary(sides, Xi(i, nx));
    TextbookTfiReproducesBoundary(sides, Eta(j, ny, tanh));
  }
}
