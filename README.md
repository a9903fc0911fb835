# Transfinite grid generation over a four-sided domain

A Dafny model of the `Domain` class of `Domain.cpp`. The class holds four
boundary curves in the roles bottom, right, top and left. It checks at
construction that their corners meet within 1e-5. It then generates a
structured (nx + 1) by (ny + 1) grid by transfinite interpolation (TFI),
clustered in the vertical direction by a hyperbolic-tangent transform that
packs the rows closest together along the bottom curve. The
grid's coordinates live in two row-major buffers, `x_` and `y_`. The class
also exports those points.

Modules:

- `Geometry` (geometry.dfy): points, and curves as pairs of coordinate functions of the parameter t.
- `Indexing` (indexing.dfy): the row-major slot `j * (nx + 1) + i` of grid point (i, j).
  - It also gives the buffer size (nx + 1)(ny + 1) and the row-by-row layout of a buffer.
- `Tfi` (tfi.dfy): the pure numerics of generate_grid.
  - It covers the corner check, the uniform parameter xi and the clustered parameter eta.
  - It covers the blend of one point, written exactly as in the source.
  - `GridX`/`GridY` are the buffer contents a generated grid must have.
- `TfiProperties` (tfi_properties.dfy): what the parameters and the blend guarantee.
  - `TextbookTfi` is the textbook formula, used as an independent reference.
- `GridDomain` (domain.dfy): the class itself, as a Dafny `class`.
  - It has the fields `nx`, `ny`, `xs`, `ys` (nullable arrays) and `sides`.
  - Its constructors, assignment, grid generation and export are methods.
  - Its loops are proved against `GridX`/`GridY`.
- `Scenarios` (scenarios.dfy): concrete domains that exhibit the two findings below.

`double` is modelled as `real`, so every arithmetic statement is exact. The
hyperbolic tangent is a parameter `tanh: real -> real`. `GenerateGrid` only
needs `tanh(3) != 0`. Lemmas that need more of tanh say so
(`TanhFacts`: tanh(0) = 0, tanh(-3) = -tanh(3) and tanh(3) != 0; `StrictlyIncreasing`).

## Model

| member | source | states |
|---|---|---|
| Tfi.CheckConsistencyIff | Domain.cpp:92-112 | The check holds exactly when all four corners match strictly within 1e-5, each in x and y: bottom(1)~right(0), right(1)~top(1), top(0)~left(1), left(0)~bottom(0). |
| Tfi.CheckConsistency | Domain.cpp:92-112 | check_consistency itself: the eight tolerance tests, with the source's pairings and order of subtraction. |
| Tfi.NearIsAbsBelowSmall | Domain.cpp:3 | One corner test is abs(d) < 1e-5, whichever way the difference is taken. |
| Tfi.MeetingCornersAreConsistent | Domain.cpp:92-112 | Curves whose corners meet exactly always pass the check. |
| GridDomain.Domain.Valid | Domain.cpp:129-133 | The shape of the fields: both buffers present or both absent; absent means nx = ny = 0 (lines 20-21, 40-41, 77-78); present means nx, ny > 0 and two distinct buffers of (nx+1)(ny+1) slots. |
| GridDomain.Domain.constructor | Domain.cpp:5-22 | Only callable when the check passes. Stores the sides in the order bottom, right, top, left, with nx = ny = 0 and no buffers (no grid). |
| GridDomain.NewDomain | Domain.cpp:5-22 | A Domain results exactly when the check passes; otherwise the error InconsistentBoundary (the process exit). The new Domain has the sides in order and no grid. |
| GridDomain.Domain.Copy | Domain.cpp:25-43 | The copy shares the sides. It has the other's sizes and grid, held in fresh buffers, or no grid and sizes 0 when the other has none. |
| GridDomain.CopyBuffer | Domain.cpp:34-37 | A fresh array with exactly the contents of its source (new double[] plus memcpy). |
| GridDomain.Domain.Assign | Domain.cpp:54-89 | Self-assignment changes nothing. Otherwise the sides are copied. When the sizes differ, the grid becomes a fresh copy of the other's, or is reset to none. When the sizes agree, the old buffers and their contents stay. |
| GridDomain.Domain.AssignCopy | Domain.cpp:54-89 | Assignment as intended: afterwards the sides, sizes and grid are the other's in every case. |
| GridDomain.Domain.GenerateGrid | Domain.cpp:116-201 | Fails with InvalidGridSize exactly when nX <= 0 or nY <= 0, and then changes nothing. Otherwise sets nx = nX, ny = nY and installs fresh buffers whose contents are GridX/GridY: slot j(nx+1)+i holds grid point (i, j). The sides are kept. |
| GridDomain.BuildGrid | Domain.cpp:129-199 | Allocates two distinct buffers of (nx+1)(ny+1) slots and fills them with exactly GridX and GridY. |
| GridDomain.SampleBottomTop | Domain.cpp:143-153 | botPts[i] and topPts[i] are the bottom and top curves at xi_i = i/nx, for i = 0..nx. |
| GridDomain.SampleLeftRight | Domain.cpp:145-160 | leftPts[j] and rightPts[j] are the left and right curves at the clustered eta_j, for j = 0..ny. |
| GridDomain.Interpolate | Domain.cpp:168-193 | Once the loops over j and i finish, every slot of both buffers holds its grid point's coordinate. |
| GridDomain.InterpolateRow | Domain.cpp:169-192 | The inner loop extends the filled prefix of both buffers by one whole row. |
| GridDomain.BlendAt | Domain.cpp:170-191 | The blend of the samples for (i, j), with the source's corner terms, is grid point (i, j). |
| GridDomain.Domain.PrintGrid | Domain.cpp:205-221 | Fails with NoGrid exactly when no grid exists. Otherwise yields (nx+1)(ny+1) points; the k-th is (x_[k], y_[k]), in the j-outer, i-inner order of the export. |
| Tfi.Xi | Domain.cpp:170 | xi = hx * i with hx = 1/nx (also line 150). |
| Tfi.Eta | Domain.cpp:157 | eta = 1 + tanh(3 (hy * j - 1)) / tanh(3) with hy = 1/ny (also line 171). |
| Tfi.Blend | Domain.cpp:164-181 | One coordinate of the blend: phi0/phi1 weighted edge terms minus four phi0/phi1 weighted corner terms. |
| Tfi.BlendPoint | Domain.cpp:173-191 | Both coordinates, with the x corner terms taken from botPts[0].x and rightPts[0].x and the y corner terms from leftPts[0].y and topPts[0].y. |
| Tfi.GridPoint | Domain.cpp:143-191 | Grid point (i, j): the blend at (xi_i, eta_j) of the samples botPts[i], topPts[i], leftPts[j], rightPts[j] and the first samples. |
| Tfi.GridX | Domain.cpp:173-181 | (nx+1)(ny+1) entries; slot j(nx+1)+i is in range and holds the x of grid point (i, j). |
| Tfi.GridY | Domain.cpp:183-191 | (nx+1)(ny+1) entries; slot j(nx+1)+i is in range and holds the y of grid point (i, j). |
| Indexing.IndexFormula | Domain.cpp:173 | The row-by-row slot of (i, j) is j * (nx + 1) + i. |
| Indexing.SizeFormula | Domain.cpp:132-133 | The rows of the grid take (nx + 1) * (ny + 1) slots, the size of each allocated buffer. |
| Indexing.IndexInBounds | Domain.cpp:173 | For 0 <= i <= nx and 0 <= j <= ny, the slot j(nx+1)+i lies inside a buffer of (nx+1)(ny+1) slots. |
| Indexing.IndexInjective | Domain.cpp:183 | Two grid points never share a slot. |
| Indexing.RowStartMonotone | Domain.cpp:168-169 | Later rows start later, by at least one row width per row. |
| Indexing.RowStartBounded | Domain.cpp:168 | Every row start up to ny + 1 lies within the buffer. |
| Indexing.IndexInRows | Domain.cpp:168-169 | Every point of the first `rows` rows has a slot below the start of row `rows`. |
| Indexing.Layout | Domain.cpp:168-169 | A row-major sequence of (nx+1) * rows entries, with f(i, j) in slot j(nx+1)+i. |
| Indexing.RowMajorOrderVisitsEachSlotOnce | Domain.cpp:216-218 | The nested j/i loops visit slots 0, 1, 2, ... in order, so each slot of the buffer exactly once. |
| TfiProperties.XiEndpoints | Domain.cpp:150 | xi is 0 in the first column and 1 in the last. |
| TfiProperties.EtaEndpoints | Domain.cpp:157 | eta = 1 + tanh(3(j/ny - 1))/tanh(3) is 0 on the first row and 1 on the last. |
| TfiProperties.EtaIncreasing | Domain.cpp:157 | With an increasing tanh, eta strictly increases with the row index. |
| TfiProperties.EtaStepsGrow | Domain.cpp:157 | For a tanh that is strictly convex on [-3, 0], the row spacing eta(j+1) - eta(j) grows strictly with j. The rows therefore crowd together at eta = 0, along the bottom curve, and spread out towards the top curve. |
| TfiProperties.EtaInUnitInterval | Domain.cpp:157 | Every row's eta lies in [0, 1], so the left and right curves are sampled inside their parameter range. |
| TfiProperties.XCornerPattern | Domain.cpp:178-181 | The x corner terms (botPts[0].x, rightPts[0].x, botPts[0].x, rightPts[0].x) make the correction (1-xi) b0 + xi r0, with no dependence on eta. It equals the bilinear correction of corners (b0, r0, c01, c11) at every (xi, eta) exactly when c01 = b0 and c11 = r0. |
| TfiProperties.YCornerPattern | Domain.cpp:188-191 | The y corner terms (leftPts[0].y, leftPts[0].y, topPts[0].y, topPts[0].y) make the correction (1-eta) l0 + eta t0, with no dependence on xi. It equals the bilinear correction of corners (l0, c10, t0, c11) at every (xi, eta) exactly when c10 = l0 and c11 = t0. |
| TfiProperties.TextbookTfiReproducesBoundary | Domain.cpp:167-191 | Textbook TFI, with the curves' own corners, reproduces all four curves whenever the corners meet. |
| TfiProperties.GridCornerValues | Domain.cpp:168-191 | For any four curves, including corners that only agree within the tolerance, the grid corners are (0,0) = (l(0).x, b(0).y), (nx,0) = (b(1).x, r(0).y + b(1).y - l(0).y), (0,ny) = (l(1).x + t(0).x - b(0).x, l(1).y) and (nx,ny) = (r(1).x + t(1).x - r(0).x, r(1).y + t(1).y - t(0).y). |
| TfiProperties.GridCorners | Domain.cpp:173-191 | For meeting corners, the grid's lower-left point is the curves' corner. The other three corners are displaced by the differences the source's corner terms leave. |
| TfiProperties.GridCornersExactIffRectangular | Domain.cpp:173-191 | For meeting corners, the four grid corners are the curves' corners exactly when those corners form an axis-aligned rectangle. |
| TfiProperties.GridIsTextbookTfiOnRectangles | Domain.cpp:164-191 | On such a rectangle of corners, grid point (i, j) is textbook TFI at (xi_i, eta_j). |
| TfiProperties.GridReproducesRectangleBoundary | Domain.cpp:164-191 | On such a rectangle, the first and last columns and rows of the grid are the samples of the four curves. |
| Scenarios.FirstSlotIsLowerLeftCorner | Domain.cpp:173-191 | Slot 0 of both buffers holds the lower-left corner bottom(0). |
| Scenarios.GridOver | Domain.cpp:116-133 | Constructing a Domain over meeting corners and generating a 1 by 1 grid puts bottom(0).x in slot 0 of x_. |
| Scenarios.StaleAssignment | Domain.cpp:63-85 | Assigning between two 1 by 1 domains (the unit square and its shift) leaves equal sides but different grids. |
| Scenarios.FreshAssignment | Domain.cpp:54-89 | With the corrected assignment, the same two domains end with equal sides and equal grids. |
| Scenarios.SlantedCornerMisplaced | Domain.cpp:183-191 | For the quadrilateral (0,0), (1,1), (1,2), (0,1), which passes the check, the grid puts the lower-right corner at (1, 2) instead of (1, 1). |
| Scenarios.SlantedCornerTextbook | Domain.cpp:167-191 | Textbook TFI puts that corner at (1, 1). |

## Left out

- File output: print_grid writes `grid.csv` through an `ofstream`. `PrintGrid` returns the sequence of points instead, so the text formatting of doubles is not modelled.
- Error messages on `cerr`, and `exit(EXIT_FAILURE)`. These become the error values of `DomainError`.
  - `NewDomain` returns one; the constructor instead requires the check to pass.
  - `GenerateGrid` returns `Fail(InvalidGridSize)`; `PrintGrid` returns `Err(NoGrid)`.
- Memory management: the destructor (Domain.cpp:46-52), the `delete[]` of old buffers in generate_grid and operator=, and the freeing of the sample arrays. Dafny arrays are garbage collected; new buffers are `fresh` instead.
- Floating point: `double` is `real`, so rounding and the exact bits of the coordinates are not modelled.
  - In double, `1.0 / 49 * 49` is 0.9999999999999999, so with the 49 columns of Project_3.cpp the last column samples the bottom and top curves just short of t = 1.
  - `TfiProperties.XiEndpoints` and the corner lemmas therefore hold in real arithmetic only.
- The hyperbolic tangent from the C library is a parameter. Its values, and their `double` rounding, are not modelled.
  - `GenerateGrid` requires `tanh(3) != 0`, which the library's tanh satisfies.
- The curve classes (Curvebase, Curve, HLine, VLine) are not part of this model. A curve is a pair of coordinate functions of t; how those classes parameterise their curves is not modelled.
- `sides` holds the curves as values, while the source stores pointers to caller-owned curves. Aliasing of a curve between domains, and a curve changing after construction, are not captured.
- `GridDomain.Domain.Valid`, the class invariant, does not include the corner check.
  - The constructor states the check; every method either keeps `sides` or copies another Domain's.
  - The check is therefore not restated after each method.
- TfiProperties.EtaIncreasing: states only that eta increases. Where the rows cluster is stated by `TfiProperties.EtaStepsGrow`, under the assumption that tanh is strictly convex on [-3, 0] (`EqualStepsRiseBelowZero`). tanh has that property, but it is not derived here, because tanh is a parameter.
- Project_3.cpp (the program that builds one domain, generates a 49 by 19 grid and exports it) is not part of this model.
- The header Domain.h only declares what Domain.cpp defines. Its `Point` struct (Domain.h:9-11) is not used by Domain.cpp; `Geometry.Point` models the `Points{x, y}` values that generate_grid samples into (Domain.cpp:143-160), whose header is not part of this model.
- GridDomain.Domain.GenerateGrid: integers are unbounded. The 32-bit `int` products `(nx + 1) * (ny + 1)` (Domain.cpp:132-133) and `j * (nx + 1) + i` (lines 173, 183, 218) overflow, which is undefined behaviour, once (nx + 1)(ny + 1) exceeds 2^31 - 1 (already at nX = nY = 46340). `nx + 1` itself overflows at nX = INT_MAX. Allocation failure (`std::bad_alloc` from `new double[]`) is not modelled either. For every positive size the model promises a grid.
- GridDomain.Domain.PrintGrid: the same index overflow in the export loop is not modelled.

## Findings

Domain.cpp:167 calls the loop "Transfinite grid interpolation". The
defining property of TFI is that it reproduces the four boundary curves.
For exactly meeting corners the code reproduces its corners only when they
form an axis-aligned rectangle (`TfiProperties.GridCornersExactIffRectangular`).
`TfiProperties.GridCornerValues` gives the corner points for any curves the
check admits. Project_3.cpp builds a domain from a `Curve` bottom, `VLine`
sides and an `HLine` top. Their code is not part of this model. If those
classes give horizontal end chords for bottom and top and vertical sides,
as their names suggest, that domain is such a rectangle up to the 1e-5
tolerance. `GenerateGrid` keeps the code's blend, so that the model
computes what the code computes.

| source | as written | input that shows it | evidently intended | confidence | as-written member | corrected member |
|---|---|---|---|---|---|---|
| Domain.cpp:63-85 | operator= copies the other's grid only when the sizes differ; with equal sizes the old contents stay | a = unit-square domain, b = domain shifted by 1 in x, both with a 1 by 1 grid; after a = b, x_[0] is 0 in a and 1 in b | after assignment the grids are equal (copy the contents whenever the other has a grid) | high; not executed | Scenarios.StaleAssignment | GridDomain.Domain.AssignCopy |
| Domain.cpp:178-191 | the corner terms use botPts[0].x and rightPts[0].x for x, and leftPts[0].y and topPts[0].y for y | corners (0,0), (1,1), (1,2), (0,1), which pass check_consistency; grid point (nx, 0) is (1, 2), not the corner (1, 1) | corner terms from the curves' own four corners, reproducing every boundary curve | low; not executed | Scenarios.SlantedCornerMisplaced | TfiProperties.TextbookTfiReproducesBoundary |
