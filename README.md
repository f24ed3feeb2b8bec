# Moment-of-inertia analysis of suction-cup fixtures, in Dafny

This project models the computational core of a fixture-layout analysis tool:

- **The inertia engine** (`InertiaAnalysis`, module `Inertia`, file `inertia.dfy`). It computes:
  - the shoelace area of a vertex list, with the wrap-around of `np.roll`;
  - the origin-referenced second moments (Jx, Jy, Jxy) of a closed contour, as a boundary sum over consecutive vertex pairs;
  - the barycentric moments of one polygon descriptor: a parallel-axis shift followed by a rotation of the tensor;
  - the area-weighted centre of gravity of a list of descriptors;
  - the component-wise sums of their absolute moments;
  - the principal moments of the combined tensor about a given centre.
- **The fixture contours** (module `Fixtures`, file `fixtures.dfy`). These are the closed five-vertex outlines of the square (145 × 145) and rectangular (145 × 55) suction cups at a lower-left anchor. As `zip(*coords)` does, they come back as an x column and a y column. The type dispatcher refuses codes other than 1 and 2.
- **The helpers of the result display** (module `Displayer`, file `displayer.dfy`):
  - the selection-filtered centre of gravity, computed through the width and height tables;
  - the display's own copy of the fixture dispatcher;
  - the Manhattan distance, and the pairwise Manhattan total over the selected fixtures;
  - decimal truncation.
- **The computational part of `show_results`** (module `Results`, file `results.dfy`). It computes:
  - the centre of gravity;
  - one descriptor per selected fixture, with the hard-coded area, its absolute and barycentric moments and its index;
  - the principal moments of the combined descriptors;
  - the pairwise distance total.

  `ShowResults` returns these as an `Analysis` value instead of printing and plotting them.

The JSON record that `show_results` reads becomes a `Layout` value with six columns:
- selection flag;
- type code;
- anchor x and anchor y;
- centre x and centre y.

A Python exception becomes an `Err` value of `Result` (file `wrappers.dfy`):
- division by zero in the engine's centre of gravity is `ZeroDivision`, Python's `ZeroDivisionError` for plain-number areas (see "## Left out" for numpy areas);
- a missing table key (`KeyError`) is `MissingKey`;
- a zero selected area is `ZeroTotalArea`;
- an unknown fixture type is `InvalidCupType`. These last two are the display's `ValueError`s.

All quantities are exact `real`s, so the proofs cover the algebra and not floating-point rounding. Each polygon descriptor carries the cosine and sine of its angle, as a `Rotation`. The square root is a function argument. Lemmas that need it to be one require `IsSqrt(sqrt)`: every non-negative x gets a non-negative root whose square is x.

Each loop of the source becomes a `method` with loop invariants. The method is proved equal to a recursive specification function, and the properties are proved about that function. The engine's centre of gravity and the display's centre of gravity are two different loops over two different data. `Results.CenterOfGravityAgreesWithEngine` proves that they give the same point. The display's version works on the width/height tables. The engine's works on the descriptors the display builds.

The engine applies `abs()` to the Jxy boundary sum. As a result, the centroidal product of inertia of a cup is (abs(P) − P) / 4, with P = w·h·(2x + w)·(2y + h):
- it is zero when the cup's centre has coordinates of the same sign;
- it is −P/2 otherwise.

`Fixtures.CupCentroidalMoments` and `Results.CentredFixtureMoments` state this. The model keeps the source's `abs()`.

## Model

| member | source | states |
|---|---|---|
| Inertia.PolygonArea | src/inertia_analysis/moments_of_inerta.py:21-33 | the shoelace area, with the wrap-around from the last vertex to the first, is never negative |
| Inertia.AreaUnderReversal | src/inertia_analysis/moments_of_inerta.py:31-33 | reversing the vertex order (flipping the winding) leaves the area unchanged |
| Inertia.ReverseNegatesRollSum | src/inertia_analysis/moments_of_inerta.py:33 | reversing the vertex order negates the signed cross-product sum that the outer abs removes |
| Inertia.RollSumSplit | src/inertia_analysis/moments_of_inerta.py:33 | the rolled sum is the sum over the open chain of edges plus the closing edge from the last vertex to the first |
| Inertia.RollSumIsEdgeSum | src/inertia_analysis/moments_of_inerta.py:33 | before the wrap-around, the rolled sum equals the consecutive-pair sum the moment loop uses |
| Inertia.ClosedContourArea | src/inertia_analysis/moments_of_inerta.py:33 | on a contour whose last vertex repeats the first, the wrap-around term vanishes: the area is half the absolute open-chain sum |
| Inertia.ClosingVertexKeepsArea | src/inertia_analysis/moments_of_inerta.py:33 | a contour and the same contour closed by repeating its first vertex have the same area |
| Inertia.EdgeSumReverse | src/inertia_analysis/moments_of_inerta.py:52-60 | walking the edges backwards negates the sum of any antisymmetric edge term |
| Inertia.AbsoluteMomentsOf | src/inertia_analysis/moments_of_inerta.py:36-66 | the absolute moments Jx, Jy and Jxy are all non-negative |
| Inertia.ComputeAbsoluteMoments | src/inertia_analysis/moments_of_inerta.py:46-66 | the loop over the len − 1 consecutive pairs, without wrap-around, yields exactly the boundary sums made unsigned and divided by 12, 12 and 24 |
| Inertia.ParallelAxisShift | src/inertia_analysis/moments_of_inerta.py:86-88 | moving the axes to the barycenter lowers the trace by A·(xg² + yg²), and a barycenter at the origin changes nothing |
| Inertia.Rotate | src/inertia_analysis/moments_of_inerta.py:90-92 | turning the axes by angle 0 (cos 1, sin 0) leaves the tensor unchanged |
| Inertia.BaricentricMoments | src/inertia_analysis/moments_of_inerta.py:69-94 | at angle 0 the barycentric moments are the parallel-axis shift of the absolute moments; for any proper rotation they keep that shift's trace and determinant |
| Inertia.BaricentricAtZeroAngle | src/inertia_analysis/moments_of_inerta.py:86-92 | with angle 0 (cos 1, sin 0) the barycentric moments are exactly the parallel-axis shift (Jx − yg²A, Jy − xg²A, Jxy − yg·xg·A) |
| Inertia.RotationKeepsTrace | src/inertia_analysis/moments_of_inerta.py:90-92 | when cos² + sin² = 1 the rotation keeps i + j |
| Inertia.RotateInDoubleAngle | src/inertia_analysis/moments_of_inerta.py:90-92 | the rotated tensor written in the double angle: mean ± (half·cos 2t − Jxy·sin 2t) on the diagonal |
| Inertia.RotationKeepsDeterminant | src/inertia_analysis/moments_of_inerta.py:90-92 | when cos² + sin² = 1 the rotation keeps i·j − ij² and the discriminant (i − j)² + 4·ij² |
| Inertia.Discriminant | src/inertia_analysis/moments_of_inerta.py:174-175 | the quantity under the square root is never negative |
| Inertia.PrincipalMoments | src/inertia_analysis/moments_of_inerta.py:174-177 | i + j is the trace Jx + Jy, and i ≤ j when sqrt is a square root |
| Inertia.PrincipalProduct | src/inertia_analysis/moments_of_inerta.py:174-175 | when sqrt squares back, i·j = Jx·Jy − Jxy² |
| Inertia.PrincipalEqualIffIsotropic | src/inertia_analysis/moments_of_inerta.py:174-175 | when sqrt is a square root, i = j exactly when Jxy = 0 and Jx = Jy |
| Inertia.PrincipalRotationInvariant | src/inertia_analysis/moments_of_inerta.py:86-94 | rotating the tensor by any proper rotation leaves the principal moments unchanged |
| Inertia.OverallCenterOfGravity | src/inertia_analysis/moments_of_inerta.py:97-123 | fails with a division by zero exactly when the total area is 0; otherwise x·ΣA = ΣA·xg and y·ΣA = ΣA·yg |
| Inertia.ComputeOverallCenterOfGravity | src/inertia_analysis/moments_of_inerta.py:108-123 | the accumulating loop and the final divisions give exactly the area-weighted mean, or the division-by-zero error |
| Inertia.WeightedSumBounds | src/inertia_analysis/moments_of_inerta.py:112-118 | with non-negative areas, a sum of area × coordinate (x or y) lies between lo·ΣA and hi·ΣA when every barycenter coordinate does |
| Inertia.CenterOfGravityWithinBounds | src/inertia_analysis/moments_of_inerta.py:108-123 | with non-negative areas the centre of gravity lies in every box that holds all the barycenters |
| Inertia.CenterOfGravityOfCoincident | src/inertia_analysis/moments_of_inerta.py:108-123 | when all barycenters are one point c and the total area is not 0, the centre of gravity is c |
| Inertia.SumPermutation | src/inertia_analysis/moments_of_inerta.py:112-118 | a sum over the polygons does not depend on their order (equal multisets give equal sums) |
| Inertia.CenterOfGravityOrderIndependent | src/inertia_analysis/moments_of_inerta.py:108-123 | the centre of gravity, and whether it fails, do not depend on the order of the polygons |
| Inertia.SumAppend | src/inertia_analysis/moments_of_inerta.py:139-143 | a sum over two concatenated collections is the sum of their sums |
| Inertia.CombinedAbsoluteMoments | src/inertia_analysis/moments_of_inerta.py:126-145 | an empty collection gives (0, 0, 0) |
| Inertia.ComputeCombinedAbsoluteMoments | src/inertia_analysis/moments_of_inerta.py:137-145 | the loop yields the component-wise sums of the polygons' absolute moments |
| Inertia.CombinedAbsoluteMomentsAdditive | src/inertia_analysis/moments_of_inerta.py:137-145 | the combined moments of two collections joined together are the sums of their combined moments |
| Inertia.CombinedAbsoluteMomentsOrderIndependent | src/inertia_analysis/moments_of_inerta.py:137-145 | the combined moments do not depend on the order of the polygons |
| Inertia.ComputeCombinedBaricentricMoments | src/inertia_analysis/moments_of_inerta.py:148-177 | the result is the principal pair of the combined absolute moments shifted once to (x_G, y_G) with the total area. i + j is their trace. When sqrt is a square root, i ≤ j and i·j is their determinant |
| Fixtures.Unzip | src/utility/fixtures_utiility.py:24 | transposing a vertex list gives two columns as long as the list |
| Fixtures.Zip | src/utility/result_displayer.py:68 | pairing the columns back gives as many vertices as the shorter column |
| Fixtures.ZipUnzip | src/utility/fixtures_utiility.py:24 | pairing the transposed columns back gives the original vertex list |
| Fixtures.UnzipZip | src/utility/fixtures_utiility.py:24 | transposing paired columns of equal length gives the columns back |
| Fixtures.CupCorners | src/utility/fixtures_utiility.py:17-23 | a cup outline has five vertices and the fifth repeats the first |
| Fixtures.SquareSuctionCup | src/utility/fixtures_utiility.py:6-24 | the square cup gives an x column and a y column of 5 entries each, closed (fifth entry equals first) |
| Fixtures.RectangleSuctionCup | src/utility/fixtures_utiility.py:27-45 | the rectangular cup gives two closed columns of 5 entries each |
| Fixtures.CreateFixture | src/utility/fixtures_utiility.py:48-65 | succeeds exactly for type 1 or 2, with 5-entry columns; any other code is refused with the invalid-type error |
| Fixtures.CupCornersOfBox | src/utility/fixtures_utiility.py:17-23 | the vertices lie in the w × h box at the anchor and are exactly its four corners |
| Fixtures.CupShoelace | src/utility/fixtures_utiility.py:17-23 | the signed shoelace sum of a cup outline is −2wh (lower-left, upper-left, upper-right, lower-right is clockwise) and its area is abs(wh), which is wh for a cup of non-negative width and height |
| Fixtures.SquareCupArea | src/utility/fixtures_utiility.py:17-24 | for every anchor the square contour is the 145 × 145 box outline, runs clockwise and encloses 21025 |
| Fixtures.RectangleCupArea | src/utility/fixtures_utiility.py:38-45 | for every anchor the rectangular contour is the 145 × 55 box outline, runs clockwise and encloses 7975 |
| Fixtures.CreatedFixtureArea | src/utility/fixtures_utiility.py:60-63 | the contour of type 1 encloses 21025 and that of type 2 encloses 7975 |
| Fixtures.CupJxSum | src/inertia_analysis/moments_of_inerta.py:52-58 | the raw Jx boundary sum of a w × h cup at (a, b) is −4w((b + h)³ − b³) |
| Fixtures.CupJySum | src/inertia_analysis/moments_of_inerta.py:52-59 | the raw Jy boundary sum of a cup is −4h((a + w)³ − a³) |
| Fixtures.CupJxySum | src/inertia_analysis/moments_of_inerta.py:52-60 | the raw Jxy boundary sum of a cup is −6wh(2a + w)(2b + h) |
| Fixtures.CubeDiffNonNegative | src/inertia_analysis/moments_of_inerta.py:62-63 | (b + h)³ − b³ is never negative for h ≥ 0, so the abs in Jx and Jy only flips the clockwise sign |
| Fixtures.CupAbsoluteMoments | src/inertia_analysis/moments_of_inerta.py:46-66 | a cup's absolute moments are w((b+h)³ − b³)/3, h((a+w)³ − a³)/3 and abs(wh(2a + w)(2b + h))/4 |
| Fixtures.SquareMomentsAtOrigin | src/inertia_analysis/moments_of_inerta.py:52-64 | a square of side s at the origin has Jx = Jy = s⁴/3 and Jxy = s⁴/4 |
| Fixtures.CupShiftedJx | src/inertia_analysis/moments_of_inerta.py:86 | shifted to the cup's centre, Jx becomes wh³/12 |
| Fixtures.CupShiftedJy | src/inertia_analysis/moments_of_inerta.py:87 | shifted to the cup's centre, Jy becomes hw³/12 |
| Fixtures.CupShiftedJxy | src/inertia_analysis/moments_of_inerta.py:88 | shifted to the cup's centre, Jxy becomes (abs(P) − P)/4 with P = wh(2a + w)(2b + h) |
| Fixtures.CupCentroidalMoments | src/inertia_analysis/moments_of_inerta.py:79-94 | the barycentric moments of a cup described at its centre with angle 0 are wh³/12, hw³/12 and (abs(P) − P)/4, wherever the cup is |
| Displayer.LayoutCenterOfGravity | src/utility/result_displayer.py:177-200 | fails with a missing-key error exactly when a selected type is absent from a table, and with the zero-area error exactly when the keys are present and the selected area is 0. Otherwise x·area and y·area are the area-weighted sums of the selected centres |
| Displayer.ComputeCenterOfGravity | src/utility/result_displayer.py:177-200 | the selection-filtered loop with table lookups, the zero check and the divisions yields exactly that result |
| Displayer.UnselectedAddNothing | src/utility/result_displayer.py:183-192 | fixtures that are not selected add no area |
| Displayer.NoSelectionIsRefused | src/utility/result_displayer.py:194-195 | with no fixture selected the centre of gravity is refused with the zero-area error |
| Displayer.SumsAgreeOnSelected | src/utility/result_displayer.py:183-192 | two layouts that agree on the selection and on the selected fixtures' types and centres have the same key check, area and weighted sums |
| Displayer.UnselectedEntriesIrrelevant | src/utility/result_displayer.py:183-192 | changing any entry of an unselected fixture leaves the result (point or error) unchanged |
| Displayer.MomentOfCoincident | src/utility/result_displayer.py:190-192 | when every selected centre coordinate is c, the weighted sum is c times the selected area |
| Displayer.CenterOfGravityOfCoincident | src/utility/result_displayer.py:190-198 | when every selected centre is the same point c, a successful result is c |
| Displayer.TableAreasMatchContours | src/utility/result_displayer.py:45 | for types 1 and 2 the tables contain the type, width × height is the hard-coded area written at line 72 (21025 or 7975), and so is the shoelace area of the type's contour |
| Displayer.SquareSuctionFixture | src/utility/result_displayer.py:136-146 | the display's square contour has two closed 5-entry columns |
| Displayer.RectangleSuctionFixture | src/utility/result_displayer.py:148-159 | the display's rectangular contour has two closed 5-entry columns |
| Displayer.CreateFixture | src/utility/result_displayer.py:161-167 | succeeds exactly for type 1 or 2; any other code is refused with the invalid-type error |
| Displayer.CreateFixtureAgrees | src/utility/result_displayer.py:161-167 | the display's dispatcher returns exactly what the fixture module's dispatcher returns, refusals included |
| Displayer.ManhattanDistance | src/utility/result_displayer.py:172-175 | the distance is never negative |
| Displayer.ManhattanSymmetric | src/utility/result_displayer.py:172-175 | swapping the two points leaves the distance unchanged |
| Displayer.ManhattanZeroIffSamePoint | src/utility/result_displayer.py:172-175 | the distance is zero exactly when the two points coincide |
| Displayer.ManhattanTriangle | src/utility/result_displayer.py:172-175 | the distance obeys the triangle inequality |
| Displayer.ComputePairwiseManhattan | src/utility/result_displayer.py:104-114 | the nested loop over selected i and selected j > i yields the sum over the upper triangle of pair distances |
| Displayer.PairDistanceSymmetric | src/utility/result_displayer.py:110-113 | the distance between fixtures i and j equals that between j and i, and a fixture is at distance 0 from itself |
| Displayer.RowSumNonNegative | src/utility/result_displayer.py:108-114 | one row of the inner loop adds a non-negative amount |
| Displayer.RowsSumNonNegative | src/utility/result_displayer.py:106-114 | the rows of the outer loop add a non-negative amount |
| Displayer.PairwiseManhattanNonNegative | src/utility/result_displayer.py:104-114 | the pairwise total is never negative |
| Displayer.CountSelectedMonotone | src/utility/result_displayer.py:106-109 | looking at more fixtures never finds fewer selected ones |
| Displayer.TwoSelectedCount | src/utility/result_displayer.py:106-109 | a pair i < j of selected fixtures means at least two are selected |
| Displayer.RowSumOfLoneFixture | src/utility/result_displayer.py:108-114 | with at most one selected fixture every row adds nothing |
| Displayer.RowsSumOfLoneFixture | src/utility/result_displayer.py:106-114 | with at most one selected fixture the rows add nothing |
| Displayer.PairwiseManhattanOfAtMostOne | src/utility/result_displayer.py:104-114 | with at most one fixture selected the total is 0 |
| Displayer.RowsSumExtendColumns | src/utility/result_displayer.py:106-114 | widening the triangle by one column adds that column's pair distances |
| Displayer.OrderedPairsExtendColumns | src/utility/result_displayer.py:106-114 | widening the square of ordered pairs by one column adds that column |
| Displayer.FullRowIsColumn | src/utility/result_displayer.py:110-113 | by symmetry, a full row of pair distances equals the matching column |
| Displayer.OrderedPairsIsTwiceRows | src/utility/result_displayer.py:104-114 | the sum over all ordered pairs is twice the upper-triangle sum |
| Displayer.PairwiseManhattanCountsEachPairOnce | src/utility/result_displayer.py:104-114 | twice the total is the sum over all ordered pairs of selected fixtures, so each unordered pair i < j counts once |
| Displayer.Pow10 | src/utility/result_displayer.py:170 | 10ⁿ is at least 1 |
| Displayer.FloorDivisionBounds | src/utility/result_displayer.py:170 | floor(f·p)/p is at most f and less than 1/p below it |
| Displayer.TruncateAt | src/utility/result_displayer.py:170 | rounding down to a multiple of 1/scale never exceeds f and loses less than 1/scale |
| Displayer.Truncate | src/utility/result_displayer.py:169-170 | floor(f·10ⁿ)/10ⁿ is at most f and less than 10⁻ⁿ below it |
| Displayer.TruncateAtIsLargestMultiple | src/utility/result_displayer.py:170 | every multiple of 1/scale at or below f is at or below the truncation |
| Displayer.TruncateIsLargestMultiple | src/utility/result_displayer.py:169-170 | the truncation is the largest multiple of 10⁻ⁿ not above f |
| Displayer.TruncateAtIdempotent | src/utility/result_displayer.py:170 | rounding down a rounded value changes nothing |
| Displayer.TruncateIdempotent | src/utility/result_displayer.py:169-170 | truncating a truncated value to the same number of places changes nothing |
| Displayer.HardCodedArea | src/utility/result_displayer.py:72 | the area written for type 1 is that of the 145 × 145 square cup; for any other type code it is that of the 145 × 55 rectangular cup |
| Results.FixtureRecordOf | src/utility/result_displayer.py:71-81 | the descriptor of fixture i carries index i, the polygon the display builds for that fixture, and as barycentric moments the parallel-axis shift of its absolute moments |
| Results.RecordsWith | src/utility/result_displayer.py:65-82 | the descriptor list is built exactly when every selected fixture has type 1 or 2; otherwise it fails with the invalid-type error |
| Results.FixtureRecords | src/utility/result_displayer.py:65-82 | the same for the descriptors carrying the engine's absolute moments |
| Results.FixtureRecordsIndices | src/utility/result_displayer.py:65-82 | there is one descriptor per selected fixture, each with the index of a selected fixture, in strictly increasing index order |
| Results.BuildFixtureRecords | src/utility/result_displayer.py:65-82 | the loop that creates each selected contour, computes its absolute moments, writes the hard-coded area, centre, angle 0 and index, adds the barycentric moments and appends, yields exactly that list or the error |
| Results.TableKeysAreKnownTypes | src/utility/result_displayer.py:43-46 | once the centre of gravity has found every selected type in the tables, building the descriptors cannot fail |
| Results.HardCodedAreaIsTableArea | src/utility/result_displayer.py:45 | for a type present in the tables, width × height is the hard-coded area |
| Results.SourceTablesMatch | src/utility/result_displayer.py:45 | the tables passed by the display hold only the types 1 and 2, with products equal to the hard-coded areas |
| Results.DescriptorSum | src/utility/result_displayer.py:65-82 | a sum over the descriptors of a quantity that depends only on area and barycenter is the sum of that quantity over the selected fixtures |
| Results.TableWeight | src/utility/result_displayer.py:186-188 | with matching tables, a selected fixture's table area is its hard-coded area |
| Results.SelectedSumOfWeights | src/utility/result_displayer.py:183-190 | a sum of the table areas over the selected fixtures is the display's selected area |
| Results.SelectedSumOfMoments | src/utility/result_displayer.py:183-192 | a sum of the weighted centres over the selected fixtures is the display's weighted sum |
| Results.DescribedMoments | src/utility/result_displayer.py:72-74 | a descriptor of a selected fixture contributes the display's weighted centre of that fixture |
| Results.DescriptorArea | src/utility/result_displayer.py:72 | the engine's total area over the descriptors is the display's selected area |
| Results.DescriptorMomentX | src/utility/result_displayer.py:72-74 | the engine's x-weighted sum over the descriptors is the display's x-weighted sum |
| Results.DescriptorMomentY | src/utility/result_displayer.py:72-74 | the engine's y-weighted sum over the descriptors is the display's y-weighted sum |
| Results.CenterOfGravityAgreesWithEngine | src/utility/result_displayer.py:43-46 | when the keys are present, the descriptors are built, the engine's centre of gravity over them succeeds exactly when the display's does, and the two points are equal |
| Results.CentredFixtureDescriptor | src/utility/result_displayer.py:66-77 | a fixture whose centre is the middle of its cup gets exactly the descriptor of its box |
| Results.CentredFixtureMoments | src/utility/result_displayer.py:79-81 | such a fixture's barycentric moments are wh³/12, hw³/12 and (abs(P) − P)/4 with P = wh(2x + w)(2y + h) |
| Results.ShowResults | src/utility/result_displayer.py:43-114 | fails exactly when the display's centre of gravity fails, with the same error. Otherwise it returns that centre, the descriptor list, the principal moments of the descriptors about that centre (i ≤ j when sqrt is a square root), and the pairwise Manhattan total |

## Left out

- Reading the JSON file (src/utility/result_displayer.py:34-41): the six columns are the fields of a `Layout` argument.
- The plots, annotations and printed report (src/utility/result_displayer.py:86-101, 115-134). This includes the drawing loop at line 97, which pairs the enumeration index with `fixture["idx"]`: it affects only the picture. `Truncate` is used there for labels only, so `ShowResults` does not return truncated values.
- The `workpiece_vertices` given to the display's constructor (src/utility/result_displayer.py:14-22): they are only drawn.
- `distance_obj` (src/utility/result_displayer.py:49-63): it is accumulated but never used nor printed.
- Floating-point rounding: every quantity is an exact real, and `np.array`/`np.dot`/`np.roll` become an exact cyclic sum over vertex pairs.
- `math.cos`/`math.sin` of the angle (src/inertia_analysis/moments_of_inerta.py:82-84): a descriptor carries the cosine and sine as a `Rotation`. The invariance lemmas require cos² + sin² = 1, and the display's angle 0 is `Rotation(1.0, 0.0)`.
- `math.sqrt` (src/inertia_analysis/moments_of_inerta.py:174-175) is a function argument. The properties that need a true square root require `IsSqrt(sqrt)`.
- Polygon simplicity: the engine never checks for self-intersection, and neither does the model.
- Displayer.Truncate: n is a natural number. A negative n, which Python accepts (10 ** n is then a fraction), is not modelled.
- Results.ShowResults: like every display operation, it requires the six columns to have the same length (`Layout.WellFormed`). The `IndexError` that shorter columns would raise is not modelled.
- Inertia.OverallCenterOfGravity: a zero total area gives `Err(ZeroDivision)`, which is what Python raises (`ZeroDivisionError`) when the areas are plain ints or floats. The areas that `compute_polygon_area` returns are numpy `float64` values (src/inertia_analysis/moments_of_inerta.py:33); with those, the divisions at lines 120-121 give nan or inf with a RuntimeWarning instead of raising. That outcome is not modelled.
- Inertia.PolygonArea has no loop version, because the source computes it as one vectorised expression.
