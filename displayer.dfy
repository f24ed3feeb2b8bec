/**
 * The computations inside the result display (class ResultDisplayer): the
 * centre of gravity of the selected fixtures from width and height tables, its
 * own copy of the fixture dispatcher, Manhattan distances between fixture
 * centres and their pairwise total, and decimal truncation. The JSON reading and
 * the plotting around them are not modelled.
 */
module Displayer {
  import opened Wrappers
  import opened Inertia
  import Fixtures

  /** The per-fixture columns of an analysis result: selection flag, type code,
      lower-left anchor (x, y) and centre. */
  datatype Layout = Layout(selected: seq<int>, types: seq<int>, x: seq<real>, y: seq<real>,
                           centersX: seq<real>, centersY: seq<real>)
  {
    /** All columns describe the same fixtures. */
    predicate WellFormed()
    {
      |types| == |selected| && |x| == |selected| && |y| == |selected|
      && |centersX| == |selected| && |centersY| == |selected|
    }
  }

  // ---------------------------------------------------------------------------
  // Centre of gravity of the selected fixtures
  // ---------------------------------------------------------------------------

  /** The width and height tables the display passes: both types are 145 wide;
      type 1 is 145 high and type 2 is 55 high. */
  const WidthTable: map<int, real> := map[1 := Fixtures.SquareCupDim, 2 := Fixtures.SquareCupDim]
  const HeightTable: map<int, real> := map[1 := Fixtures.RectangularCupDimX, 2 := Fixtures.RectangularCupDimY]

  /** Every selected fixture among the first n has a type present in both tables. */
  predicate KeysPresent(l: Layout, wFix: map<int, real>, hFix: map<int, real>, n: nat)
    requires l.WellFormed() && n <= |l.selected|
  {
    forall i :: 0 <= i < n && l.selected[i] == 1 ==> l.types[i] in wFix && l.types[i] in hFix
  }

  /** The area fixture i contributes: width times height of its type when it is selected, else nothing. */
  function FixtureWeight(l: Layout, wFix: map<int, real>, hFix: map<int, real>, i: nat): real
    requires l.WellFormed() && i < |l.selected|
  {
    var t := l.types[i];
    if l.selected[i] == 1 && t in wFix && t in hFix then wFix[t] * hFix[t] else 0.0
  }

  /** The total area of the selected fixtures among the first n. */
  function SelectedArea(l: Layout, wFix: map<int, real>, hFix: map<int, real>, n: nat): real
    requires l.WellFormed() && n <= |l.selected|
  {
    if n == 0 then 0.0 else SelectedArea(l, wFix, hFix, n - 1) + FixtureWeight(l, wFix, hFix, n - 1)
  }

  /** The area-weighted sum of one centre coordinate over the selected fixtures among the first n. */
  function SelectedMoment(l: Layout, wFix: map<int, real>, hFix: map<int, real>, coords: seq<real>, n: nat): real
    requires l.WellFormed() && |coords| == |l.selected| && n <= |l.selected|
  {
    if n == 0 then 0.0
    else SelectedMoment(l, wFix, hFix, coords, n - 1) + FixtureWeight(l, wFix, hFix, n - 1) * coords[n - 1]
  }

  /** The area-weighted mean of the selected centres: a type missing from a table is a lookup
      failure, and a zero total area is refused. */
  function LayoutCenterOfGravity(l: Layout, wFix: map<int, real>, hFix: map<int, real>): (r: Result<Point>)
    requires l.WellFormed()
    ensures r == Err(MissingKey) <==> !KeysPresent(l, wFix, hFix, |l.selected|)
    ensures r == Err(ZeroTotalArea)
        <==> KeysPresent(l, wFix, hFix, |l.selected|) && SelectedArea(l, wFix, hFix, |l.selected|) == 0.0
    ensures r.Ok? ==> r.value.x * SelectedArea(l, wFix, hFix, |l.selected|)
                      == SelectedMoment(l, wFix, hFix, l.centersX, |l.selected|)
    ensures r.Ok? ==> r.value.y * SelectedArea(l, wFix, hFix, |l.selected|)
                      == SelectedMoment(l, wFix, hFix, l.centersY, |l.selected|)
  {
    var n := |l.selected|;
    if !KeysPresent(l, wFix, hFix, n) then Err(MissingKey)
    else
      var a := SelectedArea(l, wFix, hFix, n);
      if a == 0.0 then Err(ZeroTotalArea)
      else Ok(Point(SelectedMoment(l, wFix, hFix, l.centersX, n) / a, SelectedMoment(l, wFix, hFix, l.centersY, n) / a))
  }

  method ComputeCenterOfGravity(l: Layout, wFix: map<int, real>, hFix: map<int, real>) returns (r: Result<Point>)
    requires l.WellFormed()
    ensures r == LayoutCenterOfGravity(l, wFix, hFix)
  {
    var totalArea, weightedSumX, weightedSumY := 0.0, 0.0, 0.0;
    for i := 0 to |l.selected|
      invariant KeysPresent(l, wFix, hFix, i)
      invariant totalArea == SelectedArea(l, wFix, hFix, i)
      invariant weightedSumX == SelectedMoment(l, wFix, hFix, l.centersX, i)
      invariant weightedSumY == SelectedMoment(l, wFix, hFix, l.centersY, i)
    {
      if l.selected[i] == 1 {
        var fixtureType := l.types[i];
        if fixtureType !in wFix || fixtureType !in hFix {
          return Err(MissingKey);
        }
        var area := wFix[fixtureType] * hFix[fixtureType];
        totalArea := totalArea + area;
        weightedSumX := weightedSumX + area * l.centersX[i];
        weightedSumY := weightedSumY + area * l.centersY[i];
      }
    }
    if totalArea == 0.0 {
      return Err(ZeroTotalArea);
    }
    r := Ok(Point(weightedSumX / totalArea, weightedSumY / totalArea));
  }

  lemma {:induction false} UnselectedAddNothing(l: Layout, wFix: map<int, real>, hFix: map<int, real>, n: nat)
    requires l.WellFormed() && n <= |l.selected|
    requires forall i :: 0 <= i < n ==> l.selected[i] != 1
    ensures SelectedArea(l, wFix, hFix, n) == 0.0
  {
    if n > 0 {
      UnselectedAddNothing(l, wFix, hFix, n - 1);
    }
  }

  /** With no fixture selected the total area is zero and the centre of gravity is refused. */
  lemma NoSelectionIsRefused(l: Layout, wFix: map<int, real>, hFix: map<int, real>)
    requires l.WellFormed()
    requires forall i :: 0 <= i < |l.selected| ==> l.selected[i] != 1
    ensures LayoutCenterOfGravity(l, wFix, hFix) == Err(ZeroTotalArea)
  {
    UnselectedAddNothing(l, wFix, hFix, |l.selected|);
  }

  /** Two layouts that agree on the selection flags and on every selected fixture's type and centre. */
  predicate AgreeOnSelected(l1: Layout, l2: Layout)
    requires l1.WellFormed() && l2.WellFormed()
  {
    l1.selected == l2.selected
    && forall i :: 0 <= i < |l1.selected| && l1.selected[i] == 1 ==>
         l1.types[i] == l2.types[i] && l1.centersX[i] == l2.centersX[i] && l1.centersY[i] == l2.centersY[i]
  }

  lemma {:induction false} SumsAgreeOnSelected(l1: Layout, l2: Layout, wFix: map<int, real>, hFix: map<int, real>, n: nat)
    requires l1.WellFormed() && l2.WellFormed() && AgreeOnSelected(l1, l2) && n <= |l1.selected|
    ensures KeysPresent(l1, wFix, hFix, n) == KeysPresent(l2, wFix, hFix, n)
    ensures SelectedArea(l1, wFix, hFix, n) == SelectedArea(l2, wFix, hFix, n)
    ensures SelectedMoment(l1, wFix, hFix, l1.centersX, n) == SelectedMoment(l2, wFix, hFix, l2.centersX, n)
    ensures SelectedMoment(l1, wFix, hFix, l1.centersY, n) == SelectedMoment(l2, wFix, hFix, l2.centersY, n)
  {
    if n > 0 {
      SumsAgreeOnSelected(l1, l2, wFix, hFix, n - 1);
      var i := n - 1;
      if l1.selected[i] == 1 {
        assert FixtureWeight(l1, wFix, hFix, i) == FixtureWeight(l2, wFix, hFix, i);
      } else {
        assert FixtureWeight(l1, wFix, hFix, i) == 0.0 == FixtureWeight(l2, wFix, hFix, i);
      }
    }
  }

  /** Only selected fixtures matter: changing the type or the centre of an unselected one leaves the result unchanged. */
  lemma UnselectedEntriesIrrelevant(l1: Layout, l2: Layout, wFix: map<int, real>, hFix: map<int, real>)
    requires l1.WellFormed() && l2.WellFormed() && AgreeOnSelected(l1, l2)
    ensures LayoutCenterOfGravity(l1, wFix, hFix) == LayoutCenterOfGravity(l2, wFix, hFix)
  {
    SumsAgreeOnSelected(l1, l2, wFix, hFix, |l1.selected|);
  }

  lemma {:induction false} MomentOfCoincident(l: Layout, wFix: map<int, real>, hFix: map<int, real>,
                                              coords: seq<real>, c: real, n: nat)
    requires l.WellFormed() && |coords| == |l.selected| && n <= |l.selected|
    requires forall i :: 0 <= i < n && l.selected[i] == 1 ==> coords[i] == c
    ensures SelectedMoment(l, wFix, hFix, coords, n) == c * SelectedArea(l, wFix, hFix, n)
  {
    if n > 0 {
      MomentOfCoincident(l, wFix, hFix, coords, c, n - 1);
      var w, a0 := FixtureWeight(l, wFix, hFix, n - 1), SelectedArea(l, wFix, hFix, n - 1);
      assert w * coords[n - 1] == w * c;
      assert c * (a0 + w) == c * a0 + w * c;
    }
  }

  /** When every selected centre is the same point c, the centre of gravity is c. */
  lemma CenterOfGravityOfCoincident(l: Layout, wFix: map<int, real>, hFix: map<int, real>, c: Point)
    requires l.WellFormed()
    requires forall i :: 0 <= i < |l.selected| && l.selected[i] == 1 ==> l.centersX[i] == c.x && l.centersY[i] == c.y
    requires LayoutCenterOfGravity(l, wFix, hFix).Ok?
    ensures LayoutCenterOfGravity(l, wFix, hFix) == Ok(c)
  {
    var n := |l.selected|;
    MomentOfCoincident(l, wFix, hFix, l.centersX, c.x, n);
    MomentOfCoincident(l, wFix, hFix, l.centersY, c.y, n);
    var a := SelectedArea(l, wFix, hFix, n);
    var wx, wy := SelectedMoment(l, wFix, hFix, l.centersX, n), SelectedMoment(l, wFix, hFix, l.centersY, n);
    assert LayoutCenterOfGravity(l, wFix, hFix) == Ok(Point(wx / a, wy / a));
    assert wx / a == c.x by {
      assert wx == c.x * a;
    }
    assert wy / a == c.y by {
      assert wy == c.y * a;
    }
  }

  /** The area the display writes into a fixture descriptor: 21025 for type 1, 7975 otherwise, that is
      the area of the square cup for type 1 and of the rectangular cup for every other code. */
  function HardCodedArea(fixtureType: int): (a: real)
    ensures fixtureType == 1 ==> a == Fixtures.SquareCupDim * Fixtures.SquareCupDim
    ensures fixtureType != 1 ==> a == Fixtures.RectangularCupDimX * Fixtures.RectangularCupDimY
  {
    if fixtureType == 1 then 21025.0 else 7975.0
  }

  /** For both fixture types the table area, the hard-coded area and the shoelace area of the contour agree. */
  lemma TableAreasMatchContours(fixtureType: int, lbX: real, lbY: real)
    requires fixtureType == 1 || fixtureType == 2
    ensures fixtureType in WidthTable && fixtureType in HeightTable
    ensures WidthTable[fixtureType] * HeightTable[fixtureType] == HardCodedArea(fixtureType)
    ensures PolygonArea(Fixtures.Zip(Fixtures.CreateFixture(fixtureType, lbX, lbY).value)) == HardCodedArea(fixtureType)
  {
    Fixtures.CreatedFixtureArea(fixtureType, lbX, lbY);
  }

  // ---------------------------------------------------------------------------
  // The display's own copy of the fixture dispatcher
  // ---------------------------------------------------------------------------

  function SquareSuctionFixture(lbX: real, lbY: real): (c: Fixtures.Contour)
    ensures |c.xs| == 5 && |c.ys| == 5
    ensures c.xs[4] == c.xs[0] && c.ys[4] == c.ys[0]
  {
    var squareSide := Fixtures.SquareCupDim;
    Fixtures.Contour([lbX, lbX, lbX + squareSide, lbX + squareSide, lbX],
                     [lbY, lbY + squareSide, lbY + squareSide, lbY, lbY])
  }

  function RectangleSuctionFixture(lbX: real, lbY: real): (c: Fixtures.Contour)
    ensures |c.xs| == 5 && |c.ys| == 5
    ensures c.xs[4] == c.xs[0] && c.ys[4] == c.ys[0]
  {
    var width, height := Fixtures.RectangularCupDimX, Fixtures.RectangularCupDimY;
    Fixtures.Contour([lbX, lbX, lbX + width, lbX + width, lbX],
                     [lbY, lbY + height, lbY + height, lbY, lbY])
  }

  function CreateFixture(fixtureType: int, centerX: real, centerY: real): (r: Result<Fixtures.Contour>)
    ensures r.Ok? <==> fixtureType == 1 || fixtureType == 2
    ensures r.Err? ==> r.error == InvalidCupType
  {
    if fixtureType == 1 then Ok(SquareSuctionFixture(centerX, centerY))
    else if fixtureType == 2 then Ok(RectangleSuctionFixture(centerX, centerY))
    else Err(InvalidCupType)
  }

  /** The display's dispatcher builds exactly the contours of the fixture module, and refuses the same codes. */
  lemma CreateFixtureAgrees(fixtureType: int, lbX: real, lbY: real)
    ensures CreateFixture(fixtureType, lbX, lbY) == Fixtures.CreateFixture(fixtureType, lbX, lbY)
  {
    if fixtureType == 1 {
      assert SquareSuctionFixture(lbX, lbY) == Fixtures.SquareSuctionCup(lbX, lbY);
    } else if fixtureType == 2 {
      assert RectangleSuctionFixture(lbX, lbY) == Fixtures.RectangleSuctionCup(lbX, lbY);
    }
  }

  // ---------------------------------------------------------------------------
  // Manhattan distances
  // ---------------------------------------------------------------------------

  function ManhattanDistance(centerX: real, centerY: real, fixtureX: real, fixtureY: real): (d: real)
    ensures d >= 0.0
  {
    Abs(centerX - fixtureX) + Abs(centerY - fixtureY)
  }

  lemma ManhattanSymmetric(x1: real, y1: real, x2: real, y2: real)
    ensures ManhattanDistance(x1, y1, x2, y2) == ManhattanDistance(x2, y2, x1, y1)
  {
  }

  lemma ManhattanZeroIffSamePoint(x1: real, y1: real, x2: real, y2: real)
    ensures ManhattanDistance(x1, y1, x2, y2) == 0.0 <==> x1 == x2 && y1 == y2
  {
  }

  lemma ManhattanTriangle(x1: real, y1: real, x2: real, y2: real, x3: real, y3: real)
    ensures ManhattanDistance(x1, y1, x3, y3) <= ManhattanDistance(x1, y1, x2, y2) + ManhattanDistance(x2, y2, x3, y3)
  {
  }

  // ---------------------------------------------------------------------------
  // Pairwise Manhattan total over the selected fixtures
  // ---------------------------------------------------------------------------

  /** The distance between the centres of fixtures i and j when both are selected, else nothing. */
  function PairDistance(l: Layout, i: nat, j: nat): real
    requires l.WellFormed() && i < |l.selected| && j < |l.selected|
  {
    if l.selected[i] == 1 && l.selected[j] == 1
    then ManhattanDistance(l.centersX[j], l.centersY[j], l.centersX[i], l.centersY[i])
    else 0.0
  }

  /** Row i of the upper triangle cut at column m: the pair distances from i to every j with i < j < m. */
  function RowSum(l: Layout, i: nat, m: nat): real
    requires l.WellFormed() && i < |l.selected| && m <= |l.selected|
    decreases m
  {
    if m <= i + 1 then 0.0 else RowSum(l, i, m - 1) + PairDistance(l, i, m - 1)
  }

  /** The rows of the first k selected fixtures, each cut at column m. */
  function RowsSum(l: Layout, k: nat, m: nat): real
    requires l.WellFormed() && k <= |l.selected| && m <= |l.selected|
  {
    if k == 0 then 0.0
    else RowsSum(l, k - 1, m) + (if l.selected[k - 1] == 1 then RowSum(l, k - 1, m) else 0.0)
  }

  /** The sum of the distances over the pairs i < j of selected fixtures. */
  function PairwiseManhattan(l: Layout): real
    requires l.WellFormed()
  {
    RowsSum(l, |l.selected|, |l.selected|)
  }

  method ComputePairwiseManhattan(l: Layout) returns (total: real)
    requires l.WellFormed()
    ensures total == PairwiseManhattan(l)
  {
    var n := |l.selected|;
    total := 0.0;
    for i := 0 to n
      invariant total == RowsSum(l, i, n)
    {
      if l.selected[i] == 1 {
        ghost var before := total;
        for j := i + 1 to n
          invariant total == before + RowSum(l, i, j)
        {
          if l.selected[j] == 1 {
            var x1, y1 := l.centersX[i], l.centersY[i];
            var x2, y2 := l.centersX[j], l.centersY[j];
            var distance := Abs(x2 - x1) + Abs(y2 - y1);
            total := total + distance;
          }
        }
      }
    }
  }

  lemma {:induction false} RowSumNonNegative(l: Layout, i: nat, m: nat)
    requires l.WellFormed() && i < |l.selected| && m <= |l.selected|
    ensures RowSum(l, i, m) >= 0.0
    decreases m
  {
    if m > i + 1 {
      RowSumNonNegative(l, i, m - 1);
    }
  }

  lemma {:induction false} RowsSumNonNegative(l: Layout, k: nat, m: nat)
    requires l.WellFormed() && k <= |l.selected| && m <= |l.selected|
    ensures RowsSum(l, k, m) >= 0.0
  {
    if k > 0 {
      RowsSumNonNegative(l, k - 1, m);
      RowSumNonNegative(l, k - 1, m);
    }
  }

  /** The pairwise total is never negative. */
  lemma PairwiseManhattanNonNegative(l: Layout)
    requires l.WellFormed()
    ensures PairwiseManhattan(l) >= 0.0
  {
    RowsSumNonNegative(l, |l.selected|, |l.selected|);
  }

  /** The number of selected fixtures among the first k. */
  function CountSelected(selected: seq<int>, k: nat): nat
    requires k <= |selected|
  {
    if k == 0 then 0 else CountSelected(selected, k - 1) + (if selected[k - 1] == 1 then 1 else 0)
  }

  lemma {:induction false} CountSelectedMonotone(selected: seq<int>, k: nat, m: nat)
    requires k <= m <= |selected|
    ensures CountSelected(selected, k) <= CountSelected(selected, m)
    decreases m
  {
    if k < m {
      CountSelectedMonotone(selected, k, m - 1);
    }
  }

  /** Two selected fixtures i < j make at least two selected among all. */
  lemma TwoSelectedCount(selected: seq<int>, i: nat, j: nat)
    requires i < j < |selected| && selected[i] == 1 && selected[j] == 1
    ensures CountSelected(selected, |selected|) >= 2
  {
    CountSelectedMonotone(selected, i + 1, j);
    assert CountSelected(selected, i + 1) >= 1;
    assert CountSelected(selected, j + 1) == CountSelected(selected, j) + 1;
    CountSelectedMonotone(selected, j + 1, |selected|);
  }

  lemma {:induction false} RowSumOfLoneFixture(l: Layout, i: nat, m: nat)
    requires l.WellFormed() && i < |l.selected| && m <= |l.selected|
    requires CountSelected(l.selected, |l.selected|) <= 1
    ensures RowSum(l, i, m) == 0.0
    decreases m
  {
    if m > i + 1 {
      RowSumOfLoneFixture(l, i, m - 1);
      if l.selected[i] == 1 && l.selected[m - 1] == 1 {
        TwoSelectedCount(l.selected, i, m - 1);
      }
    }
  }

  lemma {:induction false} RowsSumOfLoneFixture(l: Layout, k: nat, m: nat)
    requires l.WellFormed() && k <= |l.selected| && m <= |l.selected|
    requires CountSelected(l.selected, |l.selected|) <= 1
    ensures RowsSum(l, k, m) == 0.0
  {
    if k > 0 {
      RowsSumOfLoneFixture(l, k - 1, m);
      RowSumOfLoneFixture(l, k - 1, m);
    }
  }

  /** With at most one fixture selected there is no pair, and the total is zero. */
  lemma PairwiseManhattanOfAtMostOne(l: Layout)
    requires l.WellFormed() && CountSelected(l.selected, |l.selected|) <= 1
    ensures PairwiseManhattan(l) == 0.0
  {
    RowsSumOfLoneFixture(l, |l.selected|, |l.selected|);
  }

  // The loop adds each unordered pair once: twice its total is the sum over all ordered pairs.

  /** Column m of the pair distances, over the rows i < k. */
  function ColumnSum(l: Layout, k: nat, m: nat): real
    requires l.WellFormed() && k <= |l.selected| && m < |l.selected|
  {
    if k == 0 then 0.0 else ColumnSum(l, k - 1, m) + PairDistance(l, k - 1, m)
  }

  /** Row i of the full square of pair distances, over the columns j < m. */
  function FullRowSum(l: Layout, i: nat, m: nat): real
    requires l.WellFormed() && i < |l.selected| && m <= |l.selected|
  {
    if m == 0 then 0.0 else FullRowSum(l, i, m - 1) + PairDistance(l, i, m - 1)
  }

  /** The sum of the pair distances over all ordered pairs (i, j) with i < k and j < m. */
  function OrderedPairsSum(l: Layout, k: nat, m: nat): real
    requires l.WellFormed() && k <= |l.selected| && m <= |l.selected|
  {
    if k == 0 then 0.0 else OrderedPairsSum(l, k - 1, m) + FullRowSum(l, k - 1, m)
  }

  lemma PairDistanceSymmetric(l: Layout, i: nat, j: nat)
    requires l.WellFormed() && i < |l.selected| && j < |l.selected|
    ensures PairDistance(l, i, j) == PairDistance(l, j, i)
    ensures PairDistance(l, i, i) == 0.0
  {
  }

  lemma {:induction false} RowsSumExtendColumns(l: Layout, k: nat, m: nat)
    requires l.WellFormed() && k <= m < |l.selected|
    ensures RowsSum(l, k, m + 1) == RowsSum(l, k, m) + ColumnSum(l, k, m)
  {
    if k > 0 {
      RowsSumExtendColumns(l, k - 1, m);
      assert RowSum(l, k - 1, m + 1) == RowSum(l, k - 1, m) + PairDistance(l, k - 1, m);
    }
  }

  lemma {:induction false} OrderedPairsExtendColumns(l: Layout, k: nat, m: nat)
    requires l.WellFormed() && k <= |l.selected| && m < |l.selected|
    ensures OrderedPairsSum(l, k, m + 1) == OrderedPairsSum(l, k, m) + ColumnSum(l, k, m)
  {
    if k > 0 {
      OrderedPairsExtendColumns(l, k - 1, m);
    }
  }

  lemma {:induction false} FullRowIsColumn(l: Layout, i: nat, m: nat)
    requires l.WellFormed() && i < |l.selected| && m <= |l.selected|
    ensures FullRowSum(l, i, m) == ColumnSum(l, m, i)
  {
    if m > 0 {
      FullRowIsColumn(l, i, m - 1);
      PairDistanceSymmetric(l, i, m - 1);
    }
  }

  lemma {:induction false} OrderedPairsIsTwiceRows(l: Layout, m: nat)
    requires l.WellFormed() && m <= |l.selected|
    ensures OrderedPairsSum(l, m, m) == 2.0 * RowsSum(l, m, m)
  {
    if m > 0 {
      var k := m - 1;
      OrderedPairsIsTwiceRows(l, k);
      // the new row and column each add the distances between fixture k and the earlier ones
      OrderedPairsExtendColumns(l, k, k);
      FullRowIsColumn(l, k, m);
      PairDistanceSymmetric(l, k, k);
      assert ColumnSum(l, m, k) == ColumnSum(l, k, k);
      RowsSumExtendColumns(l, k, k);
    }
  }

  /** The pairwise total counts each unordered pair of selected fixtures once: twice the total is
      the sum over all ordered pairs. */
  lemma PairwiseManhattanCountsEachPairOnce(l: Layout)
    requires l.WellFormed()
    ensures 2.0 * PairwiseManhattan(l) == OrderedPairsSum(l, |l.selected|, |l.selected|)
  {
    OrderedPairsIsTwiceRows(l, |l.selected|);
  }

  // ---------------------------------------------------------------------------
  // Decimal truncation
  // ---------------------------------------------------------------------------

  /** Ten to the power n. */
  function Pow10(n: nat): (p: real)
    ensures p >= 1.0
  {
    if n == 0 then 1.0 else 10.0 * Pow10(n - 1)
  }

  lemma FloorDivisionBounds(f: real, p: real, k: int)
    requires p > 0.0 && k as real <= f * p < k as real + 1.0
    ensures k as real / p <= f
    ensures f - k as real / p < 1.0 / p
  {
    var q := k as real / p;
    assert q * p == k as real;
    assert (f - q) * p == f * p - k as real;
  }

  /** f rounded down to a multiple of 1/scale: never above f, and less than 1/scale below it. */
  function TruncateAt(f: real, scale: real): (r: real)
    requires scale > 0.0
    ensures r <= f && f - r < 1.0 / scale
  {
    var k := (f * scale).Floor;
    FloorDivisionBounds(f, scale, k);
    k as real / scale
  }

  /** f rounded down to n decimal places: never above f, and less than one unit of the last place below it. */
  function Truncate(f: real, n: nat): (r: real)
    ensures r <= f && f - r < 1.0 / Pow10(n)
  {
    TruncateAt(f, Pow10(n))
  }

  lemma TruncateAtUnfold(f: real, scale: real)
    requires scale > 0.0
    ensures TruncateAt(f, scale) == (f * scale).Floor as real / scale
  {
  }

  /** Scaling by a positive factor keeps the order both ways. */
  lemma ScaleMonotone(a: real, b: real, p: real)
    requires p > 0.0
    ensures a <= b <==> a * p <= b * p
    ensures a <= b <==> a / p <= b / p
  {
  }

  lemma DivMulCancel(a: real, p: real)
    requires p > 0.0
    ensures a / p * p == a
  {
  }

  lemma FloorOfInteger(k: int)
    ensures (k as real).Floor == k
  {
  }

  /** The truncation is the largest multiple of 1/scale that does not exceed f. */
  lemma TruncateAtIsLargestMultiple(f: real, scale: real, k: int)
    requires scale > 0.0 && k as real / scale <= f
    ensures k as real / scale <= TruncateAt(f, scale)
  {
    var x := f * scale;
    var m := x.Floor;
    TruncateAtUnfold(f, scale);
    ScaleMonotone(k as real / scale, f, scale);
    DivMulCancel(k as real, scale);
    assert k <= m;
    ScaleMonotone(k as real, m as real, scale);
  }

  /** Truncation to n places is the largest multiple of ten to the minus n that does not exceed f. */
  lemma TruncateIsLargestMultiple(f: real, n: nat, k: int)
    requires k as real / Pow10(n) <= f
    ensures k as real / Pow10(n) <= Truncate(f, n)
  {
    TruncateAtIsLargestMultiple(f, Pow10(n), k);
  }

  lemma TruncateAtIdempotent(f: real, scale: real)
    requires scale > 0.0
    ensures TruncateAt(TruncateAt(f, scale), scale) == TruncateAt(f, scale)
  {
    var k := (f * scale).Floor;
    var t := TruncateAt(f, scale);
    TruncateAtUnfold(f, scale);
    DivMulCancel(k as real, scale);
    FloorOfInteger(k);
    assert (t * scale).Floor == k;
    TruncateAtUnfold(t, scale);
  }

  /** Truncating a truncated value changes nothing. */
  lemma TruncateIdempotent(f: real, n: nat)
    ensures Truncate(Truncate(f, n), n) == Truncate(f, n)
  {
    TruncateAtIdempotent(f, Pow10(n));
  }
}
