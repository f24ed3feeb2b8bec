/**
 * The computational part of ResultDisplayer.show_results: the centre of gravity
 * of the selected fixtures, one descriptor per selected fixture (contour, hard-coded
 * area, absolute and barycentric moments), the principal moments of the combined
 * fixtures about that centre, and the pairwise Manhattan total. The JSON input is
 * a Layout; the plots and the printed report are not modelled.
 */
module Results {
  import opened Wrappers
  import opened Inertia
  import Fixtures
  import opened Displayer

  /** A selected fixture as the display hands it to the engine, with its barycentric moments and its index. */
  datatype FixtureRecord = FixtureRecord(polygon: Polygon, baricentric: Moments, idx: nat)

  /** What the display computes from a layout. */
  datatype Analysis = Analysis(center: Point, fixtures: seq<FixtureRecord>, principal: Principal, manhattan: real)

  /** The descriptor of fixture i built on the given contour: the hard-coded area of its type, its centre as
      barycenter, the absolute moments of the contour, angle 0. */
  function FixtureRecordOf(l: Layout, i: nat, contour: Fixtures.Contour, momentsOf: seq<Point> -> Moments): (r: FixtureRecord)
    requires l.WellFormed() && i < |l.selected|
    ensures r.idx == i && DescribesFixture(l, i, r.polygon)
    ensures r.baricentric == ParallelAxisShift(r.polygon.absolute, r.polygon.area, r.polygon.barycenter)
  {
    var polygon := Polygon(HardCodedArea(l.types[i]), Point(l.centersX[i], l.centersY[i]),
                           momentsOf(Fixtures.Zip(contour)), Rotation(1.0, 0.0));
    FixtureRecord(polygon, BaricentricMoments(polygon), i)
  }

  /** Every selected fixture among the first n has a type code the dispatcher accepts. */
  predicate KnownTypes(l: Layout, n: nat)
    requires l.WellFormed() && n <= |l.selected|
  {
    forall i :: 0 <= i < n && l.selected[i] == 1 ==> l.types[i] == 1 || l.types[i] == 2
  }

  /** The descriptors of the selected fixtures among the first n, in index order, with the absolute moments
      of each contour given by momentsOf; an unknown type code is refused. */
  function RecordsWith(l: Layout, n: nat, momentsOf: seq<Point> -> Moments): (r: Result<seq<FixtureRecord>>)
    requires l.WellFormed() && n <= |l.selected|
    ensures r.Ok? <==> KnownTypes(l, n)
    ensures r.Err? ==> r.error == InvalidCupType
  {
    if n == 0 then Ok([])
    else
      var previous := RecordsWith(l, n - 1, momentsOf);
      if previous.Err? then previous
      else if l.selected[n - 1] != 1 then previous
      else
        var created := Displayer.CreateFixture(l.types[n - 1], l.x[n - 1], l.y[n - 1]);
        if created.Err? then Err(created.error)
        else Ok(previous.value + [FixtureRecordOf(l, n - 1, created.value, momentsOf)])
  }

  /** The descriptors the display builds, with the engine's absolute moments. */
  function FixtureRecords(l: Layout, n: nat): (r: Result<seq<FixtureRecord>>)
    requires l.WellFormed() && n <= |l.selected|
    ensures r.Ok? <==> KnownTypes(l, n)
    ensures r.Err? ==> r.error == InvalidCupType
  {
    RecordsWith(l, n, AbsoluteMomentsOf)
  }

  /** The descriptors are those of the selected fixtures, one each, in increasing index order. */
  lemma {:induction false} FixtureRecordsIndices(l: Layout, n: nat, momentsOf: seq<Point> -> Moments)
    requires l.WellFormed() && n <= |l.selected| && KnownTypes(l, n)
    ensures var rs := RecordsWith(l, n, momentsOf).value;
            |rs| == CountSelected(l.selected, n)
            && (forall k :: 0 <= k < |rs| ==> rs[k].idx < n && l.selected[rs[k].idx] == 1)
            && (forall k, k' :: 0 <= k < k' < |rs| ==> rs[k].idx < rs[k'].idx)
  {
    if n > 0 {
      var i := n - 1;
      assert KnownTypes(l, i);
      RecordsWithStep(l, i, momentsOf, RecordsWith(l, i, momentsOf).value);
      FixtureRecordsIndices(l, i, momentsOf);
    }
  }

  /** One step of building the descriptors from a list built so far: an unselected fixture is skipped, a
      selected one of unknown type makes the whole list an error, one of known type appends its descriptor. */
  lemma RecordsWithStep(l: Layout, i: nat, momentsOf: seq<Point> -> Moments, rs: seq<FixtureRecord>)
    requires l.WellFormed() && i < |l.selected| && RecordsWith(l, i, momentsOf) == Ok(rs)
    ensures l.selected[i] != 1 ==> RecordsWith(l, i + 1, momentsOf) == Ok(rs)
    ensures var created := Displayer.CreateFixture(l.types[i], l.x[i], l.y[i]);
            l.selected[i] == 1 && created.Err? ==> RecordsWith(l, |l.selected|, momentsOf) == Err(created.error)
    ensures var created := Displayer.CreateFixture(l.types[i], l.x[i], l.y[i]);
            l.selected[i] == 1 && created.Ok? ==>
            RecordsWith(l, i + 1, momentsOf) == Ok(rs + [FixtureRecordOf(l, i, created.value, momentsOf)])
  {
    if l.selected[i] == 1 && Displayer.CreateFixture(l.types[i], l.x[i], l.y[i]).Err? {
      assert !KnownTypes(l, i + 1);
      assert !KnownTypes(l, |l.selected|);
    }
  }

  method BuildFixtureRecords(l: Layout) returns (r: Result<seq<FixtureRecord>>)
    requires l.WellFormed()
    ensures r == FixtureRecords(l, |l.selected|)
  {
    var polygons: seq<FixtureRecord> := [];
    for idx := 0 to |l.selected|
      invariant RecordsWith(l, idx, AbsoluteMomentsOf) == Ok(polygons)
    {
      RecordsWithStep(l, idx, AbsoluteMomentsOf, polygons);
      if l.selected[idx] == 1 {
        var created := Displayer.CreateFixture(l.types[idx], l.x[idx], l.y[idx]);
        if created.Err? {
          return Err(created.error);
        }
        var fixtureCoords := Fixtures.Zip(created.value);
        var absolute := ComputeAbsoluteMoments(fixtureCoords);
        var polygon := Polygon(HardCodedArea(l.types[idx]), Point(l.centersX[idx], l.centersY[idx]),
                               absolute, Rotation(1.0, 0.0));
        var baricentric := BaricentricMoments(polygon);
        assert FixtureRecord(polygon, baricentric, idx) == FixtureRecordOf(l, idx, created.value, AbsoluteMomentsOf);
        polygons := polygons + [FixtureRecord(polygon, baricentric, idx)];
      }
    }
    r := Ok(polygons);
  }

  /** The polygons of a list of descriptors, in order. */
  function PolygonsOf(rs: seq<FixtureRecord>): (ps: seq<Polygon>)
    ensures |ps| == |rs| && forall k :: 0 <= k < |rs| ==> ps[k] == rs[k].polygon
  {
    seq(|rs|, k requires 0 <= k < |rs| => rs[k].polygon)
  }

  /** A centre of gravity from the width and height tables implies every selected type is known,
      so building the descriptors cannot fail afterwards. */
  lemma TableKeysAreKnownTypes(l: Layout)
    requires l.WellFormed() && KeysPresent(l, WidthTable, HeightTable, |l.selected|)
    ensures KnownTypes(l, |l.selected|)
    ensures FixtureRecords(l, |l.selected|).Ok?
  {
    assert forall t :: t in WidthTable ==> t == 1 || t == 2;
  }

  method ShowResults(l: Layout, sqrt: real -> real) returns (r: Result<Analysis>)
    requires l.WellFormed()
    ensures r.Err? <==> LayoutCenterOfGravity(l, WidthTable, HeightTable).Err?
    ensures r.Err? ==> r.error == LayoutCenterOfGravity(l, WidthTable, HeightTable).error
    ensures r.Ok? ==> Ok(r.value.center) == LayoutCenterOfGravity(l, WidthTable, HeightTable)
    ensures r.Ok? ==> Ok(r.value.fixtures) == FixtureRecords(l, |l.selected|)
    ensures r.Ok? ==> r.value.principal
                      == PrincipalMoments(CombinedBaricentricMoments(PolygonsOf(r.value.fixtures), r.value.center), sqrt)
    ensures r.Ok? && IsSqrt(sqrt) ==> r.value.principal.i <= r.value.principal.j
    ensures r.Ok? ==> r.value.manhattan == PairwiseManhattan(l)
  {
    var cog := ComputeCenterOfGravity(l, WidthTable, HeightTable);
    if cog.Err? {
      return Err(cog.error);
    }
    var xG, yG := cog.value.x, cog.value.y;
    TableKeysAreKnownTypes(l);
    var built := BuildFixtureRecords(l);
    assert built.Ok?;
    var polygons := built.value;
    var principal := ComputeCombinedBaricentricMoments(PolygonsOf(polygons), xG, yG, sqrt);
    var manhattan := ComputePairwiseManhattan(l);
    r := Ok(Analysis(Point(xG, yG), polygons, principal, manhattan));
  }

  // ---------------------------------------------------------------------------
  // The display's centre of gravity agrees with the engine's
  // ---------------------------------------------------------------------------

  /** For a known type, the hard-coded area is the product of the table entries. */
  lemma HardCodedAreaIsTableArea(t: int)
    requires t in WidthTable && t in HeightTable
    ensures HardCodedArea(t) == WidthTable[t] * HeightTable[t]
  {
    assert t == 1 || t == 2;
  }

  /** Tables whose keys are known type codes and whose products are the hard-coded areas. */
  predicate TablesMatch(wFix: map<int, real>, hFix: map<int, real>)
  {
    forall t :: t in wFix && t in hFix ==> (t == 1 || t == 2) && wFix[t] * hFix[t] == HardCodedArea(t)
  }

  /** The tables the display passes match the hard-coded areas. */
  lemma SourceTablesMatch()
    ensures TablesMatch(WidthTable, HeightTable)
  {
    forall t | t in WidthTable && t in HeightTable
      ensures (t == 1 || t == 2) && WidthTable[t] * HeightTable[t] == HardCodedArea(t)
    {
      HardCodedAreaIsTableArea(t);
    }
  }

  lemma PolygonsOfSnoc(rs: seq<FixtureRecord>, rec: FixtureRecord)
    ensures PolygonsOf(rs + [rec]) == PolygonsOf(rs) + [rec.polygon]
  {
  }

  /** The sum of g over the selected indices among the first n. */
  function SelectedSum(l: Layout, n: nat, g: nat -> real): real
    requires l.WellFormed() && n <= |l.selected|
  {
    if n == 0 then 0.0 else SelectedSum(l, n - 1, g) + (if l.selected[n - 1] == 1 then g(n - 1) else 0.0)
  }

  /** A polygon that carries the hard-coded area and the centre of fixture i. */
  predicate DescribesFixture(l: Layout, i: nat, p: Polygon)
    requires l.WellFormed() && i < |l.selected|
  {
    p.area == HardCodedArea(l.types[i]) && p.barycenter == Point(l.centersX[i], l.centersY[i])
  }

  /** A sum over the descriptors is the sum over the selected fixtures, for any per-polygon quantity f that
      only depends on the area and the barycenter (g(i) being its value for fixture i). */
  lemma {:induction false} DescriptorSum(l: Layout, n: nat, momentsOf: seq<Point> -> Moments,
                                         f: Polygon -> real, g: nat -> real)
    requires l.WellFormed() && n <= |l.selected| && KnownTypes(l, n)
    requires forall i, p :: 0 <= i < n && l.selected[i] == 1 && DescribesFixture(l, i, p) ==> f(p) == g(i)
    ensures Sum(PolygonsOf(RecordsWith(l, n, momentsOf).value), f) == SelectedSum(l, n, g)
  {
    if n > 0 {
      var i := n - 1;
      assert KnownTypes(l, i);
      RecordsWithStep(l, i, momentsOf, RecordsWith(l, i, momentsOf).value);
      DescriptorSum(l, i, momentsOf, f, g);
      var rs := RecordsWith(l, i, momentsOf).value;
      if l.selected[i] == 1 {
        var rec := FixtureRecordOf(l, i, Displayer.CreateFixture(l.types[i], l.x[i], l.y[i]).value, momentsOf);
        PolygonsOfSnoc(rs, rec);
        SumAppend(PolygonsOf(rs), [rec.polygon], f);
        SumSingleton(rec.polygon, f);
      }
    }
  }

  lemma TableWeight(l: Layout, wFix: map<int, real>, hFix: map<int, real>, i: nat)
    requires l.WellFormed() && i < |l.selected| && l.selected[i] == 1 && TablesMatch(wFix, hFix)
    requires l.types[i] in wFix && l.types[i] in hFix
    ensures FixtureWeight(l, wFix, hFix, i) == HardCodedArea(l.types[i])
  {
  }

  lemma {:induction false} SelectedSumOfWeights(l: Layout, wFix: map<int, real>, hFix: map<int, real>, n: nat, g: nat -> real)
    requires l.WellFormed() && n <= |l.selected|
    requires forall i :: 0 <= i < n && l.selected[i] == 1 ==> g(i) == FixtureWeight(l, wFix, hFix, i)
    ensures SelectedSum(l, n, g) == SelectedArea(l, wFix, hFix, n)
  {
    if n > 0 {
      SelectedSumOfWeights(l, wFix, hFix, n - 1, g);
    }
  }

  lemma {:induction false} SelectedSumOfMoments(l: Layout, wFix: map<int, real>, hFix: map<int, real>, coords: seq<real>,
                                                n: nat, g: nat -> real)
    requires l.WellFormed() && |coords| == |l.selected| && n <= |l.selected|
    requires forall i :: 0 <= i < n && l.selected[i] == 1 ==> g(i) == MomentAt(l, wFix, hFix, coords, i)
    ensures SelectedSum(l, n, g) == SelectedMoment(l, wFix, hFix, coords, n)
  {
    if n > 0 {
      SelectedSumOfMoments(l, wFix, hFix, coords, n - 1, g);
      if l.selected[n - 1] != 1 {
        assert FixtureWeight(l, wFix, hFix, n - 1) == 0.0;
      }
    }
  }

  /** The engine's total area over the descriptors is the display's selected area. */
  lemma DescriptorArea(l: Layout, wFix: map<int, real>, hFix: map<int, real>, momentsOf: seq<Point> -> Moments)
    requires l.WellFormed() && TablesMatch(wFix, hFix) && KeysPresent(l, wFix, hFix, |l.selected|)
    requires KnownTypes(l, |l.selected|)
    ensures TotalArea(PolygonsOf(RecordsWith(l, |l.selected|, momentsOf).value)) == SelectedArea(l, wFix, hFix, |l.selected|)
  {
    var n := |l.selected|;
    var weight := (i: nat) => if i < n then FixtureWeight(l, wFix, hFix, i) else 0.0;
    forall i, p | 0 <= i < n && l.selected[i] == 1 && DescribesFixture(l, i, p)
      ensures AreaOf(p) == weight(i)
    {
      TableWeight(l, wFix, hFix, i);
    }
    DescriptorSum(l, n, momentsOf, AreaOf, weight);
    SelectedSumOfWeights(l, wFix, hFix, n, weight);
  }

  /** The display's first moment of fixture i along coords (zero past the end of the layout). */
  function MomentAt(l: Layout, wFix: map<int, real>, hFix: map<int, real>, coords: seq<real>, i: nat): real
    requires l.WellFormed() && |coords| == |l.selected|
  {
    if i < |l.selected| then FixtureWeight(l, wFix, hFix, i) * coords[i] else 0.0
  }

  /** A descriptor of a selected fixture contributes the display's first moments of that fixture. */
  lemma DescribedMoments(l: Layout, wFix: map<int, real>, hFix: map<int, real>, i: nat, p: Polygon)
    requires l.WellFormed() && i < |l.selected| && l.selected[i] == 1 && TablesMatch(wFix, hFix)
    requires l.types[i] in wFix && l.types[i] in hFix && DescribesFixture(l, i, p)
    ensures WeightedX(p) == MomentAt(l, wFix, hFix, l.centersX, i)
    ensures WeightedY(p) == MomentAt(l, wFix, hFix, l.centersY, i)
  {
    TableWeight(l, wFix, hFix, i);
  }

  /** The engine's first moment about the y axis over the descriptors is the display's selected moment. */
  lemma DescriptorMomentX(l: Layout, wFix: map<int, real>, hFix: map<int, real>, momentsOf: seq<Point> -> Moments)
    requires l.WellFormed() && TablesMatch(wFix, hFix) && KeysPresent(l, wFix, hFix, |l.selected|)
    requires KnownTypes(l, |l.selected|)
    ensures Sum(PolygonsOf(RecordsWith(l, |l.selected|, momentsOf).value), WeightedX)
         == SelectedMoment(l, wFix, hFix, l.centersX, |l.selected|)
  {
    var n := |l.selected|;
    var moment := (i: nat) => MomentAt(l, wFix, hFix, l.centersX, i);
    forall i, p | 0 <= i < n && l.selected[i] == 1 && DescribesFixture(l, i, p)
      ensures WeightedX(p) == moment(i)
    {
      DescribedMoments(l, wFix, hFix, i, p);
    }
    DescriptorSum(l, n, momentsOf, WeightedX, moment);
    SelectedSumOfMoments(l, wFix, hFix, l.centersX, n, moment);
  }

  /** The engine's first moment about the x axis over the descriptors is the display's selected moment. */
  lemma DescriptorMomentY(l: Layout, wFix: map<int, real>, hFix: map<int, real>, momentsOf: seq<Point> -> Moments)
    requires l.WellFormed() && TablesMatch(wFix, hFix) && KeysPresent(l, wFix, hFix, |l.selected|)
    requires KnownTypes(l, |l.selected|)
    ensures Sum(PolygonsOf(RecordsWith(l, |l.selected|, momentsOf).value), WeightedY)
         == SelectedMoment(l, wFix, hFix, l.centersY, |l.selected|)
  {
    var n := |l.selected|;
    var moment := (i: nat) => MomentAt(l, wFix, hFix, l.centersY, i);
    forall i, p | 0 <= i < n && l.selected[i] == 1 && DescribesFixture(l, i, p)
      ensures WeightedY(p) == moment(i)
    {
      DescribedMoments(l, wFix, hFix, i, p);
    }
    DescriptorSum(l, n, momentsOf, WeightedY, moment);
    SelectedSumOfMoments(l, wFix, hFix, l.centersY, n, moment);
  }

  /** Feeding the descriptors the display builds to the engine's centre-of-gravity routine gives the
      display's own table-based centre of gravity: both succeed together and then agree. Only the
      kind of error for a zero total area differs. */
  lemma CenterOfGravityAgreesWithEngine(l: Layout)
    requires l.WellFormed() && KeysPresent(l, WidthTable, HeightTable, |l.selected|)
    ensures FixtureRecords(l, |l.selected|).Ok?
    ensures var engine := OverallCenterOfGravity(PolygonsOf(FixtureRecords(l, |l.selected|).value));
            var display := LayoutCenterOfGravity(l, WidthTable, HeightTable);
            (engine.Ok? <==> display.Ok?) && (engine.Ok? ==> engine == display)
  {
    SourceTablesMatch();
    TableKeysAreKnownTypes(l);
    DescriptorArea(l, WidthTable, HeightTable, AbsoluteMomentsOf);
    DescriptorMomentX(l, WidthTable, HeightTable, AbsoluteMomentsOf);
    DescriptorMomentY(l, WidthTable, HeightTable, AbsoluteMomentsOf);
  }

  /** A fixture whose centre is the middle of its cup is described exactly as its box. */
  lemma CentredFixtureDescriptor(l: Layout, i: nat)
    requires l.WellFormed() && i < |l.selected|
    requires l.types[i] == 1 || l.types[i] == 2
    requires l.centersX[i] == l.x[i] + WidthTable[l.types[i]] / 2.0
    requires l.centersY[i] == l.y[i] + HeightTable[l.types[i]] / 2.0
    ensures var w, h, t := WidthTable[l.types[i]], HeightTable[l.types[i]], l.types[i];
            FixtureRecordOf(l, i, Displayer.CreateFixture(t, l.x[i], l.y[i]).value, AbsoluteMomentsOf).polygon
            == Fixtures.CupDescriptor(l.x[i], l.y[i], w, h)
  {
    var t, a, b := l.types[i], l.x[i], l.y[i];
    var w, h := WidthTable[t], HeightTable[t];
    CreateFixtureAgrees(t, a, b);
    var contour := Displayer.CreateFixture(t, a, b).value;
    if t == 1 {
      Fixtures.SquareCupArea(a, b);
    } else {
      Fixtures.RectangleCupArea(a, b);
    }
    assert Fixtures.Zip(contour) == Fixtures.CupCorners(a, b, w, h);
    HardCodedAreaIsTableArea(t);
  }

  /** A fixture whose centre is the middle of its cup gets the centroidal moments of its box:
      w h^3 / 12 and h w^3 / 12, and (|P| - P) / 4 with P = w h (2x + w)(2y + h) for the product. */
  lemma CentredFixtureMoments(l: Layout, i: nat)
    requires l.WellFormed() && i < |l.selected|
    requires l.types[i] == 1 || l.types[i] == 2
    requires l.centersX[i] == l.x[i] + WidthTable[l.types[i]] / 2.0
    requires l.centersY[i] == l.y[i] + HeightTable[l.types[i]] / 2.0
    ensures FixtureRecordOf(l, i, Displayer.CreateFixture(l.types[i], l.x[i], l.y[i]).value, AbsoluteMomentsOf).baricentric
         == Fixtures.BoxCentroidalMoments(l.x[i], l.y[i], WidthTable[l.types[i]], HeightTable[l.types[i]])
  {
    CentredFixtureDescriptor(l, i);
    Fixtures.CupCentroidalMoments(l.x[i], l.y[i], WidthTable[l.types[i]], HeightTable[l.types[i]]);
  }
}
