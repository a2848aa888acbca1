/** The sound-speed part of the acoustic toolbox input: the deepest profile for the .env file and
    the range-dependent grid for the .ssp file. */
module SspGrid {
  import opened Common
  import opened SoundSpeed

  datatype Column = Column(bathymetry: real, samples: seq<Sample>, coef: seq<real>)

  datatype Point = Point(depth: real, speed: real)

  /** env and ssp are the lines of the two files; DifferentDepths is the exception thrown, and
      OutOfBounds a read past the depths of the deepest column. */
  datatype Output = Files(env: seq<Point>, ssp: seq<seq<real>>) | DifferentDepths | OutOfBounds

  datatype Row = Row(speeds: seq<real>) | BadDepth | TooLong

  /** Conversion to int, towards zero. */
  function Trunc(x: real): int {
    if x >= 0.0 then x.Floor else -(-x).Floor
  }

  // ---------------------------------------------------------------------------------------
  // Profiles: the entries of a std::map from depth to speed, in order
  // ---------------------------------------------------------------------------------------

  predicate Ascending(p: seq<Point>) {
    forall i, j :: 0 <= i < j < |p| ==> p[i].depth < p[j].depth
  }

  function Put(p: seq<Point>, x: Point): (r: seq<Point>)
    ensures |p| <= |r| <= |p| + 1 && |r| > 0
  {
    if p == [] || x.depth < p[0].depth then [x] + p
    else if x.depth == p[0].depth then [x] + p[1..]
    else [p[0]] + Put(p[1..], x)
  }

  function SpeedOf(x: Sample, coef: seq<real>): real {
    Corrected(x, coef, Min(|x.eof|, |coef|))
  }

  /** The speed of a sample without EOFs is its own; each EOF that has a coefficient adds their
      product, and no other counts. */
  lemma {:induction false} SpeedAdds(x: Sample, coef: seq<real>, j: nat, v: real)
    requires j < |x.eof|
    ensures SpeedOf(x.(eof := x.eof[j := v]), coef) - SpeedOf(x, coef)
         == if j < |coef| then (v - x.eof[j]) * coef[j] else 0.0
    ensures (forall k :: 0 <= k < |x.eof| ==> x.eof[k] == 0.0) ==> SpeedOf(x, coef) == x.cp
    ensures SpeedOf(Sample(x.depth, x.cp, []), coef) == x.cp
  {
    CorrectedAdds(x, coef, Min(|x.eof|, |coef|), j, v);
  }

  function Profile(samples: seq<Sample>, coef: seq<real>): (p: seq<Point>)
    ensures |p| <= |samples| && (samples != [] ==> p != [])
  {
    if samples == [] then []
    else
      var x := samples[|samples| - 1];
      Put(Profile(samples[..|samples| - 1], coef), Point(x.depth, SpeedOf(x, coef)))
  }

  lemma {:induction false} PutMembers(p: seq<Point>, x: Point, y: Point)
    requires Ascending(p)
    ensures y in Put(p, x) <==> y == x || (y in p && y.depth != x.depth)
  {
    if p != [] && x.depth >= p[0].depth {
      assert p == [p[0]] + p[1..];
      if x.depth > p[0].depth {
        PutMembers(p[1..], x, y);
      }
    }
  }

  lemma {:induction false} AscendingCons(x: Point, p: seq<Point>)
    requires Ascending(p) && forall y <- p :: x.depth < y.depth
    ensures Ascending([x] + p)
  {
  }

  lemma {:induction false} PutKeepsOrder(p: seq<Point>, x: Point)
    requires Ascending(p)
    ensures Ascending(Put(p, x)) && forall y :: y in Put(p, x) <==> y == x || (y in p && y.depth != x.depth)
  {
    forall y ensures y in Put(p, x) <==> y == x || (y in p && y.depth != x.depth) {
      PutMembers(p, x, y);
    }
    if p == [] || x.depth < p[0].depth {
      AscendingCons(x, p);
    } else if x.depth == p[0].depth {
      AscendingCons(x, p[1..]);
    } else {
      PutKeepsOrder(p[1..], x);
      AscendingCons(p[0], Put(p[1..], x));
    }
  }

  lemma {:induction false} PutGrows(p: seq<Point>, x: Point)
    requires forall y <- p :: y.depth != x.depth
    ensures |Put(p, x)| == |p| + 1
  {
    if p != [] && x.depth > p[0].depth {
      PutGrows(p[1..], x);
    }
  }

  /** The last sample at a depth. */
  function LastAt(samples: seq<Sample>, d: real): Option<Sample> {
    if samples == [] then None
    else if samples[|samples| - 1].depth == d then Some(samples[|samples| - 1])
    else LastAt(samples[..|samples| - 1], d)
  }

  /** A profile has one point for each depth of the column, in ascending order, with the corrected
      speed of the last sample there. */
  lemma {:induction false} ProfileMeans(samples: seq<Sample>, coef: seq<real>)
    ensures Ascending(Profile(samples, coef))
    ensures forall y :: y in Profile(samples, coef) <==>
      LastAt(samples, y.depth).Some? && y.speed == SpeedOf(LastAt(samples, y.depth).value, coef)
    ensures Distinct(samples) ==> |Profile(samples, coef)| == |samples|
    decreases |samples|
  {
    if samples != [] {
      var init, x := samples[..|samples| - 1], samples[|samples| - 1];
      var p, y := Profile(init, coef), Point(x.depth, SpeedOf(x, coef));
      ProfileMeans(init, coef);
      PutKeepsOrder(p, y);
      if Distinct(samples) {
        forall z | z in p ensures z.depth != x.depth {
          LastIsOne(init, z.depth);
        }
        PutGrows(p, y);
      }
    }
  }

  lemma {:induction false} LastIsOne(samples: seq<Sample>, d: real)
    ensures LastAt(samples, d).Some? ==> exists x :: x in samples && x.depth == d
    decreases |samples|
  {
    if samples != [] && samples[|samples| - 1].depth != d {
      LastIsOne(samples[..|samples| - 1], d);
    }
  }

  // ---------------------------------------------------------------------------------------
  // Rows of the grid
  // ---------------------------------------------------------------------------------------

  function Depths(p: seq<Point>): (grid: seq<int>)
    ensures |grid| == |p|
  {
    seq(|p|, i requires 0 <= i < |p| => Trunc(p[i].depth))
  }

  /** All depths but the last agree, to the truncated metre, with those of the grid. */
  ghost predicate SameDepths(p: seq<Point>, grid: seq<int>) {
    forall i :: 0 <= i < |p| - 1 && i < |grid| ==> Trunc(p[i].depth) == grid[i]
  }

  /** The speeds of a profile, its deepest one repeated up to the width. */
  function Extended(p: seq<Point>, width: nat): seq<real>
    requires p != []
  {
    seq(width, i requires 0 <= i < width => if i < |p| then p[i].speed else p[|p| - 1].speed)
  }

  ghost function RowOf(p: seq<Point>, grid: seq<int>, width: nat): (r: Row)
    requires p != []
    ensures r.Row? ==> |r.speeds| == width
  {
    if !SameDepths(p, grid) then BadDepth else if |p| > |grid| then TooLong else Row(Extended(p, width))
  }

  method FillRow(p: seq<Point>, grid: seq<int>, width: nat) returns (r: Row)
    requires p != [] && |grid| <= width
    ensures r == RowOf(p, grid, width)
  {
    var row := seq(width, _ => p[|p| - 1].speed);
    var i := 0;
    while i < |p|
      invariant 0 <= i <= |p| && i <= |grid| && |row| == width
      invariant forall j :: 0 <= j < i && j < |p| - 1 ==> Trunc(p[j].depth) == grid[j]
      invariant forall j :: 0 <= j < width ==> row[j] == if j < i then p[j].speed else p[|p| - 1].speed
    {
      if i >= |grid| {
        return TooLong;
      }
      if Trunc(p[i].depth) != grid[i] && i != |p| - 1 {
        return BadDepth;
      }
      row := row[i := p[i].speed];
      i := i + 1;
    }
    assert row == Extended(p, width);
    return Row(row);
  }

  method BuildProfile(column: Column) returns (p: seq<Point>)
    ensures p == Profile(column.samples, column.coef)
  {
    p := [];
    var i := 0;
    while i < |column.samples|
      invariant i <= |column.samples| && p == Profile(column.samples[..i], column.coef)
    {
      var x := column.samples[i];
      var m := Min(|x.eof|, |column.coef|);
      var speed, j := x.cp, 0;
      while j < m
        invariant j <= m && speed == Corrected(x, column.coef, j)
      {
        speed, j := speed + x.eof[j] * column.coef[j], j + 1;
      }
      p := Put(p, Point(x.depth, speed));
      assert column.samples[..i + 1][..i] == column.samples[..i];
      i := i + 1;
    }
    assert column.samples[..i] == column.samples;
  }

  /** The first column of greatest depth, the first of all if none is below the surface. */
  ghost predicate IsDeepest(columns: seq<Column>, k: nat) {
    && k < |columns|
    && (forall j :: 0 <= j < |columns| ==>
         columns[j].bathymetry <= columns[k].bathymetry || columns[j].bathymetry <= 0.0)
    && (forall j :: 0 <= j < k ==> columns[j].bathymetry < columns[k].bathymetry)
    && (k > 0 ==> columns[k].bathymetry > 0.0)
  }

  method Deepest(columns: seq<Column>) returns (k: nat)
    requires columns != []
    ensures IsDeepest(columns, k) && forall l: nat :: IsDeepest(columns, l) ==> l == k
  {
    k := 0;
    var max, j := 0.0, 0;
    while j < |columns|
      invariant j <= |columns| && k < |columns| && (k == 0 || k < j)
      invariant max == (if k < j && columns[k].bathymetry > 0.0 then columns[k].bathymetry else 0.0)
      invariant forall i :: 0 <= i < j ==> columns[i].bathymetry <= max
      invariant forall i :: 0 <= i < k ==> columns[i].bathymetry < columns[k].bathymetry
      invariant k > 0 ==> columns[k].bathymetry > 0.0
    {
      if columns[j].bathymetry > max {
        max, k := columns[j].bathymetry, j;
      }
      j := j + 1;
    }
    forall l: nat | IsDeepest(columns, l) ensures l == k {
      DeepestIsUnique(columns, k, l);
    }
  }

  lemma {:induction false} DeepestWithin(columns: seq<Column>, k: nat)
    requires IsDeepest(columns, k)
    ensures k < |columns|
  {
  }

  lemma {:induction false} DeepestIsUnique(columns: seq<Column>, k: nat, l: nat)
    requires IsDeepest(columns, k) && IsDeepest(columns, l)
    ensures k == l
  {
  }

  // ---------------------------------------------------------------------------------------
  // The two files
  // ---------------------------------------------------------------------------------------

  ghost function GridRow(columns: seq<Column>, deepest: nat, k: nat): Row
    requires k < |columns| && deepest < |columns| && columns[k].samples != []
  {
    RowOf(Profile(columns[k].samples, columns[k].coef),
          Depths(Profile(columns[deepest].samples, columns[deepest].coef)), |columns[deepest].samples|)
  }

  /** Line i of the .ssp file holds the speed of every column at grid depth i. */
  ghost predicate Transposed(ssp: seq<seq<real>>, columns: seq<Column>, deepest: nat, k: nat)
    requires k < |columns| && deepest < |columns| && columns[k].samples != []
  {
    && |ssp| == |columns[deepest].samples|
    && GridRow(columns, deepest, k).Row?
    && |GridRow(columns, deepest, k).speeds| == |ssp|
    && forall i :: 0 <= i < |ssp| ==> |ssp[i]| == |columns| && ssp[i][k] == GridRow(columns, deepest, k).speeds[i]
  }

  type Columns = cs: seq<Column> | forall c <- cs :: c.samples != []

  /** The first column without a row decides between the exception and the bad read. */
  ghost predicate FirstBad(columns: Columns, deepest: nat, k: nat, row: Row) {
    && k < |columns| && deepest < |columns| && GridRow(columns, deepest, k) == row
    && forall j :: 0 <= j < k ==> GridRow(columns, deepest, j).Row?
  }

  method OutputEnv(columns: Columns) returns (deepest: nat, r: Output)
    requires columns != []
    ensures IsDeepest(columns, deepest)
    ensures match r
      case Files(env, ssp) =>
        && env == Profile(columns[deepest].samples, columns[deepest].coef)
        && if |columns| == 1 then ssp == [] else forall k :: 0 <= k < |columns| ==> Transposed(ssp, columns, deepest, k)
      case DifferentDepths => |columns| > 1 && exists k :: FirstBad(columns, deepest, k, BadDepth)
      case OutOfBounds => |columns| > 1 && exists k :: FirstBad(columns, deepest, k, TooLong)
    ensures |columns| > 1 && Regular(columns, deepest) ==>
      r != Output.OutOfBounds && (r == DifferentDepths <==> exists k, i :: Deviates(columns, deepest, k, i))
  {
    hide RowOf, Profile, Depths, Extended, IsDeepest;
    deepest := Deepest(columns);
    assert deepest < |columns| by { DeepestWithin(columns, deepest); }
    var env := BuildProfile(columns[deepest]);
    if |columns| == 1 {
      return deepest, Files(env, []);
    }
    if Regular(columns, deepest) {
      ThrowsIff(columns, deepest);
    }
    var grid, width := Depths(env), |columns[deepest].samples|;
    var rows: seq<seq<real>> := [];
    var k := 0;
    while k < |columns|
      invariant k <= |columns| && |rows| == k
      invariant forall j :: 0 <= j < k ==> GridRow(columns, deepest, j) == Row(rows[j])
    {
      var p := BuildProfile(columns[k]);
      var row := FillRow(p, grid, width);
      assert row == GridRow(columns, deepest, k);
      if row.BadDepth? {
        assert FirstBad(columns, deepest, k, BadDepth);
        return deepest, DifferentDepths;
      } else if row.TooLong? {
        assert FirstBad(columns, deepest, k, TooLong);
        return deepest, Output.OutOfBounds;
      }
      rows := rows + [row.speeds];
      k := k + 1;
    }
    var ssp := WriteLines(rows, width);
    return deepest, Files(env, ssp);
  }

  method WriteLines(rows: seq<seq<real>>, width: nat) returns (ssp: seq<seq<real>>)
    requires forall k :: 0 <= k < |rows| ==> |rows[k]| == width
    ensures |ssp| == width
    ensures forall i :: 0 <= i < width ==> |ssp[i]| == |rows| && forall k :: 0 <= k < |rows| ==> ssp[i][k] == rows[k][i]
  {
    ssp := [];
    var i := 0;
    while i < width
      invariant i <= width && |ssp| == i
      invariant forall j :: 0 <= j < i ==> |ssp[j]| == |rows| && forall k :: 0 <= k < |rows| ==> ssp[j][k] == rows[k][j]
    {
      var line: seq<real> := [];
      var k := 0;
      while k < |rows|
        invariant k <= |rows| && |line| == k
        invariant forall l :: 0 <= l < k ==> line[l] == rows[l][i]
      {
        line := line + [rows[k][i]];
        k := k + 1;
      }
      ssp := ssp + [line];
      i := i + 1;
    }
  }

  // ---------------------------------------------------------------------------------------
  // When there is a grid, and what it holds
  // ---------------------------------------------------------------------------------------

  /** No column has more samples than the deepest one, and no column has a depth twice. */
  ghost predicate Regular(columns: Columns, deepest: nat) {
    && deepest < |columns|
    && (forall k :: 0 <= k < |columns| ==> Distinct(columns[k].samples))
    && (forall k :: 0 <= k < |columns| ==> |columns[k].samples| <= |columns[deepest].samples|)
  }

  function DepthsOf(column: Column): seq<int> {
    Depths(Profile(column.samples, column.coef))
  }

  /** Some depth of a column, other than its last, is not the one of the deepest column there. */
  ghost predicate Deviates(columns: Columns, deepest: nat, k: nat, i: nat) {
    && k < |columns| && deepest < |columns|
    && i < |DepthsOf(columns[k])| - 1 && i < |DepthsOf(columns[deepest])|
    && DepthsOf(columns[k])[i] != DepthsOf(columns[deepest])[i]
  }

  /** Regular columns are never read out of bounds, so that the exception is thrown exactly if
      some column deviates. */
  lemma {:induction false} ThrowsIff(columns: Columns, deepest: nat)
    requires Regular(columns, deepest)
    ensures !exists k :: FirstBad(columns, deepest, k, TooLong)
    ensures (exists k :: FirstBad(columns, deepest, k, BadDepth)) <==> exists k, i :: Deviates(columns, deepest, k, i)
  {
    forall k | 0 <= k < |columns| ensures GridRow(columns, deepest, k) != TooLong {
      ProfileMeans(columns[k].samples, columns[k].coef);
      ProfileMeans(columns[deepest].samples, columns[deepest].coef);
    }
    if k: nat, i: nat :| Deviates(columns, deepest, k, i) {
      DeviatingIsBad(columns, deepest, k, i);
      var l := FirstBadFrom(columns, deepest, k);
      assert FirstBad(columns, deepest, l, BadDepth);
    }
    if k: nat :| FirstBad(columns, deepest, k, BadDepth) {
      BadDeviates(columns, deepest, k);
    }
  }

  lemma {:induction false} DeviatingIsBad(columns: Columns, deepest: nat, k: nat, i: nat)
    requires Deviates(columns, deepest, k, i)
    ensures k < |columns| && deepest < |columns| && GridRow(columns, deepest, k) == BadDepth
  {
    var p := Profile(columns[k].samples, columns[k].coef);
    assert Depths(p)[i] == Trunc(p[i].depth);
  }

  lemma {:induction false} BadDeviates(columns: Columns, deepest: nat, k: nat)
    requires k < |columns| && deepest < |columns| && GridRow(columns, deepest, k) == BadDepth
    ensures exists i: nat :: Deviates(columns, deepest, k, i)
  {
    var p, grid := Profile(columns[k].samples, columns[k].coef), DepthsOf(columns[deepest]);
    var i: nat :| i < |p| - 1 && i < |grid| && Trunc(p[i].depth) != grid[i];
    assert Deviates(columns, deepest, k, i);
  }

  lemma {:induction false} FirstBadFrom(columns: Columns, deepest: nat, k: nat) returns (l: nat)
    requires k < |columns| && deepest < |columns| && !GridRow(columns, deepest, k).Row?
    ensures l <= k && !GridRow(columns, deepest, l).Row? && FirstBad(columns, deepest, l, GridRow(columns, deepest, l))
  {
    hide RowOf, Profile, Depths;
    if j: nat :| j < k && !GridRow(columns, deepest, j).Row? {
      l := FirstBadFrom(columns, deepest, j);
    } else {
      l := k;
    }
  }

  lemma {:induction false} TruncGap(x: real, y: real)
    requires Trunc(x) == Trunc(y)
    ensures -1.0 < x - y < 1.0 || (-1.0 < x < 1.0 && -1.0 < y < 1.0)
  {
  }

  /** The deepest column itself always fits, and its row is the speeds of the .env file; the grid
      has one line for each of its depths. */
  lemma {:induction false} DeepestColumnFits(columns: Columns, deepest: nat)
    requires deepest < |columns| && Distinct(columns[deepest].samples)
    ensures var p := Profile(columns[deepest].samples, columns[deepest].coef);
      |p| == |columns[deepest].samples|
      && GridRow(columns, deepest, deepest) == Row(seq(|p|, i requires 0 <= i < |p| => p[i].speed))
  {
    ProfileMeans(columns[deepest].samples, columns[deepest].coef);
    var p := Profile(columns[deepest].samples, columns[deepest].coef);
    assert Extended(p, |p|) == seq(|p|, i requires 0 <= i < |p| => p[i].speed);
  }

  /** Where a column has a row, its entry for a grid depth is its own speed at a depth less than a
      metre away (or both within a metre of the surface), down to its last sample but one. */
  lemma {:induction false} RowsAreWithinAMetre(columns: Columns, deepest: nat, k: nat, i: nat)
    requires k < |columns| && deepest < |columns| && GridRow(columns, deepest, k).Row?
    requires i < |Profile(columns[k].samples, columns[k].coef)| - 1
    ensures var p := Profile(columns[k].samples, columns[k].coef);
      var env := Profile(columns[deepest].samples, columns[deepest].coef);
      var x := p[i];
      && i < |env| && GridRow(columns, deepest, k).speeds[i] == x.speed
      && (-1.0 < x.depth - env[i].depth < 1.0 || (-1.0 < x.depth < 1.0 && -1.0 < env[i].depth < 1.0))
      && LastAt(columns[k].samples, x.depth).Some?
      && x.speed == SpeedOf(LastAt(columns[k].samples, x.depth).value, columns[k].coef)
  {
    var p := Profile(columns[k].samples, columns[k].coef);
    var env := Profile(columns[deepest].samples, columns[deepest].coef);
    assert Trunc(p[i].depth) == Depths(env)[i] == Trunc(env[i].depth);
    TruncGap(p[i].depth, env[i].depth);
    ProfileMeans(columns[k].samples, columns[k].coef);
    assert p[i] in p;
  }

  /** Two columns with different depths that get a grid: 10.0 and 10.9 metres count as the same
      depth, and the last depth of a column is not compared. */
  lemma {:induction false} DifferentDepthsGetAGrid(c1: real, c2: real, c3: real, c4: real)
    ensures var shallow := Column(15.0, [Sample(10.9, c3, []), Sample(14.0, c4, [])], []);
      var deep := Column(20.0, [Sample(10.0, c1, []), Sample(20.0, c2, [])], []);
      IsDeepest([shallow, deep], 1) && GridRow([shallow, deep], 1, 0) == Row([c3, c4])
  {
    var shallow := Column(15.0, [Sample(10.9, c3, []), Sample(14.0, c4, [])], []);
    var deep := Column(20.0, [Sample(10.0, c1, []), Sample(20.0, c2, [])], []);
    TwoPoints(Sample(10.9, c3, []), Sample(14.0, c4, []));
    TwoPoints(Sample(10.0, c1, []), Sample(20.0, c2, []));
    var p := [Point(10.9, c3), Point(14.0, c4)];
    var env := [Point(10.0, c1), Point(20.0, c2)];
    assert (10.9 as real).Floor == 10 && (10.0 as real).Floor == 10;
    assert Trunc(p[0].depth) == Depths(env)[0] == 10;
    assert Extended(p, 2) == [c3, c4];
  }

  lemma {:induction false} TwoPoints(x: Sample, y: Sample)
    requires x.depth < y.depth && x.eof == [] && y.eof == []
    ensures Profile([x, y], []) == [Point(x.depth, x.cp), Point(y.depth, y.cp)]
  {
    assert [x, y][..1] == [x] && [x][..0] == [];
    var a, b := Point(x.depth, x.cp), Point(y.depth, y.cp);
    assert SpeedOf(x, []) == x.cp && SpeedOf(y, []) == y.cp;
    assert [a][1..] == [] && Put([], a) == [a] && Put([], b) == [b];
    assert Profile([x], []) == Put(Profile([], []), a) == [a];
    assert Profile([x, y], []) == Put([a], b) == [a] + Put([], b);
  }

  /** The row of a column holds its speeds in the order of their depths, and its deepest speed from
      there to the width of the grid. */
  lemma {:induction false} RowEndsInDeepestSpeed(columns: Columns, deepest: nat, k: nat, i: nat)
    requires k < |columns| && deepest < |columns| && GridRow(columns, deepest, k).Row?
    requires i < |columns[deepest].samples|
    ensures var p := Profile(columns[k].samples, columns[k].coef); var row := GridRow(columns, deepest, k).speeds;
      && |row| == |columns[deepest].samples| && p != []
      && (i < |p| ==> row[i] == p[i].speed) && (i >= |p| ==> row[i] == p[|p| - 1].speed)
  {
    hide Profile;
  }

  /** The conversion to int drops the fraction, towards zero. */
  lemma {:induction false} TruncDropsFraction(x: real, n: int)
    ensures x >= 0.0 ==> (Trunc(x) == n <==> n as real <= x < n as real + 1.0)
    ensures x < 0.0 ==> (Trunc(x) == n <==> n as real - 1.0 < x <= n as real)
  {
  }
}
