/** The sound-speed profile of iBellhop: reported speeds are merged into it by depth, and it is
    read by linear interpolation. */
module SoundSpeed {
  import opened Common

  datatype Option<T> = None | Some(value: T)

  datatype Sample = Sample(depth: real, cp: real, eof: seq<real>)

  /** OutOfBounds: an EOF coefficient is read that the sample does not have.
      NotANumber: zero is divided by zero, between two samples of one depth. */
  datatype Lookup = Speed(value: real) | OutOfBounds | NotANumber

  // ---------------------------------------------------------------------------------------
  // Updates
  // ---------------------------------------------------------------------------------------

  predicate Sorted(s: seq<Sample>) {
    forall i, j :: 0 <= i < j < |s| ==> s[i].depth <= s[j].depth
  }

  predicate Distinct(s: seq<Sample>) {
    forall i, j :: 0 <= i < j < |s| ==> s[i].depth != s[j].depth
  }

  /** The first sample at depth d, or the length of the profile. */
  function Find(s: seq<Sample>, d: real): (i: nat)
    ensures i <= |s| && (i < |s| ==> s[i].depth == d) && forall j :: 0 <= j < i ==> s[j].depth != d
  {
    if s == [] || s[0].depth == d then 0 else 1 + Find(s[1..], d)
  }

  /** A reported speed replaces the sample at its depth, its EOFs set to zero, or is added. */
  function Report(s: seq<Sample>, d: real, c: Option<real>): seq<Sample> {
    var i := Find(s, d);
    if c.None? then s
    else if i < |s| then s[i := Sample(d, c.value, Zeros(|s[i].eof|))]
    else s + [Sample(d, c.value, [])]
  }

  function Reports(s: seq<Sample>, depths: seq<real>, speeds: seq<Option<real>>): seq<Sample>
    requires |depths| == |speeds|
  {
    if depths == [] then s
    else
      var n := |depths| - 1;
      Report(Reports(s, depths[..n], speeds[..n]), depths[n], speeds[n])
  }

  function Insert(x: Sample, s: seq<Sample>): (r: seq<Sample>)
    ensures multiset(r) == multiset(s) + multiset{x}
  {
    if s == [] || x.depth <= s[0].depth then
      assert multiset([x] + s) == multiset{x} + multiset(s);
      [x] + s
    else
      assert s == [s[0]] + s[1..];
      [s[0]] + Insert(x, s[1..])
  }

  function Sort(s: seq<Sample>): (r: seq<Sample>)
    ensures multiset(r) == multiset(s)
  {
    if s == [] then []
    else
      assert s == [s[0]] + s[1..];
      Insert(s[0], Sort(s[1..]))
  }

  function Updated(s: seq<Sample>, depths: seq<real>, speeds: seq<Option<real>>): seq<Sample> {
    if |depths| != |speeds| then s else Sort(Reports(s, depths, speeds))
  }

  // ---------------------------------------------------------------------------------------
  // Lookup
  // ---------------------------------------------------------------------------------------

  /** The speed of a sample with its first m EOFs added, each times its coefficient. */
  function Corrected(x: Sample, coef: seq<real>, m: nat): real
    requires m <= |x.eof| && m <= |coef|
  {
    if m == 0 then x.cp else Corrected(x, coef, m - 1) + x.eof[m - 1] * coef[m - 1]
  }

  function Line(d: real, z0: real, c0: real, z1: real, c1: real): real
    requires z0 != z1
  {
    c0 + (d - z0) * (c1 - c0) / (z1 - z0)
  }

  /** The number of EOFs of the upper sample is used for both. */
  function Interpolate(a: Sample, b: Sample, coef: seq<real>, d: real): Lookup {
    var m := Min(|a.eof|, |coef|);
    if m > |b.eof| then OutOfBounds
    else if a.depth == b.depth then NotANumber
    else Speed(Line(d, a.depth, Corrected(a, coef, m), b.depth, Corrected(b, coef, m)))
  }

  predicate Brackets(s: seq<Sample>, d: real, i: nat) {
    i + 1 < |s| && s[i].depth <= d <= s[i + 1].depth
  }

  function LookUp(s: seq<Sample>, coef: seq<real>, d: real): Lookup {
    if |s| < 2 then Speed(0.0)
    else if Brackets(s, d, 0) then Interpolate(s[0], s[1], coef, d)
    else LookUp(s[1..], coef, d)
  }

  // ---------------------------------------------------------------------------------------
  // The object
  // ---------------------------------------------------------------------------------------

  class Bellhop {
    var samples: seq<Sample>
    const coef: seq<real>

    constructor (samples: seq<Sample>, coef: seq<real>)
      ensures this.samples == samples && this.coef == coef
    {
      this.samples, this.coef := samples, coef;
    }

    method HandleSspUpdate(depths: seq<real>, speeds: seq<Option<real>>)
      modifies this
      ensures samples == Updated(old(samples), depths, speeds)
    {
      if |depths| != |speeds| {
        return;
      }
      var n := 0;
      while n < |depths|
        invariant n <= |depths| && samples == Reports(old(samples), depths[..n], speeds[..n])
      {
        assert depths[..n + 1][..n] == depths[..n] && speeds[..n + 1][..n] == speeds[..n];
        if speeds[n].Some? {
          var i := FindSample(depths[n]);
          var eof := samples[i].eof;
          var j := 0;
          while j < |eof|
            invariant |eof| == |samples[i].eof| && j <= |eof|
            invariant forall k :: 0 <= k < j ==> eof[k] == 0.0
          {
            eof := eof[j := 0.0];
            j := j + 1;
          }
          assert eof == Zeros(|eof|);
          samples := samples[i := Sample(depths[n], speeds[n].value, eof)];
        }
        n := n + 1;
      }
      assert depths[..n] == depths && speeds[..n] == speeds;
      samples := Sort(samples);
    }

    /** The sample at this depth, a new one if there is none. */
    method FindSample(depth: real) returns (i: nat)
      modifies this
      ensures i == Find(old(samples), depth) && i < |samples|
      ensures samples == old(samples) + if i < |old(samples)| then [] else [Sample(0.0, 0.0, [])]
    {
      i := 0;
      while i < |samples|
        invariant i <= |samples| && samples == old(samples)
        invariant Find(samples, depth) == i + Find(samples[i..], depth)
      {
        if samples[i].depth == depth {
          return;
        }
        i := i + 1;
      }
      samples := samples + [Sample(0.0, 0.0, [])];
    }

    method GetSspValue(depth: real) returns (r: Lookup)
      ensures r == LookUp(samples, coef, depth)
    {
      var i := 0;
      while i + 1 < |samples|
        invariant i <= |samples|
        invariant LookUp(samples[i..], coef, depth) == LookUp(samples, coef, depth)
      {
        if samples[i].depth <= depth <= samples[i + 1].depth {
          var a, b := samples[i], samples[i + 1];
          var m := Min(|a.eof|, |coef|);
          if m > |b.eof| {
            return OutOfBounds;
          }
          var up, down, j := a.cp, b.cp, 0;
          while j < m
            invariant j <= m && up == Corrected(a, coef, j) && down == Corrected(b, coef, j)
          {
            up, down, j := up + a.eof[j] * coef[j], down + b.eof[j] * coef[j], j + 1;
          }
          if a.depth == b.depth {
            return NotANumber;
          }
          return Speed(Line(depth, a.depth, up, b.depth, down));
        }
        i := i + 1;
      }
      return Speed(0.0);
    }
  }

  // ---------------------------------------------------------------------------------------
  // What an update does to the profile
  // ---------------------------------------------------------------------------------------

  lemma {:induction false} InsertMembers(x: Sample, s: seq<Sample>, y: Sample)
    ensures y in Insert(x, s) <==> y == x || y in s
  {
    assert y in Insert(x, s) <==> multiset(Insert(x, s))[y] > 0;
    assert y in s <==> multiset(s)[y] > 0;
  }

  lemma {:induction false} ConsOrder(x: Sample, s: seq<Sample>)
    requires Sorted(s) && forall y <- s :: x.depth <= y.depth
    ensures Sorted([x] + s) && (Distinct(s) && (forall y <- s :: x.depth != y.depth) ==> Distinct([x] + s))
  {
  }

  lemma {:induction false} InsertKeepsOrder(x: Sample, s: seq<Sample>)
    requires Sorted(s)
    ensures Sorted(Insert(x, s))
    ensures Distinct(s) && (forall y <- s :: y.depth != x.depth) ==> Distinct(Insert(x, s))
  {
    if s == [] || x.depth <= s[0].depth {
      ConsOrder(x, s);
    } else {
      InsertKeepsOrder(x, s[1..]);
      forall y ensures y in Insert(x, s[1..]) <==> y == x || y in s[1..] {
        InsertMembers(x, s[1..], y);
      }
      assert forall y <- s[1..] :: s[0].depth <= y.depth && (Distinct(s) ==> s[0].depth != y.depth);
      ConsOrder(s[0], Insert(x, s[1..]));
    }
  }

  /** Sorting orders by depth and keeps distinct depths distinct. */
  lemma {:induction false} SortSorts(s: seq<Sample>)
    ensures Sorted(Sort(s)) && (Distinct(s) ==> Distinct(Sort(s)))
  {
    if s != [] {
      SortSorts(s[1..]);
      SameMembers(Sort(s[1..]), s[1..]);
      InsertKeepsOrder(s[0], Sort(s[1..]));
    }
  }

  lemma {:induction false} SameMembers(s: seq<Sample>, t: seq<Sample>)
    requires multiset(s) == multiset(t)
    ensures forall x :: x in s <==> x in t
  {
    forall x ensures x in s <==> x in t {
      assert x in s <==> multiset(s)[x] > 0;
      assert x in t <==> multiset(t)[x] > 0;
    }
  }

  lemma {:induction false} TailMultiset(s: seq<Sample>)
    requires s != []
    ensures multiset(s[1..]) == multiset(s) - multiset{s[0]}
  {
    assert s == [s[0]] + s[1..];
  }

  lemma {:induction false} SameHead(s: seq<Sample>, t: seq<Sample>)
    requires Sorted(s) && Sorted(t) && Distinct(t) && multiset(s) == multiset(t) && s != []
    ensures t != [] && s[0] == t[0]
  {
    SameMembers(s, t);
    assert s[0] in t;
    assert t[0] in s;
  }

  lemma {:induction false} SameSorted(s: seq<Sample>, t: seq<Sample>)
    requires Sorted(s) && Sorted(t) && Distinct(t) && multiset(s) == multiset(t)
    ensures s == t
  {
    if s != [] {
      SameHead(s, t);
      TailMultiset(s);
      TailMultiset(t);
      SameSorted(s[1..], t[1..]);
      assert s == [s[0]] + s[1..] && t == [t[0]] + t[1..];
    } else {
      assert |multiset(t)| == 0;
    }
  }

  /** For distinct depths it does not matter which sorting algorithm is used. */
  lemma {:induction false} SortIsUnique(s: seq<Sample>, t: seq<Sample>)
    requires Distinct(s) && Sorted(t) && multiset(t) == multiset(s)
    ensures t == Sort(s)
  {
    SortSorts(s);
    SameSorted(t, Sort(s));
  }

  /** The sample of a profile at a depth. */
  ghost predicate IsAt(s: seq<Sample>, x: Sample, d: real) {
    x in s && x.depth == d
  }

  lemma {:induction false} ReportsKeepDistinct(s: seq<Sample>, depths: seq<real>, speeds: seq<Option<real>>)
    requires |depths| == |speeds| && Distinct(s)
    ensures Distinct(Reports(s, depths, speeds))
    decreases |depths|
  {
    if depths != [] {
      ReportsKeepDistinct(s, depths[..|depths| - 1], speeds[..|depths| - 1]);
    }
  }

  /** Depths stay distinct, and every accepted update leaves them in ascending order. */
  lemma {:induction false} UpdateKeepsProfile(s: seq<Sample>, depths: seq<real>, speeds: seq<Option<real>>)
    ensures Distinct(s) ==> Distinct(Updated(s, depths, speeds))
    ensures |depths| == |speeds| || Sorted(s) ==> Sorted(Updated(s, depths, speeds))
  {
    if |depths| == |speeds| {
      SortSorts(Reports(s, depths, speeds));
      if Distinct(s) {
        ReportsKeepDistinct(s, depths, speeds);
      }
    }
  }

  /** The last speed reported for depth d. */
  function LastReport(depths: seq<real>, speeds: seq<Option<real>>, d: real): Option<real>
    requires |depths| == |speeds|
  {
    if depths == [] then None
    else
      var n := |depths| - 1;
      if depths[n] == d && speeds[n].Some? then speeds[n] else LastReport(depths[..n], speeds[..n], d)
  }

  /** What depth d should hold: its old sample, or the last report with no EOF correction left. */
  ghost predicate Expected(s: seq<Sample>, report: Option<real>, x: Sample, d: real) {
    match report
    case None => IsAt(s, x, d)
    case Some(c) => x.depth == d && x.cp == c && forall e <- x.eof :: e == 0.0
  }

  ghost predicate Holds(s: seq<Sample>, d: real) {
    exists x :: IsAt(s, x, d)
  }

  lemma {:induction false} ReportAt(s: seq<Sample>, d: real, c: Option<real>, e: real, x: Sample)
    requires Distinct(s)
    ensures c.None? || d != e ==> (IsAt(Report(s, d, c), x, e) <==> IsAt(s, x, e))
    ensures c.Some? && IsAt(Report(s, d, c), x, d) ==> Expected(s, c, x, d)
    ensures c.Some? ==> IsAt(Report(s, d, c), Report(s, d, c)[Find(s, d)], d)
  {
    var t, i := Report(s, d, c), Find(s, d);
    if c.Some? {
      assert t[i].depth == d;
      forall j | 0 <= j < |s| && j != i ensures t[j] == s[j] && s[j].depth != d {
      }
    }
  }

  lemma {:induction false} ReportsAt(s: seq<Sample>, depths: seq<real>, speeds: seq<Option<real>>, d: real, x: Sample)
    requires |depths| == |speeds| && Distinct(s)
    ensures IsAt(Reports(s, depths, speeds), x, d) ==> Expected(s, LastReport(depths, speeds, d), x, d)
    ensures LastReport(depths, speeds, d).None? && IsAt(s, x, d) ==> IsAt(Reports(s, depths, speeds), x, d)
    ensures LastReport(depths, speeds, d).Some? ==> Holds(Reports(s, depths, speeds), d)
    decreases |depths|
  {
    if depths != [] {
      var n := |depths| - 1;
      var t := Reports(s, depths[..n], speeds[..n]);
      ReportsKeepDistinct(s, depths[..n], speeds[..n]);
      ReportsAt(s, depths[..n], speeds[..n], d, x);
      ReportAt(t, depths[n], speeds[n], d, x);
      if !(depths[n] == d && speeds[n].Some?) && LastReport(depths, speeds, d).Some? {
        var y :| IsAt(t, y, d);
        ReportAt(t, depths[n], speeds[n], d, y);
      }
    }
  }

  /** An update changes only the depths it reports, and there the last report wins. */
  lemma {:induction false} OnlyReportedDepthsChange(s: seq<Sample>, depths: seq<real>, speeds: seq<Option<real>>,
                                                    d: real, x: Sample)
    requires |depths| == |speeds| && Distinct(s)
    ensures var t := Updated(s, depths, speeds);
      match LastReport(depths, speeds, d)
      case None => IsAt(t, x, d) <==> IsAt(s, x, d)
      case Some(c) => Holds(t, d) && (IsAt(t, x, d) ==> x.cp == c && forall e <- x.eof :: e == 0.0)
  {
    var r := Reports(s, depths, speeds);
    ReportsAt(s, depths, speeds, d, x);
    SameMembers(Sort(r), r);
    if LastReport(depths, speeds, d).Some? {
      var y :| IsAt(r, y, d);
      assert IsAt(Sort(r), y, d);
    }
  }

  // ---------------------------------------------------------------------------------------
  // What a lookup returns
  // ---------------------------------------------------------------------------------------

  /** The first interval that holds the depth, or the length of the profile. */
  function FirstBracket(s: seq<Sample>, d: real): (i: nat)
    ensures i < |s| ==> Brackets(s, d, i)
    ensures forall j: nat :: j < i ==> !Brackets(s, d, j)
  {
    if |s| < 2 then |s|
    else if Brackets(s, d, 0) then 0
    else
      assert forall j: nat :: j > 0 ==> Brackets(s, d, j) == Brackets(s[1..], d, j - 1);
      1 + FirstBracket(s[1..], d)
  }

  /** Only the first interval that holds the depth counts; without one the answer is zero. */
  lemma {:induction false} LookUpUsesFirstInterval(s: seq<Sample>, coef: seq<real>, d: real)
    ensures var i := FirstBracket(s, d);
      LookUp(s, coef, d) == if i < |s| then Interpolate(s[i], s[i + 1], coef, d) else Speed(0.0)
    decreases |s|
  {
    if |s| >= 2 && !Brackets(s, d, 0) {
      LookUpUsesFirstInterval(s[1..], coef, d);
    }
  }

  lemma {:induction false} Between(d: real, z0: real, c0: real, z1: real, c1: real)
    requires z0 <= d <= z1 && z0 < z1
    ensures c0 <= c1 ==> c0 <= Line(d, z0, c0, z1, c1) <= c1
    ensures c1 <= c0 ==> c1 <= Line(d, z0, c0, z1, c1) <= c0
    ensures Line(z0, z0, c0, z1, c1) == c0 && Line(z1, z0, c0, z1, c1) == c1
  {
    var t, w, u := d - z0, z1 - z0, c1 - c0;
    assert w * u / w == u;
    if u >= 0.0 {
      Scale(t, w, u);
    } else {
      Scale(t, w, -u);
      assert t * u == -(t * -u);
    }
  }

  lemma {:induction false} Scale(t: real, w: real, u: real)
    requires 0.0 <= t <= w && w > 0.0 && u >= 0.0
    ensures 0.0 <= t * u / w <= u
  {
    assert 0.0 <= t * u <= w * u;
    assert w * u / w == u;
  }

  /** A depth is inside the range of a sorted profile exactly if some interval holds it. */
  lemma {:induction false} InRangeIff(s: seq<Sample>, d: real)
    requires Sorted(s) && |s| >= 2
    ensures FirstBracket(s, d) < |s| <==> s[0].depth <= d <= s[|s| - 1].depth
    decreases |s|
  {
    if |s| > 2 && !Brackets(s, d, 0) {
      InRangeIff(s[1..], d);
    } else if !Brackets(s, d, 0) {
      assert FirstBracket(s[1..], d) == 1;
    }
  }

  /** Looking up a depth stays within the bounds of the stored EOFs. */
  ghost predicate ReadsInBounds(s: seq<Sample>, coef: seq<real>, d: real) {
    var i := FirstBracket(s, d);
    i < |s| ==> Min(|s[i].eof|, |coef|) <= |s[i + 1].eof|
  }

  /** In a sorted profile of at least two distinct depths, a depth in range is looked up between
      the speeds of its two neighbours, and one out of range gives zero. */
  lemma {:induction false} LookUpLiesBetween(s: seq<Sample>, coef: seq<real>, d: real)
    requires Sorted(s) && Distinct(s) && |s| >= 2
    ensures LookUp(s, coef, d).Speed? <==> ReadsInBounds(s, coef, d)
    ensures LookUp(s, coef, d) != NotANumber
    ensures !(s[0].depth <= d <= s[|s| - 1].depth) ==> LookUp(s, coef, d) == Speed(0.0)
    ensures s[0].depth <= d <= s[|s| - 1].depth && ReadsInBounds(s, coef, d) ==>
      var i := FirstBracket(s, d);
      Brackets(s, d, i) && (
        var m := Min(|s[i].eof|, |coef|);
        var c0, c1 := Corrected(s[i], coef, m), Corrected(s[i + 1], coef, m);
        var c := LookUp(s, coef, d).value;
        c0 <= c <= c1 || c1 <= c <= c0)
  {
    InRangeIff(s, d);
    LookUpUsesFirstInterval(s, coef, d);
    var i := FirstBracket(s, d);
    if i < |s| && ReadsInBounds(s, coef, d) {
      var m := Min(|s[i].eof|, |coef|);
      Between(d, s[i].depth, Corrected(s[i], coef, m), s[i + 1].depth, Corrected(s[i + 1], coef, m));
    }
  }

  lemma {:induction false} NothingToCorrect(x: Sample, coef: seq<real>, m: nat)
    requires m <= |x.eof| && m <= |coef| && forall e <- x.eof :: e == 0.0
    ensures Corrected(x, coef, m) == x.cp
  {
    if m > 0 {
      NothingToCorrect(x, coef, m - 1);
      assert x.eof[m - 1] in x.eof;
    }
  }

  lemma {:induction false} LookUpAtSample(s: seq<Sample>, coef: seq<real>, x: Sample, d: real)
    requires Sorted(s) && Distinct(s) && |s| >= 2 && IsAt(s, x, d) && forall e <- x.eof :: e == 0.0
    ensures LookUp(s, coef, d) == if ReadsInBounds(s, coef, d) then Speed(x.cp) else OutOfBounds
  {
    var k :| 0 <= k < |s| && s[k] == x;
    LookUpUsesFirstInterval(s, coef, d);
    InRangeIff(s, d);
    var i := FirstBracket(s, d);
    assert i == k || i + 1 == k;
    if ReadsInBounds(s, coef, d) {
      var m := Min(|s[i].eof|, |coef|);
      NothingToCorrect(x, coef, m);
      Between(d, s[i].depth, Corrected(s[i], coef, m), s[i + 1].depth, Corrected(s[i + 1], coef, m));
    }
  }

  /** After an update, looking up a reported depth returns the speed last reported for it, exactly
      if there are at least two samples and the one below its interval has as many EOFs as are read
      from the one above; a single sample is looked up as zero. */
  lemma {:induction false} ReportedSpeedIsReadBack(s: seq<Sample>, depths: seq<real>, speeds: seq<Option<real>>,
                                                   coef: seq<real>, d: real)
    requires Distinct(s) && |depths| == |speeds| && LastReport(depths, speeds, d).Some?
    ensures var t := Updated(s, depths, speeds);
      LookUp(t, coef, d) ==
        if |t| < 2 then Speed(0.0)
        else if ReadsInBounds(t, coef, d) then Speed(LastReport(depths, speeds, d).value)
        else OutOfBounds
  {
    var t := Updated(s, depths, speeds);
    var x0 :| x0 == Sample(d, 0.0, []);
    OnlyReportedDepthsChange(s, depths, speeds, d, x0);
    var x :| IsAt(t, x, d);
    OnlyReportedDepthsChange(s, depths, speeds, d, x);
    UpdateKeepsProfile(s, depths, speeds);
    if |t| >= 2 {
      LookUpAtSample(t, coef, x, d);
    }
  }

  /** Profiles whose samples have equally many EOFs are always read in bounds. */
  lemma {:induction false} UniformIsInBounds(s: seq<Sample>, coef: seq<real>, d: real)
    requires forall x <- s, y <- s :: |x.eof| == |y.eof|
    ensures ReadsInBounds(s, coef, d)
  {
  }

  lemma {:induction false} SortOfSorted(s: seq<Sample>)
    requires Sorted(s)
    ensures Sort(s) == s
  {
    if s != [] {
      SortOfSorted(s[1..]);
      assert s == [s[0]] + s[1..];
    }
  }

  lemma {:induction false} OneReport(s: seq<Sample>, d: real, c: real)
    requires forall i :: 0 <= i < |s| ==> s[i].depth != d
    ensures Reports(s, [d], [Some(c)]) == s + [Sample(d, c, [])]
  {
    assert Reports(s, [d][..0], [Some(c)][..0]) == s;
    assert Find(s, d) == |s|;
  }

  lemma {:induction false} DeepestIsAdded(s: seq<Sample>, d: real, c: real)
    requires Sorted(s) && Distinct(s) && s != [] && d > s[|s| - 1].depth
    ensures var t := s + [Sample(d, c, [])];
      Updated(s, [d], [Some(c)]) == t && Sorted(t) && Distinct(t)
  {
    hide Sort, Reports, Report, Find;
    OneReport(s, d, c);
    SortOfSorted(s + [Sample(d, c, [])]);
  }

  /** A sample added by an update has no EOFs: right below one that has some, it cannot be read. */
  lemma {:induction false} AddedSampleIsOutOfBounds(s: seq<Sample>, d: real, c: real, coef: seq<real>)
    requires Sorted(s) && Distinct(s) && s != [] && d > s[|s| - 1].depth
    ensures LookUp(Updated(s, [d], [Some(c)]), coef, d) == OutOfBounds <==> s[|s| - 1].eof != [] && coef != []
  {
    hide Updated, LookUp;
    DeepestIsAdded(s, d, c);
    var x := Sample(d, c, []);
    var t := s + [x];
    assert IsAt(t, x, d) && t[|s|] == x;
    LookUpAtSample(t, coef, x, d);
    InRangeIff(t, d);
    var i := FirstBracket(t, d);
    assert i == |s| - 1;
  }

  /** Each of the m EOFs that count adds its value times its coefficient, and no other does. */
  lemma {:induction false} CorrectedAdds(x: Sample, coef: seq<real>, m: nat, j: nat, v: real)
    requires m <= |x.eof| && m <= |coef| && j < |x.eof|
    ensures var y := x.(eof := x.eof[j := v]);
      Corrected(y, coef, m) - Corrected(x, coef, m) == if j < m then (v - x.eof[j]) * coef[j] else 0.0
    ensures (forall k :: 0 <= k < m ==> x.eof[k] == 0.0) ==> Corrected(x, coef, m) == x.cp
  {
    if m > 0 {
      CorrectedAdds(x, coef, m - 1, j, v);
    }
  }

  /** In a sorted profile of distinct depths, the value read in bounds is the one on the straight
      line between the corrected speeds of the neighbours. */
  lemma {:induction false} LookUpIsOnTheLine(s: seq<Sample>, coef: seq<real>, d: real, i: nat, m: nat)
    requires Sorted(s) && Distinct(s) && i + 1 < |s| && s[i].depth <= d <= s[i + 1].depth
    requires forall j :: 0 <= j < i ==> !(s[j].depth <= d <= s[j + 1].depth)
    requires m == (if |s[i].eof| < |coef| then |s[i].eof| else |coef|) && m <= |s[i + 1].eof|
    ensures var r := LookUp(s, coef, d);
      var c0, c1 := Corrected(s[i], coef, m), Corrected(s[i + 1], coef, m);
      r.Speed? && (r.value - c0) * (s[i + 1].depth - s[i].depth) == (d - s[i].depth) * (c1 - c0)
  {
    hide LookUp, Corrected, Line;
    LookUpUsesFirstInterval(s, coef, d);
    assert Brackets(s, d, i) && FirstBracket(s, d) == i;
    OnTheLine(d, s[i].depth, Corrected(s[i], coef, m), s[i + 1].depth, Corrected(s[i + 1], coef, m));
  }

  lemma {:induction false} OnTheLine(d: real, z0: real, c0: real, z1: real, c1: real)
    requires z0 < z1
    ensures (Line(d, z0, c0, z1, c1) - c0) * (z1 - z0) == (d - z0) * (c1 - c0)
  {
    var w, t := z1 - z0, (d - z0) * (c1 - c0);
    assert t / w * w == t;
  }

  lemma {:induction false} ReportKeepsEofs(s: seq<Sample>, d: real, c: Option<real>, e: real)
    ensures var t := Report(s, d, c); var i := Find(t, e);
      && (Find(s, e) < |s| ==> i < |t|)
      && (i < |t| ==> |t[i].eof| == if Find(s, e) < |s| then |s[Find(s, e)].eof| else 0)
  {
    var t, i := Report(s, d, c), Find(s, d);
    if c.Some? {
      assert forall j :: 0 <= j < |s| ==> t[j].depth == s[j].depth;
      assert forall j :: 0 <= j < |s| && j != i ==> t[j] == s[j];
    }
  }

  lemma {:induction false} ReportsKeepEofs(s: seq<Sample>, depths: seq<real>, speeds: seq<Option<real>>, e: real)
    requires |depths| == |speeds|
    ensures var t := Reports(s, depths, speeds); var i := Find(t, e);
      && (Find(s, e) < |s| ==> i < |t|)
      && (i < |t| ==> |t[i].eof| == if Find(s, e) < |s| then |s[Find(s, e)].eof| else 0)
    decreases |depths|
  {
    hide Report;
    if depths != [] {
      var n := |depths| - 1;
      ReportsKeepEofs(s, depths[..n], speeds[..n], e);
      ReportKeepsEofs(Reports(s, depths[..n], speeds[..n]), depths[n], speeds[n], e);
    }
  }

  lemma {:induction false} OnlyOneAt(s: seq<Sample>, x: Sample, d: real)
    requires Distinct(s) && IsAt(s, x, d)
    ensures Find(s, d) < |s| && s[Find(s, d)] == x
  {
    var k :| 0 <= k < |s| && s[k] == x;
  }

  /** Lists of different lengths change nothing; a reported sample keeps its number of EOFs. */
  lemma {:induction false} UpdateKeepsEofs(s: seq<Sample>, depths: seq<real>, speeds: seq<Option<real>>, d: real,
                                           x: Sample)
    requires Distinct(s)
    ensures |depths| != |speeds| ==> Updated(s, depths, speeds) == s
    ensures |depths| == |speeds| && IsAt(Updated(s, depths, speeds), x, d) ==>
      |x.eof| == if Find(s, d) < |s| then |s[Find(s, d)].eof| else 0
  {
    if |depths| == |speeds| {
      SameMembers(Sort(Reports(s, depths, speeds)), Reports(s, depths, speeds));
      if IsAt(Updated(s, depths, speeds), x, d) {
        ReportsKeepEofs(s, depths, speeds, d);
        ReportsKeepDistinct(s, depths, speeds);
        OnlyOneAt(Reports(s, depths, speeds), x, d);
      }
    }
  }
}
