/** netsim_udp's performance table: one entry for each unordered pair of modems. */
module MppTable {

  datatype Pair = Pair(src: int, dest: int, mpp: real) {
    predicate Joins(a: int, b: int) {
      (a == src && b == dest) || (b == src && a == dest)
    }
  }

  datatype Report = Report(node: string, mpp: real)

  const INITIAL_MPP := 80.0

  function Row(src: int, others: seq<int>): seq<Pair> {
    seq(|others|, j requires 0 <= j < |others| => Pair(src, others[j], INITIAL_MPP))
  }

  /** Each modem is paired with those configured before it. */
  function TableOf(ids: seq<int>): seq<Pair> {
    if ids == [] then []
    else TableOf(ids[..|ids| - 1]) + Row(ids[|ids| - 1], ids[..|ids| - 1])
  }

  function Set(table: seq<Pair>, a: int, b: int, mpp: real): seq<Pair> {
    seq(|table|, j requires 0 <= j < |table| => if table[j].Joins(a, b) then table[j].(mpp := mpp) else table[j])
  }

  /** Reports are applied in turn; one for an unknown node throws, keeping what was applied. */
  function Apply(byPort: map<string, int>, table: seq<Pair>, src: int, reports: seq<Report>): (seq<Pair>, bool)
    decreases |reports|
  {
    if reports == [] then (table, false)
    else if reports[0].node !in byPort then (table, true)
    else Apply(byPort, Set(table, src, byPort[reports[0].node], reports[0].mpp), src, reports[1..])
  }

  /** The index of the first entry for a pair, or the length of the table. */
  function Find(table: seq<Pair>, a: int, b: int): (k: nat)
    ensures k <= |table|
  {
    if table == [] || table[0].Joins(a, b) then 0 else 1 + Find(table[1..], a, b)
  }

  function Probability(mpp: real): real {
    var p := ((mpp - 30.0) * 80.0 / 50.0 + 20.0) / 100.0;
    var q := if p < 1.0 then p else 1.0;
    if q > 0.0 then q else 0.0
  }

  function TransmitProbability(table: seq<Pair>, a: int, b: int): real {
    var k := Find(table, a, b);
    if k < |table| then Probability(table[k].mpp) else 0.0
  }

  // ---------------------------------------------------------------------------------------
  // The table as the application updates it
  // ---------------------------------------------------------------------------------------

  class Performance {
    const byPort: map<string, int>
    var table: seq<Pair>

    constructor (ids: seq<int>, byPort: map<string, int>)
      ensures this.byPort == byPort && table == TableOf(ids)
    {
      this.byPort := byPort;
      table := [];
      new;
      for i := 0 to |ids|
        invariant table == TableOf(ids[..i])
      {
        ghost var before := table;
        for j := 0 to i
          invariant table == before + Row(ids[i], ids[..j])
        {
          table := table + [Pair(ids[i], ids[j], INITIAL_MPP)];
        }
        assert ids[..i + 1][..i] == ids[..i];
      }
      assert ids[..|ids|] == ids;
    }

    /** Returns whether an unknown receiver made it throw. */
    method ProcessPerformanceResponse(contact: string, reports: seq<Report>) returns (threw: bool)
      modifies this`table
      ensures contact !in byPort ==> table == old(table) && !threw
      ensures contact in byPort ==> (table, threw) == Apply(byPort, old(table), byPort[contact], reports)
    {
      if contact !in byPort {
        return false;
      }
      var src := byPort[contact];
      for i := 0 to |reports|
        invariant Apply(byPort, table, src, reports[i..]) == Apply(byPort, old(table), src, reports)
      {
        assert reports[i..][1..] == reports[i + 1..];
        if reports[i].node !in byPort {
          return true;
        }
        SetPair(src, byPort[reports[i].node], reports[i].mpp);
      }
      return false;
    }

    method SetPair(src: int, dest: int, mpp: real)
      modifies this`table
      ensures table == Set(old(table), src, dest, mpp)
    {
      ghost var before := table;
      for j := 0 to |table|
        invariant |table| == |before|
        invariant forall k :: 0 <= k < |table| ==>
          table[k] == if k < j && before[k].Joins(src, dest) then before[k].(mpp := mpp) else before[k]
      {
        if table[j].Joins(src, dest) {
          table := table[j := table[j].(mpp := mpp)];
        }
      }
    }

    method MppTransmitProbability(src: int, dest: int) returns (p: real)
      ensures p == TransmitProbability(table, src, dest)
    {
      for j := 0 to |table|
        invariant Find(table, src, dest) == j + Find(table[j..], src, dest)
      {
        if table[j].Joins(src, dest) {
          return Probability(table[j].mpp);
        }
        assert table[j..][1..] == table[j + 1..];
      }
      return 0.0;
    }
  }

  // ---------------------------------------------------------------------------------------
  // What the table means
  // ---------------------------------------------------------------------------------------

  lemma {:induction false} FindFirst(table: seq<Pair>, a: int, b: int)
    ensures var k := Find(table, a, b);
      && (forall j :: 0 <= j < k ==> !table[j].Joins(a, b))
      && (k < |table| ==> table[k].Joins(a, b))
  {
    if table != [] && !table[0].Joins(a, b) {
      FindFirst(table[1..], a, b);
    }
  }

  ghost predicate OnlyEntry(table: seq<Pair>, k: nat, a: int, b: int) {
    && k < |table| && table[k] == Pair(a, b, 80.0)
    && (forall m :: 0 <= m < |table| && table[m].Joins(a, b) ==> m == k)
  }

  /** Two different modems share exactly one entry, whichever order they are asked for. */
  lemma {:induction false} OneEntryPerPair(ids: seq<int>, i: nat, j: nat)
    requires forall x, y :: 0 <= x < y < |ids| ==> ids[x] != ids[y]
    requires j < i < |ids|
    ensures exists k: nat :: OnlyEntry(TableOf(ids), k, ids[i], ids[j])
    decreases |ids|
  {
    var n := |ids| - 1;
    var init := ids[..n];
    var before, row := TableOf(init), Row(ids[n], init);
    if i == n {
      assert TableOf(ids)[|before| + j] == row[j];
      forall m | 0 <= m < |TableOf(ids)| && TableOf(ids)[m].Joins(ids[i], ids[j])
        ensures m == |before| + j
      {
        if m < |before| {
          TableHoldsIds(init, m);
        }
      }
      assert OnlyEntry(TableOf(ids), |before| + j, ids[i], ids[j]);
    } else {
      OneEntryPerPair(init, i, j);
      var k: nat :| OnlyEntry(before, k, init[i], init[j]);
      assert TableOf(ids)[k] == before[k];
      forall m | 0 <= m < |TableOf(ids)| && TableOf(ids)[m].Joins(ids[i], ids[j])
        ensures m == k
      {
        if m < |before| {
          assert before[m] == TableOf(ids)[m];
        }
      }
      assert OnlyEntry(TableOf(ids), k, ids[i], ids[j]);
    }
  }

  lemma {:induction false} TableHoldsIds(ids: seq<int>, m: nat)
    requires m < |TableOf(ids)|
    ensures TableOf(ids)[m].src in ids && TableOf(ids)[m].dest in ids
    decreases |ids|
  {
    var n := |ids| - 1;
    if m < |TableOf(ids[..n])| {
      TableHoldsIds(ids[..n], m);
    }
  }

  /** Before any report, every pair of different configured modems gets through with certainty. */
  lemma {:induction false} FreshTableLetsAllThrough(ids: seq<int>, i: nat, j: nat)
    requires forall x, y :: 0 <= x < y < |ids| ==> ids[x] != ids[y]
    requires j < i < |ids|
    ensures TransmitProbability(TableOf(ids), ids[i], ids[j]) == 1.0
    ensures TransmitProbability(TableOf(ids), ids[j], ids[i]) == 1.0
  {
    OneEntryPerPair(ids, i, j);
    var k: nat :| OnlyEntry(TableOf(ids), k, ids[i], ids[j]);
    FindFirst(TableOf(ids), ids[i], ids[j]);
    FindFirst(TableOf(ids), ids[j], ids[i]);
  }

  lemma {:induction false} FindAfterSet(table: seq<Pair>, a: int, b: int, mpp: real, c: int, d: int)
    ensures |Set(table, a, b, mpp)| == |table|
    ensures Find(Set(table, a, b, mpp), c, d) == Find(table, c, d)
  {
    if table != [] && !table[0].Joins(c, d) {
      assert Set(table, a, b, mpp)[1..] == Set(table[1..], a, b, mpp);
      FindAfterSet(table[1..], a, b, mpp, c, d);
    }
  }

  /** The last value that the reports up to the first unknown node give for a pair, if any. */
  function LastReport(byPort: map<string, int>, src: int, reports: seq<Report>, c: int, d: int, before: real): real {
    if reports == [] || reports[0].node !in byPort then before
    else
      var hit := Pair(src, byPort[reports[0].node], 0.0).Joins(c, d);
      LastReport(byPort, src, reports[1..], c, d, if hit then reports[0].mpp else before)
  }

  /** After a response, each pair in the table has the last value reported for it, or the one it
      had; no entry appears or disappears; and it throws exactly if some node is unknown. */
  lemma {:induction false} LastReportWins(byPort: map<string, int>, table: seq<Pair>, src: int, reports: seq<Report>,
                                          c: int, d: int)
    ensures var (t, threw) := Apply(byPort, table, src, reports); var k := Find(table, c, d);
      && |t| == |table| && Find(t, c, d) == k
      && (k < |table| ==> t[k].mpp == LastReport(byPort, src, reports, c, d, table[k].mpp))
      && (threw <==> exists i :: 0 <= i < |reports| && reports[i].node !in byPort)
    decreases |reports|
  {
    if reports != [] && reports[0].node in byPort {
      var dest := byPort[reports[0].node];
      var t1 := Set(table, src, dest, reports[0].mpp);
      FindAfterSet(table, src, dest, reports[0].mpp, c, d);
      FindFirst(table, c, d);
      LastReportWins(byPort, t1, src, reports[1..], c, d);
      if i :| 0 <= i < |reports| && reports[i].node !in byPort {
        assert reports[1..][i - 1].node !in byPort;
      }
    }
  }

  /** In between, the probability rises in proportion to the value. */
  lemma {:induction false} ProbabilityIsLinear(m: real)
    ensures 17.5 <= m <= 80.0 ==> Probability(m) * 62.5 == m - 17.5
  {
  }

  /** The probability of a pair after a response from a modem: that of the last value reported for
      it, or of the value it had; zero if the pair is not in the table. */
  lemma {:induction false} TransmitsAsLastReported(byPort: map<string, int>, table: seq<Pair>, src: int,
                                                   reports: seq<Report>, c: int, d: int)
    ensures var t := Apply(byPort, table, src, reports).0; var p := TransmitProbability(t, c, d);
      if forall k :: 0 <= k < |table| ==> !table[k].Joins(c, d) then p == 0.0
      else
        exists k :: 0 <= k < |table| && table[k].Joins(c, d) &&
          p == Probability(LastReport(byPort, src, reports, c, d, table[k].mpp))
  {
    LastReportWins(byPort, table, src, reports, c, d);
    FindFirst(table, c, d);
  }

  /** The probability is the performance value scaled so that 17.5 and below never gets through,
      80 and above always does, clamped to 0..1 and rising in between. */
  lemma {:induction false} ProbabilityIsClamped(m1: real, m2: real)
    ensures 0.0 <= Probability(m1) <= 1.0
    ensures Probability(m1) == 0.0 <==> m1 <= 17.5
    ensures Probability(m1) == 1.0 <==> m1 >= 80.0
    ensures 17.5 <= m1 < m2 <= 80.0 ==> Probability(m1) < Probability(m2)
  {
  }
}
