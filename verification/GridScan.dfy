/** netsim_tool: a range/depth scan driven by a tick counter. */
module GridScan {

  /** slotTicks is the slot length in seconds times the loop frequency. */
  datatype Config = Config(rMin: int, rMax: int, zMin: int, zMax: int, dr: int, dz: int, slotTicks: real)

  datatype Event = Update(r: int, z: int) | Stats(r: int, z: int) | Transmit(r: int, z: int) | Quit

  datatype State = State(r: int, z: int, lastR: int, lastZ: int, loops: nat, complete: bool, quit: bool,
                         log: seq<Event>)

  function Initial(cfg: Config): State {
    State(cfg.rMin, cfg.zMin, -1, -1, 0, false, false, [Update(cfg.rMin, cfg.zMin)])
  }

  function StatsOf(lastR: int, lastZ: int): seq<Event> {
    if lastR > 0 && lastZ > 0 then [Stats(lastR, lastZ)] else []
  }

  /** Moves on to the next grid point: along the range, then to the next depth. */
  function Advance(cfg: Config, s: State): State {
    if s.r + cfg.dr <= cfg.rMax then s.(r := s.r + cfg.dr)
    else s.(r := cfg.rMin, z := s.z + cfg.dz, complete := s.complete || s.z + cfg.dz > cfg.zMax)
  }

  /** One call of the loop with both drivers ready. */
  function Tick(cfg: Config, s: State): State {
    if s.quit then s
    else if s.loops as real == cfg.slotTicks / 2.0 then
      s.(loops := s.loops + 1, log := s.log + if s.complete then [] else [Update(s.r, s.z)])
    else if s.loops as real == 2.0 * cfg.slotTicks then
      var log := s.log + StatsOf(s.lastR, s.lastZ);
      if s.complete then s.(quit := true, log := log + [Quit])
      else Advance(cfg, s).(lastR := s.r, lastZ := s.z, loops := 1, log := log + [Transmit(s.r, s.z)])
    else s.(loops := s.loops + 1)
  }

  class NetSimTool {
    const cfg: Config
    var driversReady: nat
    var r: int
    var z: int
    var lastR: int
    var lastZ: int
    var loopsSinceLastTransmission: nat
    var runComplete: bool
    var quit: bool
    var log: seq<Event>

    ghost function Value(): State reads this {
      State(r, z, lastR, lastZ, loopsSinceLastTransmission, runComplete, quit, log)
    }

    constructor (cfg: Config)
      ensures this.cfg == cfg && driversReady == 0 && Value() == Initial(cfg)
    {
      this.cfg := cfg;
      driversReady, r, z, lastR, lastZ := 0, cfg.rMin, cfg.zMin, -1, -1;
      loopsSinceLastTransmission, runComplete, quit, log := 0, false, false, [];
      new;
      UpdateReceiverPosition();
    }

    method DriverReady()
      modifies this`driversReady
      ensures driversReady == old(driversReady) + 1
    {
      driversReady := driversReady + 1;
    }

    method UpdateReceiverPosition()
      modifies this`log
      ensures log == old(log) + [Update(r, z)]
    {
      log := log + [Update(r, z)];
    }

    method Loop()
      requires !quit
      modifies this
      ensures driversReady == old(driversReady)
      ensures Value() == if driversReady < 2 then old(Value()) else Tick(cfg, old(Value()))
    {
      if driversReady < 2 {
        return;
      }
      if loopsSinceLastTransmission as real == cfg.slotTicks / 2.0 {
        if !runComplete {
          UpdateReceiverPosition();
        }
      } else if loopsSinceLastTransmission as real == 2.0 * cfg.slotTicks {
        if lastR > 0 && lastZ > 0 {
          log := log + [Stats(lastR, lastZ)];
        }
        if runComplete {
          quit := true;
          log := log + [Quit];
          return;
        }
        log := log + [Transmit(r, z)];
        lastR, lastZ := r, z;
        r := r + cfg.dr;
        if r > cfg.rMax {
          r, z := cfg.rMin, z + cfg.dz;
          if z > cfg.zMax {
            runComplete := true;
          }
        }
        loopsSinceLastTransmission := 0;
      }
      loopsSinceLastTransmission := loopsSinceLastTransmission + 1;
    }
  }

  // ---------------------------------------------------------------------------------------
  // The grid
  // ---------------------------------------------------------------------------------------

  /** Points from lo to hi in steps of d: at least one, even if hi is below lo. */
  function Steps(lo: int, hi: int, d: int): (n: nat)
    requires d > 0
    ensures n >= 1
  {
    if hi < lo then 1 else (hi - lo) / d + 1
  }

  predicate Proper(cfg: Config) {
    cfg.dr > 0 && cfg.dz > 0
  }

  function Columns(cfg: Config): (n: nat) requires Proper(cfg) ensures n >= 1 { Steps(cfg.rMin, cfg.rMax, cfg.dr) }

  function Rows(cfg: Config): (n: nat) requires Proper(cfg) ensures n >= 1 { Steps(cfg.zMin, cfg.zMax, cfg.dz) }

  function Points(cfg: Config): nat requires Proper(cfg) { Columns(cfg) * Rows(cfg) }

  /** Grid point k in row-major order, the range running fastest. */
  function Grid(cfg: Config, k: nat): (int, int)
    requires Proper(cfg)
  {
    (cfg.rMin + k % Columns(cfg) * cfg.dr, cfg.zMin + k / Columns(cfg) * cfg.dz)
  }

  lemma {:induction false} MulGap(a: int, b: int, n: nat)
    requires a < b
    ensures a * n + n <= b * n
  {
    var d := b - a - 1;
    assert b * n == a * n + n + d * n;
    assert d * n >= 0;
  }

  /** The steps are exactly the points not beyond hi, and the first one in any case. */
  lemma {:induction false} StepsAreWithin(lo: int, hi: int, d: nat, c: nat)
    requires d > 0 && c >= 1
    ensures lo + c * d <= hi <==> c < Steps(lo, hi, d)
  {
    if hi >= lo {
      DivSplits(hi - lo, d, c);
    } else {
      MulGap(0, c, d);
    }
  }

  /** c fits into x / d exactly if c multiples of d fit into x. */
  lemma {:induction false} DivSplits(x: nat, d: nat, c: nat)
    requires d > 0
    ensures c * d <= x <==> c <= x / d
  {
    var q, m := x / d, x % d;
    assert x == q * d + m;
    if c < q {
      MulGap(c, q, d);
    } else if c > q {
      MulGap(q, c, d);
    }
  }

  lemma {:induction false} NextPoint(k: nat, n: nat)
    requires n >= 1
    ensures if k % n + 1 < n then (k + 1) % n == k % n + 1 && (k + 1) / n == k / n
            else (k + 1) % n == 0 && (k + 1) / n == k / n + 1
  {
    var q, m := k / n, k % n;
    assert k == q * n + m;
    if m + 1 < n {
      DivModUnique(k + 1, n, q, m + 1);
    } else {
      assert k + 1 == (q + 1) * n;
      DivModUnique(k + 1, n, q + 1, 0);
    }
  }

  lemma {:induction false} DivModUnique(x: nat, n: nat, q: nat, m: nat)
    requires x == q * n + m && m < n
    ensures x / n == q && x % n == m
  {
    DivSplits(x, n, q);
    DivSplits(x, n, q + 1);
    assert (q + 1) * n == q * n + n;
    assert x == x / n * n + x % n;
  }

  lemma {:induction false} RowOf(cfg: Config, k: nat)
    requires Proper(cfg)
    ensures k < Points(cfg) <==> k / Columns(cfg) < Rows(cfg)
  {
    DivSplits(k, Columns(cfg), Rows(cfg));
  }

  lemma {:induction false} SamePoint(cfg: Config, j: nat, k: nat)
    requires Proper(cfg) && Grid(cfg, j) == Grid(cfg, k)
    ensures j == k
  {
    var n := Columns(cfg);
    SameMultiple(j % n, k % n, cfg.dr);
    SameMultiple(j / n, k / n, cfg.dz);
    assert j == j / n * n + j % n && k == k / n * n + k % n;
  }

  /** Every grid point appears exactly once in the row-major order. */
  lemma {:induction false} GridIsABijection(cfg: Config, col: nat, row: nat)
    requires Proper(cfg) && col < Columns(cfg) && row < Rows(cfg)
    ensures var k := row * Columns(cfg) + col;
      && k < Points(cfg) && Grid(cfg, k) == (cfg.rMin + col * cfg.dr, cfg.zMin + row * cfg.dz)
      && forall j :: 0 <= j < Points(cfg) && Grid(cfg, j) == Grid(cfg, k) ==> j == k
  {
    var n := Columns(cfg);
    var k := row * n + col;
    DivModUnique(k, n, row, col);
    RowOf(cfg, k);
    forall j | 0 <= j < Points(cfg) && Grid(cfg, j) == Grid(cfg, k)
      ensures j == k
    {
      SamePoint(cfg, j, k);
    }
  }

  lemma {:induction false} SameMultiple(a: int, b: int, d: nat)
    requires d > 0 && a * d == b * d
    ensures a == b
  {
    if a != b {
      MulGap(if a < b then a else b, if a < b then b else a, d);
    }
  }

  // ---------------------------------------------------------------------------------------
  // The whole run
  // ---------------------------------------------------------------------------------------

  function Point(cfg: Config, k: nat): (int, int)
    requires Proper(cfg)
  {
    if k < Points(cfg) then Grid(cfg, k) else (cfg.rMin, cfg.zMin + Rows(cfg) * cfg.dz)
  }

  /** The statistics of point k - 1, published with the next transmission. */
  function StatsBefore(cfg: Config, k: nat): seq<Event>
    requires Proper(cfg)
  {
    if k == 0 then [] else StatsOf(Grid(cfg, k - 1).0, Grid(cfg, k - 1).1)
  }

  /** What has happened up to and including transmission k, the receiver being moved or not. */
  function LogOf(cfg: Config, moves: bool, k: nat): seq<Event>
    requires Proper(cfg)
  {
    if k == 0 then [Update(cfg.rMin, cfg.zMin)]
    else
      var (r, z) := Grid(cfg, k - 1);
      LogOf(cfg, moves, k - 1) + (if moves then [Update(r, z)] else []) + StatsBefore(cfg, k - 1) + [Transmit(r, z)]
  }

  /** With c ticks from one transmission to the next, half a slot is a whole number of ticks only
      if c is a multiple of 4. */
  predicate Moves(c: nat) {
    c % 4 == 0
  }

  /** After k transmissions, m + 1 ticks into the slot. */
  ghost predicate At(cfg: Config, c: nat, s: State, k: nat, m: nat)
    requires Proper(cfg)
  {
    && k <= Points(cfg) && !s.quit && s.loops == m + 1
    && (s.r, s.z) == Point(cfg, k) && (s.complete <==> k == Points(cfg))
    && (s.lastR, s.lastZ) == (if k == 0 then (-1, -1) else Grid(cfg, k - 1))
    && s.log == LogOf(cfg, Moves(c), k) + if Moves(c) && 4 * m >= c && k < Points(cfg) then [Update(s.r, s.z)] else []
  }

  /** Two slots take c ticks. */
  predicate Slots(cfg: Config, c: nat) {
    Proper(cfg) && c >= 1 && 2.0 * cfg.slotTicks == c as real
  }

  function Run(cfg: Config, t: nat): State {
    if t == 0 then Initial(cfg) else Tick(cfg, Run(cfg, t - 1))
  }

  lemma {:induction false} OneMore(cfg: Config, c: nat)
    requires Proper(cfg)
    ensures cfg.rMin + c * cfg.dr + cfg.dr <= cfg.rMax <==> c + 1 < Columns(cfg)
    ensures cfg.zMin + c * cfg.dz + cfg.dz <= cfg.zMax <==> c + 1 < Rows(cfg)
  {
    StepsAreWithin(cfg.rMin, cfg.rMax, cfg.dr, c + 1);
    StepsAreWithin(cfg.zMin, cfg.zMax, cfg.dz, c + 1);
    assert (c + 1) * cfg.dr == c * cfg.dr + cfg.dr && (c + 1) * cfg.dz == c * cfg.dz + cfg.dz;
  }

  lemma {:induction false} AdvanceOnGrid(cfg: Config, s: State, col: nat, row: nat)
    requires Proper(cfg) && col < Columns(cfg) && row < Rows(cfg) && !s.complete
    requires (s.r, s.z) == (cfg.rMin + col * cfg.dr, cfg.zMin + row * cfg.dz)
    ensures var t := Advance(cfg, s);
      if col + 1 < Columns(cfg) then
        t.r == cfg.rMin + (col + 1) * cfg.dr && t.z == s.z && !t.complete
      else
        t.r == cfg.rMin && t.z == cfg.zMin + (row + 1) * cfg.dz && (t.complete <==> row + 1 == Rows(cfg))
  {
    hide Columns, Rows;
    OneMore(cfg, col);
    OneMore(cfg, row);
    assert (col + 1) * cfg.dr == col * cfg.dr + cfg.dr && (row + 1) * cfg.dz == row * cfg.dz + cfg.dz;
  }

  lemma {:induction false} AdvanceToNextPoint(cfg: Config, s: State, k: nat)
    requires Proper(cfg) && k < Points(cfg) && (s.r, s.z) == Grid(cfg, k) && !s.complete
    ensures var t := Advance(cfg, s);
      (t.r, t.z) == Point(cfg, k + 1) && (t.complete <==> k + 1 == Points(cfg))
  {
    hide Columns, Rows, Points, Advance;
    RowOf(cfg, k);
    RowOf(cfg, k + 1);
    NextPoint(k, Columns(cfg));
    AdvanceOnGrid(cfg, s, k % Columns(cfg), k / Columns(cfg));
    if k + 1 == Points(cfg) {
      LastPoint(cfg, k);
    }
  }

  lemma {:induction false} LastPoint(cfg: Config, k: nat)
    requires Proper(cfg) && k + 1 == Points(cfg)
    ensures k / Columns(cfg) + 1 == Rows(cfg) && k % Columns(cfg) + 1 == Columns(cfg)
  {
    var n, rows := Columns(cfg), Rows(cfg);
    assert k == (rows - 1) * n + (n - 1);
    DivModUnique(k, n, rows - 1, n - 1);
  }

  lemma {:induction false} TickInSlot(cfg: Config, c: nat, s: State, k: nat, m: nat)
    requires Slots(cfg, c) && At(cfg, c, s, k, m) && m + 1 < c
    ensures At(cfg, c, Tick(cfg, s), k, m + 1)
  {
    hide LogOf, Points, Point, Grid, Steps;
    assert s.loops as real == cfg.slotTicks / 2.0 <==> 4 * (m + 1) == c;
    assert s.loops as real != 2.0 * cfg.slotTicks;
    assert LogOf(cfg, Moves(c), k) + [] == LogOf(cfg, Moves(c), k);
  }

  lemma {:induction false} TickAtSlotEnd(cfg: Config, c: nat, s: State, k: nat)
    requires Slots(cfg, c) && At(cfg, c, s, k, c - 1)
    ensures var t := Tick(cfg, s);
      if k < Points(cfg) then At(cfg, c, t, k + 1, 0)
      else t == s.(quit := true, log := LogOf(cfg, Moves(c), k) + StatsBefore(cfg, k) + [Quit])
  {
    hide Grid, Steps, Points;
    assert s.loops as real != cfg.slotTicks / 2.0 && s.loops as real == 2.0 * cfg.slotTicks;
    if k < Points(cfg) {
      assert (s.r, s.z) == Grid(cfg, k);
      AdvanceToNextPoint(cfg, s, k);
    }
  }

  /** Tick c * k + 1 makes transmission k, and m ticks later the state is the one of that point of
      the slot. */
  lemma {:induction false} StateAfterTicks(cfg: Config, c: nat, k: nat, m: nat)
    requires Slots(cfg, c) && k <= Points(cfg) && m < c
    ensures At(cfg, c, Run(cfg, c * k + m + 1), k, m)
    decreases k, m
  {
    hide At, Points, Tick;
    var t := c * k + m;
    if m > 0 {
      StateAfterTicks(cfg, c, k, m - 1);
      TickInSlot(cfg, c, Run(cfg, t), k, m - 1);
    } else if k > 0 {
      StateAfterTicks(cfg, c, k - 1, c - 1);
      assert t == c * (k - 1) + (c - 1) + 1;
      TickAtSlotEnd(cfg, c, Run(cfg, t), k - 1);
    } else {
      FirstTick(cfg, c);
    }
  }

  lemma {:induction false} FirstTick(cfg: Config, c: nat)
    requires Slots(cfg, c)
    ensures At(cfg, c, Run(cfg, 1), 0, 0)
  {
    RowOf(cfg, 0);
    assert 0 % Columns(cfg) == 0 && 0 / Columns(cfg) == 0;
    assert 0 * cfg.dr == 0 && 0 * cfg.dz == 0;
    assert Run(cfg, 0) == Initial(cfg);
  }

  lemma {:induction false} SlotOf(c: nat, n: nat, t: nat) returns (k: nat, m: nat)
    requires c >= 1 && 0 < t <= c * (n + 1)
    ensures k <= n && m < c && t == c * k + m + 1
  {
    k, m := (t - 1) / c, (t - 1) % c;
    assert (n + 1) * c == c * (n + 1);
    DivSplits(t - 1, c, n + 1);
  }

  lemma {:induction false} RunsAt(cfg: Config, c: nat, k: nat, m: nat, t: nat)
    requires Slots(cfg, c) && k <= Points(cfg) && m < c && t == c * k + m + 1
    ensures !Run(cfg, t).quit
  {
    StateAfterTicks(cfg, c, k, m);
  }

  lemma {:induction false} RunsBefore(cfg: Config, c: nat, n: nat, t: nat)
    requires Slots(cfg, c) && n == Points(cfg) && t <= c * (n + 1)
    ensures !Run(cfg, t).quit
  {
    if t > 0 {
      var k, m := SlotOf(c, n, t);
      RunsAt(cfg, c, k, m, t);
    }
  }

  lemma {:induction false} QuitsOn(cfg: Config, c: nat, n: nat)
    requires Slots(cfg, c) && n == Points(cfg)
    ensures var s := Run(cfg, c * n + c + 1);
      s.quit && s.log == LogOf(cfg, Moves(c), n) + StatsBefore(cfg, n) + [Quit]
  {
    hide Points, Tick, LogOf, StatsBefore, Grid, Steps;
    StateAfterTicks(cfg, c, n, c - 1);
    var t := c * n + (c - 1) + 1;
    TickAtSlotEnd(cfg, c, Run(cfg, t), n);
    assert Run(cfg, t + 1) == Tick(cfg, Run(cfg, t));
  }

  /** With N grid points, it quits on tick c * (N + 1) + 1 and not before, having published the
      statistics of the last point. */
  lemma {:induction false} QuitsAfterLastSlot(cfg: Config, c: nat, t: nat)
    requires Slots(cfg, c)
    ensures var n := Points(cfg);
      if t <= c * (n + 1) then !Run(cfg, t).quit
      else Run(cfg, t).quit && Run(cfg, t).log == LogOf(cfg, Moves(c), n) + StatsBefore(cfg, n) + [Quit]
    decreases t
  {
    hide Points, Tick, LogOf, StatsBefore, Grid, Steps;
    var n := Points(cfg);
    assert c * (n + 1) == c * n + c;
    if t <= c * n + c {
      RunsBefore(cfg, c, n, t);
    } else if t == c * n + c + 1 {
      QuitsOn(cfg, c, n);
    } else {
      QuitsAfterLastSlot(cfg, c, t - 1);
      QuitStays(cfg, Run(cfg, t - 1));
    }
  }

  lemma {:induction false} QuitStays(cfg: Config, s: State)
    requires s.quit
    ensures Tick(cfg, s) == s
  {
  }

  // ---------------------------------------------------------------------------------------
  // What the log says
  // ---------------------------------------------------------------------------------------

  function Transmissions(log: seq<Event>): seq<(int, int)> {
    if log == [] then []
    else
      var e := log[|log| - 1];
      if e.Transmit? then Transmissions(log[..|log| - 1]) + [(e.r, e.z)] else Transmissions(log[..|log| - 1])
  }

  /** The receiver position last reported. */
  function LastUpdate(log: seq<Event>): (int, int) {
    if log == [] then (-1, -1)
    else
      var e := log[|log| - 1];
      if e.Update? then (e.r, e.z) else LastUpdate(log[..|log| - 1])
  }

  /** Each transmission is made with the receiver last reported at the very same point. */
  predicate InPosition(log: seq<Event>) {
    log == [] || (
      var init, e := log[..|log| - 1], log[|log| - 1];
      InPosition(init) && (e.Transmit? ==> LastUpdate(init) == (e.r, e.z)))
  }

  lemma {:induction false} Snoc(log: seq<Event>, e: Event)
    ensures var next := log + [e];
      && Transmissions(next) == (if e.Transmit? then Transmissions(log) + [(e.r, e.z)] else Transmissions(log))
      && LastUpdate(next) == (if e.Update? then (e.r, e.z) else LastUpdate(log))
      && InPosition(next) == (InPosition(log) && (e.Transmit? ==> LastUpdate(log) == (e.r, e.z)))
  {
    var next := log + [e];
    assert next[..|next| - 1] == log && next[|next| - 1] == e;
  }

  lemma {:induction false} SlotVisits(log: seq<Event>, moves: bool, stats: seq<Event>, r: int, z: int)
    requires |stats| <= 1 && (stats != [] ==> stats[0].Stats?)
    ensures var next := log + (if moves then [Update(r, z)] else []) + stats + [Transmit(r, z)];
      && Transmissions(next) == Transmissions(log) + [(r, z)]
      && LastUpdate(next) == (if moves then (r, z) else LastUpdate(log))
      && InPosition(next) == (InPosition(log) && (moves || LastUpdate(log) == (r, z)))
  {
    hide Transmissions, LastUpdate, InPosition;
    var log1 := log + if moves then [Update(r, z)] else [];
    if moves {
      Snoc(log, Update(r, z));
    } else {
      assert log1 == log;
    }
    if stats == [] {
      assert log1 + stats == log1;
    } else {
      assert stats == [stats[0]];
      Snoc(log1, stats[0]);
    }
    Snoc(log1 + stats, Transmit(r, z));
  }

  function FirstPoints(cfg: Config, k: nat): seq<(int, int)>
    requires Proper(cfg)
  {
    seq(k, i requires 0 <= i < k => Grid(cfg, i))
  }

  lemma {:induction false} FirstUpdate(cfg: Config, moves: bool)
    requires Proper(cfg)
    ensures var log := LogOf(cfg, moves, 0);
      Transmissions(log) == [] && InPosition(log) && LastUpdate(log) == (cfg.rMin, cfg.zMin) == Grid(cfg, 0)
  {
    assert LogOf(cfg, moves, 0) == [] + [Update(cfg.rMin, cfg.zMin)];
    Snoc([], Update(cfg.rMin, cfg.zMin));
    assert 0 % Columns(cfg) == 0 && 0 / Columns(cfg) == 0;
    assert 0 * cfg.dr == 0 && 0 * cfg.dz == 0;
  }

  lemma {:induction false} StatsAreStats(cfg: Config, k: nat)
    requires Proper(cfg)
    ensures var e := StatsBefore(cfg, k); |e| <= 1 && (e != [] ==> e[0].Stats?)
  {
  }

  /** After k transmissions the scan has visited the first k grid points, each once, in row-major
      order; each from its own position if the receiver is moved, and otherwise only the first. */
  lemma {:induction false} ScanVisitsTheGrid(cfg: Config, moves: bool, k: nat)
    requires Proper(cfg)
    ensures Transmissions(LogOf(cfg, moves, k)) == FirstPoints(cfg, k)
    ensures InPosition(LogOf(cfg, moves, k)) <==> moves || k <= 1
    ensures !moves ==> LastUpdate(LogOf(cfg, moves, k)) == Grid(cfg, 0)
  {
    hide Grid, StatsBefore, StatsOf, Transmissions, LastUpdate, InPosition;
    if k == 0 {
      FirstUpdate(cfg, moves);
    } else {
      ScanVisitsTheGrid(cfg, moves, k - 1);
      var (r, z) := Grid(cfg, k - 1);
      StatsAreStats(cfg, k - 1);
      SlotVisits(LogOf(cfg, moves, k - 1), moves, StatsBefore(cfg, k - 1), r, z);
      assert FirstPoints(cfg, k) == FirstPoints(cfg, k - 1) + [(r, z)];
      if Grid(cfg, k - 1) == Grid(cfg, 0) {
        SamePoint(cfg, k - 1, 0);
      }
    }
  }

  lemma {:induction false} QuitAddsNoTransmission(log: seq<Event>, stats: seq<Event>)
    requires |stats| <= 1 && (stats != [] ==> stats[0].Stats?)
    ensures Transmissions(log + stats + [Quit]) == Transmissions(log)
    ensures InPosition(log + stats + [Quit]) == InPosition(log)
  {
    hide Transmissions, LastUpdate, InPosition;
    if stats == [] {
      assert log + stats == log;
    } else {
      assert stats == [stats[0]];
      Snoc(log, stats[0]);
    }
    Snoc(log + stats, Quit);
  }

  /** A whole run, of any length: it has quit exactly after tick c * (N + 1), and by then it has
      transmitted for each of the N grid points once, in row-major order; each in position if the
      receiver is moved or there is one point only. */
  lemma {:induction false} WholeScan(cfg: Config, c: nat, t: nat)
    requires Slots(cfg, c)
    ensures Run(cfg, t).quit <==> t > c * (Points(cfg) + 1)
    ensures Run(cfg, t).quit ==> Transmissions(Run(cfg, t).log) == FirstPoints(cfg, Points(cfg))
    ensures Run(cfg, t).quit ==> (InPosition(Run(cfg, t).log) <==> Moves(c) || Points(cfg) <= 1)
  {
    hide Run, Points, LogOf, StatsBefore, Transmissions, InPosition, LastUpdate, FirstPoints, Grid, Moves;
    var n := Points(cfg);
    QuitsAfterLastSlot(cfg, c, t);
    ScanVisitsTheGrid(cfg, Moves(c), n);
    StatsAreStats(cfg, n);
    QuitAddsNoTransmission(LogOf(cfg, Moves(c), n), StatsBefore(cfg, n));
  }

  // ---------------------------------------------------------------------------------------
  // The statistics
  // ---------------------------------------------------------------------------------------

  /** The points for which statistics have been published, in order. */
  function Statistics(log: seq<Event>): seq<(int, int)> {
    if log == [] then []
    else
      var e := log[|log| - 1];
      if e.Stats? then Statistics(log[..|log| - 1]) + [(e.r, e.z)] else Statistics(log[..|log| - 1])
  }

  /** The points with a positive range and a positive depth, in order. */
  function Positive(points: seq<(int, int)>): seq<(int, int)> {
    if points == [] then []
    else
      var (r, z) := points[|points| - 1];
      Positive(points[..|points| - 1]) + if r > 0 && z > 0 then [(r, z)] else []
  }

  lemma {:induction false} PositiveSnoc(points: seq<(int, int)>, r: int, z: int)
    ensures Positive(points + [(r, z)]) == Positive(points) + if r > 0 && z > 0 then [(r, z)] else []
  {
    var next := points + [(r, z)];
    assert next[..|next| - 1] == points;
  }

  lemma {:induction false} StatisticsSnoc(log: seq<Event>, e: Event)
    ensures Statistics(log + [e]) == Statistics(log) + if e.Stats? then [(e.r, e.z)] else []
  {
    var next := log + [e];
    assert next[..|next| - 1] == log && next[|next| - 1] == e;
  }

  function AllButLast(points: seq<(int, int)>): seq<(int, int)> {
    if points == [] then [] else points[..|points| - 1]
  }

  ghost predicate StatisticsFollow(s: State) {
    var sent := Transmissions(s.log);
    && Statistics(s.log) == Positive(if s.quit then sent else AllButLast(sent))
    && (s.lastR, s.lastZ) == if sent == [] then (-1, -1) else sent[|sent| - 1]
  }

  /** The end of a slot publishes the point sent last, if its range and depth are positive. */
  lemma {:induction false} SlotEndStatistics(s: State)
    requires StatisticsFollow(s) && !s.quit
    ensures var log := s.log + StatsOf(s.lastR, s.lastZ);
      Statistics(log) == Positive(Transmissions(s.log)) && Transmissions(log) == Transmissions(s.log)
  {
    hide Statistics, Transmissions, Positive;
    var sent, stats := Transmissions(s.log), StatsOf(s.lastR, s.lastZ);
    if stats == [] {
      assert s.log + stats == s.log;
    } else {
      Snoc(s.log, stats[0]);
      StatisticsSnoc(s.log, stats[0]);
    }
    if sent != [] {
      var (r, z) := sent[|sent| - 1];
      assert sent == AllButLast(sent) + [(r, z)];
      PositiveSnoc(AllButLast(sent), r, z);
    }
  }

  lemma {:induction false} TickStatistics(cfg: Config, s: State)
    requires StatisticsFollow(s)
    ensures StatisticsFollow(Tick(cfg, s))
  {
    hide Statistics, Transmissions, Positive;
    if s.quit {
      return;
    }
    if s.loops as real == cfg.slotTicks / 2.0 {
      assert s.log + [] == s.log;
      Snoc(s.log, Update(s.r, s.z));
      StatisticsSnoc(s.log, Update(s.r, s.z));
    } else if s.loops as real == 2.0 * cfg.slotTicks {
      SlotEndStatistics(s);
      var log := s.log + StatsOf(s.lastR, s.lastZ);
      if s.complete {
        Snoc(log, Quit);
        StatisticsSnoc(log, Quit);
      } else {
        Snoc(log, Transmit(s.r, s.z));
        StatisticsSnoc(log, Transmit(s.r, s.z));
      }
    }
  }

  /** On every tick, for whatever slot length and steps, statistics have been published for the
      points sent so far other than the last one, in order, leaving out those without a positive
      range and depth; when the tool has quit, for the last one too. */
  lemma {:induction false} StatisticsFollowTransmissions(cfg: Config, t: nat)
    ensures var s := Run(cfg, t);
      Statistics(s.log) == Positive(if s.quit then Transmissions(s.log) else AllButLast(Transmissions(s.log)))
  {
    StatisticsInRun(cfg, t);
  }

  lemma {:induction false} StatisticsInRun(cfg: Config, t: nat)
    ensures StatisticsFollow(Run(cfg, t))
  {
    hide Tick, Transmissions, Statistics, StatisticsFollow;
    if t == 0 {
      StatisticsAtStart(cfg);
    } else {
      StatisticsInRun(cfg, t - 1);
      TickStatistics(cfg, Run(cfg, t - 1));
    }
  }

  lemma {:induction false} StatisticsAtStart(cfg: Config)
    ensures StatisticsFollow(Initial(cfg))
  {
    assert Initial(cfg).log == [] + [Update(cfg.rMin, cfg.zMin)];
    Snoc([], Update(cfg.rMin, cfg.zMin));
    StatisticsSnoc([], Update(cfg.rMin, cfg.zMin));
  }

  // ---------------------------------------------------------------------------------------
  // For which slot lengths the scan works
  // ---------------------------------------------------------------------------------------

  predicate Whole(x: real) {
    x.Floor as real == x
  }

  /** Twice the slot is a positive whole number of ticks. */
  predicate WholeSlots(cfg: Config) {
    cfg.slotTicks > 0.0 && Whole(2.0 * cfg.slotTicks)
  }

  lemma {:induction false} TicksOf(cfg: Config) returns (c: nat)
    requires Proper(cfg) && WholeSlots(cfg)
    ensures Slots(cfg, c) && (Moves(c) <==> Whole(cfg.slotTicks / 2.0))
  {
    c := (2.0 * cfg.slotTicks).Floor;
    Quarter(c);
    assert cfg.slotTicks / 2.0 == c as real / 4.0;
  }

  lemma {:induction false} Quarter(c: nat)
    ensures Whole(c as real / 4.0) <==> c % 4 == 0
  {
    var q, m := c / 4, c % 4;
    assert c as real / 4.0 == q as real + m as real / 4.0;
  }

  lemma {:induction false} TickStaysSilent(cfg: Config, s: State)
    requires !WholeSlots(cfg) && !s.quit && Transmissions(s.log) == []
    ensures var t := Tick(cfg, s); !t.quit && Transmissions(t.log) == []
  {
    hide Transmissions;
    if s.loops as real == 2.0 * cfg.slotTicks {
      assert (s.loops as real).Floor == s.loops;
      assert s.loops as real == cfg.slotTicks / 2.0;
    }
    Snoc(s.log, Update(s.r, s.z));
    assert s.log + [] == s.log;
  }

  lemma {:induction false} StaysSilent(cfg: Config, t: nat)
    requires !WholeSlots(cfg)
    ensures !Run(cfg, t).quit && Transmissions(Run(cfg, t).log) == []
  {
    hide Tick, Transmissions, WholeSlots;
    if t == 0 {
      assert Initial(cfg).log == [] + [Update(cfg.rMin, cfg.zMin)];
      Snoc([], Update(cfg.rMin, cfg.zMin));
      NoTransmissions();
    } else {
      StaysSilent(cfg, t - 1);
      TickStaysSilent(cfg, Run(cfg, t - 1));
    }
  }

  lemma {:induction false} NoTransmissions()
    ensures Transmissions([]) == []
  {
  }

  ghost predicate HasTransmitted(cfg: Config, t: nat) {
    Transmissions(Run(cfg, t).log) != []
  }

  ghost predicate HasQuit(cfg: Config, t: nat) {
    Run(cfg, t).quit
  }

  /** All points have been transmitted for once, in order and in position, and the tool has quit. */
  ghost predicate Scanned(cfg: Config, t: nat)
    requires Proper(cfg)
  {
    var s := Run(cfg, t);
    s.quit && Transmissions(s.log) == FirstPoints(cfg, Points(cfg)) && InPosition(s.log)
  }

  /** Something is ever transmitted, and the tool ever quits, exactly if twice the slot is a
      positive whole number of ticks. */
  lemma {:induction false} TransmitsIff(cfg: Config)
    requires Proper(cfg)
    ensures (exists t: nat :: HasTransmitted(cfg, t)) <==> WholeSlots(cfg)
    ensures (exists t: nat :: HasQuit(cfg, t)) <==> WholeSlots(cfg)
  {
    hide Run, Transmissions, Points, WholeSlots, FirstPoints, InPosition;
    if WholeSlots(cfg) {
      var c, t := LastTick(cfg);
      assert HasQuit(cfg, t) && HasTransmitted(cfg, t);
    } else {
      forall t: nat ensures !HasTransmitted(cfg, t) && !HasQuit(cfg, t) {
        StaysSilent(cfg, t);
      }
    }
  }

  lemma {:induction false} LastTick(cfg: Config) returns (c: nat, t: nat)
    requires Proper(cfg) && WholeSlots(cfg)
    ensures Slots(cfg, c) && (Moves(c) <==> Whole(cfg.slotTicks / 2.0))
    ensures Run(cfg, t).quit && Transmissions(Run(cfg, t).log) == FirstPoints(cfg, Points(cfg)) != []
    ensures InPosition(Run(cfg, t).log) <==> Moves(c) || Points(cfg) <= 1
  {
    hide Run, Transmissions, WholeSlots, InPosition, Moves;
    c := TicksOf(cfg);
    t := c * (Points(cfg) + 1) + 1;
    WholeScan(cfg, c, t);
    RowOf(cfg, 0);
    assert 0 / Columns(cfg) == 0;
  }

  /** The scan does its work exactly if twice the slot is a positive whole number of ticks and half
      a slot is whole too, or there is one grid point only. */
  lemma {:induction false} ScansIff(cfg: Config)
    requires Proper(cfg)
    ensures (exists t: nat :: Scanned(cfg, t)) <==> WholeSlots(cfg) && (Whole(cfg.slotTicks / 2.0) || Points(cfg) == 1)
  {
    hide Run, Transmissions, Points, WholeSlots, FirstPoints, InPosition, Moves, Whole;
    PointsArePositive(cfg);
    if WholeSlots(cfg) {
      var c, last := LastTick(cfg);
      if Whole(cfg.slotTicks / 2.0) || Points(cfg) == 1 {
        assert Scanned(cfg, last);
      } else {
        forall t: nat ensures !Scanned(cfg, t) {
          WholeScan(cfg, c, t);
        }
      }
    } else {
      forall t: nat ensures !Scanned(cfg, t) {
        StaysSilent(cfg, t);
      }
    }
  }

  lemma {:induction false} PointsArePositive(cfg: Config)
    requires Proper(cfg)
    ensures Points(cfg) >= 1
  {
    RowOf(cfg, 0);
    assert 0 / Columns(cfg) == 0;
  }

  lemma {:induction false} StatsKeepUpdate(log: seq<Event>, lastR: int, lastZ: int)
    ensures LastUpdate(log + StatsOf(lastR, lastZ)) == LastUpdate(log)
  {
    hide LastUpdate;
    var stats := StatsOf(lastR, lastZ);
    if stats == [] {
      assert log + stats == log;
    } else {
      Snoc(log, stats[0]);
    }
  }

  lemma {:induction false} TickKeepsUpdate(cfg: Config, s: State)
    requires s.loops as real != cfg.slotTicks / 2.0
    ensures LastUpdate(Tick(cfg, s).log) == LastUpdate(s.log)
  {
    hide LastUpdate, StatsOf;
    StatsKeepUpdate(s.log, s.lastR, s.lastZ);
    var log := s.log + StatsOf(s.lastR, s.lastZ);
    Snoc(log, Quit);
    Snoc(log, Transmit(s.r, s.z));
  }

  /** If half a slot is not a whole number of ticks, the receiver is never moved from the first
      point, whether anything is transmitted or not. */
  lemma {:induction false} ReceiverStaysPut(cfg: Config, t: nat)
    requires !Whole(cfg.slotTicks / 2.0)
    ensures LastUpdate(Run(cfg, t).log) == (cfg.rMin, cfg.zMin)
  {
    hide Tick, LastUpdate;
    if t == 0 {
      assert Initial(cfg).log == [] + [Update(cfg.rMin, cfg.zMin)];
      Snoc([], Update(cfg.rMin, cfg.zMin));
    } else {
      ReceiverStaysPut(cfg, t - 1);
      TickKeepsUpdate(cfg, Run(cfg, t - 1));
    }
  }

  /** A slot of 10.3 ticks: nothing is ever transmitted, and the tool never quits. */
  lemma {:induction false} SomeSlotsNeverTransmit(cfg: Config, t: nat)
    requires cfg.slotTicks == 10.3
    ensures !Run(cfg, t).quit && Transmissions(Run(cfg, t).log) == []
  {
    hide Run, Transmissions;
    assert (20.6 as real).Floor == 20;
    StaysSilent(cfg, t);
  }

  /** A slot of one tick: with more than one point the run is complete, but not in position. */
  lemma {:induction false} SomeSlotsScanOutOfPosition(cfg: Config, t: nat)
    requires Proper(cfg) && cfg.slotTicks == 1.0 && Points(cfg) > 1 && Run(cfg, t).quit
    ensures Transmissions(Run(cfg, t).log) == FirstPoints(cfg, Points(cfg)) && !InPosition(Run(cfg, t).log)
  {
    hide Run, Transmissions, Points, FirstPoints, InPosition;
    WholeScan(cfg, 2, t);
  }
}
