/** The time of a packet's first sample, in seconds and frames. */
module StartTiming {
  import opened Common
  import opened Audio
  import opened Playback
  import opened PlaybackTheorems
  import opened PacketStart
  import opened PacketPlayback

  /** The platform cuts a nonnegative double to a frame count towards zero. */
  ghost predicate CutsToFrames(cfg: Config) {
    cfg.fs > 0 && forall x: real :: x >= 0.0 ==> cfg.toFrames(x) == x.Floor
  }

  /** The start is past, or at least the calibrated latency away. */
  predicate Clear(cfg: Config, start: real, now: real) {
    start <= now || start - now >= cfg.calibration
  }

  /** Frame f of the cycle at `now` is the one for a start: the first frame for a start in the past,
      and otherwise the last one that is not after the start less the latency. */
  predicate OnTime(cfg: Config, start: real, now: real, f: nat)
    requires cfg.fs > 0
  {
    var fs := cfg.fs as real;
    if start <= now then f == 0
    else start - cfg.calibration - 1.0 / fs < now + f as real / fs <= start - cfg.calibration
  }

  /** A cycle of n frames at `now` reaches a start. */
  predicate Reaches(cfg: Config, start: real, now: real, n: nat)
    requires cfg.fs > 0
  {
    start <= now || start - cfg.calibration < now + (n + 1) as real / cfg.fs as real
  }

  lemma {:induction false} ScaledFloor(d: real, fs: real, k: nat)
    requires fs > 0.0 && d >= 0.0
    ensures (d * fs).Floor == k <==> d - 1.0 / fs < k as real / fs <= d
    ensures (d * fs).Floor <= k <==> d < (k + 1) as real / fs
  {
    var x := d * fs;
    assert x / fs == d;
    DivOrder(k as real, x, fs);
    DivOrder(x, (k + 1) as real, fs);
    assert (k + 1) as real / fs == k as real / fs + 1.0 / fs;
  }

  lemma {:induction false} DivOrder(a: real, b: real, c: real)
    requires c > 0.0
    ensures a <= b <==> a / c <= b / c
    ensures a < b <==> a / c < b / c
  {
    DivTimes(a, c);
    DivTimes(b, c);
    TimesOrder(a / c, b / c, c);
  }

  lemma {:induction false} DivTimes(a: real, c: real)
    requires c > 0.0
    ensures a / c * c == a
  {
  }

  lemma {:induction false} TimesOrder(x: real, y: real, c: real)
    requires c > 0.0
    ensures (x <= y <==> x * c <= y * c) && (x < y <==> x * c < y * c)
  {
    if x < y {
      assert (y - x) * c > 0.0;
    } else {
      assert (x - y) * c >= 0.0;
    }
  }

  lemma {:induction false} FrameStartOnTime(cfg: Config, start: real, now: real, n: nat)
    requires CutsToFrames(cfg) && Clear(cfg, start, now)
    ensures OnTime(cfg, start, now, FrameStart(cfg, start, now))
    ensures FrameStart(cfg, start, now) <= n <==> Reaches(cfg, start, now, n)
  {
    if start > now {
      var d, fs := start - now - cfg.calibration, cfg.fs as real;
      ProductNotNegative(d, fs);
      var f := FramesUntil(cfg, start, now);
      assert f == (d * fs).Floor;
      ScaledFloor(d, fs, f);
      ScaledFloor(d, fs, n);
    }
  }

  lemma {:induction false} ProductNotNegative(x: real, y: real)
    requires x >= 0.0 && y >= 0.0
    ensures x * y >= 0.0
  {
  }

  lemma {:induction false} OneFrameIsOnTime(cfg: Config, start: real, now: real, f: nat, g: nat)
    requires cfg.fs > 0 && OnTime(cfg, start, now, f) && OnTime(cfg, start, now, g)
    ensures f == g
  {
    if start > now {
      var fs := cfg.fs as real;
      DivOrder(f as real, (g + 1) as real, fs);
      DivOrder(g as real, (f + 1) as real, fs);
      assert (f + 1) as real / fs == f as real / fs + 1.0 / fs;
      assert (g + 1) as real / fs == g as real / fs + 1.0 / fs;
    }
  }

  /** One cycle with a waiting packet: it writes something exactly if enough blocks are queued and
      the cycle reaches the packet's start, and then the first sample of the packet is written at
      the frame of its start, after zeros. */
  lemma {:induction false} FirstSampleOnTime(cfg: Config, s: Slot, now: real, n: nat, f: nat)
    requires s.newPacket && s.queue != [] && s.queue[0].buffer.Buffer?
    requires CutsToFrames(cfg) && Clear(cfg, s.queue[0].buffer.startTime, now)
    ensures var start := s.queue[0].buffer.startTime; var (t, o) := Cycle(cfg, s, now, n);
      && (o.Wrote? <==> |s.queue| >= cfg.minPlayback && Reaches(cfg, start, now, n))
      && (o.Silent? ==> t.newPacket && t.queue == s.queue)
      && (o.Wrote? && OnTime(cfg, start, now, f) ==>
           f <= n && !t.newPacket && o.samples == Zeros(f) + PadTake(Stream(s.queue), n - f))
      && (o.Wrote? ==> exists g: nat :: g <= n && OnTime(cfg, start, now, g))
  {
    hide Stream, PadTake, FrameStart, OnTime, Reaches;
    var start := s.queue[0].buffer.startTime;
    var g := FrameStart(cfg, start, now);
    FrameStartOnTime(cfg, start, now, n);
    if OnTime(cfg, start, now, f) {
      OneFrameIsOnTime(cfg, start, now, f, g);
    }
    if Begins(cfg, s, now, n) {
      FirstCycle(cfg, s, now, n);
    }
  }

  /** A cycle that ends too long before the start, less the latency, writes nothing. */
  lemma {:induction false} TooEarlyIsSilent(cfg: Config, s: Slot, now: real, n: nat)
    requires s.newPacket && s.queue != [] && s.queue[0].buffer.Buffer? && s.queue[0].buffer.startTime > now
    requires CutsToFrames(cfg)
    requires s.queue[0].buffer.startTime - cfg.calibration >= now + (n + 1) as real / cfg.fs as real
    ensures Cycle(cfg, s, now, n) == (s.(index := 0), Silent)
  {
    hide FrameStart, Play;
    var start := s.queue[0].buffer.startTime;
    DivOrder(0.0, (n + 1) as real, cfg.fs as real);
    FrameStartOnTime(cfg, start, now, n);
  }

  /** In cycle i of a run the packet that q begins with is due, and enough of it is there. */
  predicate DueAt(cfg: Config, q: seq<Tagged>, es: seq<Event>, n: nat, i: nat)
    requires cfg.fs > 0 && q != [] && q[0].buffer.Buffer?
  {
    && i < |es| && es[i].Tick? && |q| + |Pushed(es[..i])| >= cfg.minPlayback
    && Reaches(cfg, q[0].buffer.startTime, es[i].now, n)
  }

  /** Over a whole run from its START, a packet is played exactly if some cycle reaches its start
      with enough blocks there, and in the first such cycle b its first sample is written at the
      frame of its start. */
  lemma {:induction false} PacketStartsOnTime(cfg: Config, before: Slot, first: Tagged, es: seq<Event>, n: nat, b: nat)
    requires Playable(before.queue) && first.marker == START && first.buffer.Buffer? && OfOnePacket(es)
    requires CutsToFrames(cfg)
    requires forall i :: 0 <= i < |es| && es[i].Tick? ==> Clear(cfg, first.buffer.startTime, es[i].now)
    requires b <= |es| && (b < |es| ==> DueAt(cfg, [first], es, n, b))
    requires forall i: nat :: i < b ==> !DueAt(cfg, [first], es, n, i)
    ensures var s := AudioOut(before, first); var (t, w) := RunSlot(cfg, s, es, n);
      && (b == |es| ==> t.newPacket && w == [])
      && (b < |es| ==> !t.newPacket && OnTime(cfg, first.buffer.startTime, es[b].now, StartFrame(cfg, s, es, n)))
  {
    hide RunSlot, StartFrame, OnTime, Reaches, FrameStart, Pushed;
    var s := AudioOut(before, first);
    forall i: nat ensures BeginsAt(cfg, [first], es, n, i) <==> DueAt(cfg, [first], es, n, i) {
      if i < |es| && es[i].Tick? {
        FrameStartOnTime(cfg, first.buffer.startTime, es[i].now, n);
      }
    }
    BeginsInFirstCycle(cfg, s, es, n, b);
    if b < |es| {
      FrameStartOnTime(cfg, first.buffer.startTime, es[b].now, n);
    }
  }
}
