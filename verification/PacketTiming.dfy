/** Whole packets whose blocks come late: when there is no underrun, and what an underrun does. */
module PacketTiming {
  import opened Common
  import opened Audio
  import opened Playback
  import opened PlaybackTheorems
  import opened PacketStart
  import opened PacketPlayback

  // ---------------------------------------------------------------------------------------
  // Arrivals that rule out an underrun
  // ---------------------------------------------------------------------------------------

  /** Starting with a lead of blocks over cycles, each cycle before the last arrival has been
      preceded by more blocks than cycles. */
  ghost predicate Supplied(es: seq<Event>, blocks: nat, cycles: nat) {
    forall i :: 0 <= i < |es| && es[i].Tick? && !NoPush(es[i + 1..]) ==>
      blocks + |Pushed(es[..i])| > cycles + Ticks(es[..i])
  }

  ghost predicate LongBlocks(ts: seq<Tagged>, n: nat) {
    forall t :: t in ts ==> |t.buffer.Data()| >= n
  }

  lemma {:induction false} SuppliedTail(es: seq<Event>, blocks: nat, cycles: nat)
    requires es != [] && Supplied(es, blocks, cycles)
    ensures Supplied(es[1..], blocks + |Pushed([es[0]])|, cycles + Ticks([es[0]]))
    ensures |Pushed([es[0]])| == if es[0].Push? then 1 else 0
    ensures Ticks([es[0]]) == if es[0].Tick? then 1 else 0
    ensures es[0].Tick? && !NoPush(es[1..]) ==> blocks > cycles
  {
    hide NoPush;
    assert es[..0] == [] && [es[0]][1..] == [];
    forall i | 0 <= i < |es[1..]| && es[1..][i].Tick? && !NoPush(es[1..][i + 1..])
      ensures blocks + |Pushed([es[0]])| + |Pushed(es[1..][..i])| > cycles + Ticks([es[0]]) + Ticks(es[1..][..i])
    {
      SuppliedLater(es, blocks, cycles, i + 1);
    }
  }

  lemma {:induction false} SuppliedLater(es: seq<Event>, blocks: nat, cycles: nat, i: nat)
    requires Supplied(es, blocks, cycles) && 0 < i < |es| && es[1..][i - 1].Tick? && !NoPush(es[1..][i..])
    ensures blocks + |Pushed([es[0]])| + |Pushed(es[1..][..i - 1])| > cycles + Ticks([es[0]]) + Ticks(es[1..][..i - 1])
  {
    hide NoPush, Pushed, Ticks;
    assert es[1..][i..] == es[i + 1..] && es[i] == es[1..][i - 1];
    assert es[..i] == [es[0]] + es[1..][..i - 1];
    PushedConcat([es[0]], es[1..][..i - 1]);
  }

  lemma {:induction false} OneMoreTimes(k: nat, n: nat)
    ensures (k + 1) * n == k * n + n
  {
  }

  lemma {:induction false} Enough(blocks: nat, cycles: nat, n: nat)
    requires blocks > cycles
    ensures blocks * n >= cycles * n + n
  {
    var d: nat := blocks - cycles - 1;
    assert blocks * n == cycles * n + n + d * n;
    assert d * n >= 0;
  }

  lemma {:induction false} SuppliedPlays(cfg: Config, s: Slot, es: seq<Event>, n: nat, received: seq<Sample>, p: nat,
                                         blocks: nat, cycles: nat)
    requires Playable(s.queue) && OfOnePacket(es) && !s.newPacket && Aligned(s, received, p)
    requires LongBlocks(Pushed(es), n) && Supplied(es, blocks, cycles) && (s.queue == [] ==> s.index <= n)
    requires |received| >= blocks * n && p <= cycles * n
    ensures Timely(cfg, s, es, n)
    decreases |es|
  {
    hide Supplied, Cycle, AudioOut, Unread, Stream;
    if es != [] {
      assert es[0] in es;
      NextIsPlayable(cfg, s, es[0], n);
      SuppliedTail(es, blocks, cycles);
      OneMoreTimes(blocks, n);
      OneMoreTimes(cycles, n);
      var s1, _ := RunStep(cfg, s, es, n);
      match es[0] {
        case Push(t) =>
          assert Pushed(es) == [t] + Pushed(es[1..]) && Pushed(es)[0] == t;
          assert LongBlocks(Pushed(es[1..]), n);
          PushKeepsAlignment(s, t, received, p);
          NextAfterPush(cfg, s, es[0], n);
          SuppliedPlays(cfg, s1, es[1..], n, received + t.buffer.Data(), p, blocks + 1, cycles);
        case Tick(now) =>
          if !NoPush(es[1..]) {
            Enough(blocks, cycles, n);
          }
          if s.queue == [] {
            SuppliedPlays(cfg, s1, es[1..], n, received, p, blocks, cycles + 1);
          } else {
            CycleKeepsAlignment(cfg, s, now, n, received, p);
            SuppliedPlays(cfg, s1, es[1..], n, received, p + n, blocks, cycles + 1);
          }
      }
    }
  }

  lemma {:induction false} StreamLength(q: seq<Tagged>, n: nat)
    requires LongBlocks(q, n)
    ensures |Stream(q)| >= |q| * n
  {
    if q != [] {
      assert q[0] in q && LongBlocks(q[1..], n);
      StreamCons(q);
      StreamLength(q[1..], n);
      OneMoreTimes(|q| - 1, n);
    }
  }

  lemma {:induction false} SuppliedBegins(cfg: Config, s: Slot, es: seq<Event>, n: nat)
    requires Waiting(s, es) && es != [] && BeginsAt(cfg, s.queue, es, n, 0)
    requires LongBlocks(s.queue, n) && LongBlocks(Pushed(es), n) && Supplied(es[1..], |s.queue|, 1)
    ensures Timely(cfg, s, es, n)
  {
    hide Supplied, Stream, Unread, Aligned, LongBlocks, Cycle;
    assert es[0] in es && es[..0] == [];
    PushedAfterTick(es);
    NextIsPlayable(cfg, s, es[0], n);
    FirstCycle(cfg, s, es[0].now, n);
    UnreadFromZero(s.queue);
    StreamLength(s.queue, n);
    Enough(|s.queue|, 0, n);
    var f := FrameStart(cfg, s.queue[0].buffer.startTime, es[0].now);
    var t := Next(cfg, s, es[0], n).0;
    AlignedIndex(t, Stream(s.queue), n - f);
    SuppliedPlays(cfg, t, es[1..], n, Stream(s.queue), n - f, |s.queue|, 1);
  }

  lemma {:induction false} AlignedIndex(s: Slot, received: seq<Sample>, p: nat)
    requires Aligned(s, received, p)
    ensures s.queue == [] ==> s.index <= p
    ensures s.queue != [] ==> p <= |received|
  {
  }

  /** If, from the cycle in which the packet begins on, each cycle before the last arrival has been
      preceded by more blocks than cycles, then there is no underrun, whatever the clock says. */
  lemma {:induction false} SuppliedIsTimely(cfg: Config, s: Slot, es: seq<Event>, n: nat, b: nat)
    requires Waiting(s, es) && FirstBegin(cfg, s.queue, es, n, b)
    requires LongBlocks(s.queue, n) && LongBlocks(Pushed(es), n)
    requires b < |es| ==> Supplied(es[b + 1..], |s.queue| + |Pushed(es[..b])|, 1)
    ensures Timely(cfg, s, es, n)
    decreases |es|
  {
    hide Timely, Supplied, BeginsAt, FrameStart, LongBlocks, RunSlot, StartFrame, Next, Begins;
    if es == [] {
      TimelyEnd(cfg, s, n);
    } else {
      if b == 0 {
        assert es[..0] == [];
        SuppliedBegins(cfg, s, es, n);
      } else {
        var s1 := WaitOne(cfg, s, es, n);
        FirstBeginTail(cfg, s.queue, es, n, b);
        LongBlocksTail(s.queue, es, n);
        if b < |es| {
          assert es[1..][b - 1 + 1..] == es[b + 1..];
        }
        SuppliedIsTimely(cfg, s1, es[1..], n, b - 1);
        TimelyWait(cfg, s, es, n);
      }
    }
  }

  lemma {:induction false} TimelyEnd(cfg: Config, s: Slot, n: nat)
    requires Playable(s.queue)
    ensures Timely(cfg, s, [], n)
  {
  }

  lemma {:induction false} FirstBeginTail(cfg: Config, q: seq<Tagged>, es: seq<Event>, n: nat, b: nat)
    requires q != [] && q[0].buffer.Buffer? && FirstBegin(cfg, q, es, n, b) && b > 0
    ensures FirstBegin(cfg, q + Pushed([es[0]]), es[1..], n, b - 1)
    ensures |q| + |Pushed(es[..b])| == |q + Pushed([es[0]])| + |Pushed(es[1..][..b - 1])|
  {
    hide BeginsAt;
    BeginsAtTail(cfg, q, es, n, b);
    forall i: nat | i < b - 1 ensures !BeginsAt(cfg, q + Pushed([es[0]]), es[1..], n, i) {
      BeginsAtTail(cfg, q, es, n, i + 1);
    }
  }

  lemma {:induction false} LongBlocksTail(q: seq<Tagged>, es: seq<Event>, n: nat)
    requires LongBlocks(q, n) && LongBlocks(Pushed(es), n) && es != []
    ensures LongBlocks(q + Pushed([es[0]]), n) && LongBlocks(Pushed(es[1..]), n)
  {
    assert es == [es[0]] + es[1..];
    PushedConcat([es[0]], es[1..]);
    assert forall t :: t in Pushed([es[0]]) ==> t in Pushed(es);
    assert forall t :: t in Pushed(es[1..]) ==> t in Pushed(es);
  }

  lemma {:induction false} TimelyWait(cfg: Config, s: Slot, es: seq<Event>, n: nat)
    requires Waiting(s, es) && es != [] && (es[0].Tick? ==> !Begins(cfg, s, es[0].now, n))
    requires Playable(Next(cfg, s, es[0], n).0.queue) && OfOnePacket(es[1..])
    requires Timely(cfg, Next(cfg, s, es[0], n).0, es[1..], n)
    ensures Timely(cfg, s, es, n)
  {
  }

  // ---------------------------------------------------------------------------------------
  // A whole packet, with underruns
  // ---------------------------------------------------------------------------------------

  /** The slot right after the cycle b in which the packet begins. */
  lemma {:induction false} AfterBegin(cfg: Config, s: Slot, es: seq<Event>, n: nat, b: nat) returns (t: Slot)
    requires Waiting(s, es) && FirstBegin(cfg, s.queue, es, n, b) && b < |es|
    ensures es[b].Tick? && OfOnePacket(es[..b + 1]) && OfOnePacket(es[b + 1..])
    ensures var f := FrameStart(cfg, s.queue[0].buffer.startTime, es[b].now);
      var received := Stream(s.queue + Pushed(es[..b]));
      && f <= n && !t.newPacket && Aligned(t, received, n - f) && (t.queue == [] ==> t.index <= n)
      && (t.queue == [] <==> n - f > |received|)
      && RunSlot(cfg, s, es[..b + 1], n) == (t, Zeros(f) + PadTake(received, n - f))
  {
    hide Stream, Aligned, PadTake, StartFrame, Cycle, Unread, FrameStart, RunSlot, BeginsAt;
    UpToBegin(cfg, s, es, n, b);
    var part := es[..b + 1];
    var s1 := Waits(cfg, s, part, n, b);
    BeginsNow(cfg, s, s1, es, n, b);
    FirstCycle(cfg, s1, es[b].now, n);
    t := Next(cfg, s1, es[b], n).0;
    OneCycle(cfg, s1, es[b], n);
    AlignedIndex(t, Stream(s.queue + Pushed(es[..b])), n - FrameStart(cfg, s.queue[0].buffer.startTime, es[b].now));
  }

  lemma {:induction false} BeginsNow(cfg: Config, s: Slot, s1: Slot, es: seq<Event>, n: nat, b: nat)
    requires Waiting(s, es) && BeginsAt(cfg, s.queue, es, n, b)
    requires s1.queue == s.queue + Pushed(es[..b])
    ensures s1.queue[0] == s.queue[0] && es[b].Tick? && Begins(cfg, s1, es[b].now, n)
  {
  }

  lemma {:induction false} UpToBegin(cfg: Config, s: Slot, es: seq<Event>, n: nat, b: nat)
    requires Waiting(s, es) && FirstBegin(cfg, s.queue, es, n, b) && b < |es|
    ensures var part := es[..b + 1];
      && Waiting(s, part) && OfOnePacket(es[b + 1..]) && part[..b] == es[..b] && part[b..] == [es[b]]
      && forall i: nat :: i < b ==> !BeginsAt(cfg, s.queue, part, n, i)
  {
    hide FrameStart;
    var part := es[..b + 1];
    assert forall e :: (e in part ==> e in es) && (e in es[b + 1..] ==> e in es);
    forall i: nat | i < b ensures !BeginsAt(cfg, s.queue, part, n, i) {
      assert part[..i] == es[..i] && part[i] == es[i] && !BeginsAt(cfg, s.queue, es, n, i);
    }
  }

  lemma {:induction false} OneCycle(cfg: Config, s: Slot, e: Event, n: nat)
    requires s.newPacket && s.queue != [] ==> s.queue[0].buffer.Buffer?
    requires e.Tick?
    ensures RunSlot(cfg, s, [e], n) == (Next(cfg, s, e, n).0, Samples(Next(cfg, s, e, n).1))
  {
    assert [e][1..] == [];
    assert Samples(Next(cfg, s, e, n).1) + [] == Samples(Next(cfg, s, e, n).1);
  }

  /** What is due of a packet that begins in cycle b, after the silence before its first sample. */
  function DueFrom(cfg: Config, q: seq<Tagged>, es: seq<Event>, n: nat, b: nat): seq<Sample>
    requires q != [] && q[0].buffer.Buffer? && BeginsAt(cfg, q, es, n, b)
  {
    var received, m := Stream(q + Pushed(es[..b])), n - FrameStart(cfg, q[0].buffer.startTime, es[b].now);
    PadTake(received, m) + Due(es[b + 1..], n, received, m, m > |received|)
  }

  /** A whole packet from its START, underruns included, if late blocks cover the zeros played in
      their place: it is written as StartFrame zeros and then exactly as it is due, that is, each
      sample that has arrived by its cycle at its own position and zeros for the others; and only
      starved cycles delay it, each by one period. */
  lemma {:induction false} PacketKeepsTime(cfg: Config, s: Slot, es: seq<Event>, n: nat, b: nat)
    requires Waiting(s, es) && FirstBegin(cfg, s.queue, es, n, b) && b < |es|
    requires OfOnePacket(es[..b + 1]) && OfOnePacket(es[b + 1..])
    requires var t := RunSlot(cfg, s, es[..b + 1], n).0; !t.newPacket ==> LateBlocksCover(cfg, t, es[b + 1..], n)
    ensures var t := RunSlot(cfg, s, es[..b + 1], n).0;
      var w, f := RunSlot(cfg, s, es, n).1, StartFrame(cfg, s, es, n);
      && f == FrameStart(cfg, s.queue[0].buffer.startTime, es[b].now) && !t.newPacket
      && f <= |w| && w == Zeros(f) + DueFrom(cfg, s.queue, es, n, b)
      && StreamOrZero(w[f..], Stream(s.queue + Pushed(es)), 0)
      && |w| + n * Starved(cfg, t, es[b + 1..], n) == n * Ticks(es[b..])
  {
    hide Stream, Aligned, PadTake, StartFrame, RunSlot, StreamOrZero, Drop, FrameStart, Starved, LateBlocksCover,
      BeginsAt, Ticks, Pushed, Due;
    var t := AfterBegin(cfg, s, es, n, b);
    BeginsInFirstCycle(cfg, s, es, n, b);
    var f := FrameStart(cfg, s.queue[0].buffer.startTime, es[b].now);
    var front, rest := es[..b + 1], es[b + 1..];
    var q := s.queue + Pushed(es[..b]);
    var received := Stream(q);
    assert es == front + rest;
    RunConcat(cfg, s, front, rest, n);
    UnderrunKeepsTime(cfg, t, rest, n, received, n - f);
    var w0, w1 := PadTake(received, n - f), RunSlot(cfg, t, rest, n).1;
    FromZero(received, w0, w1, Stream(Pushed(rest)), n - f);
    PushesAround(es, b);
    ConcatAssoc(s.queue, Pushed(es[..b]), Pushed(rest));
    StreamConcat(q, Pushed(rest));
    JoinZeros(f, w0, w1);
    Distribute(n, Ticks(rest), 0);
  }

  lemma {:induction false} PushesAround(es: seq<Event>, b: nat)
    requires b < |es| && es[b].Tick?
    ensures Pushed(es) == Pushed(es[..b]) + Pushed(es[b + 1..]) && Ticks(es[b..]) == 1 + Ticks(es[b + 1..])
  {
    assert es == es[..b] + es[b..] && es[b..][0] == es[b] && es[b..][1..] == es[b + 1..];
    PushedConcat(es[..b], es[b..]);
  }

  lemma {:induction false} FromZero(received: seq<Sample>, w0: seq<Sample>, w1: seq<Sample>, rest: seq<Sample>, m: nat)
    requires w0 == PadTake(received, m) && StreamOrZero(w1, received + rest, m)
    ensures StreamOrZero(w0 + w1, received + rest, 0)
  {
    hide StreamOrZero, PadTake;
    DropNothing(received);
    OneCycleMore(w0, w1, received, rest, 0, m);
  }

  lemma {:induction false} JoinZeros(f: nat, w0: seq<Sample>, w1: seq<Sample>)
    ensures var w := Zeros(f) + w0 + w1; w == Zeros(f) + (w0 + w1) && w[f..] == w0 + w1
  {
  }

  /** Blocks of one audio period always cover: such a packet keeps time through every underrun. */
  lemma {:induction false} PeriodicPacketKeepsTime(cfg: Config, s: Slot, es: seq<Event>, n: nat, b: nat)
    requires Waiting(s, es) && FirstBegin(cfg, s.queue, es, n, b) && b < |es|
    requires forall e :: e in es && e.Push? ==> |e.t.buffer.Data()| == n
    ensures var w, f := RunSlot(cfg, s, es, n).1, StartFrame(cfg, s, es, n);
      && f == FrameStart(cfg, s.queue[0].buffer.startTime, es[b].now)
      && f <= |w| && w == Zeros(f) + DueFrom(cfg, s.queue, es, n, b)
      && StreamOrZero(w[f..], Stream(s.queue + Pushed(es)), 0)
  {
    hide Stream, Aligned, PadTake, StartFrame, RunSlot, StreamOrZero, FrameStart, LateBlocksCover, BeginsAt, Pushed,
      Due;
    var t := AfterBegin(cfg, s, es, n, b);
    var f := FrameStart(cfg, s.queue[0].buffer.startTime, es[b].now);
    assert forall e :: e in es[b + 1..] ==> e in es;
    BlocksOfOnePeriodCover(cfg, t, es[b + 1..], n, Stream(s.queue + Pushed(es[..b])), n - f);
    PacketKeepsTime(cfg, s, es, n, b);
  }
}
