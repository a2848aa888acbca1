/** Queue and index together are one unread sample stream, whatever the interleaving. */
module PlaybackTheorems {
  import opened Common
  import opened Audio
  import opened Playback

  function Drop(xs: seq<Sample>, k: nat): seq<Sample> {
    if k <= |xs| then xs[k..] else []
  }

  /** The stream still to be played: the rest of the front block, then the blocks behind it. */
  function Unread(q: seq<Tagged>, i: nat): seq<Sample> {
    if q == [] then [] else Drop(q[0].buffer.Data(), i) + Stream(q[1..])
  }

  lemma {:induction false} StreamCons(q: seq<Tagged>)
    requires q != []
    ensures Stream(q) == q[0].buffer.Data() + Stream(q[1..])
  {
    assert Blocks(q)[1..] == Blocks(q[1..]);
  }

  lemma {:induction false} UnreadFromZero(q: seq<Tagged>)
    ensures Unread(q, 0) == Stream(q)
  {
    if q != [] {
      StreamCons(q);
    }
  }

  lemma {:induction false} SettleKeepsUnread(q: seq<Tagged>, i: nat)
    ensures var (q1, i1) := Settle(q, i); Unread(q1, i1) == Unread(q, i)
  {
    if q != [] && i >= |q[0].buffer.Data()| {
      UnreadFromZero(q[1..]);
      SettleKeepsUnread(q[1..], 0);
    }
  }

  lemma {:induction false} SettleEmpties(q: seq<Tagged>, i: nat)
    requires q != []
    ensures var (q1, i1) := Settle(q, i); q1 == [] <==> Unread(q, i) == []
    ensures Settle(q, i).0 == [] ==> Settle(q, i).1 == 0
  {
    if i >= |q[0].buffer.Data()| && q[1..] != [] {
      UnreadFromZero(q[1..]);
      SettleEmpties(q[1..], 0);
    } else if i >= |q[0].buffer.Data()| {
      assert Stream([]) == [];
    } else {
      assert Unread(q, i)[0] == q[0].buffer.Data()[i];
    }
  }

  lemma {:induction false} PlayEmpty(i: nat, m: nat)
    ensures Play([], i, m) == ([], i + m, Zeros(m)) && Unread([], i + m) == []
    decreases m
  {
    if m == 0 {
      assert Zeros(0) == [];
    } else {
      PlayEmpty(i + 1, m - 1);
      assert Zeros(m) == [0.0] + Zeros(m - 1);
    }
  }

  /** Playing m samples writes the next m unread ones, zeros once they run out, and consumes
      exactly those; the queue is emptied only by running out, and then the index is the number
      of zeros played. */
  lemma {:induction false} PlayReadsTheStream(q: seq<Tagged>, i: nat, m: nat)
    requires q != []
    ensures var (q', i', xs) := Play(q, i, m); var u := Unread(q, i);
      && xs == PadTake(u, m)
      && Unread(q', i') == Drop(u, m)
      && (q' == [] <==> m > |u|)
      && (q' == [] ==> i' == m - |u|)
    decreases m
  {
    hide Play, Unread, PadTake, Drop;
    if m == 0 {
      PlayNothing(q, i);
    } else {
      var q1, i1, x := PlayStep(q, i, m);
      if q1 == [] {
        PlayEmpty(1, m - 1);
        ZerosMore(m);
      } else {
        TakeStep(Unread(q, i), m);
        PlayReadsTheStream(q1, i1 + 1, m - 1);
        assert Unread(q, i)[1..] == Unread(q1, i1 + 1);
      }
    }
  }

  lemma {:induction false} PlayNothing(q: seq<Tagged>, i: nat)
    ensures Play(q, i, 0) == (q, i, PadTake(Unread(q, i), 0)) && Drop(Unread(q, i), 0) == Unread(q, i)
  {
    hide Unread;
  }

  lemma {:induction false} PlayStep(q: seq<Tagged>, i: nat, m: nat) returns (q1: seq<Tagged>, i1: nat, x: Sample)
    requires m > 0 && q != []
    ensures var r := Play(q1, i1 + 1, m - 1); Play(q, i, m) == (r.0, r.1, [x] + r.2)
    ensures q1 == [] ==> i1 == 0 && x == 0.0 && Unread(q, i) == []
    ensures q1 != [] ==> Unread(q, i) == [x] + Unread(q1, i1 + 1)
  {
    q1, i1 := Settle(q, i).0, Settle(q, i).1;
    SettleStops(q, i);
    SettleKeepsUnread(q, i);
    SettleEmpties(q, i);
    x := if q1 == [] then 0.0 else q1[0].buffer.Data()[i1];
    if q1 != [] {
      UnreadStep(q1, i1);
    }
  }

  lemma {:induction false} UnreadStep(q: seq<Tagged>, i: nat)
    requires q != [] && i < |q[0].buffer.Data()|
    ensures Unread(q, i) == [q[0].buffer.Data()[i]] + Unread(q, i + 1)
  {
  }

  lemma {:induction false} ZerosMore(m: nat)
    requires m > 0
    ensures PadTake([], m) == Zeros(m) == [0.0] + Zeros(m - 1) && Drop([], m) == []
  {
  }

  lemma {:induction false} TakeStep(u: seq<Sample>, m: nat)
    requires m > 0 && u != []
    ensures PadTake(u, m) == [u[0]] + PadTake(u[1..], m - 1) && Drop(u, m) == Drop(u[1..], m - 1)
  {
  }

  // ---------------------------------------------------------------------------------------
  // Runs: callbacks and audio cycles in any order
  // ---------------------------------------------------------------------------------------

  datatype Event = Push(t: Tagged) | Tick(now: real)

  ghost predicate OfOnePacket(es: seq<Event>) {
    forall e :: e in es && e.Push? ==> e.t.buffer.Buffer? && e.t.marker != START
  }

  /** The slot after one event of a packet, and what the event writes. */
  function Next(cfg: Config, s: Slot, e: Event, n: nat): (Slot, Output)
    requires s.newPacket && s.queue != [] ==> s.queue[0].buffer.Buffer?
  {
    match e
    case Push(t) => (AudioOut(s, t), Silent)
    case Tick(now) => Cycle(cfg, s, now, n)
  }

  function Samples(o: Output): seq<Sample> {
    if o.Silent? then [] else o.samples
  }

  /** The slot after a run, and all samples the run writes. */
  function RunSlot(cfg: Config, s: Slot, es: seq<Event>, n: nat): (Slot, seq<Sample>)
    requires s.newPacket && s.queue != [] ==> s.queue[0].buffer.Buffer?
    requires forall e :: e in es && e.Push? ==> e.t.buffer.Buffer?
    decreases |es|
  {
    if es == [] then (s, [])
    else
      assert es[0] in es;
      var (s1, o) := Next(cfg, s, es[0], n);
      var (s2, w) := RunSlot(cfg, s1, es[1..], n);
      (s2, Samples(o) + w)
  }

  /** The sample stream a run pushes. */
  function Pushed(es: seq<Event>): seq<Tagged> {
    if es == [] then []
    else if es[0].Push? then [es[0].t] + Pushed(es[1..])
    else Pushed(es[1..])
  }

  // ---------------------------------------------------------------------------------------
  // Alignment: playback at position p of the packet's stream
  // ---------------------------------------------------------------------------------------

  /** What is unread is the received stream from position p on; after an underrun the index is
      how far playback has run ahead of what was received. */
  predicate Aligned(s: Slot, received: seq<Sample>, p: nat) {
    if s.queue != [] then p <= |received| && Unread(s.queue, s.index) == received[p..]
    else s.index + |received| == p
  }

  /** An arriving block keeps time unless it ends an underrun and is shorter than the zeros played
      in its place. */
  lemma {:induction false} PushKeepsAlignment(s: Slot, t: Tagged, received: seq<Sample>, p: nat)
    requires Aligned(s, received, p) && t.marker != START
    ensures Aligned(AudioOut(s, t), received + t.buffer.Data(), p)
       <==> (s.queue == [] ==> s.index <= |t.buffer.Data()|)
  {
    var q := s.queue;
    if q == [] {
      assert Stream([]) == [];
      assert (q + [t])[1..] == [];
    } else {
      assert (q + [t])[1..] == q[1..] + [t];
      StreamConcat(q[1..], [t]);
      StreamOne(t);
    }
  }

  lemma {:induction false} CycleKeepsAlignment(cfg: Config, s: Slot, now: real, n: nat, received: seq<Sample>, p: nat)
    requires Aligned(s, received, p) && !s.newPacket && s.queue != []
    ensures var (t, o) := Cycle(cfg, s, now, n);
      && o == Wrote(PadTake(Drop(received, p), n)) && !t.newPacket
      && Aligned(t, received, p + n) && (t.queue == [] ==> t.index <= n)
      && (t.queue == [] <==> p + n > |received|)
  {
    PlayReadsTheStream(s.queue, s.index, n);
    var xs := Play(s.queue, s.index, n).2;
    assert Zeros(0) + xs == xs;
  }

  /** A block that ends an underrun is at least as long as the zeros played in its place. */
  ghost predicate LateBlocksCover(cfg: Config, s: Slot, es: seq<Event>, n: nat)
    requires !s.newPacket && OfOnePacket(es)
    decreases |es|
  {
    es == [] || (
      assert es[0] in es;
      && (es[0].Push? && s.queue == [] ==> s.index <= |es[0].t.buffer.Data()|)
      && LateBlocksCover(cfg, Next(cfg, s, es[0], n).0, es[1..], n))
  }

  /** Cycles that find the queue empty, and so write nothing. */
  function Starved(cfg: Config, s: Slot, es: seq<Event>, n: nat): nat
    requires !s.newPacket
    requires forall e :: e in es && e.Push? ==> e.t.buffer.Buffer? && e.t.marker != START
    decreases |es|
  {
    if es == [] then 0
    else
      assert es[0] in es;
      (if es[0].Tick? && s.queue == [] then 1 else 0) + Starved(cfg, Next(cfg, s, es[0], n).0, es[1..], n)
  }

  function Ticks(es: seq<Event>): nat {
    if es == [] then 0 else (if es[0].Tick? then 1 else 0) + Ticks(es[1..])
  }

  /** Sample k of xs is sample p + k of the stream, or a zero. */
  ghost predicate StreamOrZero(xs: seq<Sample>, stream: seq<Sample>, p: nat) {
    forall k :: 0 <= k < |xs| ==> xs[k] == 0.0 || (p + k < |stream| && xs[k] == stream[p + k])
  }

  /** What is due, from the arrivals and cycles alone: a cycle writes what has arrived of the n
      samples at its position and zeros for the rest, until it runs out; from then on nothing,
      until a block arrives. */
  function Due(es: seq<Event>, n: nat, received: seq<Sample>, p: nat, out: bool): seq<Sample> {
    if es == [] then []
    else if es[0].Push? then Due(es[1..], n, received + es[0].t.buffer.Data(), p, false)
    else if out then Due(es[1..], n, received, p, true)
    else PadTake(Drop(received, p), n) + Due(es[1..], n, received, p + n, p + n > |received|)
  }

  /** Underruns keep time: what is written is exactly what is due, that is, each sample that has
      arrived by its cycle is played at its own position; and each starved cycle, and nothing else,
      delays playback by n. */
  lemma {:induction false} UnderrunKeepsTime(cfg: Config, s: Slot, es: seq<Event>, n: nat, received: seq<Sample>,
                                             p: nat)
    requires OfOnePacket(es) && !s.newPacket && Aligned(s, received, p)
    requires LateBlocksCover(cfg, s, es, n)
    ensures RunSlot(cfg, s, es, n).1 == Due(es, n, received, p, s.queue == [])
    ensures StreamOrZero(RunSlot(cfg, s, es, n).1, received + Stream(Pushed(es)), p)
    ensures |RunSlot(cfg, s, es, n).1| + n * Starved(cfg, s, es, n) == n * Ticks(es)
    decreases |es|
  {
    hide Cycle, RunSlot, Aligned, Stream, StreamOrZero, AudioOut, PadTake, Drop;
    DueIsStreamOrZero(es, n, received, p, s.queue == []);
    if es == [] {
      NothingWritten(cfg, s, n, received, p);
    } else {
      var s1, w := RunStep(cfg, s, es, n);
      match es[0] {
        case Push(t) =>
          PushKeepsAlignment(s, t, received, p);
          PushFillsQueue(s, t);
          UnderrunKeepsTime(cfg, s1, es[1..], n, received + t.buffer.Data(), p);
        case Tick(now) =>
          if s.queue == [] {
            UnderrunKeepsTime(cfg, s1, es[1..], n, received, p);
            Distribute(n, Starved(cfg, s1, es[1..], n), Ticks(es[1..]));
          } else {
            CycleKeepsAlignment(cfg, s, now, n, received, p);
            UnderrunKeepsTime(cfg, s1, es[1..], n, received, p + n);
            Distribute(n, 0, Ticks(es[1..]));
          }
      }
    }
  }

  lemma {:induction false} PushFillsQueue(s: Slot, t: Tagged)
    ensures AudioOut(s, t).queue != []
  {
  }

  /** What is due is the sample of its position or, where nothing had arrived in time, a zero. */
  lemma {:induction false} DueIsStreamOrZero(es: seq<Event>, n: nat, received: seq<Sample>, p: nat, out: bool)
    ensures StreamOrZero(Due(es, n, received, p, out), received + Stream(Pushed(es)), p)
    decreases |es|
  {
    hide Stream, StreamOrZero, PadTake, Drop;
    if es == [] {
      NothingDue(received + Stream(Pushed([])), p);
    } else if es[0].Push? {
      var data := es[0].t.buffer.Data();
      DueIsStreamOrZero(es[1..], n, received + data, p, false);
      PushedStream(es);
      ConcatAssoc(received, data, Stream(Pushed(es[1..])));
    } else if out {
      DueIsStreamOrZero(es[1..], n, received, p, true);
    } else {
      DueIsStreamOrZero(es[1..], n, received, p + n, p + n > |received|);
      OneCycleMore(PadTake(Drop(received, p), n), Due(es[1..], n, received, p + n, p + n > |received|),
                   received, Stream(Pushed(es[1..])), p, n);
    }
  }

  lemma {:induction false} NothingDue(stream: seq<Sample>, p: nat)
    ensures StreamOrZero([], stream, p)
  {
  }

  /** The first event of a run of one packet. */
  lemma {:induction false} RunStep(cfg: Config, s: Slot, es: seq<Event>, n: nat) returns (s1: Slot, w: seq<Sample>)
    requires OfOnePacket(es) && es != [] && !s.newPacket
    ensures s1 == Next(cfg, s, es[0], n).0 && w == Samples(Next(cfg, s, es[0], n).1)
    ensures !s1.newPacket && OfOnePacket(es[1..])
    ensures RunSlot(cfg, s, es, n) == (RunSlot(cfg, s1, es[1..], n).0, w + RunSlot(cfg, s1, es[1..], n).1)
    ensures w == [] ==> RunSlot(cfg, s, es, n).1 == RunSlot(cfg, s1, es[1..], n).1
    ensures es[0].Tick? ==> Pushed(es) == Pushed(es[1..])
    ensures es[0].Push? ==> es[0].t.buffer.Buffer? && es[0].t.marker != START
    ensures es[0].Push? ==> w == []
    ensures es[0].Tick? && s.queue == [] ==> s1 == s && w == []
  {
    assert es[0] in es;
    s1, w := Next(cfg, s, es[0], n).0, Samples(Next(cfg, s, es[0], n).1);
    var ys := RunSlot(cfg, s1, es[1..], n).1;
    assert [] + ys == ys;
  }

  lemma {:induction false} NothingWritten(cfg: Config, s: Slot, n: nat, received: seq<Sample>, p: nat)
    requires !s.newPacket
    ensures RunSlot(cfg, s, [], n).1 == [] && StreamOrZero([], received + Stream(Pushed([])), p)
  {
  }

  lemma {:induction false} Distribute(n: nat, a: nat, b: nat)
    ensures n * (1 + a) == n + n * a && n * (1 + b) == n + n * b
  {
  }

  lemma {:induction false} PushedStream(es: seq<Event>)
    requires es != [] && es[0].Push?
    ensures Stream(Pushed(es)) == es[0].t.buffer.Data() + Stream(Pushed(es[1..]))
  {
    StreamConcat([es[0].t], Pushed(es[1..]));
    StreamOne(es[0].t);
  }

  lemma {:induction false} OneCycleMore(xs: seq<Sample>, ys: seq<Sample>, received: seq<Sample>, rest: seq<Sample>,
                                        p: nat, n: nat)
    requires xs == PadTake(Drop(received, p), n) && StreamOrZero(ys, received + rest, p + n)
    ensures StreamOrZero(xs + ys, received + rest, p)
  {
    var all := received + rest;
    forall k | 0 <= k < |xs + ys|
      ensures (xs + ys)[k] == 0.0 || (p + k < |all| && (xs + ys)[k] == all[p + k])
    {
      if k >= n {
        assert (xs + ys)[k] == ys[k - n];
        assert p + n + (k - n) == p + k;
      }
    }
  }

  /** With blocks of n samples, the period of the audio cycle, late blocks always cover. */
  lemma {:induction false} BlocksOfOnePeriodCover(cfg: Config, s: Slot, es: seq<Event>, n: nat, received: seq<Sample>,
                                                  p: nat)
    requires OfOnePacket(es) && !s.newPacket && Aligned(s, received, p) && (s.queue == [] ==> s.index <= n)
    requires forall e :: e in es && e.Push? ==> |e.t.buffer.Data()| == n
    ensures LateBlocksCover(cfg, s, es, n)
    decreases |es|
  {
    if es != [] {
      assert es[0] in es;
      var s1 := Next(cfg, s, es[0], n).0;
      match es[0] {
        case Push(t) =>
          PushKeepsAlignment(s, t, received, p);
          BlocksOfOnePeriodCover(cfg, s1, es[1..], n, received + t.buffer.Data(), p);
        case Tick(now) =>
          if s.queue == [] {
            BlocksOfOnePeriodCover(cfg, s1, es[1..], n, received, p);
          } else {
            CycleKeepsAlignment(cfg, s, now, n, received, p);
            BlocksOfOnePeriodCover(cfg, s1, es[1..], n, received, p + n);
          }
      }
    }
  }

  /** A shorter late block loses time: the zeros it does not cover are forgotten. Here two zeros
      were played, then blocks of one and of two samples arrive: the next sample should be the
      third late one, but it is the second. */
  lemma {:induction false} ShortLateBlockLosesTime(cfg: Config, now: real)
    ensures var late1 := Tagged(Buffer(0.0, [7.0]), MIDDLE, 0); var late2 := Tagged(Buffer(0.0, [8.0, 9.0]), MIDDLE, 0);
      var s := Slot([], 2, false); var es := [Push(late1), Push(late2), Tick(now)];
      && Aligned(s, [], 2) && Stream([late1, late2]) == [7.0, 8.0, 9.0]
      && RunSlot(cfg, s, es, 1).1 == [8.0]
  {
    var late1, late2 := Tagged(Buffer(0.0, [7.0]), MIDDLE, 0), Tagged(Buffer(0.0, [8.0, 9.0]), MIDDLE, 0);
    LateStreams(late1, late2);
    PlaysSecondLateSample(cfg, now, late1, late2);
  }

  lemma {:induction false} LateStreams(late1: Tagged, late2: Tagged)
    requires late1.buffer.Data() == [7.0] && late2.buffer.Data() == [8.0, 9.0]
    ensures Stream([late1, late2]) == [7.0, 8.0, 9.0]
    ensures Unread([late1, late2], 2) == [8.0, 9.0]
  {
    StreamCons([late1, late2]);
    StreamOne(late2);
    assert [late1, late2][1..] == [late2];
  }

  lemma {:induction false} PlaysSecondLateSample(cfg: Config, now: real, late1: Tagged, late2: Tagged)
    requires late1.buffer.Buffer? && late2.buffer.Buffer? && late1.marker == late2.marker == MIDDLE
    requires Unread([late1, late2], 2) == [8.0, 9.0]
    ensures var es := [Push(late1), Push(late2), Tick(now)];
      OfOnePacket(es) && RunSlot(cfg, Slot([], 2, false), es, 1).1 == [8.0]
  {
    hide Stream, Unread, Play, RunSlot, Drop;
    var es := [Push(late1), Push(late2), Tick(now)];
    var s1, w1 := RunStep(cfg, Slot([], 2, false), es, 1);
    assert es[1..] == [Push(late2), Tick(now)] && es[1..][1..] == [Tick(now)];
    var s2, w2 := RunStep(cfg, s1, es[1..], 1);
    var s3, w3 := RunStep(cfg, s2, [Tick(now)], 1);
    assert s2 == Slot([late1, late2], 2, false);
    PlayReadsTheStream(s2.queue, 2, 1);
    assert w3 == Zeros(0) + PadTake([8.0, 9.0], 1) == [8.0];
    NothingWritten(cfg, s3, 1, [], 0);
  }
}
