/** What a whole packet sounds like at the output port, with no underrun. */
module PacketPlayback {
  import opened Common
  import opened Audio
  import opened Playback
  import opened PlaybackTheorems
  import opened PacketStart

  predicate NoPush(es: seq<Event>) {
    forall e :: e in es ==> e.Tick?
  }

  /** The unread samples that a cycle needs so as not to run out. */
  function Demand(cfg: Config, s: Slot, now: real, n: nat): nat
    requires Playable(s.queue)
  {
    if !s.newPacket then n
    else if s.queue == [] then 0
    else
      assert s.queue[0] in s.queue;
      if Begins(cfg, s, now, n) then n - FrameStart(cfg, s.queue[0].buffer.startTime, now) else 0
  }

  function UnreadOf(s: Slot): seq<Sample> {
    Unread(s.queue, if s.newPacket then 0 else s.index)
  }

  /** No underrun: a cycle runs out of samples only after the last block has arrived. */
  ghost predicate Timely(cfg: Config, s: Slot, es: seq<Event>, n: nat)
    requires Playable(s.queue) && OfOnePacket(es)
    decreases |es|
  {
    es == [] || (
      assert es[0] in es;
      NextIsPlayable(cfg, s, es[0], n);
      && (es[0].Tick? ==> NoPush(es[1..]) || Demand(cfg, s, es[0].now, n) <= |UnreadOf(s)|)
      && Timely(cfg, Next(cfg, s, es[0], n).0, es[1..], n))
  }

  lemma {:induction false} PadTakeMore(u: seq<Sample>, n: nat, m: nat)
    ensures PadTake(u, n) + PadTake(Drop(u, n), m) == PadTake(u, n + m)
    ensures Drop(Drop(u, n), m) == Drop(u, n + m)
  {
  }

  lemma {:induction false} EnoughReceived(received: seq<Sample>, rest: seq<Sample>, p: nat, n: nat)
    requires p <= |received| && (rest == [] || n <= |received[p..]|)
    ensures PadTake(Drop(received, p), n) == PadTake(Drop(received + rest, p), n)
  {
    if rest == [] {
      assert received + rest == received;
    }
  }

  lemma {:induction false} NoPushNoStream(es: seq<Event>)
    requires NoPush(es)
    ensures Pushed(es) == [] && Stream(Pushed(es)) == []
    decreases |es|
  {
    if es != [] {
      assert es[0] in es;
      NoPushNoStream(es[1..]);
    }
  }

  // ---------------------------------------------------------------------------------------
  // While the packet plays
  // ---------------------------------------------------------------------------------------

  lemma {:induction false} TimelyPlayback(cfg: Config, s: Slot, es: seq<Event>, n: nat, received: seq<Sample>, p: nat)
    requires Playable(s.queue) && OfOnePacket(es) && Timely(cfg, s, es, n)
    requires !s.newPacket && Aligned(s, received, p) && (s.queue == [] ==> NoPush(es))
    ensures var (t, w) := RunSlot(cfg, s, es, n); var all := received + Stream(Pushed(es));
      && w == PadTake(Drop(all, p), |w|)
      && UnreadOf(t) == Drop(all, p + |w|) && !t.newPacket
    decreases |es|
  {
    hide Cycle, RunSlot, Stream, AudioOut, PadTake, Drop, Unread;
    var rest := Stream(Pushed(es));
    if es == [] {
      PlaybackEnds(cfg, s, n, received, p);
    } else {
      var s1, w := RunStep(cfg, s, es, n);
      NextIsPlayable(cfg, s, es[0], n);
      match es[0] {
        case Push(t) =>
          assert es[0] in es;
          PushKeepsAlignment(s, t, received, p);
          PushedStream(es);
          ConcatAssoc(received, t.buffer.Data(), Stream(Pushed(es[1..])));
          assert s1.queue != [] by { NextAfterPush(cfg, s, es[0], n); }
          TimelyPlayback(cfg, s1, es[1..], n, received + t.buffer.Data(), p);
        case Tick(now) =>
          if s.queue == [] {
            TimelyPlayback(cfg, s1, es[1..], n, received, p);
          } else {
            CycleKeepsAlignment(cfg, s, now, n, received, p);
            TickLeavesNoGap(cfg, s, es, n, received, p);
            TimelyPlayback(cfg, s1, es[1..], n, received, p + n);
            PadTakeMore(Drop(received + rest, p), n, |RunSlot(cfg, s1, es[1..], n).1|);
            PadTakeMore(received + rest, p, n);
          }
      }
    }
  }

  lemma {:induction false} NextAfterPush(cfg: Config, s: Slot, e: Event, n: nat)
    requires e.Push? && (s.newPacket && s.queue != [] ==> s.queue[0].buffer.Buffer?)
    ensures Next(cfg, s, e, n).0.queue != []
  {
  }

  lemma {:induction false} PlaybackEnds(cfg: Config, s: Slot, n: nat, received: seq<Sample>, p: nat)
    requires !s.newPacket && Aligned(s, received, p)
    ensures var (t, w) := RunSlot(cfg, s, [], n); var all := received + Stream(Pushed([]));
      w == PadTake(Drop(all, p), |w|) && UnreadOf(t) == Drop(all, p + |w|) && !t.newPacket
  {
    assert Stream(Pushed([])) == [];
    assert received + [] == received;
  }

  lemma {:induction false} TimelyTick(cfg: Config, s: Slot, es: seq<Event>, n: nat)
    requires Playable(s.queue) && OfOnePacket(es) && Timely(cfg, s, es, n) && es != [] && es[0].Tick?
    requires !s.newPacket
    ensures NoPush(es[1..]) || n <= |Unread(s.queue, s.index)|
  {
  }

  lemma {:induction false} TickLeavesNoGap(cfg: Config, s: Slot, es: seq<Event>, n: nat, received: seq<Sample>, p: nat)
    requires Playable(s.queue) && OfOnePacket(es) && Timely(cfg, s, es, n) && es != [] && es[0].Tick?
    requires !s.newPacket && Aligned(s, received, p) && s.queue != []
    ensures PadTake(Drop(received, p), n) == PadTake(Drop(received + Stream(Pushed(es)), p), n)
    ensures Next(cfg, s, es[0], n).0.queue == [] ==> NoPush(es[1..])
  {
    hide Unread, PadTake, Drop, Pushed, Play, Stream, Demand, Timely, NoPush;
    TimelyTick(cfg, s, es, n);
    PushedAfterTick(es);
    if NoPush(es[1..]) {
      NoPushNoStream(es[1..]);
    }
    PlayReadsTheStream(s.queue, s.index, n);
    EnoughReceived(received, Stream(Pushed(es)), p, n);
  }

  // ---------------------------------------------------------------------------------------
  // From the START on
  // ---------------------------------------------------------------------------------------

  ghost predicate PlaysStream(s: Slot, w: seq<Sample>, f: nat, all: seq<Sample>) {
    if s.newPacket then w == []
    else f <= |w| && w == Zeros(f) + PadTake(all, |w| - f) && UnreadOf(s) == Drop(all, |w| - f)
  }

  lemma {:induction false} WaitingPlays(cfg: Config, s: Slot, es: seq<Event>, n: nat)
    requires Playable(s.queue) && OfOnePacket(es) && Timely(cfg, s, es, n)
    requires s.newPacket && s.queue != []
    requires forall e :: e in es && e.Push? ==> e.t.buffer.Buffer?
    ensures s.queue[0].buffer.Buffer?
    ensures var (t, w) := RunSlot(cfg, s, es, n);
      PlaysStream(t, w, StartFrame(cfg, s, es, n), Stream(s.queue) + Stream(Pushed(es)))
    decreases |es|
  {
    assert s.queue[0] in s.queue;
    if es == [] {
      StillWaiting(cfg, s, n);
    } else if es[0].Tick? && Begins(cfg, s, es[0].now, n) {
      BeginsThenPlays(cfg, s, es, n);
    } else {
      var s1 := WaitStep(cfg, s, es, n);
      WaitingPlays(cfg, s1, es[1..], n);
    }
  }

  /** From its START on, a packet is silent until the first cycle that can begin it, and is then
      written without a gap after the silence that this cycle calls for. */
  lemma {:induction false} WaitingThenPlaying(cfg: Config, s: Slot, es: seq<Event>, n: nat)
    requires Waiting(s, es) && Timely(cfg, s, es, n)
    ensures var (t, w) := RunSlot(cfg, s, es, n); var f := StartFrame(cfg, s, es, n);
      && StartsWhenDue(cfg, s.queue, es, n, t, f)
      && PlaysStream(t, w, f, Stream(s.queue) + Stream(Pushed(es)))
  {
    hide RunSlot, Timely, StartFrame, StartsWhenDue, PlaysStream;
    PacketStartsWhenDue(cfg, s, es, n);
    WaitingPlays(cfg, s, es, n);
  }

  lemma {:induction false} StreamIsShared(q: seq<Tagged>, es: seq<Event>)
    requires es != []
    ensures var q1 := if es[0].Push? then q + [es[0].t] else q;
      Stream(q1) + Stream(Pushed(es[1..])) == Stream(q) + Stream(Pushed(es))
  {
    hide Stream;
    if es[0].Push? {
      var t := es[0].t;
      StreamConcat(q, [t]);
      StreamOne(t);
      PushedStream(es);
      ConcatAssoc(Stream(q), t.buffer.Data(), Stream(Pushed(es[1..])));
    }
  }

  lemma {:induction false} StillWaiting(cfg: Config, s: Slot, n: nat)
    requires s.newPacket && s.queue != [] && s.queue[0].buffer.Buffer?
    ensures RunSlot(cfg, s, [], n) == (s, [])
    ensures forall f, all :: PlaysStream(s, [], f, all)
  {
  }

  /** An event at which the packet does not begin: nothing is written. */
  lemma {:induction false} WaitStep(cfg: Config, s: Slot, es: seq<Event>, n: nat) returns (s1: Slot)
    requires Playable(s.queue) && OfOnePacket(es) && Timely(cfg, s, es, n)
    requires s.newPacket && s.queue != [] && es != [] && s.queue[0].buffer.Buffer?
    requires es[0].Tick? ==> !Begins(cfg, s, es[0].now, n)
    requires forall e :: e in es && e.Push? ==> e.t.buffer.Buffer?
    ensures Playable(s1.queue) && OfOnePacket(es[1..]) && Timely(cfg, s1, es[1..], n) && s1.newPacket
    ensures s1.queue == if es[0].Push? then s.queue + [es[0].t] else s.queue
    ensures forall e :: e in es[1..] && e.Push? ==> e.t.buffer.Buffer?
    ensures RunSlot(cfg, s, es, n) == RunSlot(cfg, s1, es[1..], n)
    ensures StartFrame(cfg, s, es, n) == StartFrame(cfg, s1, es[1..], n)
    ensures Stream(s1.queue) + Stream(Pushed(es[1..])) == Stream(s.queue) + Stream(Pushed(es))
  {
    assert es[0] in es;
    StreamIsShared(s.queue, es);
    TimelyStep(cfg, s, es, n);
    s1 := Next(cfg, s, es[0], n).0;
    var w1 := RunSlot(cfg, s1, es[1..], n).1;
    assert [] + w1 == w1;
  }

  lemma {:induction false} TimelyStep(cfg: Config, s: Slot, es: seq<Event>, n: nat)
    requires Playable(s.queue) && OfOnePacket(es) && Timely(cfg, s, es, n) && es != []
    ensures s.newPacket && s.queue != [] ==> s.queue[0].buffer.Buffer?
    ensures var t := Next(cfg, s, es[0], n).0; Playable(t.queue) && Timely(cfg, t, es[1..], n)
    ensures es[0].Tick? ==> NoPush(es[1..]) || Demand(cfg, s, es[0].now, n) <= |UnreadOf(s)|
  {
    assert es[0] in es;
    NextIsPlayable(cfg, s, es[0], n);
  }

  lemma {:induction false} BeginsThenPlays(cfg: Config, s: Slot, es: seq<Event>, n: nat)
    requires Playable(s.queue) && OfOnePacket(es) && Timely(cfg, s, es, n)
    requires s.newPacket && s.queue != [] && es != [] && es[0].Tick?
    requires s.queue[0].buffer.Buffer? && Begins(cfg, s, es[0].now, n)
    requires forall e :: e in es && e.Push? ==> e.t.buffer.Buffer?
    ensures var (t, w) := RunSlot(cfg, s, es, n);
      PlaysStream(t, w, StartFrame(cfg, s, es, n), Stream(s.queue) + Stream(Pushed(es)))
  {
    hide *;
    var s1, w0, w1 := BeginStep(cfg, s, es, n);
    var f := FrameStart(cfg, s.queue[0].buffer.startTime, es[0].now);
    var received, m := Stream(s.queue), n - f;
    TimelyPlayback(cfg, s1, es[1..], n, received, m);
    JoinFirstCycle(RunSlot(cfg, s, es, n).0, received, Stream(Pushed(es)), f, m, w0, w1);
  }

  /** The cycle in which the packet begins. */
  lemma {:induction false} BeginStep(cfg: Config, s: Slot, es: seq<Event>, n: nat)
    returns (s1: Slot, w0: seq<Sample>, w1: seq<Sample>)
    requires Playable(s.queue) && OfOnePacket(es) && Timely(cfg, s, es, n)
    requires s.newPacket && s.queue != [] && es != [] && es[0].Tick?
    requires s.queue[0].buffer.Buffer? && Begins(cfg, s, es[0].now, n)
    requires forall e :: e in es && e.Push? ==> e.t.buffer.Buffer?
    ensures Playable(s1.queue) && OfOnePacket(es[1..]) && Timely(cfg, s1, es[1..], n) && !s1.newPacket
    ensures var f := FrameStart(cfg, s.queue[0].buffer.startTime, es[0].now); var received := Stream(s.queue);
      && f <= n && Aligned(s1, received, n - f) && (s1.queue == [] ==> NoPush(es[1..]))
      && (n - f <= |received| || Stream(Pushed(es)) == [])
      && w0 == Zeros(f) + PadTake(received, n - f) && w1 == RunSlot(cfg, s1, es[1..], n).1
      && RunSlot(cfg, s, es, n) == (RunSlot(cfg, s1, es[1..], n).0, w0 + w1)
      && StartFrame(cfg, s, es, n) == f && Pushed(es) == Pushed(es[1..])
  {
    TimelyStep(cfg, s, es, n);
    FirstCycle(cfg, s, es[0].now, n);
    UnreadFromZero(s.queue);
    if NoPush(es[1..]) {
      NoPushNoStream(es[1..]);
    }
    s1 := Next(cfg, s, es[0], n).0;
    w0, w1 := Next(cfg, s, es[0], n).1.samples, RunSlot(cfg, s1, es[1..], n).1;
    assert Pushed(es) == Pushed(es[1..]) by { PushedAfterTick(es); }
  }

  lemma {:induction false} PushedAfterTick(es: seq<Event>)
    requires es != [] && es[0].Tick?
    ensures Pushed(es) == Pushed(es[1..])
  {
  }

  lemma {:induction false} JoinFirstCycle(t: Slot, received: seq<Sample>, rest: seq<Sample>, f: nat, m: nat,
                                          w0: seq<Sample>, w: seq<Sample>)
    requires w0 == Zeros(f) + PadTake(received, m) && (rest == [] || m <= |received|)
    requires w == PadTake(Drop(received + rest, m), |w|)
    requires !t.newPacket && UnreadOf(t) == Drop(received + rest, m + |w|)
    ensures PlaysStream(t, w0 + w, f, received + rest)
  {
    hide PadTake, Drop, UnreadOf, Zeros;
    var all := received + rest;
    DropNothing(received);
    DropNothing(all);
    EnoughReceived(received, rest, 0, m);
    PadTakeMore(all, m, |w|);
    ConcatAssoc(Zeros(f), PadTake(all, m), w);
  }

  lemma {:induction false} DropNothing(xs: seq<Sample>)
    ensures Drop(xs, 0) == xs && xs[0..] == xs
  {
  }

  lemma {:induction false} FirstCycle(cfg: Config, s: Slot, now: real, n: nat)
    requires s.newPacket && s.queue != [] && s.queue[0].buffer.Buffer? && Begins(cfg, s, now, n)
    ensures var f := FrameStart(cfg, s.queue[0].buffer.startTime, now); var received := Stream(s.queue);
      var (t, o) := Cycle(cfg, s, now, n);
      && o == Wrote(Zeros(f) + PadTake(received, n - f)) && !t.newPacket
      && Aligned(t, received, n - f) && (t.queue == [] ==> n - f > |received|)
  {
    hide Stream, Unread, Play, PadTake, FrameStart;
    UnreadFromZero(s.queue);
    PlayReadsTheStream(s.queue, 0, n - FrameStart(cfg, s.queue[0].buffer.startTime, now));
  }

  lemma {:induction false} WholePacketWritten(t: Slot, w: seq<Sample>, f: nat, packet: seq<Sample>)
    requires PlaysStream(t, w, f, packet) && !t.newPacket && UnreadOf(t) == []
    ensures |w| >= f + |packet| && w[f..f + |packet|] == packet
  {
    hide UnreadOf;
    var m := |w| - f;
    assert Drop(packet, m) == [];
    assert PadTake(packet, m)[..|packet|] == packet;
    assert w[f..] == PadTake(packet, m);
  }

  /** Whatever was queued before, a packet begins in the first cycle in which it is due and enough
      has arrived, is never written if there is none, and is otherwise written as StartFrame zeros,
      its samples, and zeros, for every interleaving of arrivals and cycles without underrun. It is
      complete as soon as nothing is unread. */
  lemma {:induction false} PacketPlaysBack(cfg: Config, before: Slot, first: Tagged, es: seq<Event>, n: nat)
    requires Playable(before.queue) && first.marker == START && first.buffer.Buffer? && OfOnePacket(es)
    requires Timely(cfg, AudioOut(before, first), es, n)
    ensures var s := AudioOut(before, first); var packet := Stream([first] + Pushed(es));
      var (t, w) := RunSlot(cfg, s, es, n); var f := StartFrame(cfg, s, es, n);
      && StartsWhenDue(cfg, [first], es, n, t, f)
      && PlaysStream(t, w, f, packet)
      && (!t.newPacket && UnreadOf(t) == [] ==> |w| >= f + |packet| && w[f..f + |packet|] == packet)
  {
    hide RunSlot, StartFrame, StartsWhenDue, PlaysStream, UnreadOf;
    var s := AudioOut(before, first);
    WaitingThenPlaying(cfg, s, es, n);
    StreamConcat([first], Pushed(es));
    assert s.queue == [first] && s.newPacket;
    var (t, w) := RunSlot(cfg, s, es, n);
    if !t.newPacket && UnreadOf(t) == [] {
      WholePacketWritten(t, w, StartFrame(cfg, s, es, n), Stream([first] + Pushed(es)));
    }
  }
}
