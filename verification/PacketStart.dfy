/** When a packet begins to play: in the first cycle in which it is due and enough has arrived. */
module PacketStart {
  import opened Common
  import opened Audio
  import opened Playback
  import opened PlaybackTheorems

  lemma {:induction false} PlayKeepsPlayable(q: seq<Tagged>, i: nat, m: nat)
    requires Playable(q)
    ensures Playable(Play(q, i, m).0)
    decreases m
  {
    if m > 0 {
      var (q1, i1) := Settle(q, i);
      SettleKeepsPlayable(q, i);
      PlayKeepsPlayable(q1, i1 + 1, m - 1);
    }
  }

  lemma {:induction false} SettleKeepsPlayable(q: seq<Tagged>, i: nat)
    requires Playable(q)
    ensures Playable(Settle(q, i).0)
  {
    if q != [] && i >= |q[0].buffer.Data()| {
      SettleKeepsPlayable(q[1..], 0);
    }
  }

  lemma {:induction false} NextIsPlayable(cfg: Config, s: Slot, e: Event, n: nat)
    requires Playable(s.queue) && (e.Push? ==> e.t.buffer.Buffer?)
    ensures s.newPacket && s.queue != [] ==> s.queue[0].buffer.Buffer?
    ensures Playable(Next(cfg, s, e, n).0.queue)
  {
    if s.queue != [] {
      assert s.queue[0] in s.queue;
      if e.Tick? {
        var f := FrameStart(cfg, s.queue[0].buffer.startTime, e.now);
        if !s.newPacket {
          PlayKeepsPlayable(s.queue, s.index, n);
        } else if f <= n {
          PlayKeepsPlayable(s.queue, 0, n - f);
        }
      }
    }
  }

  /** The frames of silence with which the packet begins in its first cycle. */
  function StartFrame(cfg: Config, s: Slot, es: seq<Event>, n: nat): nat
    requires Playable(s.queue) && s.queue != [] && s.newPacket && OfOnePacket(es)
    decreases |es|
  {
    assert s.queue[0] in s.queue;
    if es == [] then 0
    else
      assert es[0] in es;
      NextIsPlayable(cfg, s, es[0], n);
      if es[0].Tick? && Begins(cfg, s, es[0].now, n) then
        FrameStart(cfg, s.queue[0].buffer.startTime, es[0].now)
      else
        StartFrame(cfg, Next(cfg, s, es[0], n).0, es[1..], n)
  }

  /** In cycle i the first block of q is due, and as many blocks as playback waits for are there. */
  predicate BeginsAt(cfg: Config, q: seq<Tagged>, es: seq<Event>, n: nat, i: nat)
    requires q != [] && q[0].buffer.Buffer?
  {
    && i < |es| && es[i].Tick?
    && FrameStart(cfg, q[0].buffer.startTime, es[i].now) <= n
    && |q| + |Pushed(es[..i])| >= cfg.minPlayback
  }

  /** Cycle b is the first in which the packet can begin; there is none if b is the length. */
  ghost predicate FirstBegin(cfg: Config, q: seq<Tagged>, es: seq<Event>, n: nat, b: nat)
    requires q != [] && q[0].buffer.Buffer?
  {
    b <= |es| && (b < |es| ==> BeginsAt(cfg, q, es, n, b)) && forall i: nat :: i < b ==> !BeginsAt(cfg, q, es, n, i)
  }

  /** A slot with a packet that has not begun. */
  ghost predicate Waiting(s: Slot, es: seq<Event>) {
    && s.newPacket && s.queue != [] && Playable(s.queue) && OfOnePacket(es)
    && s.queue[0].buffer.Buffer?
  }

  lemma {:induction false} PushedConcat(a: seq<Event>, b: seq<Event>)
    ensures Pushed(a + b) == Pushed(a) + Pushed(b) && Ticks(a + b) == Ticks(a) + Ticks(b)
  {
    if a == [] {
      assert a + b == b;
    } else {
      assert (a + b)[0] == a[0] && (a + b)[1..] == a[1..] + b;
      PushedConcat(a[1..], b);
    }
  }

  lemma {:induction false} BeginsAtTail(cfg: Config, q: seq<Tagged>, es: seq<Event>, n: nat, i: nat)
    requires q != [] && q[0].buffer.Buffer? && 0 < i <= |es|
    ensures Pushed(es[..i]) == Pushed([es[0]]) + Pushed(es[1..][..i - 1])
    ensures BeginsAt(cfg, q, es, n, i) <==> BeginsAt(cfg, q + Pushed([es[0]]), es[1..], n, i - 1)
  {
    assert es[..i] == [es[0]] + es[1..][..i - 1];
    PushedConcat([es[0]], es[1..][..i - 1]);
  }

  /** One event without a beginning: nothing is written. */
  lemma {:induction false} WaitOne(cfg: Config, s: Slot, es: seq<Event>, n: nat) returns (s1: Slot)
    requires Waiting(s, es) && es != [] && !BeginsAt(cfg, s.queue, es, n, 0)
    ensures s1 == Next(cfg, s, es[0], n).0 && Waiting(s1, es[1..]) && s1.queue == s.queue + Pushed([es[0]])
    ensures RunSlot(cfg, s, es, n) == RunSlot(cfg, s1, es[1..], n)
    ensures StartFrame(cfg, s, es, n) == StartFrame(cfg, s1, es[1..], n)
    ensures es[0].Tick? ==> !Begins(cfg, s, es[0].now, n)
  {
    assert es[0] in es && es[..0] == [] && [es[0]][1..] == [];
    NextIsPlayable(cfg, s, es[0], n);
    s1 := Next(cfg, s, es[0], n).0;
    var w1 := RunSlot(cfg, s1, es[1..], n).1;
    assert [] + w1 == w1;
    assert s.queue + [] == s.queue;
  }

  /** Up to its first cycle that can begin, a packet only collects its blocks. */
  lemma {:induction false} Waits(cfg: Config, s: Slot, es: seq<Event>, n: nat, b: nat) returns (s1: Slot)
    requires Waiting(s, es) && b <= |es| && forall i: nat :: i < b ==> !BeginsAt(cfg, s.queue, es, n, i)
    ensures Waiting(s1, es[b..]) && s1.queue == s.queue + Pushed(es[..b])
    ensures RunSlot(cfg, s, es, n) == RunSlot(cfg, s1, es[b..], n)
    ensures StartFrame(cfg, s, es, n) == StartFrame(cfg, s1, es[b..], n)
    decreases b
  {
    hide RunSlot, StartFrame, BeginsAt, Next;
    if b == 0 {
      s1 := s;
      assert es[0..] == es && es[..0] == [] && s.queue + Pushed([]) == s.queue;
    } else {
      var s0 := WaitOne(cfg, s, es, n);
      forall i: nat | i < b - 1 ensures !BeginsAt(cfg, s0.queue, es[1..], n, i) {
        BeginsAtTail(cfg, s.queue, es, n, i + 1);
      }
      s1 := Waits(cfg, s0, es[1..], n, b - 1);
      BeginsAtTail(cfg, s.queue, es, n, b);
      ConcatAssoc(s.queue, Pushed([es[0]]), Pushed(es[1..][..b - 1]));
      assert es[1..][b - 1..] == es[b..];
    }
  }

  predicate RealPushes(es: seq<Event>) {
    forall e :: e in es && e.Push? ==> e.t.buffer.Buffer?
  }

  lemma {:induction false} FrontIsReal(q: seq<Tagged>)
    requires Playable(q)
    ensures q != [] ==> q[0].buffer.Buffer?
  {
    if q != [] {
      assert q[0] in q;
    }
  }

  /** A run of any events, STARTs included, can be cut anywhere. */
  lemma {:induction false} RunConcat(cfg: Config, s: Slot, a: seq<Event>, b: seq<Event>, n: nat)
    requires Playable(s.queue) && RealPushes(a) && RealPushes(b)
    requires s.newPacket && s.queue != [] ==> s.queue[0].buffer.Buffer?
    ensures RealPushes(a + b)
    ensures var (t, w) := RunSlot(cfg, s, a, n);
      && Playable(t.queue) && (t.newPacket && t.queue != [] ==> t.queue[0].buffer.Buffer?)
      && RunSlot(cfg, s, a + b, n) == (RunSlot(cfg, t, b, n).0, w + RunSlot(cfg, t, b, n).1)
    decreases |a|
  {
    hide Next;
    assert forall e :: e in a + b <==> e in a || e in b;
    if a == [] {
      assert a + b == b;
      var w := RunSlot(cfg, s, b, n).1;
      assert [] + w == w;
    } else {
      assert a[0] in a && (a + b)[0] == a[0] && (a + b)[1..] == a[1..] + b;
      NextIsPlayable(cfg, s, a[0], n);
      var t := Next(cfg, s, a[0], n).0;
      FrontIsReal(t.queue);
      RunConcat(cfg, t, a[1..], b, n);
      var u, w1 := RunSlot(cfg, t, a[1..], n).0, RunSlot(cfg, t, a[1..], n).1;
      ConcatAssoc(Samples(Next(cfg, s, a[0], n).1), w1, RunSlot(cfg, u, b, n).1);
    }
  }

  /** A START in the middle of a run: what was written before it stays, and from there on the run
      is that of the new packet, whatever was still unread. */
  lemma {:induction false} StartTakesOver(cfg: Config, s: Slot, es1: seq<Event>, first: Tagged, es2: seq<Event>, n: nat)
    returns (t1: Slot)
    requires Playable(s.queue) && RealPushes(es1) && RealPushes(es2) && first.marker == START && first.buffer.Buffer?
    requires s.newPacket && s.queue != [] ==> s.queue[0].buffer.Buffer?
    ensures t1 == RunSlot(cfg, s, es1, n).0 && Playable(t1.queue)
    ensures RealPushes(es1 + [Push(first)] + es2)
    ensures var (t, w) := RunSlot(cfg, AudioOut(t1, first), es2, n);
      RunSlot(cfg, s, es1 + [Push(first)] + es2, n) == (t, RunSlot(cfg, s, es1, n).1 + w)
  {
    hide Cycle;
    t1 := RunSlot(cfg, s, es1, n).0;
    RunConcat(cfg, s, es1, [Push(first)] + es2, n);
    assert es1 + ([Push(first)] + es2) == es1 + [Push(first)] + es2;
    assert ([Push(first)] + es2)[0] == Push(first) && ([Push(first)] + es2)[1..] == es2;
    var w := RunSlot(cfg, AudioOut(t1, first), es2, n).1;
    assert [] + w == w;
  }

  lemma {:induction false} PlayingGoesOn(cfg: Config, s: Slot, es: seq<Event>, n: nat)
    requires !s.newPacket && OfOnePacket(es)
    ensures !RunSlot(cfg, s, es, n).0.newPacket
    decreases |es|
  {
    if es != [] {
      var s1, _ := RunStep(cfg, s, es, n);
      PlayingGoesOn(cfg, s1, es[1..], n);
    }
  }

  lemma {:induction false} FirstBeginExists(cfg: Config, q: seq<Tagged>, es: seq<Event>, n: nat, k: nat)
    returns (b: nat)
    requires q != [] && q[0].buffer.Buffer? && k < |es| && BeginsAt(cfg, q, es, n, k)
    ensures b <= k && FirstBegin(cfg, q, es, n, b)
    decreases k
  {
    if i: nat :| i < k && BeginsAt(cfg, q, es, n, i) {
      b := FirstBeginExists(cfg, q, es, n, i);
    } else {
      b := k;
    }
  }

  /** The packet begins exactly in its first cycle that can begin: if there is none, nothing is ever
      written, and otherwise that cycle determines the silence before its first sample. */
  lemma {:induction false} BeginsInFirstCycle(cfg: Config, s: Slot, es: seq<Event>, n: nat, b: nat)
    requires Waiting(s, es) && FirstBegin(cfg, s.queue, es, n, b)
    ensures b == |es| ==> RunSlot(cfg, s, es, n).0.newPacket && RunSlot(cfg, s, es, n).1 == []
    ensures b < |es| ==> !RunSlot(cfg, s, es, n).0.newPacket
    ensures b < |es| ==> StartFrame(cfg, s, es, n) == FrameStart(cfg, s.queue[0].buffer.startTime, es[b].now)
  {
    var s1 := Waits(cfg, s, es, n, b);
    if b == |es| {
      assert es[b..] == [];
    } else {
      assert es[b..][0] == es[b] && es[b] in es;
      BeginningCycle(cfg, s1, es[b..], n);
    }
  }

  lemma {:induction false} BeginningCycle(cfg: Config, s: Slot, es: seq<Event>, n: nat)
    requires Waiting(s, es) && es != [] && es[0].Tick? && Begins(cfg, s, es[0].now, n)
    ensures !RunSlot(cfg, s, es, n).0.newPacket
    ensures StartFrame(cfg, s, es, n) == FrameStart(cfg, s.queue[0].buffer.startTime, es[0].now)
  {
    var s1 := Next(cfg, s, es[0], n).0;
    PlayingGoesOn(cfg, s1, es[1..], n);
  }

  /** After a run, t is still waiting exactly if no cycle could begin the packet; otherwise f is the
      silence that the first such cycle calls for. */
  ghost predicate StartsWhenDue(cfg: Config, q: seq<Tagged>, es: seq<Event>, n: nat, t: Slot, f: nat)
    requires q != [] && q[0].buffer.Buffer?
  {
    exists b: nat :: FirstBegin(cfg, q, es, n, b) && (t.newPacket <==> b == |es|)
      && (b < |es| && es[b].Tick? ==> f == FrameStart(cfg, q[0].buffer.startTime, es[b].now))
  }

  lemma {:induction false} PacketStartsWhenDue(cfg: Config, s: Slot, es: seq<Event>, n: nat)
    requires Waiting(s, es)
    ensures StartsWhenDue(cfg, s.queue, es, n, RunSlot(cfg, s, es, n).0, StartFrame(cfg, s, es, n))
  {
    hide RunSlot, StartFrame, BeginsAt;
    var b := FindBegin(cfg, s.queue, es, n);
    BeginsInFirstCycle(cfg, s, es, n, b);
  }

  /** A packet is played if and only if some cycle can begin it. */
  lemma {:induction false} BeginsIff(cfg: Config, s: Slot, es: seq<Event>, n: nat)
    requires Waiting(s, es)
    ensures var (t, w) := RunSlot(cfg, s, es, n);
      (!t.newPacket <==> exists i: nat :: BeginsAt(cfg, s.queue, es, n, i)) && (t.newPacket ==> w == [])
  {
    hide RunSlot, StartFrame, BeginsAt;
    var b := FindBegin(cfg, s.queue, es, n);
    BeginsInFirstCycle(cfg, s, es, n, b);
  }

  lemma {:induction false} FindBegin(cfg: Config, q: seq<Tagged>, es: seq<Event>, n: nat) returns (b: nat)
    requires q != [] && q[0].buffer.Buffer?
    ensures FirstBegin(cfg, q, es, n, b)
    ensures b < |es| <==> exists i: nat :: BeginsAt(cfg, q, es, n, i)
  {
    hide BeginsAt;
    if i: nat :| BeginsAt(cfg, q, es, n, i) {
      BeginsWithin(cfg, q, es, n, i);
      b := FirstBeginExists(cfg, q, es, n, i);
    } else {
      b := |es|;
    }
  }

  lemma {:induction false} BeginsWithin(cfg: Config, q: seq<Tagged>, es: seq<Event>, n: nat, i: nat)
    requires q != [] && q[0].buffer.Buffer? && BeginsAt(cfg, q, es, n, i)
    ensures i < |es|
  {
  }

  /** A packet of fewer blocks than playback waits for is never played. */
  lemma {:induction false} ShortPacketIsNeverPlayed(cfg: Config, s: Slot, es: seq<Event>, n: nat)
    requires Waiting(s, es) && |s.queue| + |Pushed(es)| < cfg.minPlayback
    ensures RunSlot(cfg, s, es, n).0.newPacket && RunSlot(cfg, s, es, n).1 == []
  {
    hide RunSlot;
    forall i: nat ensures !BeginsAt(cfg, s.queue, es, n, i) {
      if i < |es| {
        assert es == es[..i] + es[i..];
        PushedConcat(es[..i], es[i..]);
      }
    }
    BeginsIff(cfg, s, es, n);
  }
}
