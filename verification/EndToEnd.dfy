/** From the captured sample stream to the output port, through the echo processor. */
module EndToEnd {
  import opened Audio
  import D = Detector
  import opened Segmentation
  import opened DetectorTheorems
  import P = Playback
  import opened PlaybackTheorems
  import opened PacketStart
  import opened PacketPlayback
  import T = PacketTiming

  /** The echo processor: what it publishes for each block it receives. */
  function Echo(t: Tagged): Tagged {
    t
  }

  function EchoAll(ts: seq<Tagged>): seq<Tagged> {
    seq(|ts|, i requires 0 <= i < |ts| => Echo(ts[i]))
  }

  /** The part of a trace that carries one packet id. */
  function WithId(ts: seq<Tagged>, id: int): seq<Tagged> {
    if ts == [] then []
    else if ts[0].packetId == id then [ts[0]] + WithId(ts[1..], id)
    else WithId(ts[1..], id)
  }

  lemma {:induction false} WithIdConcat(a: seq<Tagged>, b: seq<Tagged>, id: int)
    ensures WithId(a + b, id) == WithId(a, id) + WithId(b, id)
  {
    if a == [] {
      assert a + b == b;
    } else {
      assert (a + b)[1..] == a[1..] + b;
      WithIdConcat(a[1..], b, id);
    }
  }

  lemma {:induction false} WithIdUniform(ts: seq<Tagged>, id: int, own: int)
    requires forall t :: t in ts ==> t.packetId == own
    ensures WithId(ts, id) == if id == own then ts else []
  {
    if ts != [] {
      assert ts[0] in ts;
      WithIdUniform(ts[1..], id, own);
    }
  }

  lemma {:induction false} RenderHasId(ins: seq<AudioBuffer>, p: Packet, id: int)
    requires Sound(p, |ins|)
    ensures forall t :: t in Render(ins, p, id) ==> t.packetId == id
  {
  }

  lemma {:induction false} FirstInOrder(ps: seq<Packet>, from: nat, cap: nat, n: nat)
    requires InOrder(ps, from, cap, n) && ps != []
    ensures Sound(ps[0], n) && (|ps| > 1 ==> InOrder(ps[1..], ps[0].hi, cap, n))
  {
  }

  lemma {:induction false} RenderAllCons(ins: seq<AudioBuffer>, ps: seq<Packet>, id: int)
    requires ps != [] && Sound(ps[0], |ins|)
    ensures RenderAll(ins, ps, id) == Render(ins, ps[0], id) + RenderAll(ins, ps[1..], id + 1)
    ensures |ps| == 1 ==> RenderAll(ins, ps[1..], id + 1) == []
  {
    hide Render;
  }

  /** The blocks published under the id of packet k are the blocks of packet k. */
  lemma {:induction false} OnePacketPerId(ins: seq<AudioBuffer>, ps: seq<Packet>, from: nat, cap: nat, id0: int, k: int)
    requires InOrder(ps, from, cap, |ins|) && k < |ps|
    ensures 0 <= k ==> Sound(ps[k], |ins|)
    ensures WithId(RenderAll(ins, ps, id0), id0 + k) == if k < 0 then [] else Render(ins, ps[k], id0 + k)
    decreases |ps|
  {
    hide Render, RenderAll, WithId, InOrder, Sound;
    if ps == [] {
      NothingRendered(ins, id0, id0 + k);
    } else {
      FirstInOrder(ps, from, cap, |ins|);
      RenderAllCons(ins, ps, id0);
      var head, tail := Render(ins, ps[0], id0), RenderAll(ins, ps[1..], id0 + 1);
      WithIdConcat(head, tail, id0 + k);
      RenderHasId(ins, ps[0], id0);
      WithIdUniform(head, id0 + k, id0);
      if |ps| == 1 {
        WithIdUniform(tail, id0 + k, id0);
      } else {
        OnePacketPerId(ins, ps[1..], ps[0].hi, cap, id0 + 1, k - 1);
        if k > 0 {
          assert ps[1..][k - 1] == ps[k];
        }
      }
    }
  }

  lemma {:induction false} NothingRendered(ins: seq<AudioBuffer>, id0: int, id: int)
    ensures WithId(RenderAll(ins, [], id0), id) == []
  {
  }

  lemma {:induction false} RenderIsPlayable(ins: seq<AudioBuffer>, p: Packet, id: int)
    requires Sound(p, |ins|) && AllReal(ins)
    ensures var r := Render(ins, p, id);
      && (forall t :: t in r ==> t.buffer.Buffer?)
      && r[0].marker == START && (forall t :: t in r[1..] ==> t.marker != START)
  {
    var r := Render(ins, p, id);
    forall t | t in r
      ensures t.buffer.Buffer?
    {
      var k :| 0 <= k < |r| && r[k] == t;
      assert ins[p.lo + k] in ins;
    }
    forall t | t in r[1..]
      ensures t.marker != START
    {
      var k :| 0 <= k < |r[1..]| && r[1..][k] == t;
      assert r[1..][k] == r[k + 1];
    }
  }

  lemma {:induction false} PushesArePushed(es: seq<Event>, e: Event)
    requires e in es && e.Push?
    ensures e.t in Pushed(es)
    decreases |es|
  {
    if es[0] != e {
      PushesArePushed(es[1..], e);
    }
  }

  /** The run begins the packet in the first cycle in which it is due and enough has arrived, and
      writes some zeros, the slice, and zeros again; the slice is all there as soon as nothing is
      unread. Without such a cycle it writes nothing. */
  ghost predicate WritesOnly(cfg: P.Config, s: P.Slot, es: seq<Event>, n: nat, slice: seq<Sample>)
    requires P.Playable(s.queue) && s.queue != [] && s.newPacket && OfOnePacket(es)
  {
    assert s.queue[0] in s.queue;
    var f := StartFrame(cfg, s, es, n);
    var (t, w) := RunSlot(cfg, s, es, n);
    && StartsWhenDue(cfg, s.queue, es, n, t, f)
    && PlaysStream(t, w, f, slice)
    && (!t.newPacket && UnreadOf(t) == [] ==> |w| >= f + |slice| && w[f..f + |slice|] == slice)
  }

  /** The captured samples that a packet covers. */
  function SliceOf(ins: seq<AudioBuffer>, p: Packet): seq<Sample>
    requires Sound(p, |ins|)
  {
    SliceOfBlocksIsSliceOfStream(ins, p.lo, p.hi);
    Flatten(ins)[|Flatten(ins[..p.lo])|..|Flatten(ins[..p.hi])|]
  }

  /** End to end, in discrete mode: the detector cuts packet k out of the input; its blocks go
      through the echo processor and arrive at an output slot, in order but otherwise interleaved
      at will with audio cycles, without underrun. Then what is written is some zeros, the slice
      of the captured sample stream that the packet covers, and zeros again. */
  lemma {:induction false} PacketTravelsIntact(dcfg: D.Config, d: D.State, ins: seq<AudioBuffer>, k: nat,
                            pcfg: P.Config, before: P.Slot, first: Tagged, es: seq<Event>, n: nat)
    requires !dcfg.continuous && d.ring.Valid() && !d.inPacket && d.quiet == 0
    requires AllReal(d.ring.items) && AllReal(ins)
    requires k < |Packets(dcfg, d.ring.capacity, d.ring.items + ins, 0, |d.ring.items|)|
    requires [first] + Pushed(es) == EchoAll(WithId(D.Run(dcfg, d, ins).1, d.nextId + k))
    requires P.Playable(before.queue)
    ensures first.marker == START && first.buffer.Buffer? && OfOnePacket(es)
    ensures var all := d.ring.items + ins; var p := Packets(dcfg, d.ring.capacity, all, 0, |d.ring.items|)[k];
      var s := P.AudioOut(before, first);
      Sound(p, |all|) && (Timely(pcfg, s, es, n) ==> WritesOnly(pcfg, s, es, n, SliceOf(all, p)))
  {
    hide *;
    var all := d.ring.items + ins;
    var p := Packets(dcfg, d.ring.capacity, all, 0, |d.ring.items|)[k];
    DetectedPacket(dcfg, d, ins, k);
    EchoIsIdentity(Render(all, p, d.nextId + k));
    PacketAtOutput(all, p, d.nextId + k, pcfg, before, first, es, n);
  }

  /** The same without reference to the slot: it is enough that the blocks are at least as long as a
      period and that, from the cycle b in which the packet begins on, each cycle before the last
      arrival has been preceded by more blocks than cycles. */
  lemma {:induction false} SuppliedPacketTravels(dcfg: D.Config, d: D.State, ins: seq<AudioBuffer>, k: nat,
                                                 pcfg: P.Config, before: P.Slot, first: Tagged, es: seq<Event>,
                                                 n: nat, b: nat)
    requires !dcfg.continuous && d.ring.Valid() && !d.inPacket && d.quiet == 0
    requires AllReal(d.ring.items) && AllReal(ins)
    requires k < |Packets(dcfg, d.ring.capacity, d.ring.items + ins, 0, |d.ring.items|)|
    requires [first] + Pushed(es) == EchoAll(WithId(D.Run(dcfg, d, ins).1, d.nextId + k))
    requires P.Playable(before.queue) && T.LongBlocks([first] + Pushed(es), n) && first.buffer.Buffer?
    requires FirstBegin(pcfg, [first], es, n, b)
    requires b < |es| ==> T.Supplied(es[b + 1..], 1 + |Pushed(es[..b])|, 1)
    ensures first.marker == START && OfOnePacket(es)
    ensures var all := d.ring.items + ins; var p := Packets(dcfg, d.ring.capacity, all, 0, |d.ring.items|)[k];
      var s := P.AudioOut(before, first);
      Sound(p, |all|) && WritesOnly(pcfg, s, es, n, SliceOf(all, p))
  {
    hide D.Run, Packets, WithId, EchoAll, FirstBegin, T.Supplied, T.LongBlocks, WritesOnly, SliceOf, Sound, Pushed,
      Timely;
    PacketTravelsIntact(dcfg, d, ins, k, pcfg, before, first, es, n);
    LongParts(first, Pushed(es), n);
    T.SuppliedIsTimely(pcfg, P.AudioOut(before, first), es, n, b);
  }

  lemma {:induction false} LongParts(first: Tagged, rest: seq<Tagged>, n: nat)
    requires T.LongBlocks([first] + rest, n)
    ensures T.LongBlocks([first], n) && T.LongBlocks(rest, n)
  {
    assert forall t :: t in rest ==> t in [first] + rest;
    assert first in [first] + rest;
  }

  /** Two packets in a row, the second START arriving when it will: the first packet is written as
      far as it got, what is still unread of it is dropped, and the second one is written as if
      nothing had been queued before it. */
  lemma {:induction false} LaterPacketTakesOver(dcfg: D.Config, d: D.State, ins: seq<AudioBuffer>, k: nat,
                                                pcfg: P.Config, before: P.Slot, first1: Tagged, es1: seq<Event>,
                                                first2: Tagged, es2: seq<Event>, n: nat)
    returns (t1: P.Slot)
    requires !dcfg.continuous && d.ring.Valid() && !d.inPacket && d.quiet == 0
    requires AllReal(d.ring.items) && AllReal(ins)
    requires k + 1 < |Packets(dcfg, d.ring.capacity, d.ring.items + ins, 0, |d.ring.items|)|
    requires [first1] + Pushed(es1) == EchoAll(WithId(D.Run(dcfg, d, ins).1, d.nextId + k))
    requires [first2] + Pushed(es2) == EchoAll(WithId(D.Run(dcfg, d, ins).1, d.nextId + k + 1))
    requires P.Playable(before.queue)
    ensures first1.marker == first2.marker == START && first1.buffer.Buffer? && first2.buffer.Buffer?
    ensures OfOnePacket(es1) && OfOnePacket(es2) && P.Playable(t1.queue)
    ensures RealPushes(es1 + [Push(first2)] + es2)
    ensures var all := d.ring.items + ins; var ps := Packets(dcfg, d.ring.capacity, all, 0, |d.ring.items|);
      var s1, s2 := P.AudioOut(before, first1), P.AudioOut(t1, first2);
      && t1 == RunSlot(pcfg, s1, es1, n).0
      && RunSlot(pcfg, s1, es1 + [Push(first2)] + es2, n)
         == (RunSlot(pcfg, s2, es2, n).0, RunSlot(pcfg, s1, es1, n).1 + RunSlot(pcfg, s2, es2, n).1)
      && Sound(ps[k], |all|) && Sound(ps[k + 1], |all|)
      && (Timely(pcfg, s1, es1, n) ==> WritesOnly(pcfg, s1, es1, n, SliceOf(all, ps[k])))
      && (Timely(pcfg, s2, es2, n) ==> WritesOnly(pcfg, s2, es2, n, SliceOf(all, ps[k + 1])))
  {
    hide D.Run, Packets, WithId, EchoAll, WritesOnly, SliceOf, Sound, Pushed, Timely, RunSlot;
    PacketTravelsIntact(dcfg, d, ins, k, pcfg, before, first1, es1, n);
    PacketTravelsIntact(dcfg, d, ins, k + 1, pcfg, before, first2, es2, n);
    t1 := StartTakesOver(pcfg, P.AudioOut(before, first1), es1, first2, es2, n);
    PacketTravelsIntact(dcfg, d, ins, k + 1, pcfg, t1, first2, es2, n);
  }

  lemma {:induction false} EchoIsIdentity(ts: seq<Tagged>)
    ensures EchoAll(ts) == ts
  {
  }

  lemma {:induction false} PacketAtOutput(ins: seq<AudioBuffer>, p: Packet, id: int,
                       cfg: P.Config, before: P.Slot, first: Tagged, es: seq<Event>, n: nat)
    requires Sound(p, |ins|) && AllReal(ins) && P.Playable(before.queue)
    requires [first] + Pushed(es) == Render(ins, p, id)
    ensures first.marker == START && first.buffer.Buffer? && OfOnePacket(es)
    ensures var s := P.AudioOut(before, first);
      Timely(cfg, s, es, n) ==> WritesOnly(cfg, s, es, n, SliceOf(ins, p))
  {
    hide Timely, RunSlot, StartFrame, StartsWhenDue, Stream, Flatten, PlaysStream, UnreadOf, Render, Pushed;
    PushesOfPacket(ins, p, id, first, es);
    PacketCarriesASlice(ins, p, id);
    if Timely(cfg, P.AudioOut(before, first), es, n) {
      PacketPlaysBack(cfg, before, first, es, n);
    }
  }

  lemma {:induction false} PushesOfPacket(ins: seq<AudioBuffer>, p: Packet, id: int, first: Tagged, es: seq<Event>)
    requires Sound(p, |ins|) && AllReal(ins) && [first] + Pushed(es) == Render(ins, p, id)
    ensures first.marker == START && first.buffer.Buffer? && OfOnePacket(es)
  {
    var r := Render(ins, p, id);
    RenderIsPlayable(ins, p, id);
    assert first == r[0] && Pushed(es) == r[1..];
    forall e | e in es && e.Push?
      ensures e.t.buffer.Buffer? && e.t.marker != START
    {
      PushesArePushed(es, e);
      assert e.t in r[1..];
    }
  }

  lemma {:induction false} DetectedPacket(cfg: D.Config, d: D.State, ins: seq<AudioBuffer>, k: nat)
    requires !cfg.continuous && d.ring.Valid() && !d.inPacket && d.quiet == 0
    requires AllReal(d.ring.items) && AllReal(ins)
    requires k < |Packets(cfg, d.ring.capacity, d.ring.items + ins, 0, |d.ring.items|)|
    ensures AllReal(d.ring.items + ins)
    ensures var all := d.ring.items + ins; var p := Packets(cfg, d.ring.capacity, all, 0, |d.ring.items|)[k];
      Sound(p, |all|) && WithId(D.Run(cfg, d, ins).1, d.nextId + k) == Render(all, p, d.nextId + k)
  {
    hide D.Run, Packets, RenderAll, WithId, Render, InOrder, D.Step;
    var all := d.ring.items + ins;
    PublishedIsThePackets(cfg, d, ins);
    OnePacketPerId(all, Packets(cfg, d.ring.capacity, all, 0, |d.ring.items|), 0, d.ring.capacity, d.nextId, k);
  }
}
