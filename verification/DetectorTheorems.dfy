/** The detector publishes exactly the packets of its input. */
module DetectorTheorems {
  import opened Common
  import opened Audio
  import opened Detector
  import opened Segmentation

  ghost predicate AllReal(bs: seq<AudioBuffer>) {
    forall b :: b in bs ==> b.Buffer?
  }

  /** Idle, with the ring holding the last blocks of the input since `from`. */
  ghost predicate IdleAt(s: State, ins: seq<AudioBuffer>, from: nat, i: nat) {
    && from <= i <= |ins| && s.ring.Valid()
    && !s.inPacket && s.quiet == 0
    && s.ring.items == ins[Max(from, i - s.ring.capacity)..i]
  }

  /** In the packet triggered by block t, with every sample of blocks t+1..i counted. */
  ghost predicate InPacketAt(cfg: Config, s: State, ins: seq<AudioBuffer>, t: nat, i: nat) {
    && t < i <= |ins| && s.ring.Valid()
    && s.inPacket && s.ring.items == []
    && s.quiet == QuietRun(cfg, Counted(ins, t, i))
    && !EndsBy(cfg, Counted(ins, t, i))
  }

  ghost function RenderedFrom(cfg: Config, cap: nat, ins: seq<AudioBuffer>, from: nat, i: nat, id: int): seq<Tagged>
    requires from <= i <= |ins| && 1 <= cap
  {
    RenderAll(ins, Packets(cfg, cap, ins, from, i), id)
  }

  lemma {:induction false} RunFromIdle(cfg: Config, s: State, ins: seq<AudioBuffer>, from: nat, i: nat)
    requires !cfg.continuous && AllReal(ins) && IdleAt(s, ins, from, i)
    ensures Run(cfg, s, ins[i..]).1 == RenderedFrom(cfg, s.ring.capacity, ins, from, i, s.nextId)
    decreases |ins| - i
  {
    hide Run, Step, RenderedFrom, AfterTrigger, HasLoud, QuietRun, EndsBy, Packets;
    if i < |ins| {
      RunCons(cfg, s, ins, i);
      if HasLoud(cfg, ins[i]) {
        TriggerStep(cfg, s, ins, from, i);
        RunFromPacket(cfg, Step(cfg, s, ins[i]).0, ins, i, i + 1);
        RenderedAtTrigger(cfg, s.ring.capacity, ins, from, i, s.nextId);
      } else {
        QuietStep(cfg, s, ins, from, i);
        RunFromIdle(cfg, Step(cfg, s, ins[i]).0, ins, from, i + 1);
        RenderedAfterQuiet(cfg, s.ring.capacity, ins, from, i, s.nextId);
      }
    } else {
      NothingLeft(cfg, s, ins, from);
    }
  }

  lemma {:induction false} NothingLeft(cfg: Config, s: State, ins: seq<AudioBuffer>, from: nat)
    requires from <= |ins| && s.ring.Valid()
    ensures Run(cfg, s, ins[|ins|..]).1 == [] == RenderedFrom(cfg, s.ring.capacity, ins, from, |ins|, s.nextId)
  {
    hide Step, HasLoud, Render;
    assert Packets(cfg, s.ring.capacity, ins, from, |ins|) == [];
  }

  lemma {:induction false} RunCons(cfg: Config, s: State, ins: seq<AudioBuffer>, i: nat)
    requires i < |ins| && s.ring.Valid()
    ensures var (t, o) := Step(cfg, s, ins[i]);
      Run(cfg, s, ins[i..]).1 == o + Run(cfg, t, ins[i + 1..]).1
  {
    assert ins[i..][1..] == ins[i + 1..];
  }

  lemma {:induction false} QuietStep(cfg: Config, s: State, ins: seq<AudioBuffer>, from: nat, i: nat)
    requires !cfg.continuous && AllReal(ins) && IdleAt(s, ins, from, i) && i < |ins| && !HasLoud(cfg, ins[i])
    ensures var (s1, o1) := Step(cfg, s, ins[i]);
      && s1.ring.capacity == s.ring.capacity && s1.nextId == s.nextId && o1 == []
      && IdleAt(s1, ins, from, i + 1)
  {
    PushKeepsTheLast(s.ring, ins, from, i);
  }

  lemma {:induction false} TriggerStep(cfg: Config, s: State, ins: seq<AudioBuffer>, from: nat, t: nat)
    requires !cfg.continuous && AllReal(ins) && IdleAt(s, ins, from, t) && t < |ins| && HasLoud(cfg, ins[t])
    ensures var (s1, o1) := Step(cfg, s, ins[t]);
      && s1.ring.capacity == s.ring.capacity && s1.packetId == s.nextId && s1.nextId == s.nextId + 1
      && o1 == Drained(ins[Max(from, t + 1 - s.ring.capacity)..t + 1], s.nextId)
      && InPacketAt(cfg, s1, ins, t, t + 1)
  {
    PushKeepsTheLast(s.ring, ins, from, t);
    assert s.ring.Push(ins[t]).items[0] in ins;
    assert Counted(ins, t, t + 1) == [];
  }

  lemma {:induction false} RenderedAfterQuiet(cfg: Config, cap: nat, ins: seq<AudioBuffer>, from: nat, i: nat, id: int)
    requires from <= i < |ins| && 1 <= cap && !HasLoud(cfg, ins[i])
    ensures RenderedFrom(cfg, cap, ins, from, i, id) == RenderedFrom(cfg, cap, ins, from, i + 1, id)
  {
    PacketsAfterQuiet(cfg, cap, ins, from, i);
  }

  lemma {:induction false} PacketsAfterQuiet(cfg: Config, cap: nat, ins: seq<AudioBuffer>, from: nat, i: nat)
    requires from <= i < |ins| && !HasLoud(cfg, ins[i])
    ensures Packets(cfg, cap, ins, from, i) == Packets(cfg, cap, ins, from, i + 1)
  {
    hide HasLoud, NextEnd;
    assert NextTrigger(cfg, ins, i) == NextTrigger(cfg, ins, i + 1);
  }

  lemma {:induction false} RenderedAtTrigger(cfg: Config, cap: nat, ins: seq<AudioBuffer>, from: nat, t: nat, id: int)
    requires from <= t < |ins| && 1 <= cap && HasLoud(cfg, ins[t])
    ensures RenderedFrom(cfg, cap, ins, from, t, id)
         == Drained(ins[Max(from, t + 1 - cap)..t + 1], id) + AfterTrigger(cfg, cap, ins, t, t + 1, id)
  {
    hide Render, Rest, Drained, TagAll, NextEnd, Packets, NextTrigger, HasLoud;
    PacketsAtTrigger(cfg, cap, ins, from, t);
    var e := NextEnd(cfg, ins, t, t + 1);
    var lo := Max(from, t + 1 - cap);
    RenderSplits(ins, Packet(lo, t, EndOf(ins, e), e < |ins|), id);
    var rest := if e == |ins| then [] else Packets(cfg, cap, ins, e + 1, e + 1);
    RenderCons(ins, Packet(lo, t, EndOf(ins, e), e < |ins|), rest, id);
    assert Later(cfg, cap, ins, e, id + 1) == RenderAll(ins, rest, id + 1);
    ConcatAssoc(Drained(ins[lo..t + 1], id), Rest(ins, t + 1, EndOf(ins, e), e < |ins|, id),
      Later(cfg, cap, ins, e, id + 1));
  }

  lemma {:induction false} PacketsAtTrigger(cfg: Config, cap: nat, ins: seq<AudioBuffer>, from: nat, t: nat)
    requires from <= t < |ins| && 1 <= cap && HasLoud(cfg, ins[t])
    ensures var e := NextEnd(cfg, ins, t, t + 1); var lo := Max(from, t + 1 - cap);
      Packets(cfg, cap, ins, from, t) == [Packet(lo, t, EndOf(ins, e), e < |ins|)]
        + if e == |ins| then [] else Packets(cfg, cap, ins, e + 1, e + 1)
  {
    hide HasLoud, NextEnd;
    assert NextTrigger(cfg, ins, t) == t;
  }

  lemma {:induction false} RenderCons(ins: seq<AudioBuffer>, p: Packet, rest: seq<Packet>, id: int)
    requires Sound(p, |ins|)
    ensures RenderAll(ins, [p] + rest, id) == Render(ins, p, id) + RenderAll(ins, rest, id + 1)
  {
    assert ([p] + rest)[1..] == rest;
  }

  lemma {:induction false} PushKeepsTheLast(ring: Ring, ins: seq<AudioBuffer>, from: nat, i: nat)
    requires ring.Valid() && from <= i < |ins| && ring.items == ins[Max(from, i - ring.capacity)..i]
    ensures ring.Push(ins[i]).items == ins[Max(from, i + 1 - ring.capacity)..i + 1]
  {
    var lo := Max(from, i - ring.capacity);
    SliceMore(ins, lo, i);
    if |ring.items| == ring.capacity {
      assert lo == i - ring.capacity;
    } else {
      assert lo == from;
    }
  }

  lemma {:induction false} SliceMore(ins: seq<AudioBuffer>, lo: nat, i: nat)
    requires lo <= i < |ins|
    ensures ins[lo..i] + [ins[i]] == ins[lo..i + 1]
    ensures lo < i ==> ins[lo..i][1..] + [ins[i]] == ins[lo + 1..i + 1]
  {
  }

  /** One past the last block of a packet whose END is block e, or that is still open. */
  function EndOf(ins: seq<AudioBuffer>, e: nat): nat {
    if e < |ins| then e + 1 else e
  }

  ghost function Later(cfg: Config, cap: nat, ins: seq<AudioBuffer>, e: nat, id: int): seq<Tagged>
    requires e <= |ins| && 1 <= cap
  {
    if e == |ins| then [] else RenderedFrom(cfg, cap, ins, e + 1, e + 1, id)
  }

  /** The rest, from block i on, of a packet triggered by t, then all later packets. */
  ghost function AfterTrigger(cfg: Config, cap: nat, ins: seq<AudioBuffer>, t: nat, i: nat, id: int): seq<Tagged>
    requires t < i <= |ins| && 1 <= cap
  {
    var e := NextEnd(cfg, ins, t, i);
    Rest(ins, i, EndOf(ins, e), e < |ins|, id) + Later(cfg, cap, ins, e, id + 1)
  }

  lemma {:induction false} RunFromPacket(cfg: Config, s: State, ins: seq<AudioBuffer>, t: nat, i: nat)
    requires !cfg.continuous && AllReal(ins) && InPacketAt(cfg, s, ins, t, i)
    requires s.nextId == s.packetId + 1
    ensures Run(cfg, s, ins[i..]).1 == AfterTrigger(cfg, s.ring.capacity, ins, t, i, s.packetId)
    decreases |ins| - i
  {
    hide Run, Step, AfterTrigger, RenderedFrom, EndsIn, EndsBy, Counted, QuietRun;
    if i < |ins| {
      var s1, o1 := InPacketStep(cfg, s, ins, t, i);
      if EndsIn(cfg, ins, t, i) {
        RunFromIdle(cfg, s1, ins, i + 1, i + 1);
        AfterEnd(cfg, s.ring.capacity, ins, t, i, s.packetId);
      } else {
        RunFromPacket(cfg, s1, ins, t, i + 1);
        AfterMiddle(cfg, s.ring.capacity, ins, t, i, s.packetId);
      }
    } else {
      NothingAfter(cfg, s, ins, t);
    }
  }

  lemma {:induction false} NothingAfter(cfg: Config, s: State, ins: seq<AudioBuffer>, t: nat)
    requires t < |ins| && s.ring.Valid()
    ensures Run(cfg, s, ins[|ins|..]).1 == [] == AfterTrigger(cfg, s.ring.capacity, ins, t, |ins|, s.packetId)
  {
    hide Step, RenderedFrom;
    assert Rest(ins, |ins|, |ins|, false, s.packetId) == [];
  }

  lemma {:induction false} InPacketStep(cfg: Config, s: State, ins: seq<AudioBuffer>, t: nat, i: nat)
    returns (s1: State, o1: seq<Tagged>)
    requires !cfg.continuous && AllReal(ins) && InPacketAt(cfg, s, ins, t, i) && i < |ins|
    ensures s1.ring == s.ring && s1.packetId == s.packetId && s1.nextId == s.nextId
    ensures Run(cfg, s, ins[i..]).1 == o1 + Run(cfg, s1, ins[i + 1..]).1
    ensures EndsIn(cfg, ins, t, i) ==> o1 == [Tagged(ins[i], END, s.packetId)] && IdleAt(s1, ins, i + 1, i + 1)
    ensures !EndsIn(cfg, ins, t, i) ==> o1 == [Tagged(ins[i], MIDDLE, s.packetId)] && InPacketAt(cfg, s1, ins, t, i + 1)
  {
    CountOneMore(ins, t, i);
    ScanMeasuresQuietRun(cfg, Counted(ins, t, i), ins[i].Data());
    RunCons(cfg, s, ins, i);
    s1, o1 := Step(cfg, s, ins[i]).0, Step(cfg, s, ins[i]).1;
  }

  lemma {:induction false} AfterEnd(cfg: Config, cap: nat, ins: seq<AudioBuffer>, t: nat, i: nat, id: int)
    requires t < i < |ins| && 1 <= cap && EndsIn(cfg, ins, t, i)
    ensures AfterTrigger(cfg, cap, ins, t, i, id)
         == [Tagged(ins[i], END, id)] + RenderedFrom(cfg, cap, ins, i + 1, i + 1, id + 1)
  {
    assert NextEnd(cfg, ins, t, i) == i;
    assert Rest(ins, i, i + 1, true, id) == [Tagged(ins[i], END, id)];
  }

  lemma {:induction false} AfterMiddle(cfg: Config, cap: nat, ins: seq<AudioBuffer>, t: nat, i: nat, id: int)
    requires t < i < |ins| && 1 <= cap && !EndsIn(cfg, ins, t, i)
    ensures AfterTrigger(cfg, cap, ins, t, i, id)
         == [Tagged(ins[i], MIDDLE, id)] + AfterTrigger(cfg, cap, ins, t, i + 1, id)
  {
    var e := NextEnd(cfg, ins, t, i + 1);
    assert e == NextEnd(cfg, ins, t, i);
    RestOneMore(ins, i, EndOf(ins, e), e < |ins|, id);
    ConcatAssoc([Tagged(ins[i], MIDDLE, id)], Rest(ins, i + 1, EndOf(ins, e), e < |ins|, id),
      Later(cfg, cap, ins, e, id + 1));
  }

  lemma {:induction false} CountOneMore(ins: seq<AudioBuffer>, t: nat, i: nat)
    requires t < i < |ins|
    ensures Counted(ins, t, i + 1) == Counted(ins, t, i) + ins[i].Data()
  {
    assert ins[t + 1..i + 1] == ins[t + 1..i] + [ins[i]];
    FlattenConcat(ins[t + 1..i], [ins[i]]);
    assert Flatten([ins[i]]) == ins[i].Data() + Flatten([]);
  }

  lemma {:induction false} RestOneMore(ins: seq<AudioBuffer>, i: nat, hi: nat, closed: bool, id: int)
    requires i < hi <= |ins| && (closed ==> i + 1 < hi)
    ensures Rest(ins, i, hi, closed, id) == [Tagged(ins[i], MIDDLE, id)] + Rest(ins, i + 1, hi, closed, id)
  {
  }

  /** From any idle state whose ring holds no null placeholder, the whole published trace is the
      rendering of the packets of (ring contents followed by the new blocks). */
  lemma {:induction false} PublishedIsThePackets(cfg: Config, s: State, ins: seq<AudioBuffer>)
    requires !cfg.continuous && s.ring.Valid() && !s.inPacket && s.quiet == 0
    requires AllReal(s.ring.items) && AllReal(ins)
    ensures var all := s.ring.items + ins; var cap := s.ring.capacity;
      var ps := Packets(cfg, cap, all, 0, |s.ring.items|);
      InOrder(ps, 0, cap, |all|) && Run(cfg, s, ins).1 == RenderAll(all, ps, s.nextId)
  {
    var pre := s.ring.items;
    var all := pre + ins;
    assert all[|pre|..] == ins && all[..|pre|] == pre;
    PacketsAreInOrder(cfg, s.ring.capacity, all, 0, |pre|);
    RunFromIdle(cfg, s, all, 0, |pre|);
  }
}
