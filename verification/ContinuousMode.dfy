/** Continuous mode: every block is forwarded as it comes, marked by the packets it belongs to. */
module ContinuousMode {
  import opened Common
  import opened Audio
  import opened Detector
  import opened Segmentation
  import opened DetectorTheorems

  /** From block i on: the blocks up to the next trigger unmarked, the trigger as START, the blocks
      up to the end of the packet as MIDDLE, and the block that ends it twice, as END and unmarked. */
  ghost function Trace(cfg: Config, ins: seq<AudioBuffer>, i: nat, last: int, id: int): seq<Tagged>
    requires i <= |ins|
    decreases |ins| - i
  {
    var t := NextTrigger(cfg, ins, i);
    TagAll(ins[i..t], NONE, last) +
    if t == |ins| then [] else [Tagged(ins[t], START, id)] + Rest(cfg, ins, t, t + 1, id)
  }

  /** The rest, from block i on, of a packet triggered by block t, and everything after it. */
  ghost function Rest(cfg: Config, ins: seq<AudioBuffer>, t: nat, i: nat, id: int): seq<Tagged>
    requires t < i <= |ins|
    decreases |ins| - i
  {
    var e := NextEnd(cfg, ins, t, i);
    TagAll(ins[i..e], MIDDLE, id) +
    if e == |ins| then []
    else [Tagged(ins[e], END, id), Tagged(ins[e], NONE, id)] + Trace(cfg, ins, e + 1, id, id + 1)
  }

  lemma {:induction false} TagMore(bs: seq<AudioBuffer>, i: nat, j: nat, m: Marker, id: int)
    requires i < j <= |bs|
    ensures TagAll(bs[i..j], m, id) == [Tagged(bs[i], m, id)] + TagAll(bs[i + 1..j], m, id)
  {
  }

  lemma {:induction false} TraceQuiet(cfg: Config, ins: seq<AudioBuffer>, i: nat, last: int, id: int)
    requires i < |ins| && !HasLoud(cfg, ins[i])
    ensures Trace(cfg, ins, i, last, id) == [Tagged(ins[i], NONE, last)] + Trace(cfg, ins, i + 1, last, id)
  {
    hide HasLoud, Rest, TagAll;
    var t := NextTrigger(cfg, ins, i + 1);
    assert t == NextTrigger(cfg, ins, i);
    TagMore(ins, i, t, NONE, last);
    ConcatAssoc([Tagged(ins[i], NONE, last)], TagAll(ins[i + 1..t], NONE, last),
                if t == |ins| then [] else [Tagged(ins[t], START, id)] + Rest(cfg, ins, t, t + 1, id));
  }

  lemma {:induction false} TraceTrigger(cfg: Config, ins: seq<AudioBuffer>, i: nat, last: int, id: int)
    requires i < |ins| && HasLoud(cfg, ins[i])
    ensures Trace(cfg, ins, i, last, id) == [Tagged(ins[i], START, id)] + Rest(cfg, ins, i, i + 1, id)
  {
    hide HasLoud, Rest;
    assert NextTrigger(cfg, ins, i) == i && TagAll(ins[i..i], NONE, last) == [];
    var r := [Tagged(ins[i], START, id)] + Rest(cfg, ins, i, i + 1, id);
    assert [] + r == r;
  }

  lemma {:induction false} RestMiddle(cfg: Config, ins: seq<AudioBuffer>, t: nat, i: nat, id: int)
    requires t < i < |ins| && !EndsIn(cfg, ins, t, i)
    ensures Rest(cfg, ins, t, i, id) == [Tagged(ins[i], MIDDLE, id)] + Rest(cfg, ins, t, i + 1, id)
  {
    hide EndsIn, Trace, TagAll;
    var e := NextEnd(cfg, ins, t, i + 1);
    assert e == NextEnd(cfg, ins, t, i);
    TagMore(ins, i, e, MIDDLE, id);
    ConcatAssoc([Tagged(ins[i], MIDDLE, id)], TagAll(ins[i + 1..e], MIDDLE, id),
                if e == |ins| then []
                else [Tagged(ins[e], END, id), Tagged(ins[e], NONE, id)] + Trace(cfg, ins, e + 1, id, id + 1));
  }

  lemma {:induction false} RestEnd(cfg: Config, ins: seq<AudioBuffer>, t: nat, i: nat, id: int)
    requires t < i < |ins| && EndsIn(cfg, ins, t, i)
    ensures Rest(cfg, ins, t, i, id)
         == [Tagged(ins[i], END, id), Tagged(ins[i], NONE, id)] + Trace(cfg, ins, i + 1, id, id + 1)
  {
    hide EndsIn, Trace;
    assert NextEnd(cfg, ins, t, i) == i && TagAll(ins[i..i], MIDDLE, id) == [];
    var r := [Tagged(ins[i], END, id), Tagged(ins[i], NONE, id)] + Trace(cfg, ins, i + 1, id, id + 1);
    assert [] + r == r;
  }

  lemma {:induction false} NothingLeft(cfg: Config, s: State, ins: seq<AudioBuffer>, t: nat, last: int, id: int)
    requires s.ring.Valid()
    ensures Run(cfg, s, ins[|ins|..]).1 == [] == Trace(cfg, ins, |ins|, last, id)
    ensures t < |ins| ==> Rest(cfg, ins, t, |ins|, id) == []
  {
  }

  ghost predicate InPacketAt(cfg: Config, s: State, ins: seq<AudioBuffer>, t: nat, i: nat) {
    && t < i <= |ins| && s.ring.Valid() && s.inPacket && s.nextId == s.packetId + 1
    && s.quiet == QuietRun(cfg, Counted(ins, t, i)) && !EndsBy(cfg, Counted(ins, t, i))
  }

  lemma {:induction false} IdleStep(cfg: Config, s: State, ins: seq<AudioBuffer>, i: nat)
    requires cfg.continuous && s.ring.Valid() && !s.inPacket && s.quiet == 0 && i < |ins|
    ensures var (u, o) := Step(cfg, s, ins[i]);
      && u.ring.Valid()
      && if HasLoud(cfg, ins[i]) then
           o == [Tagged(ins[i], START, s.nextId)] && u.packetId == s.nextId && InPacketAt(cfg, u, ins, i, i + 1)
         else
           && o == [Tagged(ins[i], NONE, s.packetId)] && !u.inPacket && u.quiet == 0
           && u.packetId == s.packetId && u.nextId == s.nextId
  {
    hide HasLoud;
    assert Counted(ins, i, i + 1) == [];
  }

  lemma {:induction false} PacketStep(cfg: Config, s: State, ins: seq<AudioBuffer>, t: nat, i: nat)
    requires cfg.continuous && InPacketAt(cfg, s, ins, t, i) && i < |ins|
    ensures var (u, o) := Step(cfg, s, ins[i]);
      && u.ring.Valid() && u.packetId == s.packetId && u.nextId == s.nextId
      && if EndsIn(cfg, ins, t, i) then
           && o == [Tagged(ins[i], END, s.packetId), Tagged(ins[i], NONE, s.packetId)]
           && !u.inPacket && u.quiet == 0
         else o == [Tagged(ins[i], MIDDLE, s.packetId)] && InPacketAt(cfg, u, ins, t, i + 1)
  {
    CountOneMore(ins, t, i);
    ScanMeasuresQuietRun(cfg, Counted(ins, t, i), ins[i].Data());
  }

  lemma {:induction false} RunFromPacket(cfg: Config, s: State, ins: seq<AudioBuffer>, t: nat, i: nat)
    requires cfg.continuous && InPacketAt(cfg, s, ins, t, i)
    ensures Run(cfg, s, ins[i..]).1 == Rest(cfg, ins, t, i, s.packetId)
    decreases |ins| - i
  {
    hide Run, Step, Trace, Rest, EndsIn, EndsBy, QuietRun, Counted;
    if i < |ins| {
      PacketStep(cfg, s, ins, t, i);
      RunCons(cfg, s, ins, i);
      var u := Step(cfg, s, ins[i]).0;
      if EndsIn(cfg, ins, t, i) {
        PublishedIsTheTrace(cfg, u, ins, i + 1);
        RestEnd(cfg, ins, t, i, s.packetId);
      } else {
        RunFromPacket(cfg, u, ins, t, i + 1);
        RestMiddle(cfg, ins, t, i, s.packetId);
      }
    } else {
      NothingLeft(cfg, s, ins, t, 0, s.packetId);
    }
  }

  /** From any idle point of any input, continuous mode publishes every block, in order, with the
      markers and ids of the packets that NextTrigger and NextEnd find, each END block twice. */
  lemma {:induction false} PublishedIsTheTrace(cfg: Config, s: State, ins: seq<AudioBuffer>, i: nat)
    requires cfg.continuous && s.ring.Valid() && !s.inPacket && s.quiet == 0 && i <= |ins|
    ensures Run(cfg, s, ins[i..]).1 == Trace(cfg, ins, i, s.packetId, s.nextId)
    decreases |ins| - i
  {
    hide Run, Step, Trace, Rest, HasLoud, EndsBy, QuietRun, Counted;
    if i < |ins| {
      IdleStep(cfg, s, ins, i);
      RunCons(cfg, s, ins, i);
      var u := Step(cfg, s, ins[i]).0;
      if HasLoud(cfg, ins[i]) {
        RunFromPacket(cfg, u, ins, i, i + 1);
        TraceTrigger(cfg, ins, i, s.packetId, s.nextId);
      } else {
        PublishedIsTheTrace(cfg, u, ins, i + 1);
        TraceQuiet(cfg, ins, i, s.packetId, s.nextId);
      }
    } else {
      NothingLeft(cfg, s, ins, 0, s.packetId, s.nextId);
    }
  }

  /** The input from block i on, with every block that ends a packet repeated. */
  ghost function WithEndsRepeated(cfg: Config, ins: seq<AudioBuffer>, i: nat): seq<AudioBuffer>
    requires i <= |ins|
    decreases |ins| - i
  {
    var t := NextTrigger(cfg, ins, i);
    var e := if t == |ins| then t else NextEnd(cfg, ins, t, t + 1);
    if e == |ins| then ins[i..] else ins[i..e + 1] + [ins[e]] + WithEndsRepeated(cfg, ins, e + 1)
  }

  lemma {:induction false} TagAllBlocks(bs: seq<AudioBuffer>, m: Marker, id: int)
    ensures Blocks(TagAll(bs, m, id)) == bs
  {
  }

  lemma {:induction false} TraceBlocks(cfg: Config, ins: seq<AudioBuffer>, i: nat, last: int, id: int)
    requires i <= |ins|
    ensures Blocks(Trace(cfg, ins, i, last, id)) == WithEndsRepeated(cfg, ins, i)
    decreases |ins| - i
  {
    hide Blocks, TagAll, NextTrigger, NextEnd, Rest, Trace, WithEndsRepeated;
    var t := NextTrigger(cfg, ins, i);
    if t == |ins| {
      QuietTrace(cfg, ins, i, last, id);
    } else {
      TriggeredTrace(cfg, ins, i, last, id);
      var packet := [Tagged(ins[t], START, id)] + Rest(cfg, ins, t, t + 1, id);
      PacketBlocks(cfg, ins, t, id);
      TaggedThen(ins[i..t], last, packet);
      TriggeredRepeats(cfg, ins, i);
    }
  }

  lemma {:induction false} TriggeredTrace(cfg: Config, ins: seq<AudioBuffer>, i: nat, last: int, id: int)
    requires i <= |ins| && NextTrigger(cfg, ins, i) < |ins|
    ensures var t := NextTrigger(cfg, ins, i);
      Trace(cfg, ins, i, last, id)
        == TagAll(ins[i..t], NONE, last) + ([Tagged(ins[t], START, id)] + Rest(cfg, ins, t, t + 1, id))
  {
    hide NextTrigger, NextEnd, Rest, TagAll;
  }

  lemma {:induction false} RepeatsFrom(cfg: Config, ins: seq<AudioBuffer>, i: nat)
    requires i <= |ins| && NextTrigger(cfg, ins, i) < |ins|
    ensures var t := NextTrigger(cfg, ins, i); var e := NextEnd(cfg, ins, t, t + 1);
      WithEndsRepeated(cfg, ins, i)
        == if e == |ins| then ins[i..] else ins[i..e + 1] + [ins[e]] + WithEndsRepeated(cfg, ins, e + 1)
  {
    hide NextTrigger, NextEnd;
  }

  lemma {:induction false} TriggeredRepeats(cfg: Config, ins: seq<AudioBuffer>, i: nat)
    requires i <= |ins| && NextTrigger(cfg, ins, i) < |ins|
    ensures var t := NextTrigger(cfg, ins, i); var e := NextEnd(cfg, ins, t, t + 1);
      ins[i..t] + ([ins[t]] + (ins[t + 1..e]
        + if e == |ins| then [] else [ins[e], ins[e]] + WithEndsRepeated(cfg, ins, e + 1)))
      == WithEndsRepeated(cfg, ins, i)
  {
    hide NextTrigger, NextEnd, WithEndsRepeated;
    var t := NextTrigger(cfg, ins, i);
    var e := NextEnd(cfg, ins, t, t + 1);
    RepeatsFrom(cfg, ins, i);
    JoinBlocks(ins, i, t, e, if e == |ins| then [] else WithEndsRepeated(cfg, ins, e + 1));
  }

  lemma {:induction false} QuietTrace(cfg: Config, ins: seq<AudioBuffer>, i: nat, last: int, id: int)
    requires i <= |ins| && NextTrigger(cfg, ins, i) == |ins|
    ensures Blocks(Trace(cfg, ins, i, last, id)) == WithEndsRepeated(cfg, ins, i)
  {
    hide Blocks, TagAll, NextTrigger, NextEnd, Rest;
    assert TagAll(ins[i..|ins|], NONE, last) + [] == TagAll(ins[i..|ins|], NONE, last);
    TagAllBlocks(ins[i..|ins|], NONE, last);
    assert ins[i..|ins|] == ins[i..];
  }

  lemma {:induction false} TaggedThen(bs: seq<AudioBuffer>, last: int, more: seq<Tagged>)
    ensures Blocks(TagAll(bs, NONE, last) + more) == bs + Blocks(more)
  {
    hide Blocks, TagAll;
    BlocksConcat(TagAll(bs, NONE, last), more);
    TagAllBlocks(bs, NONE, last);
  }

  lemma {:induction false} PacketBlocks(cfg: Config, ins: seq<AudioBuffer>, t: nat, id: int)
    requires t < |ins|
    ensures var e := NextEnd(cfg, ins, t, t + 1);
      Blocks([Tagged(ins[t], START, id)] + Rest(cfg, ins, t, t + 1, id)) ==
        [ins[t]] + (ins[t + 1..e] + if e == |ins| then [] else [ins[e], ins[e]] + WithEndsRepeated(cfg, ins, e + 1))
    decreases |ins| - t, 0
  {
    hide TagAll, Trace, WithEndsRepeated;
    var e := NextEnd(cfg, ins, t, t + 1);
    var middle := TagAll(ins[t + 1..e], MIDDLE, id);
    TagAllBlocks(ins[t + 1..e], MIDDLE, id);
    BlocksConcat([Tagged(ins[t], START, id)], Rest(cfg, ins, t, t + 1, id));
    if e < |ins| {
      TraceBlocks(cfg, ins, e + 1, id, id + 1);
      var ends := [Tagged(ins[e], END, id), Tagged(ins[e], NONE, id)];
      var later := Trace(cfg, ins, e + 1, id, id + 1);
      BlocksConcat(ends, later);
      BlocksConcat(middle, ends + later);
      assert Blocks(ends) == [ins[e], ins[e]];
    } else {
      BlocksConcat(middle, []);
      assert Blocks([]) == [];
    }
    assert Blocks([Tagged(ins[t], START, id)]) == [ins[t]];
  }

  lemma {:induction false} JoinBlocks(ins: seq<AudioBuffer>, i: nat, t: nat, e: nat, more: seq<AudioBuffer>)
    requires i <= t < e <= |ins|
    ensures ins[i..t] + ([ins[t]] + (ins[t + 1..e] + if e == |ins| then [] else [ins[e], ins[e]] + more))
         == if e == |ins| then ins[i..] else ins[i..e + 1] + [ins[e]] + more
  {
  }

  /** Continuous mode forwards every block, and the block that ends a packet twice. */
  lemma {:induction false} ContinuousModeForwardsAll(cfg: Config, s: State, ins: seq<AudioBuffer>)
    requires cfg.continuous && s.ring.Valid() && !s.inPacket && s.quiet == 0
    ensures Blocks(Run(cfg, s, ins).1) == WithEndsRepeated(cfg, ins, 0)
  {
    hide Run, Trace, Blocks, WithEndsRepeated;
    assert ins[0..] == ins;
    PublishedIsTheTrace(cfg, s, ins, 0);
    TraceBlocks(cfg, ins, 0, s.packetId, s.nextId);
  }
}
