/** What one block does to the detector, in terms of its samples. */
module DetectorSteps {
  import opened Common
  import opened Audio
  import opened Detector
  import opened Segmentation
  import opened DetectorTheorems

  /** The samples from..to of a block all lie strictly within the threshold. */
  predicate QuietWithin(cfg: Config, xs: seq<Sample>, from: nat, to: nat) {
    from <= to <= |xs| && forall k :: from <= k < to ==> -cfg.threshold < xs[k] < cfg.threshold
  }

  lemma {:induction false} LoudIff(cfg: Config, x: Sample)
    ensures Loud(cfg, x) <==> x >= cfg.threshold || x <= -cfg.threshold
  {
  }

  /** An idle detector starts a packet at exactly the blocks with a sample of at least the threshold
      in absolute value, above or below zero. */
  lemma {:induction false} IdleBlockTriggersIff(cfg: Config, s: State, b: AudioBuffer)
    requires s.ring.Valid() && !s.inPacket
    ensures Step(cfg, s, b).0.inPacket
       <==> exists i :: 0 <= i < |b.Data()| && (b.Data()[i] >= cfg.threshold || b.Data()[i] <= -cfg.threshold)
    ensures var t := Step(cfg, s, b).0;
      if t.inPacket then
        t.packetId == s.nextId && t.nextId == s.nextId + 1 && (b.Buffer? ==> t.startTime == b.startTime)
      else t.packetId == s.packetId && t.nextId == s.nextId && t.startTime == s.startTime
  {
    if i :| 0 <= i < |b.Data()| && (b.Data()[i] >= cfg.threshold || b.Data()[i] <= -cfg.threshold) {
      LoudIff(cfg, b.Data()[i]);
    }
    if HasLoud(cfg, b) {
      var i :| 0 <= i < |b.Data()| && Loud(cfg, b.Data()[i]);
      LoudIff(cfg, b.Data()[i]);
    }
  }

  /** The quiet samples that end a prefix of a block, or those before the block as well. */
  predicate Silence(cfg: Config, xs: seq<Sample>, before: nat, j: nat, q: nat)
    requires j <= |xs|
  {
    if QuietWithin(cfg, xs, 0, j) then q == before + j
    else q < j && QuietWithin(cfg, xs, j - q, j) && !(-cfg.threshold < xs[j - q - 1] < cfg.threshold)
  }

  /** Some prefix of the block brings the silence to the limit. */
  ghost predicate ReachesLimit(cfg: Config, xs: seq<Sample>, before: nat) {
    exists j: nat, q: nat :: 1 <= j <= |xs| && Silence(cfg, xs, before, j, q) && q as real >= cfg.endSilence
  }

  lemma {:induction false} SilenceTail(cfg: Config, xs: seq<Sample>, before: nat, j: nat, q: nat)
    requires 1 <= j <= |xs|
    ensures var first := if -cfg.threshold < xs[0] < cfg.threshold then before + 1 else 0;
      Silence(cfg, xs, before, j, q) <==> Silence(cfg, xs[1..], first, j - 1, q)
  {
    var first := if -cfg.threshold < xs[0] < cfg.threshold then before + 1 else 0;
    var ys := xs[1..];
    assert forall k :: 1 <= k < |xs| ==> ys[k - 1] == xs[k];
    QuietTail(cfg, xs, 0, j);
    if QuietWithin(cfg, ys, 0, j - 1) {
      if !(-cfg.threshold < xs[0] < cfg.threshold) {
        LoudFirst(cfg, xs, j, q);
      }
    } else if q < j {
      QuietTail(cfg, xs, j - q, j);
      if q == j - 1 {
        QuietTail(cfg, xs, 1, j);
      }
    }
  }

  lemma {:induction false} QuietTail(cfg: Config, xs: seq<Sample>, from: nat, to: nat)
    requires from <= to <= |xs| && 1 <= to
    ensures QuietWithin(cfg, xs, from, to)
       <==> (from == 0 ==> -cfg.threshold < xs[0] < cfg.threshold)
            && QuietWithin(cfg, xs[1..], if from == 0 then 0 else from - 1, to - 1)
  {
    assert forall k :: 1 <= k < |xs| ==> xs[1..][k - 1] == xs[k];
  }

  /** With a loud first sample and nothing loud after it, the silence is the rest of the prefix. */
  lemma {:induction false} LoudFirst(cfg: Config, xs: seq<Sample>, j: nat, q: nat)
    requires 1 <= j <= |xs| && !(-cfg.threshold < xs[0] < cfg.threshold) && QuietWithin(cfg, xs[1..], 0, j - 1)
    ensures forall before: nat :: Silence(cfg, xs, before, j, q) <==> q == j - 1
  {
    assert forall k :: 1 <= k < |xs| ==> xs[1..][k - 1] == xs[k];
    assert !QuietWithin(cfg, xs, 0, j);
  }

  lemma {:induction false} SilenceOfNothing(cfg: Config, xs: seq<Sample>, before: nat, q: nat)
    ensures Silence(cfg, xs, before, 0, q) <==> q == before
  {
  }

  lemma {:induction false} ScanIsSilence(cfg: Config, xs: seq<Sample>, before: nat)
    ensures ScanFrom(cfg, xs, before) == Ended <==> ReachesLimit(cfg, xs, before)
    ensures var r := ScanFrom(cfg, xs, before);
      r.Running? ==> forall q: nat :: Silence(cfg, xs, before, |xs|, q) <==> q == r.quiet
  {
    hide Silence, Loud, Reached;
    if xs == [] {
      forall q: nat ensures Silence(cfg, xs, before, 0, q) <==> q == before {
        SilenceOfNothing(cfg, xs, before, q);
      }
    } else {
      var first := if -cfg.threshold < xs[0] < cfg.threshold then before + 1 else 0;
      LoudIff(cfg, xs[0]);
      LimitTail(cfg, xs, before, first);
      if !Reached(cfg, first) {
        ScanIsSilence(cfg, xs[1..], first);
        forall q: nat ensures Silence(cfg, xs, before, |xs|, q) <==> Silence(cfg, xs[1..], first, |xs| - 1, q) {
          SilenceTail(cfg, xs, before, |xs|, q);
        }
      }
    }
  }

  lemma {:induction false} LimitTail(cfg: Config, xs: seq<Sample>, before: nat, first: nat)
    requires xs != [] && first == if -cfg.threshold < xs[0] < cfg.threshold then before + 1 else 0
    ensures ReachesLimit(cfg, xs, before) <==> Reached(cfg, first) || ReachesLimit(cfg, xs[1..], first)
  {
    hide Silence;
    SilenceTail(cfg, xs, before, 1, first);
    SilenceOfNothing(cfg, xs[1..], first, first);
    if j: nat, q: nat :| 1 <= j <= |xs| && Silence(cfg, xs, before, j, q) && q as real >= cfg.endSilence {
      SilenceTail(cfg, xs, before, j, q);
      if j == 1 {
        SilenceOfNothing(cfg, xs[1..], first, q);
      } else {
        assert Silence(cfg, xs[1..], first, j - 1, q);
      }
    }
    if j: nat, q: nat :| 1 <= j < |xs| && Silence(cfg, xs[1..], first, j, q) && q as real >= cfg.endSilence {
      SilenceTail(cfg, xs, before, j + 1, q);
    }
  }

  /** A block in a packet: it ends the packet at exactly the limit of silence, counted over its
      samples and those before it; otherwise the counter is the number of samples since the last
      one of at least the threshold in absolute value. It is published either way, whatever the
      ring holds, and the ring stays as it was. */
  lemma {:induction false} PacketBlockCounts(cfg: Config, s: State, b: AudioBuffer)
    requires s.ring.Valid() && s.inPacket && !cfg.continuous
    ensures var (t, o) := Step(cfg, s, b);
      && (!t.inPacket <==> ReachesLimit(cfg, b.Data(), s.quiet))
      && (t.inPacket ==> Silence(cfg, b.Data(), s.quiet, |b.Data()|, t.quiet))
      && (!t.inPacket ==> t.quiet == 0)
      && o == [Tagged(b, if t.inPacket then MIDDLE else END, s.packetId)]
      && t.ring == s.ring && t.packetId == s.packetId && t.nextId == s.nextId
  {
    ScanIsSilence(cfg, b.Data(), s.quiet);
    hide Silence, ReachesLimit;
  }

  /** A packet from block i on, whatever the ring holds, also if its START went missing: its blocks
      are published as MIDDLE up to the END, and the ring stays as it was. */
  lemma {:induction false} BodyIsPublished(cfg: Config, s: State, ins: seq<AudioBuffer>, t: nat, i: nat)
    requires !cfg.continuous && s.ring.Valid() && s.inPacket && t < i <= |ins|
    requires s.quiet == QuietRun(cfg, Counted(ins, t, i)) && !EndsBy(cfg, Counted(ins, t, i))
    ensures var e := NextEnd(cfg, ins, t, i); var hi := EndOf(ins, e);
      var (u, o) := Run(cfg, s, ins[i..hi]);
      && u.ring == s.ring && u.inPacket == (e == |ins|) && |o| == hi - i
      && forall k :: 0 <= k < |o| ==>
           o[k] == Tagged(ins[i + k], if e < |ins| && i + k == e then END else MIDDLE, s.packetId)
    decreases |ins| - i
  {
    hide Step, QuietRun, EndsBy, Counted, EndsIn;
    var e := NextEnd(cfg, ins, t, i);
    if i < |ins| {
      BodyStep(cfg, s, ins, t, i);
      var u := Step(cfg, s, ins[i]).0;
      if EndsIn(cfg, ins, t, i) {
        RunOne(cfg, s, ins, i);
      } else {
        BodyIsPublished(cfg, u, ins, t, i + 1);
        RunFirst(cfg, s, ins, i, EndOf(ins, e));
      }
    } else {
      assert ins[i..|ins|] == [];
    }
  }

  lemma {:induction false} BodyStep(cfg: Config, s: State, ins: seq<AudioBuffer>, t: nat, i: nat)
    requires !cfg.continuous && s.ring.Valid() && s.inPacket && t < i < |ins|
    requires s.quiet == QuietRun(cfg, Counted(ins, t, i)) && !EndsBy(cfg, Counted(ins, t, i))
    ensures var (u, o) := Step(cfg, s, ins[i]);
      && u.ring == s.ring && u.packetId == s.packetId && u.inPacket == !EndsIn(cfg, ins, t, i)
      && o == [Tagged(ins[i], if u.inPacket then MIDDLE else END, s.packetId)]
      && (u.inPacket ==> u.quiet == QuietRun(cfg, Counted(ins, t, i + 1)) && !EndsBy(cfg, Counted(ins, t, i + 1)))
  {
    CountOneMore(ins, t, i);
    ScanMeasuresQuietRun(cfg, Counted(ins, t, i), ins[i].Data());
  }

  lemma {:induction false} RunOne(cfg: Config, s: State, ins: seq<AudioBuffer>, i: nat)
    requires s.ring.Valid() && i < |ins|
    ensures Run(cfg, s, ins[i..i + 1]) == (Step(cfg, s, ins[i]).0, Step(cfg, s, ins[i]).1)
  {
    hide Step;
    assert ins[i..i + 1] == [ins[i]] && [ins[i]][1..] == [];
    var o := Step(cfg, s, ins[i]).1;
    assert o + [] == o;
  }

  lemma {:induction false} RunFirst(cfg: Config, s: State, ins: seq<AudioBuffer>, i: nat, hi: nat)
    requires s.ring.Valid() && i < hi <= |ins| && Step(cfg, s, ins[i]).0.ring.Valid()
    ensures var (u, o) := Step(cfg, s, ins[i]); var r := Run(cfg, u, ins[i + 1..hi]);
      Run(cfg, s, ins[i..hi]) == (r.0, o + r.1)
  {
    hide Step;
    assert ins[i..hi][0] == ins[i] && ins[i..hi][1..] == ins[i + 1..hi];
  }
}
