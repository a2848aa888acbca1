/** Discrete-mode playback of one modem's packets: a queue of blocks and a sample index that
    survives from one audio cycle to the next. */
module Playback {
  import opened Common
  import opened Audio

  /** toFrames is the platform's conversion of a double to an unsigned frame count; sizes in
      configuration are compared as unsigned numbers. */
  datatype Config = Config(fs: nat, calibration: real, minPlayback: nat, emptySize: nat, toFrames: real -> nat)

  /** The entries that one JackThread keeps for one modem index. */
  datatype Slot = Slot(queue: seq<Tagged>, index: nat, newPacket: bool)

  ghost predicate Playable(q: seq<Tagged>) {
    forall t :: t in q ==> t.buffer.Buffer?
  }

  /** The subscription callback: a START clears what was queued before it. */
  function AudioOut(s: Slot, t: Tagged): Slot {
    if t.marker == START then Slot([t], s.index, true) else s.(queue := s.queue + [t])
  }

  // ---------------------------------------------------------------------------------------
  // One cycle, sample by sample
  // ---------------------------------------------------------------------------------------

  /** Pops every block the index has run past, resetting the index each time. */
  function Settle(q: seq<Tagged>, i: nat): (seq<Tagged>, nat) {
    if q == [] || i < |q[0].buffer.Data()| then (q, i) else Settle(q[1..], 0)
  }

  /** Plays m samples; an emptied queue plays zeros, and the index goes on counting them. */
  function Play(q: seq<Tagged>, i: nat, m: nat): (r: (seq<Tagged>, nat, seq<Sample>))
    ensures |r.2| == m
    decreases m
  {
    if m == 0 then (q, i, [])
    else
      var (q1, i1) := Settle(q, i);
      SettleStops(q, i);
      var x := if q1 == [] then 0.0 else q1[0].buffer.Data()[i1];
      var (q2, i2, xs) := Play(q1, i1 + 1, m - 1);
      (q2, i2, [x] + xs)
  }

  lemma {:induction false} SettleStops(q: seq<Tagged>, i: nat)
    ensures var (q1, i1) := Settle(q, i); q1 != [] ==> i1 < |q1[0].buffer.Data()|
  {
    if q != [] && i >= |q[0].buffer.Data()| {
      SettleStops(q[1..], 0);
    }
  }

  /** A cycle that has played these samples, with m more to go. */
  ghost predicate PlayedSoFar(whole: (seq<Tagged>, nat, seq<Sample>), played: seq<Sample>, q: seq<Tagged>, i: nat,
                              m: nat) {
    var (q', i', xs) := Play(q, i, m);
    whole == (q', i', played + xs)
  }

  lemma {:induction false} PlayBegins(q: seq<Tagged>, i: nat, m: nat)
    ensures PlayedSoFar(Play(q, i, m), [], q, i, m)
  {
    var xs := Play(q, i, m).2;
    assert [] + xs == xs;
  }

  lemma {:induction false} PlayOneMore(whole: (seq<Tagged>, nat, seq<Sample>), played: seq<Sample>,
                                       q: seq<Tagged>, i: nat, m: nat)
    requires PlayedSoFar(whole, played, q, i, m) && m > 0
    ensures var (q1, i1) := Settle(q, i);
      && (q1 != [] ==> i1 < |q1[0].buffer.Data()|)
      && PlayedSoFar(whole, played + [if q1 == [] then 0.0 else q1[0].buffer.Data()[i1]], q1, i1 + 1, m - 1)
  {
    var (q1, i1) := Settle(q, i);
    SettleStops(q, i);
    var x := if q1 == [] then 0.0 else q1[0].buffer.Data()[i1];
    ConcatAssoc(played, [x], Play(q1, i1 + 1, m - 1).2);
  }

  lemma {:induction false} PlayEnds(whole: (seq<Tagged>, nat, seq<Sample>), played: seq<Sample>, q: seq<Tagged>, i: nat)
    requires PlayedSoFar(whole, played, q, i, 0)
    ensures whole == (q, i, played)
  {
    assert played + [] == played;
  }

  /** The frames from now to a later start, less the calibrated latency of the system. */
  function FramesUntil(cfg: Config, start: real, now: real): nat {
    cfg.toFrames((start - now - cfg.calibration) * cfg.fs as real)
  }

  /** Frames to wait in this cycle before the packet whose first block starts at `start`. */
  function FrameStart(cfg: Config, start: real, now: real): nat {
    if start > now then FramesUntil(cfg, start, now) else 0
  }

  /** A waiting packet begins in this cycle if its start lies within it and enough is queued. */
  predicate Begins(cfg: Config, s: Slot, now: real, n: nat)
    requires s.queue != [] && s.queue[0].buffer.Buffer?
  {
    FrameStart(cfg, s.queue[0].buffer.startTime, now) <= n && |s.queue| >= cfg.minPlayback
  }

  datatype Output = Silent | Wrote(samples: seq<Sample>)

  /** One process cycle of n frames: the new slot and what is written to the port, if anything. */
  function Cycle(cfg: Config, s: Slot, now: real, n: nat): (Slot, Output)
    requires s.newPacket && s.queue != [] ==> s.queue[0].buffer.Buffer?
  {
    if s.queue == [] then (s, Silent)
    else if s.newPacket && !Begins(cfg, s, now, n) then (s.(index := 0), Silent)
    else
      var f := if s.newPacket then FrameStart(cfg, s.queue[0].buffer.startTime, now) else 0;
      var (q, i, xs) := Play(s.queue, if s.newPacket then 0 else s.index, n - f);
      (Slot(q, i, false), Wrote(Zeros(f) + xs))
  }

  // ---------------------------------------------------------------------------------------
  // The thread object
  // ---------------------------------------------------------------------------------------

  class JackOutput {
    const cfg: Config
    var audioOutBuffer: seq<Tagged>
    var audioOutIndex: nat
    var newPacket: bool

    ghost predicate Valid() reads this {
      Playable(audioOutBuffer)
    }

    ghost function Value(): Slot reads this {
      Slot(audioOutBuffer, audioOutIndex, newPacket)
    }

    constructor (cfg: Config)
      ensures Valid() && this.cfg == cfg && Value() == Slot([], 0, false)
    {
      this.cfg := cfg;
      audioOutBuffer, audioOutIndex, newPacket := [], 0, false;
    }

    method ReceiveAudioOut(buffer: Tagged)
      requires Valid() && buffer.buffer.Buffer?
      modifies this
      ensures Valid() && Value() == AudioOut(old(Value()), buffer)
    {
      if buffer.marker == START {
        audioOutBuffer := [];
        newPacket := true;
      }
      audioOutBuffer := audioOutBuffer + [buffer];
    }

    /** nframes never exceeds the size of the zero-filled block that stands in for a missing one;
        then the inner loop never pops an empty queue. */
    method JackProcess(bufferStartTime: real, nframes: nat) returns (out: Output)
      requires Valid() && nframes <= cfg.emptySize
      modifies this
      ensures Valid()
      ensures (Value(), out) == Cycle(cfg, old(Value()), bufferStartTime, nframes)
    {
      if audioOutBuffer == [] {
        return Silent;
      }
      var txBuffer := audioOutBuffer[0].buffer;
      assert audioOutBuffer[0] in audioOutBuffer;
      var frameStart := 0;
      if newPacket {
        audioOutIndex := 0;
        if txBuffer.startTime > bufferStartTime {
          frameStart := FramesUntil(cfg, txBuffer.startTime, bufferStartTime);
        }
        if frameStart > nframes {
          return Silent;
        }
        if |audioOutBuffer| < cfg.minPlayback {
          return Silent;
        }
        newPacket := false;
      }
      var xs := PlayFrames(txBuffer, frameStart, nframes);
      out := Wrote(xs);
    }

    method PlayFrames(first: AudioBuffer, frameStart: nat, nframes: nat) returns (out: seq<Sample>)
      requires Valid() && audioOutBuffer != [] && first == audioOutBuffer[0].buffer
      requires frameStart <= nframes <= cfg.emptySize
      modifies this`audioOutBuffer, this`audioOutIndex
      ensures Valid()
      ensures var (q, i, xs) := Play(old(audioOutBuffer), old(audioOutIndex), nframes - frameStart);
        audioOutBuffer == q && audioOutIndex == i && out == Zeros(frameStart) + xs
    {
      hide Play, Settle;
      var emptyBuffer := Buffer(0.0, Zeros(cfg.emptySize));
      var txBuffer := first;
      out := [];
      ghost var played := [];
      ghost var whole := Play(audioOutBuffer, audioOutIndex, nframes - frameStart);
      PlayBegins(audioOutBuffer, audioOutIndex, nframes - frameStart);
      for frame := 0 to nframes
        invariant Valid() && |out| == frame
        invariant txBuffer == if audioOutBuffer == [] then emptyBuffer else audioOutBuffer[0].buffer
        invariant audioOutBuffer == [] ==> audioOutIndex <= frame
        invariant frame <= frameStart ==> out == Zeros(frame) && played == []
        invariant frame <= frameStart ==>
          audioOutBuffer == old(audioOutBuffer) && audioOutIndex == old(audioOutIndex)
        invariant frame >= frameStart ==> out == Zeros(frameStart) + played
        invariant frame >= frameStart ==> PlayedSoFar(whole, played, audioOutBuffer, audioOutIndex, nframes - frame)
      {
        if frame < frameStart {
          out := out + [0.0];
        } else {
          PlayOneMore(whole, played, audioOutBuffer, audioOutIndex, nframes - frame);
          txBuffer := PopPlayed(txBuffer, emptyBuffer);
          out := out + [txBuffer.samples[audioOutIndex]];
          played := played + [txBuffer.samples[audioOutIndex]];
          audioOutIndex := audioOutIndex + 1;
        }
      }
      PlayEnds(whole, played, audioOutBuffer, audioOutIndex);
    }

    /** The inner loop: pops every block that the index has run past, down to the empty one. */
    method PopPlayed(current: AudioBuffer, emptyBuffer: AudioBuffer) returns (txBuffer: AudioBuffer)
      requires Valid() && emptyBuffer.Buffer?
      requires current == if audioOutBuffer == [] then emptyBuffer else audioOutBuffer[0].buffer
      requires audioOutBuffer == [] ==> audioOutIndex < |emptyBuffer.samples|
      requires |emptyBuffer.samples| > 0
      modifies this`audioOutBuffer, this`audioOutIndex
      ensures Valid() && (audioOutBuffer, audioOutIndex) == Settle(old(audioOutBuffer), old(audioOutIndex))
      ensures txBuffer == if audioOutBuffer == [] then emptyBuffer else audioOutBuffer[0].buffer
      ensures txBuffer.Buffer? && audioOutIndex < |txBuffer.samples|
      ensures audioOutBuffer == [] ==> audioOutIndex == if old(audioOutBuffer) == [] then old(audioOutIndex) else 0
    {
      txBuffer := current;
      if audioOutBuffer != [] {
        assert audioOutBuffer[0] in audioOutBuffer;
      }
      while audioOutIndex >= |txBuffer.samples|
        invariant Valid() && txBuffer.Buffer?
        invariant txBuffer == if audioOutBuffer == [] then emptyBuffer else audioOutBuffer[0].buffer
        invariant Settle(audioOutBuffer, audioOutIndex) == Settle(old(audioOutBuffer), old(audioOutIndex))
        invariant audioOutBuffer == [] ==> audioOutIndex == if old(audioOutBuffer) == [] then old(audioOutIndex) else 0
        decreases |audioOutBuffer|
      {
        audioOutIndex := 0;
        audioOutBuffer := audioOutBuffer[1..];
        if audioOutBuffer == [] {
          txBuffer := emptyBuffer;
        } else {
          txBuffer := audioOutBuffer[0].buffer;
          assert audioOutBuffer[0] in audioOutBuffer;
        }
      }
    }
  }
}
