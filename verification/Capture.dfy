/** The capture queue between the realtime audio callback and the publishing loop, which takes the
    lock twice: once to look at the front, once to remove it after publishing it unlocked. */
module Capture {
  import opened Audio

  // ---------------------------------------------------------------------------------------
  // The thread object: one method per critical section
  // ---------------------------------------------------------------------------------------

  /** Where the publishing loop is: outside, or between its two locks with a block in hand. */
  datatype Consumer = Outside | Holding(block: AudioBuffer) | Published(block: AudioBuffer)

  datatype State = State(queue: seq<AudioBuffer>, consumer: Consumer, published: seq<AudioBuffer>)

  datatype Step = Capture(block: AudioBuffer) | Take | Publish | Remove

  /** The wait is over only when something is queued; the loop is in one place at a time. */
  predicate Enabled(s: State, e: Step) {
    match e
    case Capture(_) => true
    case Take => s.consumer == Outside && s.queue != []
    case Publish => s.consumer.Holding?
    case Remove => s.consumer.Published? && s.queue != []
  }

  function Next(max: nat, s: State, e: Step): State
    requires Enabled(s, e)
  {
    match e
    case Capture(b) => s.(queue := s.queue + [b])
    case Take =>
      if |s.queue| >= max then s.(queue := [])
      else s.(consumer := Holding(s.queue[0]))
    case Publish => s.(consumer := Published(s.consumer.block), published := s.published + [s.consumer.block])
    case Remove => s.(consumer := Outside, queue := s.queue[1..])
  }

  class CaptureThread {
    const maxBufferSize: nat
    var audioInBuffer: seq<AudioBuffer>
    var consumer: Consumer
    var published: seq<AudioBuffer>

    ghost function Value(): State reads this {
      State(audioInBuffer, consumer, published)
    }

    constructor (maxBufferSize: nat)
      ensures this.maxBufferSize == maxBufferSize && Value() == State([], Outside, [])
    {
      this.maxBufferSize := maxBufferSize;
      audioInBuffer, consumer, published := [], Outside, [];
    }

    /** The realtime callback copies the port's samples into a new block. */
    method Process(startTime: real, port: seq<Sample>, bufferSize: nat)
      requires |port| <= bufferSize
      modifies this`audioInBuffer
      ensures Value() == Next(maxBufferSize, old(Value()), Capture(Buffer(startTime, PadTake(port, bufferSize))))
    {
      var samples := new Sample[bufferSize](_ => 0.0);
      for frame := 0 to |port|
        modifies samples
        invariant samples[..] == PadTake(port[..frame], bufferSize)
      {
        samples[frame] := port[frame];
      }
      assert port[..|port|] == port;
      assert samples[..] == PadTake(port, bufferSize);
      audioInBuffer := audioInBuffer + [Buffer(startTime, samples[..])];
    }

    method FirstLock()
      requires Enabled(Value(), Take)
      modifies this`audioInBuffer, this`consumer
      ensures Value() == Next(maxBufferSize, old(Value()), Take)
    {
      if |audioInBuffer| >= maxBufferSize {
        audioInBuffer := [];
        return;
      }
      consumer := Holding(audioInBuffer[0]);
    }

    method PublishUnlocked()
      requires Enabled(Value(), Publish)
      modifies this`published, this`consumer
      ensures Value() == Next(maxBufferSize, old(Value()), Publish)
    {
      published := published + [consumer.block];
      consumer := Published(consumer.block);
    }

    method SecondLock()
      requires Enabled(Value(), Remove)
      modifies this`audioInBuffer, this`consumer
      ensures Value() == Next(maxBufferSize, old(Value()), Remove)
    {
      audioInBuffer := audioInBuffer[1..];
      consumer := Outside;
    }
  }

  // ---------------------------------------------------------------------------------------
  // Every interleaving
  // ---------------------------------------------------------------------------------------

  /** A run from the empty state in which every step is enabled. */
  ghost predicate Runs(max: nat, es: seq<Step>)
    decreases |es|, 0
  {
    es == [] || (Runs(max, es[..|es| - 1]) && Enabled(After(max, es[..|es| - 1]), es[|es| - 1]))
  }

  ghost function After(max: nat, es: seq<Step>): State
    requires Runs(max, es)
    decreases |es|, 1
  {
    if es == [] then State([], Outside, []) else Next(max, After(max, es[..|es| - 1]), es[|es| - 1])
  }

  /** Everything captured so far, in capture order. */
  function Captured(es: seq<Step>): seq<AudioBuffer> {
    if es == [] then []
    else if es[|es| - 1].Capture? then Captured(es[..|es| - 1]) + [es[|es| - 1].block]
    else Captured(es[..|es| - 1])
  }

  /** What became of each captured block, in capture order. */
  datatype Fate = Sent | Lost | Waiting

  /** The fates after a run: a clear loses all that wait, a removal has sent the first of them. */
  ghost function Fates(max: nat, es: seq<Step>): seq<Fate>
    requires Runs(max, es)
  {
    if es == [] then []
    else
      var s, f := After(max, es[..|es| - 1]), Fates(max, es[..|es| - 1]);
      match es[|es| - 1]
      case Capture(_) => f + [Waiting]
      case Take => if |s.queue| >= max then Settled(f, Lost) else f
      case Publish => f
      case Remove => SettledFirst(f)
  }

  function Settled(f: seq<Fate>, x: Fate): seq<Fate> {
    seq(|f|, i requires 0 <= i < |f| => if f[i] == Waiting then x else f[i])
  }

  function SettledFirst(f: seq<Fate>): seq<Fate> {
    if f == [] then []
    else if f[0] == Waiting then [Sent] + f[1..]
    else [f[0]] + SettledFirst(f[1..])
  }

  /** The blocks with a given fate, in capture order. */
  function With(f: seq<Fate>, bs: seq<AudioBuffer>, x: Fate): seq<AudioBuffer>
    requires |f| == |bs|
  {
    if f == [] then []
    else if f[0] == x then [bs[0]] + With(f[1..], bs[1..], x)
    else With(f[1..], bs[1..], x)
  }

  lemma {:induction false} WithConcat(f: seq<Fate>, bs: seq<AudioBuffer>, g: seq<Fate>, cs: seq<AudioBuffer>, x: Fate)
    requires |f| == |bs| && |g| == |cs|
    ensures With(f + g, bs + cs, x) == With(f, bs, x) + With(g, cs, x)
  {
    if f == [] {
      assert f + g == g && bs + cs == cs;
    } else {
      assert (f + g)[1..] == f[1..] + g && (bs + cs)[1..] == bs[1..] + cs;
      WithConcat(f[1..], bs[1..], g, cs, x);
    }
  }

  lemma {:induction false} WithSettled(f: seq<Fate>, bs: seq<AudioBuffer>)
    requires |f| == |bs|
    ensures With(Settled(f, Lost), bs, Waiting) == []
    ensures With(Settled(f, Lost), bs, Sent) == With(f, bs, Sent)
  {
    if f != [] {
      assert Settled(f, Lost)[1..] == Settled(f[1..], Lost);
      WithSettled(f[1..], bs[1..]);
    }
  }

  /** Removing takes the first waiting block, which comes after all those sent before it. */
  lemma {:induction false} WithSettledFirst(f: seq<Fate>, bs: seq<AudioBuffer>)
    requires |f| == |bs| && WaitingLast(f) && With(f, bs, Waiting) != []
    ensures |SettledFirst(f)| == |f| && WaitingLast(SettledFirst(f))
    ensures With(SettledFirst(f), bs, Waiting) == With(f, bs, Waiting)[1..]
    ensures With(SettledFirst(f), bs, Sent) == With(f, bs, Sent) + [With(f, bs, Waiting)[0]]
  {
    var g := SettledFirst(f);
    if f[0] == Waiting {
      AllWaiting(f, bs);
      assert g[1..] == f[1..];
    } else {
      WithSettledFirst(f[1..], bs[1..]);
      assert g[1..] == SettledFirst(f[1..]);
      WaitingLastTail(f, g);
    }
  }

  /** Blocks still waiting were captured after all those that have left. */
  predicate WaitingLast(f: seq<Fate>) {
    forall i, j :: 0 <= i < j < |f| && f[i] == Waiting ==> f[j] == Waiting
  }

  lemma {:induction false} WaitingLastTail(f: seq<Fate>, g: seq<Fate>)
    requires f != [] && |g| == |f| && f[0] != Waiting && g[0] == f[0] && WaitingLast(g[1..])
    ensures WaitingLast(g)
  {
    forall i, j | 0 <= i < j < |g| && g[i] == Waiting
      ensures g[j] == Waiting
    {
      assert g[i] == g[1..][i - 1] && g[j] == g[1..][j - 1];
    }
  }

  lemma {:induction false} AllWaiting(f: seq<Fate>, bs: seq<AudioBuffer>)
    requires |f| == |bs| && (forall i :: 0 <= i < |f| ==> f[i] == Waiting)
    ensures With(f, bs, Waiting) == bs && With(f, bs, Sent) == []
  {
    if f != [] {
      AllWaiting(f[1..], bs[1..]);
    }
  }

  /** In every interleaving: the queue is exactly the blocks still waiting; the block in hand is
      the front of the queue, so the one removed is the one just published; and the published
      blocks are those sent, plus the one in hand once it is out, each once and in capture order. */
  lemma {:induction false} EveryBlockIsAccountedFor(max: nat, es: seq<Step>)
    requires Runs(max, es)
    ensures |Fates(max, es)| == |Captured(es)| && WaitingLast(Fates(max, es))
    ensures var s, f, bs := After(max, es), Fates(max, es), Captured(es);
      && s.queue == With(f, bs, Waiting)
      && (s.consumer != Outside ==> s.queue != [] && s.consumer.block == s.queue[0])
      && s.published == With(f, bs, Sent) + (if s.consumer.Published? then [s.queue[0]] else [])
    decreases |es|
  {
    if es != [] {
      var before, e := es[..|es| - 1], es[|es| - 1];
      EveryBlockIsAccountedFor(max, before);
      var f, bs := Fates(max, before), Captured(before);
      match e {
        case Capture(b) =>
          WithConcat(f, bs, [Waiting], [b], Waiting);
          WithConcat(f, bs, [Waiting], [b], Sent);
        case Take =>
          WithSettled(f, bs);
        case Publish =>
          assert With(f, bs, Sent) + [] == With(f, bs, Sent);
        case Remove =>
          WithSettledFirst(f, bs);
      }
    }
  }

  /** A block is lost only by the loop finding the queue at its maximum: as many blocks as that
      step finds waiting, at least max of them, and no other step loses any. */
  lemma {:induction false} LossNeedsAFullQueue(max: nat, es: seq<Step>, k: nat)
    requires Runs(max, es) && es != [] && k < |Captured(es[..|es| - 1])|
    ensures |Fates(max, es[..|es| - 1])| == |Captured(es[..|es| - 1])| <= |Fates(max, es)|
    ensures Fates(max, es)[k] == Lost && Fates(max, es[..|es| - 1])[k] != Lost
       ==> es[|es| - 1] == Take && |After(max, es[..|es| - 1]).queue| >= max
    ensures Fates(max, es[..|es| - 1])[k] != Waiting ==> Fates(max, es)[k] == Fates(max, es[..|es| - 1])[k]
  {
    EveryBlockIsAccountedFor(max, es[..|es| - 1]);
    EveryBlockIsAccountedFor(max, es);
    SettledFirstKeepsFates(Fates(max, es[..|es| - 1]), k);
  }

  lemma {:induction false} SettledFirstKeepsFates(f: seq<Fate>, k: nat)
    requires k < |f|
    ensures |SettledFirst(f)| == |f|
    ensures f[k] != Waiting ==> SettledFirst(f)[k] == f[k]
    ensures SettledFirst(f)[k] == Lost ==> f[k] == Lost
  {
    if f[0] != Waiting && k > 0 {
      SettledFirstKeepsFates(f[1..], k - 1);
    } else if |f| > 1 {
      SettledFirstKeepsFates(f[1..], 0);
    }
  }

  /** No round of the loop finds the queue at its maximum. */
  ghost predicate NeverFull(max: nat, es: seq<Step>)
    requires Runs(max, es)
    decreases |es|
  {
    es == [] || (
      var before := es[..|es| - 1];
      NeverFull(max, before) && (es[|es| - 1] == Take ==> |After(max, before).queue| < max))
  }

  lemma {:induction false} NothingIsLost(max: nat, es: seq<Step>)
    requires Runs(max, es) && NeverFull(max, es)
    ensures Lost !in Fates(max, es)
    decreases |es|
  {
    if es != [] {
      NothingIsLost(max, es[..|es| - 1]);
      LostWasLost(Fates(max, es[..|es| - 1]));
    }
  }

  lemma {:induction false} LostWasLost(f: seq<Fate>)
    ensures Lost in SettledFirst(f) ==> Lost in f
  {
    if f != [] && f[0] != Waiting {
      LostWasLost(f[1..]);
      assert f == [f[0]] + f[1..];
    }
  }

  lemma {:induction false} SentThenWaiting(f: seq<Fate>, bs: seq<AudioBuffer>)
    requires |f| == |bs| && WaitingLast(f) && Lost !in f
    ensures With(f, bs, Sent) + With(f, bs, Waiting) == bs
  {
    if f != [] {
      if f[0] == Waiting {
        AllWaiting(f, bs);
      } else {
        assert f[0] in f && forall x <- f[1..] :: x in f;
        SentThenWaiting(f[1..], bs[1..]);
        assert bs == [bs[0]] + bs[1..];
      }
    }
  }

  /** If no round finds the queue at its maximum, nothing is lost: the published blocks and then
      the queue, a front that is already out not counted twice, are all captured blocks in order. */
  lemma {:induction false} NeverFullLosesNothing(max: nat, es: seq<Step>)
    requires Runs(max, es) && NeverFull(max, es)
    ensures var s := After(max, es);
      && (s.consumer.Published? ==> s.queue != [])
      && s.published + (if s.consumer.Published? then s.queue[1..] else s.queue) == Captured(es)
  {
    hide Fates, After, With, WaitingLast, Captured, NeverFull;
    EveryBlockIsAccountedFor(max, es);
    NothingIsLost(max, es);
    SentThenWaiting(Fates(max, es), Captured(es));
    var s := After(max, es);
    if s.consumer.Published? {
      assert s.queue == [s.queue[0]] + s.queue[1..];
    }
  }

  /** In every interleaving the callback can capture at any time; and the loop waits exactly while
      nothing is queued, and otherwise can take one step: the next one of its round. */
  lemma {:induction false} LoopWaitsIffNothingIsQueued(max: nat, es: seq<Step>, e: Step)
    requires Runs(max, es)
    ensures var s := After(max, es);
      var next := if s.consumer == Outside then Take else if s.consumer.Holding? then Publish else Remove;
      Enabled(s, e) <==> e.Capture? || (s.queue != [] && e == next)
  {
    hide Fates, After, With, WaitingLast, Captured;
    EveryBlockIsAccountedFor(max, es);
  }
}
