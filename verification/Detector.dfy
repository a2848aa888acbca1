/** The packet detector: cuts a stream of audio blocks into tagged packets. */
module Detector {
  import opened Common
  import opened Audio

  /** endSilence is packet_end_silent_seconds times the sampling frequency. */
  datatype Config = Config(threshold: real, endSilence: real, continuous: bool)

  // ---------------------------------------------------------------------------------------
  // The pre-trigger ring (a boost::circular_buffer of shared pointers)
  // ---------------------------------------------------------------------------------------

  datatype Ring = Ring(capacity: nat, items: seq<AudioBuffer>) {
    ghost predicate Valid() {
      1 <= capacity && |items| <= capacity
    }

    /** A full ring overwrites its oldest element. */
    function Push(b: AudioBuffer): Ring
      requires Valid()
    {
      if |items| == capacity then this.(items := items[1..] + [b]) else this.(items := items + [b])
    }

    /** Changes the size, not just the capacity: growing appends null elements. */
    function Resize(n: nat): Ring {
      if n > |items| then
        Ring(if n > capacity then n else capacity, items + Nulls(n - |items|))
      else
        this.(items := items[..n])
    }
  }

  function Nulls(n: nat): seq<AudioBuffer> {
    seq(n, _ => Null)
  }

  // ---------------------------------------------------------------------------------------
  // One step of the detector, as a function of its state
  // ---------------------------------------------------------------------------------------

  /** The members of one DetectorThread; nextId is the static packet counter of its audio_in. */
  datatype State = State(inPacket: bool, packetId: int, startTime: real, quiet: nat, ring: Ring, nextId: int)

  predicate Loud(cfg: Config, x: Sample) {
    Abs(x) >= cfg.threshold
  }

  predicate HasLoud(cfg: Config, b: AudioBuffer) {
    exists i :: 0 <= i < |b.Data()| && Loud(cfg, b.Data()[i])
  }

  predicate Reached(cfg: Config, quiet: nat) {
    quiet as real >= cfg.endSilence
  }

  datatype Scan = Ended | Running(quiet: nat)

  function ScanFrom(cfg: Config, xs: seq<Sample>, quiet: nat): Scan {
    if xs == [] then Running(quiet)
    else
      var q := if Loud(cfg, xs[0]) then 0 else quiet + 1;
      if Reached(cfg, q) then Ended else ScanFrom(cfg, xs[1..], q)
  }

  /** What draining the ring publishes: its front as START, the rest with no marker. */
  function Drained(items: seq<AudioBuffer>, id: int): seq<Tagged>
    requires items != []
  {
    [Tagged(items[0], START, id)] + TagAll(items[1..], NONE, id)
  }

  function Step(cfg: Config, s: State, b: AudioBuffer): (State, seq<Tagged>)
    requires s.ring.Valid()
  {
    if !s.inPacket then
      var ring := s.ring.Push(b);
      if !HasLoud(cfg, b) then
        (s.(ring := ring), if cfg.continuous then [Tagged(b, NONE, s.packetId)] else [])
      else
        var t := State(true, s.nextId, if b.Buffer? then b.startTime else 0.0, s.quiet, ring, s.nextId + 1);
        if cfg.continuous then (t, [Tagged(b, START, s.nextId)])
        else if ring.items[0].Null? then (t, [])
        else (t.(ring := ring.(items := [])), Drained(ring.items, s.nextId))
    else
      match ScanFrom(cfg, b.Data(), s.quiet)
      case Ended =>
        (s.(inPacket := false, quiet := 0),
         [Tagged(b, END, s.packetId)] + if cfg.continuous then [Tagged(b, NONE, s.packetId)] else [])
      case Running(q) => (s.(quiet := q), [Tagged(b, MIDDLE, s.packetId)])
  }

  /** A run over consecutive captured blocks. */
  function Run(cfg: Config, s: State, ins: seq<AudioBuffer>): (r: (State, seq<Tagged>))
    requires s.ring.Valid()
    ensures r.0.ring.Valid()
    decreases |ins|
  {
    if ins == [] then (s, [])
    else
      var (s1, o1) := Step(cfg, s, ins[0]);
      var (s2, o2) := Run(cfg, s1, ins[1..]);
      (s2, o1 + o2)
  }

  // ---------------------------------------------------------------------------------------
  // The thread object
  // ---------------------------------------------------------------------------------------

  class DetectorThread {
    const cfg: Config
    var inPacket: bool
    var packetId: int
    var startTime: real
    var framesSinceSilence: nat
    var prebuffer: Ring
    var nextPacketId: int
    var published: seq<Tagged>

    ghost predicate Valid() reads this {
      prebuffer.Valid()
    }

    ghost function Value(): State reads this {
      State(inPacket, packetId, startTime, framesSinceSilence, prebuffer, nextPacketId)
    }

    constructor (cfg: Config)
      ensures Valid() && this.cfg == cfg && published == []
      ensures Value() == State(false, -1, 0.0, 0, Ring(1, []), 0)
    {
      this.cfg := cfg;
      inPacket, packetId, startTime, framesSinceSilence := false, -1, 0.0, 0;
      prebuffer, nextPacketId, published := Ring(1, []), 0, [];
    }

    /** The buffer_size_change callback; blocks is samplingFreq * prebufferSeconds / bufferSize. */
    method BufferSizeChange(blocks: real)
      requires Valid() && blocks >= 0.0
      modifies this`prebuffer
      ensures Valid()
      ensures prebuffer == old(prebuffer).Resize(if blocks >= 1.0 then blocks.Floor else 1)
    {
      var n := blocks.Floor;
      prebuffer := prebuffer.Resize(if n > 0 then n else 1);
    }

    method AudioIn(buffer: AudioBuffer)
      requires Valid() && buffer.Buffer?
      modifies this
      ensures Valid()
      ensures Value() == Step(cfg, old(Value()), buffer).0
      ensures published == old(published) + Step(cfg, old(Value()), buffer).1
    {
      if !inPacket {
        prebuffer := prebuffer.Push(buffer);
        var i := 0;
        while i < |buffer.samples| && !Loud(cfg, buffer.samples[i])
          invariant 0 <= i <= |buffer.samples|
          invariant forall k :: 0 <= k < i ==> !Loud(cfg, buffer.samples[k])
        {
          i := i + 1;
        }
        if i < |buffer.samples| {
          assert Loud(cfg, buffer.Data()[i]);
          inPacket, packetId, startTime := true, nextPacketId, buffer.startTime;
          nextPacketId := nextPacketId + 1;
          if cfg.continuous {
            published := published + [Tagged(buffer, START, packetId)];
          } else if prebuffer.items[0].Buffer? {
            DrainPrebuffer();
          }
        } else if cfg.continuous {
          published := published + [Tagged(buffer, NONE, packetId)];
        }
      } else {
        ScanInPacket(buffer);
      }
    }

    method DrainPrebuffer()
      requires Valid() && prebuffer.items != []
      modifies this`prebuffer, this`published
      ensures prebuffer == old(prebuffer).(items := [])
      ensures published == old(published) + Drained(old(prebuffer).items, packetId)
    {
      ghost var items := prebuffer.items;
      published := published + [Tagged(prebuffer.items[0], START, packetId)];
      prebuffer := prebuffer.(items := prebuffer.items[1..]);
      ghost var k := 1;
      while prebuffer.items != []
        invariant 1 <= k <= |items| && prebuffer == old(prebuffer).(items := items[k..])
        invariant published == old(published) + Drained(items, packetId)[..k]
        decreases |prebuffer.items|
      {
        published := published + [Tagged(prebuffer.items[0], NONE, packetId)];
        prebuffer := prebuffer.(items := prebuffer.items[1..]);
        k := k + 1;
      }
    }

    method ScanInPacket(buffer: AudioBuffer)
      requires Valid() && inPacket && buffer.Buffer?
      modifies this`inPacket, this`framesSinceSilence, this`published
      ensures Valid()
      ensures Value() == Step(cfg, old(Value()), buffer).0
      ensures published == old(published) + Step(cfg, old(Value()), buffer).1
    {
      ghost var whole := ScanFrom(cfg, buffer.samples, framesSinceSilence);
      var i := 0;
      while i < |buffer.samples| && inPacket
        invariant 0 <= i <= |buffer.samples|
        invariant inPacket ==> published == old(published)
        invariant inPacket ==> whole == ScanFrom(cfg, buffer.samples[i..], framesSinceSilence)
        invariant !inPacket ==> whole == Ended && framesSinceSilence == 0
        invariant !inPacket ==> published == old(published) + [Tagged(buffer, END, packetId)]
        decreases |buffer.samples| - i
      {
        if Loud(cfg, buffer.samples[i]) {
          framesSinceSilence := 0;
        } else {
          framesSinceSilence := framesSinceSilence + 1;
        }
        if Reached(cfg, framesSinceSilence) {
          inPacket, framesSinceSilence := false, 0;
          published := published + [Tagged(buffer, END, packetId)];
        }
        i := i + 1;
      }
      if inPacket {
        published := published + [Tagged(buffer, MIDDLE, packetId)];
      } else if cfg.continuous {
        published := published + [Tagged(buffer, NONE, packetId)];
      }
    }
  }
}
