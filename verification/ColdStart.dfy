/** The detector from its first block: null placeholders, the marker grammar, packet numbering. */
module ColdStart {
  import opened Common
  import opened Audio
  import opened Detector
  import opened Segmentation
  import opened DetectorTheorems

  // ---------------------------------------------------------------------------------------
  // Null placeholders
  // ---------------------------------------------------------------------------------------

  function ResizeAll(r: Ring, sizes: seq<nat>): Ring
    decreases |sizes|
  {
    if sizes == [] then r else ResizeAll(r.Resize(sizes[0]), sizes[1..])
  }

  function MaxOf(sizes: seq<nat>, least: nat): nat {
    if sizes == [] then least else MaxOf(sizes[1..], Max(least, sizes[0]))
  }

  /** However often the ring is resized before the first block, it holds placeholders only: as
      many as the last size, in a ring as large as the largest one. */
  lemma {:induction false} ResizesBeforeFirstBlock(c: nat, m: nat, sizes: seq<nat>)
    requires m <= c
    ensures ResizeAll(Ring(c, Nulls(m)), sizes)
         == Ring(MaxOf(sizes, c), Nulls(if sizes == [] then m else sizes[|sizes| - 1]))
    decreases |sizes|
  {
    if sizes != [] {
      assert Ring(c, Nulls(m)).Resize(sizes[0]) == Ring(Max(c, sizes[0]), Nulls(sizes[0]));
      ResizesBeforeFirstBlock(Max(c, sizes[0]), sizes[0], sizes[1..]);
    }
  }

  /** The placeholders left of m in a ring of capacity c after p pushes. */
  function Left(c: nat, m: nat, p: nat): nat {
    Min(m, Max(0, c - p))
  }

  /** The ring after the blocks of pool were pushed onto m placeholders, with no drain. */
  ghost predicate ColdRing(r: Ring, c: nat, m: nat, pool: seq<AudioBuffer>) {
    && 1 <= c && m <= c && r.capacity == c
    && r.items == Nulls(Left(c, m, |pool|)) + pool[Max(0, |pool| - c)..]
  }

  /** Placeholders are always a prefix of the ring; each push removes one once the ring is full. */
  lemma {:induction false} PlaceholdersAreAPrefix(r: Ring, c: nat, m: nat, pool: seq<AudioBuffer>, b: AudioBuffer)
    requires ColdRing(r, c, m, pool)
    ensures r.Valid() && ColdRing(r.Push(b), c, m, pool + [b])
  {
    hide Nulls, Left;
    LeftStep(c, m, |pool|);
    if |pool| < c {
      PushWhileCold(r, c, m, pool, b);
    } else {
      PushWhenFull(r, c, m, pool, b);
    }
  }

  lemma {:induction false} PushWhileCold(r: Ring, c: nat, m: nat, pool: seq<AudioBuffer>, b: AudioBuffer)
    requires ColdRing(r, c, m, pool) && |pool| < c
    ensures r.Valid() && ColdRing(r.Push(b), c, m, pool + [b])
  {
    hide Nulls, Left;
    LeftStep(c, m, |pool|);
    var p, k := pool + [b], Left(c, m, |pool|);
    NullsLength(k);
    assert pool[Max(0, |pool| - c)..] == pool && p[Max(0, |p| - c)..] == p;
    assert r.items == Nulls(k) + pool;
    PushBehindNulls(k, pool, b);
  }

  lemma {:induction false} PushWhenFull(r: Ring, c: nat, m: nat, pool: seq<AudioBuffer>, b: AudioBuffer)
    requires ColdRing(r, c, m, pool) && |pool| >= c
    ensures r.Valid() && ColdRing(r.Push(b), c, m, pool + [b])
  {
    hide Nulls, Left;
    LeftStep(c, m, |pool|);
    PushOnFull(c, pool, b);
    assert r.items == pool[|pool| - c..];
  }

  lemma {:induction false} NullsLength(k: nat)
    ensures |Nulls(k)| == k
  {
  }

  lemma {:induction false} LeftStep(c: nat, m: nat, n: nat)
    requires m <= c
    ensures Left(c, m, n) + Min(n, c) <= c
    ensures n >= c ==> Left(c, m, n) == 0
    ensures Left(c, m, n + 1)
         == if n < c && Left(c, m, n) + n == c then Left(c, m, n) - 1 else Left(c, m, n)
  {
  }

  lemma {:induction false} PushBehindNulls(k: nat, pool: seq<AudioBuffer>, b: AudioBuffer)
    ensures Nulls(k) + pool + [b] == Nulls(k) + (pool + [b])
    ensures k > 0 ==> (Nulls(k) + pool)[1..] + [b] == Nulls(k - 1) + (pool + [b])
  {
  }

  lemma {:induction false} PushOnFull(c: nat, pool: seq<AudioBuffer>, b: AudioBuffer)
    requires 1 <= c <= |pool|
    ensures Nulls(0) + pool[|pool| - c..] == pool[|pool| - c..]
    ensures pool[|pool| - c..][1..] + [b] == Nulls(0) + (pool + [b])[|pool| + 1 - c..]
  {
  }

  /** A trigger publishes nothing exactly while placeholders are left; otherwise it publishes the
      last blocks pushed since the previous drain, as many as the ring can hold. */
  lemma {:induction false} StartIsMissingIffEarly(cfg: Config, s: State, c: nat, m: nat, pool: seq<AudioBuffer>,
                                                  b: AudioBuffer)
    requires !cfg.continuous && !s.inPacket && b.Buffer? && HasLoud(cfg, b)
    requires ColdRing(s.ring, c, m, pool) && AllReal(pool)
    ensures s.ring.Valid()
    ensures var (t, o) := Step(cfg, s, b); var p := pool + [b];
      && t.inPacket && t.packetId == s.nextId && t.nextId == s.nextId + 1
      && (o == [] <==> m > 0 && |p| < c)
      && (o == [] ==> ColdRing(t.ring, c, m, p))
      && (o != [] ==> ColdRing(t.ring, c, 0, []) && o == Drained(p[Max(0, |p| - c)..], s.nextId))
  {
    hide HasLoud, ColdRing;
    PlaceholdersAreAPrefix(s.ring, c, m, pool, b);
    var p := pool + [b];
    assert AllReal(p);
    ColdIsValid(s.ring, c, m, pool);
    FrontIsNullIff(s.ring.Push(b), c, m, p);
    DrainedIsCold(c);
  }

  lemma {:induction false} ColdIsValid(r: Ring, c: nat, m: nat, pool: seq<AudioBuffer>)
    requires ColdRing(r, c, m, pool)
    ensures r.Valid() && r.capacity == c
  {
  }

  lemma {:induction false} FrontIsNullIff(r: Ring, c: nat, m: nat, pool: seq<AudioBuffer>)
    requires ColdRing(r, c, m, pool) && pool != [] && AllReal(pool)
    ensures r.items != [] && (r.items[0].Null? <==> m > 0 && |pool| < c)
    ensures !(m > 0 && |pool| < c) ==> r.items == pool[Max(0, |pool| - c)..]
  {
    var k, recent := Left(c, m, |pool|), pool[Max(0, |pool| - c)..];
    assert recent[0] in pool;
    if k > 0 {
      assert r.items[0] == Nulls(k)[0];
    } else {
      assert Nulls(0) + recent == recent;
    }
  }

  lemma {:induction false} DrainedIsCold(c: nat)
    requires c >= 1
    ensures ColdRing(Ring(c, []), c, 0, [])
  {
    assert [] == Nulls(Left(c, 0, 0)) + [];
  }

  /** A null block is published exactly when a trigger finds a placeholder behind a real front. */
  lemma {:induction false} NullIsPublishedIff(cfg: Config, s: State, b: AudioBuffer)
    requires !cfg.continuous && s.ring.Valid() && b.Buffer?
    ensures (exists t :: t in Step(cfg, s, b).1 && t.buffer.Null?)
       <==> !s.inPacket && HasLoud(cfg, b) && s.ring.Push(b).items[0].Buffer? && Null in s.ring.Push(b).items
  {
    var (_, o) := Step(cfg, s, b);
    var items := s.ring.Push(b).items;
    if !s.inPacket && HasLoud(cfg, b) && items[0].Buffer? {
      if Null in items {
        var k :| 0 <= k < |items| && items[k] == Null;
        assert o[k].buffer == Null;
      }
      if t :| t in o && t.buffer.Null? {
        var k :| 0 <= k < |o| && o[k] == t;
        assert items[k] == Null;
      }
    }
  }

  /** Growing the ring after blocks have arrived makes this happen. */
  lemma {:induction false} ResizeAfterBlocksPublishesNull(b: AudioBuffer, id: int)
    requires b.Buffer? && b.samples == [1.0]
    ensures var cfg := Config(0.1, 2.0, false);
      var s := State(false, -1, 0.0, 0, Ring(2, [b, b]).Resize(3), id);
      Tagged(Null, NONE, id) in Step(cfg, s, b).1
  {
    var cfg := Config(0.1, 2.0, false);
    assert Loud(cfg, b.Data()[0]);
    var r := Ring(2, [b, b]).Resize(3);
    assert r.items == [b, b, Null];
    assert r.Push(b).items == [b, Null, b];
    assert Drained(r.Push(b).items, id)[1] == Tagged(Null, NONE, id);
  }

  // ---------------------------------------------------------------------------------------
  // The marker grammar: (START NONE* MIDDLE* END)*, numbered consecutively
  // ---------------------------------------------------------------------------------------

  datatype Phase = Between(next: int) | Pre(id: int) | Mid(id: int) | Rejected

  /** A strict reader insists on the START; a lax one also takes a packet that lacks it. */
  function Read(ph: Phase, t: Tagged, strict: bool): Phase {
    match ph
    case Between(n) =>
      if t.packetId != n then Rejected
      else if t.marker == START then Pre(n)
      else if strict then Rejected
      else if t.marker == MIDDLE then Mid(n)
      else if t.marker == END then Between(n + 1)
      else Rejected
    case Pre(n) =>
      if t.packetId != n then Rejected
      else if t.marker == NONE then Pre(n)
      else if t.marker == MIDDLE then Mid(n)
      else if t.marker == END then Between(n + 1)
      else Rejected
    case Mid(n) =>
      if t.packetId != n then Rejected
      else if t.marker == MIDDLE then Mid(n)
      else if t.marker == END then Between(n + 1)
      else Rejected
    case Rejected => Rejected
  }

  function ReadAll(ph: Phase, ts: seq<Tagged>, strict: bool): Phase
    decreases |ts|
  {
    if ts == [] then ph else ReadAll(Read(ph, ts[0], strict), ts[1..], strict)
  }

  lemma {:induction false} ReadAllConcat(ph: Phase, a: seq<Tagged>, b: seq<Tagged>, strict: bool)
    ensures ReadAll(ph, a + b, strict) == ReadAll(ReadAll(ph, a, strict), b, strict)
    decreases |a|
  {
    if a == [] {
      assert a + b == b;
    } else {
      assert (a + b)[1..] == a[1..] + b;
      ReadAllConcat(Read(ph, a[0], strict), a[1..], b, strict);
    }
  }

  lemma {:induction false} ReadPreTrigger(bs: seq<AudioBuffer>, id: int, strict: bool)
    ensures ReadAll(Pre(id), TagAll(bs, NONE, id), strict) == Pre(id)
    decreases |bs|
  {
    if bs != [] {
      assert TagAll(bs, NONE, id)[1..] == TagAll(bs[1..], NONE, id);
      ReadPreTrigger(bs[1..], id, strict);
    }
  }

  /** The reader's phase matches the detector's state. */
  predicate Agree(s: State, ph: Phase, strict: bool) {
    if s.inPacket then
      && s.nextId == s.packetId + 1
      && (ph == Pre(s.packetId) || ph == Mid(s.packetId) || (!strict && ph == Between(s.packetId)))
    else ph == Between(s.nextId)
  }

  ghost predicate NoNulls(ts: seq<Tagged>) {
    forall t :: t in ts ==> t.buffer.Buffer?
  }

  /** The reader may be strict from a state in which no placeholder survives the next push. */
  predicate MayBeStrict(s: State, c: nat, m: nat, pool: nat) {
    m == 0 || pool + 1 >= c
  }

  lemma {:induction false} TraceIsGrammatical(cfg: Config, s: State, ins: seq<AudioBuffer>, c: nat, m: nat,
                                              pool: seq<AudioBuffer>, ph: Phase, strict: bool)
    requires !cfg.continuous && AllReal(ins) && AllReal(pool)
    requires s.ring.Valid() && ColdRing(s.ring, c, m, pool)
    requires Agree(s, ph, strict) && (strict ==> MayBeStrict(s, c, m, |pool|))
    ensures Agree(Run(cfg, s, ins).0, ReadAll(ph, Run(cfg, s, ins).1, strict), strict)
    ensures NoNulls(Run(cfg, s, ins).1)
    decreases |ins|
  {
    if ins != [] {
      var t, m', pool', ph' := OneBlockIsGrammatical(cfg, s, ins[0], c, m, pool, ph, strict);
      assert ins[0] in ins;
      TraceIsGrammatical(cfg, t, ins[1..], c, m', pool', ph', strict);
      RunSplits(cfg, s, ins);
      ReadAllConcat(ph, Step(cfg, s, ins[0]).1, Run(cfg, t, ins[1..]).1, strict);
    }
  }

  lemma {:induction false} RunSplits(cfg: Config, s: State, ins: seq<AudioBuffer>)
    requires s.ring.Valid() && ins != []
    ensures Run(cfg, s, ins).0 == Run(cfg, Step(cfg, s, ins[0]).0, ins[1..]).0
    ensures Run(cfg, s, ins).1 == Step(cfg, s, ins[0]).1 + Run(cfg, Step(cfg, s, ins[0]).0, ins[1..]).1
  {
  }

  lemma {:induction false} OneBlockIsGrammatical(cfg: Config, s: State, b: AudioBuffer, c: nat, m: nat,
                              pool: seq<AudioBuffer>, ph: Phase, strict: bool)
    returns (t: State, m': nat, pool': seq<AudioBuffer>, ph': Phase)
    requires !cfg.continuous && b.Buffer? && AllReal(pool)
    requires s.ring.Valid() && ColdRing(s.ring, c, m, pool)
    requires Agree(s, ph, strict) && (strict ==> MayBeStrict(s, c, m, |pool|))
    ensures t == Step(cfg, s, b).0 && t.ring.Valid()
    ensures ph' == ReadAll(ph, Step(cfg, s, b).1, strict)
    ensures AllReal(pool') && ColdRing(t.ring, c, m', pool')
    ensures Agree(t, ph', strict) && (strict ==> MayBeStrict(t, c, m', |pool'|))
    ensures NoNulls(Step(cfg, s, b).1)
  {
    hide Step, HasLoud, ColdRing, ReadAll;
    t, m', pool' := Step(cfg, s, b).0, m, pool;
    ph' := ReadAll(ph, Step(cfg, s, b).1, strict);
    if s.inPacket {
      InPacketBlockIsRead(cfg, s, b, ph, strict);
    } else if HasLoud(cfg, b) {
      m', pool' := TriggerIsGrammatical(cfg, s, b, c, m, pool, ph, strict);
    } else {
      pool' := pool + [b];
      QuietBlockIsSilent(cfg, s, b, c, m, pool, ph, strict);
    }
  }

  lemma {:induction false} QuietBlockIsSilent(cfg: Config, s: State, b: AudioBuffer, c: nat, m: nat,
                                              pool: seq<AudioBuffer>, ph: Phase, strict: bool)
    requires !cfg.continuous && !s.inPacket && !HasLoud(cfg, b) && s.ring.Valid() && ColdRing(s.ring, c, m, pool)
    ensures var (t, o) := Step(cfg, s, b);
      && o == [] && t == s.(ring := s.ring.Push(b)) && t.ring.Valid() && ColdRing(t.ring, c, m, pool + [b])
      && ReadAll(ph, o, strict) == ph
  {
    hide HasLoud, ColdRing;
    PlaceholdersAreAPrefix(s.ring, c, m, pool, b);
  }

  lemma {:induction false} TriggerIsGrammatical(cfg: Config, s: State, b: AudioBuffer, c: nat, m: nat,
                              pool: seq<AudioBuffer>, ph: Phase, strict: bool)
    returns (m': nat, pool': seq<AudioBuffer>)
    requires !cfg.continuous && b.Buffer? && AllReal(pool) && !s.inPacket && HasLoud(cfg, b)
    requires s.ring.Valid() && ColdRing(s.ring, c, m, pool)
    requires Agree(s, ph, strict) && (strict ==> MayBeStrict(s, c, m, |pool|))
    ensures var (t, o) := Step(cfg, s, b);
      && t.ring.Valid() && ColdRing(t.ring, c, m', pool') && AllReal(pool') && NoNulls(o)
      && Agree(t, ReadAll(ph, o, strict), strict) && (strict ==> MayBeStrict(t, c, m', |pool'|))
  {
    hide Step, HasLoud, ReadAll;
    StartIsMissingIffEarly(cfg, s, c, m, pool, b);
    m', pool' := m, pool + [b];
    if Step(cfg, s, b).1 != [] {
      ReadDrained(pool'[Max(0, |pool'| - c)..], s.nextId, strict);
      m', pool' := 0, [];
    } else {
      assert ReadAll(ph, [], strict) == ph by { ReadNothing(ph, strict); }
    }
  }

  lemma {:induction false} ReadNothing(ph: Phase, strict: bool)
    ensures ReadAll(ph, [], strict) == ph
  {
  }

  lemma {:induction false} ReadDrained(items: seq<AudioBuffer>, id: int, strict: bool)
    requires items != []
    ensures ReadAll(Between(id), Drained(items, id), strict) == Pre(id)
    ensures AllReal(items) ==> NoNulls(Drained(items, id))
  {
    assert Drained(items, id)[1..] == TagAll(items[1..], NONE, id);
    ReadPreTrigger(items[1..], id, strict);
  }

  lemma {:induction false} InPacketBlockIsRead(cfg: Config, s: State, b: AudioBuffer, ph: Phase, strict: bool)
    requires !cfg.continuous && b.Buffer? && s.ring.Valid() && s.inPacket && Agree(s, ph, strict)
    ensures var (t, o) := Step(cfg, s, b);
      t.ring == s.ring && Agree(t, ReadAll(ph, o, strict), strict) && NoNulls(o)
  {
    var o := Step(cfg, s, b).1;
    assert o[1..] == [];
    assert ReadAll(ph, o, strict) == Read(ph, o[0], strict);
  }

  /** From the first block on, with the ring sized before it: no null block is published, packets
      are numbered 0, 1, 2, ..., and only a START and the part before the trigger may be missing,
      which takes a ring larger than one block. */
  lemma {:induction false} DetectorFromTheStart(cfg: Config, sizes: seq<nat>, ins: seq<AudioBuffer>)
    requires !cfg.continuous && AllReal(ins) && (forall n :: n in sizes ==> 1 <= n)
    ensures var ring := ResizeAll(Ring(1, []), sizes);
      ring.Valid() &&
      var out := Run(cfg, State(false, -1, 0.0, 0, ring, 0), ins).1;
      && NoNulls(out)
      && ReadAll(Between(0), out, false) != Rejected
      && (ring.capacity == 1 ==> ReadAll(Between(0), out, true) != Rejected)
  {
    var c, m := ColdRingOf(sizes);
    var s := State(false, -1, 0.0, 0, ResizeAll(Ring(1, []), sizes), 0);
    TraceIsGrammatical(cfg, s, ins, c, m, [], Between(0), false);
    if c == 1 {
      TraceIsGrammatical(cfg, s, ins, c, m, [], Between(0), true);
    }
  }

  // ---------------------------------------------------------------------------------------
  // Which packets lack their START
  // ---------------------------------------------------------------------------------------

  /** The blocks pushed into the ring before block i: those that arrive while idle. */
  function PushesBefore(cfg: Config, s: State, ins: seq<AudioBuffer>, i: nat): nat
    requires s.ring.Valid() && i <= |ins|
    decreases i
  {
    if i == 0 then 0
    else (if s.inPacket then 0 else 1) + PushesBefore(cfg, Step(cfg, s, ins[0]).0, ins[1..], i - 1)
  }

  lemma {:induction false} InPacketKeepsRing(cfg: Config, s: State, b: AudioBuffer)
    requires s.ring.Valid() && s.inPacket
    ensures Step(cfg, s, b).0.ring == s.ring
  {
  }

  lemma {:induction false} StepKeepsValid(cfg: Config, s: State, b: AudioBuffer)
    requires s.ring.Valid()
    ensures Step(cfg, s, b).0.ring.Valid()
  {
  }

  /** One block: the ring loses its placeholders for good only once it has been pushed full. */
  lemma {:induction false} RingStep(cfg: Config, s: State, b: AudioBuffer, c: nat, m: nat, pool: seq<AudioBuffer>)
    returns (m': nat, pool': seq<AudioBuffer>)
    requires !cfg.continuous && b.Buffer? && AllReal(pool) && s.ring.Valid() && ColdRing(s.ring, c, m, pool)
    ensures var t := Step(cfg, s, b).0; var p := |pool| + if s.inPacket then 0 else 1;
      && t.ring.Valid() && ColdRing(t.ring, c, m', pool') && AllReal(pool')
      && ((m' == m && |pool'| == p) || (m' == 0 && (m == 0 || p >= c)))
  {
    hide Step, HasLoud, ColdRing;
    StepKeepsValid(cfg, s, b);
    if s.inPacket {
      m', pool' := m, pool;
      InPacketKeepsRing(cfg, s, b);
    } else if HasLoud(cfg, b) {
      StartIsMissingIffEarly(cfg, s, c, m, pool, b);
      m', pool' := if Step(cfg, s, b).1 == [] then m else 0, if Step(cfg, s, b).1 == [] then pool + [b] else [];
    } else {
      QuietBlockIsSilent(cfg, s, b, c, m, pool, Rejected, false);
      m', pool' := m, pool + [b];
    }
  }

  lemma {:induction false} RingAt(cfg: Config, s: State, ins: seq<AudioBuffer>, i: nat, c: nat, m: nat,
                                  pool: seq<AudioBuffer>)
    returns (m': nat, pool': seq<AudioBuffer>)
    requires !cfg.continuous && AllReal(ins) && AllReal(pool) && s.ring.Valid() && ColdRing(s.ring, c, m, pool)
      && i <= |ins|
    ensures ColdRing(Run(cfg, s, ins[..i]).0.ring, c, m', pool') && AllReal(pool')
    ensures var p := |pool| + PushesBefore(cfg, s, ins, i);
      (m' == m && |pool'| == p) || (m' == 0 && (m == 0 || p >= c))
    decreases i
  {
    hide Step, ColdRing;
    if i == 0 {
      m', pool' := m, pool;
    } else {
      assert ins[0] in ins;
      var m1, pool1 := RingStep(cfg, s, ins[0], c, m, pool);
      var t := Step(cfg, s, ins[0]).0;
      m', pool' := RingAt(cfg, t, ins[1..], i - 1, c, m1, pool1);
      assert ins[..i][0] == ins[0] && ins[..i][1..] == ins[1..][..i - 1];
      RunSplits(cfg, s, ins[..i]);
    }
  }

  lemma {:induction false} RunOneMore(cfg: Config, s: State, ins: seq<AudioBuffer>, i: nat)
    requires s.ring.Valid() && i < |ins|
    ensures var (u, o) := Run(cfg, s, ins[..i]);
      Run(cfg, s, ins[..i + 1]) == (Step(cfg, u, ins[i]).0, o + Step(cfg, u, ins[i]).1)
    decreases i
  {
    hide Step;
    if i == 0 {
      assert ins[..0] == [] && ins[..1] == [ins[0]] && [ins[0]][1..] == [];
      var o := Step(cfg, s, ins[0]).1;
      assert o + [] == [] + o;
    } else {
      var t := Step(cfg, s, ins[0]).0;
      StepKeepsValid(cfg, s, ins[0]);
      RunOneMore(cfg, t, ins[1..], i - 1);
      assert ins[..i][1..] == ins[1..][..i - 1] && ins[..i + 1][1..] == ins[1..][..i];
      RunSplits(cfg, s, ins[..i]);
      RunSplits(cfg, s, ins[..i + 1]);
      var u, o := Run(cfg, t, ins[1..][..i - 1]).0, Run(cfg, t, ins[1..][..i - 1]).1;
      ConcatAssoc(Step(cfg, s, ins[0]).1, o, Step(cfg, u, ins[i]).1);
    }
  }

  /** From the first block on: of the packet triggered by block i nothing is published at the
      trigger, neither START nor pre-trigger part, if and only if the trigger is pushed before the
      ring has been pushed full; otherwise its START goes out first. */
  lemma {:induction false} StartIsMissingFor(cfg: Config, sizes: seq<nat>, ins: seq<AudioBuffer>, i: nat)
    requires !cfg.continuous && AllReal(ins) && (forall n :: n in sizes ==> 1 <= n) && i < |ins|
    ensures var ring := ResizeAll(Ring(1, []), sizes);
      ring.Valid() &&
      var s := State(false, -1, 0.0, 0, ring, 0);
      var (u, o) := Run(cfg, s, ins[..i]);
      var o1 := Step(cfg, u, ins[i]).1;
      && Run(cfg, s, ins[..i + 1]).1 == o + o1
      && (!u.inPacket && HasLoud(cfg, ins[i]) ==>
           (o1 == [] <==> PushesBefore(cfg, s, ins, i) + 1 < ring.capacity)
           && (o1 != [] ==> o1[0].marker == START && o1[0].packetId == u.nextId))
  {
    hide Run, Step, HasLoud;
    var c, m := ColdRingOf(sizes);
    var s := State(false, -1, 0.0, 0, ResizeAll(Ring(1, []), sizes), 0);
    RunOneMore(cfg, s, ins, i);
    var m', pool := RingAt(cfg, s, ins, i, c, m, []);
    var u := Run(cfg, s, ins[..i]).0;
    assert ins[i] in ins;
    if !u.inPacket && HasLoud(cfg, ins[i]) {
      StartIsMissingIffEarly(cfg, u, c, m', pool, ins[i]);
    }
  }

  lemma {:induction false} ColdRingOf(sizes: seq<nat>) returns (c: nat, m: nat)
    requires forall n :: n in sizes ==> 1 <= n
    ensures var ring := ResizeAll(Ring(1, []), sizes);
      ring.Valid() && ring.capacity == c && ColdRing(ring, c, m, []) && (m == 0 ==> c == 1)
  {
    assert Ring(1, []) == Ring(1, Nulls(0));
    ResizesBeforeFirstBlock(1, 0, sizes);
    MaxOfIsAtLeast(sizes, 1);
    c, m := MaxOf(sizes, 1), if sizes == [] then 0 else sizes[|sizes| - 1];
    assert sizes != [] ==> m in sizes;
    assert Left(c, m, 0) == m && Nulls(m) + [] == Nulls(m);
  }

  lemma {:induction false} MaxOfIsAtLeast(sizes: seq<nat>, least: nat)
    ensures least <= MaxOf(sizes, least)
    ensures forall n :: n in sizes ==> n <= MaxOf(sizes, least)
    decreases |sizes|
  {
    if sizes != [] {
      assert sizes == [sizes[0]] + sizes[1..];
      MaxOfIsAtLeast(sizes[1..], Max(least, sizes[0]));
    }
  }

  // ---------------------------------------------------------------------------------------
  // The silence counter, over every run
  // ---------------------------------------------------------------------------------------

  /** Zero while idle, and short of the limit between blocks. */
  predicate CounterInRange(cfg: Config, s: State) {
    if s.inPacket then !Reached(cfg, s.quiet) else s.quiet == 0
  }

  lemma {:induction false} ScanStaysShort(cfg: Config, xs: seq<Sample>, quiet: nat)
    requires !Reached(cfg, quiet)
    ensures var r := ScanFrom(cfg, xs, quiet); r.Running? ==> !Reached(cfg, r.quiet)
    decreases |xs|
  {
    if xs != [] {
      var q := if Loud(cfg, xs[0]) then 0 else quiet + 1;
      if !Reached(cfg, q) {
        ScanStaysShort(cfg, xs[1..], q);
      }
    }
  }

  lemma {:induction false} CounterStaysInRange(cfg: Config, s: State, ins: seq<AudioBuffer>)
    requires s.ring.Valid() && CounterInRange(cfg, s) && cfg.endSilence > 0.0
    ensures CounterInRange(cfg, Run(cfg, s, ins).0)
    decreases |ins|
  {
    if ins != [] {
      if s.inPacket {
        ScanStaysShort(cfg, ins[0].Data(), s.quiet);
      }
      RunSplits(cfg, s, ins);
      CounterStaysInRange(cfg, Step(cfg, s, ins[0]).0, ins[1..]);
    }
  }
}
