/** The pre-trigger ring when it is resized between blocks: which triggers still publish a
    contiguous run of the input. */
module RingResizes {
  import opened Audio
  import opened Detector
  import opened DetectorTheorems

  datatype RingEvent = PushOf(b: AudioBuffer) | ResizeTo(n: nat)

  /** The ring, all blocks pushed into it, and its contents right after the last push. The recent
      blocks are those pushed since a resize last left its mark on the contents; mixed says that
      something older is still in the ring. */
  datatype Watch = Watch(ring: Ring, pool: seq<AudioBuffer>, mark: seq<AudioBuffer>, recent: nat, mixed: bool)

  function Drain(capacity: nat): Watch {
    Watch(Ring(capacity, []), [], [], 0, false)
  }

  function Observe(w: Watch, e: RingEvent): Watch
    requires w.ring.Valid()
  {
    match e
    case ResizeTo(n) => w.(ring := w.ring.Resize(n))
    case PushOf(b) =>
      var ring := w.ring.Push(b);
      var disturbed := w.ring.items != w.mark;
      var recent := if disturbed then 1 else w.recent + 1;
      Watch(ring, w.pool + [b], ring.items, recent, (w.mixed || disturbed) && recent < ring.capacity)
  }

  /** The contents are the last blocks pushed, without a gap. */
  predicate Contiguous(items: seq<AudioBuffer>, pool: seq<AudioBuffer>) {
    |items| <= |pool| && items == pool[|pool| - |items|..]
  }

  // ---------------------------------------------------------------------------------------
  // What stays true
  // ---------------------------------------------------------------------------------------

  ghost predicate DistinctIn(items: seq<AudioBuffer>, pool: seq<AudioBuffer>) {
    && (forall i :: 0 <= i < |items| && items[i].Buffer? ==> items[i] in pool)
    && (forall i, j :: 0 <= i < j < |items| && items[i].Buffer? && items[j].Buffer? ==> items[i] != items[j])
  }

  /** Resizes since the last push have kept some front part and padded it with nulls. */
  ghost predicate Resized(items: seq<AudioBuffer>, mark: seq<AudioBuffer>, kept: nat) {
    kept <= |mark| && kept <= |items| && items == mark[..kept] + Nulls(|items| - kept)
  }

  /** The recent blocks end the contents. */
  ghost predicate EndsWith(mark: seq<AudioBuffer>, pool: seq<AudioBuffer>, recent: nat) {
    recent <= |mark| && recent <= |pool| && mark[|mark| - recent..] == pool[|pool| - recent..]
  }

  /** What precedes them in the contents is not what was pushed before them. */
  ghost predicate Mixed(mark: seq<AudioBuffer>, pool: seq<AudioBuffer>, recent: nat) {
    && EndsWith(mark, pool, recent) && recent < |mark|
    && (|pool| == recent || mark[|mark| - recent - 1] != pool[|pool| - recent - 1])
  }

  ghost predicate Shape(mark: seq<AudioBuffer>, pool: seq<AudioBuffer>, recent: nat, mixed: bool) {
    if pool == [] then mark == [] && recent == 0 && !mixed
    else
      && mark != [] && mark[|mark| - 1] == pool[|pool| - 1]
      && 1 <= recent <= |pool|
      && if mixed then Mixed(mark, pool, recent) else Contiguous(mark, pool)
  }

  ghost predicate Inv(w: Watch) {
    && w.ring.Valid() && AllReal(w.pool) && |w.mark| <= w.ring.capacity
    && DistinctIn(w.mark, w.pool) && (exists kept: nat :: Resized(w.ring.items, w.mark, kept))
    && (w.ring.items == [] ==> w.mark == [])
    && Shape(w.mark, w.pool, w.recent, w.mixed)
  }

  lemma {:induction false} MixedIsNotContiguous(mark: seq<AudioBuffer>, pool: seq<AudioBuffer>, recent: nat)
    requires Mixed(mark, pool, recent)
    ensures !Contiguous(mark, pool)
  {
    if |mark| <= |pool| {
      assert pool[|pool| - |mark|..][|mark| - recent - 1] == pool[|pool| - recent - 1];
    }
  }

  lemma {:induction false} ResizeKeepsInv(w: Watch, n: nat)
    requires Inv(w) && n >= 1
    ensures Inv(Observe(w, ResizeTo(n)))
  {
    hide Shape, DistinctIn, AllReal;
    var kept: nat :| Resized(w.ring.items, w.mark, kept);
    var items := w.ring.Resize(n).items;
    var kept' := if n < kept then n else kept;
    assert items == w.mark[..kept'] + Nulls(|items| - kept');
    assert Resized(items, w.mark, kept');
  }

  /** The contents that resizes have changed do not end in the newest block. */
  lemma {:induction false} DisturbedEnd(w: Watch)
    requires Inv(w) && w.pool != [] && w.ring.items != w.mark
    ensures w.ring.items != [] && w.ring.items[|w.ring.items| - 1] != w.pool[|w.pool| - 1]
  {
    var items := w.ring.items;
    var kept: nat :| Resized(items, w.mark, kept);
    var last := items[|items| - 1];
    assert w.pool[|w.pool| - 1] in w.pool;
    if kept == |items| {
      assert items == w.mark[..kept] && kept < |w.mark|;
      assert last == w.mark[kept - 1];
    } else {
      assert last == Null;
    }
  }

  lemma {:induction false} PushKeepsDistinct(w: Watch, b: AudioBuffer)
    requires Inv(w) && b.Buffer? && b !in w.pool
    ensures DistinctIn(w.ring.Push(b).items, w.pool + [b])
  {
    hide Shape, AllReal;
    var kept: nat :| Resized(w.ring.items, w.mark, kept);
    ResizedIsDistinct(w.ring.items, w.mark, w.pool, kept);
    DistinctPush(w.ring, w.pool, b);
  }

  lemma {:induction false} ResizedIsDistinct(items: seq<AudioBuffer>, mark: seq<AudioBuffer>, pool: seq<AudioBuffer>,
                                             kept: nat)
    requires Resized(items, mark, kept) && DistinctIn(mark, pool)
    ensures DistinctIn(items, pool)
  {
    assert forall i :: 0 <= i < |items| ==> items[i] == if i < kept then mark[i] else Null;
  }

  lemma {:induction false} DistinctPush(ring: Ring, pool: seq<AudioBuffer>, b: AudioBuffer)
    requires ring.Valid() && b.Buffer? && b !in pool && DistinctIn(ring.items, pool)
    ensures DistinctIn(ring.Push(b).items, pool + [b])
  {
    var from := if |ring.items| == ring.capacity then 1 else 0;
    var items := ring.Push(b).items;
    assert items == ring.items[from..] + [b];
    assert forall i :: 0 <= i < |items| - 1 ==> items[i] == ring.items[from + i];
    assert (pool + [b])[|pool|] == b;
  }

  lemma {:induction false} PushKeepsInv(w: Watch, b: AudioBuffer)
    requires Inv(w) && b.Buffer? && b !in w.pool
    ensures Inv(Observe(w, PushOf(b)))
  {
    hide Shape, DistinctIn, AllReal;
    var u := Observe(w, PushOf(b));
    PushKeepsDistinct(w, b);
    ResizedByNothing(u.mark);
    RealMore(w.pool, b);
    if w.ring.items == w.mark {
      QuietPush(w.mark, w.pool, w.recent, w.mixed, b, w.ring.capacity);
    } else {
      if w.pool != [] {
        DisturbedEnd(w);
      } else {
        NothingMarked(w);
      }
      DisturbedPush(w.ring.items, w.pool, b, w.ring.capacity);
      StaysMixed(w);
    }
  }

  lemma {:induction false} NothingMarked(w: Watch)
    requires Inv(w) && w.pool == []
    ensures w.mark == []
  {
  }

  lemma {:induction false} StaysMixed(w: Watch)
    requires w.ring.items != w.mark
    ensures (w.mixed || w.ring.items != w.mark) && 1 < w.ring.capacity <==> 1 < w.ring.capacity
  {
  }

  lemma {:induction false} ResizedByNothing(mark: seq<AudioBuffer>)
    ensures Resized(mark, mark, |mark|)
  {
    assert mark == mark[..|mark|] + Nulls(0);
  }

  lemma {:induction false} RealMore(pool: seq<AudioBuffer>, b: AudioBuffer)
    requires AllReal(pool) && b.Buffer?
    ensures AllReal(pool + [b])
  {
  }

  /** What a push makes of the contents. */
  function Pushed(items: seq<AudioBuffer>, b: AudioBuffer, capacity: nat): seq<AudioBuffer>
    requires |items| <= capacity && 1 <= capacity
  {
    if |items| == capacity then items[1..] + [b] else items + [b]
  }

  lemma {:induction false} QuietPush(mark: seq<AudioBuffer>, pool: seq<AudioBuffer>, recent: nat, mixed: bool,
                                     b: AudioBuffer, capacity: nat)
    requires Shape(mark, pool, recent, mixed) && |mark| <= capacity && 1 <= capacity
    ensures Shape(Pushed(mark, b, capacity), pool + [b], recent + 1, mixed && recent + 1 < capacity)
  {
    hide Mixed, Contiguous;
    if mixed {
      QuietMixed(mark, pool, recent, b, capacity);
    } else {
      QuietContiguous(mark, pool, recent, b, capacity);
    }
  }

  lemma {:induction false} QuietMixed(mark: seq<AudioBuffer>, pool: seq<AudioBuffer>, recent: nat, b: AudioBuffer,
                                      capacity: nat)
    requires Mixed(mark, pool, recent) && |mark| <= capacity && 1 <= capacity
    ensures var m := Pushed(mark, b, capacity);
      if recent + 1 < capacity then Mixed(m, pool + [b], recent + 1) else Contiguous(m, pool + [b])
  {
    hide Mixed, Contiguous, EndsWith;
    MixedParts(mark, pool, recent);
    if |mark| < capacity {
      TailsGrow(mark, pool, b, recent);
    } else {
      FrontGoes(mark, pool, recent);
      TailsGrow(mark[1..], pool, b, recent);
    }
  }

  lemma {:induction false} MixedParts(mark: seq<AudioBuffer>, pool: seq<AudioBuffer>, recent: nat)
    requires Mixed(mark, pool, recent)
    ensures EndsWith(mark, pool, recent) && recent < |mark|
  {
  }

  lemma {:induction false} QuietContiguous(mark: seq<AudioBuffer>, pool: seq<AudioBuffer>, recent: nat,
                                           b: AudioBuffer, capacity: nat)
    requires Shape(mark, pool, recent, false) && |mark| <= capacity && 1 <= capacity
    ensures Contiguous(Pushed(mark, b, capacity), pool + [b])
  {
    var m, p := Pushed(mark, b, capacity), pool + [b];
    if |mark| < capacity {
      assert m == p[|p| - |m|..];
    } else {
      assert m == p[|p| - |m|..];
    }
  }

  lemma {:induction false} FrontGoes(mark: seq<AudioBuffer>, pool: seq<AudioBuffer>, recent: nat)
    requires Mixed(mark, pool, recent)
    ensures recent + 1 < |mark| ==> Mixed(mark[1..], pool, recent)
    ensures EndsWith(mark[1..], pool, recent)
  {
    assert mark[1..][|mark| - 1 - recent..] == mark[|mark| - recent..];
  }

  lemma {:induction false} TailsGrow(mark: seq<AudioBuffer>, pool: seq<AudioBuffer>, b: AudioBuffer, recent: nat)
    requires EndsWith(mark, pool, recent)
    ensures var m, p := mark + [b], pool + [b];
      && (Mixed(mark, pool, recent) ==> Mixed(m, p, recent + 1))
      && (recent == |mark| ==> Contiguous(m, p))
  {
    var m, p := mark + [b], pool + [b];
    assert m[|m| - recent - 1..] == mark[|mark| - recent..] + [b];
    assert p[|p| - recent - 1..] == pool[|pool| - recent..] + [b];
  }

  lemma {:induction false} DisturbedPush(items: seq<AudioBuffer>, pool: seq<AudioBuffer>, b: AudioBuffer, capacity: nat)
    requires |items| <= capacity && 1 <= capacity && items != []
    requires pool != [] ==> items[|items| - 1] != pool[|pool| - 1]
    ensures Shape(Pushed(items, b, capacity), pool + [b], 1, 1 < capacity)
  {
    var m, p := Pushed(items, b, capacity), pool + [b];
    assert m[|m| - 1..] == [b] == p[|p| - 1..];
    if capacity > 1 {
      assert m[|m| - 2] == items[|items| - 1];
      assert pool != [] ==> p[|p| - 2] == pool[|pool| - 1];
    }
  }

  /** Right after a push the contents are the last blocks pushed, without gap or null, exactly if
      nothing older than the recent blocks is left. */
  lemma {:induction false} ContiguousIff(w: Watch)
    requires Inv(w) && w.pool != []
    ensures Contiguous(w.mark, w.pool) <==> !w.mixed
  {
    if w.mixed {
      MixedIsNotContiguous(w.mark, w.pool, w.recent);
    }
  }

  // ---------------------------------------------------------------------------------------
  // Runs of the detector
  // ---------------------------------------------------------------------------------------

  datatype Input = Block(b: AudioBuffer) | SizeChange(n: nat)

  /** The detector's state after an input; a size below one counts as one. */
  function Take(cfg: Config, s: State, x: Input): State
    requires s.ring.Valid()
  {
    match x
    case Block(b) => Step(cfg, s, b).0
    case SizeChange(n) => s.(ring := s.ring.Resize(if n > 0 then n else 1))
  }

  /** A block at which the ring is drained. */
  predicate Drains(cfg: Config, s: State, b: AudioBuffer)
    requires s.ring.Valid()
  {
    !s.inPacket && HasLoud(cfg, b) && s.ring.Push(b).items[0].Buffer?
  }

  function WatchInput(cfg: Config, s: State, w: Watch, x: Input): Watch
    requires s.ring.Valid() && w.ring == s.ring
  {
    match x
    case SizeChange(n) => Observe(w, ResizeTo(if n > 0 then n else 1))
    case Block(b) =>
      if s.inPacket then w
      else if Drains(cfg, s, b) then Drain(s.ring.capacity)
      else Observe(w, PushOf(b))
  }

  function WatchAll(cfg: Config, s: State, w: Watch, xs: seq<Input>): (r: (State, Watch))
    requires s.ring.Valid() && w.ring == s.ring && !cfg.continuous
    ensures r.0.ring.Valid() && r.1.ring == r.0.ring
    decreases |xs|
  {
    if xs == [] then (s, w)
    else
      WatchFollows(cfg, s, w, xs[0]);
      WatchAll(cfg, Take(cfg, s, xs[0]), WatchInput(cfg, s, w, xs[0]), xs[1..])
  }

  lemma {:induction false} WatchFollows(cfg: Config, s: State, w: Watch, x: Input)
    requires s.ring.Valid() && w.ring == s.ring && !cfg.continuous
    ensures Take(cfg, s, x).ring.Valid() && WatchInput(cfg, s, w, x).ring == Take(cfg, s, x).ring
  {
  }

  ghost predicate FreshBlocks(xs: seq<Input>, seen: seq<AudioBuffer>) {
    && (forall x :: x in xs && x.Block? ==> x.b.Buffer? && x.b !in seen)
    && (forall i, j :: 0 <= i < j < |xs| && xs[i].Block? && xs[j].Block? ==> xs[i].b != xs[j].b)
  }

  lemma {:induction false} InputKeepsInv(cfg: Config, s: State, w: Watch, x: Input)
    requires s.ring.Valid() && w.ring == s.ring && !cfg.continuous && Inv(w)
    requires x.Block? ==> x.b.Buffer? && x.b !in w.pool
    ensures var u := WatchInput(cfg, s, w, x);
      Inv(u) && forall y :: y in u.pool ==> y in w.pool || (x.Block? && y == x.b)
  {
    hide Inv, HasLoud;
    match x {
      case SizeChange(n) => ResizeKeepsInv(w, if n > 0 then n else 1);
      case Block(b) =>
        InvIsValid(w);
        if Drains(cfg, s, b) {
          DrainIsGood(s.ring.capacity);
        } else if !s.inPacket {
          PushKeepsInv(w, b);
        }
    }
  }

  lemma {:induction false} InvIsValid(w: Watch)
    requires Inv(w)
    ensures w.ring.Valid()
  {
  }

  lemma {:induction false} DrainIsGood(capacity: nat)
    requires capacity >= 1
    ensures Inv(Drain(capacity))
  {
    assert Resized([], [], 0);
  }

  lemma {:induction false} InputsKeepInv(cfg: Config, s: State, w: Watch, xs: seq<Input>)
    requires s.ring.Valid() && w.ring == s.ring && !cfg.continuous && Inv(w) && FreshBlocks(xs, w.pool)
    ensures var r := WatchAll(cfg, s, w, xs).1;
      Inv(r) && forall y :: y in r.pool ==> y in w.pool || Block(y) in xs
    decreases |xs|
  {
    hide Inv, Take, WatchInput;
    if xs != [] {
      assert xs[0] in xs;
      WatchFollows(cfg, s, w, xs[0]);
      InputKeepsInv(cfg, s, w, xs[0]);
      var t, u := Take(cfg, s, xs[0]), WatchInput(cfg, s, w, xs[0]);
      FreshTail(xs, w.pool, u.pool);
      InputsKeepInv(cfg, t, u, xs[1..]);
    }
  }

  lemma {:induction false} FreshTail(xs: seq<Input>, seen: seq<AudioBuffer>, seen': seq<AudioBuffer>)
    requires FreshBlocks(xs, seen) && xs != []
    requires forall y :: y in seen' ==> y in seen || (xs[0].Block? && y == xs[0].b)
    ensures FreshBlocks(xs[1..], seen')
  {
    forall x | x in xs[1..] && x.Block?
      ensures x.b.Buffer? && x.b !in seen'
    {
      var k :| 0 <= k < |xs[1..]| && xs[1..][k] == x;
      assert xs[k + 1] == x && x in xs;
    }
  }

  /** Over every run of blocks, all different, and size changes: what a trigger publishes is its
      START and then the last blocks pushed since the ring was last drained, without a gap or a
      null, if and only if nothing older than the recent blocks is left: that is, if no size change
      left its mark since then, or as many blocks have been pushed since as the ring holds. */
  lemma {:induction false} TriggerIsContiguousIff(cfg: Config, xs: seq<Input>, b: AudioBuffer)
    requires !cfg.continuous && FreshBlocks(xs + [Block(b)], []) && HasLoud(cfg, b)
    ensures var s0 := State(false, -1, 0.0, 0, Ring(1, []), 0);
      var (s, w) := WatchAll(cfg, s0, Drain(1), xs);
      var u := Observe(w, PushOf(b));
      var o := Step(cfg, s, b).1;
      !s.inPacket ==>
        ((o != [] && |o| <= |u.pool| && o == Drained(u.pool[|u.pool| - |o|..], s.nextId)) <==> !u.mixed)
  {
    hide WatchAll, Inv, HasLoud, Step, Contiguous, Drained, FreshBlocks;
    var s0 := State(false, -1, 0.0, 0, Ring(1, []), 0);
    BeforeTrigger(xs, b);
    DrainIsGood(1);
    InputsKeepInv(cfg, s0, Drain(1), xs);
    var (s, w) := WatchAll(cfg, s0, Drain(1), xs);
    PushKeepsInv(w, b);
    ContiguousIff(Observe(w, PushOf(b)));
    if !s.inPacket {
      PoolIsReal(w, b);
      PublishedContiguously(cfg, s, w, b);
    }
  }

  lemma {:induction false} PoolIsReal(w: Watch, b: AudioBuffer)
    requires Inv(w) && b.Buffer?
    ensures AllReal(w.pool + [b])
  {
    hide Shape, DistinctIn;
    RealMore(w.pool, b);
  }

  lemma {:induction false} BeforeTrigger(xs: seq<Input>, b: AudioBuffer)
    requires FreshBlocks(xs + [Block(b)], [])
    ensures FreshBlocks(xs, []) && b.Buffer? && Block(b) !in xs
  {
    var all := xs + [Block(b)];
    assert all[|xs|] == Block(b) && Block(b) in all;
    assert forall i :: 0 <= i < |xs| ==> all[i] == xs[i];
    assert forall x :: x in xs ==> x in all;
  }

  lemma {:induction false} PublishedContiguously(cfg: Config, s: State, w: Watch, b: AudioBuffer)
    requires !cfg.continuous && s.ring.Valid() && w.ring == s.ring && !s.inPacket && HasLoud(cfg, b)
    requires AllReal(w.pool + [b])
    ensures var u := Observe(w, PushOf(b)); var o := Step(cfg, s, b).1;
      (o != [] && |o| <= |u.pool| && o == Drained(u.pool[|u.pool| - |o|..], s.nextId))
        <==> Contiguous(u.mark, u.pool)
  {
    hide HasLoud;
    var u := Observe(w, PushOf(b));
    var o := Step(cfg, s, b).1;
    if Contiguous(u.mark, u.pool) {
      assert u.mark[0] in u.pool;
    }
    if o != [] && |o| <= |u.pool| && o == Drained(u.pool[|u.pool| - |o|..], s.nextId) {
      SameDrained(u.mark, u.pool[|u.pool| - |o|..], s.nextId);
    }
  }

  lemma {:induction false} SameDrained(a: seq<AudioBuffer>, b: seq<AudioBuffer>, id: int)
    requires a != [] && b != [] && Drained(a, id) == Drained(b, id)
    ensures a == b
  {
    assert |Drained(a, id)| == |a| && |Drained(b, id)| == |b|;
    forall i | 0 <= i < |a| ensures a[i] == b[i] {
      assert Drained(a, id)[i].buffer == a[i] && Drained(b, id)[i].buffer == b[i];
    }
  }

  /** Shrinking the ring under its contents drops the newest blocks and leaves a gap. */
  lemma {:induction false} ShrinkingLeavesAGap(b1: AudioBuffer, b2: AudioBuffer, b3: AudioBuffer, b4: AudioBuffer)
    ensures Ring(3, [b1, b2, b3]).Resize(1).Push(b4).items == [b1, b4]
  {
  }
}
