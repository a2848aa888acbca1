/** What the detector publishes, stated without its ring, its counters or its flags. */
module Segmentation {
  import opened Common
  import opened Audio
  import opened Detector

  // ---------------------------------------------------------------------------------------
  // Silence: the end of a packet
  // ---------------------------------------------------------------------------------------

  /** The length of the quiet run that ends a sample sequence. */
  function QuietRun(cfg: Config, c: seq<Sample>): nat {
    if c == [] || Loud(cfg, c[|c| - 1]) then 0 else 1 + QuietRun(cfg, c[..|c| - 1])
  }

  /** Some nonempty prefix of the counted samples ends in a long enough quiet run. */
  ghost predicate EndsBy(cfg: Config, c: seq<Sample>) {
    exists k :: 1 <= k <= |c| && Reached(cfg, QuietRun(cfg, c[..k]))
  }

  lemma {:induction false} EndsByOneMore(cfg: Config, c: seq<Sample>, x: Sample)
    ensures EndsBy(cfg, c + [x]) <==> EndsBy(cfg, c) || Reached(cfg, QuietRun(cfg, c + [x]))
  {
    hide QuietRun, Reached;
    var d := c + [x];
    assert d[..|d|] == d;
    if Reached(cfg, QuietRun(cfg, d)) {
      assert Reached(cfg, QuietRun(cfg, d[..|d|]));
    }
    if EndsBy(cfg, c) {
      var k :| 1 <= k <= |c| && Reached(cfg, QuietRun(cfg, c[..k]));
      assert d[..k] == c[..k] && Reached(cfg, QuietRun(cfg, d[..k]));
    }
    if EndsBy(cfg, d) && !Reached(cfg, QuietRun(cfg, d)) {
      var k :| 1 <= k <= |d| && Reached(cfg, QuietRun(cfg, d[..k]));
      assert d[..k] == c[..k] && Reached(cfg, QuietRun(cfg, c[..k]));
    }
  }

  lemma {:induction false} EndsByMore(cfg: Config, c: seq<Sample>, xs: seq<Sample>)
    requires EndsBy(cfg, c)
    ensures EndsBy(cfg, c + xs)
    decreases |xs|
  {
    if xs == [] {
      assert c + xs == c;
    } else {
      EndsByOneMore(cfg, c, xs[0]);
      EndsByMore(cfg, c + [xs[0]], xs[1..]);
      assert c + [xs[0]] + xs[1..] == c + xs;
    }
  }

  /** The counter is the trailing quiet run of all samples counted since START, and the scan
      ends the packet exactly when that run first becomes long enough. */
  lemma {:induction false} ScanMeasuresQuietRun(cfg: Config, c: seq<Sample>, xs: seq<Sample>)
    requires !EndsBy(cfg, c)
    ensures var r := ScanFrom(cfg, xs, QuietRun(cfg, c));
      (r == Ended <==> EndsBy(cfg, c + xs)) && (r.Running? ==> r.quiet == QuietRun(cfg, c + xs))
    decreases |xs|
  {
    if xs == [] {
      assert c + xs == c;
    } else {
      var d := c + [xs[0]];
      assert d[..|d| - 1] == c;
      assert d + xs[1..] == c + xs;
      EndsByOneMore(cfg, c, xs[0]);
      if Reached(cfg, QuietRun(cfg, d)) {
        EndsByMore(cfg, d, xs[1..]);
      } else {
        ScanMeasuresQuietRun(cfg, d, xs[1..]);
      }
    }
  }

  // ---------------------------------------------------------------------------------------
  // The packets of an input sequence
  // ---------------------------------------------------------------------------------------

  /** Blocks lo..hi of the input, triggered by block trig; the last block is the END if closed. */
  datatype Packet = Packet(lo: nat, trig: nat, hi: nat, closed: bool)

  function NextTrigger(cfg: Config, ins: seq<AudioBuffer>, i: nat): (t: nat)
    requires i <= |ins|
    ensures i <= t <= |ins|
    decreases |ins| - i
  {
    if i == |ins| || HasLoud(cfg, ins[i]) then i else NextTrigger(cfg, ins, i + 1)
  }

  lemma {:induction false} NextTriggerIsTheFirst(cfg: Config, ins: seq<AudioBuffer>, i: nat)
    requires i <= |ins|
    ensures var t := NextTrigger(cfg, ins, i);
      (forall k :: i <= k < t ==> !HasLoud(cfg, ins[k])) && (t < |ins| ==> HasLoud(cfg, ins[t]))
    decreases |ins| - i
  {
    if i < |ins| && !HasLoud(cfg, ins[i]) {
      NextTriggerIsTheFirst(cfg, ins, i + 1);
    }
  }

  /** The samples counted from the block after trigger t up to block i. */
  function Counted(ins: seq<AudioBuffer>, t: nat, i: nat): seq<Sample>
    requires t < i <= |ins|
  {
    Flatten(ins[t + 1..i])
  }

  /** By the end of block i, the samples counted since trigger t hold a long enough quiet run. */
  ghost predicate EndsIn(cfg: Config, ins: seq<AudioBuffer>, t: nat, i: nat)
    requires t < i < |ins|
  {
    EndsBy(cfg, Counted(ins, t, i + 1))
  }

  /** The first block, from i on, in which the packet triggered by t ends. */
  ghost function NextEnd(cfg: Config, ins: seq<AudioBuffer>, t: nat, i: nat): (e: nat)
    requires t < i <= |ins|
    ensures i <= e <= |ins|
    decreases |ins| - i
  {
    if i == |ins| || EndsIn(cfg, ins, t, i) then i else NextEnd(cfg, ins, t, i + 1)
  }

  lemma {:induction false} NextEndIsTheFirst(cfg: Config, ins: seq<AudioBuffer>, t: nat, i: nat)
    requires t < i <= |ins|
    ensures var e := NextEnd(cfg, ins, t, i);
      (forall k :: i <= k < e ==> !EndsIn(cfg, ins, t, k)) && (e < |ins| ==> EndsIn(cfg, ins, t, e))
    decreases |ins| - i
  {
    if i < |ins| && !EndsIn(cfg, ins, t, i) {
      NextEndIsTheFirst(cfg, ins, t, i + 1);
    }
  }

  /** The packets found from block i on, when the ring holds no block from before `from`. */
  ghost function Packets(cfg: Config, cap: nat, ins: seq<AudioBuffer>, from: nat, i: nat): seq<Packet>
    requires from <= i <= |ins|
    decreases |ins| - i
  {
    var t := NextTrigger(cfg, ins, i);
    if t == |ins| then []
    else
      var lo := Max(from, t + 1 - cap);
      var e := NextEnd(cfg, ins, t, t + 1);
      if e == |ins| then [Packet(lo, t, e, false)]
      else [Packet(lo, t, e + 1, true)] + Packets(cfg, cap, ins, e + 1, e + 1)
  }

  /** A packet within from..n whose part up to the trigger has exactly as many blocks as the ring
      can hold, or as have arrived since `from` if those are fewer. */
  predicate Fits(p: Packet, from: nat, cap: nat, n: nat) {
    && from <= p.lo <= p.trig < p.hi <= n
    && (if p.closed then p.trig + 1 < p.hi else p.hi == n)
    && p.trig + 1 - p.lo == Min(cap, p.trig + 1 - from)
  }

  /** Each packet fits between the END of the one before it and n; only the last may be open. */
  predicate InOrder(ps: seq<Packet>, from: nat, cap: nat, n: nat) {
    ps == [] || (
      && Fits(ps[0], from, cap, n)
      && (if ps[0].closed then InOrder(ps[1..], ps[0].hi, cap, n) else |ps| == 1))
  }

  lemma {:induction false} PacketsAreInOrder(cfg: Config, cap: nat, ins: seq<AudioBuffer>, from: nat, i: nat)
    requires from <= i <= |ins| && 1 <= cap
    ensures InOrder(Packets(cfg, cap, ins, from, i), from, cap, |ins|)
    decreases |ins| - i
  {
    hide NextTrigger, NextEnd, InOrder;
    var t := NextTrigger(cfg, ins, i);
    if t == |ins| {
      NoPacketInOrder(from, cap, |ins|);
    } else {
      var e := NextEnd(cfg, ins, t, t + 1);
      var lo := Max(from, t + 1 - cap);
      if e == |ins| {
        OpenPacketInOrder(Packet(lo, t, e, false), from, cap, |ins|);
      } else {
        PacketsAreInOrder(cfg, cap, ins, e + 1, e + 1);
        PacketBeforeInOrder(Packet(lo, t, e + 1, true), Packets(cfg, cap, ins, e + 1, e + 1), from, cap, |ins|);
      }
    }
  }

  lemma {:induction false} NoPacketInOrder(from: nat, cap: nat, n: nat)
    ensures InOrder([], from, cap, n)
  {
  }

  lemma {:induction false} OpenPacketInOrder(p: Packet, from: nat, cap: nat, n: nat)
    requires Fits(p, from, cap, n) && !p.closed
    ensures InOrder([p], from, cap, n)
  {
  }

  lemma {:induction false} PacketBeforeInOrder(p: Packet, rest: seq<Packet>, from: nat, cap: nat, n: nat)
    requires Fits(p, from, cap, n) && p.closed && InOrder(rest, p.hi, cap, n)
    ensures InOrder([p] + rest, from, cap, n)
  {
    assert ([p] + rest)[0] == p && ([p] + rest)[1..] == rest;
  }

  /** Packets are disjoint runs of the input, in input order. */
  lemma {:induction false} InOrderMeansDisjoint(ps: seq<Packet>, from: nat, cap: nat, n: nat, j: nat, k: nat)
    requires InOrder(ps, from, cap, n) && j < k < |ps|
    ensures ps[j].closed && from <= ps[j].lo && ps[j].hi <= ps[k].lo
  {
    InOrderBounds(ps[1..], ps[0].hi, cap, n, k - 1);
    if j > 0 {
      InOrderMeansDisjoint(ps[1..], ps[0].hi, cap, n, j - 1, k - 1);
    }
  }

  /** Packet k fits just after packet k - 1. */
  lemma {:induction false} InOrderBounds(ps: seq<Packet>, from: nat, cap: nat, n: nat, k: nat)
    requires InOrder(ps, from, cap, n) && k < |ps|
    ensures Fits(ps[k], if k == 0 then from else ps[k - 1].hi, cap, n)
    ensures from <= ps[k].lo
  {
    if k > 0 {
      InOrderBounds(ps[1..], ps[0].hi, cap, n, k - 1);
    }
  }

  // ---------------------------------------------------------------------------------------
  // The tagged blocks of a packet
  // ---------------------------------------------------------------------------------------

  predicate Sound(p: Packet, n: nat) {
    p.lo <= p.trig < p.hi <= n && (p.closed ==> p.trig + 1 < p.hi)
  }

  function MarkerAt(p: Packet, i: nat): Marker {
    if i == p.lo then START
    else if i <= p.trig then NONE
    else if p.closed && i + 1 == p.hi then END
    else MIDDLE
  }

  /** The blocks lo..hi, each with the marker of its place and the id of the packet. */
  function Render(ins: seq<AudioBuffer>, p: Packet, id: int): (r: seq<Tagged>)
    requires Sound(p, |ins|)
    ensures |r| == p.hi - p.lo
    ensures forall k :: 0 <= k < |r| ==> r[k] == Tagged(ins[p.lo + k], MarkerAt(p, p.lo + k), id)
  {
    seq(p.hi - p.lo, k requires 0 <= k < p.hi - p.lo => Tagged(ins[p.lo + k], MarkerAt(p, p.lo + k), id))
  }

  /** The part of a packet after its trigger. */
  function Rest(ins: seq<AudioBuffer>, i: nat, hi: nat, closed: bool, id: int): seq<Tagged>
    requires i <= hi <= |ins| && (closed ==> i < hi)
  {
    if closed then TagAll(ins[i..hi - 1], MIDDLE, id) + [Tagged(ins[hi - 1], END, id)]
    else TagAll(ins[i..hi], MIDDLE, id)
  }

  lemma {:induction false} RenderSplits(ins: seq<AudioBuffer>, p: Packet, id: int)
    requires Sound(p, |ins|)
    ensures Render(ins, p, id) == Drained(ins[p.lo..p.trig + 1], id) + Rest(ins, p.trig + 1, p.hi, p.closed, id)
  {
    var r, d, m := Render(ins, p, id), Drained(ins[p.lo..p.trig + 1], id), Rest(ins, p.trig + 1, p.hi, p.closed, id);
    assert |r| == |d| + |m|;
    forall k | 0 <= k < |d|
      ensures r[k] == d[k]
    {
    }
    forall k | 0 <= k < |m|
      ensures r[|d| + k] == m[k]
    {
    }
  }

  /** The packets one after another, numbered from id on. */
  function RenderAll(ins: seq<AudioBuffer>, ps: seq<Packet>, id: int): seq<Tagged> {
    if ps == [] then []
    else (if Sound(ps[0], |ins|) then Render(ins, ps[0], id) else []) + RenderAll(ins, ps[1..], id + 1)
  }

  /** A packet carries one contiguous slice of the captured sample stream. */
  lemma {:induction false} PacketCarriesASlice(ins: seq<AudioBuffer>, p: Packet, id: int)
    requires Sound(p, |ins|)
    ensures var a := |Flatten(ins[..p.lo])|; var b := |Flatten(ins[..p.hi])|;
      a <= b <= |Flatten(ins)| && Stream(Render(ins, p, id)) == Flatten(ins)[a..b]
  {
    assert Blocks(Render(ins, p, id)) == ins[p.lo..p.hi];
    SliceOfBlocksIsSliceOfStream(ins, p.lo, p.hi);
  }
}
