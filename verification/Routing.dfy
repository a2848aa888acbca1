/** Which threads each netsim_core instance launches, and how a detected block travels from the
    instance that owns its modem to the processors of all the other modems. */
module Routing {
  import opened Common

  // ---------------------------------------------------------------------------------------
  // One instance: the range of modems it owns and the threads it launches
  // ---------------------------------------------------------------------------------------

  /** The configuration of one instance; bridged says whether it has a bridge section. */
  datatype Instance = Instance(modems: int, bridged: bool, firstModem: int, localModems: int) {
    function First(): int {
      if bridged then firstModem else 0
    }

    function Local(): int {
      if bridged then localModems else modems
    }

    predicate Owns(i: int) {
      First() <= i < First() + Local()
    }
  }

  /** The integers lo..hi, ascending. */
  function Range(lo: int, hi: int): seq<int> {
    if hi <= lo then [] else seq(hi - lo, k => lo + k)
  }

  /** One processor per owned modem, in order: of all modems without a bridge section, and of the
      range in that section with one. */
  method LaunchProcessors(inst: Instance) returns (launched: seq<int>)
    ensures launched == Range(inst.First(), inst.First() + inst.Local())
    ensures !inst.bridged && inst.modems >= 0 ==>
      |launched| == inst.modems && forall k :: 0 <= k < inst.modems ==> launched[k] == k
    ensures inst.bridged && inst.localModems >= 0 ==>
      |launched| == inst.localModems && forall k :: 0 <= k < inst.localModems ==> launched[k] == inst.firstModem + k
    ensures (if inst.bridged then inst.localModems else inst.modems) <= 0 ==> launched == []
  {
    launched := [];
    var i := inst.First();
    while i < inst.Local() + inst.First()
      invariant i >= inst.First()
      invariant launched == Range(inst.First(), i)
      invariant if inst.Local() >= 0 then i <= inst.First() + inst.Local() else i == inst.First()
      decreases inst.Local() + inst.First() - i
    {
      launched := launched + [i];
      i := i + 1;
    }
  }

  /** The fall-through switch: label maxModems - n launches detector maxModems - 1 - n, unless that
      is below the first owned modem, and then falls through to the next label. */
  method LaunchDetectors(inst: Instance, maxModems: nat) returns (launched: seq<int>)
    ensures forall i :: i in launched <==> DetectorLaunched(inst, maxModems, i)
    ensures forall j, k :: 0 <= j < k < |launched| ==> launched[j] != launched[k]
    ensures !inst.bridged ==>
      forall i :: i in launched <==> 0 <= i < inst.modems && inst.modems <= maxModems
    ensures inst.bridged ==>
      forall i :: i in launched <==> 0 <= i && inst.firstModem <= i < inst.firstModem + inst.localModems
                                     && inst.firstModem + inst.localModems <= maxModems
  {
    launched := [];
    var matched := false;
    for n := 0 to maxModems
      invariant matched <==> maxModems - n < inst.First() + inst.Local() <= maxModems
      invariant forall i :: i in launched <==> maxModems - n <= i && DetectorLaunched(inst, maxModems, i)
      invariant forall j, k :: 0 <= j < k < |launched| ==> launched[j] != launched[k]
      invariant forall k :: 0 <= k < |launched| ==> launched[k] >= maxModems - n
    {
      if inst.Local() + inst.First() == maxModems - n {
        matched := true;
      }
      if matched && maxModems - 1 - n >= inst.First() {
        launched := launched + [maxModems - 1 - n];
      }
    }
  }

  predicate DetectorLaunched(inst: Instance, maxModems: nat, i: int) {
    0 <= i && inst.Owns(i) && inst.First() + inst.Local() <= maxModems
  }

  /** Start-up waits for as many detectors as the instance owns modems. It gets past that wait
      exactly if the owned range is a range of modem indices that were compiled in. */
  lemma {:induction false} DetectorWaitEndsIff(inst: Instance, maxModems: nat, launched: seq<int>)
    requires forall i :: i in launched <==> DetectorLaunched(inst, maxModems, i)
    requires forall j, k :: 0 <= j < k < |launched| ==> launched[j] != launched[k]
    ensures |launched| >= inst.Local()
       <==> inst.Local() <= 0 || (0 <= inst.First() && inst.First() + inst.Local() <= maxModems)
    ensures !inst.bridged ==> (|launched| >= inst.modems <==> inst.modems <= maxModems)
    ensures inst.bridged ==>
      var ok := 0 <= inst.firstModem && inst.firstModem + inst.localModems <= maxModems;
      (|launched| >= inst.localModems <==> inst.localModems <= 0 || ok)
  {
    var first, top := inst.First(), inst.First() + inst.Local();
    if inst.Local() > 0 {
      var lo := if first < 0 then 0 else first;
      if top <= maxModems && lo < top {
        var owned := Range(lo, top);
        assert forall i :: i in owned <==> lo <= i < top by {
          forall i | lo <= i < top
            ensures i in owned
          {
            assert owned[i - lo] == i;
          }
        }
        SameElementsSameLength(launched, owned);
      } else if |launched| > 0 {
        assert launched[0] in launched;
        assert !DetectorLaunched(inst, maxModems, launched[0]);
      }
    }
  }

  function ToSet(s: seq<int>): set<int> {
    set x | x in s
  }

  lemma {:induction false} DistinctLength(s: seq<int>)
    requires forall j, k :: 0 <= j < k < |s| ==> s[j] != s[k]
    ensures |ToSet(s)| == |s|
  {
    if s != [] {
      DistinctLength(s[1..]);
      assert s[0] !in s[1..];
      assert ToSet(s) == ToSet(s[1..]) + {s[0]};
    }
  }

  lemma {:induction false} SameElementsSameLength(s: seq<int>, t: seq<int>)
    requires forall j, k :: 0 <= j < k < |s| ==> s[j] != s[k]
    requires forall j, k :: 0 <= j < k < |t| ==> t[j] != t[k]
    requires forall i :: i in s <==> i in t
    ensures |s| == |t|
  {
    DistinctLength(s);
    DistinctLength(t);
    assert ToSet(s) == ToSet(t);
  }

  // ---------------------------------------------------------------------------------------
  // Subscriptions
  // ---------------------------------------------------------------------------------------

  /** The bridge subscribes within its process to the detectors of the modems it owns ... */
  predicate BridgeHearsDetector(inst: Instance, i: int) {
    inst.bridged && inst.Owns(i)
  }

  /** ... and between processes to the bridges of all the others. */
  predicate BridgeHearsBridge(inst: Instance, i: int) {
    inst.bridged && 0 <= i < inst.modems && !inst.Owns(i)
  }

  /** Processor j runs where modem j is owned and hears every detector but its own. */
  predicate ProcessorHears(inst: Instance, j: int, i: int) {
    inst.Owns(j) && i != j && 0 <= i < inst.modems
  }

  /** The bridge's registration loop. */
  method SubscribeBridge(inst: Instance) returns (detectors: set<int>, bridges: set<int>)
    requires inst.bridged
    ensures forall i :: i in detectors <==> 0 <= i < inst.modems && BridgeHearsDetector(inst, i)
    ensures forall i :: i in bridges <==> BridgeHearsBridge(inst, i)
    ensures forall i :: i in detectors <==>
      0 <= i < inst.modems && inst.firstModem <= i < inst.firstModem + inst.localModems
    ensures forall i :: i in bridges <==>
      0 <= i < inst.modems && !(inst.firstModem <= i < inst.firstModem + inst.localModems)
  {
    detectors, bridges := {}, {};
    var i := 0;
    while i < inst.modems
      invariant 0 <= i && (if inst.modems >= 0 then i <= inst.modems else i == 0)
      invariant forall k :: k in detectors <==> 0 <= k < i && BridgeHearsDetector(inst, k)
      invariant forall k :: k in bridges <==> k < i && BridgeHearsBridge(inst, k)
      decreases inst.modems - i
    {
      if i >= inst.firstModem && i < inst.firstModem + inst.localModems {
        detectors := detectors + {i};
      } else {
        bridges := bridges + {i};
      }
      i := i + 1;
    }
  }

  /** A processor's registration loop. */
  method SubscribeProcessor(inst: Instance, toIndex: int) returns (detectors: set<int>)
    requires inst.Owns(toIndex)
    ensures forall i :: i in detectors <==> ProcessorHears(inst, toIndex, i)
    ensures forall i :: i in detectors <==> 0 <= i < inst.modems && i != toIndex
  {
    detectors := {};
    var i := 0;
    while i < inst.modems
      invariant 0 <= i && (if inst.modems >= 0 then i <= inst.modems else i == 0)
      invariant forall k :: k in detectors <==> k < i && ProcessorHears(inst, toIndex, k)
      decreases inst.modems - i
    {
      if i != toIndex {
        detectors := detectors + {i};
      }
      i := i + 1;
    }
  }

  /** The group number of the audio from one modem to another. */
  function AudioOutGroup(maxModems: nat, from: nat, to: nat): nat {
    from * maxModems + to
  }

  lemma {:induction false} AudioOutGroupsAreDistinct(maxModems: nat, from1: nat, to1: nat, from2: nat, to2: nat)
    requires to1 < maxModems && to2 < maxModems
    ensures AudioOutGroup(maxModems, from1, to1) == AudioOutGroup(maxModems, from2, to2)
       <==> from1 == from2 && to1 == to2
  {
    if from1 < from2 {
      LaterGroupIsLarger(maxModems, from1, to1, from2, to2);
    } else if from2 < from1 {
      LaterGroupIsLarger(maxModems, from2, to2, from1, to1);
    }
  }

  lemma {:induction false} LaterGroupIsLarger(maxModems: nat, from1: nat, to1: nat, from2: nat, to2: nat)
    requires to1 < maxModems && from1 < from2
    ensures AudioOutGroup(maxModems, from1, to1) < AudioOutGroup(maxModems, from2, to2)
  {
    var d := from2 - from1 - 1;
    assert from2 * maxModems == from1 * maxModems + maxModems + d * maxModems;
    assert d * maxModems >= 0;
  }

  // ---------------------------------------------------------------------------------------
  // The distributed system, for the detector of one modem
  // ---------------------------------------------------------------------------------------

  /** Every modem is owned by exactly one instance; owner gives its index. */
  ghost predicate Partition(insts: seq<Instance>, n: nat, owner: seq<nat>) {
    && |owner| == n
    && (forall h :: 0 <= h < |insts| ==> insts[h].modems == n)
    && (forall i :: 0 <= i < n ==> owner[i] < |insts|)
    && (forall h, i :: 0 <= h < |insts| && 0 <= i < n ==> (insts[h].Owns(i) <==> h == owner[i]))
  }

  /** One instance without a bridge owns all modems; several with one partition them exactly if their
      ranges cover each modem once. */
  lemma {:induction false} OneInstanceIsAPartition(n: nat, first: int, local: int)
    ensures Partition([Instance(n, false, first, local)], n, seq(n, _ => 0))
  {
  }

  lemma {:induction false} RangesPartition(insts: seq<Instance>, n: nat, owner: seq<nat>)
    requires forall h :: 0 <= h < |insts| ==> insts[h].modems == n && insts[h].bridged
    requires |owner| == n && forall i :: 0 <= i < n ==> owner[i] < |insts|
    ensures Partition(insts, n, owner)
       <==> forall h, i :: 0 <= h < |insts| && 0 <= i < n ==>
              (insts[h].firstModem <= i < insts[h].firstModem + insts[h].localModems <==> h == owner[i])
  {
  }

  /** FIFO links: from the detector to its bridge, from there to the bridge of each instance,
      and to each processor; and what each processor has received. */
  datatype Net<T> = Net(detected: seq<T>, toBridge: seq<T>, toHost: seq<seq<T>>, toProcessor: seq<seq<T>>,
                        received: seq<seq<T>>)

  datatype Hop<T> = Detect(x: T) | BridgeOut | BridgeIn(host: nat) | Deliver(processor: nat)

  ghost predicate Shaped<T>(insts: seq<Instance>, n: nat, s: Net<T>) {
    |s.toHost| == |insts| && |s.toProcessor| == n && |s.received| == n
  }

  predicate Enabled<T>(s: Net<T>, e: Hop<T>) {
    match e
    case Detect(_) => true
    case BridgeOut => s.toBridge != []
    case BridgeIn(h) => h < |s.toHost| && s.toHost[h] != []
    case Deliver(j) => j < |s.toProcessor| && s.toProcessor[j] != []
  }

  function AddWhere<T>(links: seq<seq<T>>, x: T, where: seq<bool>): seq<seq<T>>
    requires |where| == |links|
  {
    seq(|links|, k requires 0 <= k < |links| => if where[k] then links[k] + [x] else links[k])
  }

  /** The processors of instance h that hear detector i. */
  function Hearers(insts: seq<Instance>, n: nat, h: nat, i: nat): seq<bool>
    requires h < |insts|
  {
    seq(n, j => ProcessorHears(insts[h], j, i))
  }

  function Listeners(insts: seq<Instance>, i: nat): seq<bool> {
    seq(|insts|, h requires 0 <= h < |insts| => BridgeHearsBridge(insts[h], i))
  }

  /** A publication on a detector group reaches the processors of that process, and its bridge if
      that subscribed; one between bridges reaches every bridge that subscribed. */
  ghost function PublishDetector<T>(insts: seq<Instance>, n: nat, h: nat, i: nat, s: Net<T>, x: T): Net<T>
    requires h < |insts| && Shaped(insts, n, s)
  {
    s.(toProcessor := AddWhere(s.toProcessor, x, Hearers(insts, n, h, i)),
       toBridge := if BridgeHearsDetector(insts[h], i) then s.toBridge + [x] else s.toBridge)
  }

  ghost function Next<T>(insts: seq<Instance>, n: nat, owner: nat, i: nat, s: Net<T>, e: Hop<T>): Net<T>
    requires owner < |insts| && Shaped(insts, n, s) && Enabled(s, e)
  {
    match e
    case Detect(x) =>
      PublishDetector(insts, n, owner, i, s.(detected := s.detected + [x]), x)
    case BridgeOut =>
      s.(toBridge := s.toBridge[1..], toHost := AddWhere(s.toHost, s.toBridge[0], Listeners(insts, i)))
    case BridgeIn(h) =>
      PublishDetector(insts, n, h, i, s.(toHost := s.toHost[h := s.toHost[h][1..]]), s.toHost[h][0])
    case Deliver(j) =>
      s.(toProcessor := s.toProcessor[j := s.toProcessor[j][1..]],
         received := s.received[j := s.received[j] + [s.toProcessor[j][0]]])
  }

  function Start<T>(hosts: nat, n: nat): Net<T> {
    Net([], [], seq(hosts, _ => []), seq(n, _ => []), seq(n, _ => []))
  }

  /** What is still on its way to processor j: first hop last. */
  ghost function OnTheWay<T>(owner: seq<nat>, i: nat, s: Net<T>, j: nat): seq<T>
    requires i < |owner| && j < |owner| && j < |s.toProcessor|
    requires owner[j] < |s.toHost|
  {
    s.toProcessor[j] + if owner[j] == owner[i] then [] else s.toHost[owner[j]] + s.toBridge
  }

  /** Nothing is ever queued for a bridge that does not listen, or for processor i itself. */
  ghost predicate Inv<T>(insts: seq<Instance>, n: nat, owner: seq<nat>, i: nat, s: Net<T>) {
    && Partition(insts, n, owner) && i < n && Shaped(insts, n, s)
    && s.toHost[owner[i]] == []
    && s.toProcessor[i] == [] && s.received[i] == []
    && (forall j :: 0 <= j < n && j != i ==> s.received[j] + OnTheWay(owner, i, s, j) == s.detected)
  }

  lemma {:induction false} StartIsGood<T>(insts: seq<Instance>, n: nat, owner: seq<nat>, i: nat)
    requires Partition(insts, n, owner) && i < n
    ensures Inv<T>(insts, n, owner, i, Start(|insts|, n))
  {
  }

  /** An instance that does not own modem i but does own another one must have a bridge. */
  lemma {:induction false} RemoteOwnersAreBridged(insts: seq<Instance>, n: nat, owner: seq<nat>, i: nat, j: nat)
    requires Partition(insts, n, owner) && i < n && j < n && owner[i] != owner[j]
    ensures BridgeHearsBridge(insts[owner[j]], i) && BridgeHearsDetector(insts[owner[i]], i)
  {
    assert insts[owner[j]].Owns(j) && !insts[owner[j]].Owns(i);
    assert insts[owner[i]].Owns(i) && !insts[owner[i]].Owns(j);
  }

  /** Every hop keeps it: at each processor j other than i, what has been received followed by what
      is on its way is what was detected, each block once and in order; processor i gets nothing. */
  lemma {:induction false} HopKeepsInv<T>(insts: seq<Instance>, n: nat, owner: seq<nat>, i: nat, s: Net<T>, e: Hop<T>)
    requires Inv(insts, n, owner, i, s) && Enabled(s, e)
    ensures Inv(insts, n, owner, i, Next(insts, n, owner[i], i, s, e))
  {
    var t := Next(insts, n, owner[i], i, s, e);
    forall j | 0 <= j < n && j != i
      ensures t.received[j] + OnTheWay(owner, i, t, j) == t.detected
    {
      if owner[j] != owner[i] {
        RemoteOwnersAreBridged(insts, n, owner, i, j);
      }
      assert s.received[j] + OnTheWay(owner, i, s, j) == s.detected;
      HopAtProcessor(insts, n, owner, i, s, e, j);
    }
  }

  lemma {:induction false} HopAtProcessor<T>(insts: seq<Instance>, n: nat, owner: seq<nat>, i: nat, s: Net<T>,
                                             e: Hop<T>, j: nat)
    requires Inv(insts, n, owner, i, s) && Enabled(s, e) && j < n && j != i
    requires owner[j] != owner[i] ==> BridgeHearsBridge(insts[owner[j]], i) && BridgeHearsDetector(insts[owner[i]], i)
    ensures var t := Next(insts, n, owner[i], i, s, e);
      Shaped(insts, n, t) && t.received[j] + OnTheWay(owner, i, t, j) == t.detected
  {
    hide *;
    match e {
      case Detect(x) => DetectAtProcessor(insts, n, owner, i, s, e, j);
      case BridgeOut => BridgeOutAtProcessor(insts, n, owner, i, s, e, j);
      case BridgeIn(k) => BridgeInAtProcessor(insts, n, owner, i, s, e, j);
      case Deliver(k) => DeliverAtProcessor(insts, n, owner, i, s, e, j);
    }
  }

  lemma {:induction false} DetectAtProcessor<T>(insts: seq<Instance>, n: nat, owner: seq<nat>, i: nat, s: Net<T>,
                                                e: Hop<T>, j: nat)
    requires Inv(insts, n, owner, i, s) && Enabled(s, e) && j < n && j != i && e.Detect?
    requires owner[j] != owner[i] ==> BridgeHearsBridge(insts[owner[j]], i) && BridgeHearsDetector(insts[owner[i]], i)
    ensures var t := Next(insts, n, owner[i], i, s, e);
      Shaped(insts, n, t) && t.received[j] + OnTheWay(owner, i, t, j) == t.detected
  {
    var r, p, h, b := s.received[j], s.toProcessor[j], s.toHost[owner[j]], s.toBridge;
    if owner[j] == owner[i] {
      assert r + (p + [e.x] + []) == (r + (p + [])) + [e.x];
    } else {
      assert r + (p + (h + (b + [e.x]))) == (r + (p + (h + b))) + [e.x];
    }
  }

  lemma {:induction false} BridgeOutAtProcessor<T>(insts: seq<Instance>, n: nat, owner: seq<nat>, i: nat, s: Net<T>,
                                                   e: Hop<T>, j: nat)
    requires Inv(insts, n, owner, i, s) && Enabled(s, e) && j < n && j != i && e.BridgeOut?
    requires owner[j] != owner[i] ==> BridgeHearsBridge(insts[owner[j]], i) && BridgeHearsDetector(insts[owner[i]], i)
    ensures var t := Next(insts, n, owner[i], i, s, e);
      Shaped(insts, n, t) && t.received[j] + OnTheWay(owner, i, t, j) == t.detected
  {
    var r, p, h, b := s.received[j], s.toProcessor[j], s.toHost[owner[j]], s.toBridge;
    if owner[j] != owner[i] {
      assert r + (p + ((h + [b[0]]) + b[1..])) == r + (p + (h + b));
    }
  }

  lemma {:induction false} BridgeInAtProcessor<T>(insts: seq<Instance>, n: nat, owner: seq<nat>, i: nat, s: Net<T>,
                                                  e: Hop<T>, j: nat)
    requires Inv(insts, n, owner, i, s) && Enabled(s, e) && j < n && j != i && e.BridgeIn?
    requires owner[j] != owner[i] ==> BridgeHearsBridge(insts[owner[j]], i) && BridgeHearsDetector(insts[owner[i]], i)
    ensures var t := Next(insts, n, owner[i], i, s, e);
      Shaped(insts, n, t) && t.received[j] + OnTheWay(owner, i, t, j) == t.detected
  {
    var r, p, h, b := s.received[j], s.toProcessor[j], s.toHost[owner[j]], s.toBridge;
    if owner[j] != owner[i] && e.host == owner[j] {
      assert r + ((p + [h[0]]) + (h[1..] + b)) == r + (p + (h + b));
    }
  }

  lemma {:induction false} DeliverAtProcessor<T>(insts: seq<Instance>, n: nat, owner: seq<nat>, i: nat, s: Net<T>,
                                                 e: Hop<T>, j: nat)
    requires Inv(insts, n, owner, i, s) && Enabled(s, e) && j < n && j != i && e.Deliver?
    requires owner[j] != owner[i] ==> BridgeHearsBridge(insts[owner[j]], i) && BridgeHearsDetector(insts[owner[i]], i)
    ensures var t := Next(insts, n, owner[i], i, s, e);
      Shaped(insts, n, t) && t.received[j] + OnTheWay(owner, i, t, j) == t.detected
  {
    var r, p, h, b := s.received[j], s.toProcessor[j], s.toHost[owner[j]], s.toBridge;
    if e.processor == j {
      var rest := if owner[j] == owner[i] then [] else h + b;
      assert (r + [p[0]]) + (p[1..] + rest) == r + (p + rest);
    }
  }

  ghost predicate Runs<T>(insts: seq<Instance>, n: nat, owner: nat, i: nat, s: Net<T>, es: seq<Hop<T>>)
    requires owner < |insts| && Shaped(insts, n, s)
    decreases |es|
  {
    es == [] || (Enabled(s, es[0]) && Runs(insts, n, owner, i, Next(insts, n, owner, i, s, es[0]), es[1..]))
  }

  ghost function After<T>(insts: seq<Instance>, n: nat, owner: nat, i: nat, s: Net<T>, es: seq<Hop<T>>): (t: Net<T>)
    requires owner < |insts| && Shaped(insts, n, s) && Runs(insts, n, owner, i, s, es)
    ensures Shaped(insts, n, t)
    decreases |es|
  {
    if es == [] then s else After(insts, n, owner, i, Next(insts, n, owner, i, s, es[0]), es[1..])
  }

  lemma {:induction false} RunKeepsInv<T>(insts: seq<Instance>, n: nat, owner: seq<nat>, i: nat, s: Net<T>,
                                          es: seq<Hop<T>>)
    requires Inv(insts, n, owner, i, s) && Runs(insts, n, owner[i], i, s, es)
    ensures Inv(insts, n, owner, i, After(insts, n, owner[i], i, s, es))
    decreases |es|
  {
    if es != [] {
      HopKeepsInv(insts, n, owner, i, s, es[0]);
      RunKeepsInv(insts, n, owner, i, Next(insts, n, owner[i], i, s, es[0]), es[1..]);
    }
  }

  /** The blocks that the detector of modem i publishes in a run. */
  function DetectedIn<T>(es: seq<Hop<T>>): seq<T> {
    if es == [] then [] else (if es[0].Detect? then [es[0].x] else []) + DetectedIn(es[1..])
  }

  lemma {:induction false} HopDetects<T>(insts: seq<Instance>, n: nat, owner: nat, i: nat, s: Net<T>, e: Hop<T>)
    requires owner < |insts| && Shaped(insts, n, s) && Enabled(s, e)
    ensures Shaped(insts, n, Next(insts, n, owner, i, s, e))
    ensures Next(insts, n, owner, i, s, e).detected == s.detected + if e.Detect? then [e.x] else []
  {
    assert s.detected + [] == s.detected;
  }

  lemma {:induction false} RunDetects<T>(insts: seq<Instance>, n: nat, owner: nat, i: nat, s: Net<T>, es: seq<Hop<T>>)
    requires owner < |insts| && Shaped(insts, n, s) && Runs(insts, n, owner, i, s, es)
    ensures After(insts, n, owner, i, s, es).detected == s.detected + DetectedIn(es)
    decreases |es|
  {
    hide Enabled, PublishDetector, AddWhere, Hearers, Listeners;
    if es == [] {
      assert s.detected + [] == s.detected;
    } else {
      var t := Next(insts, n, owner, i, s, es[0]);
      HopDetects(insts, n, owner, i, s, es[0]);
      RunDetects(insts, n, owner, i, t, es[1..]);
      ConcatAssoc(s.detected, if es[0].Detect? then [es[0].x] else [], DetectedIn(es[1..]));
    }
  }

  /** In every run, each processor j other than i has received a prefix of what detector i saw, in
      order; processor i has received nothing; and once nothing is in flight, every block has
      reached every other processor exactly once. */
  lemma {:induction false} EveryBlockReachesEveryOtherProcessorOnce<T>(insts: seq<Instance>, n: nat, owner: seq<nat>,
                                                                       i: nat, es: seq<Hop<T>>)
    requires Partition(insts, n, owner) && i < n
    requires Runs(insts, n, owner[i], i, Start(|insts|, n), es)
    ensures var s := After(insts, n, owner[i], i, Start(|insts|, n), es);
      && s.received[i] == []
      && (forall j :: 0 <= j < n && j != i ==> s.received[j] <= DetectedIn(es))
      && (Quiet(s) ==> forall j :: 0 <= j < n && j != i ==> s.received[j] == DetectedIn(es))
  {
    RunDetects(insts, n, owner[i], i, Start(|insts|, n), es);
    StartIsGood<T>(insts, n, owner, i);
    RunKeepsInv(insts, n, owner, i, Start(|insts|, n), es);
    var s := After(insts, n, owner[i], i, Start(|insts|, n), es);
    forall j | 0 <= j < n && j != i
      ensures s.received[j] <= s.detected && (Quiet(s) ==> s.received[j] == s.detected)
    {
      assert s.received[j] + OnTheWay(owner, i, s, j) == s.detected;
    }
  }

  predicate Quiet<T>(s: Net<T>) {
    && s.toBridge == []
    && (forall h :: 0 <= h < |s.toHost| ==> s.toHost[h] == [])
    && (forall j :: 0 <= j < |s.toProcessor| ==> s.toProcessor[j] == [])
  }

  // ---------------------------------------------------------------------------------------
  // Bridging never loops
  // ---------------------------------------------------------------------------------------

  function Total<T>(links: seq<seq<T>>): nat {
    if links == [] then 0 else |links[0]| + Total(links[1..])
  }

  lemma {:induction false} TotalAfterRemoval<T>(links: seq<seq<T>>, k: nat)
    requires k < |links| && links[k] != []
    ensures Total(links[k := links[k][1..]]) == Total(links) - 1
  {
    if k > 0 {
      assert links[k := links[k][1..]][1..] == links[1..][k - 1 := links[1..][k - 1][1..]];
      TotalAfterRemoval(links[1..], k - 1);
    } else {
      assert links[0 := links[0][1..]][1..] == links[1..];
    }
  }

  /** Lexicographic: blocks waiting for the first bridge, for a remote bridge, for a processor. */
  ghost predicate Smaller<T>(t: Net<T>, s: Net<T>) {
    || |t.toBridge| < |s.toBridge|
    || (|t.toBridge| == |s.toBridge| && Total(t.toHost) < Total(s.toHost))
    || (|t.toBridge| == |s.toBridge| && Total(t.toHost) == Total(s.toHost)
      && Total(t.toProcessor) < Total(s.toProcessor))
  }

  /** Every hop but a new detection takes the system down this order, so with no new detections
      it falls quiet: no block is ever sent back to the bridge it came from. */
  lemma {:induction false} HopsTerminate<T>(insts: seq<Instance>, n: nat, owner: seq<nat>, i: nat, s: Net<T>, e: Hop<T>)
    requires Inv(insts, n, owner, i, s) && Enabled(s, e) && !e.Detect?
    ensures Smaller(Next(insts, n, owner[i], i, s, e), s)
  {
    match e {
      case BridgeOut =>
      case BridgeIn(h) =>
        assert h != owner[i] && !insts[h].Owns(i);
        TotalAfterRemoval(s.toHost, h);
      case Deliver(j) =>
        TotalAfterRemoval(s.toProcessor, j);
    }
  }

  /** Some hop is possible exactly as long as anything is in flight; a detection always is. */
  lemma {:induction false} NotQuietMeansEnabled<T>(s: Net<T>)
    ensures !Quiet(s) <==> exists e: Hop<T> :: !e.Detect? && Enabled(s, e)
    ensures forall x: T :: Enabled(s, Detect(x))
  {
    if Quiet(s) {
      return;
    }
    if s.toBridge != [] {
      assert Enabled(s, BridgeOut);
    } else if h :| 0 <= h < |s.toHost| && s.toHost[h] != [] {
      assert Enabled(s, BridgeIn(h));
    } else {
      var j :| 0 <= j < |s.toProcessor| && s.toProcessor[j] != [];
      assert Enabled(s, Deliver(j));
    }
  }
}
