/** netsim_manager: checks the navigation updates of a request and passes the accepted ones on. */
module Manager {

  datatype Bounds = Bounds(latMin: real, latMax: real, lonMin: real, lonMax: real, depthMin: real, depthMax: real)

  datatype SimEnv = SimEnv(port: int, environment: int, address: string)

  datatype Nav = Nav(port: int, lat: real, lon: real, depth: real, initialized: bool)

  datatype Status = Accepted | InvalidPort | InvalidAddress | OutOfRegion

  datatype Request = Request(id: int, navs: seq<Nav>, stats: seq<int>)

  /** NavUpdate is published with its environment and written to the GPS line of its modem. */
  datatype Event = NavUpdate(environment: int, nav: Nav) | GpsLine(nav: Nav) | Stats(stat: int)
    | Response(id: int, status: Status)

  // ---------------------------------------------------------------------------------------
  // Configuration
  // ---------------------------------------------------------------------------------------

  predicate HasBounds(bounds: seq<(int, Bounds)>, environment: int) {
    exists j :: 0 <= j < |bounds| && bounds[j].0 == environment
  }

  predicate BoundsOnce(bounds: seq<(int, Bounds)>) {
    forall i, j :: 0 <= i < j < |bounds| ==> bounds[i].0 != bounds[j].0
  }

  predicate PortsOnce(envs: seq<SimEnv>) {
    forall i, j :: 0 <= i < j < |envs| ==> envs[i].port != envs[j].port
  }

  /** Each environment has bounds once, each port occurs once, and its environment has bounds. */
  predicate WellConfigured(bounds: seq<(int, Bounds)>, envs: seq<SimEnv>) {
    BoundsOnce(bounds) && PortsOnce(envs) && forall e <- envs :: HasBounds(bounds, e.environment)
  }

  /** The map holds exactly these bounds. */
  ghost predicate HoldsBounds(m: map<int, Bounds>, bounds: seq<(int, Bounds)>) {
    (forall k :: k in m <==> HasBounds(bounds, k)) && forall j :: 0 <= j < |bounds| ==>
      bounds[j].0 in m && m[bounds[j].0] == bounds[j].1
  }

  ghost predicate HoldsModems(m: map<int, SimEnv>, envs: seq<SimEnv>) {
    && (forall p <- m :: m[p] in envs && m[p].port == p)
    && (forall j :: 0 <= j < |envs| ==> envs[j].port in m && m[envs[j].port] == envs[j])
  }

  lemma {:induction false} OneMoreBound(m: map<int, Bounds>, bounds: seq<(int, Bounds)>, i: nat)
    requires i < |bounds| && HoldsBounds(m, bounds[..i]) && BoundsOnce(bounds[..i])
    ensures BoundsOnce(bounds[..i + 1]) <==> bounds[i].0 !in m
    ensures bounds[i].0 !in m ==> HoldsBounds(m[bounds[i].0 := bounds[i].1], bounds[..i + 1])
  {
    var before, after := bounds[..i], bounds[..i + 1];
    assert after == before + [bounds[i]];
    if HasBounds(before, bounds[i].0) {
      var j :| 0 <= j < i && before[j].0 == bounds[i].0;
      assert after[j].0 == after[i].0;
    }
    forall k ensures HasBounds(after, k) <==> HasBounds(before, k) || k == bounds[i].0 {
      if HasBounds(before, k) {
        var j :| 0 <= j < i && before[j].0 == k;
        assert after[j].0 == k;
      }
      assert after[i].0 == bounds[i].0;
    }
  }

  lemma {:induction false} OneMoreModem(m: map<int, SimEnv>, envs: seq<SimEnv>, i: nat)
    requires i < |envs| && HoldsModems(m, envs[..i]) && PortsOnce(envs[..i])
    ensures PortsOnce(envs[..i + 1]) <==> envs[i].port !in m
    ensures envs[i].port !in m ==> HoldsModems(m[envs[i].port := envs[i]], envs[..i + 1])
  {
    var before, after := envs[..i], envs[..i + 1];
    assert after == before + [envs[i]];
    if envs[i].port in m {
      var j :| 0 <= j < i && before[j] == m[envs[i].port];
      assert after[j].port == after[i].port;
    }
  }

  lemma {:induction false} NothingHeld(bounds: seq<(int, Bounds)>, envs: seq<SimEnv>)
    ensures HoldsBounds(map[], bounds[..0]) && BoundsOnce(bounds[..0])
    ensures HoldsModems(map[], envs[..0]) && PortsOnce(envs[..0])
  {
  }

  lemma {:induction false} RepeatsStay(bounds: seq<(int, Bounds)>, envs: seq<SimEnv>, i: nat)
    ensures i <= |bounds| && BoundsOnce(bounds) ==> BoundsOnce(bounds[..i])
    ensures i <= |envs| && PortsOnce(envs) ==> PortsOnce(envs[..i])
  {
  }

  function Check(bounds: map<int, Bounds>, envs: map<int, SimEnv>, from: string, nav: Nav): Status
    requires forall p <- envs :: envs[p].environment in bounds
  {
    if nav.port !in envs then InvalidPort
    else if from != envs[nav.port].address then InvalidAddress
    else
      if Within(bounds[envs[nav.port].environment], nav) then Accepted else OutOfRegion
  }

  /** The number of updates before the first one rejected. */
  function Passed(bounds: map<int, Bounds>, envs: map<int, SimEnv>, from: string, navs: seq<Nav>): (k: nat)
    requires forall p <- envs :: envs[p].environment in bounds
    ensures k <= |navs| && (k < |navs| ==> Check(bounds, envs, from, navs[k]) != Accepted)
    ensures forall i :: 0 <= i < k ==> Check(bounds, envs, from, navs[i]) == Accepted
  {
    if navs == [] || Check(bounds, envs, from, navs[0]) != Accepted then 0
    else 1 + Passed(bounds, envs, from, navs[1..])
  }

  function EventsOf(envs: map<int, SimEnv>, n: Nav): seq<Event>
    requires n.port in envs
  {
    if n.initialized then [NavUpdate(envs[n.port].environment, n), GpsLine(n)] else []
  }

  /** What passing on a sequence of updates publishes. */
  function Forwarded(envs: map<int, SimEnv>, navs: seq<Nav>): seq<Event>
    requires forall n <- navs :: n.port in envs
  {
    if navs == [] then []
    else
      var n := |navs| - 1;
      Forwarded(envs, navs[..n]) + EventsOf(envs, navs[n])
  }

  function StatsOf(stats: seq<int>): seq<Event> {
    seq(|stats|, i requires 0 <= i < |stats| => Stats(stats[i]))
  }

  lemma {:induction false} ForwardNone(envs: map<int, SimEnv>, navs: seq<Nav>)
    ensures Forwarded(envs, navs[..0]) == []
  {
  }

  lemma {:induction false} ForwardOne(envs: map<int, SimEnv>, navs: seq<Nav>, i: nat)
    requires i < |navs| && navs[i].port in envs && forall n <- navs[..i] :: n.port in envs
    ensures forall n <- navs[..i + 1] :: n.port in envs
    ensures Forwarded(envs, navs[..i + 1]) == Forwarded(envs, navs[..i]) + EventsOf(envs, navs[i])
  {
    assert navs[..i + 1] == navs[..i] + [navs[i]];
    assert navs[..i + 1][..i] == navs[..i];
  }

  predicate Within(b: Bounds, nav: Nav) {
    b.latMin <= nav.lat <= b.latMax && b.lonMin <= nav.lon <= b.lonMax && b.depthMin <= nav.depth <= b.depthMax
  }

  /** A published update belongs to a configured modem, goes to the environment of that modem and
      lies within its bounds. */
  predicate Legal(bounds: map<int, Bounds>, envs: map<int, SimEnv>, e: Event) {
    e.NavUpdate? ==>
      && e.nav.port in envs && e.environment == envs[e.nav.port].environment
      && e.environment in bounds && Within(bounds[e.environment], e.nav)
  }

  predicate AllLegal(bounds: map<int, Bounds>, envs: map<int, SimEnv>, log: seq<Event>) {
    forall e <- log :: Legal(bounds, envs, e)
  }

  lemma {:induction false} AppendLegal(bounds: map<int, Bounds>, envs: map<int, SimEnv>, a: seq<Event>, b: seq<Event>)
    ensures AllLegal(bounds, envs, a + b) <==> AllLegal(bounds, envs, a) && AllLegal(bounds, envs, b)
  {
    assert forall e :: e in a + b <==> e in a || e in b;
  }

  lemma {:induction false} ForwardedIsLegal(bounds: map<int, Bounds>, envs: map<int, SimEnv>, from: string,
                                            navs: seq<Nav>)
    requires forall p <- envs :: envs[p].environment in bounds
    requires forall n <- navs :: n.port in envs && Check(bounds, envs, from, n) == Accepted
    ensures AllLegal(bounds, envs, Forwarded(envs, navs))
    decreases |navs|
  {
    if navs != [] {
      ForwardedIsLegal(bounds, envs, from, navs[..|navs| - 1]);
    }
  }

  lemma {:induction false} RequestIsLegal(bounds: map<int, Bounds>, envs: map<int, SimEnv>, from: string,
                                          log: seq<Event>, navs: seq<Nav>, stats: seq<int>, response: Event)
    requires forall p <- envs :: envs[p].environment in bounds
    requires forall n <- navs :: n.port in envs && Check(bounds, envs, from, n) == Accepted
    requires AllLegal(bounds, envs, log) && response.Response?
    ensures AllLegal(bounds, envs, log + Forwarded(envs, navs) + StatsOf(stats) + [response])
  {
    ForwardedIsLegal(bounds, envs, from, navs);
    AppendLegal(bounds, envs, log, Forwarded(envs, navs));
    AppendLegal(bounds, envs, log + Forwarded(envs, navs), StatsOf(stats));
    AppendLegal(bounds, envs, log + Forwarded(envs, navs) + StatsOf(stats), [response]);
  }

  /** An update is accepted exactly if its modem is configured, the request comes from the address
      configured for that modem, and the position lies within the bounds of its environment; and
      each other answer has its own reason, the first that applies. */
  lemma {:induction false} AcceptedIff(bounds: map<int, Bounds>, envs: map<int, SimEnv>, from: string, nav: Nav)
    requires forall p <- envs :: envs[p].environment in bounds
    ensures Check(bounds, envs, from, nav) == InvalidPort <==> nav.port !in envs
    ensures Check(bounds, envs, from, nav) == InvalidAddress <==> nav.port in envs && envs[nav.port].address != from
    ensures Check(bounds, envs, from, nav) == Accepted <==>
      nav.port in envs && envs[nav.port].address == from &&
      var b := bounds[envs[nav.port].environment];
      && b.latMin <= nav.lat && nav.lat <= b.latMax && b.lonMin <= nav.lon && nav.lon <= b.lonMax
      && b.depthMin <= nav.depth && nav.depth <= b.depthMax
  {
  }

  function Initialized(navs: seq<Nav>): seq<Nav> {
    if navs == [] then []
    else
      var n := |navs| - 1;
      Initialized(navs[..n]) + if navs[n].initialized then [navs[n]] else []
  }

  /** Each initialized update goes out to the environment of its modem and then to its GPS line, in
      order; one that is not initialized is left out. */
  lemma {:induction false} ForwardedInOrder(envs: map<int, SimEnv>, navs: seq<Nav>)
    requires forall n <- navs :: n.port in envs
    ensures var f, sent := Forwarded(envs, navs), Initialized(navs);
      && (forall n <- sent :: n.port in envs) && |f| == 2 * |sent|
      && forall i :: 0 <= i < |sent| ==>
           f[2 * i] == NavUpdate(envs[sent[i].port].environment, sent[i]) && f[2 * i + 1] == GpsLine(sent[i])
    decreases |navs|
  {
    if navs != [] {
      var n := |navs| - 1;
      assert navs == navs[..n] + [navs[n]];
      ForwardedInOrder(envs, navs[..n]);
    }
  }

  /** The statistics are passed on one by one. */
  lemma {:induction false} StatsInOrder(stats: seq<int>)
    ensures |StatsOf(stats)| == |stats| && forall i :: 0 <= i < |stats| ==> StatsOf(stats)[i] == Stats(stats[i])
  {
  }

  class NetSimManager {
    var envBounds: map<int, Bounds>
    var envCfg: map<int, SimEnv>
    var log: seq<Event>

    constructor ()
      ensures envBounds == map[] && envCfg == map[] && log == []
    {
      envBounds, envCfg, log := map[], map[], [];
    }

    /** Every configured modem has bounds for its environment, so that looking them up is safe,
        and everything published so far is legal. */
    ghost predicate Valid() reads this {
      && (forall p <- envCfg :: envCfg[p].environment in envBounds && envCfg[p].port == p)
      && AllLegal(envBounds, envCfg, log)
    }

    /** Returns false where the program dies. */
    method ProcessConfiguration(bounds: seq<(int, Bounds)>, envs: seq<SimEnv>) returns (ok: bool)
      requires envBounds == map[] && envCfg == map[] && log == []
      modifies this`envBounds, this`envCfg
      ensures ok <==> WellConfigured(bounds, envs)
      ensures Valid() && (ok ==> HoldsBounds(envBounds, bounds) && HoldsModems(envCfg, envs))
    {
      hide BoundsOnce, PortsOnce, HasBounds;
      NothingHeld(bounds, envs);
      var i := 0;
      while i < |bounds|
        invariant i <= |bounds| && envCfg == map[] && HoldsBounds(envBounds, bounds[..i]) && BoundsOnce(bounds[..i])
      {
        OneMoreBound(envBounds, bounds, i);
        if bounds[i].0 in envBounds {
          RepeatsStay(bounds, envs, i + 1);
          return false;
        }
        envBounds := envBounds[bounds[i].0 := bounds[i].1];
        i := i + 1;
      }
      assert bounds[..i] == bounds;
      i := 0;
      while i < |envs|
        invariant i <= |envs| && HoldsBounds(envBounds, bounds) && BoundsOnce(bounds)
        invariant HoldsModems(envCfg, envs[..i]) && PortsOnce(envs[..i])
        invariant forall j :: 0 <= j < i ==> HasBounds(bounds, envs[j].environment)
      {
        OneMoreModem(envCfg, envs, i);
        if envs[i].port in envCfg {
          RepeatsStay(bounds, envs, i + 1);
          return false;
        }
        if envs[i].environment !in envBounds {
          assert !HasBounds(bounds, envs[i].environment);
          return false;
        }
        envCfg := envCfg[envs[i].port := envs[i]];
        i := i + 1;
      }
      assert envs[..i] == envs;
      return true;
    }

    /** Exactly the updates before the first rejected one are passed on; its reason, if there is
        one, is the answer. The statistics are passed on in any case. */
    method ProcessRequest(req: Request, from: string)
      requires Valid()
      modifies this`log
      ensures Valid()
      ensures var k := Passed(envBounds, envCfg, from, req.navs);
        var status := if k < |req.navs| then Check(envBounds, envCfg, from, req.navs[k]) else Accepted;
        && (forall n <- req.navs[..k] :: n.port in envCfg)
        && log == old(log) + Forwarded(envCfg, req.navs[..k]) + StatsOf(req.stats) + [Response(req.id, status)]
    {
      hide AllLegal, Forwarded, StatsOf, Passed;
      ForwardNone(envCfg, req.navs);
      var status := Accepted;
      var i := 0;
      ghost var k := Passed(envBounds, envCfg, from, req.navs);
      while i < |req.navs|
        invariant i <= k && status == Accepted && forall n <- req.navs[..i] :: n.port in envCfg
        invariant log == old(log) + Forwarded(envCfg, req.navs[..i])
      {
        var nav := req.navs[i];
        if nav.port !in envCfg {
          status := InvalidPort;
          break;
        }
        var cfg := envCfg[nav.port];
        if from != cfg.address {
          status := InvalidAddress;
          break;
        }
        var b := envBounds[cfg.environment];
        if nav.lat < b.latMin || nav.lat > b.latMax || nav.lon < b.lonMin || nav.lon > b.lonMax
          || nav.depth < b.depthMin || nav.depth > b.depthMax
        {
          status := OutOfRegion;
          break;
        }
        ForwardOne(envCfg, req.navs, i);
        if nav.initialized {
          log := log + [NavUpdate(cfg.environment, nav)];
          log := log + [GpsLine(nav)];
        }
        i := i + 1;
      }
      PublishStats(req.stats);
      log := log + [Response(req.id, status)];
      RequestIsLegal(envBounds, envCfg, from, old(log), req.navs[..i], req.stats, Response(req.id, status));
    }

    method PublishStats(stats: seq<int>)
      modifies this`log
      ensures log == old(log) + StatsOf(stats)
    {
      var j := 0;
      while j < |stats|
        invariant j <= |stats| && log == old(log) + StatsOf(stats[..j])
      {
        log := log + [Stats(stats[j])];
        j := j + 1;
      }
      assert stats[..j] == stats;
    }
  }
}
