/** netsim_udp over every run: conservation, release times, and what becomes of odd responses. */
module DelayLineTheorems {
  import opened Common
  import opened DelayLine

  // ---------------------------------------------------------------------------------------
  // Lookup tables
  // ---------------------------------------------------------------------------------------

  predicate Ascending(ids: seq<int>) {
    forall i, j :: 0 <= i < j < |ids| ==> ids[i] < ids[j]
  }

  lemma {:induction false} InsertIdKeepsOrder(ids: seq<int>, id: int)
    requires Ascending(ids)
    ensures Ascending(InsertId(ids, id))
    ensures forall x :: x in InsertId(ids, id) <==> x in ids || x == id
  {
    if ids != [] && id > ids[0] {
      InsertIdKeepsOrder(ids[1..], id);
      var r := InsertId(ids[1..], id);
      assert ids == [ids[0]] + ids[1..];
      forall k | 0 <= k < |r|
        ensures ids[0] < r[k]
      {
        assert r[k] in r;
      }
    }
  }

  /** The first modem of the list for which the function gives this key. */
  function FirstWith(modems: seq<Modem>, key: Modem -> string, k: string): int {
    if modems == [] then -1
    else if key(modems[0]) == k then 0
    else
      var r := FirstWith(modems[1..], key, k);
      if r < 0 then r else r + 1
  }

  lemma {:induction false} FirstWithSnoc(modems: seq<Modem>, m: Modem, key: Modem -> string, k: string)
    ensures -1 <= FirstWith(modems, key, k) < |modems|
    ensures FirstWith(modems + [m], key, k)
         == if FirstWith(modems, key, k) >= 0 then FirstWith(modems, key, k)
            else if key(m) == k then |modems| else -1
  {
    if modems != [] {
      assert (modems + [m])[1..] == modems[1..] + [m];
      FirstWithSnoc(modems[1..], m, key, k);
    } else {
      assert modems + [m] == [m];
    }
  }

  function EndpointOf(m: Modem): string { m.endpoint }

  function PortOf(m: Modem): string { m.port }

  /** In both tables a key leads to the first modem configured with it, and the id list holds
      every configured id once. */
  lemma {:induction false} TablesHoldFirstModems(modems: seq<Modem>, k: string)
    ensures var t := TablesOf(modems);
      && Ascending(t.ids) && (forall x :: x in t.ids <==> exists i :: 0 <= i < |modems| && modems[i].id == x)
      && var e, p := FirstWith(modems, EndpointOf, k), FirstWith(modems, PortOf, k);
      && -1 <= e < |modems| && -1 <= p < |modems|
      && (k in t.byEndpoint <==> e >= 0) && (e >= 0 ==> t.byEndpoint[k] == modems[e].id)
      && (k in t.byPort <==> p >= 0) && (p >= 0 ==> t.byPort[k] == modems[p].id)
    decreases |modems|
  {
    if modems != [] {
      var init, m := modems[..|modems| - 1], modems[|modems| - 1];
      assert modems == init + [m];
      TablesHoldFirstModems(init, k);
      FirstWithSnoc(init, m, EndpointOf, k);
      FirstWithSnoc(init, m, PortOf, k);
      InsertIdKeepsOrder(TablesOf(init).ids, m.id);
      forall x
        ensures x in TablesOf(modems).ids <==> exists i :: 0 <= i < |modems| && modems[i].id == x
      {
        if x in TablesOf(init).ids {
          var i :| 0 <= i < |init| && init[i].id == x;
          assert modems[i].id == x;
        } else if x == m.id {
          assert modems[|modems| - 1].id == x;
        }
      }
    }
  }

  // ---------------------------------------------------------------------------------------
  // What a datagram becomes
  // ---------------------------------------------------------------------------------------

  lemma {:induction false} CopyMembers(ids: seq<int>, src: int, msg: Message)
    ensures forall c :: c in CopiesTo(ids, src, msg) <==> c.src == src && c.msg == msg && c.dest in ids && c.dest != src
  {
    if ids != [] {
      CopyMembers(ids[1..], src, msg);
      assert ids == [ids[0]] + ids[1..];
    }
  }

  predicate DestsAscend(cs: seq<Copy>) {
    forall i, j :: 0 <= i < j < |cs| ==> cs[i].dest < cs[j].dest
  }

  lemma {:induction false} AscendCons(c: Copy, cs: seq<Copy>)
    requires DestsAscend(cs) && forall x <- cs :: c.dest < x.dest
    ensures DestsAscend([c] + cs)
  {
  }

  lemma {:induction false} CopiesAscend(ids: seq<int>, src: int, msg: Message)
    requires Ascending(ids)
    ensures DestsAscend(CopiesTo(ids, src, msg))
  {
    hide DestsAscend;
    if ids != [] {
      CopiesAscend(ids[1..], src, msg);
      CopyMembers(ids[1..], src, msg);
      var rest := CopiesTo(ids[1..], src, msg);
      assert forall x <- ids[1..] :: ids[0] < x;
      if ids[0] != src {
        AscendCons(Copy(src, ids[0], msg), rest);
      }
    } else {
      NoneAscend();
    }
  }

  lemma {:induction false} NoneAscend()
    ensures DestsAscend([])
  {
  }

  lemma {:induction false} CopiesCount(ids: seq<int>, src: int, msg: Message)
    requires Ascending(ids)
    ensures |CopiesTo(ids, src, msg)| == |ids| - if src in ids then 1 else 0
  {
    if ids != [] {
      CopiesCount(ids[1..], src, msg);
      assert ids[0] !in ids[1..];
      assert src in ids <==> src == ids[0] || src in ids[1..];
    }
  }

  lemma {:induction false} CopiesToAllOthers(ids: seq<int>, src: int, msg: Message)
    requires Ascending(ids)
    ensures var cs := CopiesTo(ids, src, msg);
      && |cs| == |ids| - (if src in ids then 1 else 0)
      && (forall c :: c in cs ==> c.src == src && c.msg == msg && c.dest in ids && c.dest != src)
      && (forall id :: id in ids && id != src ==> Copy(src, id, msg) in cs)
      && (forall i, j :: 0 <= i < j < |cs| ==> cs[i].dest < cs[j].dest)
  {
    hide CopiesTo, Ascending;
    CopyMembers(ids, src, msg);
    CopiesCount(ids, src, msg);
    CopiesAscend(ids, src, msg);
  }

  /** A broadcast that is not an acknowledgment becomes exactly one copy for each configured modem
      but its sender: |modems| - 1 copies. */
  lemma {:induction false} BroadcastGoesToAllOthers(cfg: Config, endpoint: string, msg: Message)
    requires msg.kind != ACK && (cfg.sendAll || msg.dest == cfg.broadcastId)
    requires FirstWith(cfg.modems, EndpointOf, endpoint) >= 0
    ensures FirstWith(cfg.modems, EndpointOf, endpoint) < |cfg.modems|
    ensures var ids := TablesOf(cfg.modems).ids; var src := cfg.modems[FirstWith(cfg.modems, EndpointOf, endpoint)].id;
      var cs := CopiesFor(cfg, endpoint, msg);
      && |cs| == |ids| - 1
      && (forall c :: c in cs <==> c.src == src && c.msg == msg && c.dest != src && c.dest in ids)
      && (forall i, j :: 0 <= i < j < |cs| ==> cs[i].dest < cs[j].dest)
  {
    TablesHoldFirstModems(cfg.modems, endpoint);
    var t := TablesOf(cfg.modems);
    var src := t.byEndpoint[endpoint];
    CopiesToAllOthers(t.ids, src, msg);
    forall c: Copy | c.src == src && c.msg == msg && c.dest != src && c.dest in t.ids
      ensures c in CopiesFor(cfg, endpoint, msg)
    {
      assert c == Copy(src, c.dest, msg);
    }
  }

  /** What a datagram does: from an unknown endpoint nothing; to one destination, which includes an
      acknowledgment to any, one copy from the sender to that modem if it is configured. */
  lemma {:induction false} DatagramToOneModem(cfg: Config, s: State, endpoint: string, msg: Message)
    requires msg.kind == ACK || (!cfg.sendAll && msg.dest != cfg.broadcastId)
    ensures FirstWith(cfg.modems, EndpointOf, endpoint) < |cfg.modems|
    ensures var i := FirstWith(cfg.modems, EndpointOf, endpoint);
      var known := exists j :: 0 <= j < |cfg.modems| && cfg.modems[j].id == msg.dest;
      Receive(cfg, s, endpoint, msg)
        == if i >= 0 && known then s.(forward := s.forward + [Copy(cfg.modems[i].id, msg.dest, msg)]) else s
  {
    TablesHoldFirstModems(cfg.modems, endpoint);
    hide TablesOf, CopiesTo, FirstWith;
    assert s.forward + [] == s.forward;
  }

  lemma {:induction false} DatagramFromNowhere(cfg: Config, s: State, endpoint: string, msg: Message)
    requires FirstWith(cfg.modems, EndpointOf, endpoint) < 0
    ensures Receive(cfg, s, endpoint, msg) == s
  {
    TablesHoldFirstModems(cfg.modems, endpoint);
    hide TablesOf, CopiesTo, FirstWith;
    assert s.forward + [] == s.forward;
  }

  // ---------------------------------------------------------------------------------------
  // The delay buffer
  // ---------------------------------------------------------------------------------------

  predicate Sorted(d: seq<Entry>) {
    forall i, j :: 0 <= i < j < |d| ==> d[i].time <= d[j].time
  }

  /** The entries of one key, in order. */
  function Keyed(d: seq<Entry>, t: int): seq<Entry> {
    if d == [] then [] else if d[0].time == t then [d[0]] + Keyed(d[1..], t) else Keyed(d[1..], t)
  }

  lemma {:induction false} KeyedConcat(a: seq<Entry>, b: seq<Entry>, t: int)
    ensures Keyed(a + b, t) == Keyed(a, t) + Keyed(b, t)
  {
    if a == [] {
      assert a + b == b;
    } else {
      assert (a + b)[1..] == a[1..] + b;
      KeyedConcat(a[1..], b, t);
    }
  }

  lemma {:induction false} KeyedNone(d: seq<Entry>, t: int)
    requires forall e :: e in d ==> e.time != t
    ensures Keyed(d, t) == []
  {
    if d != [] {
      assert d[0] in d;
      KeyedNone(d[1..], t);
    }
  }

  lemma {:induction false} UpperBoundSplits(d: seq<Entry>, t: int)
    requires Sorted(d)
    ensures var n := UpperBound(d, t);
      && (forall i :: 0 <= i < n ==> d[i].time <= t)
      && (forall i :: n <= i < |d| ==> d[i].time > t)
  {
    if d != [] && d[0].time <= t {
      UpperBoundSplits(d[1..], t);
      var n := UpperBound(d[1..], t);
      assert forall i :: 1 <= i < |d| ==> d[i] == d[1..][i - 1];
    }
  }

  /** Inserting keeps the order of times, and puts the entry last among those of its own time. */
  lemma {:induction false} InsertKeepsOrder(d: seq<Entry>, e: Entry, t: int)
    requires Sorted(d)
    ensures Sorted(InsertEntry(d, e))
    ensures Keyed(InsertEntry(d, e), t) == Keyed(d, t) + if e.time == t then [e] else []
    ensures multiset(InsertEntry(d, e)) == multiset(d) + multiset{e}
  {
    hide Keyed, UpperBound;
    var n := UpperBound(d, e.time);
    UpperBoundSplits(d, e.time);
    var a, b := d[..n], d[n..];
    assert d == a + b && InsertEntry(d, e) == a + [e] + b;
    InsertKeyed(a, b, e, t);
  }

  lemma {:induction false} InsertKeyed(a: seq<Entry>, b: seq<Entry>, e: Entry, t: int)
    requires forall x :: x in b ==> x.time > e.time
    ensures Keyed(a + [e] + b, t) == Keyed(a + b, t) + if e.time == t then [e] else []
  {
    KeyedConcat(a, b, t);
    KeyedConcat(a + [e], b, t);
    KeyedConcat(a, [e], t);
    assert [e][1..] == [];
    assert Keyed([e], t) == if e.time == t then [e] else [];
    if e.time == t {
      KeyedNone(b, t);
    }
  }

  /** A tick releases exactly the entries keyed at or before now, in order of their times and, among
      equal times, of their insertion; the rest stay as they were. */
  lemma {:induction false} TickReleasesWhatIsDue(s: State, now: int, t: int)
    requires Sorted(s.delay)
    ensures var u := Tick(s, now);
      && s.released <= u.released
      && var out := u.released[|s.released|..];
      && s.delay == out + u.delay && Sorted(out) && Sorted(u.delay)
      && (forall e :: e in out ==> e.time <= now) && (forall e :: e in u.delay ==> e.time > now)
      && Keyed(out, t) == (if t <= now then Keyed(s.delay, t) else [])
  {
    hide Keyed, UpperBound;
    var n := UpperBound(s.delay, now);
    UpperBoundSplits(s.delay, now);
    assert s.delay == s.delay[..n] + s.delay[n..];
    assert Tick(s, now).released[|s.released|..] == s.delay[..n];
    KeysUpTo(s.delay[..n], s.delay[n..], now, t);
  }

  lemma {:induction false} KeysUpTo(a: seq<Entry>, b: seq<Entry>, now: int, t: int)
    requires (forall e :: e in a ==> e.time <= now) && (forall e :: e in b ==> e.time > now)
    ensures Keyed(a, t) == if t <= now then Keyed(a + b, t) else []
  {
    KeyedConcat(a, b, t);
    if t <= now {
      KeyedNone(b, t);
    } else {
      KeyedNone(a, t);
    }
  }

  // ---------------------------------------------------------------------------------------
  // Travel time
  // ---------------------------------------------------------------------------------------

  lemma {:induction false} NoLouderRay(rays: seq<Ray>, maxAmp: real, delay: real)
    requires forall i :: 0 <= i < |rays| ==> Abs(rays[i].amplitude) <= maxAmp
    ensures Arrival(rays, maxAmp, delay) == delay
  {
    if rays != [] {
      NoLouderRay(rays[1..], maxAmp, delay);
    }
  }

  lemma {:induction false} LoudestRay(rays: seq<Ray>, k: nat, maxAmp: real, delay: real)
    requires FirstStrongest(rays, k) && Abs(rays[k].amplitude) > maxAmp
    ensures Arrival(rays, maxAmp, delay) == rays[k].delay
  {
    var a := Abs(rays[0].amplitude);
    var rest := rays[1..];
    if k == 0 {
      NoLouderRay(rest, a, rays[0].delay);
    } else {
      assert rest[k - 1] == rays[k] && FirstStrongest(rest, k - 1);
      if a > maxAmp {
        LoudestRay(rest, k - 1, a, rays[0].delay);
      } else {
        LoudestRay(rest, k - 1, maxAmp, delay);
      }
    }
  }

  /** The first arrival is the delay of the first ray of largest absolute amplitude. */
  lemma {:induction false} FirstArrivalOfLoudestRay(rays: seq<Ray>, k: nat, uninit: real)
    requires FirstStrongest(rays, k) && !AllSilent(rays)
    ensures Arrival(rays, 0.0, uninit) == rays[k].delay
  {
    var i :| 0 <= i < |rays| && rays[i].amplitude != 0.0;
    assert Abs(rays[i].amplitude) > 0.0;
    LoudestRay(rays, k, 0.0, uninit);
  }

  /** The uninitialised variable shows through exactly when every amplitude is zero. */
  lemma {:induction false} ArrivalIsDefinedIff(rays: seq<Ray>)
    ensures (forall u, v :: Arrival(rays, 0.0, u) == Arrival(rays, 0.0, v)) <==> !AllSilent(rays)
  {
    if AllSilent(rays) {
      NoLouderRay(rays, 0.0, 1.0);
      NoLouderRay(rays, 0.0, 2.0);
      assert Arrival(rays, 0.0, 1.0) != Arrival(rays, 0.0, 2.0);
    } else {
      var i :| 0 <= i < |rays| && rays[i].amplitude != 0.0;
      var k := StrongestExists(rays);
      forall u, v
        ensures Arrival(rays, 0.0, u) == Arrival(rays, 0.0, v)
      {
        FirstArrivalOfLoudestRay(rays, k, u);
        FirstArrivalOfLoudestRay(rays, k, v);
      }
    }
  }

  lemma {:induction false} StrongestExists(rays: seq<Ray>) returns (k: nat)
    requires rays != []
    ensures FirstStrongest(rays, k)
  {
    if |rays| == 1 {
      k := 0;
    } else {
      var n := |rays| - 1;
      var j := StrongestExists(rays[..n]);
      k := if Abs(rays[n].amplitude) > Abs(rays[j].amplitude) then n else j;
    }
  }

  // ---------------------------------------------------------------------------------------
  // Responses: which are ignored, which throw
  // ---------------------------------------------------------------------------------------

  /** A response is meant to be ignored when its source or its receiver is not configured. In fact
      an unknown receiver with a known source throws, and a known receiver is ignored as well if
      its modem id is 0. */
  lemma {:induction false} ResponseOutcome(cfg: Config, r: Response)
    ensures var a, b := FirstWith(cfg.modems, PortOf, r.source), FirstWith(cfg.modems, PortOf, r.receiver);
      && b < |cfg.modems|
      && (OutcomeOf(cfg, r) == Threw <==> a >= 0 && b < 0)
      && (OutcomeOf(cfg, r) == Ignored <==> a < 0 || (b >= 0 && cfg.modems[b].id == 0))
  {
    TablesHoldFirstModems(cfg.modems, r.source);
    TablesHoldFirstModems(cfg.modems, r.receiver);
  }

  lemma {:induction false} NotOfKeepsOthers(cs: seq<Copy>, src: int, dest: int, src': int, dest': int)
    ensures Of(NotOf(cs, src, dest), src', dest') == if src' == src && dest' == dest then [] else Of(cs, src', dest')
  {
    if cs != [] {
      NotOfKeepsOthers(cs[1..], src, dest, src', dest');
    }
  }

  /** A processed response leaves nothing waiting for its pair and touches no other pair; any other
      response changes nothing. */
  lemma {:induction false} ResponseEmptiesItsPair(cfg: Config, s: State, r: Response, draws: Draws, uninit: real,
                                                  src: int, dest: int)
    requires OutcomeOf(cfg, r) == Processed ==> |draws.coins| == |WaitingFor(cfg, s, r)|
    ensures var u := Respond(cfg, s, r, draws, uninit); var t := TablesOf(cfg.modems);
      if OutcomeOf(cfg, r) == Processed then
        Of(u.forward, src, dest)
        == if src == t.byPort[r.source] && dest == t.byPort[r.receiver] then [] else Of(s.forward, src, dest)
      else u == s
  {
    if OutcomeOf(cfg, r) == Processed {
      var t := TablesOf(cfg.modems);
      NotOfKeepsOthers(s.forward, t.byPort[r.source], t.byPort[r.receiver], src, dest);
    }
  }

  // ---------------------------------------------------------------------------------------
  // Every run
  // ---------------------------------------------------------------------------------------

  datatype Event = Datagram(endpoint: string, msg: Message) | Heard(r: Response, draws: Draws, uninit: real)
    | TickAt(now: int)

  predicate Allowed(cfg: Config, s: State, e: Event) {
    match e
    case Heard(r, draws, _) => OutcomeOf(cfg, r) == Processed ==> |draws.coins| == |WaitingFor(cfg, s, r)|
    case _ => true
  }

  function Next(cfg: Config, s: State, e: Event): State
    requires Allowed(cfg, s, e)
  {
    match e
    case Datagram(endpoint, msg) => Receive(cfg, s, endpoint, msg)
    case Heard(r, draws, uninit) => Respond(cfg, s, r, draws, uninit)
    case TickAt(now) => Tick(s, now)
  }

  /** Datagrams and ticks are possible at any time, and any response, given a coin for each copy
      that waits for it. */
  lemma {:induction false} AnyEventIsAllowed(cfg: Config, s: State, r: Response, outlier: real, uninit: real)
    ensures forall endpoint, msg :: Allowed(cfg, s, Datagram(endpoint, msg))
    ensures forall now :: Allowed(cfg, s, TickAt(now))
    ensures exists coins :: Allowed(cfg, s, Heard(r, Draws(outlier, coins), uninit))
  {
    var coins := if OutcomeOf(cfg, r) == Processed then seq(|WaitingFor(cfg, s, r)|, _ => true) else [];
    assert Allowed(cfg, s, Heard(r, Draws(outlier, coins), uninit));
  }

  function Accepted(cfg: Config, e: Event): seq<Copy> {
    if e.Datagram? then CopiesFor(cfg, e.endpoint, e.msg) else []
  }

  function CopiesIn(d: seq<Entry>): seq<Copy> {
    seq(|d|, i requires 0 <= i < |d| => d[i].copy)
  }

  /** Every copy the system holds or has disposed of, with multiplicity. */
  function Holdings(s: State): multiset<Copy> {
    multiset(s.forward) + multiset(CopiesIn(s.delay)) + multiset(CopiesIn(s.released))
    + multiset(s.dropped) + multiset(s.discarded)
  }

  /** The elements of a sequence that are marked, in order. */
  function Chosen<T>(xs: seq<T>, marked: seq<bool>): seq<T>
    requires |xs| == |marked|
  {
    if xs == [] then [] else (if marked[0] then [xs[0]] else []) + Chosen(xs[1..], marked[1..])
  }

  function Not(marked: seq<bool>): (r: seq<bool>)
    ensures |r| == |marked|
  {
    seq(|marked|, i requires 0 <= i < |marked| => !marked[i])
  }

  /** The copies from src to dest. */
  function Between(cs: seq<Copy>, src: int, dest: int): seq<bool> {
    seq(|cs|, i requires 0 <= i < |cs| => cs[i].src == src && cs[i].dest == dest)
  }

  lemma {:induction false} OfIsChosen(cs: seq<Copy>, src: int, dest: int)
    ensures Of(cs, src, dest) == Chosen(cs, Between(cs, src, dest))
    ensures NotOf(cs, src, dest) == Chosen(cs, Not(Between(cs, src, dest)))
  {
    if cs != [] {
      OfIsChosen(cs[1..], src, dest);
      assert Between(cs, src, dest)[1..] == Between(cs[1..], src, dest);
      assert Not(Between(cs, src, dest))[1..] == Not(Between(cs[1..], src, dest));
    }
  }

  /** Which copies get through: all, or those whose coin says so. */
  function Successes(cfg: Config, coins: seq<bool>): (r: seq<bool>)
    ensures |r| == |coins|
  {
    seq(|coins|, i requires 0 <= i < |coins| => cfg.allSucceed || coins[i])
  }

  /** The delay buffer entries of copies that share a travel time. */
  function EntriesOf(cfg: Config, cs: seq<Copy>, owtt: real): seq<Entry> {
    seq(|cs|, i requires 0 <= i < |cs| => Entry(cs[i].msg.time + cfg.toMicros(owtt), cs[i], owtt))
  }

  lemma {:induction false} ChosenCons(cfg: Config, cs: seq<Copy>, coins: seq<bool>)
    requires |coins| == |cs| && cs != []
    ensures var ok, later := Successes(cfg, coins), Successes(cfg, coins[1..]);
      if cfg.allSucceed || coins[0] then
        Chosen(cs, ok) == [cs[0]] + Chosen(cs[1..], later) && Chosen(cs, Not(ok)) == Chosen(cs[1..], Not(later))
      else
        Chosen(cs, ok) == Chosen(cs[1..], later) && Chosen(cs, Not(ok)) == [cs[0]] + Chosen(cs[1..], Not(later))
  {
    var ok := Successes(cfg, coins);
    assert ok[1..] == Successes(cfg, coins[1..]) && Not(ok)[1..] == Not(ok[1..]);
    var a, b := Chosen(cs[1..], ok[1..]), Chosen(cs[1..], Not(ok)[1..]);
    assert [] + a == a && [] + b == b;
  }

  lemma {:induction false} NothingChosen(cfg: Config, s: State, owtt: real, t: int)
    ensures var none: seq<bool> := []; var cs: seq<Copy> := [];
      && s.dropped + Chosen(cs, Not(Successes(cfg, none))) == s.dropped
      && Keyed(s.delay, t) + Keyed(EntriesOf(cfg, Chosen(cs, Successes(cfg, none)), owtt), t) == Keyed(s.delay, t)
      && Dispatch(cfg, s, cs, owtt, none) == s
  {
    var cs: seq<Copy> := [];
    assert EntriesOf(cfg, cs, owtt) == [] && Keyed([], t) == [];
    assert s.dropped + [] == s.dropped && Keyed(s.delay, t) + [] == Keyed(s.delay, t);
  }

  lemma {:induction false} DispatchSettles(cfg: Config, s: State, cs: seq<Copy>, owtt: real, coins: seq<bool>, t: int)
    requires |coins| == |cs| && Sorted(s.delay)
    ensures var u := Dispatch(cfg, s, cs, owtt, coins); var ok := Successes(cfg, coins);
      && u.dropped == s.dropped + Chosen(cs, Not(ok)) && u.discarded == s.discarded
      && Keyed(u.delay, t) == Keyed(s.delay, t) + Keyed(EntriesOf(cfg, Chosen(cs, ok), owtt), t)
    decreases |cs|
  {
    hide InsertEntry, Sorted, Keyed, EntriesOf, Chosen, Not, Successes;
    if cs == [] {
      NothingChosen(cfg, s, owtt, t);
    } else {
      ChosenCons(cfg, cs, coins);
      var later := Successes(cfg, coins[1..]);
      if cfg.allSucceed || coins[0] {
        var e := Delayed(cfg, cs[0], owtt);
        InsertKeepsOrder(s.delay, e, t);
        DispatchSettles(cfg, s.(delay := InsertEntry(s.delay, e)), cs[1..], owtt, coins[1..], t);
        EntriesCons(cfg, cs[0], Chosen(cs[1..], later), owtt, t);
        ConcatAssoc(Keyed(s.delay, t), if e.time == t then [e] else [],
                    Keyed(EntriesOf(cfg, Chosen(cs[1..], later), owtt), t));
      } else {
        DispatchSettles(cfg, s.(dropped := s.dropped + [cs[0]]), cs[1..], owtt, coins[1..], t);
        ConcatAssoc(s.dropped, [cs[0]], Chosen(cs[1..], Not(later)));
      }
    }
  }

  lemma {:induction false} EntriesCons(cfg: Config, c: Copy, cs: seq<Copy>, owtt: real, t: int)
    ensures var e := Delayed(cfg, c, owtt);
      Keyed(EntriesOf(cfg, [c] + cs, owtt), t) == (if e.time == t then [e] else []) + Keyed(EntriesOf(cfg, cs, owtt), t)
  {
    assert EntriesOf(cfg, [c] + cs, owtt)[1..] == EntriesOf(cfg, cs, owtt);
  }

  /** What a processed response does to the waiting copies of its pair: without rays all of them are
      discarded; with rays, those whose coin says so are dropped, and the others enter the delay
      buffer, keyed by their send time plus the travel time, behind what was there for that time;
      all in the order in which they came. The copies of other pairs go on waiting. */
  lemma {:induction false} ResponseSettlesCopies(cfg: Config, s: State, r: Response, draws: Draws, uninit: real, t: int)
    requires OutcomeOf(cfg, r) == Processed && |draws.coins| == |WaitingFor(cfg, s, r)| && Sorted(s.delay)
    ensures r.source in TablesOf(cfg.modems).byPort && r.receiver in TablesOf(cfg.modems).byPort
    ensures var byPort := TablesOf(cfg.modems).byPort;
      var pair := Between(s.forward, byPort[r.source], byPort[r.receiver]); var cs := Chosen(s.forward, pair);
      var u := Respond(cfg, s, r, draws, uninit); var ok := Successes(cfg, draws.coins);
      var owtt := Arrival(r.rays, 0.0, uninit) + draws.outlier;
      && |cs| == |draws.coins| && u.forward == Chosen(s.forward, Not(pair)) && u.released == s.released
      && if r.rays == [] then u.discarded == s.discarded + cs && u.delay == s.delay && u.dropped == s.dropped
         else
           && u.discarded == s.discarded && u.dropped == s.dropped + Chosen(cs, Not(ok))
           && Keyed(u.delay, t) == Keyed(s.delay, t) + Keyed(EntriesOf(cfg, Chosen(cs, ok), owtt), t)
  {
    hide Dispatch, Of, NotOf, Chosen, TablesOf, Sorted, Keyed, EntriesOf, Successes, Arrival, Not, Between;
    var byPort := TablesOf(cfg.modems).byPort;
    OfIsChosen(s.forward, byPort[r.source], byPort[r.receiver]);
    if r.rays != [] {
      var owtt := Arrival(r.rays, 0.0, uninit) + draws.outlier;
      DispatchSettles(cfg, s, WaitingFor(cfg, s, r), owtt, draws.coins, t);
      DispatchReleasesNothing(cfg, s, WaitingFor(cfg, s, r), owtt, draws.coins);
    }
  }

  lemma {:induction false} SplitByPair(cs: seq<Copy>, src: int, dest: int)
    ensures multiset(cs) == multiset(Of(cs, src, dest)) + multiset(NotOf(cs, src, dest))
  {
    if cs != [] {
      assert cs == [cs[0]] + cs[1..];
      SplitByPair(cs[1..], src, dest);
    }
  }

  lemma {:induction false} InsertAddsCopy(d: seq<Entry>, e: Entry)
    ensures multiset(CopiesIn(InsertEntry(d, e))) == multiset(CopiesIn(d)) + multiset{e.copy}
  {
    var n := UpperBound(d, e.time);
    assert CopiesIn(d) == CopiesIn(d)[..n] + CopiesIn(d)[n..];
    assert CopiesIn(InsertEntry(d, e)) == CopiesIn(d)[..n] + [e.copy] + CopiesIn(d)[n..];
  }

  lemma {:induction false} DispatchConserves(cfg: Config, s: State, cs: seq<Copy>, owtt: real, coins: seq<bool>)
    requires |coins| == |cs|
    ensures var u := Dispatch(cfg, s, cs, owtt, coins);
      && multiset(CopiesIn(u.delay)) + multiset(u.dropped)
         == multiset(CopiesIn(s.delay)) + multiset(s.dropped) + multiset(cs)
      && u.forward == s.forward && u.released == s.released && u.discarded == s.discarded
    decreases |cs|
  {
    hide InsertEntry, CopiesIn;
    if cs != [] {
      var t := if cfg.allSucceed || coins[0] then s.(delay := InsertEntry(s.delay, Delayed(cfg, cs[0], owtt)))
               else s.(dropped := s.dropped + [cs[0]]);
      InsertAddsCopy(s.delay, Delayed(cfg, cs[0], owtt));
      DispatchConserves(cfg, t, cs[1..], owtt, coins[1..]);
      assert cs == [cs[0]] + cs[1..];
      assert multiset(cs) == multiset{cs[0]} + multiset(cs[1..]);
    }
  }

  /** No step loses or duplicates a copy: the accepted copies are added, the rest only move. */
  lemma {:induction false} StepConserves(cfg: Config, s: State, e: Event)
    requires Allowed(cfg, s, e)
    ensures Holdings(Next(cfg, s, e)) == Holdings(s) + multiset(Accepted(cfg, e))
  {
    match e {
      case Datagram(endpoint, msg) =>
      case TickAt(now) =>
        TickConserves(s, now);
      case Heard(r, draws, uninit) =>
        if OutcomeOf(cfg, r) == Processed {
          ResponseConserves(cfg, s, r, draws, uninit);
        }
    }
  }

  lemma {:induction false} CopiesConcat(a: seq<Entry>, b: seq<Entry>)
    ensures CopiesIn(a + b) == CopiesIn(a) + CopiesIn(b)
  {
  }

  lemma {:induction false} TickConserves(s: State, now: int)
    ensures Holdings(Tick(s, now)) == Holdings(s)
  {
    hide CopiesIn, UpperBound;
    var n := UpperBound(s.delay, now);
    assert s.delay == s.delay[..n] + s.delay[n..];
    CopiesConcat(s.delay[..n], s.delay[n..]);
    CopiesConcat(s.released, s.delay[..n]);
  }

  lemma {:induction false} ResponseConserves(cfg: Config, s: State, r: Response, draws: Draws, uninit: real)
    requires OutcomeOf(cfg, r) == Processed && |draws.coins| == |WaitingFor(cfg, s, r)|
    ensures Holdings(Respond(cfg, s, r, draws, uninit)) == Holdings(s)
  {
    hide Of, NotOf, Dispatch, CopiesIn, Holdings, TablesOf, Arrival;
    var t := TablesOf(cfg.modems);
    var src, dest := t.byPort[r.source], t.byPort[r.receiver];
    var cs := WaitingFor(cfg, s, r);
    SplitByPair(s.forward, src, dest);
    var owtt := Arrival(r.rays, 0.0, uninit) + draws.outlier;
    var u := Respond(cfg, s, r, draws, uninit);
    if r.rays == [] {
      assert multiset(s.discarded + cs) == multiset(s.discarded) + multiset(cs);
    } else {
      DispatchConserves(cfg, s, cs, owtt, draws.coins);
    }
    MoveOut(multiset(s.forward), multiset(u.forward), multiset(cs), multiset(CopiesIn(s.released)),
      multiset(CopiesIn(s.delay)) + multiset(s.dropped) + multiset(s.discarded),
      multiset(CopiesIn(u.delay)) + multiset(u.dropped) + multiset(u.discarded));
    Regroup(s);
    Regroup(u);
  }

  lemma {:induction false} Regroup(s: State)
    ensures Holdings(s) == multiset(s.forward) + multiset(CopiesIn(s.released))
      + (multiset(CopiesIn(s.delay)) + multiset(s.dropped) + multiset(s.discarded))
  {
  }

  lemma {:induction false} MoveOut(f: multiset<Copy>, f': multiset<Copy>, moved: multiset<Copy>, r: multiset<Copy>,
                                   d: multiset<Copy>, d': multiset<Copy>)
    requires f == moved + f' && d' == d + moved
    ensures f' + r + d' == f + r + d
  {
  }

  /** Each delayed copy is keyed by its send time plus its travel time. */
  predicate KeyedByTravel(cfg: Config, d: seq<Entry>) {
    forall e :: e in d ==> e.time == e.copy.msg.time + cfg.toMicros(e.owtt)
  }

  predicate DelayInv(cfg: Config, s: State) {
    Sorted(s.delay) && KeyedByTravel(cfg, s.delay) && KeyedByTravel(cfg, s.released)
  }

  lemma {:induction false} InsertMembers(d: seq<Entry>, e: Entry)
    ensures forall x :: x in InsertEntry(d, e) ==> x in d || x == e
  {
    hide UpperBound;
  }

  lemma {:induction false} DispatchKeepsOrder(cfg: Config, s: State, cs: seq<Copy>, owtt: real, coins: seq<bool>)
    requires |coins| == |cs| && DelayInv(cfg, s)
    ensures DelayInv(cfg, Dispatch(cfg, s, cs, owtt, coins))
    decreases |cs|
  {
    hide Keyed, InsertEntry, UpperBound, Sorted;
    if cs != [] {
      var e := Delayed(cfg, cs[0], owtt);
      InsertKeepsOrder(s.delay, e, 0);
      InsertMembers(s.delay, e);
      var t := if cfg.allSucceed || coins[0] then s.(delay := InsertEntry(s.delay, e))
        else s.(dropped := s.dropped + [cs[0]]);
      DispatchKeepsOrder(cfg, t, cs[1..], owtt, coins[1..]);
    }
  }

  lemma {:induction false} StepKeepsDelayInv(cfg: Config, s: State, e: Event)
    requires Allowed(cfg, s, e) && DelayInv(cfg, s)
    ensures DelayInv(cfg, Next(cfg, s, e))
  {
    if e.Heard? && OutcomeOf(cfg, e.r) == Processed && e.r.rays != [] {
      DispatchKeepsOrder(cfg, s, WaitingFor(cfg, s, e.r), Arrival(e.r.rays, 0.0, e.uninit) + e.draws.outlier,
                         e.draws.coins);
    }
  }

  ghost predicate Runs(cfg: Config, s: State, es: seq<Event>)
    decreases |es|
  {
    es == [] || (Allowed(cfg, s, es[0]) && Runs(cfg, Next(cfg, s, es[0]), es[1..]))
  }

  ghost function After(cfg: Config, s: State, es: seq<Event>): State
    requires Runs(cfg, s, es)
    decreases |es|
  {
    if es == [] then s else After(cfg, Next(cfg, s, es[0]), es[1..])
  }

  function AllAccepted(cfg: Config, es: seq<Event>): multiset<Copy> {
    if es == [] then multiset{} else multiset(Accepted(cfg, es[0])) + AllAccepted(cfg, es[1..])
  }

  /** Over any run, each accepted copy is in exactly one of: the forward buffer, the delay buffer,
      the released, the dropped and the discarded messages; and each delayed or released copy is
      keyed by its send time plus its travel time. */
  lemma {:induction false} RunConserves(cfg: Config, s: State, es: seq<Event>)
    requires Runs(cfg, s, es) && DelayInv(cfg, s)
    ensures var u := After(cfg, s, es);
      Holdings(u) == Holdings(s) + AllAccepted(cfg, es) && DelayInv(cfg, u)
    decreases |es|
  {
    if es != [] {
      StepConserves(cfg, s, es[0]);
      StepKeepsDelayInv(cfg, s, es[0]);
      RunConserves(cfg, Next(cfg, s, es[0]), es[1..]);
    }
  }

  /** The entry was made by this event: a response for its own pair, which gave it its travel time. */
  ghost predicate AssignedBy(cfg: Config, e: Entry, ev: Event) {
    var t := TablesOf(cfg.modems);
    && ev.Heard? && OutcomeOf(cfg, ev.r) == Processed && ev.r.rays != []
    && e.copy.src == t.byPort[ev.r.source] && e.copy.dest == t.byPort[ev.r.receiver]
    && e.owtt == Arrival(ev.r.rays, 0.0, ev.uninit) + ev.draws.outlier
    && e.time == e.copy.msg.time + cfg.toMicros(e.owtt)
  }

  ghost predicate Explained(cfg: Config, d: seq<Entry>, es: seq<Event>) {
    forall e :: e in d ==> exists i :: 0 <= i < |es| && AssignedBy(cfg, e, es[i])
  }

  lemma {:induction false} DispatchMembers(cfg: Config, s: State, cs: seq<Copy>, owtt: real, coins: seq<bool>, e: Entry)
    requires |coins| == |cs| && e in Dispatch(cfg, s, cs, owtt, coins).delay
    ensures e in s.delay || (e == Delayed(cfg, e.copy, owtt) && e.copy in cs)
    decreases |cs|
  {
    hide InsertEntry;
    if cs != [] {
      InsertMembers(s.delay, Delayed(cfg, cs[0], owtt));
      var t := if cfg.allSucceed || coins[0] then s.(delay := InsertEntry(s.delay, Delayed(cfg, cs[0], owtt)))
               else s.(dropped := s.dropped + [cs[0]]);
      DispatchMembers(cfg, t, cs[1..], owtt, coins[1..], e);
    }
  }

  lemma {:induction false} DispatchReleasesNothing(cfg: Config, s: State, cs: seq<Copy>, owtt: real, coins: seq<bool>)
    requires |coins| == |cs|
    ensures Dispatch(cfg, s, cs, owtt, coins).released == s.released
    decreases |cs|
  {
    if cs != [] {
      var t := if cfg.allSucceed || coins[0] then s.(delay := InsertEntry(s.delay, Delayed(cfg, cs[0], owtt)))
               else s.(dropped := s.dropped + [cs[0]]);
      DispatchReleasesNothing(cfg, t, cs[1..], owtt, coins[1..]);
    }
  }

  lemma {:induction false} OfIsOwn(cs: seq<Copy>, src: int, dest: int, c: Copy)
    requires c in Of(cs, src, dest)
    ensures c.src == src && c.dest == dest
  {
    if !(cs[0].src == src && cs[0].dest == dest && c == cs[0]) {
      OfIsOwn(cs[1..], src, dest, c);
    }
  }

  lemma {:induction false} RespondAssigns(cfg: Config, s: State, ev: Event, e: Entry)
    requires ev.Heard? && Allowed(cfg, s, ev) && e in Next(cfg, s, ev).delay && e !in s.delay
    ensures AssignedBy(cfg, e, ev)
  {
    hide Dispatch, Of, TablesOf, Arrival;
    var cs, owtt := WaitingFor(cfg, s, ev.r), Arrival(ev.r.rays, 0.0, ev.uninit) + ev.draws.outlier;
    DispatchMembers(cfg, s, cs, owtt, ev.draws.coins, e);
    OfIsOwn(s.forward, TablesOf(cfg.modems).byPort[ev.r.source], TablesOf(cfg.modems).byPort[ev.r.receiver], e.copy);
  }

  lemma {:induction false} RespondReleasesNothing(cfg: Config, s: State, ev: Event)
    requires ev.Heard? && Allowed(cfg, s, ev)
    ensures Next(cfg, s, ev).released == s.released
  {
    hide Dispatch, Of, NotOf, TablesOf, Arrival;
    if OutcomeOf(cfg, ev.r) == Processed && ev.r.rays != [] {
      DispatchReleasesNothing(cfg, s, WaitingFor(cfg, s, ev.r), Arrival(ev.r.rays, 0.0, ev.uninit) + ev.draws.outlier,
                              ev.draws.coins);
    }
  }

  lemma {:induction false} StepExplains(cfg: Config, s: State, past: seq<Event>, ev: Event)
    requires Allowed(cfg, s, ev) && Explained(cfg, s.delay, past) && Explained(cfg, s.released, past)
    ensures Explained(cfg, Next(cfg, s, ev).delay, past + [ev])
      && Explained(cfg, Next(cfg, s, ev).released, past + [ev])
  {
    hide Respond, UpperBound, AssignedBy;
    var u := Next(cfg, s, ev);
    if ev.Heard? {
      RespondReleasesNothing(cfg, s, ev);
    }
    forall e | e in u.delay || e in u.released
      ensures exists i :: 0 <= i < |past + [ev]| && AssignedBy(cfg, e, (past + [ev])[i])
    {
      if e in s.delay || e in s.released {
        var i :| 0 <= i < |past| && AssignedBy(cfg, e, past[i]);
        assert (past + [ev])[i] == past[i];
      } else {
        assert ev.Heard?;
        RespondAssigns(cfg, s, ev, e);
        assert (past + [ev])[|past|] == ev;
      }
    }
  }

  /** Over any run, each delayed or released entry was made by a response for its own pair, which
      gave it its travel time; past is what happened before the run. */
  lemma {:induction false} EntriesComeFromResponses(cfg: Config, s: State, past: seq<Event>, es: seq<Event>)
    requires Runs(cfg, s, es) && Explained(cfg, s.delay, past) && Explained(cfg, s.released, past)
    ensures Explained(cfg, After(cfg, s, es).delay, past + es) && Explained(cfg, After(cfg, s, es).released, past + es)
    decreases |es|
  {
    hide Explained, Next;
    if es == [] {
      assert past + es == past;
    } else {
      StepExplains(cfg, s, past, es[0]);
      EntriesComeFromResponses(cfg, Next(cfg, s, es[0]), past + [es[0]], es[1..]);
      assert past + [es[0]] + es[1..] == past + es;
    }
  }

  /** No copy leaves before its send time plus its travel time, and that is the arrival plus the
      outlier of a response heard for its own pair. */
  lemma {:induction false} NothingLeavesEarly(cfg: Config, s: State, past: seq<Event>, es: seq<Event>, now: int)
    requires Runs(cfg, s, es) && DelayInv(cfg, s)
    requires Explained(cfg, s.delay, past) && Explained(cfg, s.released, past)
    ensures var u := After(cfg, s, es); var v := Tick(u, now);
      && u.released <= v.released && Explained(cfg, v.released, past + es)
      && forall e :: e in v.released[|u.released|..] ==> now >= e.copy.msg.time + cfg.toMicros(e.owtt)
  {
    hide Explained, AssignedBy, Next, After, UpperBound, Runs;
    EntriesComeFromResponses(cfg, s, past, es);
    RunConserves(cfg, s, es);
    var u := After(cfg, s, es);
    UpperBoundSplits(u.delay, now);
    var n := UpperBound(u.delay, now);
    assert Tick(u, now).released[|u.released|..] == u.delay[..n];
    ExplainedTogether(cfg, u.released, u.delay, n, past + es);
    forall e | e in u.delay[..n]
      ensures now >= e.copy.msg.time + cfg.toMicros(e.owtt)
    {
      assert e in u.delay;
    }
  }

  lemma {:induction false} ExplainedTogether(cfg: Config, a: seq<Entry>, b: seq<Entry>, n: nat, es: seq<Event>)
    requires Explained(cfg, a, es) && Explained(cfg, b, es) && n <= |b|
    ensures Explained(cfg, a + b[..n], es)
  {
    hide AssignedBy;
    forall e | e in a + b[..n]
      ensures exists i :: 0 <= i < |es| && AssignedBy(cfg, e, es[i])
    {
      assert e in a || e in b;
    }
  }

  lemma {:induction false} OfConcat(a: seq<Copy>, b: seq<Copy>, src: int, dest: int)
    ensures Of(a + b, src, dest) == Of(a, src, dest) + Of(b, src, dest)
  {
    if a == [] {
      assert a + b == b;
    } else {
      assert (a + b)[1..] == a[1..] + b;
      OfConcat(a[1..], b, src, dest);
    }
  }

  /** Some response can be processed for copies from src to dest: the receiver's id is not 0, and
      each of the two ids is what some port stands for. */
  predicate Answerable(cfg: Config, src: int, dest: int) {
    var byPort := TablesOf(cfg.modems).byPort;
    dest != 0 && src in byPort.Values && dest in byPort.Values
  }

  predicate Answers(cfg: Config, r: Response, src: int, dest: int) {
    var byPort := TablesOf(cfg.modems).byPort;
    OutcomeOf(cfg, r) == Processed && byPort[r.source] == src && byPort[r.receiver] == dest
  }

  /** A pair can be answered exactly if its receiver does not have id 0 and both ids are reachable. */
  lemma {:induction false} AnsweredIff(cfg: Config, src: int, dest: int)
    ensures (exists r :: Answers(cfg, r, src, dest)) <==> Answerable(cfg, src, dest)
  {
    hide TablesOf;
    var byPort := TablesOf(cfg.modems).byPort;
    if Answerable(cfg, src, dest) {
      var a :| a in byPort && byPort[a] == src;
      var b :| b in byPort && byPort[b] == dest;
      assert Answers(cfg, Response(a, b, []), src, dest);
    }
    if r :| Answers(cfg, r, src, dest) {
      assert byPort[r.source] in byPort.Values && byPort[r.receiver] in byPort.Values;
    }
  }

  lemma {:induction false} FirstWithHas(modems: seq<Modem>, key: Modem -> string, k: string)
    ensures var i := FirstWith(modems, key, k); i >= 0 ==> i < |modems| && key(modems[i]) == k
    ensures var i := FirstWith(modems, key, k);
      -1 <= i && forall j :: 0 <= j < (if i >= 0 then i else |modems|) ==> key(modems[j]) != k
  {
    if modems != [] {
      FirstWithHas(modems[1..], key, k);
      assert forall j :: 1 <= j < |modems| ==> modems[j] == modems[1..][j - 1];
    }
  }

  /** An id is what some port stands for exactly if a modem with this id is the first on its port. */
  lemma {:induction false} ReachableIff(modems: seq<Modem>, id: int)
    ensures id in TablesOf(modems).byPort.Values
       <==> exists i :: 0 <= i < |modems| && modems[i].id == id && FirstWith(modems, PortOf, modems[i].port) == i
  {
    var byPort := TablesOf(modems).byPort;
    if id in byPort.Values {
      var k :| k in byPort && byPort[k] == id;
      TablesHoldFirstModems(modems, k);
      FirstWithHas(modems, PortOf, k);
      var i := FirstWith(modems, PortOf, k);
      assert modems[i].port == k;
    }
    if i :| 0 <= i < |modems| && modems[i].id == id && FirstWith(modems, PortOf, modems[i].port) == i {
      TablesHoldFirstModems(modems, modems[i].port);
      assert byPort[modems[i].port] == id;
    }
  }

  /** Copies of a pair that cannot be answered never leave the forward buffer. */
  lemma {:induction false} UnansweredWaitsForever(cfg: Config, s: State, es: seq<Event>, src: int, dest: int)
    requires Runs(cfg, s, es) && !Answerable(cfg, src, dest)
    ensures Of(s.forward, src, dest) <= Of(After(cfg, s, es).forward, src, dest)
    decreases |es|
  {
    if es != [] {
      match es[0] {
        case Datagram(endpoint, msg) =>
          OfConcat(s.forward, CopiesFor(cfg, endpoint, msg), src, dest);
        case Heard(r, draws, uninit) =>
          AnsweredIff(cfg, src, dest);
          assert !Answers(cfg, r, src, dest);
          ResponseEmptiesItsPair(cfg, s, r, draws, uninit, src, dest);
        case TickAt(now) =>
      }
      UnansweredWaitsForever(cfg, Next(cfg, s, es[0]), es[1..], src, dest);
    }
  }

  /** Of two modems on one port only the first is reachable. */
  lemma {:induction false} SharedPortIsUnreachable(endpoint: string, port: string)
    ensures 2 !in TablesOf([Modem(1, endpoint, port), Modem(2, endpoint, port)]).byPort.Values
  {
    var a, b := Modem(1, endpoint, port), Modem(2, endpoint, port);
    assert [a, b][..1] == [a] && [a][..0] == [];
    assert TablesOf([a]).byPort == map[port := 1];
    assert TablesOf([a, b]).byPort == map[port := 1];
  }
}
