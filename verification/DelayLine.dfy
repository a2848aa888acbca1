/** netsim_udp: each message waits for the impulse response of its modem pair, then for the travel
    time of its sound. */
module DelayLine {
  import opened Common

  datatype Kind = ACK | OTHER

  /** time is the send time in microseconds. */
  datatype Message = Message(kind: Kind, dest: int, time: int, payload: string)

  /** One copy of a message, for one destination. */
  datatype Copy = Copy(src: int, dest: int, msg: Message)

  /** A copy in the delay buffer, keyed by the time of its release. */
  datatype Entry = Entry(time: int, copy: Copy, owtt: real)

  datatype Modem = Modem(id: int, endpoint: string, port: string)

  /** toMicros is the unit library's conversion of seconds to a count of microseconds. */
  datatype Config = Config(modems: seq<Modem>, sendAll: bool, broadcastId: int, allSucceed: bool, toMicros: real -> int)

  datatype Ray = Ray(amplitude: real, delay: real)

  datatype Response = Response(source: string, receiver: string, rays: seq<Ray>)

  /** Random draws of one response: the outlier offset, and a coin for each waiting message. */
  datatype Draws = Draws(outlier: real, coins: seq<bool>)

  datatype Outcome = Ignored | Threw | Processed

  // ---------------------------------------------------------------------------------------
  // Lookup tables: std::map keeps the first value inserted for a key
  // ---------------------------------------------------------------------------------------

  datatype Tables = Tables(ids: seq<int>, byEndpoint: map<string, int>, byPort: map<string, int>)

  function Insert(m: map<string, int>, k: string, v: int): map<string, int> {
    if k in m then m else m[k := v]
  }

  /** The keys of an ordered map stay in ascending order, each once. */
  function InsertId(ids: seq<int>, id: int): seq<int> {
    if ids == [] || id < ids[0] then [id] + ids
    else if id == ids[0] then ids
    else [ids[0]] + InsertId(ids[1..], id)
  }

  function TablesOf(modems: seq<Modem>): Tables {
    if modems == [] then Tables([], map[], map[])
    else
      var t, m := TablesOf(modems[..|modems| - 1]), modems[|modems| - 1];
      Tables(InsertId(t.ids, m.id), Insert(t.byEndpoint, m.endpoint, m.id), Insert(t.byPort, m.port, m.id))
  }

  // ---------------------------------------------------------------------------------------
  // The delay buffer: a multimap ordered by time, first in first out among equal times
  // ---------------------------------------------------------------------------------------

  /** The number of leading entries keyed at or before t. */
  function UpperBound(d: seq<Entry>, t: int): (n: nat)
    ensures n <= |d|
  {
    if d == [] || d[0].time > t then 0 else 1 + UpperBound(d[1..], t)
  }

  function InsertEntry(d: seq<Entry>, e: Entry): seq<Entry> {
    var n := UpperBound(d, e.time);
    d[..n] + [e] + d[n..]
  }

  // ---------------------------------------------------------------------------------------
  // Travel time
  // ---------------------------------------------------------------------------------------

  /** k is the first ray of largest absolute amplitude. */
  ghost predicate FirstStrongest(rays: seq<Ray>, k: nat) {
    && k < |rays|
    && (forall i :: 0 <= i < |rays| ==> Abs(rays[i].amplitude) <= Abs(rays[k].amplitude))
    && (forall i :: 0 <= i < k ==> Abs(rays[i].amplitude) < Abs(rays[k].amplitude))
  }

  predicate AllSilent(rays: seq<Ray>) {
    forall i :: 0 <= i < |rays| ==> rays[i].amplitude == 0.0
  }

  /** The delay of the strongest ray so far, given the strongest amplitude so far. */
  function Arrival(rays: seq<Ray>, maxAmp: real, delay: real): real {
    if rays == [] then delay
    else
      var a := Abs(rays[0].amplitude);
      if a > maxAmp then Arrival(rays[1..], a, rays[0].delay) else Arrival(rays[1..], maxAmp, delay)
  }

  // ---------------------------------------------------------------------------------------
  // Steps, as functions of the two buffers
  // ---------------------------------------------------------------------------------------

  /** forward holds the copies waiting for an impulse response in arrival order; the other fields
      say what became of those that left. */
  datatype State = State(forward: seq<Copy>, delay: seq<Entry>, released: seq<Entry>, dropped: seq<Copy>,
                         discarded: seq<Copy>)

  /** One copy for each of the ids but the sender's, in ascending order. */
  function CopiesTo(ids: seq<int>, src: int, msg: Message): seq<Copy> {
    if ids == [] then []
    else if ids[0] == src then CopiesTo(ids[1..], src, msg)
    else [Copy(src, ids[0], msg)] + CopiesTo(ids[1..], src, msg)
  }

  lemma {:induction false} CopiesToNone(ids: seq<int>, src: int, msg: Message)
    ensures CopiesTo(ids[..0], src, msg) == []
  {
  }

  lemma {:induction false} CopiesToOneMore(ids: seq<int>, i: nat, src: int, msg: Message)
    requires i < |ids|
    ensures CopiesTo(ids[..i + 1], src, msg)
         == CopiesTo(ids[..i], src, msg) + if ids[i] == src then [] else [Copy(src, ids[i], msg)]
    decreases i
  {
    assert ids[..i + 1][1..] == ids[1..][..i];
    if i == 0 {
      assert CopiesTo([], src, msg) == [];
    } else {
      assert ids[..i][1..] == ids[1..][..i - 1];
      CopiesToOneMore(ids[1..], i - 1, src, msg);
    }
  }

  /** The copies that a received datagram becomes. */
  function CopiesFor(cfg: Config, endpoint: string, msg: Message): seq<Copy> {
    var t := TablesOf(cfg.modems);
    if endpoint !in t.byEndpoint then []
    else
      var src := t.byEndpoint[endpoint];
      if msg.kind != ACK && (cfg.sendAll || msg.dest == cfg.broadcastId) then CopiesTo(t.ids, src, msg)
      else if msg.dest in t.ids then [Copy(src, msg.dest, msg)]
      else []
  }

  function Receive(cfg: Config, s: State, endpoint: string, msg: Message): State {
    s.(forward := s.forward + CopiesFor(cfg, endpoint, msg))
  }

  function Of(cs: seq<Copy>, src: int, dest: int): seq<Copy> {
    if cs == [] then []
    else if cs[0].src == src && cs[0].dest == dest then [cs[0]] + Of(cs[1..], src, dest)
    else Of(cs[1..], src, dest)
  }

  function NotOf(cs: seq<Copy>, src: int, dest: int): seq<Copy> {
    if cs == [] then []
    else if cs[0].src == src && cs[0].dest == dest then NotOf(cs[1..], src, dest)
    else [cs[0]] + NotOf(cs[1..], src, dest)
  }

  function Delayed(cfg: Config, c: Copy, owtt: real): Entry {
    Entry(c.msg.time + cfg.toMicros(owtt), c, owtt)
  }

  /** Each waiting copy in turn is delayed by owtt or, if its coin fails, dropped. */
  function Dispatch(cfg: Config, s: State, cs: seq<Copy>, owtt: real, coins: seq<bool>): State
    requires |coins| == |cs|
    decreases |cs|
  {
    if cs == [] then s
    else
      var t := if cfg.allSucceed || coins[0] then s.(delay := InsertEntry(s.delay, Delayed(cfg, cs[0], owtt)))
               else s.(dropped := s.dropped + [cs[0]]);
      Dispatch(cfg, t, cs[1..], owtt, coins[1..])
  }

  function OutcomeOf(cfg: Config, r: Response): Outcome {
    var t := TablesOf(cfg.modems);
    if r.source !in t.byPort then Ignored
    else if r.receiver !in t.byPort then Threw
    else if t.byPort[r.receiver] == 0 then Ignored
    else Processed
  }

  function WaitingFor(cfg: Config, s: State, r: Response): seq<Copy>
    requires OutcomeOf(cfg, r) == Processed
  {
    var t := TablesOf(cfg.modems);
    Of(s.forward, t.byPort[r.source], t.byPort[r.receiver])
  }

  /** uninit is whatever the delay variable holds before any ray is louder than silence. */
  function Respond(cfg: Config, s: State, r: Response, draws: Draws, uninit: real): State
    requires OutcomeOf(cfg, r) == Processed ==> |draws.coins| == |WaitingFor(cfg, s, r)|
  {
    if OutcomeOf(cfg, r) != Processed then s
    else
      var t := TablesOf(cfg.modems);
      var cs := WaitingFor(cfg, s, r);
      var u := if r.rays == [] then s.(discarded := s.discarded + cs)
               else Dispatch(cfg, s, cs, Arrival(r.rays, 0.0, uninit) + draws.outlier, draws.coins);
      u.(forward := NotOf(s.forward, t.byPort[r.source], t.byPort[r.receiver]))
  }

  function Tick(s: State, now: int): State {
    var n := UpperBound(s.delay, now);
    s.(delay := s.delay[n..], released := s.released + s.delay[..n])
  }

  // ---------------------------------------------------------------------------------------
  // The application object
  // ---------------------------------------------------------------------------------------

  class NetSimUdp {
    const cfg: Config
    var tables: Tables
    var forwardBuffer: seq<Copy>
    var delayBuffer: seq<Entry>
    var udpOut: seq<Entry>
    var dropped: seq<Copy>
    var discarded: seq<Copy>

    ghost predicate Valid() reads this {
      tables == TablesOf(cfg.modems)
    }

    ghost function Value(): State reads this {
      State(forwardBuffer, delayBuffer, udpOut, dropped, discarded)
    }

    constructor (cfg: Config)
      ensures Valid() && this.cfg == cfg && Value() == State([], [], [], [], [])
    {
      this.cfg := cfg;
      forwardBuffer, delayBuffer, udpOut, dropped, discarded := [], [], [], [], [];
      tables := Tables([], map[], map[]);
      new;
      for i := 0 to |cfg.modems|
        invariant tables == TablesOf(cfg.modems[..i])
        invariant Value() == State([], [], [], [], [])
      {
        var m := cfg.modems[i];
        assert cfg.modems[..i + 1][..i] == cfg.modems[..i];
        tables := Tables(InsertId(tables.ids, m.id), Insert(tables.byEndpoint, m.endpoint, m.id),
                         Insert(tables.byPort, m.port, m.id));
      }
      assert cfg.modems[..|cfg.modems|] == cfg.modems;
    }

    method UdpIn(endpoint: string, msg: Message)
      requires Valid()
      modifies this`forwardBuffer
      ensures Valid() && Value() == Receive(cfg, old(Value()), endpoint, msg)
    {
      hide CopiesTo, TablesOf;
      if endpoint !in tables.byEndpoint {
        return;
      }
      var src := tables.byEndpoint[endpoint];
      if msg.kind != ACK && (cfg.sendAll || msg.dest == cfg.broadcastId) {
        CopiesToNone(tables.ids, src, msg);
        for i := 0 to |tables.ids|
          invariant forwardBuffer == old(forwardBuffer) + CopiesTo(tables.ids[..i], src, msg)
        {
          CopiesToOneMore(tables.ids, i, src, msg);
          if tables.ids[i] != src {
            ForwardPacket(src, tables.ids[i], msg);
          }
        }
        assert tables.ids[..|tables.ids|] == tables.ids;
      } else if msg.dest in tables.ids {
        ForwardPacket(src, msg.dest, msg);
      }
    }

    method ForwardPacket(src: int, dest: int, msg: Message)
      modifies this`forwardBuffer
      ensures forwardBuffer == old(forwardBuffer) + [Copy(src, dest, msg)]
    {
      forwardBuffer := forwardBuffer + [Copy(src, dest, msg)];
    }

    /** The strongest ray's delay; uninit stands for the uninitialised variable. */
    static method TravelTime(rays: seq<Ray>, uninit: real) returns (delay: real)
      ensures delay == Arrival(rays, 0.0, uninit)
    {
      var maxAmp := 0.0;
      delay := uninit;
      for i := 0 to |rays|
        invariant Arrival(rays[i..], maxAmp, delay) == Arrival(rays, 0.0, uninit)
      {
        var amp := Abs(rays[i].amplitude);
        assert rays[i..][1..] == rays[i + 1..];
        if amp > maxAmp {
          maxAmp, delay := amp, rays[i].delay;
        }
      }
    }

    method ProcessImpulseResponse(r: Response, draws: Draws, uninit: real) returns (outcome: Outcome)
      requires Valid()
      requires OutcomeOf(cfg, r) == Processed ==> |draws.coins| == |WaitingFor(cfg, Value(), r)|
      modifies this`forwardBuffer, this`delayBuffer, this`dropped, this`discarded
      ensures Valid() && outcome == OutcomeOf(cfg, r)
      ensures Value() == Respond(cfg, old(Value()), r, draws, uninit)
    {
      if r.source !in tables.byPort {
        return Ignored;
      }
      if r.receiver !in tables.byPort {
        return Threw;
      }
      if tables.byPort[r.receiver] == 0 {
        return Ignored;
      }
      outcome := Processed;
      var src, dest := tables.byPort[r.source], tables.byPort[r.receiver];
      var waiting := Of(forwardBuffer, src, dest);
      if r.rays != [] {
        var firstArrival := TravelTime(r.rays, uninit);
        var owtt := firstArrival + draws.outlier;
        ghost var whole := Dispatch(cfg, Value(), waiting, owtt, draws.coins);
        for i := 0 to |waiting|
          invariant forwardBuffer == old(forwardBuffer) && discarded == old(discarded)
          invariant Dispatch(cfg, Value(), waiting[i..], owtt, draws.coins[i..]) == whole
        {
          assert waiting[i..][1..] == waiting[i + 1..] && draws.coins[i..][1..] == draws.coins[i + 1..];
          var packetSuccess := true;
          if !cfg.allSucceed {
            packetSuccess := draws.coins[i];
          }
          if packetSuccess {
            delayBuffer := InsertEntry(delayBuffer, Delayed(cfg, waiting[i], owtt));
          } else {
            dropped := dropped + [waiting[i]];
          }
        }
      } else {
        discarded := discarded + waiting;
      }
      forwardBuffer := NotOf(forwardBuffer, src, dest);
    }

    method Loop(now: int)
      modifies this`delayBuffer, this`udpOut
      ensures Value() == Tick(old(Value()), now)
    {
      var upper := UpperBound(delayBuffer, now);
      for i := 0 to upper
        invariant delayBuffer == old(delayBuffer) && udpOut == old(udpOut) + delayBuffer[..i]
      {
        udpOut := udpOut + [delayBuffer[i]];
      }
      delayBuffer := delayBuffer[upper..];
    }
  }
}
