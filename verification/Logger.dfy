/** The packet logger: one file per packet and modem, and the event that all of them are closed. */
module Logger {
  import opened Common
  import opened Audio

  datatype Direction = IN | OUT

  /** One logged block, with the direction and the modems of the group it arrived on. */
  datatype Entry = Entry(dir: Direction, from: nat, to: nat, block: Tagged) {
    function StreamKey(): Key {
      Key(dir, block.packetId, if dir == IN then from else to)
    }
  }

  /** The path to an entry of the nested map: direction, packet id, modem. */
  datatype Key = Key(dir: Direction, id: int, modem: nat)

  datatype Handle = NoFile | File(index: nat)

  /** A file in the order of opening: the source in its name, the time at its start, its samples. */
  datatype LogFile = LogFile(key: Key, from: nat, startTime: real, samples: seq<Sample>)

  datatype Event = PacketStart(id: int, modem: nat) | AllLogsClosed(id: int, modem: nat)

  datatype State = State(files: map<Key, Handle>, logs: seq<LogFile>, events: seq<Event>) {
    /** Reads the nested map the way its operator[] does. */
    function Handle(k: Key): Handle {
      if k in files then files[k] else NoFile
    }
  }

  const INITIAL: State := State(map[], [], [])

  // ---------------------------------------------------------------------------------------
  // One block, as a function of the state
  // ---------------------------------------------------------------------------------------

  function Append(f: LogFile, xs: seq<Sample>): LogFile {
    f.(samples := f.samples + xs)
  }

  function Start(s: State, e: Entry): State
    requires e.block.buffer.Buffer?
  {
    s.(files := s.files[e.StreamKey() := File(|s.logs|)],
       logs := s.logs + [LogFile(e.StreamKey(), e.from, e.block.buffer.startTime, [])],
       events := s.events + if e.dir == IN then [PacketStart(e.block.packetId, e.from)] else [])
  }

  /** Looking up the handle leaves an empty one behind if there was none. */
  function Write(s: State, e: Entry): State
    requires Inv(s)
  {
    match s.Handle(e.StreamKey())
    case NoFile => s.(files := s.files[e.StreamKey() := NoFile])
    case File(i) => s.(logs := s.logs[i := Append(s.logs[i], e.block.buffer.Data())])
  }

  function Finish(s: State, e: Entry): State {
    var t := s.(files := s.files - {e.StreamKey()});
    if e.dir == OUT && NoneOpen(t.files, e.block.packetId) then
      t.(events := t.events + [AllLogsClosed(e.block.packetId, e.from)])
    else t
  }

  function Log(s: State, e: Entry): State
    requires Inv(s) && e.block.buffer.Buffer?
    ensures Inv(Log(s, e))
  {
    var s1 := if e.block.marker == START then Start(s, e) else s;
    var s2 := Write(s1, e);
    if e.block.marker == END then Finish(s2, e) else s2
  }

  predicate NoneOpen(files: map<Key, Handle>, id: int) {
    forall k <- files :: !(k.dir == OUT && k.id == id)
  }

  /** Every handle is that of its own file. */
  ghost predicate Inv(s: State) {
    forall k <- s.files | s.files[k].File? :: s.files[k].index < |s.logs| && s.logs[s.files[k].index].key == k
  }

  // ---------------------------------------------------------------------------------------
  // The thread object
  // ---------------------------------------------------------------------------------------

  class LoggerThread {
    var files: map<Key, Handle>
    var logs: seq<LogFile>
    var events: seq<Event>

    ghost function Value(): State reads this {
      State(files, logs, events)
    }

    constructor ()
      ensures Value() == INITIAL
    {
      files, logs, events := map[], [], [];
    }

    method LogAudio(block: Tagged, from: nat, to: nat, dir: Direction)
      requires Inv(Value()) && block.buffer.Buffer?
      modifies this
      ensures Inv(Value()) && Value() == Log(old(Value()), Entry(dir, from, to, block))
    {
      hide NoneOpen;
      var key := Key(dir, block.packetId, if dir == IN then from else to);
      if block.marker == START {
        files := files[key := File(|logs|)];
        logs := logs + [LogFile(key, from, block.buffer.startTime, [])];
        if dir == IN {
          events := events + [PacketStart(block.packetId, from)];
        }
      }
      if key !in files {
        files := files[key := NoFile];
      }
      if files[key].File? {
        var i := files[key].index;
        logs := logs[i := Append(logs[i], block.buffer.samples)];
      }
      ghost var e := Entry(dir, from, to, block);
      ghost var s2 := Write(if block.marker == START then Start(old(Value()), e) else old(Value()), e);
      assert Value() == s2;
      if block.marker == END {
        files := files - {key};
        if dir == OUT && NoneOpen(files, block.packetId) {
          events := events + [AllLogsClosed(block.packetId, from)];
        }
      }
    }
  }

  // ---------------------------------------------------------------------------------------
  // What the history of logged blocks says
  // ---------------------------------------------------------------------------------------

  type History = h: seq<Entry> | forall e <- h :: e.block.buffer.Buffer?

  function Run(s: State, h: History): (r: State)
    requires Inv(s)
    ensures Inv(r)
    decreases |h|
  {
    if h == [] then s else Run(Log(s, h[0]), h[1..])
  }

  /** A stream is pending if its last block is not an END. */
  predicate Pending(h: History, k: Key) {
    h != [] && (
      var last := h[|h| - 1];
      if last.StreamKey() == k then last.block.marker != END else Pending(h[..|h| - 1], k))
  }

  /** What the rest of a history adds to the file open for k: its blocks before the next START,
      up to and including the next END. */
  function Until(k: Key, h: History): seq<Sample>
    decreases |h|
  {
    if h == [] || (h[0].StreamKey() == k && h[0].block.marker == START) then []
    else if h[0].StreamKey() != k then Until(k, h[1..])
    else h[0].block.buffer.Data() + if h[0].block.marker == END then [] else Until(k, h[1..])
  }

  /** One file per START: its own samples and what the rest of the history adds to them. */
  function Files(h: History): seq<LogFile>
    decreases |h|
  {
    if h == [] then []
    else if h[0].block.marker != START then Files(h[1..])
    else
      var e := h[0];
      [LogFile(e.StreamKey(), e.from, e.block.buffer.startTime, e.block.buffer.Data() + Until(e.StreamKey(), h[1..]))]
      + Files(h[1..])
  }

  /** The events of the last block of a history. */
  ghost function Announced(h: History): seq<Event>
    requires h != []
  {
    var e := h[|h| - 1];
    if e.dir == IN && e.block.marker == START then [PacketStart(e.block.packetId, e.from)]
    else if e.dir == OUT && e.block.marker == END
      && (forall m: nat :: !Pending(h, Key(OUT, e.block.packetId, m))) then [AllLogsClosed(e.block.packetId, e.from)]
    else []
  }

  ghost function AllAnnounced(h: History): seq<Event>
    decreases |h|
  {
    if h == [] then [] else AllAnnounced(h[..|h| - 1]) + Announced(h)
  }

  /** Two blocks belong to one stream exactly if they go the same way, carry the same id, and come
      from the same transmitter, on the way in, or go to the same receiver, on the way out. */
  lemma {:induction false} SameStreamIff(e: Entry, f: Entry)
    ensures e.StreamKey() == f.StreamKey() <==>
      && e.dir == f.dir && e.block.packetId == f.block.packetId
      && (e.dir == IN ==> e.from == f.from) && (e.dir == OUT ==> e.to == f.to)
    ensures e.StreamKey().dir == e.dir && e.StreamKey().id == e.block.packetId
    ensures e.StreamKey().modem == e.from || e.dir == OUT
  {
  }

  // ---------------------------------------------------------------------------------------
  // Open keys and events
  // ---------------------------------------------------------------------------------------

  lemma {:induction false} RunSnoc(s: State, h: History, e: Entry)
    requires Inv(s) && e.block.buffer.Buffer?
    ensures Run(s, h + [e]) == Log(Run(s, h), e)
    decreases |h|
  {
    hide Log;
    if h == [] {
      assert h + [e] == [e] && [e][1..] == [];
      assert Run(s, [e]) == Run(Log(s, e), []);
    } else {
      assert (h + [e])[0] == h[0] && (h + [e])[1..] == h[1..] + [e];
      RunSnoc(Log(s, h[0]), h[1..], e);
    }
  }

  lemma {:induction false} LogOpens(s: State, e: Entry, k: Key)
    requires Inv(s) && e.block.buffer.Buffer?
    ensures k in Log(s, e).files <==> if k == e.StreamKey() then e.block.marker != END else k in s.files
  {
  }

  /** The entries of the nested map are the streams whose last block was not an END. */
  lemma {:induction false} OpenKeysArePending(h: History, k: Key)
    ensures k in Run(INITIAL, h).files <==> Pending(h, k)
    decreases |h|
  {
    hide Log;
    if h != [] {
      var init, e := h[..|h| - 1], h[|h| - 1];
      assert h == init + [e];
      OpenKeysArePending(init, k);
      RunSnoc(INITIAL, init, e);
      LogOpens(Run(INITIAL, init), e, k);
    }
  }

  lemma {:induction false} LogAnnounces(s: State, e: Entry)
    requires Inv(s) && e.block.buffer.Buffer?
    ensures Log(s, e).events == s.events +
      if e.dir == IN && e.block.marker == START then [PacketStart(e.block.packetId, e.from)]
      else if e.dir == OUT && e.block.marker == END && NoneOpen(Log(s, e).files, e.block.packetId)
      then [AllLogsClosed(e.block.packetId, e.from)]
      else []
  {
  }

  /** PACKET_START goes out at exactly the IN STARTs, and ALL_LOGS_CLOSED at exactly the OUT ENDs
      after which no receiver's stream of that packet is pending. */
  lemma {:induction false} EventsFollowTheHistory(h: History)
    ensures Run(INITIAL, h).events == AllAnnounced(h)
    decreases |h|
  {
    hide Log, NoneOpen;
    if h != [] {
      var init, e := h[..|h| - 1], h[|h| - 1];
      assert h == init + [e];
      EventsFollowTheHistory(init);
      RunSnoc(INITIAL, init, e);
      LogAnnounces(Run(INITIAL, init), e);
      NoneOpenIff(h, e.block.packetId);
    }
  }

  lemma {:induction false} NoneOpenIff(h: History, id: int)
    ensures NoneOpen(Run(INITIAL, h).files, id) <==> forall m: nat :: !Pending(h, Key(OUT, id, m))
  {
    hide Run, Pending;
    forall k ensures k in Run(INITIAL, h).files <==> Pending(h, k) {
      OpenKeysArePending(h, k);
    }
    if forall m: nat :: !Pending(h, Key(OUT, id, m)) {
      forall k | k in Run(INITIAL, h).files ensures !(k.dir == OUT && k.id == id) {
        assert Pending(h, k);
      }
    }
  }

  // ---------------------------------------------------------------------------------------
  // When a packet is announced as closed
  // ---------------------------------------------------------------------------------------

  function Closings(events: seq<Event>, id: int): nat {
    if events == [] then 0
    else
      var e := events[|events| - 1];
      Closings(events[..|events| - 1], id) + if e.AllLogsClosed? && e.id == id then 1 else 0
  }

  ghost predicate Outstanding(h: History, id: int) {
    exists m: nat :: Pending(h, Key(OUT, id, m))
  }

  lemma {:induction false} ClosingsSnoc(h: History, id: int)
    requires h != []
    ensures Closings(AllAnnounced(h), id) == Closings(AllAnnounced(h[..|h| - 1]), id) +
      if h[|h| - 1].dir == OUT && h[|h| - 1].block.packetId == id && h[|h| - 1].block.marker == END
        && !Outstanding(h, id) then 1 else 0
  {
    hide Pending;
    var before, last := AllAnnounced(h[..|h| - 1]), Announced(h);
    if last == [] {
      assert before + last == before;
    } else {
      assert last == [last[0]] && (before + last)[..|before + last| - 1] == before;
    }
  }

  /** A block on its way to some receiver, carrying this packet id. */
  predicate Outgoing(e: Entry, id: int) {
    e.dir == OUT && e.block.packetId == id
  }

  lemma {:induction false} NextOutstanding(h: History, id: int)
    requires h != []
    ensures var init, e := h[..|h| - 1], h[|h| - 1];
      && (!Outgoing(e, id) ==> Outstanding(h, id) == Outstanding(init, id))
      && (Outgoing(e, id) && e.block.marker != END ==> Outstanding(h, id))
      && (e.block.marker == END && !Outstanding(init, id) ==> !Outstanding(h, id))
  {
    var init, e := h[..|h| - 1], h[|h| - 1];
    if Outgoing(e, id) && e.block.marker != END {
      assert Pending(h, Key(OUT, id, e.to));
    }
    if Outstanding(init, id) && !Outgoing(e, id) {
      var m: nat :| Pending(init, Key(OUT, id, m));
      assert Pending(h, Key(OUT, id, m));
    }
    if Outstanding(h, id) && (!Outgoing(e, id) || e.block.marker == END) {
      var m: nat :| Pending(h, Key(OUT, id, m));
      assert Pending(init, Key(OUT, id, m));
    }
  }

  /** The blocks of a packet that come when none of its streams is pending. */
  ghost function Bursts(h: History, id: int): nat
    decreases |h|
  {
    if h == [] then 0
    else
      var init := h[..|h| - 1];
      Bursts(init, id) + if Outgoing(h[|h| - 1], id) && !Outstanding(init, id) then 1 else 0
  }

  /** Every burst is announced as closed once, the last one as soon as nothing is pending. */
  lemma {:induction false} BurstsAreClosed(h: History, id: int)
    ensures Closings(AllAnnounced(h), id) + (if Outstanding(h, id) then 1 else 0) == Bursts(h, id)
    decreases |h|
  {
    hide AllAnnounced, Closings, Outstanding;
    if h == [] {
      NothingYet(h, id);
    } else {
      BurstsAreClosed(h[..|h| - 1], id);
      ClosingsSnoc(h, id);
      NextOutstanding(h, id);
    }
  }

  lemma {:induction false} NothingYet(h: History, id: int)
    requires forall e <- h :: !Outgoing(e, id)
    ensures !Outstanding(h, id) && (h == [] ==> Closings(AllAnnounced(h), id) == 0)
    decreases |h|
  {
    if h != [] {
      assert h[|h| - 1] in h && forall e <- h[..|h| - 1] :: e in h;
      NothingYet(h[..|h| - 1], id);
      NextOutstanding(h, id);
    } else {
      assert forall m: nat :: !Pending(h, Key(OUT, id, m));
    }
  }

  ghost predicate HasOutgoing(h: History, id: int) {
    exists i :: 0 <= i < |h| && Outgoing(h[i], id)
  }

  /** Every block of the packet but the first comes while some stream of it is pending. */
  ghost predicate OneBurst(h: History, id: int) {
    forall j :: 0 <= j < |h| && Outgoing(h[j], id) && HasOutgoing(h[..j], id) ==> Outstanding(h[..j], id)
  }

  lemma {:induction false} HasOutgoingSnoc(h: History, id: int)
    requires h != []
    ensures HasOutgoing(h, id) <==> HasOutgoing(h[..|h| - 1], id) || Outgoing(h[|h| - 1], id)
  {
    var init := h[..|h| - 1];
    if i :| 0 <= i < |init| && Outgoing(init[i], id) {
      assert Outgoing(h[i], id);
    }
    if i :| 0 <= i < |h| && Outgoing(h[i], id) && i < |init| {
      assert Outgoing(init[i], id);
    }
  }

  lemma {:induction false} OneBurstSnoc(h: History, id: int)
    requires h != []
    ensures var init, e := h[..|h| - 1], h[|h| - 1];
      OneBurst(h, id) <==> OneBurst(init, id) && (Outgoing(e, id) && HasOutgoing(init, id) ==> Outstanding(init, id))
  {
    hide Outstanding, HasOutgoing, Outgoing;
    var init := h[..|h| - 1];
    assert forall j :: 0 <= j < |init| ==> init[..j] == h[..j] && init[j] == h[j];
  }

  lemma {:induction false} BurstsCounted(h: History, id: int)
    ensures HasOutgoing(h, id) <==> Bursts(h, id) >= 1
    ensures Bursts(h, id) <= 1 <==> OneBurst(h, id)
    decreases |h|
  {
    hide Outstanding, HasOutgoing, OneBurst;
    if h == [] {
      NoBurst();
    } else {
      var init := h[..|h| - 1];
      BurstsCounted(init, id);
      HasOutgoingSnoc(h, id);
      OneBurstSnoc(h, id);
      if !HasOutgoing(init, id) {
        NoneBefore(init, id);
      }
    }
  }

  lemma {:induction false} NoBurst()
    ensures forall id :: !HasOutgoing([], id) && OneBurst([], id)
  {
  }

  lemma {:induction false} NoneBefore(h: History, id: int)
    requires !HasOutgoing(h, id)
    ensures !Outstanding(h, id)
  {
    forall e <- h ensures !Outgoing(e, id) {
      var i :| 0 <= i < |h| && h[i] == e;
    }
    NothingYet(h, id);
  }

  /** Once nothing of a packet is pending, it has been announced as closed exactly once if and only
      if each of its blocks but the first came while some stream of it was pending. */
  lemma {:induction false} ClosedExactlyOnce(h: History, id: int)
    requires HasOutgoing(h, id) && !Outstanding(h, id)
    ensures Closings(AllAnnounced(h), id) == 1 <==> OneBurst(h, id)
  {
    hide AllAnnounced, Closings, Outstanding, HasOutgoing, OneBurst;
    BurstsAreClosed(h, id);
    BurstsCounted(h, id);
  }

  /** One receiver ends before the other begins: the packet is announced as closed twice. */
  lemma {:induction false} LateReceiverIsAnnouncedAgain(b: AudioBuffer, from: nat, id: int)
    requires b.Buffer?
    ensures var h := [Entry(OUT, from, 1, Tagged(b, START, id)), Entry(OUT, from, 1, Tagged(b, END, id)),
                      Entry(OUT, from, 2, Tagged(b, START, id)), Entry(OUT, from, 2, Tagged(b, END, id))];
      Run(INITIAL, h).events == [AllLogsClosed(id, from), AllLogsClosed(id, from)]
  {
    var e1, e2 := Entry(OUT, from, 1, Tagged(b, START, id)), Entry(OUT, from, 1, Tagged(b, END, id));
    var e3, e4 := Entry(OUT, from, 2, Tagged(b, START, id)), Entry(OUT, from, 2, Tagged(b, END, id));
    var s1 := Log(INITIAL, e1);
    var s2 := Log(s1, e2);
    var s3 := Log(s2, e3);
    var s4 := Log(s3, e4);
    RunFour(e1, e2, e3, e4);
    assert s2.events == [] + [AllLogsClosed(id, from)] && s2.files == map[];
    assert s3.events == s2.events + [];
    assert s4.files == map[];
    LogAnnounces(s3, e4);
  }

  lemma {:induction false} RunFour(e1: Entry, e2: Entry, e3: Entry, e4: Entry)
    requires e1.block.buffer.Buffer? && e2.block.buffer.Buffer? && e3.block.buffer.Buffer? && e4.block.buffer.Buffer?
    ensures Run(INITIAL, [e1, e2, e3, e4]) == Log(Log(Log(Log(INITIAL, e1), e2), e3), e4)
  {
    hide Log;
    assert [e1, e2, e3, e4][1..] == [e2, e3, e4] && [e2, e3, e4][1..] == [e3, e4] && [e3, e4][1..] == [e4]
      && [e4][1..] == [];
    var s1 := Log(INITIAL, e1);
    var s2 := Log(s1, e2);
    var s3 := Log(s2, e3);
    assert Run(INITIAL, [e1, e2, e3, e4]) == Run(s1, [e2, e3, e4]) == Run(s2, [e3, e4]);
    assert Run(s2, [e3, e4]) == Run(s3, [e4]) == Run(Log(s3, e4), []);
  }

  // ---------------------------------------------------------------------------------------
  // Contents of the files
  // ---------------------------------------------------------------------------------------

  /** What a history does to file i: it grows by the blocks of the stream that has it open. */
  ghost function Grown(s: State, h: History, i: nat): LogFile
    requires Inv(s) && i < |s.logs|
  {
    var f := s.logs[i];
    if s.Handle(f.key) == File(i) then Append(f, Until(f.key, h)) else f
  }

  /** Logging a block leaves the other files alone, and a file is closed by the START or END of its
      own stream. */
  lemma {:induction false} LogGrows(s: State, e: Entry, i: nat)
    requires Inv(s) && e.block.buffer.Buffer? && i < |s.logs|
    ensures var t, k := Log(s, e), s.logs[i].key;
      var mine := s.Handle(k) == File(i);
      && i < |t.logs|
      && t.logs[i] == (if mine && e.StreamKey() == k && e.block.marker != START
                       then Append(s.logs[i], e.block.buffer.Data()) else s.logs[i])
      && (t.Handle(k) == File(i) <==> mine && (e.StreamKey() == k ==> e.block.marker != START && e.block.marker != END))
  {
    hide NoneOpen;
    var k := e.StreamKey();
    if s.logs[i].key != k {
      assert s.Handle(k) != File(i);
    } else if e.block.marker == START {
      assert Start(s, e).Handle(k) == File(|s.logs|);
    }
  }

  lemma {:induction false} OldFile(s: State, h: History, i: nat)
    requires Inv(s) && i < |s.logs| && h != []
    ensures i < |Log(s, h[0]).logs| && Grown(Log(s, h[0]), h[1..], i) == Grown(s, h, i)
  {
    hide Log, NoneOpen;
    var e, f := h[0], s.logs[i];
    LogGrows(s, e, i);
    if e.StreamKey() == f.key && s.Handle(f.key) == File(i) && e.block.marker != START {
      ConcatAssoc(f.samples, e.block.buffer.Data(), Until(f.key, h[1..]));
      if e.block.marker == END {
        assert f.samples + (e.block.buffer.Data() + []) == f.samples + e.block.buffer.Data();
      }
    }
  }

  lemma {:induction false} NewFile(s: State, h: History)
    requires Inv(s) && h != [] && h[0].block.marker == START
    ensures var n, t := |s.logs|, Log(s, h[0]);
      n < |t.logs| && Grown(t, h[1..], n) == Files(h)[0]
  {
    var e := h[0];
    assert [] + e.block.buffer.Data() == e.block.buffer.Data();
  }

  lemma {:induction false} LogCounts(s: State, e: Entry)
    requires Inv(s) && e.block.buffer.Buffer?
    ensures |Log(s, e).logs| == |s.logs| + if e.block.marker == START then 1 else 0
  {
  }

  lemma {:induction false} FilesFrom(s: State, h: History, i: nat)
    requires Inv(s)
    ensures |Run(s, h).logs| == |s.logs| + |Files(h)|
    ensures i < |s.logs| ==> Run(s, h).logs[i] == Grown(s, h, i)
    ensures |s.logs| <= i < |s.logs| + |Files(h)| ==> Run(s, h).logs[i] == Files(h)[i - |s.logs|]
    decreases |h|
  {
    hide Log, Grown, Until;
    if h == [] {
      NothingGrows(s, i);
    } else {
      var t := Log(s, h[0]);
      LogCounts(s, h[0]);
      FilesFrom(t, h[1..], i);
      if i < |s.logs| {
        OldFile(s, h, i);
      } else if i == |s.logs| && h[0].block.marker == START {
        NewFile(s, h);
      }
    }
  }

  lemma {:induction false} NothingGrows(s: State, i: nat)
    requires Inv(s)
    ensures i < |s.logs| ==> Grown(s, [], i) == s.logs[i]
  {
    if i < |s.logs| {
      var f := s.logs[i];
      assert f.samples + [] == f.samples;
    }
  }

  /** The files are those of the STARTs, in order, each with its start time and the samples of all
      blocks of its stream from that START through the next END (or until the next START). */
  lemma {:induction false} FileContents(h: History)
    ensures Run(INITIAL, h).logs == Files(h)
  {
    hide Run, Files;
    FilesFrom(INITIAL, h, 0);
    forall i: nat | i < |Files(h)| ensures Run(INITIAL, h).logs[i] == Files(h)[i] {
      FilesFrom(INITIAL, h, i);
    }
  }

  /** The blocks of a history that end up in the file open for k, as Until has their samples. */
  function Recorded(k: Key, h: History): seq<Entry>
    decreases |h|
  {
    if h == [] || (h[0].StreamKey() == k && h[0].block.marker == START) then []
    else if h[0].StreamKey() != k then Recorded(k, h[1..])
    else [h[0]] + if h[0].block.marker == END then [] else Recorded(k, h[1..])
  }

  function SamplesOf(es: seq<Entry>): seq<Sample> {
    if es == [] then [] else es[0].block.buffer.Data() + SamplesOf(es[1..])
  }

  lemma {:induction false} UntilIsRecorded(k: Key, h: History)
    ensures Until(k, h) == SamplesOf(Recorded(k, h))
    decreases |h|
  {
    if h != [] && !(h[0].StreamKey() == k && h[0].block.marker == START) {
      UntilIsRecorded(k, h[1..]);
      if h[0].StreamKey() == k {
        var rest := if h[0].block.marker == END then [] else Recorded(k, h[1..]);
        assert ([h[0]] + rest)[1..] == rest;
      }
    }
  }

  function Starts(h: History): nat
    decreases |h|
  {
    if h == [] then 0 else (if h[0].block.marker == START then 1 else 0) + Starts(h[1..])
  }

  /** The file of the START at j. */
  lemma {:induction false} FileOfStart(h: History, j: nat)
    requires j < |h| && h[j].block.marker == START
    ensures Starts(h[..j]) < |Files(h)|
    ensures Files(h)[Starts(h[..j])]
         == LogFile(h[j].StreamKey(), h[j].from, h[j].block.buffer.startTime,
                    SamplesOf([h[j]] + Recorded(h[j].StreamKey(), h[j + 1..])))
    decreases |h|
  {
    if j == 0 {
      var k := h[0].StreamKey();
      UntilIsRecorded(k, h[1..]);
      assert ([h[0]] + Recorded(k, h[1..]))[1..] == Recorded(k, h[1..]);
      assert h[..0] == [];
    } else {
      FileOfStart(h[1..], j - 1);
      assert h[..j][0] == h[0] && h[..j][1..] == h[1..][..j - 1];
      assert h[1..][j..] == h[j + 1..];
    }
  }

  /** The blocks of one transmitter in a stream. */
  function OwnBlocks(k: Key, from: nat, h: History): seq<Entry>
    decreases |h|
  {
    if h == [] then []
    else (if h[0].StreamKey() == k && h[0].from == from then [h[0]] else []) + OwnBlocks(k, from, h[1..])
  }

  lemma {:induction false} OwnBlocksAreOwn(k: Key, from: nat, h: History, x: Entry)
    ensures x in OwnBlocks(k, from, h) <==> x in h && x.StreamKey() == k && x.from == from
    decreases |h|
  {
    if h != [] {
      OwnBlocksAreOwn(k, from, h[1..], x);
      assert h == [h[0]] + h[1..];
    }
  }

  /** Block e is the first END of this transmitter in the stream. */
  ghost predicate FirstEnd(k: Key, from: nat, h: History, e: nat) {
    && e < |h| && h[e].StreamKey() == k && h[e].from == from && h[e].block.marker == END
    && forall i :: 0 <= i < e && h[i].StreamKey() == k && h[i].from == from ==> h[i].block.marker != END
  }

  /** No other transmitter sends into the stream before block e, and the own one does not restart. */
  ghost predicate Undisturbed(k: Key, from: nat, h: History, e: nat)
    requires e <= |h|
  {
    forall i :: 0 <= i < e && h[i].StreamKey() == k ==> h[i].from == from && h[i].block.marker != START
  }

  lemma {:induction false} RecordedIsOwnIff(k: Key, from: nat, h: History, e: nat)
    requires FirstEnd(k, from, h, e)
    ensures Recorded(k, h) == OwnBlocks(k, from, h[..e + 1]) <==> Undisturbed(k, from, h, e)
    decreases |h|
  {
    var x, part := h[0], h[..e + 1];
    assert part[0] == x && part[1..] == h[1..][..e];
    if e == 0 {
      assert h[1..][..0] == [] && OwnBlocks(k, from, []) == [];
    } else if x.StreamKey() == k && (x.block.marker == START || x.from != from) {
      DisturbedAtOnce(k, from, h, e);
    } else {
      FirstEndTail(k, from, h, e);
      RecordedIsOwnIff(k, from, h[1..], e - 1);
      UndisturbedTail(k, from, h, e);
      SameTails(if x.StreamKey() == k then [x] else [], Recorded(k, h[1..]), OwnBlocks(k, from, h[1..][..e]));
    }
  }

  lemma {:induction false} SameTails(a: seq<Entry>, b: seq<Entry>, c: seq<Entry>)
    ensures a + b == a + c <==> b == c
  {
    assert (a + b)[|a|..] == b && (a + c)[|a|..] == c;
  }

  lemma {:induction false} FirstEndTail(k: Key, from: nat, h: History, e: nat)
    requires FirstEnd(k, from, h, e) && e > 0
    ensures FirstEnd(k, from, h[1..], e - 1)
    ensures h[0].StreamKey() == k && h[0].from == from ==> h[0].block.marker != END
  {
    assert forall i :: 0 <= i < |h| - 1 ==> h[1..][i] == h[i + 1];
  }

  lemma {:induction false} UndisturbedTail(k: Key, from: nat, h: History, e: nat)
    requires 0 < e < |h|
    ensures var undisturbed := h[0].StreamKey() == k ==> h[0].from == from && h[0].block.marker != START;
      Undisturbed(k, from, h, e) <==> Undisturbed(k, from, h[1..], e - 1) && undisturbed
  {
    assert forall i :: 0 <= i < |h| - 1 ==> h[1..][i] == h[i + 1];
    var undisturbed := h[0].StreamKey() == k ==> h[0].from == from && h[0].block.marker != START;
    if Undisturbed(k, from, h[1..], e - 1) && undisturbed {
      forall i | 0 <= i < e && h[i].StreamKey() == k ensures h[i].from == from && h[i].block.marker != START {
        if i > 0 {
          assert h[1..][i - 1] == h[i];
        }
      }
    }
  }

  lemma {:induction false} DisturbedAtOnce(k: Key, from: nat, h: History, e: nat)
    requires FirstEnd(k, from, h, e) && e > 0
    requires h[0].StreamKey() == k && (h[0].block.marker == START || h[0].from != from)
    ensures Recorded(k, h) != OwnBlocks(k, from, h[..e + 1]) && !Undisturbed(k, from, h, e)
  {
    if h[0].block.marker == START {
      assert h[..e + 1][e] == h[e];
      OwnBlocksAreOwn(k, from, h[..e + 1], h[e]);
    } else {
      assert h[0] in Recorded(k, h);
      OwnBlocksAreOwn(k, from, h[..e + 1], h[0]);
    }
  }

  /** The file opened by a START holds the blocks of its own transmitter and receiver through that
      transmitter's END, and nothing else, if and only if between the two no block with the same
      id goes to the same receiver from another transmitter (and no second START from its own). */
  lemma {:induction false} FileIsOwnIff(h: History, j: nat, e: nat)
    requires j < |h| && h[j].block.marker == START && FirstEnd(h[j].StreamKey(), h[j].from, h[j + 1..], e)
    ensures var k, from, rest, i := h[j].StreamKey(), h[j].from, h[j + 1..], Starts(h[..j]);
      && i < |Run(INITIAL, h).logs|
      && Run(INITIAL, h).logs[i] == LogFile(k, from, h[j].block.buffer.startTime, SamplesOf([h[j]] + Recorded(k, rest)))
      && (Recorded(k, rest) == OwnBlocks(k, from, rest[..e + 1]) <==> Undisturbed(k, from, rest, e))
  {
    FileContents(h);
    FileOfStart(h, j);
    RecordedIsOwnIff(h[j].StreamKey(), h[j].from, h[j + 1..], e);
  }

  /** Packet ids are counted by each detector, and the stream of a receiver does not name the
      source: of two packets with one id on their way to one receiver, the second START ends the
      file of the first and takes over its blocks. */
  lemma {:induction false} SameIdSharesAStream(a: AudioBuffer, b: AudioBuffer, c: AudioBuffer, to: nat, id: int)
    requires a.Buffer? && b.Buffer? && c.Buffer?
    ensures var h := [Entry(OUT, 1, to, Tagged(a, START, id)), Entry(OUT, 2, to, Tagged(b, START, id)),
                      Entry(OUT, 1, to, Tagged(c, MIDDLE, id))];
      var k := Key(OUT, id, to);
      Run(INITIAL, h).logs == [LogFile(k, 1, a.startTime, a.samples), LogFile(k, 2, b.startTime, b.samples + c.samples)]
  {
    var e1, e2 := Entry(OUT, 1, to, Tagged(a, START, id)), Entry(OUT, 2, to, Tagged(b, START, id));
    var e3 := Entry(OUT, 1, to, Tagged(c, MIDDLE, id));
    assert [e1, e2, e3][1..] == [e2, e3] && [e2, e3][1..] == [e3] && [e3][1..] == [];
    FileContents([e1, e2, e3]);
    var k := Key(OUT, id, to);
    assert Until(k, [e3]) == c.samples + Until(k, []) == c.samples;
    assert Until(k, [e2, e3]) == [];
    assert a.samples + [] == a.samples;
    assert Files([e3]) == Files([]) == [];
  }
}
