/** main.c: the counters of AT+STREAMSTAT tell the history of the device, modulo 2^32. */
module BridgeCounts {
  import opened Common
  import opened Protocol
  import opened BridgeModel
  import opened BridgeInvariant
  import opened BridgeEscape
  import opened BridgeSessions

  /** Bytes and notifications that came from the peer, bytes and chunks that it took, sessions opened, connections
      that dropped unasked, and occasions of back-pressure. */
  datatype Tally = Tally(bytesIn: nat, notes: nat, bytesOut: nat, writes: nat, entries: nat, drops: nat, pressure: nat)

  const NOTHING := Tally(0, 0, 0, 0, 0, 0, 0)

  function Sum(a: Tally, b: Tally): Tally {
    Tally(a.bytesIn + b.bytesIn, a.notes + b.notes, a.bytesOut + b.bytesOut, a.writes + b.writes,
          a.entries + b.entries, a.drops + b.drops, a.pressure + b.pressure)
  }

  function One(b: bool): nat {
    if b then 1 else 0
  }

  /** The byte is not withheld, and the ring has no place for it after the candidate that it ends. */
  predicate Lost(s: State, a: Arrival) {
    !RxByte(s, a).escape.active && |s.h2b| + s.escape.count >= H2B_SIZE
  }

  function LostIn(s: State, arrivals: seq<Arrival>): nat {
    if arrivals == [] then 0
    else
      var front := arrivals[..|arrivals| - 1];
      LostIn(s, front) + One(Lost(RxBytes(s, front), arrivals[|arrivals| - 1]))
  }

  function Pressure(s: State, ev: Event): nat {
    One(!s.flags.paused && Step(s, ev).flags.paused) +
    (if ev.Notify? && s.app == DataMode then One(|s.b2h| + |ev.data| > B2H_SIZE && ev.data != "")
     else if ev.UartRx? && s.app == DataMode && Room(s) then LostIn(s, ev.arrivals)
     else 0)
  }

  /** What a step adds. */
  function Delta(s: State, ev: Event): Tally {
    Tally(if ev.Notify? then |ev.data| else 0,
          One(ev.Notify?),
          if ev == PumpSends(Success) && s.pump.Holding? then |s.pump.chunk| else 0,
          One(ev == PumpSends(Success) && s.pump.Holding?),
          One(s.app != DataMode && Step(s, ev).app == DataMode),
          One(ev == LinkDown(false)),
          Pressure(s, ev))
  }

  const MOD: nat := 0x1_0000_0000

  function Largest(a: nat, b: nat): nat {
    if a > b then a else b
  }

  // The marks are at least as high as the rings are full.
  predicate Marked(s: State) {
    s.stats.maxHostToBle >= |s.h2b| && s.stats.maxBleToHost >= |s.b2h|
  }

  predicate Bounded(st: Stats) {
    st.bleToHost < MOD && st.notifyOps < MOD && st.hostToBle < MOD && st.writeOps < MOD && st.entries < MOD &&
    st.unexpectedDisconnects < MOD && st.backpressure < MOD
  }

  /** The counters after `d` more, and the marks for these rings. */
  function Advanced(st: Stats, d: Tally, h2b: nat, b2h: nat): Stats {
    Stats(Add32(st.hostToBle, d.bytesOut), Add32(st.bleToHost, d.bytesIn), Add32(st.writeOps, d.writes),
          Add32(st.notifyOps, d.notes), Add32(st.backpressure, d.pressure), Largest(st.maxHostToBle, h2b),
          Largest(st.maxBleToHost, b2h), Add32(st.entries, d.entries), Add32(st.unexpectedDisconnects, d.drops))
  }

  predicate Advances(s: State, r: State, d: Tally) {
    r.stats == Advanced(s.stats, d, |r.h2b|, |r.b2h|)
  }

  lemma AddNone(st: Stats)
    requires Bounded(st)
    ensures Add32(st.bleToHost, 0) == st.bleToHost && Add32(st.notifyOps, 0) == st.notifyOps
    ensures Add32(st.hostToBle, 0) == st.hostToBle && Add32(st.writeOps, 0) == st.writeOps
    ensures Add32(st.entries, 0) == st.entries && Add32(st.unexpectedDisconnects, 0) == st.unexpectedDisconnects
    ensures Add32(st.backpressure, 0) == st.backpressure
  {
  }

  lemma AddTwice(n: nat, a: nat, b: nat)
    ensures Add32(Add32(n, a), b) == Add32(n, a + b)
  {
  }

  // ---------- a chunk ----------

  // What bytes change of the counters: back-pressure, and the mark of the ring.
  predicate Pressed(s: State, r: State, n: nat) {
    r.stats == s.stats.(backpressure := Add32(s.stats.backpressure, n),
                        maxHostToBle := Largest(s.stats.maxHostToBle, |r.h2b|))
  }

  lemma FlushPressed(s: State, later: Uptime)
    requires Bounded(s.stats) && Marked(s)
    ensures var r := FlushCandidate(s, later); Pressed(s, r, 0) && Marked(r) && s.h2b <= r.h2b
    ensures s.escape.active && s.escape.count > 0 ==>
              |FlushCandidate(s, later).h2b| == Min(H2B_SIZE, |s.h2b| + s.escape.count)
  {
    AddNone(s.stats);
    hide ScheduleTx, Add32;
  }

  lemma PlainPressed(s: State, a: Arrival)
    requires Bounded(s.stats) && Marked(s)
    ensures var r := RxPlain(s, a);
            Pressed(s, r, One(!StartsCandidate(s, a) && |s.h2b| >= H2B_SIZE)) && Marked(r) && s.h2b <= r.h2b
  {
    AddNone(s.stats);
    hide Add32;
  }

  // The byte after a flushed candidate.
  lemma FlushedCounts(s: State, a: Arrival)
    requires Bounded(s.stats) && Marked(s) && (s.escape.active <==> s.escape.count > 0)
    ensures var m := FlushCandidate(s, a.later); var r := RxPlain(m, a);
            Pressed(s, r, One(!r.escape.active && |s.h2b| + s.escape.count >= H2B_SIZE)) && Marked(r) && s.h2b <= r.h2b
  {
    hide FlushCandidate, RxPlain, Add32;
    AddNone(s.stats);
    FlushPressed(s, a.later);
    PlainPressed(FlushCandidate(s, a.later), a);
  }

  lemma ByteCounts(s: State, a: Arrival)
    requires CandidateOk(s) && Bounded(s.stats) && Marked(s)
    ensures Pressed(s, RxByte(s, a), One(Lost(s, a))) && Marked(RxByte(s, a)) && s.h2b <= RxByte(s, a).h2b
  {
    hide FlushCandidate, RxPlain, Add32, Elapsed;
    AddNone(s.stats);
    var s2 := Log(s.(clock := a.later), Arrived(a.b, a.now));
    if !s2.escape.active {
      FlushedCounts(s2, a);
      assert FlushCandidate(s2, a.later) == s2;
    } else if a.b != '+' || s2.escape.count >= 3 {
      FlushedCounts(s2.(work := s2.work.(guard := false)), a);
    }
  }

  lemma {:induction false} BytesCount(s: State, arrivals: seq<Arrival>)
    requires CandidateOk(s) && InOrder(s.clock, arrivals) && Bounded(s.stats) && Marked(s)
    ensures var r := RxBytes(s, arrivals);
            Pressed(s, r, LostIn(s, arrivals)) && Bounded(r.stats) && Marked(r) && s.h2b <= r.h2b
    decreases |arrivals|
  {
    hide RxByte, Lost;
    if arrivals == [] {
      AddNone(s.stats);
    } else {
      var front := arrivals[..|arrivals| - 1];
      InOrderPrefix(s.clock, arrivals);
      RxBytesFrame(s, front);
      BytesCount(s, front);
      var m := RxBytes(s, front);
      ByteCounts(m, arrivals[|arrivals| - 1]);
      AddTwice(s.stats.backpressure, LostIn(s, front), One(Lost(m, arrivals[|arrivals| - 1])));
    }
  }

  // ---------- every step ----------

  lemma ChunkAdvances(s: State, arrivals: seq<Arrival>)
    requires Consistent(s) && Enabled(s, UartRx(arrivals)) && s.app == DataMode && Room(s) && Bounded(s.stats) && Marked(s)
    ensures var r := DataModeRx(s, arrivals);
            Marked(r) && r.b2h == s.b2h && Pressed(s, r, One(!s.flags.paused && r.flags.paused) + LostIn(s, arrivals))
  {
    hide RxBytes, ScheduleTx, RefreshFlow, Add32, LostIn;
    RxBytesFrame(s, arrivals);
    BytesCount(s, arrivals);
    var m := ScheduleTx(RxBytes(s, arrivals));
    RefreshAdvances(m);
    AddTwice(s.stats.backpressure, LostIn(s, arrivals), One(!m.flags.paused && RefreshFlow(m).flags.paused));
  }

  lemma RxAdvances(s: State, arrivals: seq<Arrival>)
    requires Consistent(s) && Enabled(s, UartRx(arrivals)) && Bounded(s.stats) && Marked(s)
    ensures Advances(s, IsrRx(s, arrivals), Delta(s, UartRx(arrivals))) && Marked(IsrRx(s, arrivals))
  {
    hide DataModeRx, Add32, LostIn;
    AddNone(s.stats);
    NothingLost(s);
    DataModeStays(s, arrivals);
    if s.app == DataMode && Room(s) && arrivals != [] {
      ChunkAdvances(s, arrivals);
    }
  }

  lemma DataModeStays(s: State, arrivals: seq<Arrival>)
    requires Consistent(s) && Enabled(s, UartRx(arrivals))
    ensures s.app == DataMode ==> DataModeRx(s, arrivals).app == DataMode
  {
    if s.app == DataMode {
      RxBytesFrame(s, arrivals);
    }
    hide RxBytes, ScheduleTx, RefreshFlow;
  }

  lemma NothingLost(s: State)
    ensures LostIn(s, []) == 0
  {
  }

  lemma RefreshAdvances(s: State)
    requires Bounded(s.stats)
    ensures RefreshFlow(s).stats ==
            s.stats.(backpressure := Add32(s.stats.backpressure, One(!s.flags.paused && RefreshFlow(s).flags.paused)))
  {
    AddNone(s.stats);
    hide Add32;
  }

  lemma ActivateAdvances(s: State, now: Uptime)
    requires Bounded(s.stats)
    ensures var r := Activate(s, now);
            && r.stats == s.stats.(entries := Add32(s.stats.entries, One(s.app != DataMode && r.app == DataMode)),
                                   backpressure := Add32(s.stats.backpressure, One(!s.flags.paused && r.flags.paused)))
            && r.h2b == s.h2b && r.b2h == s.b2h && Bounded(r.stats)
  {
    hide RefreshFlow;
    AddNone(s.stats);
    if Activates(s) {
      RefreshAdvances(OpenSession(s, now));
    }
  }

  lemma TxAdvances(s: State, room: nat, now: Uptime)
    requires Consistent(s) && Enabled(s, UartTx(room, now)) && Bounded(s.stats) && Marked(s)
    ensures var r := ServiceTx(s, room, now); Advances(s, r, Delta(s, UartTx(room, now))) && Marked(r)
  {
    hide Activate, Add32, Consistent;
    AddNone(s.stats);
    var s1 := s.(clock := now);
    ActivateAdvances(s1, now);
    var s2 := Activate(s1, now);
    ActivateAdvances(Log(s2.(b2h := s2.b2h[Min(room, Min(UART_TX_CHUNK, |s2.b2h|))..]),
                         WireData(s2.b2h[..Min(room, Min(UART_TX_CHUNK, |s2.b2h|))])), now);
    ActivateAdvances(Log(s2.(ctrl := s2.ctrl[Min(room, Min(UART_TX_CHUNK, |s2.ctrl|))..]),
                         WireControl(s2.ctrl[..Min(room, Min(UART_TX_CHUNK, |s2.ctrl|))])), now);
  }

  lemma GuardAdvances(s: State, now: Uptime)
    requires Consistent(s) && Enabled(s, GuardFires(now)) && Bounded(s.stats) && Marked(s)
    ensures var r := GuardFired(s, now); Advances(s, r, Delta(s, GuardFires(now))) && Marked(r)
  {
    hide FlushCandidate, ExitDataMode, Add32, Consistent;
    AddNone(s.stats);
    GuardInData(s, now);
    FlushPressed(s.(work := s.work.(guard := false), clock := now), now);
    ExitCounts(s.(work := s.work.(guard := false), clock := now));
  }

  lemma GuardInData(s: State, now: Uptime)
    requires Consistent(s) && Enabled(s, GuardFires(now))
    ensures s.app == DataMode && s.escape.active && s.escape.count > 0
  {
  }

  lemma ExitCounts(s: State)
    ensures var r := ExitDataMode(s);
            r.stats == s.stats && r.h2b == s.h2b && r.b2h == "" && !r.flags.paused && r.app != DataMode
  {
    hide QueueLine;
  }

  lemma SendAdvances(s: State, result: Errno)
    requires Consistent(s) && s.pump.Holding? && Bounded(s.stats) && Marked(s)
    ensures var r := PumpResult(s, result); Advances(s, r, Delta(s, PumpSends(result))) && Marked(r)
  {
    hide RefreshFlow, Add32;
    AddNone(s.stats);
    if result == Success {
      TakenBounded(s, s.pump.chunk);
      RefreshAdvances(TakeSent(s, s.pump.chunk));
    }
  }

  lemma TakenBounded(s: State, chunk: string)
    requires Bounded(s.stats)
    ensures Bounded(TakeSent(s, chunk).stats)
  {
  }

  lemma NotifyAdvances(s: State, data: string)
    requires Bounded(s.stats) && Marked(s)
    ensures var r := NotifyArrived(s, data); Advances(s, r, Delta(s, Notify(data))) && Marked(r)
  {
    hide QueueLine, Add32;
    AddNone(s.stats);
  }

  lemma DropAdvances(s: State, byUser: bool)
    requires Bounded(s.stats) && Marked(s)
    ensures var r := OnDisconnected(s, byUser); Advances(s, r, Delta(s, LinkDown(byUser))) && Marked(r)
  {
    hide Add32, OnDisconnected, CountDisconnect;
    AddNone(s.stats);
    DropCounts(s, byUser);
  }

  lemma DropCounts(s: State, byUser: bool)
    ensures var r := OnDisconnected(s, byUser);
            && r.stats == CountDisconnect(s, byUser).stats && r.h2b == r.b2h == "" && !r.flags.paused && r.app == Idle
    ensures CountDisconnect(s, byUser).stats ==
            s.stats.(unexpectedDisconnects := if byUser then s.stats.unexpectedDisconnects
                                              else Add32(s.stats.unexpectedDisconnects, 1))
  {
    hide QueueLine, Add32;
  }

  lemma TalkAdvances(s: State, ev: Event)
    requires Consistent(s) && Enabled(s, ev) && Talks(ev) && Bounded(s.stats) && Marked(s)
    ensures Advances(s, Step(s, ev), Delta(s, ev)) && Marked(Step(s, ev))
  {
    hide Step, Consistent, Enabled, TalkOnly, Add32;
    TalkingStep(s, ev);
    AddNone(s.stats);
  }

  lemma AdvancedBounded(st: Stats, d: Tally, h2b: nat, b2h: nat)
    ensures Bounded(Advanced(st, d, h2b, b2h))
  {
  }

  /** Every step advances the counters by what happened in it, and the marks to the depths it leaves. */
  lemma StepAdvances(s: State, ev: Event)
    requires Consistent(s) && Enabled(s, ev) && Bounded(s.stats) && Marked(s)
    ensures var r := Step(s, ev); Advances(s, r, Delta(s, ev)) && Marked(r) && Bounded(r.stats)
  {
    hide IsrRx, ServiceTx, GuardFired, PumpResult, NotifyArrived, OnDisconnected, Delta, Advanced, Marked, Consistent,
         Bounded, QueueLine, StartScan, Connect, Disconnect, EnterDataMode, OnProfileReady, OnConnected, OnConnectFailed,
         OnProfileError, StopScan, PumpClaim;
    AdvancedBounded(s.stats, Delta(s, ev), |Step(s, ev).h2b|, |Step(s, ev).b2h|);
    match ev {
      case UartRx(arrivals) => RxAdvances(s, arrivals);
      case UartTx(room, now) => TxAdvances(s, room, now);
      case GuardFires(now) => GuardAdvances(s, now);
      case PumpSends(result) => SendAdvances(s, result);
      case Notify(data) => NotifyAdvances(s, data);
      case LinkDown(byUser) => DropAdvances(s, byUser);
      case _ => TalkAdvances(s, ev);
    }
  }

  // ---------- runs ----------

  function TallyOf(s: State, events: seq<Event>): Tally
    decreases |events|
  {
    if events == [] then NOTHING else Sum(Delta(s, events[0]), TallyOf(Step(s, events[0]), events[1..]))
  }

  // The most that waited in a ring after any step of the run.
  function DeepestOut(s: State, events: seq<Event>): nat
    decreases |events|
  {
    if events == [] then 0
    else Largest(|Step(s, events[0]).h2b|, DeepestOut(Step(s, events[0]), events[1..]))
  }

  function DeepestIn(s: State, events: seq<Event>): nat
    decreases |events|
  {
    if events == [] then 0
    else Largest(|Step(s, events[0]).b2h|, DeepestIn(Step(s, events[0]), events[1..]))
  }

  lemma AdvancedTwice(st: Stats, d: Tally, e: Tally, h1: nat, b1: nat, h2: nat, b2: nat)
    ensures Advanced(Advanced(st, d, h1, b1), e, h2, b2) == Advanced(st, Sum(d, e), Largest(h1, h2), Largest(b1, b2))
  {
    AddTwice(st.hostToBle, d.bytesOut, e.bytesOut);
    AddTwice(st.bleToHost, d.bytesIn, e.bytesIn);
    AddTwice(st.writeOps, d.writes, e.writes);
    AddTwice(st.notifyOps, d.notes, e.notes);
    AddTwice(st.backpressure, d.pressure, e.pressure);
    AddTwice(st.entries, d.entries, e.entries);
    AddTwice(st.unexpectedDisconnects, d.drops, e.drops);
    hide Add32;
  }

  lemma {:induction false} RunAdvances(s: State, events: seq<Event>)
    requires Consistent(s) && Legal(s, events) && Bounded(s.stats) && Marked(s)
    ensures Run(s, events).stats ==
            Advanced(s.stats, TallyOf(s, events), DeepestOut(s, events), DeepestIn(s, events))
    decreases |events|
  {
    hide Step, Consistent, Enabled, Delta, Bounded, Marked, Advanced, Sum;
    if events == [] {
      AdvancedNothing(s.stats);
    } else {
      var ev, rest := events[0], events[1..];
      var r := Step(s, ev);
      StepKeeps(s, ev);
      StepAdvances(s, ev);
      RunAdvances(r, rest);
      AdvancedTwice(s.stats, Delta(s, ev), TallyOf(r, rest), |r.h2b|, |r.b2h|, DeepestOut(r, rest), DeepestIn(r, rest));
    }
  }

  lemma AdvancedNothing(st: Stats)
    requires Bounded(st)
    ensures Advanced(st, NOTHING, 0, 0) == st
  {
    AddNone(st);
    hide Add32;
  }

  /** After every run from power-on: bytes and notifications received, bytes and chunks sent, sessions, unasked
      disconnections and occasions of back-pressure are those of the run, modulo 2^32, and the two marks are the
      greatest depths that the rings reached. */
  lemma StatsTellHistory(guardMs: u16, allow: bool, payload: nat, now: Uptime, events: seq<Event>)
    requires payload >= 1 && Legal(PowerOn(guardMs, allow, payload, now), events)
    ensures var p := PowerOn(guardMs, allow, payload, now);
            var st := Run(p, events).stats; var t := TallyOf(p, events);
            && st.bleToHost == t.bytesIn % MOD && st.notifyOps == t.notes % MOD
            && st.hostToBle == t.bytesOut % MOD && st.writeOps == t.writes % MOD
            && st.entries == t.entries % MOD && st.unexpectedDisconnects == t.drops % MOD
            && st.backpressure == t.pressure % MOD
            && st.maxHostToBle == DeepestOut(p, events) && st.maxBleToHost == DeepestIn(p, events)
  {
    PowerOnIsConsistent(guardMs, allow, payload, now);
    RunAdvances(PowerOn(guardMs, allow, payload, now), events);
    hide Run, TallyOf, DeepestOut, DeepestIn, Legal;
  }
}
