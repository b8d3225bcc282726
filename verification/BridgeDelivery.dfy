/** main.c: bytes taken from the host reach the BLE link exactly once and in order, whatever the sends
    return and whenever the receive interrupt fills the ring. */
module BridgeDelivery {
  import opened Common
  import opened Protocol
  import opened BridgeModel
  import opened BridgeInvariant

  /** What a trace says of the host-to-BLE direction: the bytes the ring took and the chunks the link
      took since the link last dropped, and how many bytes and chunks the link took ever. */
  datatype Air = Air(accepted: string, delivered: string, bytes: nat, chunks: nat)

  function WatchAir(v: Air, o: Obs): Air {
    match o
    case Offered(bytes, kept) => if kept <= |bytes| then v.(accepted := v.accepted + bytes[..kept]) else v
    case Sent(chunk) => v.(delivered := v.delivered + chunk, bytes := v.bytes + |chunk|, chunks := v.chunks + 1)
    case LinkDropped => v.(accepted := "", delivered := "")
    case _ => v
  }

  function AirOf(trace: seq<Obs>): Air {
    if trace == [] then Air("", "", 0, 0) else WatchAir(AirOf(trace[..|trace| - 1]), trace[|trace| - 1])
  }

  /** The link took a prefix of what the ring took, the ring holds exactly the rest, and the two
      counters of AT+STREAMSTAT are the lengths of that history modulo 2^32. */
  ghost predicate Conserved(s: State) {
    var v := AirOf(s.trace);
    && v.accepted == v.delivered + s.h2b
    && s.stats.hostToBle == v.bytes % 0x1_0000_0000
    && s.stats.writeOps == v.chunks % 0x1_0000_0000
  }

  lemma LogAir(s: State, o: Obs)
    ensures AirOf(Log(s, o).trace) == WatchAir(AirOf(s.trace), o)
  {
    assert (s.trace + [o])[..|s.trace|] == s.trace;
  }

  lemma {:induction false} TalkAir(before: seq<Obs>, after: seq<Obs>)
    requires TalkOnly(before, after)
    ensures AirOf(before) == AirOf(after)
    decreases |after|
  {
    if |before| < |after| {
      TalkAir(before, after[..|after| - 1]);
    } else {
      assert before == after;
    }
  }

  lemma PutConserves(s: State, bytes: string)
    requires Conserved(s)
    ensures Conserved(PutHost(s, bytes))
  {
    var kept := Fitting(bytes, H2B_SIZE - |s.h2b|);
    LogAir(s.(h2b := s.h2b + kept), Offered(bytes, |kept|));
    assert bytes[..|kept|] == kept;
  }

  lemma FlushConserves(s: State, later: Uptime)
    requires Conserved(s)
    ensures Conserved(FlushCandidate(s, later))
  {
    PutConserves(s, Pluses(s.escape.count));
    hide ScheduleTx, PutHost;
  }

  lemma PlainConserves(s: State, a: Arrival)
    requires Conserved(s)
    ensures Conserved(RxPlain(s, a))
  {
    PutConserves(s, [a.b]);
    hide PutHost;
  }

  lemma ByteConserves(s: State, a: Arrival)
    requires Conserved(s)
    ensures Conserved(RxByte(s, a))
  {
    hide FlushCandidate, RxPlain, AirOf;
    var s1 := s.(clock := a.later);
    LogAir(s1, Arrived(a.b, a.now));
    var s2 := Log(s1, Arrived(a.b, a.now));
    if !s2.escape.active {
      PlainConserves(s2, a);
    } else {
      var s3 := s2.(work := s2.work.(guard := false));
      FlushConserves(s3, a.later);
      PlainConserves(FlushCandidate(s3, a.later), a);
    }
  }

  lemma {:induction false} BytesConserve(s: State, arrivals: seq<Arrival>)
    requires Conserved(s)
    ensures Conserved(RxBytes(s, arrivals))
    decreases |arrivals|
  {
    if arrivals != [] {
      BytesConserve(s, arrivals[..|arrivals| - 1]);
      ByteConserves(RxBytes(s, arrivals[..|arrivals| - 1]), arrivals[|arrivals| - 1]);
    }
  }

  lemma ExitConserves(s: State)
    requires Conserved(s)
    ensures Conserved(ExitDataMode(s))
  {
    hide QueueLine, AirOf, RefreshFlow;
    var s1 := ClearSession(s);
    var s2 := s1.(app := if s1.conn != Null then ControlReady else Idle);
    LogAir(s2, Left(true));
    TalkAir(Log(s2, Left(true)).trace, QueueLine(Log(s2, Left(true)), EXITED).trace);
  }

  lemma SendConserves(s: State, result: Errno)
    requires Consistent(s) && Conserved(s) && s.pump.Holding?
    ensures Conserved(PumpResult(s, result))
  {
    hide RefreshFlow, TakeSent;
    if result == Success {
      assert s.pump.chunk <= s.h2b;
      TakeConserves(s, s.pump.chunk);
      hide Consistent, Conserved, Retryable;
      RefreshConserves(TakeSent(s, s.pump.chunk));
    }
  }

  lemma AirTakes(v: Air, h2b: string, chunk: string)
    requires v.accepted == v.delivered + h2b && chunk <= h2b
    ensures WatchAir(v, Sent(chunk)).accepted == WatchAir(v, Sent(chunk)).delivered + h2b[|chunk|..]
  {
    var rest := h2b[|chunk|..];
    assert h2b == chunk + rest;
    assert v.delivered + (chunk + rest) == (v.delivered + chunk) + rest;
  }

  lemma CountsOn(total: nat, n: nat)
    ensures Add32(total % 0x1_0000_0000, n) == (total + n) % 0x1_0000_0000
  {
  }

  lemma TakeConserves(s: State, chunk: string)
    requires Conserved(s) && chunk <= s.h2b
    ensures Conserved(TakeSent(s, chunk))
  {
    hide AirOf, Add32;
    var v := AirOf(s.trace);
    LogAir(TakeSent(s, chunk).(trace := s.trace), Sent(chunk));
    AirTakes(v, s.h2b, chunk);
    CountsOn(v.bytes, |chunk|);
    CountsOn(v.chunks, 1);
  }

  lemma RefreshConserves(s: State)
    requires Conserved(s)
    ensures Conserved(RefreshFlow(s))
  {
    hide AirOf, RefreshFlow;
  }

  lemma TxConserves(s: State, room: nat, now: Uptime)
    requires Conserved(s)
    ensures Conserved(ServiceTx(s, room, now))
  {
    hide Activate, AirOf;
    var s1 := s.(clock := now);
    ActivateConserves(s1, now);
    var s2 := Activate(s1, now);
    var d := Min(room, Min(UART_TX_CHUNK, |s2.b2h|));
    var c := Min(room, Min(UART_TX_CHUNK, |s2.ctrl|));
    if s2.app == DataMode && |s2.ctrl| == 0 {
      LogAir(s2.(b2h := s2.b2h[d..]), WireData(s2.b2h[..d]));
      ActivateConserves(Log(s2.(b2h := s2.b2h[d..]), WireData(s2.b2h[..d])), now);
    } else {
      LogAir(s2.(ctrl := s2.ctrl[c..]), WireControl(s2.ctrl[..c]));
      ActivateConserves(Log(s2.(ctrl := s2.ctrl[c..]), WireControl(s2.ctrl[..c])), now);
    }
  }

  lemma ActivateConserves(s: State, now: Uptime)
    requires Conserved(s)
    ensures Conserved(Activate(s, now))
  {
    hide RefreshFlow;
    if Activates(s) {
      var s1 := s.(flags := s.flags.(pending := false, flushDue := false), escape := Escape(false, 0),
                   work := s.work.(retry := false, coalesce := false), lastRx := now,
                   stats := s.stats.(entries := Add32(s.stats.entries, 1)), app := DataMode);
      LogAir(s1, Opened(now));
    }
  }

  lemma NotifyConserves(s: State, data: string)
    requires Conserved(s)
    ensures Conserved(NotifyArrived(s, data))
  {
    hide QueueLine, AirOf;
    var s1 := s.(stats := s.stats.(notifyOps := Add32(s.stats.notifyOps, 1),
                                   bleToHost := Add32(s.stats.bleToHost, |data|)));
    if s.app == DataMode {
      var kept := Fitting(data, B2H_SIZE - |s.b2h|);
      LogAir(s1.(b2h := s1.b2h + kept), Heard(kept));
    } else {
      TalkAir(s1.trace, QueueLine(s1, RecvLine(data)).trace);
    }
  }

  lemma DropConserves(s: State, byUser: bool)
    requires Conserved(s)
    ensures Conserved(OnDisconnected(s, byUser))
  {
    hide QueueLine, RefreshFlow, AirOf;
    var s0 := CountDisconnect(s, byUser);
    var s1 := LoseLink(s0);
    LogAir(s0.(profile := s0.profile.(ready := false), conn := Null, link := Down, h2b := ""), LinkDropped);
    LogAir(s1, Left(false));
    var s2 := ClearSession(if s.app == DataMode then Log(s1, Left(false)) else s1).(app := Idle);
    TalkAir(s2.trace, QueueLine(s2, "+IND=BLMD,0").trace);
  }

  /** Every step conserves the host's bytes. */
  lemma RxConserves(s: State, arrivals: seq<Arrival>)
    requires Conserved(s)
    ensures Conserved(IsrRx(s, arrivals))
  {
    hide AirOf, RxBytes, ScheduleTx, RefreshFlow;
    BytesConserve(s, arrivals);
  }

  lemma GuardConserves(s: State, now: Uptime)
    requires Conserved(s)
    ensures Conserved(GuardFired(s, now))
  {
    hide AirOf, FlushCandidate, ExitDataMode;
    FlushConserves(s.(work := s.work.(guard := false), clock := now), now);
    ExitConserves(s.(work := s.work.(guard := false), clock := now));
  }

  lemma TalkConserves(s: State, ev: Event)
    requires Consistent(s) && Enabled(s, ev) && Talks(ev) && Conserved(s)
    ensures Conserved(Step(s, ev))
  {
    hide AirOf, Step, TalkOnly, Consistent, Enabled;
    TalkingStep(s, ev);
    TalkAir(s.trace, Step(s, ev).trace);
  }

  lemma StepConserves(s: State, ev: Event)
    requires Consistent(s) && Enabled(s, ev) && Conserved(s)
    ensures Conserved(Step(s, ev))
  {
    hide IsrRx, ServiceTx, GuardFired, PumpResult, NotifyArrived, OnDisconnected, Conserved;
    match ev {
      case UartRx(arrivals) => RxConserves(s, arrivals);
      case UartTx(room, now) => TxConserves(s, room, now);
      case GuardFires(now) => GuardConserves(s, now);
      case PumpSends(result) => SendConserves(s, result);
      case Notify(data) => NotifyConserves(s, data);
      case LinkDown(byUser) => DropConserves(s, byUser);
      case _ => TalkConserves(s, ev);
    }
  }

  lemma {:induction false} RunConserves(s: State, events: seq<Event>)
    requires Consistent(s) && Legal(s, events) && Conserved(s)
    ensures Conserved(Run(s, events))
    decreases |events|
  {
    if events != [] {
      StepKeeps(s, events[0]);
      StepConserves(s, events[0]);
      RunConserves(Step(s, events[0]), events[1..]);
    }
  }
}
