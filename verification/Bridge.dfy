/** main.c as it is written: one object holding the globals, one method a function.  Every method is proved
    to do what BridgeModel says of it; Handle serves every event by its handler, and PowerOnAndPlay carries
    what is proved of every run over to the object. */
module Bridge {
  import opened Common
  import opened Protocol
  import opened BridgeModel
  import opened BridgeInvariant
  import opened BridgeDelivery
  import opened BridgeEscape
  import opened BridgeWire
  import opened BridgeRuns

  class Device {
    // main.c
    var appState: App
    var currentConn: Pointer
    var flags: Flags
    var escape: Escape
    var lastHostRx: Uptime
    var hostToBle: HostRing
    var bleToHost: DataRing
    var ctrlTx: CtrlRing
    var stats: Stats
    // work items and timers
    var work: Work
    var pump: Pump
    // what main.c asks other modules for
    var link: Link
    var profile: Profile
    var rxIrq: Irq
    var clock: Uptime
    var config: Config
    ghost var trace: seq<Obs>

    ghost function Snapshot(): State
      reads this
    {
      State(appState, currentConn, flags, escape, lastHostRx, hostToBle, bleToHost, ctrlTx, stats, work, pump,
            link, profile, rxIrq, clock, config, trace)
    }

    constructor (guardMs: u16, allowDataMode: bool, payload: nat, now: Uptime)
      ensures Snapshot() == PowerOn(guardMs, allowDataMode, payload, now)
    {
      appState, currentConn, flags := Idle, Null, Flags(false, false, false);
      escape, lastHostRx, hostToBle, bleToHost, ctrlTx := Escape(false, 0), now, "", "", "";
      stats := Stats(0, 0, 0, 0, 0, 0, 0, 0, 0);
      work := Work(false, false, false, false, false);
      pump, link, profile, rxIrq, clock := Resting, Down, Profile(false, payload), On, now;
      config := Config(guardMs, allowDataMode);
      trace := [];
    }

    // ring_put_bytes on the host-to-BLE ring
    method PutHostBytes(bytes: string) returns (written: nat)
      modifies this
      ensures Snapshot() == PutHost(old(Snapshot()), bytes)
      ensures written == |hostToBle| - |old(hostToBle)|
    {
      var kept := Fitting(bytes, H2B_SIZE - |hostToBle|);
      written := |kept|;
      hostToBle := hostToBle + kept;
      trace := trace + [Offered(bytes, |kept|)];
    }

    method UpdateMaxHostDepth()
      modifies this
      ensures Snapshot() == DeepestHost(old(Snapshot()))
    {
      if |hostToBle| > stats.maxHostToBle {
        stats := stats.(maxHostToBle := |hostToBle|);
      }
    }

    method CountBackpressure()
      modifies this
      ensures Snapshot() == Backpressure(old(Snapshot()))
    {
      stats := stats.(backpressure := Add32(stats.backpressure, 1));
    }

    method QueueCtrlBytes(bytes: string)
      modifies this
      ensures Snapshot() == QueueCtrl(old(Snapshot()), bytes)
    {
      if |bytes| == 0 {
        return;
      }
      var kept := Fitting(bytes, CTRL_SIZE - |ctrlTx|);
      ctrlTx := ctrlTx + kept;
      trace := trace + [Said(kept)];
    }

    method QueueCtrlLine(text: string)
      modifies this
      ensures Snapshot() == QueueLine(old(Snapshot()), text)
    {
      QueueCtrlBytes(text);
      QueueCtrlBytes(NEWLINE);
    }

    method QueueDataBytes(data: string)
      modifies this
      ensures Snapshot() == QueueData(old(Snapshot()), data)
    {
      if |data| == 0 {
        return;
      }
      var kept := Fitting(data, B2H_SIZE - |bleToHost|);
      bleToHost := bleToHost + kept;
      trace := trace + [Heard(kept)];
      if |kept| < |data| {
        CountBackpressure();
      }
      if |bleToHost| > stats.maxBleToHost {
        stats := stats.(maxBleToHost := |bleToHost|);
      }
    }

    method ClearDataModeSession()
      modifies this
      ensures Snapshot() == ClearSession(old(Snapshot()))
    {
      bleToHost := "";
      flags := Flags(false, false, false);
      escape := Escape(false, 0);
      work := work.(retry := false, coalesce := false, guard := false);
    }

    method RefreshUartRxFlowControl()
      modifies this
      ensures Snapshot() == RefreshFlow(old(Snapshot()))
    {
      if appState != DataMode {
        if flags.paused {
          flags, rxIrq := flags.(paused := false), On;
        }
        return;
      }
      if H2B_SIZE - |hostToBle| < RX_CHUNK {
        if !flags.paused {
          flags, rxIrq := flags.(paused := true), Off;
          CountBackpressure();
        }
        return;
      }
      if flags.paused {
        flags, rxIrq := flags.(paused := false), On;
      }
    }

    method ScheduleDataModeTx()
      modifies this
      ensures Snapshot() == ScheduleTx(old(Snapshot()))
    {
      if appState != DataMode || currentConn == Null || !profile.ready {
        return;
      }
      flags := flags.(flushDue := false);
      if |hostToBle| == 0 {
        work := work.(coalesce := false);
      } else if |hostToBle| >= profile.payloadLen {
        work := work.(coalesce := false, pump := true);
      } else {
        work := work.(coalesce := true);
      }
    }

    method FlushEscapeCandidate(later: Uptime)
      modifies this
      ensures Snapshot() == FlushCandidate(old(Snapshot()), later)
    {
      if !escape.active || escape.count == 0 {
        return;
      }
      var _ := PutHostBytes(Pluses(escape.count));
      UpdateMaxHostDepth();
      escape := Escape(false, 0);
      lastHostRx := later;
      ScheduleDataModeTx();
    }

    method LeaveDataMode()
      modifies this
      ensures Snapshot() == ExitDataMode(old(Snapshot()))
    {
      ClearDataModeSession();
      appState := if currentConn != Null then ControlReady else Idle;
      trace := trace + [Left(true)];
      QueueCtrlLine(EXITED);
      RefreshUartRxFlowControl();
    }

    method EscapeGuardHandler(now: Uptime)
      modifies this
      ensures Snapshot() == GuardFired(old(Snapshot()), now)
    {
      work, clock := work.(guard := false), now;
      if !escape.active {
        return;
      }
      if escape.count == 3 {
        if Elapsed(now, lastHostRx) < config.guardMs {
          work := work.(guard := true);
          return;
        }
        LeaveDataMode();
        return;
      }
      FlushEscapeCandidate(now);
    }

    method HoldPlus(count: nat, now: Uptime)
      modifies this
      ensures var s := old(Snapshot());
              Snapshot() == s.(escape := Escape(true, count), lastRx := now, work := s.work.(guard := true))
    {
      escape := Escape(true, count);
      lastHostRx := now;
      work := work.(guard := true);
    }

    // The second half of a turn of the byte loop of handle_data_mode_rx.
    method HandlePlainByte(a: Arrival)
      modifies this
      ensures Snapshot() == RxPlain(old(Snapshot()), a)
    {
      if a.b == '+' && Elapsed(a.now, lastHostRx) >= config.guardMs {
        HoldPlus(1, a.now);
        return;
      }
      var written := PutHostBytes([a.b]);
      if written != 1 {
        CountBackpressure();
      } else {
        UpdateMaxHostDepth();
      }
      lastHostRx := a.now;
    }

    // One turn of that loop.
    method HandleDataModeByte(a: Arrival)
      modifies this
      ensures Snapshot() == RxByte(old(Snapshot()), a)
    {
      hide FlushCandidate, RxPlain;
      clock := a.later;
      trace := trace + [Arrived(a.b, a.now)];
      if escape.active {
        work := work.(guard := false);
        if a.b == '+' && escape.count < 3 {
          HoldPlus(escape.count + 1, a.now);
          return;
        }
        FlushEscapeCandidate(a.later);
      }
      HandlePlainByte(a);
    }

    method HandleDataModeRx(arrivals: seq<Arrival>)
      modifies this
      ensures Snapshot() == DataModeRx(old(Snapshot()), arrivals)
    {
      for i := 0 to |arrivals|
        invariant Snapshot() == RxBytes(old(Snapshot()), arrivals[..i])
      {
        assert arrivals[..i + 1][..i] == arrivals[..i];
        HandleDataModeByte(arrivals[i]);
      }
      assert arrivals[..|arrivals|] == arrivals;
      ScheduleDataModeTx();
      RefreshUartRxFlowControl();
    }

    // The receive half of control_uart_isr, in data mode.
    method UartRxIsr(arrivals: seq<Arrival>)
      modifies this
      ensures Snapshot() == IsrRx(old(Snapshot()), arrivals)
    {
      if appState == DataMode && H2B_SIZE - |hostToBle| < RX_CHUNK {
        flags, rxIrq := flags.(paused := true), Off;
        CountBackpressure();
        return;
      }
      if |arrivals| == 0 {
        return;
      }
      if appState == DataMode {
        HandleDataModeRx(arrivals);
      }
    }

    method CoalesceHandler()
      modifies this
      ensures Snapshot() == Step(old(Snapshot()), CoalesceFires)
    {
      flags := flags.(flushDue := true);
      work := work.(coalesce := false, pump := true);
    }

    method RetryHandler()
      modifies this
      ensures Snapshot() == Step(old(Snapshot()), RetryFires)
    {
      work := work.(retry := false, pump := true);
    }

    // ble_write_work_handler up to the claim; the chunk stays in the ring until it is sent.
    method PumpToClaim(contiguous: nat)
      modifies this
      ensures Snapshot() == PumpClaim(old(Snapshot()), contiguous)
    {
      if currentConn == Null || !profile.ready {
        pump := Resting;
        return;
      }
      if |hostToBle| == 0 {
        flags := flags.(flushDue := false);
        pump := Resting;
        return;
      }
      if appState == DataMode && |hostToBle| < profile.payloadLen && !flags.flushDue {
        work := work.(coalesce := true);
        pump := Resting;
        return;
      }
      var claimed := hostToBle[..Min(Min(Min(|hostToBle|, profile.payloadLen), SEND_MAX),
                                     if contiguous == 0 then 1 else contiguous)];
      pump := if |claimed| == 0 then Resting else Holding(claimed);
    }

    method FinishClaim(length: nat)
      modifies this
      ensures var s := old(Snapshot());
              Snapshot() == s.(h2b := if length <= |s.h2b| then s.h2b[length..] else s.h2b)
    {
      if length <= |hostToBle| {
        hostToBle := hostToBle[length..];
      }
    }

    method FinishSend(chunk: string)
      modifies this
      ensures Snapshot() == TakeSent(old(Snapshot()), chunk)
    {
      FinishClaim(|chunk|);
      stats := stats.(hostToBle := Add32(stats.hostToBle, |chunk|), writeOps := Add32(stats.writeOps, 1));
      flags := flags.(flushDue := false);
      pump := AtTop;
      trace := trace + [Sent(chunk)];
    }

    // ble_write_work_handler from the result of profile_manager_send on.
    method PumpAfterSend(result: Errno)
      modifies this
      ensures Snapshot() == PumpResult(old(Snapshot()), result)
    {
      hide RefreshFlow;
      if !pump.Holding? {
        return;
      }
      var chunk := pump.chunk;
      if result == Success {
        FinishSend(chunk);
        RefreshUartRxFlowControl();
        return;
      }
      if Retryable(result) {
        work := work.(retry := true);
      }
      pump := Resting;
    }

    method ProfilePayloadReceived(data: string)
      modifies this
      ensures Snapshot() == NotifyArrived(old(Snapshot()), data)
    {
      stats := stats.(notifyOps := Add32(stats.notifyOps, 1), bleToHost := Add32(stats.bleToHost, |data|));
      if appState == DataMode {
        QueueDataBytes(data);
        return;
      }
      if Printable(data) && |data| <= SEND_MAX {
        QueueCtrlLine(RecvLine(data));
      }
    }

    method ResetEscape(now: Uptime)
      modifies this
      ensures var s := old(Snapshot());
              Snapshot() == s.(escape := Escape(false, 0), work := s.work.(retry := false, coalesce := false), lastRx := now)
    {
      escape := Escape(false, 0);
      work := work.(retry := false, coalesce := false);
      lastHostRx := now;
    }

    method OpenDataMode(now: Uptime)
      modifies this
      ensures Snapshot() == OpenSession(old(Snapshot()), now)
    {
      flags := flags.(pending := false, flushDue := false);
      ResetEscape(now);
      stats := stats.(entries := Add32(stats.entries, 1));
      appState := DataMode;
      trace := trace + [Opened(now)];
    }

    method ActivatePendingDataMode(now: Uptime)
      modifies this
      ensures Snapshot() == Activate(old(Snapshot()), now)
    {
      hide RefreshFlow;
      if !flags.pending || appState == DataMode || currentConn == Null {
        return;
      }
      if |ctrlTx| != 0 {
        return;
      }
      OpenDataMode(now);
      RefreshUartRxFlowControl();
    }

    method FillFifoWithData(n: nat)
      requires n <= |bleToHost|
      modifies this
      ensures var s := old(Snapshot()); Snapshot() == Log(s.(b2h := s.b2h[n..]), WireData(s.b2h[..n]))
    {
      trace := trace + [WireData(bleToHost[..n])];
      bleToHost := bleToHost[n..];
    }

    method FillFifoWithControl(n: nat)
      requires n <= |ctrlTx|
      modifies this
      ensures var s := old(Snapshot()); Snapshot() == Log(s.(ctrl := s.ctrl[n..]), WireControl(s.ctrl[..n]))
    {
      trace := trace + [WireControl(ctrlTx[..n])];
      ctrlTx := ctrlTx[n..];
    }

    method ServiceUartTx(room: nat, now: Uptime)
      modifies this
      ensures Snapshot() == ServiceTx(old(Snapshot()), room, now)
    {
      hide Activate;
      clock := now;
      ActivatePendingDataMode(now);
      if appState == DataMode && |ctrlTx| == 0 {
        var n := Min(room, Min(UART_TX_CHUNK, |bleToHost|));
        if n == 0 {
          return;
        }
        FillFifoWithData(n);
      } else {
        var n := Min(room, Min(UART_TX_CHUNK, |ctrlTx|));
        if n == 0 {
          return;
        }
        FillFifoWithControl(n);
      }
      ActivatePendingDataMode(now);
    }

    // The answer at_host.c gives to the result of an operation.
    method AnswerCommand(e: Errno)
      modifies this
      ensures Snapshot() == Reply(old(Snapshot()), e)
    {
      QueueCtrlLine(AnswerLine(e));
    }

    method StopScanInternal(stopErr: Errno, announce: bool) returns (err: Errno)
      modifies this
      ensures (err, Snapshot()) == StopScan(old(Snapshot()), stopErr, announce)
    {
      if appState != Scanning {
        return Success;
      }
      work := work.(scanStop := false);
      if stopErr != Success && stopErr != Already {
        return stopErr;
      }
      appState := if currentConn != Null then ControlReady else Idle;
      if announce {
        QueueCtrlLine("+IND=SCED");
      }
      return Success;
    }

    method OpStartScan(startErr: Errno)
      modifies this
      ensures Snapshot() == StartScan(old(Snapshot()), startErr)
    {
      if currentConn != Null {
        AnswerCommand(Already);
      } else if appState == Connecting || appState == Disconnecting {
        AnswerCommand(Busy);
      } else if appState == Scanning {
        AnswerCommand(Success);
      } else if startErr != Success {
        AnswerCommand(startErr);
      } else {
        appState := Scanning;
        work := work.(scanStop := true);
        AnswerCommand(Success);
      }
    }

    method OpDisconnect(index: nat, err: Errno)
      modifies this
      ensures Snapshot() == Disconnect(old(Snapshot()), index, err)
    {
      if index != 0 {
        AnswerCommand(Invalid);
      } else if currentConn == Null {
        AnswerCommand(Success);
      } else {
        appState := Disconnecting;
        AnswerCommand(err);
      }
    }

    method OpConnect(valid: bool, stopErr: Errno, createErr: Errno)
      modifies this
      ensures Snapshot() == Connect(old(Snapshot()), valid, stopErr, createErr)
    {
      hide Reply, StopScan;
      if currentConn != Null {
        AnswerCommand(Already);
        return;
      }
      if appState == Connecting || appState == Disconnecting {
        AnswerCommand(Busy);
        return;
      }
      if !valid {
        AnswerCommand(Invalid);
        return;
      }
      var err := StopScanInternal(stopErr, false);
      if err != Success {
        AnswerCommand(err);
        return;
      }
      if createErr != Success {
        currentConn := Null;
        AnswerCommand(createErr);
        return;
      }
      currentConn, link, appState := Set, Opening, Connecting;
      AnswerCommand(Success);
    }

    method OpEnterDataMode(index: nat)
      modifies this
      ensures Snapshot() == EnterDataMode(old(Snapshot()), index)
    {
      if index != 0 {
        AnswerCommand(Invalid);
        return;
      }
      if currentConn == Null || !config.allowDataMode {
        AnswerCommand(NotSup);
        return;
      }
      if appState == DataMode || flags.pending {
        AnswerCommand(Already);
        return;
      }
      if !profile.ready {
        AnswerCommand(Access);
        return;
      }
      flags := flags.(pending := true);
      AnswerCommand(Success);
      QueueCtrlLine(ENTERED);
    }

    method ProfileReadyCallback(canStream: bool)
      modifies this
      ensures Snapshot() == OnProfileReady(old(Snapshot()), canStream)
    {
      profile := profile.(ready := canStream);
      if appState != DataMode && !flags.pending {
        appState := ControlReady;
      }
      QueueCtrlLine("+IND=BLMN,0");
    }

    method ProfileErrorCallback()
      modifies this
      ensures Snapshot() == OnProfileError(old(Snapshot()))
    {
      if currentConn != Null && appState != DataMode {
        appState := ControlReady;
      }
      QueueCtrlLine(FUNCTION_ERROR);
    }

    method Connected(started: bool)
      modifies this
      ensures Snapshot() == OnConnected(old(Snapshot()), started)
    {
      hide QueueLine, OnProfileError;
      link, appState, profile := Up, Connecting, profile.(ready := false);
      QueueCtrlLine("+IND=BLMC,0");
      if !started {
        ProfileErrorCallback();
        QueueCtrlLine(FUNCTION_ERROR);
      }
    }

    method ConnectFailed()
      modifies this
      ensures Snapshot() == OnConnectFailed(old(Snapshot()))
    {
      link, currentConn, appState := Down, Null, Idle;
      QueueCtrlLine(FUNCTION_ERROR);
    }

    method DropLink()
      modifies this
      ensures Snapshot() == LoseLink(old(Snapshot()))
    {
      profile, currentConn, link, hostToBle := profile.(ready := false), Null, Down, "";
      trace := trace + [LinkDropped];
    }

    method Disconnected(byUser: bool)
      modifies this
      ensures Snapshot() == OnDisconnected(old(Snapshot()), byUser)
    {
      hide RefreshFlow, QueueLine, ClearSession, LoseLink;
      var wasDataMode := appState == DataMode;
      if !byUser {
        stats := stats.(unexpectedDisconnects := Add32(stats.unexpectedDisconnects, 1));
      }
      DropLink();
      if wasDataMode {
        trace := trace + [Left(false)];
      }
      ClearDataModeSession();
      appState := Idle;
      QueueCtrlLine("+IND=BLMD,0");
      RefreshUartRxFlowControl();
    }

    // scan_stop_work_handler
    method ScanStopHandler(err: Errno)
      modifies this
      ensures Snapshot() == Step(old(Snapshot()), ScanStops(err))
    {
      hide StopScan;
      work := work.(scanStop := false);
      var _ := StopScanInternal(err, true);
    }

    // The work queue takes up the pump.
    method StartPump()
      modifies this
      ensures Snapshot() == Step(old(Snapshot()), PumpStarts)
    {
      work := work.(pump := false);
      pump := AtTop;
    }

    // What the profile manager changes on its own.
    method LoseProfileReady()
      modifies this`profile
      ensures Snapshot() == LoseProfile(old(Snapshot()))
    {
      profile := profile.(ready := false);
    }

    method NewPayloadLen(n: nat)
      modifies this`profile
      ensures Snapshot() == Step(old(Snapshot()), MtuChanged(n))
    {
      profile := profile.(payloadLen := n);
    }

    method ProfileFailed(lost: bool)
      modifies this
      ensures Snapshot() == Step(old(Snapshot()), ProfileFails(lost))
    {
      hide OnProfileError;
      if lost {
        LoseProfileReady();
      }
      ProfileErrorCallback();
    }

    // uart_send_raw, for the prompt
    method SendPrompt()
      modifies this
      ensures Snapshot() == Step(old(Snapshot()), Prompted)
    {
      QueueCtrlBytes(">");
    }

    // The interrupts, the work items and the pump.
    method HandleStream(ev: Event)
      requires !Talks(ev) || ev.CoalesceFires? || ev.RetryFires? || ev.PumpStarts? || ev.PumpClaims?
      modifies this
      ensures Snapshot() == Step(old(Snapshot()), ev)
    {
      hide IsrRx, ServiceTx, GuardFired, PumpResult, NotifyArrived, OnDisconnected, PumpClaim;
      match ev {
        case UartRx(arrivals) => UartRxIsr(arrivals);
        case UartTx(room, now) => ServiceUartTx(room, now);
        case GuardFires(now) => EscapeGuardHandler(now);
        case CoalesceFires => CoalesceHandler();
        case RetryFires => RetryHandler();
        case PumpStarts => StartPump();
        case PumpClaims(contiguous) => PumpToClaim(contiguous);
        case PumpSends(result) => PumpAfterSend(result);
        case Notify(data) => ProfilePayloadReceived(data);
        case LinkDown(byUser) => Disconnected(byUser);
      }
    }

    // The AT operations and the callbacks.
    method HandleTalk(ev: Event)
      requires Talks(ev) && !(ev.CoalesceFires? || ev.RetryFires? || ev.PumpStarts? || ev.PumpClaims?)
      modifies this
      ensures Snapshot() == Step(old(Snapshot()), ev)
    {
      hide QueueLine, StartScan, Connect, Disconnect, EnterDataMode, OnProfileReady, OnConnected, OnConnectFailed, Step;
      TalkStep(Snapshot(), ev);
      match ev {
        case ScanStops(err) => ScanStopHandler(err);
        case ProfileReady(canStream) => ProfileReadyCallback(canStream);
        case ProfileLost => LoseProfileReady();
        case ProfileFails(lost) => ProfileFailed(lost);
        case MtuChanged(n) => NewPayloadLen(n);
        case Line(text) => QueueCtrlLine(text);
        case Prompted => SendPrompt();
        case AtStartScan(err) => OpStartScan(err);
        case AtConnect(valid, stopErr, createErr) => OpConnect(valid, stopErr, createErr);
        case AtDisconnect(index, err) => OpDisconnect(index, err);
        case AtEnterDataMode(index) => OpEnterDataMode(index);
        case LinkUp(started) => Connected(started);
        case LinkFails => ConnectFailed();
      }
    }

    /** Every event, by the handler of main.c that serves it. */
    method Handle(ev: Event)
      modifies this
      ensures Snapshot() == Step(old(Snapshot()), ev)
    {
      hide Step;
      if !Talks(ev) || ev.CoalesceFires? || ev.RetryFires? || ev.PumpStarts? || ev.PumpClaims? {
        HandleStream(ev);
      } else {
        HandleTalk(ev);
      }
    }

    /** A run of events. */
    method Play(events: seq<Event>)
      modifies this
      ensures Snapshot() == Run(old(Snapshot()), events)
    {
      hide Step;
      for i := 0 to |events|
        invariant Run(Snapshot(), events[i..]) == Run(old(Snapshot()), events)
      {
        assert events[i..][0] == events[i] && events[i..][1..] == events[i + 1..];
        Handle(events[i]);
      }
    }
  }

  lemma TalkStep(s: State, ev: Event)
    ensures Step(s, ev) == (match ev
                            case ProfileReady(canStream) => OnProfileReady(s, canStream)
                            case ProfileLost => LoseProfile(s)
                            case Line(text) => QueueLine(s, text)
                            case AtStartScan(err) => StartScan(s, err)
                            case AtConnect(valid, stopErr, createErr) => Connect(s, valid, stopErr, createErr)
                            case AtDisconnect(index, err) => Disconnect(s, index, err)
                            case AtEnterDataMode(index) => EnterDataMode(s, index)
                            case LinkUp(started) => OnConnected(s, started)
                            case LinkFails => OnConnectFailed(s)
                            case _ => Step(s, ev))
  {
  }

  /** The device itself, from power-on through any legal run of events: what is proved of every run holds of
      the object that the handlers leave. */
  method PowerOnAndPlay(guardMs: u16, allowDataMode: bool, payload: nat, now: Uptime, events: seq<Event>)
    returns (device: Device)
    requires payload >= 1 && Legal(PowerOn(guardMs, allowDataMode, payload, now), events)
    ensures fresh(device)
    ensures var s := device.Snapshot();
            && s == Run(PowerOn(guardMs, allowDataMode, payload, now), events)
            && Consistent(s) && Conserved(s) && Tracked(s) && Segregated(s)
            && (NoTicks(PowerOn(guardMs, allowDataMode, payload, now), events) ==> CandidateQuiet(s))
  {
    hide *;
    device := new Device(guardMs, allowDataMode, payload, now);
    device.Play(events);
    EveryRun(guardMs, allowDataMode, payload, now, events);
  }
}
