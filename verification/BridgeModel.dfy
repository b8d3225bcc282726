/** main.c: the state of the bridge and what every handler does to it.

    `State` holds the globals of main.c, followed by what the handlers consult outside that file: the
    link, the profile manager, the timers and work items, the UART receive interrupt and the clock.
    `trace` lists what an observer of the device sees; no handler ever reads it. */
module BridgeModel {
  import opened Common
  import opened Protocol

  const RX_CHUNK: nat := 64
  const H2B_SIZE: nat := 16384
  const B2H_SIZE: nat := 16384
  const CTRL_SIZE: nat := 2048
  const UART_TX_CHUNK: nat := 128
  const SEND_MAX: nat := 256

  datatype App = Idle | Scanning | Connecting | ControlReady | DataMode | Disconnecting

  // What the Bluetooth stack knows of the one connection.
  datatype Link = Down | Opening | Up

  // Where the pump (ble_write_work_handler) is: not running, at its loop test, or between the claim
  // of a chunk and the result of sending it.
  datatype Pump = Resting | AtTop | Holding(chunk: string)

  datatype Escape = Escape(active: bool, count: nat)

  datatype Pointer = Null | Set

  // data_mode_pending_enter, data_mode_tx_flush_due and control_rx_paused.
  datatype Flags = Flags(pending: bool, flushDue: bool, paused: bool)

  // profile_manager_can_enter_data_mode and profile_manager_get_payload_len.
  datatype Profile = Profile(ready: bool, payloadLen: nat)

  datatype Irq = On | Off

  datatype Config = Config(guardMs: u16, allowDataMode: bool)

  // What is submitted or armed.
  datatype Work = Work(pump: bool, coalesce: bool, retry: bool, guard: bool, scanStop: bool)

  // What k_uptime_get returns.
  type Uptime = t: int | 0 <= t < 0x8000_0000_0000_0000

  type u16 = n: nat | n < 0x1_0000

  // A byte read by the receive interrupt.  `now` is the clock when the byte is looked at and `later`
  // is what the clock shows if an abandoned candidate is flushed on its account.
  datatype Arrival = Arrival(b: char, now: Uptime, later: Uptime)

  datatype Obs =
    | Arrived(b: char, at: int)                // a byte is handed to the data-mode engine
    | Offered(bytes: string, kept: nat)        // bytes offered to the host-to-BLE ring
    | Sent(chunk: string)                      // profile_manager_send returned 0
    | LinkDropped
    | Opened(at: int)                          // data mode is activated
    | Left(byEscape: bool)                     // data mode ends
    | Said(bytes: string)                      // bytes stored in the control ring
    | Heard(bytes: string)                     // bytes stored in the BLE-to-host ring
    | WireControl(bytes: string)               // control bytes written to the UART
    | WireData(bytes: string)                  // data bytes written to the UART

  // A ring never holds more than it was declared for.
  type HostRing = r: string | |r| <= H2B_SIZE witness ""
  type DataRing = r: string | |r| <= B2H_SIZE witness ""
  type CtrlRing = r: string | |r| <= CTRL_SIZE witness ""

  datatype State = State(
    app: App,
    conn: Pointer,         // current_conn
    flags: Flags,
    escape: Escape,
    lastRx: Uptime,         // last_host_rx_time_ms
    h2b: HostRing,         // host_to_ble_ring
    b2h: DataRing,         // ble_to_host_ring
    ctrl: CtrlRing,        // ctrl_tx_ring
    stats: Stats,
    work: Work,
    pump: Pump,
    link: Link,
    profile: Profile,
    rxIrq: Irq,
    clock: Uptime,
    config: Config,
    trace: seq<Obs>)

  datatype Event =
    | UartRx(arrivals: seq<Arrival>)
    | UartTx(room: nat, now: Uptime)
    | GuardFires(now: Uptime)
    | CoalesceFires
    | RetryFires
    | ScanStops(err: Errno)
    | PumpStarts
    | PumpClaims(contiguous: nat)
    | PumpSends(result: Errno)
    | Notify(data: string)
    | ProfileReady(canStream: bool)
    | ProfileLost
    | ProfileFails(lost: bool)
    | MtuChanged(payloadLen: nat)
    | Line(text: string)
    | Prompted
    | AtStartScan(err: Errno)
    | AtConnect(valid: bool, stopErr: Errno, createErr: Errno)
    | AtDisconnect(index: nat, err: Errno)
    | AtEnterDataMode(index: nat)
    | LinkUp(started: bool)
    | LinkFails
    | LinkDown(byUser: bool)

  function Log(s: State, o: Obs): State {
    s.(trace := s.trace + [o])
  }

  // The trace grew by control lines only.
  ghost predicate TalkOnly(before: seq<Obs>, after: seq<Obs>) {
    before <= after && forall i | |before| <= i < |after| :: after[i].Said?
  }

  // ---------- rings, lines and flow control ----------

  function PutHost(s: State, bytes: string): (r: State)
    ensures r == s.(h2b := r.h2b, trace := r.trace) && s.h2b <= r.h2b
  {
    var kept := Fitting(bytes, H2B_SIZE - |s.h2b|);
    Log(s.(h2b := s.h2b + kept), Offered(bytes, |kept|))
  }

  function QueueCtrl(s: State, bytes: string): (r: State)
    ensures TalkOnly(s.trace, r.trace)
    ensures r == s.(ctrl := r.ctrl, trace := r.trace) && s.ctrl <= r.ctrl
  {
    if |bytes| == 0 then s
    else
      var kept := Fitting(bytes, CTRL_SIZE - |s.ctrl|);
      Log(s.(ctrl := s.ctrl + kept), Said(kept))
  }

  function QueueLine(s: State, text: string): (r: State)
    ensures TalkOnly(s.trace, r.trace)
    ensures r == s.(ctrl := r.ctrl, trace := r.trace) && s.ctrl <= r.ctrl
  {
    QueueCtrl(QueueCtrl(s, text), NEWLINE)
  }

  function DeepestHost(s: State): (r: State)
    ensures r == s.(stats := s.stats.(maxHostToBle := r.stats.maxHostToBle))
    ensures r.stats.maxHostToBle >= |s.h2b|
  {
    s.(stats := s.stats.(maxHostToBle := if |s.h2b| > s.stats.maxHostToBle then |s.h2b| else s.stats.maxHostToBle))
  }

  function Backpressure(s: State): (r: State)
    ensures r == s.(stats := s.stats.(backpressure := r.stats.backpressure))
  {
    s.(stats := s.stats.(backpressure := Add32(s.stats.backpressure, 1)))
  }

  function QueueData(s: State, data: string): (r: State)
    ensures r == s.(b2h := r.b2h, stats := r.stats, trace := r.trace) && s.b2h <= r.b2h
  {
    if |data| == 0 then s
    else
      var kept := Fitting(data, B2H_SIZE - |s.b2h|);
      var s1 := Log(s.(b2h := s.b2h + kept), Heard(kept));
      var s2 := if |kept| < |data| then Backpressure(s1) else s1;
      s2.(stats := s2.stats.(maxBleToHost :=
        if |s2.b2h| > s2.stats.maxBleToHost then |s2.b2h| else s2.stats.maxBleToHost))
  }

  function Pause(s: State): (r: State)
    ensures r == s.(flags := s.flags.(paused := true), rxIrq := Off,
                    stats := s.stats.(backpressure := r.stats.backpressure))
  {
    Backpressure(s.(flags := s.flags.(paused := true), rxIrq := Off))
  }

  function Resume(s: State): State {
    s.(flags := s.flags.(paused := false), rxIrq := On)
  }

  function RefreshFlow(s: State): (r: State)
    ensures r == s.(flags := s.flags.(paused := r.flags.paused), rxIrq := r.rxIrq,
                    stats := s.stats.(backpressure := r.stats.backpressure))
    ensures r.flags.paused <==> s.app == DataMode && H2B_SIZE - |s.h2b| < RX_CHUNK
    ensures r.rxIrq == if r.flags.paused == s.flags.paused then s.rxIrq else if r.flags.paused then Off else On
  {
    if s.app != DataMode then
      if s.flags.paused then Resume(s) else s
    else if H2B_SIZE - |s.h2b| < RX_CHUNK then
      if s.flags.paused then s else Pause(s)
    else if s.flags.paused then Resume(s)
    else s
  }

  function ClearSession(s: State): State {
    s.(b2h := "", flags := Flags(false, false, false), escape := Escape(false, 0),
       work := s.work.(retry := false, coalesce := false, guard := false))
  }

  // ---------- host to BLE ----------

  function ScheduleTx(s: State): (r: State)
    ensures r == s.(flags := s.flags.(flushDue := r.flags.flushDue),
                    work := s.work.(pump := r.work.pump, coalesce := r.work.coalesce))
  {
    if s.app != DataMode || s.conn == Null || !s.profile.ready then s
    else if |s.h2b| == 0 then s.(flags := s.flags.(flushDue := false), work := s.work.(coalesce := false))
    else if |s.h2b| >= s.profile.payloadLen then
      s.(flags := s.flags.(flushDue := false), work := s.work.(coalesce := false, pump := true))
    else s.(flags := s.flags.(flushDue := false), work := s.work.(coalesce := true))
  }

  function FlushCandidate(s: State, later: Uptime): (r: State)
    ensures r == s.(h2b := r.h2b, stats := s.stats.(maxHostToBle := r.stats.maxHostToBle), trace := r.trace,
                    escape := r.escape, lastRx := r.lastRx,
                    flags := s.flags.(flushDue := r.flags.flushDue),
                    work := s.work.(pump := r.work.pump, coalesce := r.work.coalesce))
    ensures s.h2b <= r.h2b
    ensures s.escape.active && s.escape.count > 0 ==> r.escape == Escape(false, 0) && r.lastRx == later
    ensures !(s.escape.active && s.escape.count > 0) ==> r == s
  {
    if !s.escape.active || s.escape.count == 0 then s
    else
      var s1 := DeepestHost(PutHost(s, Pluses(s.escape.count)));
      ScheduleTx(s1.(escape := Escape(false, 0), lastRx := later))
  }

  function ExitDataMode(s: State): (r: State)
    ensures r == ClearSession(s).(app := if s.conn != Null then ControlReady else Idle,
                                  ctrl := r.ctrl, trace := r.trace)
    ensures s.ctrl <= r.ctrl
  {
    var s1 := ClearSession(s);
    var s2 := Log(s1.(app := if s1.conn != Null then ControlReady else Idle), Left(true));
    RefreshFlow(QueueLine(s2, EXITED))
  }

  /** The difference of two uptimes after the cast to uint64_t. */
  function Elapsed(now: Uptime, since: Uptime): nat {
    if now >= since then now - since else now - since + 0x1_0000_0000_0000_0000
  }

  function GuardFired(s0: State, now: Uptime): State {
    var s := s0.(work := s0.work.(guard := false), clock := now);
    if !s.escape.active then s
    else if s.escape.count == 3 then
      if Elapsed(now, s.lastRx) < s.config.guardMs then s.(work := s.work.(guard := true))
      else ExitDataMode(s)
    else FlushCandidate(s, now)
  }

  predicate StartsCandidate(s: State, a: Arrival) {
    a.b == '+' && Elapsed(a.now, s.lastRx) >= s.config.guardMs
  }

  /** A byte while no candidate is active. */
  function RxPlain(s: State, a: Arrival): (r: State)
    ensures r == s.(h2b := r.h2b, stats := r.stats, trace := r.trace, escape := r.escape, lastRx := a.now,
                    work := s.work.(guard := r.work.guard))
    ensures s.h2b <= r.h2b
    ensures StartsCandidate(s, a) ==> r.escape == Escape(true, 1) && r.work.guard && r.h2b == s.h2b && r.trace == s.trace
    ensures !StartsCandidate(s, a) ==> r.escape == s.escape && r.work.guard == s.work.guard
  {
    if StartsCandidate(s, a) then
      s.(escape := Escape(true, 1), lastRx := a.now, work := s.work.(guard := true))
    else
      var s1 := PutHost(s, [a.b]);
      (if |s1.h2b| == |s.h2b| then Backpressure(s1) else DeepestHost(s1)).(lastRx := a.now)
  }

  function RxByte(s0: State, a: Arrival): State {
    var s := Log(s0.(clock := a.later), Arrived(a.b, a.now));
    if !s.escape.active then RxPlain(s, a)
    else
      var s1 := s.(work := s.work.(guard := false));
      if a.b == '+' && s.escape.count < 3 then
        s1.(escape := Escape(true, s.escape.count + 1), lastRx := a.now, work := s1.work.(guard := true))
      else RxPlain(FlushCandidate(s1, a.later), a)
  }

  function RxBytes(s: State, arrivals: seq<Arrival>): State {
    if arrivals == [] then s
    else RxByte(RxBytes(s, arrivals[..|arrivals| - 1]), arrivals[|arrivals| - 1])
  }

  function DataModeRx(s: State, arrivals: seq<Arrival>): State {
    RefreshFlow(ScheduleTx(RxBytes(s, arrivals)))
  }

  /** The receive half of control_uart_isr.  In control mode the bytes go to the AT parser, whose calls
      into main.c are the At... events. */
  function IsrRx(s: State, arrivals: seq<Arrival>): State {
    if s.app == DataMode && H2B_SIZE - |s.h2b| < RX_CHUNK then Pause(s)
    else if arrivals == [] then s
    else if s.app == DataMode then DataModeRx(s, arrivals)
    else s
  }

  /** The longest chunk the pump may claim. */
  function ClaimBound(s: State): nat {
    Min(Min(|s.h2b|, s.profile.payloadLen), SEND_MAX)
  }

  /** ring_buf_get_claim: a prefix no longer than asked for, nonempty when there is something to claim.
      `contiguous` is how many bytes lie before the ring wraps. */
  function Claimed(s: State, contiguous: nat): (chunk: string)
    ensures chunk <= s.h2b && |chunk| <= ClaimBound(s)
    ensures ClaimBound(s) > 0 ==> |chunk| > 0
  {
    s.h2b[..Min(ClaimBound(s), if contiguous == 0 then 1 else contiguous)]
  }

  // The pump finds less than a full payload and leaves it to the coalesce timer.
  predicate Coalesces(s: State) {
    s.app == DataMode && |s.h2b| < s.profile.payloadLen && !s.flags.flushDue
  }

  // What the loop test and the claim leave the pump doing.
  function PumpNext(s: State, contiguous: nat): Pump {
    if s.conn == Null || !s.profile.ready || |s.h2b| == 0 || Coalesces(s) then Resting
    else if |Claimed(s, contiguous)| == 0 then Resting
    else Holding(Claimed(s, contiguous))
  }

  /** The loop test of the pump and the claim. */
  function PumpClaim(s: State, contiguous: nat): State {
    var runs := s.conn != Null && s.profile.ready;
    s.(pump := PumpNext(s, contiguous),
       flags := if runs && |s.h2b| == 0 then s.flags.(flushDue := false) else s.flags,
       work := if runs && |s.h2b| != 0 && Coalesces(s) then s.work.(coalesce := true) else s.work)
  }

  predicate Retryable(e: Errno) {
    e == NoMem || e == Again || e == Busy || e == Access
  }

  // ring_buf_get_finish and the counters after a successful send.
  function TakeSent(s: State, chunk: string): State {
    Log(s.(h2b := if |chunk| <= |s.h2b| then s.h2b[|chunk|..] else s.h2b,
           stats := s.stats.(hostToBle := Add32(s.stats.hostToBle, |chunk|), writeOps := Add32(s.stats.writeOps, 1)),
           flags := s.flags.(flushDue := false), pump := AtTop), Sent(chunk))
  }

  function PumpResult(s: State, result: Errno): State {
    if !s.pump.Holding? then s
    else
      var chunk := s.pump.chunk;
      if result == Success then RefreshFlow(TakeSent(s, chunk))
      else if Retryable(result) then s.(pump := Resting, work := s.work.(retry := true))
      else s.(pump := Resting)
  }

  // ---------- BLE to host and the UART ----------

  function RecvLine(data: string): string {
    "+IND=RECV,0," + Decimal(|data|) + "," + data
  }

  predicate Printable(data: string) {
    forall i | 0 <= i < |data| :: 0x20 <= data[i] as int <= 0x7e
  }

  function NotifyArrived(s0: State, data: string): (r: State)
    ensures r == s0.(b2h := r.b2h, ctrl := r.ctrl, stats := r.stats, trace := r.trace) && s0.ctrl <= r.ctrl
    ensures s0.app != DataMode ==> r.b2h == s0.b2h
  {
    var s := s0.(stats := s0.stats.(notifyOps := Add32(s0.stats.notifyOps, 1),
                                    bleToHost := Add32(s0.stats.bleToHost, |data|)));
    if s.app == DataMode then QueueData(s, data)
    else if Printable(data) && |data| <= SEND_MAX then QueueLine(s, RecvLine(data))
    else s
  }

  predicate Activates(s: State) {
    s.flags.pending && s.app != DataMode && s.conn != Null && |s.ctrl| == 0
  }

  function OpenSession(s: State, now: Uptime): State {
    Log(s.(flags := s.flags.(pending := false, flushDue := false), escape := Escape(false, 0),
           work := s.work.(retry := false, coalesce := false), lastRx := now,
           stats := s.stats.(entries := Add32(s.stats.entries, 1)), app := DataMode), Opened(now))
  }

  function Activate(s: State, now: Uptime): (r: State)
    ensures !Activates(s) ==> r == s
    ensures Activates(s) ==>
      r == s.(flags := Flags(false, false, r.flags.paused), escape := Escape(false, 0),
              work := s.work.(retry := false, coalesce := false), lastRx := now,
              stats := s.stats.(entries := r.stats.entries, backpressure := r.stats.backpressure),
              app := DataMode, rxIrq := r.rxIrq, trace := r.trace)
    ensures Activates(s) ==>
      && (r.flags.paused <==> H2B_SIZE - |s.h2b| < RX_CHUNK)
      && r.rxIrq == if r.flags.paused == s.flags.paused then s.rxIrq else if r.flags.paused then Off else On
  {
    if !Activates(s) then s else RefreshFlow(OpenSession(s, now))
  }

  /** One call of service_uart_tx; the FIFO takes at most `room` bytes of the claimed prefix. */
  function ServiceTx(s0: State, room: nat, now: Uptime): State {
    var s := Activate(s0.(clock := now), now);
    if s.app == DataMode && |s.ctrl| == 0 then
      var n := Min(room, Min(UART_TX_CHUNK, |s.b2h|));
      if n == 0 then s
      else Activate(Log(s.(b2h := s.b2h[n..]), WireData(s.b2h[..n])), now)
    else
      var n := Min(room, Min(UART_TX_CHUNK, |s.ctrl|));
      if n == 0 then s
      else Activate(Log(s.(ctrl := s.ctrl[n..]), WireControl(s.ctrl[..n])), now)
  }

  // ---------- scanning, connecting and the AT operations ----------

  function Reply(s: State, e: Errno): (r: State)
    ensures TalkOnly(s.trace, r.trace)
    ensures r == s.(ctrl := r.ctrl, trace := r.trace) && s.ctrl <= r.ctrl
  {
    QueueLine(s, AnswerLine(e))
  }

  /** stop_scan_internal: the error it returns and the new state. */
  function StopScan(s: State, err: Errno, announce: bool): (r: (Errno, State))
    ensures r.1 == s.(ctrl := r.1.ctrl, trace := r.1.trace, app := r.1.app,
                      work := s.work.(scanStop := r.1.work.scanStop))
    ensures s.ctrl <= r.1.ctrl && TalkOnly(s.trace, r.1.trace)
    ensures r.1.app == if s.app == Scanning && (err == Success || err == Already)
                       then (if s.conn != Null then ControlReady else Idle) else s.app
  {
    if s.app != Scanning then (Success, s)
    else
      var s1 := s.(work := s.work.(scanStop := false));
      if err != Success && err != Already then (err, s1)
      else
        var s2 := s1.(app := if s1.conn != Null then ControlReady else Idle);
        (Success, if announce then QueueLine(s2, "+IND=SCED") else s2)
  }

  function StartScan(s: State, err: Errno): State {
    if s.conn != Null then Reply(s, Already)
    else if s.app == Connecting || s.app == Disconnecting then Reply(s, Busy)
    else if s.app == Scanning then Reply(s, Success)
    else if err != Success then Reply(s, err)
    else Reply(s.(app := Scanning, work := s.work.(scanStop := true)), Success)
  }

  function Connect(s: State, valid: bool, stopErr: Errno, createErr: Errno): State {
    if s.conn != Null then Reply(s, Already)
    else if s.app == Connecting || s.app == Disconnecting then Reply(s, Busy)
    else if !valid then Reply(s, Invalid)
    else
      var (e, s1) := StopScan(s, stopErr, false);
      if e != Success then Reply(s1, e)
      else if createErr != Success then Reply(s1.(conn := Null), createErr)
      else Reply(s1.(conn := Set, link := Opening, app := Connecting), Success)
  }

  function Disconnect(s: State, index: nat, err: Errno): State {
    if index != 0 then Reply(s, Invalid)
    else if s.conn == Null then Reply(s, Success)
    else Reply(s.(app := Disconnecting), err)
  }

  /** The answer of op_enter_data_mode. */
  function EnterAnswer(s: State, index: nat): Errno {
    if index != 0 then Invalid
    else if s.conn == Null || !s.config.allowDataMode then NotSup
    else if s.app == DataMode || s.flags.pending then Already
    else if !s.profile.ready then Access
    else Success
  }

  function EnterDataMode(s: State, index: nat): State {
    var e := EnterAnswer(s, index);
    if e != Success then Reply(s, e)
    else QueueLine(Reply(s.(flags := s.flags.(pending := true)), Success), ENTERED)
  }

  // ---------- callbacks of the profile manager and of the link ----------

  function OnProfileReady(s0: State, canStream: bool): State {
    var s := s0.(profile := s0.profile.(ready := canStream));
    QueueLine(if s.app != DataMode && !s.flags.pending then s.(app := ControlReady) else s, "+IND=BLMN,0")
  }

  function LoseProfile(s: State): State {
    s.(profile := s.profile.(ready := false))
  }

  function OnProfileError(s: State): (r: State)
    ensures r == s.(app := if s.conn != Null && s.app != DataMode then ControlReady else s.app,
                    ctrl := r.ctrl, trace := r.trace)
    ensures s.ctrl <= r.ctrl && TalkOnly(s.trace, r.trace)
  {
    QueueLine(if s.conn != Null && s.app != DataMode then s.(app := ControlReady) else s, FUNCTION_ERROR)
  }

  function OnConnected(s: State, started: bool): State {
    var s1 := QueueLine(s.(link := Up, app := Connecting, profile := s.profile.(ready := false)), "+IND=BLMC,0");
    if started then s1 else QueueLine(OnProfileError(s1), FUNCTION_ERROR)
  }

  function OnConnectFailed(s: State): State {
    QueueLine(s.(link := Down, conn := Null, app := Idle), FUNCTION_ERROR)
  }

  function LoseLink(s: State): State {
    Log(s.(profile := s.profile.(ready := false), conn := Null, link := Down, h2b := ""), LinkDropped)
  }

  function CountDisconnect(s: State, byUser: bool): State {
    if byUser then s
    else s.(stats := s.stats.(unexpectedDisconnects := Add32(s.stats.unexpectedDisconnects, 1)))
  }

  function OnDisconnected(s: State, byUser: bool): State {
    var s1 := LoseLink(CountDisconnect(s, byUser));
    var s2 := if s.app == DataMode then Log(s1, Left(false)) else s1;
    RefreshFlow(QueueLine(ClearSession(s2).(app := Idle), "+IND=BLMD,0"))
  }

  // ---------- events and runs ----------

  /** The times of a chunk: read in order, starting no earlier than `from`. */
  predicate InOrder(from: Uptime, arrivals: seq<Arrival>)
    decreases |arrivals|
  {
    |arrivals| == 0 ||
    (from <= arrivals[0].now <= arrivals[0].later && InOrder(arrivals[0].later, arrivals[1..]))
  }

  /** When the environment can produce an event.  Disconnection does not preempt the pump between its
      claim and the result of the send; everything else may. */
  predicate Enabled(s: State, ev: Event) {
    match ev
    case UartRx(arrivals) => s.rxIrq == On && |arrivals| <= RX_CHUNK && InOrder(s.clock, arrivals)
    case UartTx(_, now) => s.clock <= now
    case GuardFires(now) => s.work.guard && s.clock <= now
    case CoalesceFires => s.work.coalesce
    case RetryFires => s.work.retry
    case ScanStops(_) => s.work.scanStop
    case PumpStarts => s.work.pump && s.pump == Resting
    case PumpClaims(_) => s.pump == AtTop
    case PumpSends(_) => s.pump.Holding?
    case Notify(_) => s.link == Up
    case ProfileReady(_) => s.link == Up
    case ProfileLost => s.link == Up
    case ProfileFails(_) => s.link == Up
    case MtuChanged(n) => n >= 1
    case Line(_) => true
    case Prompted => s.rxIrq == On && s.app != DataMode
    case AtStartScan(_) => s.rxIrq == On && s.app != DataMode
    case AtConnect(_, _, _) => s.rxIrq == On && s.app != DataMode
    case AtDisconnect(_, _) => s.rxIrq == On && s.app != DataMode
    case AtEnterDataMode(_) => s.rxIrq == On && s.app != DataMode
    case LinkUp(_) => s.link == Opening
    case LinkFails => s.link == Opening
    case LinkDown(_) => s.link == Up && !s.pump.Holding?
  }

  function Step(s: State, ev: Event): State {
    match ev
    case UartRx(arrivals) => IsrRx(s, arrivals)
    case UartTx(room, now) => ServiceTx(s, room, now)
    case GuardFires(now) => GuardFired(s, now)
    case CoalesceFires => s.(flags := s.flags.(flushDue := true), work := s.work.(coalesce := false, pump := true))
    case RetryFires => s.(work := s.work.(retry := false, pump := true))
    case ScanStops(err) => StopScan(s.(work := s.work.(scanStop := false)), err, true).1
    case PumpStarts => s.(work := s.work.(pump := false), pump := AtTop)
    case PumpClaims(contiguous) => PumpClaim(s, contiguous)
    case PumpSends(result) => PumpResult(s, result)
    case Notify(data) => NotifyArrived(s, data)
    case ProfileReady(canStream) => OnProfileReady(s, canStream)
    case ProfileLost => LoseProfile(s)
    case ProfileFails(lost) => OnProfileError(if lost then LoseProfile(s) else s)
    case MtuChanged(n) => s.(profile := s.profile.(payloadLen := n))
    case Line(text) => QueueLine(s, text)
    case Prompted => QueueCtrl(s, ">")
    case AtStartScan(err) => StartScan(s, err)
    case AtConnect(valid, stopErr, createErr) => Connect(s, valid, stopErr, createErr)
    case AtDisconnect(index, err) => Disconnect(s, index, err)
    case AtEnterDataMode(index) => EnterDataMode(s, index)
    case LinkUp(started) => OnConnected(s, started)
    case LinkFails => OnConnectFailed(s)
    case LinkDown(byUser) => OnDisconnected(s, byUser)
  }

  predicate Legal(s: State, events: seq<Event>)
    decreases |events|
  {
    events == [] || (Enabled(s, events[0]) && Legal(Step(s, events[0]), events[1..]))
  }

  function Run(s: State, events: seq<Event>): State
    decreases |events|
  {
    if events == [] then s else Run(Step(s, events[0]), events[1..])
  }

  function PowerOn(guardMs: u16, allowDataMode: bool, payloadLen: nat, now: Uptime): State {
    State(Idle, Null, Flags(false, false, false), Escape(false, 0), now, "", "", "",
          Stats(0, 0, 0, 0, 0, 0, 0, 0, 0), Work(false, false, false, false, false), Resting,
          Down, Profile(false, payloadLen), On, now, Config(guardMs, allowDataMode), [])
  }
}
