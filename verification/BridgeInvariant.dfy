/** main.c: what every handler keeps, in every run. */
module BridgeInvariant {
  import opened Common
  import opened Protocol
  import opened BridgeModel

  /** How the globals of main.c agree with each other and with the link between two steps. */
  predicate Consistent(s: State) {
    // the connection, the link and the application state
    && (s.conn == Set <==> s.link != Down)
    && (s.conn == Set <==> s.app in {Connecting, ControlReady, DataMode, Disconnecting})
    && (s.profile.ready ==> s.link == Up)
    && (s.flags.pending ==> s.link == Up && s.app != DataMode)
    && (s.app == DataMode ==> s.link == Up)
    // the escape candidate and its timer
    && (s.escape.active <==> 1 <= s.escape.count <= 3)
    && (!s.escape.active ==> s.escape.count == 0)
    && (s.escape.active ==> s.app == DataMode)
    && (s.work.guard <==> s.escape.active)
    && s.lastRx <= s.clock
    // the rings
    && (s.app != DataMode ==> s.b2h == "")
    // the pump
    && s.profile.payloadLen >= 1
    && (s.pump.Holding? ==> s.link == Up && s.pump.chunk <= s.h2b && 1 <= |s.pump.chunk| <= SEND_MAX)
    // receive flow control
    && (s.flags.paused ==> s.app == DataMode && H2B_SIZE - |s.h2b| < RX_CHUNK)
    && (s.app == DataMode ==> (s.rxIrq == On <==> !s.flags.paused))
    && (s.flags.pending ==> s.rxIrq == On)
  }

  lemma PowerOnIsConsistent(guardMs: u16, allowDataMode: bool, payloadLen: nat, now: Uptime)
    requires payloadLen >= 1
    ensures Consistent(PowerOn(guardMs, allowDataMode, payloadLen, now))
  {
  }

  /** What a received byte may change while data mode lasts. */
  predicate RxFrame(s: State, r: State) {
    && r == s.(escape := r.escape, lastRx := r.lastRx, h2b := r.h2b, stats := r.stats, work := r.work,
               flags := r.flags, clock := r.clock, trace := r.trace)
    && r.flags == s.flags.(flushDue := r.flags.flushDue)
    && s.h2b <= r.h2b
    && r.lastRx <= r.clock
    && (r.escape.active <==> 1 <= r.escape.count <= 3)
    && (!r.escape.active ==> r.escape.count == 0)
    && (r.work.guard <==> r.escape.active)
    && r.work.retry == s.work.retry && r.work.scanStop == s.work.scanStop
  }

  predicate CandidateOk(s: State) {
    && (s.escape.active <==> 1 <= s.escape.count <= 3)
    && (!s.escape.active ==> s.escape.count == 0)
    && (s.work.guard <==> s.escape.active)
    && s.lastRx <= s.clock
  }

  lemma RxByteFrame(s: State, a: Arrival)
    requires CandidateOk(s)
    requires s.clock <= a.now <= a.later
    ensures RxFrame(s, RxByte(s, a))
    ensures RxByte(s, a).clock == a.later
  {
    hide FlushCandidate, RxPlain;
  }

  // The clock after a chunk.
  function ClockAfter(from: Uptime, arrivals: seq<Arrival>): Uptime {
    if arrivals == [] then from else arrivals[|arrivals| - 1].later
  }

  lemma {:induction false} InOrderPrefix(from: Uptime, arrivals: seq<Arrival>)
    requires InOrder(from, arrivals) && |arrivals| > 0
    ensures InOrder(from, arrivals[..|arrivals| - 1])
    ensures ClockAfter(from, arrivals[..|arrivals| - 1]) <= arrivals[|arrivals| - 1].now <= arrivals[|arrivals| - 1].later
    decreases |arrivals|
  {
    var front := arrivals[..|arrivals| - 1];
    if |arrivals| > 1 {
      InOrderPrefix(arrivals[0].later, arrivals[1..]);
      assert front[1..] == arrivals[1..][..|arrivals| - 2];
    }
  }

  lemma {:induction false} RxBytesFrame(s: State, arrivals: seq<Arrival>)
    requires CandidateOk(s) && InOrder(s.clock, arrivals)
    ensures RxFrame(s, RxBytes(s, arrivals))
    ensures RxBytes(s, arrivals).clock == ClockAfter(s.clock, arrivals)
    decreases |arrivals|
  {
    if arrivals != [] {
      var front := arrivals[..|arrivals| - 1];
      InOrderPrefix(s.clock, arrivals);
      RxBytesFrame(s, front);
      RxByteFrame(RxBytes(s, front), arrivals[|arrivals| - 1]);
    }
  }

  lemma RxKeeps(s: State, arrivals: seq<Arrival>)
    requires Consistent(s) && Enabled(s, UartRx(arrivals))
    ensures Consistent(IsrRx(s, arrivals))
  {
    hide RxBytes, ScheduleTx, RefreshFlow;
    if s.app == DataMode {
      RxBytesFrame(s, arrivals);
    }
  }

  lemma TxKeeps(s: State, room: nat, now: Uptime)
    requires Consistent(s) && s.clock <= now
    ensures Consistent(ServiceTx(s, room, now))
  {
    hide Activate;
  }

  lemma GuardKeeps(s: State, now: Uptime)
    requires Consistent(s) && Enabled(s, GuardFires(now))
    ensures Consistent(GuardFired(s, now))
  {
    hide FlushCandidate, ExitDataMode;
  }

  lemma ScanKeeps(s: State, ev: Event)
    requires Consistent(s) && Enabled(s, ev)
    requires ev.AtStartScan? || ev.ScanStops?
    ensures Consistent(Step(s, ev))
  {
    hide QueueLine, Reply, StopScan;
  }

  lemma ConnectKeeps(s: State, ev: Event)
    requires Consistent(s) && Enabled(s, ev)
    requires ev.AtConnect?
    ensures Consistent(Step(s, ev))
  {
    hide QueueLine, Reply, StopScan;
  }

  lemma AtKeeps(s: State, ev: Event)
    requires Consistent(s) && Enabled(s, ev)
    requires ev.AtDisconnect? || ev.AtEnterDataMode?
    ensures Consistent(Step(s, ev))
  {
    hide QueueLine, Reply;
  }

  lemma ProfileKeeps(s: State, ev: Event)
    requires Consistent(s) && Enabled(s, ev)
    requires ev.Notify? || ev.ProfileReady? || ev.ProfileLost? || ev.ProfileFails?
    ensures Consistent(Step(s, ev))
  {
    hide QueueLine, NotifyArrived;
  }

  lemma LinkKeeps(s: State, ev: Event)
    requires Consistent(s) && Enabled(s, ev)
    requires ev.LinkUp? || ev.LinkFails?
    ensures Consistent(Step(s, ev))
  {
    hide QueueLine, OnProfileError;
  }

  lemma DropKeeps(s: State, byUser: bool)
    requires Consistent(s) && Enabled(s, LinkDown(byUser))
    ensures Consistent(OnDisconnected(s, byUser))
  {
    hide QueueLine, RefreshFlow;
  }

  lemma PumpKeeps(s: State, ev: Event)
    requires Consistent(s) && Enabled(s, ev)
    requires ev.PumpStarts? || ev.PumpClaims? || ev.CoalesceFires? || ev.RetryFires?
    ensures Consistent(Step(s, ev))
  {
    hide Claimed;
  }

  lemma SendKeeps(s: State, result: Errno)
    requires Consistent(s) && s.pump.Holding?
    ensures Consistent(PumpResult(s, result))
  {
    hide RefreshFlow;
  }

  /** Every step keeps the state consistent, so every reachable state is. */
  lemma StepKeeps(s: State, ev: Event)
    requires Consistent(s) && Enabled(s, ev)
    ensures Consistent(Step(s, ev))
  {
    hide IsrRx, ServiceTx, GuardFired, QueueLine;
    match ev {
      case UartRx(arrivals) => RxKeeps(s, arrivals);
      case UartTx(room, now) => TxKeeps(s, room, now);
      case GuardFires(now) => GuardKeeps(s, now);
      case MtuChanged(_) =>
      case Line(_) =>
      case Prompted =>
      case AtStartScan(_) => ScanKeeps(s, ev);
      case AtConnect(_, _, _) => ConnectKeeps(s, ev);
      case AtDisconnect(_, _) => AtKeeps(s, ev);
      case AtEnterDataMode(_) => AtKeeps(s, ev);
      case ScanStops(_) => ScanKeeps(s, ev);
      case PumpStarts => PumpKeeps(s, ev);
      case PumpClaims(_) => PumpKeeps(s, ev);
      case PumpSends(result) => SendKeeps(s, result);
      case CoalesceFires => PumpKeeps(s, ev);
      case RetryFires => PumpKeeps(s, ev);
      case Notify(_) => ProfileKeeps(s, ev);
      case ProfileReady(_) => ProfileKeeps(s, ev);
      case ProfileLost => ProfileKeeps(s, ev);
      case ProfileFails(_) => ProfileKeeps(s, ev);
      case LinkUp(_) => LinkKeeps(s, ev);
      case LinkFails => LinkKeeps(s, ev);
      case LinkDown(byUser) => DropKeeps(s, byUser);
    }
  }

  /** The steps that move no stream byte: they only talk on the control ring and change modes and timers. */
  predicate Talks(ev: Event) {
    !(ev.UartRx? || ev.UartTx? || ev.GuardFires? || ev.PumpSends? || ev.Notify? || ev.LinkDown?)
  }

  ghost predicate StreamUntouched(s: State, r: State) {
    && r.h2b == s.h2b && r.b2h == s.b2h && r.stats == s.stats && r.escape == s.escape && r.lastRx == s.lastRx
    && r.clock == s.clock && r.config == s.config && s.ctrl <= r.ctrl && r.work.guard == s.work.guard
    && r.rxIrq == s.rxIrq && r.flags.paused == s.flags.paused
    && (r.app == DataMode <==> s.app == DataMode)
    && TalkOnly(s.trace, r.trace)
  }

  lemma TalkTransitive(a: seq<Obs>, b: seq<Obs>, c: seq<Obs>)
    requires TalkOnly(a, b) && TalkOnly(b, c)
    ensures TalkOnly(a, c)
  {
  }

  lemma TalkingConnect(s: State, valid: bool, stopErr: Errno, createErr: Errno)
    requires Consistent(s) && s.app != DataMode
    ensures StreamUntouched(s, Connect(s, valid, stopErr, createErr))
  {
    hide QueueLine, Reply, StopScan, TalkOnly;
    if s.conn == Null && s.app != Connecting && s.app != Disconnecting && valid {
      var (e, s1) := StopScan(s, stopErr, false);
      TalkTransitive(s.trace, s1.trace, Connect(s, valid, stopErr, createErr).trace);
    }
  }

  lemma TalkingScanStop(s: State, err: Errno)
    requires Consistent(s)
    ensures StreamUntouched(s, Step(s, ScanStops(err)))
  {
    hide QueueLine, StopScan, TalkOnly;
  }

  lemma TalkingScan(s: State, err: Errno)
    requires Consistent(s) && s.app != DataMode
    ensures StreamUntouched(s, StartScan(s, err))
  {
    hide QueueLine, Reply, TalkOnly;
  }

  lemma TalkingDisconnect(s: State, index: nat, err: Errno)
    requires Consistent(s) && s.app != DataMode
    ensures StreamUntouched(s, Disconnect(s, index, err))
  {
    hide QueueLine, Reply, TalkOnly;
  }

  lemma TalkingEnter(s: State, index: nat)
    requires Consistent(s) && s.app != DataMode
    ensures StreamUntouched(s, EnterDataMode(s, index))
  {
    hide QueueLine, Reply, TalkOnly;
    var e := EnterAnswer(s, index);
    if e == Success {
      var s1 := Reply(s.(flags := s.flags.(pending := true)), Success);
      TalkTransitive(s.trace, s1.trace, QueueLine(s1, ENTERED).trace);
    }
  }

  lemma TalkingStep(s: State, ev: Event)
    requires Consistent(s) && Enabled(s, ev) && Talks(ev)
    ensures StreamUntouched(s, Step(s, ev))
  {
    hide QueueLine, OnProfileError, PumpNext, StartScan, Connect, Disconnect, EnterDataMode, StopScan;
    match ev {
      case AtStartScan(err) => TalkingScan(s, err);
      case AtConnect(valid, stopErr, createErr) => TalkingConnect(s, valid, stopErr, createErr);
      case AtDisconnect(index, err) => TalkingDisconnect(s, index, err);
      case AtEnterDataMode(index) => TalkingEnter(s, index);
      case ScanStops(err) => TalkingScanStop(s, err);
      case _ =>
    }
  }

  lemma {:induction false} RunKeeps(s: State, events: seq<Event>)
    requires Consistent(s) && Legal(s, events)
    ensures Consistent(Run(s, events))
    decreases |events|
  {
    if events != [] {
      StepKeeps(s, events[0]);
      RunKeeps(Step(s, events[0]), events[1..]);
    }
  }
}
