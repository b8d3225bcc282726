/** main.c: in data mode, bytes waiting for BLE never wait for nothing, and the receive interrupt. */
module BridgeWakeup {
  import opened Common
  import opened Protocol
  import opened BridgeModel
  import opened BridgeInvariant
  import opened BridgeDelivery

  // The pump runs, is submitted, or will be submitted by a timer.
  predicate Scheduled(s: State) {
    s.pump != Resting || s.work.pump || s.work.coalesce || s.work.retry
  }

  /** A byte that may be sent is scheduled to be sent. */
  predicate Wakes(s: State) {
    s.app == DataMode && s.conn != Null && s.profile.ready && |s.h2b| > 0 ==> Scheduled(s)
  }

  // service_uart_tx empties the control ring and finds data mode pending.
  predicate Opens(s: State, room: nat) {
    s.flags.pending && s.app != DataMode && s.conn != Null && |s.ctrl| <= Min(room, UART_TX_CHUNK)
  }

  /** The three ways to strand bytes in the ring: a send that fails for a reason that is not retried, a
      profile that becomes ready again under waiting bytes, and a session that opens over bytes left by an
      earlier one; each only if nothing else is scheduled. */
  predicate Strands(s: State, ev: Event) {
    match ev
    case PumpSends(result) =>
      s.app == DataMode && s.profile.ready && result !in {Success, NoMem, Again, Busy, Access} &&
      !s.work.pump && !s.work.coalesce && !s.work.retry
    case ProfileReady(canStream) => s.app == DataMode && canStream && |s.h2b| > 0 && !Scheduled(s)
    case UartTx(room, _) =>
      Opens(s, room) && s.profile.ready && |s.h2b| > 0 && s.pump == Resting && !s.work.pump
    case _ => false
  }

  lemma ScheduleWakes(s: State)
    ensures Wakes(ScheduleTx(s))
  {
  }

  lemma RxWakes(s: State, arrivals: seq<Arrival>)
    requires Consistent(s) && Enabled(s, UartRx(arrivals)) && Wakes(s)
    ensures Wakes(IsrRx(s, arrivals))
  {
    if s.app == DataMode {
      RxBytesFrame(s, arrivals);
      ScheduleWakes(RxBytes(s, arrivals));
    }
    hide RxBytes, ScheduleTx, RefreshFlow;
  }

  lemma GuardWakes(s: State, now: Uptime)
    requires Consistent(s) && Enabled(s, GuardFires(now)) && Wakes(s)
    ensures Wakes(GuardFired(s, now))
  {
    hide ExitDataMode, PutHost;
  }

  lemma TxWakes(s: State, room: nat, now: Uptime)
    requires Consistent(s) && s.clock <= now && Wakes(s)
    ensures Wakes(ServiceTx(s, room, now)) <==> !Strands(s, UartTx(room, now))
  {
    hide Activate;
  }

  lemma SendWakes(s: State, result: Errno)
    requires Consistent(s) && s.pump.Holding? && Wakes(s)
    ensures Wakes(PumpResult(s, result)) <==> !Strands(s, PumpSends(result))
  {
    hide RefreshFlow;
  }

  lemma AtWakes(s: State, ev: Event)
    requires Consistent(s) && Enabled(s, ev)
    requires ev.AtStartScan? || ev.AtConnect? || ev.AtDisconnect? || ev.AtEnterDataMode?
    ensures Wakes(Step(s, ev))
  {
    TalkingStep(s, ev);
    hide Step, Consistent, TalkOnly;
  }

  /** No lost wakeup, exactly: a step from a state without stranded bytes strands some if and only if it is
      one of the three above. */
  lemma StepWakes(s: State, ev: Event)
    requires Consistent(s) && Enabled(s, ev) && Wakes(s)
    ensures Wakes(Step(s, ev)) <==> !Strands(s, ev)
  {
    hide IsrRx, ServiceTx, GuardFired, PumpResult, QueueLine, OnProfileError, StopScan, NotifyArrived,
         StartScan, Connect, Disconnect, EnterDataMode, RefreshFlow, Claimed, Opens;
    match ev {
      case UartRx(arrivals) => RxWakes(s, arrivals);
      case UartTx(room, now) => TxWakes(s, room, now);
      case GuardFires(now) => GuardWakes(s, now);
      case PumpSends(result) => SendWakes(s, result);
      case AtStartScan(_) => AtWakes(s, ev);
      case AtConnect(_, _, _) => AtWakes(s, ev);
      case AtDisconnect(_, _) => AtWakes(s, ev);
      case AtEnterDataMode(_) => AtWakes(s, ev);
      case _ =>
    }
  }

  /** A run none of whose steps strands bytes. */
  predicate Strandless(s: State, events: seq<Event>)
    decreases |events|
  {
    events == [] || (!Strands(s, events[0]) && Strandless(Step(s, events[0]), events[1..]))
  }

  lemma {:induction false} RunWakes(s: State, events: seq<Event>)
    requires Consistent(s) && Legal(s, events) && Wakes(s) && Strandless(s, events)
    ensures Wakes(Run(s, events))
    decreases |events|
  {
    if events != [] {
      StepKeeps(s, events[0]);
      StepWakes(s, events[0]);
      RunWakes(Step(s, events[0]), events[1..]);
    }
  }

  // ---------- one session ----------

  /** The link and the profile stay up, failed sends may be retried, and data mode is not asked for again. */
  predicate Benign(ev: Event) {
    match ev
    case PumpSends(result) => result in {Success, NoMem, Again, Busy, Access}
    case ProfileReady(canStream) => canStream
    case ProfileLost => false
    case ProfileFails(lost) => !lost
    case LinkDown(_) => false
    case AtEnterDataMode(_) => false
    case _ => true
  }

  // During such a session, and after it.
  predicate InOneSession(s: State) {
    !s.flags.pending && (s.app == DataMode ==> s.profile.ready)
  }

  lemma BenignStream(s: State, ev: Event)
    requires Consistent(s) && Enabled(s, ev) && InOneSession(s)
    requires ev.UartRx? || ev.UartTx? || ev.GuardFires? || ev.PumpSends? || ev.Notify?
    ensures InOneSession(Step(s, ev))
  {
    hide RxBytes, ScheduleTx, RefreshFlow, Activate, QueueData, QueueLine, ExitDataMode, FlushCandidate, TakeSent;
    match ev {
      case UartRx(arrivals) => RxBytesFrame(s, arrivals);
      case PumpSends(Success) => SentSame(s, s.pump.chunk);
      case _ =>
    }
  }

  lemma SentSame(s: State, chunk: string)
    ensures var r := TakeSent(s, chunk); InOneSession(s) ==> InOneSession(r)
    ensures var r := TakeSent(s, chunk); r.app == s.app && r.profile == s.profile && r.flags.pending == s.flags.pending
  {
  }

  lemma BenignTalk(s: State, ev: Event)
    requires Consistent(s) && Enabled(s, ev) && Benign(ev) && InOneSession(s) && Talks(ev)
    ensures InOneSession(Step(s, ev))
  {
    hide QueueLine, OnProfileError, StopScan, Reply, PumpNext;
  }

  lemma BenignStep(s: State, ev: Event)
    requires Consistent(s) && Enabled(s, ev) && Benign(ev) && InOneSession(s) && Wakes(s)
    ensures InOneSession(Step(s, ev)) && !Strands(s, ev)
  {
    if Talks(ev) {
      BenignTalk(s, ev);
    } else {
      BenignStream(s, ev);
    }
    hide Step;
  }

  /** From the opening of data mode over an empty ring, while the link and the profile stay up and failed
      sends are retryable, waiting bytes are scheduled in every state of the run. */
  lemma {:induction false} SessionWakes(s: State, events: seq<Event>)
    requires Consistent(s) && Legal(s, events) && InOneSession(s) && (s.app == DataMode ==> Wakes(s))
    requires forall i | 0 <= i < |events| :: Benign(events[i])
    ensures Wakes(Run(s, events))
    decreases |events|
  {
    if events != [] {
      StepKeeps(s, events[0]);
      BenignStep(s, events[0]);
      StepWakes(s, events[0]);
      SessionWakes(Step(s, events[0]), events[1..]);
    }
  }

  // ---------- scheduled bytes do leave ----------

  /** What the work queue and the link do next when every send succeeds. */
  function Serve(s: State): Event {
    if s.pump.Holding? then PumpSends(Success)
    else if s.pump == AtTop then PumpClaims(SEND_MAX)
    else if s.work.coalesce then CoalesceFires
    else if s.work.pump then PumpStarts
    else RetryFires
  }

  // How far the next send is.
  function Distance(s: State): nat {
    if s.pump.Holding? then 0
    else if s.pump == AtTop then (if Coalesces(s) then 4 else 1)
    else if s.work.coalesce then 3
    else if s.work.pump then (if Coalesces(s) then 5 else 2)
    else 6
  }

  predicate Waiting(s: State) {
    s.app == DataMode && s.profile.ready && Wakes(s)
  }

  lemma ServeProgress(s: State)
    requires Consistent(s) && Waiting(s) && |s.h2b| > 0
    ensures Enabled(s, Serve(s))
    ensures var r := Step(s, Serve(s));
            && Waiting(r) && |r.h2b| <= |s.h2b|
            && (|r.h2b| == |s.h2b| ==> Distance(r) < Distance(s))
            && AirOf(r.trace).accepted == AirOf(s.trace).accepted
  {
    StepWakes(s, Serve(s));
    hide RefreshFlow, Wakes, AirOf, Strands;
    if s.pump.Holding? {
      var chunk := s.pump.chunk;
      LogAir(s.(h2b := s.h2b[|chunk|..],
                stats := s.stats.(hostToBle := Add32(s.stats.hostToBle, |chunk|),
                                  writeOps := Add32(s.stats.writeOps, 1)),
                flags := s.flags.(flushDue := false), pump := AtTop), Sent(chunk));
      assert !Strands(s, PumpSends(Success)) by { NoStrand(s); }
    } else {
      NoStrand(s);
    }
  }

  lemma NoStrand(s: State)
    requires Consistent(s)
    ensures !Strands(s, Serve(s))
  {
  }

  ghost function ServeAll(s: State): seq<Event>
    requires Consistent(s) && Waiting(s)
    decreases |s.h2b|, Distance(s)
  {
    if |s.h2b| == 0 then []
    else
      ServeProgress(s);
      StepKeeps(s, Serve(s));
      [Serve(s)] + ServeAll(Step(s, Serve(s)))
  }

  /** From any state of a session without stranded bytes the work queue alone, if the sends succeed, gets
      every waiting byte onto the link, in order, and leaves the receive interrupt on. */
  lemma {:induction false} Drains(s: State)
    requires Consistent(s) && Waiting(s) && Conserved(s)
    ensures Legal(s, ServeAll(s))
    ensures var r := Run(s, ServeAll(s));
            && r.h2b == "" && r.app == DataMode && r.rxIrq == On
            && AirOf(r.trace).delivered == AirOf(s.trace).delivered + s.h2b
    decreases |s.h2b|, Distance(s)
  {
    if |s.h2b| > 0 {
      var ev := Serve(s);
      var r := Step(s, ev);
      ServeProgress(s);
      StepKeeps(s, ev);
      StepConserves(s, ev);
      hide Step, Consistent, Serve, Distance, AirOf, Waiting, Enabled;
      Drains(r);
      assert ServeAll(s) == [ev] + ServeAll(r);
      assert ([ev] + ServeAll(r))[1..] == ServeAll(r);
    }
  }

  // ---------- coalescing ----------

  /** What the pump claims.  In data mode it takes less than a payload only when the coalesce timer has fired, or
      where the ring wraps, or at the 256 bytes of its buffer; what it does not take it leaves to that timer. */
  lemma ClaimMeans(s: State, contiguous: nat)
    requires Consistent(s) && s.pump == AtTop
    ensures var r := Step(s, PumpClaims(contiguous)); var n := s.profile.payloadLen;
            && (r.pump.Holding? <==>
                  s.profile.ready && |s.h2b| > 0 && (s.app == DataMode && !s.flags.flushDue ==> |s.h2b| >= n))
            && (r.pump.Holding? ==>
                  var chunk := r.pump.chunk;
                  && chunk <= s.h2b && 1 <= |chunk| <= 256 && |chunk| <= n
                  && (|chunk| == n || |chunk| == 256 || |chunk| == |s.h2b| || |chunk| == contiguous || contiguous == 0))
            && (!r.pump.Holding? ==> r.pump == Resting && (s.profile.ready && |s.h2b| > 0 ==> r.work.coalesce))
            && (s.profile.ready && s.h2b == "" ==> !r.flags.flushDue)
  {
  }

  // A chunk that the receive interrupt reads.
  predicate Reads(s: State, ev: Event) {
    ev.UartRx? && s.app == DataMode && ev.arrivals != [] && H2B_SIZE - |s.h2b| >= RX_CHUNK
  }

  // When a flush falls due.
  predicate Flushes(s: State, r: State, ev: Event) {
    && (ev.CoalesceFires? ==> r.flags.flushDue && r.work.pump && !r.work.coalesce)
    && (!ev.CoalesceFires? && r.flags.flushDue ==> s.flags.flushDue)
    && (ev == PumpSends(Success) || (Reads(s, ev) && s.profile.ready) ==> !r.flags.flushDue)
  }

  lemma {:induction false} BytesFlush(s: State, arrivals: seq<Arrival>)
    ensures RxBytes(s, arrivals).flags.flushDue ==> s.flags.flushDue
    decreases |arrivals|
  {
    if arrivals != [] {
      BytesFlush(s, arrivals[..|arrivals| - 1]);
      ByteFlush(RxBytes(s, arrivals[..|arrivals| - 1]), arrivals[|arrivals| - 1]);
    }
  }

  lemma ByteFlush(s: State, a: Arrival)
    ensures RxByte(s, a).flags.flushDue ==> s.flags.flushDue
  {
    hide PutHost, RxPlain;
  }

  lemma RxFlushes(s: State, ev: Event)
    requires Consistent(s) && Enabled(s, ev) && ev.UartRx?
    ensures Flushes(s, Step(s, ev), ev)
  {
    hide RxBytes, RefreshFlow;
    if s.app == DataMode {
      RxBytesFrame(s, ev.arrivals);
      BytesFlush(s, ev.arrivals);
    }
  }

  lemma StreamFlushes(s: State, ev: Event)
    requires Consistent(s) && Enabled(s, ev) && !Talks(ev) && !ev.UartRx?
    ensures Flushes(s, Step(s, ev), ev)
  {
    hide RefreshFlow, QueueLine, QueueData, PutHost, Activate;
  }

  lemma TalkFlushes(s: State, ev: Event)
    requires Talks(ev)
    ensures Flushes(s, Step(s, ev), ev)
  {
    hide QueueLine, StopScan, OnProfileError, PumpNext;
  }

  /** A timer that has fired and work that has begun are over: no step leaves its own event enabled, but the guard
      timer that waits for the end of the silence. */
  lemma WorkSpent(s: State, ev: Event)
    requires Consistent(s) && Enabled(s, ev)
    requires ev.RetryFires? || ev.CoalesceFires? || ev.ScanStops? || ev.PumpStarts? || ev.PumpClaims? || ev.PumpSends? ||
             ev.GuardFires? || ev.LinkUp? || ev.LinkFails? || ev.LinkDown?
    ensures Enabled(Step(s, ev), ev) ==>
              ev.GuardFires? && s.escape.count == 3 && ev.now - s.lastRx < s.config.guardMs
    ensures ev.RetryFires? || ev.CoalesceFires? ==> Step(s, ev).work.pump
    ensures ev.PumpStarts? ==> !Step(s, ev).work.pump && Step(s, ev).pump == AtTop
  {
    hide QueueLine, GuardFired, PumpResult, PumpClaim, StopScan, OnConnected, OnConnectFailed, OnDisconnected, Consistent;
    match ev {
      case GuardFires(now) => GuardSpent(s, now);
      case PumpClaims(contiguous) => ClaimMeans(s, contiguous);
      case PumpSends(result) => SendSpent(s, result);
      case ScanStops(err) => StopSpent(s, err);
      case LinkUp(_) => LinkSpent(s, ev);
      case LinkFails => LinkSpent(s, ev);
      case LinkDown(_) => LinkSpent(s, ev);
      case _ =>
    }
  }

  lemma LinkSpent(s: State, ev: Event)
    requires ev.LinkUp? || ev.LinkFails? || ev.LinkDown?
    ensures Step(s, ev).link == if ev.LinkUp? then Up else Down
  {
    hide QueueLine, RefreshFlow, OnProfileError;
  }

  lemma GuardSpent(s: State, now: Uptime)
    requires Consistent(s) && Enabled(s, GuardFires(now))
    ensures GuardFired(s, now).work.guard ==> s.escape.count == 3 && now - s.lastRx < s.config.guardMs
  {
    hide QueueLine, PutHost;
  }

  lemma SendSpent(s: State, result: Errno)
    requires s.pump.Holding?
    ensures !PumpResult(s, result).pump.Holding?
  {
    hide RefreshFlow;
  }

  lemma StopSpent(s: State, err: Errno)
    ensures !Step(s, ScanStops(err)).work.scanStop
  {
    hide QueueLine;
  }

  /** A flush falls due only by the coalesce timer, and is over with the next chunk that the link takes or the
      next bytes from the host. */
  lemma FlushDue(s: State, ev: Event)
    requires Consistent(s) && Enabled(s, ev)
    ensures Flushes(s, Step(s, ev), ev)
  {
    hide Step, Consistent, Flushes;
    if Talks(ev) {
      TalkFlushes(s, ev);
    } else if ev.UartRx? {
      RxFlushes(s, ev);
    } else {
      StreamFlushes(s, ev);
    }
  }
}
