/** main.c: what the guard timer does with a candidate, when quiet time restarts, and that nothing the host
    sent is withheld for good. */
module BridgeGuard {
  import opened Common
  import opened Protocol
  import opened BridgeModel
  import opened BridgeInvariant
  import opened BridgeDelivery
  import opened BridgeEscape
  import opened BridgeWakeup

  /** The bytes that wait are scheduled: at once if they fill a payload, by the coalesce timer otherwise. */
  predicate Prompt(s: State) {
    s.profile.ready && |s.h2b| > 0 ==>
      (|s.h2b| >= s.profile.payloadLen ==> s.work.pump) && (|s.h2b| < s.profile.payloadLen ==> s.work.coalesce)
  }

  lemma FlushGives(s: State, now: Uptime)
    requires s.app == DataMode && s.conn == Set && s.escape.active && 1 <= s.escape.count <= 3
    ensures var r := FlushCandidate(s, now);
            r.h2b == s.h2b + Fitting(Pluses(s.escape.count), H2B_SIZE - |s.h2b|) && Prompt(r)
  {
  }

  /** The guard timer fires.  One or two pluses become payload, quiet time restarts and they are scheduled;
      three end data mode after the guard time of silence, and are waited for again before it.  So a candidate
      survives its timer if and only if it is complete and the silence after it is not. */
  lemma GuardMeans(s: State, now: Uptime)
    requires Consistent(s) && Enabled(s, GuardFires(now))
    ensures var r := Step(s, GuardFires(now)); var n := s.escape.count;
            && s.app == DataMode && 1 <= n <= 3
            && (r.escape.active <==> n == 3 && now - s.lastRx < s.config.guardMs)
            && (r.escape.active ==> r == s.(clock := now))
            && (n < 3 ==>
                  && r.app == DataMode && r.escape == Escape(false, 0) && !r.work.guard && r.lastRx == now
                  && r.h2b == s.h2b + Fitting(Pluses(n), H2B_SIZE - |s.h2b|) && Prompt(r))
            && (n == 3 && now - s.lastRx >= s.config.guardMs ==>
                  r.app == ControlReady && r.escape == Escape(false, 0) && r.h2b == s.h2b)
  {
    hide FlushCandidate, QueueLine;
    if s.escape.count < 3 {
      FlushGives(s.(work := s.work.(guard := false), clock := now), now);
    }
    hide Prompt, Pluses;
  }

  lemma ScheduledPromptly(s: State)
    requires s.app == DataMode && s.conn == Set
    ensures Prompt(ScheduleTx(s)) && ScheduleTx(s).h2b == s.h2b
  {
  }

  // The last byte of a chunk is the last thing heard.
  lemma LastHeard(s: State, arrivals: seq<Arrival>)
    requires CandidateOk(s) && InOrder(s.clock, arrivals) && arrivals != []
    ensures RxBytes(s, arrivals).lastRx == arrivals[|arrivals| - 1].now
  {
    var front := arrivals[..|arrivals| - 1];
    InOrderPrefix(s.clock, arrivals);
    RxBytesFrame(s, front);
    hide FlushCandidate, RxPlain;
  }

  /** A chunk read in data mode: what waits is scheduled, and quiet time restarts at its last byte. */
  lemma ChunkMeans(s: State, arrivals: seq<Arrival>)
    requires Consistent(s) && Enabled(s, UartRx(arrivals)) && s.app == DataMode && Room(s) && arrivals != []
    ensures var r := Step(s, UartRx(arrivals));
            Prompt(r) && r.lastRx == arrivals[|arrivals| - 1].now && (r.flags.paused <==> 16384 - |r.h2b| < 64)
  {
    RxBytesFrame(s, arrivals);
    LastHeard(s, arrivals);
    ScheduledPromptly(RxBytes(s, arrivals));
    hide RxBytes, ScheduleTx, RefreshFlow;
  }

  lemma TxQuiet(s: State, room: nat, now: Uptime)
    requires Consistent(s)
    ensures var r := ServiceTx(s, room, now);
            r.lastRx == if s.app != DataMode && r.app == DataMode then now else s.lastRx
  {
    hide Activate;
  }

  lemma RxQuiet(s: State, arrivals: seq<Arrival>)
    requires Consistent(s) && Enabled(s, UartRx(arrivals))
    ensures IsrRx(s, arrivals).lastRx ==
            if s.app == DataMode && Room(s) && arrivals != [] then arrivals[|arrivals| - 1].now else s.lastRx
  {
    if s.app == DataMode && Room(s) && arrivals != [] {
      ChunkMeans(s, arrivals);
      UartRxStep(s, arrivals);
    }
    hide RxBytes, ScheduleTx, RefreshFlow, DataModeRx;
  }

  /** Quiet time, which the escape is measured against, restarts when data mode opens, at the last byte of a
      chunk, and when a candidate is given up; and at nothing else. */
  lemma QuietRestarts(s: State, ev: Event)
    requires Consistent(s) && Enabled(s, ev)
    ensures var r := Step(s, ev);
            r.lastRx ==
            match ev
            case UartRx(arrivals) =>
              if s.app == DataMode && Room(s) && arrivals != [] then arrivals[|arrivals| - 1].now else s.lastRx
            case GuardFires(now) => if s.escape.count < 3 then now else s.lastRx
            case UartTx(_, now) => if s.app != DataMode && r.app == DataMode then now else s.lastRx
            case _ => s.lastRx
  {
    hide IsrRx, ServiceTx, GuardFired, PumpResult, NotifyArrived, OnDisconnected, Consistent, Prompt, TalkOnly;
    match ev {
      case UartRx(arrivals) => RxQuiet(s, arrivals);
      case UartTx(room, now) => TxQuiet(s, room, now);
      case GuardFires(now) => GuardQuiet(s, now);
      case PumpSends(_) => QuietOthers(s, ev);
      case Notify(_) => QuietOthers(s, ev);
      case LinkDown(_) => QuietOthers(s, ev);
      case _ => TalkingStep(s, ev);
    }
  }

  lemma GuardQuiet(s: State, now: Uptime)
    requires Consistent(s) && Enabled(s, GuardFires(now))
    ensures GuardFired(s, now).lastRx == if s.escape.count < 3 then now else s.lastRx
  {
    hide QueueLine, FlushCandidate;
  }

  lemma QuietOthers(s: State, ev: Event)
    requires ev.PumpSends? || ev.Notify? || ev.LinkDown?
    ensures Step(s, ev).lastRx == s.lastRx
  {
    hide QueueLine, RefreshFlow, QueueData;
  }

  // ---------- a given-up candidate reaches the peer ----------

  lemma GuardServes(s: State, now: Uptime)
    requires Consistent(s) && Conserved(s) && Waiting(s) && Enabled(s, GuardFires(now)) && s.escape.count < 3
    requires |s.h2b| + s.escape.count <= H2B_SIZE
    ensures var m := Step(s, GuardFires(now));
            && Consistent(m) && Waiting(m) && Conserved(m) && m.h2b == s.h2b + Pluses(s.escape.count)
            && AirOf(m.trace).delivered == AirOf(s.trace).delivered
  {
    GuardMeans(s, now);
    StepKeeps(s, GuardFires(now));
    StepConserves(s, GuardFires(now));
    StepWakes(s, GuardFires(now));
    FlushDelivers(s.(work := s.work.(guard := false), clock := now), now);
    hide FlushCandidate, ExitDataMode, AirOf, Consistent, Conserved, Wakes, Prompt;
    assert Fitting(Pluses(s.escape.count), H2B_SIZE - |s.h2b|) == Pluses(s.escape.count);
  }

  lemma FlushDelivers(s: State, later: Uptime)
    ensures AirOf(FlushCandidate(s, later).trace).delivered == AirOf(s.trace).delivered
    ensures FlushCandidate(s, later).profile == s.profile
  {
    var kept := Fitting(Pluses(s.escape.count), H2B_SIZE - |s.h2b|);
    LogAir(s.(h2b := s.h2b + kept), Offered(Pluses(s.escape.count), |kept|));
    hide AirOf, ScheduleTx, Fitting;
  }

  /** A candidate of one or two pluses that the host does not finish is not withheld: its guard timer and the
      work queue alone get it to the peer, after everything sent before it. */
  lemma GivenUpArrives(s: State, now: Uptime)
    requires Consistent(s) && Conserved(s) && Waiting(s) && Enabled(s, GuardFires(now)) && s.escape.count < 3
    requires |s.h2b| + s.escape.count <= H2B_SIZE
    ensures Consistent(Step(s, GuardFires(now))) && Waiting(Step(s, GuardFires(now)))
    ensures var events := [GuardFires(now)] + ServeAll(Step(s, GuardFires(now)));
            && Legal(s, events)
            && var r := Run(s, events);
               r.h2b == "" && AirOf(r.trace).delivered == AirOf(s.trace).delivered + s.h2b + Pluses(s.escape.count)
  {
    hide Step, Consistent, Conserved, Waiting, AirOf, Enabled, ServeAll, Pluses, Fitting;
    GuardServes(s, now);
    var m := Step(s, GuardFires(now));
    Drains(m);
    var events := [GuardFires(now)] + ServeAll(m);
    assert events[0] == GuardFires(now) && events[1..] == ServeAll(m);
    var d := AirOf(s.trace).delivered;
    assert d + (s.h2b + Pluses(s.escape.count)) == d + s.h2b + Pluses(s.escape.count);
  }
}
