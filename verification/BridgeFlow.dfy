/** main.c: the receive interrupt outside data mode. */
module BridgeFlow {
  import opened Common
  import opened Protocol
  import opened BridgeModel
  import opened BridgeInvariant
  import opened BridgeEscape

  /** The receive interrupt is off, and the code that would turn it on again looks at a flag that says
      it is on. */
  predicate Deaf(s: State) {
    s.rxIrq == Off && !s.flags.paused && s.app != DataMode && !s.flags.pending
  }

  lemma ExitFlow(s: State, now: Uptime)
    requires Consistent(s) && s.app == DataMode && GuardFired(s, now).app != DataMode
    ensures var r := GuardFired(s, now); r.rxIrq == s.rxIrq && !r.flags.paused && !r.flags.pending
  {
    hide QueueLine, FlushCandidate;
  }

  lemma DropFlow(s: State, byUser: bool)
    ensures var r := OnDisconnected(s, byUser); r.rxIrq == s.rxIrq && !r.flags.paused && !r.flags.pending
  {
    hide QueueLine;
  }

  /** Leaving data mode, by the escape or because the link drops, loses the receive interrupt exactly when
      reception was paused at that moment. */
  lemma LeavingPaused(s: State, ev: Event)
    requires Consistent(s) && Enabled(s, ev) && s.app == DataMode && Step(s, ev).app != DataMode
    ensures Deaf(Step(s, ev)) <==> s.flags.paused
  {
    hide GuardFired, OnDisconnected, IsrRx, ServiceTx, PumpResult, NotifyArrived, PumpClaim, StopScan, StartScan, Connect,
         Disconnect, EnterDataMode, OnProfileReady, OnProfileError, OnConnected, OnConnectFailed, QueueLine;
    if !ev.LinkDown? && !ev.GuardFires? {
      DataModeLasts(s, ev);
    } else if ev.GuardFires? {
      ExitFlow(s, ev.now);
    } else {
      DropFlow(s, ev.byUser);
    }
  }

  lemma DeafStep(s: State, ev: Event)
    requires Consistent(s) && Enabled(s, ev) && Deaf(s)
    ensures Deaf(Step(s, ev))
  {
    hide QueueLine, OnProfileError, StopScan, Reply, PumpNext, Claimed, QueueData, RefreshFlow;
    match ev {
      case LinkDown(byUser) => DropFlow(s, byUser);
      case ScanStops(_) => TalkingStep(s, ev);
      case _ =>
    }
  }

  /** And then it is never turned on again: no later run, whatever happens on the link, delivers another
      byte from the host. */
  lemma {:induction false} DeafForever(s: State, events: seq<Event>)
    requires Consistent(s) && Legal(s, events) && Deaf(s)
    ensures Deaf(Run(s, events))
    ensures forall i | 0 <= i < |events| :: !events[i].UartRx? && !events[i].AtEnterDataMode?
    decreases |events|
  {
    if events != [] {
      StepKeeps(s, events[0]);
      DeafStep(s, events[0]);
      DeafForever(Step(s, events[0]), events[1..]);
      assert forall i | 1 <= i < |events| :: events[i] == events[1..][i - 1];
    }
  }

  // A host that keeps sending while BLE takes nothing.
  function FloodByte(s: State): Event {
    UartRx([Arrival('x', s.clock, s.clock)])
  }

  lemma FloodStep(s: State)
    requires Consistent(s) && s.app == DataMode && !s.escape.active && Room(s)
    ensures Enabled(s, FloodByte(s))
    ensures var r := Step(s, FloodByte(s));
            r.app == DataMode && !r.escape.active && |r.h2b| == |s.h2b| + 1 && (r.flags.paused <==> !Room(r))
  {
    var a := Arrival('x', s.clock, s.clock);
    assert [a][..0] == [] && [a][1..] == [];
    assert InOrder(s.clock, [a]) by { assert InOrder(a.later, [a][1..]); }
    assert RxBytes(s, [a]) == RxByte(s, a);
    hide RxBytes, ScheduleTx, RefreshFlow;
  }

  function Flood(s: State): seq<Event>
    requires Consistent(s) && s.app == DataMode && !s.escape.active
    decreases H2B_SIZE - |s.h2b|
  {
    if !Room(s) then []
    else
      FloodStep(s);
      StepKeeps(s, FloodByte(s));
      [FloodByte(s)] + Flood(Step(s, FloodByte(s)))
  }

  /** Reception does get paused: it is enough that the host sends and BLE does not. */
  lemma {:induction false} FloodPauses(s: State)
    requires Consistent(s) && s.app == DataMode && !s.escape.active && Room(s)
    ensures Legal(s, Flood(s)) && Run(s, Flood(s)).flags.paused && Run(s, Flood(s)).app == DataMode
    decreases H2B_SIZE - |s.h2b|
  {
    var ev := FloodByte(s);
    var r := Step(s, ev);
    FloodStep(s);
    StepKeeps(s, ev);
    hide Step, Consistent, FloodByte, Enabled;
    assert ([ev] + Flood(r))[1..] == Flood(r);
    if Room(r) {
      FloodPauses(r);
    } else {
      assert Flood(r) == [];
    }
  }
}
