/** main.c: what is queued for the host does leave the UART, and in order. */
module BridgeOutput {
  import opened Common
  import opened BridgeModel
  import opened BridgeInvariant
  import opened BridgeWire
  import opened BridgeSpeech

  // What the UART carried since data mode last opened, and the data of it.
  function OnWire(s: State): string {
    WireOf(s.trace).wire
  }

  function DataSent(s: State): string {
    WireOf(s.trace).mix.data
  }

  /** How much of a ring one transmit interrupt takes when the UART takes at most `room` bytes. */
  function Taken(ring: string, room: nat): nat {
    Min(room, Min(128, |ring|))
  }

  predicate Streams(s: State) {
    s.app == DataMode && s.ctrl == ""
  }

  // What the transmit interrupt never touches.
  ghost predicate HostSideKept(s: State, r: State) {
    r.h2b == s.h2b && r.conn == s.conn && r.link == s.link && r.profile == s.profile && r.config == s.config &&
    r.pump == s.pump
  }

  lemma LogData(s: State, n: nat)
    requires Segregated(s) && n <= |s.b2h| && Streams(s)
    ensures var r := Log(s.(b2h := s.b2h[n..]), WireData(s.b2h[..n]));
            && OnWire(r) == OnWire(s) + s.b2h[..n] && DataSent(r) == DataSent(s) + s.b2h[..n]
            && ControlSent(r) == ControlSent(s)
  {
    LogWire(s.(b2h := s.b2h[n..]), WireData(s.b2h[..n]));
    hide WireOf;
  }

  lemma LogControl(s: State, n: nat)
    requires Segregated(s) && n <= |s.ctrl|
    ensures var r := Log(s.(ctrl := s.ctrl[n..]), WireControl(s.ctrl[..n]));
            && OnWire(r) == OnWire(s) + s.ctrl[..n] && DataSent(r) == DataSent(s)
            && ControlSent(r) == ControlSent(s) + s.ctrl[..n]
  {
    LogWire(s.(ctrl := s.ctrl[n..]), WireControl(s.ctrl[..n]));
    hide WireOf;
  }

  lemma ActivateSends(s: State, now: Uptime)
    ensures ControlSent(Activate(s, now)) == ControlSent(s)
    ensures Activates(s) ==> OnWire(Activate(s, now)) == DataSent(Activate(s, now)) == ""
  {
    hide WireOf, RefreshFlow;
    if Activates(s) {
      LogWire(OpenSession(s, now).(trace := s.trace), Opened(now));
    }
  }

  /** One transmit interrupt: in data mode, with no control byte waiting, exactly the oldest data bytes that
      the UART takes, at most 128, leave the ring and are on the wire; otherwise the same of the control
      ring; and data mode opens exactly when it is pending and the control ring has become empty. */
  lemma TxSends(s: State, room: nat, now: Uptime)
    requires Consistent(s) && Segregated(s) && s.clock <= now
    ensures var r := Step(s, UartTx(room, now));
            && HostSideKept(s, r)
            && if Streams(s) then
                 var n := Taken(s.b2h, room);
                 && r.b2h == s.b2h[n..] && DataSent(r) == DataSent(s) + s.b2h[..n]
                 && OnWire(r) == OnWire(s) + s.b2h[..n]
                 && Streams(r) && ControlSent(r) == ControlSent(s)
               else
                 var n := Taken(s.ctrl, room);
                 && r.ctrl == s.ctrl[n..] && ControlSent(r) == ControlSent(s) + s.ctrl[..n] && r.b2h == s.b2h
                 && (r.app == DataMode <==> s.app == DataMode || (s.flags.pending && n == |s.ctrl|))
                 && (s.app == DataMode ==> OnWire(r) == OnWire(s) + s.ctrl[..n] && DataSent(r) == DataSent(s))
                 && (r.app == DataMode && s.app != DataMode ==> OnWire(r) == DataSent(r) == "" && !r.flags.pending)
                 && (r.app != DataMode ==> r.app == s.app && r.flags.pending == s.flags.pending)
  {
    hide WireOf, Activate, OnWire, DataSent, ControlSent, Segregated, Enabled;
    var s1 := s.(clock := now);
    SameSent(s, s1);
    ActivateSends(s1, now);
    var s2 := Activate(s1, now);
    OpenWire(s1, now);
    if Streams(s2) {
      var n := Taken(s2.b2h, room);
      var s3 := Log(s2.(b2h := s2.b2h[n..]), WireData(s2.b2h[..n]));
      LogData(s2, n);
      ActivateSends(s3, now);
    } else {
      var n := Taken(s2.ctrl, room);
      var s3 := Log(s2.(ctrl := s2.ctrl[n..]), WireControl(s2.ctrl[..n]));
      LogControl(s2, n);
      ActivateSends(s3, now);
    }
  }

  lemma SameSent(s: State, r: State)
    requires r.trace == s.trace && r.ctrl == s.ctrl && r.b2h == s.b2h && r.app == s.app
    ensures OnWire(r) == OnWire(s) && DataSent(r) == DataSent(s) && ControlSent(r) == ControlSent(s)
    ensures Segregated(s) ==> Segregated(r)
  {
  }

  // ---------- a run of transmit interrupts ----------

  /** What still has to leave: the bytes of both rings, and data mode that has to open. */
  function Backlog(s: State): nat {
    |s.ctrl| + |s.b2h| + if s.flags.pending && s.app != DataMode then 1 else 0
  }

  /** From `s` to `r` bytes only moved from the rings to the wire, control bytes first. */
  ghost predicate Flows(s: State, r: State) {
    && ControlSent(r) + r.ctrl == ControlSent(s) + s.ctrl
    && (s.app == DataMode ==>
          && r.app == DataMode
          && OnWire(r) + (r.ctrl + r.b2h) == OnWire(s) + (s.ctrl + s.b2h)
          && DataSent(r) + r.b2h == DataSent(s) + s.b2h)
    && (s.app != DataMode ==>
          if r.app == DataMode then s.flags.pending && OnWire(r) == DataSent(r) == "" && Backlog(r) == 0
          else r.app == s.app && r.flags.pending == s.flags.pending)
  }

  lemma Moves(sent: string, ring: string, n: nat, more: string)
    requires n <= |ring|
    ensures (sent + ring[..n]) + ring[n..] == sent + ring
    ensures (sent + ring[..n]) + (ring[n..] + more) == sent + (ring + more)
    ensures n == |ring| ==> ring[n..] == ""
  {
    assert ring == ring[..n] + ring[n..];
  }

  lemma TxFlows(s: State, room: nat, now: Uptime)
    requires Consistent(s) && Segregated(s) && s.clock <= now && room > 0
    ensures var r := Step(s, UartTx(room, now));
            Flows(s, r) && (Backlog(s) > 0 ==> Backlog(r) < Backlog(s)) && (Backlog(s) == 0 ==> Backlog(r) == 0)
  {
    TxSends(s, room, now);
    StepKeeps(s, UartTx(room, now));
    assert s.app != DataMode ==> s.b2h == "";
    assert Step(s, UartTx(room, now)).app == DataMode ==> !Step(s, UartTx(room, now)).flags.pending;
    hide Step, Consistent, OnWire, DataSent, ControlSent, Segregated, HostSideKept;
    Moves(OnWire(s), s.b2h, Taken(s.b2h, room), "");
    Moves(DataSent(s), s.b2h, Taken(s.b2h, room), "");
    Moves(OnWire(s), s.ctrl, Taken(s.ctrl, room), s.b2h);
    Moves(ControlSent(s), s.ctrl, Taken(s.ctrl, room), "");
    assert "" + s.b2h == s.b2h && forall n: nat | n <= |s.b2h| :: "" + s.b2h[n..] == s.b2h[n..];
  }

  lemma FlowsTwice(s: State, m: State, r: State)
    requires Flows(s, m) && Flows(m, r) && (Backlog(m) == 0 ==> Backlog(r) == 0)
    ensures Flows(s, r)
  {
    hide OnWire, DataSent, ControlSent;
    if s.app != DataMode && m.app == DataMode {
      assert OnWire(r) == "" && DataSent(r) == "";
    }
  }

  predicate Transmits(events: seq<Event>) {
    forall i | 0 <= i < |events| :: events[i].UartTx? && events[i].room > 0
  }

  /** Whatever room the UART has each time: over a run of transmit interrupts nothing is lost or reordered, and
      as many of them as there is backlog empty both rings onto the wire, and open data mode if it is
      pending. */
  lemma {:induction false} TransmitsAll(s: State, events: seq<Event>)
    requires Consistent(s) && Segregated(s) && Legal(s, events) && Transmits(events)
    ensures var r := Run(s, events);
            && Consistent(r) && Segregated(r) && Flows(s, r)
            && (|events| >= Backlog(s) ==> Backlog(r) == 0)
    decreases |events|
  {
    hide Step, Consistent, Segregated, Enabled, Flows, Backlog;
    if events == [] {
      NothingFlows(s);
    } else {
      var ev := events[0];
      var m := Step(s, ev);
      assert ev == UartTx(ev.room, ev.now) && s.clock <= ev.now by { TxEnabled(s, ev); }
      StepKeeps(s, ev);
      StepWire(s, ev);
      TxFlows(s, ev.room, ev.now);
      TransmitsAll(m, events[1..]);
      FlowsTwice(s, m, Run(m, events[1..]));
    }
  }

  lemma TxEnabled(s: State, ev: Event)
    requires Enabled(s, ev) && ev.UartTx?
    ensures s.clock <= ev.now
  {
  }

  lemma NothingFlows(s: State)
    ensures Flows(s, s)
  {
    hide OnWire, DataSent, ControlSent;
  }

  lemma HearsOnly(s: State, data: string)
    requires Segregated(s) && s.app == DataMode && |s.b2h| + |data| <= B2H_SIZE
    ensures var r := Step(s, Notify(data));
            && r.app == DataMode && r.ctrl == s.ctrl && r.b2h == s.b2h + data && r.flags == s.flags
            && OnWire(r) == OnWire(s) && DataSent(r) == DataSent(s) && ControlSent(r) == ControlSent(s)
  {
    NotifyWire(s, data);
    var s1 := s.(stats := s.stats.(notifyOps := Add32(s.stats.notifyOps, 1),
                                   bleToHost := Add32(s.stats.bleToHost, |data|)));
    LogWire(s1.(b2h := s1.b2h + data), Heard(data));
    hide WireOf;
  }

  /** A notification of the peer that comes in data mode and fits the ring is on the wire, whole and after all
      that was queued before it, as soon as the UART has taken enough. */
  lemma NotificationArrives(s: State, data: string, events: seq<Event>)
    requires Consistent(s) && Segregated(s) && s.app == DataMode && |s.b2h| + |data| <= 16384
    requires Legal(s, [Notify(data)] + events) && Transmits(events) && |events| >= |s.ctrl| + |s.b2h| + |data|
    ensures var r := Run(s, [Notify(data)] + events);
            && r.app == DataMode && r.ctrl == r.b2h == ""
            && OnWire(r) == OnWire(s) + (s.ctrl + (s.b2h + data)) && DataSent(r) == DataSent(s) + (s.b2h + data)
  {
    var all := [Notify(data)] + events;
    assert all[0] == Notify(data) && all[1..] == events;
    StepKeeps(s, Notify(data));
    StepWire(s, Notify(data));
    HearsOnly(s, data);
    TransmitsAll(Step(s, Notify(data)), events);
    var r := Run(s, all);
    assert OnWire(r) + ("" + "") == OnWire(r) && DataSent(r) + "" == DataSent(r);
    hide Step, Segregated, Consistent, OnWire, DataSent, ControlSent, Run;
  }
}
