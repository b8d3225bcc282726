/** main.c: which lines each step queues, and what becomes of them on the wire. */
module BridgeSpeech {
  import opened Common
  import opened Protocol
  import opened BridgeModel
  import opened BridgeInvariant
  import opened BridgeWire
  import opened ControlParser

  // The answer of op_start_scan, op_connect and op_disconnect.
  function ScanAnswer(s: State, err: Errno): Errno {
    if s.conn != Null then Already
    else if s.app == Connecting || s.app == Disconnecting then Busy
    else if s.app == Scanning then Success
    else err
  }

  function ConnectAnswer(s: State, valid: bool, stopErr: Errno, createErr: Errno): Errno {
    if s.conn != Null then Already
    else if s.app == Connecting || s.app == Disconnecting then Busy
    else if !valid then Invalid
    else if s.app == Scanning && stopErr != Success && stopErr != Already then stopErr
    else createErr
  }

  function DisconnectAnswer(s: State, index: nat, err: Errno): Errno {
    if index != 0 then Invalid else if s.conn == Null then Success else err
  }

  predicate Escapes(s: State, now: Uptime) {
    s.escape.active && s.escape.count == 3 && Elapsed(now, s.lastRx) >= s.config.guardMs
  }

  predicate Shows(s: State, data: string) {
    s.app != DataMode && Printable(data) && |data| <= SEND_MAX
  }

  /** The prompts and lines a step queues, in order. */
  function Spoken(s: State, ev: Event): seq<Item> {
    match ev
    case GuardFires(now) => if Escapes(s, now) then [Text(EXITED)] else []
    case ScanStops(err) => if s.app == Scanning && (err == Success || err == Already) then [Text("+IND=SCED")] else []
    case Notify(data) => if Shows(s, data) then [Text(RecvLine(data))] else []
    case ProfileReady(_) => [Text("+IND=BLMN,0")]
    case ProfileFails(_) => [Text(FUNCTION_ERROR)]
    case Line(text) => [Text(text)]
    case Prompted => [Prompt]
    case AtStartScan(err) => [Text(AnswerLine(ScanAnswer(s, err)))]
    case AtConnect(valid, stopErr, createErr) => [Text(AnswerLine(ConnectAnswer(s, valid, stopErr, createErr)))]
    case AtDisconnect(index, err) => [Text(AnswerLine(DisconnectAnswer(s, index, err)))]
    case AtEnterDataMode(index) =>
      var e := EnterAnswer(s, index);
      if e == Success then [Text(AnswerLine(e)), Text(ENTERED)] else [Text(AnswerLine(e))]
    case LinkUp(started) =>
      if started then [Text("+IND=BLMC,0")]
      else [Text("+IND=BLMC,0"), Text(FUNCTION_ERROR), Text(FUNCTION_ERROR)]
    case LinkFails => [Text(FUNCTION_ERROR)]
    case LinkDown(_) => [Text("+IND=BLMD,0")]
    case _ => []
  }

  // The control ring has room for all of it.
  predicate Room(s: State, items: seq<Item>) {
    |s.ctrl| + |Serialise(items)| <= CTRL_SIZE
  }

  lemma SerialiseOne(item: Item)
    ensures Serialise([item]) == Serialised(item)
  {
    assert [item][..0] == [];
  }

  lemma SerialiseSnoc(items: seq<Item>, item: Item)
    ensures Serialise(items + [item]) == Serialise(items) + Serialised(item)
  {
    assert (items + [item])[..|items|] == items;
  }

  lemma {:induction false} SerialiseConcat(a: seq<Item>, b: seq<Item>)
    ensures Serialise(a + b) == Serialise(a) + Serialise(b)
    decreases |b|
  {
    hide *;
    if b == [] {
      assert a + b == a;
      NothingSaid();
      Sum(Serialise(a), "", "");
    } else {
      var front, last := b[..|b| - 1], b[|b| - 1];
      assert b == front + [last] && a + b == (a + front) + [last];
      SerialiseConcat(a, front);
      SerialiseSnoc(a + front, last);
      SerialiseSnoc(front, last);
      Sum(Serialise(a), Serialise(front), Serialised(last));
    }
  }

  // The ring after one line.
  lemma Queues(s: State, text: string)
    requires Room(s, [Text(text)])
    ensures QueueLine(s, text).ctrl == s.ctrl + Serialise([Text(text)])
    ensures |Serialise([Text(text)])| == |text| + 2
  {
    SerialiseOne(Text(text));
    LineStored(s, text);
    assert s.ctrl + text + NEWLINE == s.ctrl + (text + NEWLINE);
  }

  // One more line after `items`.
  lemma QueuesNext(base: string, s: State, items: seq<Item>, text: string)
    requires s.ctrl == base + Serialise(items) && |base| + |Serialise(items + [Text(text)])| <= CTRL_SIZE
    ensures QueueLine(s, text).ctrl == base + Serialise(items + [Text(text)])
    ensures |Serialise(items)| <= |Serialise(items + [Text(text)])|
  {
    SerialiseSnoc(items, Text(text));
    LineStored(s, text);
    hide QueueLine, Serialise;
    assert base + Serialise(items) + text + NEWLINE == base + (Serialise(items) + (text + NEWLINE));
  }

  lemma QueuesTwo(s: State, a: string, b: string)
    requires Room(s, [Text(a), Text(b)])
    ensures QueueLine(QueueLine(s, a), b).ctrl == s.ctrl + Serialise([Text(a), Text(b)])
  {
    assert [Text(a)] + [Text(b)] == [Text(a), Text(b)];
    SerialiseSnoc([Text(a)], Text(b));
    Queues(s, a);
    hide QueueLine, Serialise;
    QueuesNext(s.ctrl, QueueLine(s, a), [Text(a)], b);
  }

  lemma QueuesThree(s: State, a: string, b: string, c: string)
    requires Room(s, [Text(a), Text(b), Text(c)])
    ensures QueueLine(QueueLine(QueueLine(s, a), b), c).ctrl == s.ctrl + Serialise([Text(a), Text(b), Text(c)])
  {
    assert [Text(a), Text(b)] + [Text(c)] == [Text(a), Text(b), Text(c)];
    SerialiseSnoc([Text(a), Text(b)], Text(c));
    QueuesTwo(s, a, b);
    hide QueueLine, Serialise;
    QueuesNext(s.ctrl, QueueLine(QueueLine(s, a), b), [Text(a), Text(b)], c);
  }

  // What a step leaves in the control ring.
  predicate Says(s: State, ev: Event) {
    Step(s, ev).ctrl == s.ctrl + Serialise(Spoken(s, ev))
  }

  lemma Silent(s: State, ev: Event)
    requires Spoken(s, ev) == []
    requires Step(s, ev).ctrl == s.ctrl
    ensures Says(s, ev)
  {
    hide Step, Spoken;
  }

  lemma AtSays(s: State, ev: Event)
    requires Room(s, Spoken(s, ev))
    requires ev.AtStartScan? || ev.AtDisconnect? || ev.AtEnterDataMode?
    ensures Says(s, ev)
  {
    hide QueueLine, Serialise;
    match ev {
      case AtStartScan(err) =>
        var text := AnswerLine(ScanAnswer(s, err));
        Queues(s, text);
        Queues(s.(app := Scanning, work := s.work.(scanStop := true)), text);
      case AtDisconnect(index, err) =>
        var text := AnswerLine(DisconnectAnswer(s, index, err));
        Queues(s, text);
        Queues(s.(app := Disconnecting), text);
      case AtEnterDataMode(index) =>
        var e := EnterAnswer(s, index);
        if e == Success {
          QueuesTwo(s.(flags := s.flags.(pending := true)), AnswerLine(e), ENTERED);
        } else {
          Queues(s, AnswerLine(e));
        }
    }
  }

  lemma ConnectQueue(s: State, valid: bool, stopErr: Errno, createErr: Errno)
    ensures Connect(s, valid, stopErr, createErr).ctrl ==
            QueueLine(s, AnswerLine(ConnectAnswer(s, valid, stopErr, createErr))).ctrl
  {
    var text := AnswerLine(ConnectAnswer(s, valid, stopErr, createErr));
    var s1 := StopScan(s, stopErr, false).1;
    assert s1.ctrl == s.ctrl;
    hide QueueLine, AnswerLine;
    SameQueue(s, s1, text);
    SameQueue(s, s1.(conn := Null), text);
    SameQueue(s, s1.(conn := Set, link := Opening, app := Connecting), text);
  }

  lemma ConnectSays(s: State, ev: Event)
    requires Room(s, Spoken(s, ev)) && ev.AtConnect?
    ensures Says(s, ev)
  {
    hide QueueLine, Serialise, Connect, ConnectAnswer, AnswerLine;
    ConnectQueue(s, ev.valid, ev.stopErr, ev.createErr);
    Queues(s, AnswerLine(ConnectAnswer(s, ev.valid, ev.stopErr, ev.createErr)));
  }

  lemma CallbackSays(s: State, ev: Event)
    requires Room(s, Spoken(s, ev))
    requires ev.ProfileReady? || ev.ProfileFails? || ev.LinkFails? || ev.Line? || ev.LinkUp?
    ensures Says(s, ev)
  {
    hide QueueLine, Serialise;
    match ev {
      case ProfileReady(canStream) =>
        var s1 := s.(profile := s.profile.(ready := canStream));
        Queues(if s1.app != DataMode && !s1.flags.pending then s1.(app := ControlReady) else s1, "+IND=BLMN,0");
      case ProfileFails(lost) =>
        var m := if lost then LoseProfile(s) else s;
        Queues(if m.conn != Null && m.app != DataMode then m.(app := ControlReady) else m, FUNCTION_ERROR);
      case LinkFails => Queues(s.(link := Down, conn := Null, app := Idle), FUNCTION_ERROR);
      case Line(text) => Queues(s, text);
      case LinkUp(started) => ConnectedSays(s, started);
    }
  }

  lemma SameQueue(s: State, m: State, text: string)
    requires s.ctrl == m.ctrl
    ensures QueueLine(s, text).ctrl == QueueLine(m, text).ctrl
  {
  }

  lemma ConnectedSays(s: State, started: bool)
    requires Room(s, Spoken(s, LinkUp(started)))
    ensures Says(s, LinkUp(started))
  {
    hide Serialise;
    var s1 := s.(link := Up, app := Connecting, profile := s.profile.(ready := false));
    if started {
      Queues(s1, "+IND=BLMC,0");
    } else {
      QueuesThree(s1, "+IND=BLMC,0", FUNCTION_ERROR, FUNCTION_ERROR);
      var s2 := QueueLine(s1, "+IND=BLMC,0");
      hide QueueLine;
      var m := if s2.conn != Null && s2.app != DataMode then s2.(app := ControlReady) else s2;
      SameQueue(m, s2, FUNCTION_ERROR);
      SameQueue(QueueLine(m, FUNCTION_ERROR), QueueLine(s2, FUNCTION_ERROR), FUNCTION_ERROR);
    }
  }

  lemma GuardSays(s: State, now: Uptime)
    requires Consistent(s) && Room(s, Spoken(s, GuardFires(now)))
    ensures Says(s, GuardFires(now))
  {
    hide QueueLine, Serialise, RefreshFlow, FlushCandidate;
    var s1 := s.(work := s.work.(guard := false), clock := now);
    if Escapes(s, now) {
      var s2 := ClearSession(s1);
      Queues(Log(s2.(app := if s2.conn != Null then ControlReady else Idle), Left(true)), EXITED);
    } else {
      Silent(s, GuardFires(now));
    }
  }

  lemma DropSays(s: State, byUser: bool)
    requires Room(s, Spoken(s, LinkDown(byUser)))
    ensures Says(s, LinkDown(byUser))
  {
    hide QueueLine, Serialise, RefreshFlow;
    var s1 := LoseLink(CountDisconnect(s, byUser));
    var s2 := if s.app == DataMode then Log(s1, Left(false)) else s1;
    Queues(ClearSession(s2).(app := Idle), "+IND=BLMD,0");
  }

  lemma NotifySays(s: State, data: string)
    requires Room(s, Spoken(s, Notify(data)))
    ensures Says(s, Notify(data))
  {
    hide QueueLine, Serialise, QueueData, RecvLine, Printable;
    var s1 := s.(stats := s.stats.(notifyOps := Add32(s.stats.notifyOps, 1),
                                   bleToHost := Add32(s.stats.bleToHost, |data|)));
    if Shows(s, data) {
      Queues(s1, RecvLine(data));
    } else {
      Silent(s, Notify(data));
    }
  }

  lemma StopQueue(s: State, err: Errno)
    ensures var r := StopScan(s, err, true).1;
            r.ctrl == if s.app == Scanning && (err == Success || err == Already)
                      then QueueLine(s, "+IND=SCED").ctrl else s.ctrl
  {
    hide QueueLine;
    SameQueue(s, s.(work := s.work.(scanStop := false), app := if s.conn != Null then ControlReady else Idle), "+IND=SCED");
  }

  lemma ScanSays(s: State, err: Errno)
    requires Room(s, Spoken(s, ScanStops(err)))
    ensures Says(s, ScanStops(err))
  {
    hide QueueLine, Serialise, StopScan;
    StopQueue(s.(work := s.work.(scanStop := false)), err);
    if s.app == Scanning && (err == Success || err == Already) {
      SameQueue(s, s.(work := s.work.(scanStop := false)), "+IND=SCED");
      Queues(s, "+IND=SCED");
    } else {
      Silent(s, ScanStops(err));
    }
  }

  /** Every step but the transmit interrupt adds to the control ring exactly the lines it speaks, if they fit. */
  lemma StepSays(s: State, ev: Event)
    requires Consistent(s) && Enabled(s, ev) && Room(s, Spoken(s, ev)) && !ev.UartTx?
    ensures Says(s, ev)
  {
    hide Serialise, QueueLine, RxBytes, ScheduleTx, RefreshFlow, StartScan, Connect, Disconnect, EnterDataMode,
         OnConnected, OnDisconnected, GuardFired, NotifyArrived, StopScan, OnProfileReady, OnProfileError;
    match ev {
      case AtStartScan(_) => AtSays(s, ev);
      case AtDisconnect(_, _) => AtSays(s, ev);
      case AtEnterDataMode(_) => AtSays(s, ev);
      case AtConnect(_, _, _) => ConnectSays(s, ev);
      case ProfileReady(_) => CallbackSays(s, ev);
      case ProfileFails(_) => CallbackSays(s, ev);
      case LinkFails => CallbackSays(s, ev);
      case Line(_) => CallbackSays(s, ev);
      case LinkUp(_) => CallbackSays(s, ev);
      case GuardFires(now) => GuardSays(s, now);
      case LinkDown(byUser) => DropSays(s, byUser);
      case Notify(data) => NotifySays(s, data);
      case ScanStops(err) => ScanSays(s, err);
      case Prompted => SerialiseOne(Prompt);
      case UartRx(arrivals) => RxSilent(s, arrivals); Silent(s, ev);
      case _ => Silent(s, ev);
    }
  }

  lemma RxSilent(s: State, arrivals: seq<Arrival>)
    requires Consistent(s) && Enabled(s, UartRx(arrivals))
    ensures IsrRx(s, arrivals).ctrl == s.ctrl
  {
    RxBytesFrame(s, arrivals);
    hide RxBytes, ScheduleTx, RefreshFlow;
  }

  // ---------- runs ----------

  function SpokenAll(s: State, events: seq<Event>): seq<Item>
    decreases |events|
  {
    if events == [] then [] else Spoken(s, events[0]) + SpokenAll(Step(s, events[0]), events[1..])
  }

  /** The control ring never overflows. */
  predicate Lossless(s: State, events: seq<Event>)
    decreases |events|
  {
    events == [] || (Room(s, Spoken(s, events[0])) && Lossless(Step(s, events[0]), events[1..]))
  }

  function ControlQueued(s: State): string {
    WireOf(s.trace).total.queued
  }

  function ControlSent(s: State): string {
    WireOf(s.trace).total.sent
  }

  lemma Totals(s: State)
    requires Segregated(s)
    ensures ControlQueued(s) == ControlSent(s) + s.ctrl
  {
    SoundFits(s.trace);
    hide WireOf;
  }

  lemma StepTotals(s: State, ev: Event)
    requires Consistent(s) && Enabled(s, ev) && Segregated(s)
    ensures Segregated(Step(s, ev))
    ensures if ev.UartTx? then ControlQueued(Step(s, ev)) == ControlQueued(s)
            else ControlSent(Step(s, ev)) == ControlSent(s)
  {
    StepWire(s, ev);
    hide Segregated, WireOf, Step, Consistent, Enabled, Neat;
  }

  lemma Sum(sent: string, ctrl: string, more: string)
    ensures sent + (ctrl + more) == (sent + ctrl) + more
    ensures sent + "" == sent
  {
  }

  lemma StepQueues(s: State, ev: Event)
    requires Consistent(s) && Enabled(s, ev) && Segregated(s) && Room(s, Spoken(s, ev))
    ensures ControlQueued(Step(s, ev)) == ControlQueued(s) + Serialise(Spoken(s, ev))
  {
    hide *;
    StepTotals(s, ev);
    Totals(s);
    Totals(Step(s, ev));
    if ev.UartTx? {
      TxSilent(s, ev);
      Sum(ControlQueued(s), "", "");
    } else {
      StepSays(s, ev);
      SaysMeans(s, ev);
      Sum(ControlSent(s), s.ctrl, Serialise(Spoken(s, ev)));
    }
  }

  lemma SaysMeans(s: State, ev: Event)
    requires Says(s, ev)
    ensures Step(s, ev).ctrl == s.ctrl + Serialise(Spoken(s, ev))
  {
  }

  lemma TxSilent(s: State, ev: Event)
    requires ev.UartTx?
    ensures Serialise(Spoken(s, ev)) == ""
  {
  }

  /** What a run queues, if its control ring never overflows, is what its steps speak, in order. */
  lemma {:induction false} RunQueues(s: State, events: seq<Event>)
    requires Consistent(s) && Legal(s, events) && Segregated(s) && Lossless(s, events)
    ensures Segregated(Run(s, events))
    ensures ControlQueued(Run(s, events)) == ControlQueued(s) + Serialise(SpokenAll(s, events))
    decreases |events|
  {
    hide Step, Segregated, Consistent, Enabled, Spoken, ControlQueued, Room, Serialise;
    if events == [] {
      Sum(ControlQueued(s), "", "");
      assert Serialise([]) == "" by { NothingSaid(); }
    } else {
      var r := Step(s, events[0]);
      StepKeeps(s, events[0]);
      StepTotals(s, events[0]);
      StepQueues(s, events[0]);
      RunQueues(r, events[1..]);
      SerialiseConcat(Spoken(s, events[0]), SpokenAll(r, events[1..]));
      Sum(ControlQueued(s), Serialise(Spoken(s, events[0])), Serialise(SpokenAll(r, events[1..])));
    }
  }

  lemma NothingSaid()
    ensures Serialise([]) == ""
  {
  }
}
