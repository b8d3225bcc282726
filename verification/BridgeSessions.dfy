/** main.c: what a command that is confirmed has done, and that sessions do open. */
module BridgeSessions {
  import opened Common
  import opened Protocol
  import opened BridgeModel
  import opened BridgeInvariant
  import BridgeEscape
  import opened BridgeWire
  import opened BridgeSpeech
  import opened BridgeOutput
  import opened ControlParser

  predicate Confirmed(s: State, ev: Event) {
    Spoken(s, ev) != [] && Spoken(s, ev)[0] == Text("+OK")
  }

  predicate Refused(s: State, ev: Event) {
    Spoken(s, ev) == [Text("+ERR=Invalid Parameters")] || Spoken(s, ev) == [Text("+ERR=Function Error")]
  }

  // Nothing but what the device says.
  ghost predicate OnlyAnswers(s: State, r: State) {
    r == s.(ctrl := r.ctrl, trace := r.trace)
  }

  lemma Answers(e: Errno)
    ensures [Text(AnswerLine(e))][0] == Text("+OK") <==> e == Success
    ensures e != Success ==> AnswerLine(e) == "+ERR=Invalid Parameters" || AnswerLine(e) == "+ERR=Function Error"
  {
    AnswerTells(e);
  }

  /** AT+STARTSCAN is confirmed exactly if a scan is then going on, and a new one ends by its timer; refused, it
      changes nothing. */
  lemma ScanConfirmed(s: State, err: Errno)
    requires Consistent(s)
    ensures var ev := AtStartScan(err); var r := Step(s, ev);
            && (Confirmed(s, ev) <==> r.app == Scanning) && (Confirmed(s, ev) || Refused(s, ev))
            && (s.app != Scanning ==> (Confirmed(s, ev) <==> s.app == Idle && err == Success))
            && (Confirmed(s, ev) && s.app != Scanning ==> r.work.scanStop)
            && (Refused(s, ev) ==> OnlyAnswers(s, r))
  {
    Answers(ScanAnswer(s, err));
    hide QueueLine, AnswerLine;
  }

  /** AT+STARTCON is confirmed exactly if a connection is then being made that was not before; refused, it leaves
      link and connection as they are. */
  lemma ConnectConfirmed(s: State, valid: bool, stopErr: Errno, createErr: Errno)
    requires Consistent(s)
    ensures var ev := AtConnect(valid, stopErr, createErr); var r := Step(s, ev);
            && (Confirmed(s, ev) <==> s.link == Down && r.link == Opening && r.conn == Set && r.app == Connecting)
            && (Confirmed(s, ev) || Refused(s, ev))
            && (Confirmed(s, ev) <==>
                  s.conn == Null && valid && createErr == Success &&
                  (s.app == Scanning ==> stopErr == Success || stopErr == Already))
            && (Refused(s, ev) ==> r.link == s.link && r.conn == s.conn && (s.app != Scanning ==> OnlyAnswers(s, r)))
            && (Confirmed(s, ev) && s.app == Scanning ==> !r.work.scanStop)
  {
    Answers(ConnectAnswer(s, valid, stopErr, createErr));
    hide QueueLine, AnswerLine;
  }

  /** AT+DISCON begins a disconnection exactly if there is a connection and its number is 0, and is confirmed if
      that is accepted, or if there is nothing to disconnect. */
  lemma DisconnectConfirmed(s: State, index: nat, err: Errno)
    requires Consistent(s)
    ensures var ev := AtDisconnect(index, err); var r := Step(s, ev);
            && (Confirmed(s, ev) <==> index == 0 && (s.conn == Null || err == Success))
            && (Confirmed(s, ev) || Refused(s, ev))
            && (index == 0 && s.conn == Set ==> r.app == Disconnecting && r.conn == Set && r.link == s.link)
            && (index != 0 || s.conn == Null ==> OnlyAnswers(s, r))
  {
    Answers(DisconnectAnswer(s, index, err));
    hide QueueLine, AnswerLine;
  }

  /** AT+ENTERDATAMODE is confirmed, and the entry announced, exactly if it is then pending and was not; that is,
      if the connection number is 0, the configuration allows it, the profile takes the stream, and data mode
      neither lasts nor is pending. */
  lemma EnterConfirmed(s: State, index: nat)
    requires Consistent(s)
    ensures var ev := AtEnterDataMode(index); var r := Step(s, ev);
            && (Confirmed(s, ev) <==> r.flags.pending && !s.flags.pending)
            && (Confirmed(s, ev) <==>
                  index == 0 && s.config.allowDataMode && s.profile.ready && s.app != DataMode && !s.flags.pending)
            && (Confirmed(s, ev) ==> Spoken(s, ev) == [Text("+OK"), Text("+IND=DATAMODE,1")] && r.app == s.app)
            && (!Confirmed(s, ev) ==> Refused(s, ev) && OnlyAnswers(s, r))
            && (Spoken(s, ev) == [Text("+ERR=Invalid Parameters")] <==> index != 0)
  {
    Answers(EnterAnswer(s, index));
    AnswerTells(EnterAnswer(s, index));
    hide QueueLine, AnswerLine;
  }

  // ---------- the state diagram ----------

  /** The application state after each kind of step. */
  function NextApp(s: State, ev: Event): App {
    match ev
    case UartTx(room, _) => if s.flags.pending && |s.ctrl| <= Min(room, 128) then DataMode else s.app
    case GuardFires(now) => if s.escape.count == 3 && now - s.lastRx >= s.config.guardMs then ControlReady else s.app
    case ScanStops(err) => if s.app == Scanning && (err == Success || err == Already) then Idle else s.app
    case ProfileReady(_) => if s.app == DataMode || s.flags.pending then s.app else ControlReady
    case ProfileFails(_) => if s.app == DataMode then DataMode else ControlReady
    case AtStartScan(err) => if s.app == Idle && err == Success then Scanning else s.app
    case AtConnect(valid, stopErr, createErr) =>
      if s.link != Down || !valid then s.app
      else if s.app == Scanning && stopErr != Success && stopErr != Already then Scanning
      else if createErr == Success then Connecting
      else Idle
    case AtDisconnect(index, _) => if index == 0 && s.link != Down then Disconnecting else s.app
    case LinkUp(started) => if started then Connecting else ControlReady
    case LinkFails => Idle
    case LinkDown(_) => Idle
    case _ => s.app
  }

  // The link and the profile.
  function NextLink(s: State, ev: Event): Link {
    match ev
    case AtConnect(_, _, _) => if s.link == Down && NextApp(s, ev) == Connecting then Opening else s.link
    case LinkUp(_) => Up
    case LinkFails => Down
    case LinkDown(_) => Down
    case _ => s.link
  }

  function NextReady(s: State, ev: Event): bool {
    match ev
    case ProfileReady(canStream) => canStream
    case ProfileLost => false
    case ProfileFails(lost) => s.profile.ready && !lost
    case LinkUp(_) => false
    case LinkDown(_) => false
    case _ => s.profile.ready
  }

  // What the diagram says of a step.
  predicate Moves(s: State, r: State, ev: Event) {
    r.app == NextApp(s, ev) && r.link == NextLink(s, ev) &&
    r.profile == Profile(NextReady(s, ev), if ev.MtuChanged? then ev.payloadLen else s.profile.payloadLen)
  }

  lemma StreamMoves(s: State, ev: Event)
    requires Consistent(s) && Enabled(s, ev)
    requires ev.UartRx? || ev.UartTx? || ev.PumpSends? || ev.Notify?
    ensures Moves(s, Step(s, ev), ev)
  {
    hide RxBytes, ScheduleTx, RefreshFlow, Activate, QueueData, QueueLine;
    match ev {
      case UartRx(arrivals) => RxBytesFrame(s, arrivals);
      case _ =>
    }
  }

  lemma GuardMoves(s: State, now: Uptime)
    requires Consistent(s) && Enabled(s, GuardFires(now))
    ensures Moves(s, Step(s, GuardFires(now)), GuardFires(now))
  {
    hide FlushCandidate, QueueLine;
  }

  lemma CommandMoves(s: State, ev: Event)
    requires Consistent(s) && Enabled(s, ev)
    requires ev.AtStartScan? || ev.AtDisconnect? || ev.AtEnterDataMode? || ev.ScanStops?
    ensures Moves(s, Step(s, ev), ev)
  {
    hide QueueLine, AnswerLine;
  }

  lemma ConnectMoves(s: State, ev: Event)
    requires Consistent(s) && Enabled(s, ev) && ev.AtConnect?
    ensures Moves(s, Step(s, ev), ev)
  {
    hide QueueLine, AnswerLine;
  }

  lemma CallbackMoves(s: State, ev: Event)
    requires Consistent(s) && Enabled(s, ev)
    requires ev.ProfileReady? || ev.ProfileLost? || ev.ProfileFails? || ev.LinkUp? || ev.LinkFails?
    ensures Moves(s, Step(s, ev), ev)
  {
    hide QueueLine;
  }

  lemma DropMoves(s: State, byUser: bool)
    requires Consistent(s) && Enabled(s, LinkDown(byUser))
    ensures Moves(s, Step(s, LinkDown(byUser)), LinkDown(byUser))
  {
    hide QueueLine, RefreshFlow;
  }

  /** Every step moves the application, the link and the profile as the diagram says. */
  lemma StepMoves(s: State, ev: Event)
    requires Consistent(s) && Enabled(s, ev)
    ensures Moves(s, Step(s, ev), ev)
  {
    hide IsrRx, ServiceTx, GuardFired, PumpResult, NotifyArrived, OnDisconnected, QueueLine, StartScan, Connect,
         Disconnect, EnterDataMode, StopScan, OnProfileReady, OnProfileError, OnConnected, OnConnectFailed, Consistent,
         PumpNext, Moves;
    match ev {
      case UartRx(_) => StreamMoves(s, ev);
      case UartTx(_, _) => StreamMoves(s, ev);
      case PumpSends(_) => StreamMoves(s, ev);
      case Notify(_) => StreamMoves(s, ev);
      case GuardFires(now) => GuardMoves(s, now);
      case LinkDown(byUser) => DropMoves(s, byUser);
      case AtConnect(_, _, _) => ConnectMoves(s, ev);
      case AtStartScan(_) => CommandMoves(s, ev);
      case AtDisconnect(_, _) => CommandMoves(s, ev);
      case AtEnterDataMode(_) => CommandMoves(s, ev);
      case ScanStops(_) => CommandMoves(s, ev);
      case ProfileReady(_) => CallbackMoves(s, ev);
      case ProfileLost => CallbackMoves(s, ev);
      case ProfileFails(_) => CallbackMoves(s, ev);
      case LinkUp(_) => CallbackMoves(s, ev);
      case LinkFails => CallbackMoves(s, ev);
      case _ => QuietMoves(s, ev);
    }
  }

  lemma QuietMoves(s: State, ev: Event)
    requires ev.CoalesceFires? || ev.RetryFires? || ev.PumpStarts? || ev.PumpClaims? || ev.MtuChanged? || ev.Line? ||
             ev.Prompted?
    ensures Moves(s, Step(s, ev), ev)
  {
    hide QueueLine, PumpNext;
  }

  // ---------- notifications in control mode ----------

  predicate AllPrintable(data: string) {
    forall i | 0 <= i < |data| :: ' ' <= data[i] <= '~'
  }

  /** A notification outside data mode is shown as a line with its length and its bytes, exactly if they are
      printable and at most 256; and the line comes out of the host's parser as it is exactly if the bytes do not
      end in a space, which the host strips. */
  lemma NotificationShown(s: State, data: string)
    requires s.app != DataMode
    ensures var line := "+IND=RECV,0," + Decimal(|data|) + "," + data;
            && Spoken(s, Notify(data)) == (if AllPrintable(data) && |data| <= 256 then [Text(line)] else [])
            && (AllPrintable(data) ==> (Plain(line) <==> data == "" || data[|data| - 1] != ' '))
  {
    hide Decimal, Plain, AllPrintable, Printable, Spoken, RecvLine;
    SamePrintable(data);
    ShownWhen(s, data);
    RecvText(data);
    var head := "+IND=RECV,0,";
    DecimalAscii(|data|);
    assert AllPrintable(head) && AllPrintable(Decimal(|data|)) by { HeadPrintable(Decimal(|data|)); }
    if AllPrintable(data) {
      ShownPlain(head, Decimal(|data|), data);
    }
  }

  lemma ShownWhen(s: State, data: string)
    ensures Spoken(s, Notify(data)) ==
            if s.app != DataMode && Printable(data) && |data| <= 256 then [Text(RecvLine(data))] else []
  {
    hide Decimal, Printable, RecvLine, AnswerLine, EnterAnswer, ScanAnswer, ConnectAnswer, DisconnectAnswer, Escapes;
  }

  lemma RecvText(data: string)
    ensures RecvLine(data) == "+IND=RECV,0," + Decimal(|data|) + "," + data
  {
    hide Decimal;
  }

  lemma SamePrintable(data: string)
    ensures Printable(data) <==> AllPrintable(data)
  {
  }

  lemma HeadPrintable(digits: string)
    requires forall i | 0 <= i < |digits| :: '0' <= digits[i] <= '9'
    ensures AllPrintable("+IND=RECV,0,") && AllPrintable(digits)
  {
  }

  lemma ShownPlain(head: string, n: string, data: string)
    requires AllPrintable(head) && AllPrintable(n) && AllPrintable(data) && head != "" && head[0] == '+'
    ensures Plain(head + n + "," + data) <==> data == "" || data[|data| - 1] != ' '
  {
    var line := head + n + "," + data;
    forall i | 0 <= i < |line|
      ensures ' ' <= line[i] <= '~'
    {
    }
    assert line[0] == '+';
    assert line[|line| - 1] == if data == "" then ',' else data[|data| - 1];
  }

  // ---------- what moves the bytes ----------

  /** The host-to-BLE ring grows only by the receive interrupt and the guard timer, in data mode; it shrinks only by
      what the link took, and a lost link empties it.  The BLE-to-host ring grows only by notifications in data
      mode, shrinks only by the transmit interrupt, and is emptied when data mode ends. */
  predicate RingsMove(s: State, r: State, ev: Event) {
    && (match ev
        case UartRx(_) => s.h2b <= r.h2b && (s.app != DataMode ==> r == s)
        case GuardFires(_) => s.h2b <= r.h2b && |r.h2b| <= |s.h2b| + 2
        case PumpSends(result) => s.pump.Holding? ==>
          r.h2b == if result == Success && |s.pump.chunk| <= |s.h2b| then s.h2b[|s.pump.chunk|..] else s.h2b
        case LinkDown(_) => r.h2b == ""
        case _ => r.h2b == s.h2b)
    && (match ev
        case Notify(data) => r.b2h == s.b2h + if s.app == DataMode then Fitting(data, B2H_SIZE - |s.b2h|) else ""
        case UartTx(_, _) => |r.b2h| <= |s.b2h| && r.b2h == s.b2h[|s.b2h| - |r.b2h|..]
        case _ => r.b2h == if r.app == DataMode then s.b2h else "")
  }

  lemma TxRings(s: State, room: nat, now: Uptime)
    requires Consistent(s)
    ensures RingsMove(s, ServiceTx(s, room, now), UartTx(room, now))
  {
    hide Activate;
  }

  lemma RxRings(s: State, arrivals: seq<Arrival>)
    requires Consistent(s) && Enabled(s, UartRx(arrivals))
    ensures RingsMove(s, IsrRx(s, arrivals), UartRx(arrivals))
  {
    if s.app == DataMode {
      RxBytesFrame(s, arrivals);
    }
    hide RxBytes, ScheduleTx, RefreshFlow;
  }

  lemma GuardRings(s: State, now: Uptime)
    requires Consistent(s) && Enabled(s, GuardFires(now))
    ensures RingsMove(s, GuardFired(s, now), GuardFires(now))
  {
    hide QueueLine, ScheduleTx;
  }

  lemma OtherRings(s: State, ev: Event)
    requires Consistent(s) && Enabled(s, ev) && (ev.PumpSends? || ev.Notify? || ev.LinkDown?)
    ensures RingsMove(s, Step(s, ev), ev)
  {
    hide QueueLine, RefreshFlow;
  }

  lemma StepRings(s: State, ev: Event)
    requires Consistent(s) && Enabled(s, ev)
    ensures RingsMove(s, Step(s, ev), ev)
  {
    hide IsrRx, ServiceTx, GuardFired, PumpResult, NotifyArrived, OnDisconnected, QueueLine, StartScan, Connect,
         Disconnect, EnterDataMode, StopScan, OnProfileReady, OnProfileError, OnConnected, OnConnectFailed, PumpClaim,
         TalkOnly;
    match ev {
      case UartRx(arrivals) => RxRings(s, arrivals);
      case UartTx(room, now) => TxRings(s, room, now);
      case GuardFires(now) => GuardRings(s, now);
      case PumpSends(_) => OtherRings(s, ev);
      case Notify(_) => OtherRings(s, ev);
      case LinkDown(_) => OtherRings(s, ev);
      case _ => TalkingStep(s, ev); TalkRings(s, ev);
    }
  }

  lemma TalkRings(s: State, ev: Event)
    requires Consistent(s) && Talks(ev) && StreamUntouched(s, Step(s, ev))
    ensures RingsMove(s, Step(s, ev), ev)
  {
    hide Step, TalkOnly;
  }

  // ---------- a session opens and is over ----------

  /** When data mode ends nothing of the session is left but, after an escape, the bytes that still have to reach
      the peer: no data for the host, no candidate, no flag and no timer of it. */
  lemma SessionOver(s: State, ev: Event)
    requires Consistent(s) && Enabled(s, ev) && s.app == DataMode && Step(s, ev).app != DataMode
    ensures var r := Step(s, ev);
            && (ev.GuardFires? || ev.LinkDown?)
            && r.b2h == "" && r.escape == Escape(false, 0) && r.flags == Flags(false, false, false)
            && !r.work.retry && !r.work.coalesce && !r.work.guard
            && r.h2b == if ev.LinkDown? then "" else s.h2b
  {
    StepMoves(s, ev);
    hide IsrRx, ServiceTx, PumpResult, NotifyArrived, QueueLine, FlushCandidate;
  }

  lemma Unfolds(s: State, ev: Event, rest: seq<Event>)
    ensures Run(s, [ev] + rest) == Run(Step(s, ev), rest)
    ensures Legal(s, [ev] + rest) <==> Enabled(s, ev) && Legal(Step(s, ev), rest)
    ensures SpokenAll(s, [ev] + rest) == Spoken(s, ev) + SpokenAll(Step(s, ev), rest)
    ensures Lossless(s, [ev] + rest) <==> BridgeSpeech.Room(s, Spoken(s, ev)) && Lossless(Step(s, ev), rest)
  {
    hide Step, Enabled, Spoken, BridgeSpeech.Room;
    assert ([ev] + rest)[0] == ev && ([ev] + rest)[1..] == rest;
  }

  // What the steps up to data mode keep.
  ghost predicate Prepared(s: State, r: State, ev: Event) {
    && Consistent(r) && Segregated(r) && Moves(s, r, ev) && r.config == s.config && r.rxIrq == s.rxIrq
    && (!ev.AtEnterDataMode? ==> r.flags.pending == s.flags.pending)
    && (BridgeSpeech.Room(s, Spoken(s, ev)) ==> |r.ctrl| == |s.ctrl| + |Serialise(Spoken(s, ev))|)
  }

  lemma Prepares(s: State, ev: Event)
    requires Consistent(s) && Segregated(s) && Enabled(s, ev)
    requires ev.AtConnect? || ev.LinkUp? || ev.ProfileReady? || ev.AtEnterDataMode?
    ensures Prepared(s, Step(s, ev), ev)
  {
    hide Step, Consistent, Segregated, Moves, Spoken, Serialise, Enabled, TalkOnly;
    StepKeeps(s, ev);
    StepWire(s, ev);
    StepMoves(s, ev);
    TalkingStep(s, ev);
    KeepsPending(s, ev);
    if BridgeSpeech.Room(s, Spoken(s, ev)) {
      StepSays(s, ev);
    }
  }

  lemma KeepsPending(s: State, ev: Event)
    requires ev.AtConnect? || ev.LinkUp? || ev.ProfileReady?  || ev.AtEnterDataMode?
    ensures !ev.AtEnterDataMode? ==> Step(s, ev).flags.pending == s.flags.pending
  {
    hide QueueLine, StopScan, OnProfileError;
  }

  const CONNECT := AtConnect(true, Success, Success)

  function Approach(): seq<Event> {
    [CONNECT] + ([LinkUp(true)] + ([ProfileReady(true)] + ([AtEnterDataMode(0)] + [])))
  }

  const GREETING: seq<Item> :=
    [Text("+OK"), Text("+IND=BLMC,0"), Text("+IND=BLMN,0"), Text("+OK"), Text("+IND=DATAMODE,1")]

  lemma Speech(s: State)
    ensures s.conn == Null && s.app == Idle ==> Spoken(s, CONNECT) == [Text("+OK")]
    ensures Spoken(s, LinkUp(true)) == [Text("+IND=BLMC,0")] && Spoken(s, ProfileReady(true)) == [Text("+IND=BLMN,0")]
  {
  }

  lemma SpeechLength(items: seq<Item>)
    requires |items| <= 2 && forall i | 0 <= i < |items| :: items[i].Text? && |items[i].text| <= 16
    ensures |Serialise(items)| <= 36
  {
    if |items| == 2 {
      assert items == [items[0]] + [items[1]];
      SerialiseSnoc([items[0]], items[1]);
    }
    if |items| >= 1 {
      SerialiseOne(items[0]);
      assert |items| == 1 ==> items == [items[0]];
    }
    hide Serialise;
    NothingSaid();
  }

  // How far the approach to data mode has got.
  ghost predicate Stage(s: State, app: App, link: Link, pending: bool) {
    && Consistent(s) && Segregated(s) && s.app == app && s.link == link && s.flags.pending == pending
    && s.config.allowDataMode && s.rxIrq == On
  }

  // One step of it, which says `items`.
  ghost predicate Steps(s: State, ev: Event, items: seq<Item>) {
    Enabled(s, ev) && Spoken(s, ev) == items && BridgeSpeech.Room(s, items)
  }

  lemma Connects(s: State)
    requires Stage(s, Idle, Down, false) && |s.ctrl| <= 1900
    ensures Steps(s, CONNECT, [Text("+OK")]) && Stage(Step(s, CONNECT), Connecting, Opening, false)
    ensures |Step(s, CONNECT).ctrl| <= |s.ctrl| + 36
  {
    hide Step, Segregated, Serialise, Spoken;
    Speech(s);
    SpeechLength([Text("+OK")]);
    Prepares(s, CONNECT);
  }

  lemma ComesUp(s: State)
    requires Stage(s, Connecting, Opening, false) && |s.ctrl| <= 1936
    ensures Steps(s, LinkUp(true), [Text("+IND=BLMC,0")]) && Stage(Step(s, LinkUp(true)), Connecting, Up, false)
    ensures |Step(s, LinkUp(true)).ctrl| <= |s.ctrl| + 36
  {
    hide Step, Segregated, Serialise, Spoken, Consistent;
    Speech(s);
    SpeechLength([Text("+IND=BLMC,0")]);
    Prepares(s, LinkUp(true));
  }

  lemma GetsReady(s: State)
    requires Stage(s, Connecting, Up, false) && |s.ctrl| <= 1972
    ensures Steps(s, ProfileReady(true), [Text("+IND=BLMN,0")])
    ensures Stage(Step(s, ProfileReady(true)), ControlReady, Up, false) && Step(s, ProfileReady(true)).profile.ready
    ensures |Step(s, ProfileReady(true)).ctrl| <= |s.ctrl| + 36
  {
    hide Step, Segregated, Serialise, Spoken, Consistent;
    Speech(s);
    SpeechLength([Text("+IND=BLMN,0")]);
    Prepares(s, ProfileReady(true));
  }

  lemma AsksToEnter(s: State)
    requires Stage(s, ControlReady, Up, false) && s.profile.ready && |s.ctrl| <= 2008
    ensures Steps(s, AtEnterDataMode(0), [Text("+OK"), Text("+IND=DATAMODE,1")])
    ensures Stage(Step(s, AtEnterDataMode(0)), ControlReady, Up, true)
  {
    hide Step, Segregated, Serialise, Spoken, Consistent;
    EnterConfirmed(s, 0);
    SpeechLength([Text("+OK"), Text("+IND=DATAMODE,1")]);
    Prepares(s, AtEnterDataMode(0));
  }

  /** From the idle device: AT+STARTCON, a link that comes up, a peer with the profile and AT+ENTERDATAMODE make data
      mode pending, having queued exactly the two confirmations and the three announcements. */
  lemma Opens(s: State)
    requires Consistent(s) && Segregated(s) && s.app == Idle && s.config.allowDataMode && s.rxIrq == On
    requires |s.ctrl| <= 1900
    ensures var r := Run(s, Approach());
            && Legal(s, Approach()) && Stage(r, ControlReady, Up, true)
            && ControlQueued(r) == ControlQueued(s) + Serialise(GREETING)
  {
    hide *;
    Begins(s);
    var s1 := Step(s, CONNECT);
    var s2 := Step(s1, LinkUp(true));
    var s3 := Step(s2, ProfileReady(true));
    Connects(s);
    ComesUp(s1);
    GetsReady(s2);
    AsksToEnter(s3);
    Chain(s, s1, s2, s3);
    Greets();
    RunQueues(s, Approach());
  }

  lemma Begins(s: State)
    requires Consistent(s) && Segregated(s) && s.app == Idle && s.config.allowDataMode && s.rxIrq == On
    ensures Stage(s, Idle, Down, false)
  {
  }

  lemma Greets()
    ensures [Text("+OK")] + ([Text("+IND=BLMC,0")] + ([Text("+IND=BLMN,0")] + [Text("+OK"), Text("+IND=DATAMODE,1")])) ==
            GREETING
  {
  }

  lemma Chain(s: State, s1: State, s2: State, s3: State)
    requires s1 == Step(s, CONNECT) && s2 == Step(s1, LinkUp(true)) && s3 == Step(s2, ProfileReady(true))
    requires Steps(s, CONNECT, [Text("+OK")]) && Steps(s1, LinkUp(true), [Text("+IND=BLMC,0")])
    requires Steps(s2, ProfileReady(true), [Text("+IND=BLMN,0")])
    requires Steps(s3, AtEnterDataMode(0), [Text("+OK"), Text("+IND=DATAMODE,1")])
    ensures Legal(s, Approach()) && Lossless(s, Approach()) && Run(s, Approach()) == Step(s3, AtEnterDataMode(0))
    ensures SpokenAll(s, Approach()) ==
            [Text("+OK")] + ([Text("+IND=BLMC,0")] + ([Text("+IND=BLMN,0")] + [Text("+OK"), Text("+IND=DATAMODE,1")]))
  {
    hide Step, Enabled, Spoken, BridgeSpeech.Room;
    var last := [AtEnterDataMode(0)] + [];
    Unfolds(s3, AtEnterDataMode(0), []);
    Unfolds(s2, ProfileReady(true), last);
    Unfolds(s1, LinkUp(true), [ProfileReady(true)] + last);
    Unfolds(s, CONNECT, [LinkUp(true)] + ([ProfileReady(true)] + last));
    assert Spoken(s3, AtEnterDataMode(0)) + [] == Spoken(s3, AtEnterDataMode(0));
  }

  /** And then the transmit interrupt alone opens it: as soon as the UART has taken what was queued, data mode
      lasts, the host has been sent all of that, and nothing else is on the wire of the session. */
  lemma SessionOpens(s: State, events: seq<Event>)
    requires Consistent(s) && Segregated(s) && s.app == Idle && s.config.allowDataMode && s.rxIrq == On
    requires |s.ctrl| <= 1900 && Legal(s, Approach() + events) && Transmits(events) && |events| > CTRL_SIZE
    ensures var r := Run(s, Approach() + events);
            && r.app == DataMode && r.link == Up && r.ctrl == r.b2h == "" && OnWire(r) == ""
            && ControlSent(r) == ControlQueued(s) + Serialise(GREETING)
  {
    hide *;
    Opens(s);
    BridgeEscape.LegalSplit(s, Approach(), events);
    var m := Run(s, Approach());
    assert Consistent(m) && Segregated(m) && m.app == ControlReady && m.flags.pending by { Pending(m); }
    TransmitsAll(m, events);
    Totals(m);
    OpenedBy(s, m, Run(m, events), |events|);
  }

  lemma Pending(s: State)
    requires Stage(s, ControlReady, Up, true)
    ensures Consistent(s) && Segregated(s) && s.app == ControlReady && s.flags.pending
  {
  }

  lemma OpenedBy(s: State, m: State, r: State, n: nat)
    requires Consistent(m) && Flows(m, r) && Consistent(r) && m.app == ControlReady && m.flags.pending
    requires n > CTRL_SIZE && (n >= Backlog(m) ==> Backlog(r) == 0)
    requires ControlQueued(m) == ControlSent(m) + m.ctrl
    ensures r.app == DataMode && r.link == Up && r.ctrl == r.b2h == "" && OnWire(r) == ""
    ensures ControlSent(r) == ControlQueued(m)
  {
    hide ControlSent, ControlQueued, OnWire, DataSent;
    assert ControlSent(r) + "" == ControlSent(r);
  }
}
