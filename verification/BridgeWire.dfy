/** main.c: control lines and data share the UART without mixing, and hand over to each other. */
module BridgeWire {
  import opened Common
  import opened Protocol
  import opened BridgeModel
  import opened BridgeInvariant
  import opened BridgeEscape
  import ExitMatcher

  datatype Phase = Closed | Open

  /** What the UART carried, or is to carry, since data mode last opened.  `data` is what was sent of the
      data; `inserted` what was queued as control bytes while data mode lasted; `base` is the mixture of both
      up to the last data byte, or up to the end of the session, and `block` the control bytes queued since.
      `sealed` says that data never followed a broken-off block. */
  datatype Mix = Mix(escaped: bool, sealed: bool, base: string, block: string, inserted: string, data: string)

  // All control bytes ever queued, and sent.
  datatype Total = Total(queued: string, sent: string)

  /** What a trace says of the UART: two ideal queues, and what went over the wire since data mode last
      opened.  `sound` says that every byte on the wire was the oldest of its queue, that data was sent only
      in data mode with no control byte waiting, and that data mode opened with both queues empty.  `said`
      are the control bytes queued since data mode ended. */
  datatype Wire = Wire(sound: bool, phase: Phase, ctrlQ: string, dataQ: string, wire: string, said: string,
                       mix: Mix, total: Total)

  /** Control bytes that can stand between data bytes without making or breaking an exit event: none, or
      lines that begin with a plus sign and do not contain one. */
  predicate Sealed(block: string) {
    block == "" ||
    (|block| >= 2 && block[0] == '+' && block[|block| - 2..] == NEWLINE && ExitMatcher.Find(EXIT_EVENT, block) == -1)
  }

  function CloseBlock(m: Mix): Mix {
    m.(sealed := m.sealed && Sealed(m.block), base := m.base + m.block, block := "")
  }

  function MixData(m: Mix, bytes: string): Mix {
    var c := CloseBlock(m);
    c.(base := c.base + bytes, data := c.data + bytes)
  }

  function MixControl(m: Mix, bytes: string): Mix {
    m.(block := m.block + bytes, inserted := m.inserted + bytes)
  }

  const NO_SESSION := Mix(false, true, "", "", "", "")

  function WatchWire(v: Wire, o: Obs): Wire {
    match o
    case Opened(_) =>
      Wire(v.sound && v.phase == Closed && v.ctrlQ == "" && v.dataQ == "", Open, "", "", "", "", NO_SESSION, v.total)
    case Left(byEscape) =>
      v.(sound := v.sound && v.phase == Open, phase := Closed, dataQ := "", said := "",
         mix := CloseBlock(v.mix).(escaped := byEscape))
    case Said(bytes) =>
      v.(ctrlQ := v.ctrlQ + bytes, said := if v.phase == Closed then v.said + bytes else v.said,
         mix := if v.phase == Open then MixControl(v.mix, bytes) else v.mix,
         total := v.total.(queued := v.total.queued + bytes))
    case Heard(bytes) => v.(sound := v.sound && v.phase == Open, dataQ := v.dataQ + bytes)
    case WireControl(bytes) =>
      if bytes <= v.ctrlQ
      then v.(ctrlQ := v.ctrlQ[|bytes|..], wire := v.wire + bytes, total := v.total.(sent := v.total.sent + bytes))
      else v.(sound := false)
    case WireData(bytes) =>
      if v.phase == Open && v.ctrlQ == "" && bytes <= v.dataQ
      then v.(dataQ := v.dataQ[|bytes|..], wire := v.wire + bytes, mix := MixData(v.mix, bytes))
      else v.(sound := false)
    case _ => v
  }

  function WireOf(trace: seq<Obs>): Wire {
    if trace == [] then Wire(true, Closed, "", "", "", "", NO_SESSION, Total("", ""))
    else WatchWire(WireOf(trace[..|trace| - 1]), trace[|trace| - 1])
  }

  /** How the parts of a sound view fit together. */
  predicate Fits(v: Wire) {
    && v.wire + v.ctrlQ == v.mix.base + v.mix.block + v.said
    && |v.mix.base| + |v.mix.block| == |v.mix.data| + |v.mix.inserted|
    && (v.mix.inserted == "" ==> v.mix.base == v.mix.data)
    && (v.phase == Closed ==> v.mix.block == "")
    && (v.phase == Open ==> v.said == "" && |v.mix.base| <= |v.wire|)
    && v.total.queued == v.total.sent + v.ctrlQ
  }

  // The two queues of the trace are the two rings.
  ghost predicate Matches(s: State) {
    var v := WireOf(s.trace);
    v.sound && v.ctrlQ == s.ctrl && v.dataQ == s.b2h
  }

  /** The rings against the wire, in every state between two steps. */
  ghost predicate Segregated(s: State) {
    var v := WireOf(s.trace);
    && Matches(s)
    && (v.phase == Open <==> s.app == DataMode)
    && (v.phase == Closed && v.mix.inserted == "" && v.mix.escaped ==> EXIT_EVENT <= v.said)
  }

  // No block of control bytes has been broken off so far.
  predicate Neat(v: Wire) {
    v.mix.sealed && Sealed(v.mix.block)
  }

  // No control byte was sent, and none was queued between data bytes.
  ghost predicate Kept(s: State, r: State) {
    var v, w := WireOf(s.trace), WireOf(r.trace);
    w.total.sent == v.total.sent && (Neat(v) ==> Neat(w))
  }

  // What talking adds to the view.
  ghost predicate Talked(before: Wire, after: Wire) {
    && after.phase == before.phase && after.wire == before.wire && after.total.sent == before.total.sent
    && before.said <= after.said
    && after.mix == before.mix.(block := after.mix.block, inserted := after.mix.inserted)
    && |before.mix.inserted| <= |after.mix.inserted|
    && (before.phase == Closed ==> after.mix == before.mix)
  }

  lemma LogWire(s: State, o: Obs)
    ensures WireOf(Log(s, o).trace) == WatchWire(WireOf(s.trace), o)
  {
    assert (s.trace + [o])[..|s.trace|] == s.trace;
  }

  lemma Assoc(a: string, b: string, c: string)
    ensures a + (b + c) == (a + b) + c
  {
  }

  lemma SaidFits(v: Wire, bytes: string)
    requires Fits(v)
    ensures Fits(WatchWire(v, Said(bytes)))
  {
    Assoc(v.wire, v.ctrlQ, bytes);
    Assoc(v.total.sent, v.ctrlQ, bytes);
    if v.phase == Closed {
      Assoc(v.mix.base + v.mix.block, v.said, bytes);
    } else {
      Assoc(v.mix.base, v.mix.block, bytes);
      assert v.mix.base + v.mix.block + "" == v.mix.base + v.mix.block;
      assert v.mix.base + (v.mix.block + bytes) + "" == v.mix.base + (v.mix.block + bytes);
    }
  }

  lemma ControlFits(v: Wire, bytes: string)
    requires Fits(v) && bytes <= v.ctrlQ
    ensures Fits(WatchWire(v, WireControl(bytes)))
  {
    var rest := v.ctrlQ[|bytes|..];
    assert v.ctrlQ == bytes + rest;
    Assoc(v.wire, bytes, rest);
    Assoc(v.total.sent, bytes, rest);
  }

  lemma DataFits(v: Wire, bytes: string)
    requires Fits(v) && v.phase == Open && v.ctrlQ == ""
    ensures Fits(WatchWire(v, WireData(bytes)))
  {
    assert v.wire == v.mix.base + v.mix.block by {
      assert v.wire + "" == v.wire && v.mix.base + v.mix.block + "" == v.mix.base + v.mix.block;
    }
    var base := v.mix.base + v.mix.block + bytes;
    assert base + "" + "" == base && (v.wire + bytes) + "" == v.wire + bytes;
    assert v.mix.inserted == "" ==> v.mix.block == "";
    assert v.mix.base + "" == v.mix.base;
  }

  lemma LeftFits(v: Wire, byEscape: bool)
    requires Fits(v) && v.phase == Open
    ensures Fits(WatchWire(v, Left(byEscape)))
  {
    var base := v.mix.base + v.mix.block;
    assert base + "" + "" == base && base + "" == base;
    assert v.mix.inserted == "" ==> v.mix.block == "";
    assert v.mix.base + "" == v.mix.base;
  }

  lemma WatchFits(v: Wire, o: Obs)
    requires Fits(v) && WatchWire(v, o).sound
    ensures Fits(WatchWire(v, o))
  {
    match o {
      case Said(bytes) => SaidFits(v, bytes);
      case WireControl(bytes) => ControlFits(v, bytes);
      case WireData(bytes) => DataFits(v, bytes);
      case Left(byEscape) => LeftFits(v, byEscape);
      case Opened(_) => assert "" + "" == "" + "" + "";
      case _ =>
    }
  }

  lemma {:induction false} SoundPrefix(trace: seq<Obs>, i: nat)
    requires i <= |trace| && WireOf(trace).sound
    ensures WireOf(trace[..i]).sound
    decreases |trace|
  {
    if i < |trace| {
      SoundPrefix(trace[..|trace| - 1], i);
      assert trace[..|trace| - 1][..i] == trace[..i];
    } else {
      assert trace[..i] == trace;
    }
  }

  lemma {:induction false} SoundFits(trace: seq<Obs>)
    requires WireOf(trace).sound
    ensures Fits(WireOf(trace))
    decreases |trace|
  {
    if trace != [] {
      SoundPrefix(trace, |trace| - 1);
      SoundFits(trace[..|trace| - 1]);
      WatchFits(WireOf(trace[..|trace| - 1]), trace[|trace| - 1]);
      hide WatchWire, Fits;
    }
  }

  lemma CtrlMatches(s: State, bytes: string)
    requires Matches(s)
    ensures Matches(QueueCtrl(s, bytes))
    ensures Talked(WireOf(s.trace), WireOf(QueueCtrl(s, bytes).trace))
    ensures WireOf(s.trace).phase == Closed ==>
              WireOf(QueueCtrl(s, bytes).trace).said == WireOf(s.trace).said + Fitting(bytes, CTRL_SIZE - |s.ctrl|)
    ensures QueueCtrl(s, bytes).ctrl == s.ctrl + Fitting(bytes, CTRL_SIZE - |s.ctrl|)
  {
    hide WireOf;
    var kept := Fitting(bytes, CTRL_SIZE - |s.ctrl|);
    LogWire(s.(ctrl := s.ctrl + kept), Said(kept));
  }

  lemma LineMatches(s: State, text: string)
    requires Matches(s)
    ensures Matches(QueueLine(s, text))
    ensures Talked(WireOf(s.trace), WireOf(QueueLine(s, text).trace))
    ensures WireOf(s.trace).phase == Closed && |s.ctrl| + |text| + 2 <= CTRL_SIZE ==>
              WireOf(QueueLine(s, text).trace).said == WireOf(s.trace).said + text + NEWLINE
  {
    hide WireOf, QueueCtrl, Matches;
    CtrlMatches(s, text);
    CtrlMatches(QueueCtrl(s, text), NEWLINE);
  }

  // Lines and mode changes that leave the session and the data ring alone.
  ghost predicate OnlySpoke(s: State, r: State) {
    Matches(r) && Talked(WireOf(s.trace), WireOf(r.trace))
  }

  lemma SameRings(s: State, r: State)
    requires Matches(s) && r.ctrl == s.ctrl && r.b2h == s.b2h && r.trace == s.trace
    ensures OnlySpoke(s, r)
  {
  }

  lemma Speaks(s: State, m: State, text: string)
    requires Matches(s) && m.ctrl == s.ctrl && m.b2h == s.b2h && m.trace == s.trace
    ensures OnlySpoke(s, QueueLine(m, text))
  {
    SameRings(s, m);
    LineMatches(m, text);
    hide WireOf, QueueLine, Matches;
  }

  lemma SpeaksAgain(s: State, m: State, r: State)
    requires OnlySpoke(s, m) && OnlySpoke(m, r)
    ensures OnlySpoke(s, r)
  {
    hide WireOf, Matches;
  }

  lemma ReplySpeaks(s: State, m: State, e: Errno)
    requires Matches(s) && m.ctrl == s.ctrl && m.b2h == s.b2h && m.trace == s.trace
    ensures OnlySpoke(s, Reply(m, e))
  {
    hide OnlySpoke, QueueLine;
    Speaks(s, m, AnswerLine(e));
  }

  lemma StopScanSpeaks(s: State, err: Errno, announce: bool)
    requires Matches(s)
    ensures OnlySpoke(s, StopScan(s, err, announce).1)
    ensures !announce ==> StopScan(s, err, announce).1.ctrl == s.ctrl && StopScan(s, err, announce).1.trace == s.trace
  {
    hide OnlySpoke, QueueLine, Matches;
    SameRings(s, StopScan(s, err, false).1);
    Speaks(s, StopScan(s, err, false).1, "+IND=SCED");
  }

  lemma ConnectSpeaks(s: State, valid: bool, stopErr: Errno, createErr: Errno)
    requires Matches(s)
    ensures OnlySpoke(s, Connect(s, valid, stopErr, createErr))
  {
    hide OnlySpoke, QueueLine, Matches, StopScan, Reply;
    StopScanSpeaks(s, stopErr, false);
    var (e, s1) := StopScan(s, stopErr, false);
    ReplySpeaks(s, s, Already);
    ReplySpeaks(s, s, Busy);
    ReplySpeaks(s, s, Invalid);
    ReplySpeaks(s, s1, e);
    ReplySpeaks(s, s1.(conn := Null), createErr);
    ReplySpeaks(s, s1.(conn := Set, link := Opening, app := Connecting), Success);
  }

  lemma AtSpeaks(s: State, ev: Event)
    requires Matches(s)
    requires ev.AtStartScan? || ev.AtDisconnect? || ev.AtEnterDataMode?
    ensures OnlySpoke(s, Step(s, ev))
  {
    hide OnlySpoke, QueueLine, Matches, Reply;
    match ev {
      case AtStartScan(err) =>
        ReplySpeaks(s, s, Already);
        ReplySpeaks(s, s, Busy);
        ReplySpeaks(s, s, Success);
        ReplySpeaks(s, s, err);
        ReplySpeaks(s, s.(app := Scanning, work := s.work.(scanStop := true)), Success);
      case AtDisconnect(index, err) =>
        ReplySpeaks(s, s, Invalid);
        ReplySpeaks(s, s, Success);
        ReplySpeaks(s, s.(app := Disconnecting), err);
      case AtEnterDataMode(index) =>
        EnterSpeaks(s, index);
    }
  }

  lemma EnterSpeaks(s: State, index: nat)
    requires Matches(s)
    ensures OnlySpoke(s, EnterDataMode(s, index))
  {
    hide QueueLine, Matches, Reply, WireOf;
    ReplySpeaks(s, s, EnterAnswer(s, index));
    var s1 := s.(flags := s.flags.(pending := true));
    ReplySpeaks(s, s1, Success);
    Speaks(Reply(s1, Success), Reply(s1, Success), ENTERED);
  }

  lemma CallbackSpeaks(s: State, ev: Event)
    requires Matches(s)
    requires ev.ProfileReady? || ev.ProfileFails? || ev.LinkFails? || ev.Line? || ev.ScanStops?
    ensures OnlySpoke(s, Step(s, ev))
  {
    hide QueueLine, Matches, OnlySpoke, WireOf, StopScan;
    match ev {
      case ProfileReady(canStream) =>
        var s1 := s.(profile := s.profile.(ready := canStream));
        Speaks(s, if s1.app != DataMode && !s1.flags.pending then s1.(app := ControlReady) else s1, "+IND=BLMN,0");
      case ProfileFails(lost) => ErrorSpeaks(s, if lost then LoseProfile(s) else s);
      case LinkFails => Speaks(s, s.(link := Down, conn := Null, app := Idle), FUNCTION_ERROR);
      case Line(text) => Speaks(s, s, text);
      case ScanStops(err) =>
        var s1 := s.(work := s.work.(scanStop := false));
        SameRings(s, s1);
        OnlySpokeMatches(s, s1);
        StopScanSpeaks(s1, err, true);
        SpeaksAgain(s, s1, StopScan(s1, err, true).1);
    }
  }

  lemma PromptSpeaks(s: State)
    requires Matches(s)
    ensures OnlySpoke(s, QueueCtrl(s, ">"))
  {
    CtrlMatches(s, ">");
    hide WireOf, QueueCtrl, Matches;
  }

  lemma OnlySpokeMatches(s: State, r: State)
    requires OnlySpoke(s, r)
    ensures Matches(r)
  {
  }

  lemma ConnectedSpeaks(s: State, started: bool)
    requires Matches(s)
    ensures OnlySpoke(s, OnConnected(s, started))
  {
    hide QueueLine, Matches, OnlySpoke, WireOf, OnProfileError;
    var s1 := s.(link := Up, app := Connecting, profile := s.profile.(ready := false));
    Speaks(s, s1, "+IND=BLMC,0");
    var s2 := QueueLine(s1, "+IND=BLMC,0");
    OnlySpokeMatches(s, s2);
    ErrorSpeaks(s2, s2);
    var s3 := OnProfileError(s2);
    OnlySpokeMatches(s2, s3);
    Speaks(s3, s3, FUNCTION_ERROR);
    SpeaksAgain(s, s2, s3);
    SpeaksAgain(s, s3, QueueLine(s3, FUNCTION_ERROR));
  }

  lemma ErrorSpeaks(s: State, m: State)
    requires Matches(s) && m.ctrl == s.ctrl && m.b2h == s.b2h && m.trace == s.trace
    ensures OnlySpoke(s, OnProfileError(m))
  {
    hide OnlySpoke, QueueLine, Matches;
    Speaks(s, if m.conn != Null && m.app != DataMode then m.(app := ControlReady) else m, FUNCTION_ERROR);
  }

  // ---------- the steps that move bytes ----------

  // The wire, the control ring and the data ring did not change.
  ghost predicate SameWire(s: State, r: State) {
    r.ctrl == s.ctrl && r.b2h == s.b2h && WireOf(r.trace) == WireOf(s.trace)
  }

  lemma PutWire(s: State, bytes: string)
    ensures SameWire(s, PutHost(s, bytes))
  {
    hide WireOf;
    var kept := Fitting(bytes, H2B_SIZE - |s.h2b|);
    LogWire(s.(h2b := s.h2b + kept), Offered(bytes, |kept|));
  }

  lemma FlushWire(s: State, later: Uptime)
    ensures SameWire(s, FlushCandidate(s, later))
  {
    PutWire(s, Pluses(s.escape.count));
    hide ScheduleTx, PutHost, WireOf;
  }

  lemma PlainWire(s: State, a: Arrival)
    ensures SameWire(s, RxPlain(s, a))
  {
    PutWire(s, [a.b]);
    hide PutHost, WireOf;
  }

  lemma ByteWire(s: State, a: Arrival)
    ensures SameWire(s, RxByte(s, a))
  {
    hide FlushCandidate, RxPlain, WireOf;
    LogWire(s.(clock := a.later), Arrived(a.b, a.now));
    var s2 := Log(s.(clock := a.later), Arrived(a.b, a.now));
    if !s2.escape.active {
      PlainWire(s2, a);
    } else {
      var s3 := s2.(work := s2.work.(guard := false));
      FlushWire(s3, a.later);
      PlainWire(FlushCandidate(s3, a.later), a);
    }
  }

  lemma {:induction false} BytesWire(s: State, arrivals: seq<Arrival>)
    ensures SameWire(s, RxBytes(s, arrivals))
    decreases |arrivals|
  {
    if arrivals != [] {
      var m := RxBytes(s, arrivals[..|arrivals| - 1]);
      BytesWire(s, arrivals[..|arrivals| - 1]);
      ByteWire(m, arrivals[|arrivals| - 1]);
      hide RxByte, WireOf;
    }
  }

  lemma RxWire(s: State, arrivals: seq<Arrival>)
    ensures SameWire(s, IsrRx(s, arrivals))
  {
    BytesWire(s, arrivals);
    hide RxBytes, ScheduleTx, RefreshFlow, Pause, WireOf;
  }

  lemma SendWire(s: State, result: Errno)
    ensures SameWire(s, PumpResult(s, result))
  {
    hide RefreshFlow, WireOf;
    if s.pump.Holding? && result == Success {
      var chunk := s.pump.chunk;
      LogWire(s.(h2b := if |chunk| <= |s.h2b| then s.h2b[|chunk|..] else s.h2b,
                 stats := s.stats.(hostToBle := Add32(s.stats.hostToBle, |chunk|),
                                   writeOps := Add32(s.stats.writeOps, 1)),
                 flags := s.flags.(flushDue := false), pump := AtTop), Sent(chunk));
    }
  }

  lemma HearWire(s: State, data: string)
    requires Segregated(s) && s.app == DataMode
    ensures Segregated(QueueData(s, data)) && QueueData(s, data).app == DataMode && Kept(s, QueueData(s, data))
  {
    hide WireOf;
    var kept := Fitting(data, B2H_SIZE - |s.b2h|);
    LogWire(s.(b2h := s.b2h + kept), Heard(kept));
  }

  lemma ExitWire(s: State)
    requires Segregated(s) && s.app == DataMode && s.conn != Null
    ensures Segregated(ExitDataMode(s)) && Kept(s, ExitDataMode(s))
  {
    SoundFits(s.trace);
    hide WireOf, QueueLine;
    var v := WireOf(s.trace);
    if v.mix.inserted == "" {
      assert v.wire + v.ctrlQ == v.mix.base + "" + "";
    }
    var s1 := ClearSession(s).(app := ControlReady);
    LogWire(s1, Left(true));
    var s2 := Log(s1, Left(true));
    LineMatches(s2, EXITED);
    assert EXITED + NEWLINE == EXIT_EVENT;
  }

  lemma GuardWire(s: State, now: Uptime)
    requires Consistent(s) && Segregated(s)
    ensures Segregated(GuardFired(s, now)) && Kept(s, GuardFired(s, now))
  {
    var s1 := s.(work := s.work.(guard := false), clock := now);
    assert Segregated(s1);
    FlushWire(s1, now);
    if s1.escape.active && s1.escape.count == 3 && Elapsed(now, s1.lastRx) >= s1.config.guardMs {
      ExitWire(s1);
    }
    hide WireOf, FlushCandidate, ExitDataMode;
  }

  lemma DropWire(s: State, byUser: bool)
    requires Segregated(s) && (s.app != DataMode ==> s.b2h == "")
    ensures Segregated(OnDisconnected(s, byUser)) && Kept(s, OnDisconnected(s, byUser))
  {
    hide WireOf, QueueLine, RefreshFlow;
    var s0 := CountDisconnect(s, byUser);
    var s1 := LoseLink(s0);
    LogWire(s0.(profile := s0.profile.(ready := false), conn := Null, link := Down, h2b := ""), LinkDropped);
    LogWire(s1, Left(false));
    var s2 := if s.app == DataMode then Log(s1, Left(false)) else s1;
    var s3 := ClearSession(s2).(app := Idle);
    assert Matches(s3);
    LineMatches(s3, "+IND=BLMD,0");
  }

  // No control byte was queued.
  ghost predicate Quiet(s: State, r: State) {
    var v, w := WireOf(s.trace), WireOf(r.trace);
    w.total.queued == v.total.queued && (Neat(v) ==> Neat(w))
  }

  lemma OpenWire(s: State, now: Uptime)
    requires Segregated(s) && (s.app != DataMode ==> s.b2h == "")
    ensures Segregated(Activate(s, now)) && Quiet(s, Activate(s, now))
    ensures Activates(s) ==> WireOf(Activate(s, now).trace).mix.data == WireOf(Activate(s, now).trace).wire == ""
  {
    hide WireOf, RefreshFlow;
    if Activates(s) {
      LogWire(s.(flags := s.flags.(pending := false, flushDue := false), escape := Escape(false, 0),
                 work := s.work.(retry := false, coalesce := false), lastRx := now,
                 stats := s.stats.(entries := Add32(s.stats.entries, 1)), app := DataMode), Opened(now));
    }
  }

  lemma SendControl(s: State, n: nat)
    requires Segregated(s) && n <= |s.ctrl|
    ensures var r := Log(s.(ctrl := s.ctrl[n..]), WireControl(s.ctrl[..n])); Segregated(r) && Quiet(s, r)
  {
    hide WireOf;
    LogWire(s.(ctrl := s.ctrl[n..]), WireControl(s.ctrl[..n]));
  }

  lemma SendData(s: State, n: nat)
    requires Segregated(s) && n <= |s.b2h| && s.app == DataMode && s.ctrl == ""
    ensures var r := Log(s.(b2h := s.b2h[n..]), WireData(s.b2h[..n])); Segregated(r) && Quiet(s, r)
  {
    hide WireOf;
    LogWire(s.(b2h := s.b2h[n..]), WireData(s.b2h[..n]));
  }

  lemma TxWire(s: State, room: nat, now: Uptime)
    requires Consistent(s) && Segregated(s)
    ensures Segregated(ServiceTx(s, room, now)) && Quiet(s, ServiceTx(s, room, now))
  {
    hide WireOf, Activate;
    var s1 := s.(clock := now);
    assert Segregated(s1);
    OpenWire(s1, now);
    hide Segregated;
    var s2 := Activate(s1, now);
    if s2.app == DataMode && |s2.ctrl| == 0 {
      var n := Min(room, Min(UART_TX_CHUNK, |s2.b2h|));
      SendData(s2, n);
      OpenWire(Log(s2.(b2h := s2.b2h[n..]), WireData(s2.b2h[..n])), now);
    } else {
      var n := Min(room, Min(UART_TX_CHUNK, |s2.ctrl|));
      SendControl(s2, n);
      OpenWire(Log(s2.(ctrl := s2.ctrl[n..]), WireControl(s2.ctrl[..n])), now);
    }
  }

  lemma SpokeSegregated(s: State, r: State)
    requires Segregated(s) && OnlySpoke(s, r) && (r.app == DataMode <==> s.app == DataMode)
    ensures Segregated(r) && Talked(WireOf(s.trace), WireOf(r.trace))
  {
    hide WireOf, Matches;
  }

  lemma SameSegregated(s: State, r: State)
    requires Segregated(s) && SameWire(s, r) && (r.app == DataMode <==> s.app == DataMode)
    ensures Segregated(r) && Talked(WireOf(s.trace), WireOf(r.trace)) && Kept(s, r)
  {
    hide WireOf;
  }

  lemma LineStored(s: State, text: string)
    ensures |s.ctrl| + |text| + 2 <= 2048 ==> QueueLine(s, text).ctrl == s.ctrl + text + NEWLINE
  {
  }

  lemma DataStored(s: State, data: string)
    ensures QueueData(s, data).b2h == s.b2h + Fitting(data, B2H_SIZE - |s.b2h|)
  {
  }

  /** A notification goes to the data ring in data mode and is a line in the control ring otherwise, if it is
      printable and not too long; and the other ring is left alone. */
  lemma NotifyWire(s: State, data: string)
    requires Segregated(s)
    ensures Segregated(NotifyArrived(s, data)) && Kept(s, NotifyArrived(s, data))
    ensures var r := NotifyArrived(s, data);
            if s.app == DataMode then r.b2h == s.b2h + Fitting(data, B2H_SIZE - |s.b2h|) && r.ctrl == s.ctrl
            else
              && r.b2h == s.b2h
              && (!Printable(data) || |data| > SEND_MAX ==> r.ctrl == s.ctrl)
              && (Printable(data) && |data| <= SEND_MAX && |s.ctrl| + |RecvLine(data)| + 2 <= CTRL_SIZE ==>
                    r.ctrl == s.ctrl + RecvLine(data) + NEWLINE)
  {
    hide QueueLine, QueueData, WireOf, Matches;
    var s1 := s.(stats := s.stats.(notifyOps := Add32(s.stats.notifyOps, 1),
                                   bleToHost := Add32(s.stats.bleToHost, |data|)));
    assert SameWire(s, s1);
    SameSegregated(s, s1);
    LineStored(s1, RecvLine(data));
    DataStored(s1, data);
    if s.app == DataMode {
      HearWire(s1, data);
    } else {
      Speaks(s1, s1, RecvLine(data));
      SpokeSegregated(s1, QueueLine(s1, RecvLine(data)));
    }
  }

  lemma TalkWire(s: State, ev: Event)
    requires Consistent(s) && Enabled(s, ev) && Talks(ev) && Segregated(s)
    ensures Segregated(Step(s, ev)) && Talked(WireOf(s.trace), WireOf(Step(s, ev).trace))
  {
    TalkingStep(s, ev);
    hide WireOf, OnlySpoke, SameWire, QueueLine, OnProfileError, StopScan, StartScan, Connect, Disconnect,
         EnterDataMode, OnProfileReady, OnConnected, OnConnectFailed, PumpNext, TalkOnly;
    var r := Step(s, ev);
    if ev.Prompted? {
      PromptSpeaks(s);
      SpokeSegregated(s, r);
    } else if ev.AtStartScan? || ev.AtDisconnect? || ev.AtEnterDataMode? {
      AtSpeaks(s, ev);
      SpokeSegregated(s, r);
    } else if ev.AtConnect? {
      ConnectSpeaks(s, ev.valid, ev.stopErr, ev.createErr);
      SpokeSegregated(s, r);
    } else if ev.LinkUp? {
      ConnectedSpeaks(s, ev.started);
      SpokeSegregated(s, r);
    } else if ev.ProfileReady? || ev.ProfileFails? || ev.LinkFails? || ev.Line? || ev.ScanStops? {
      CallbackSpeaks(s, ev);
      SpokeSegregated(s, r);
    } else {
      assert SameWire(s, r) by { QuietWire(s, ev); }
      SameSegregated(s, r);
    }
  }

  lemma QuietWire(s: State, ev: Event)
    requires ev.CoalesceFires? || ev.RetryFires? || ev.PumpStarts? || ev.PumpClaims? || ev.ProfileLost? || ev.MtuChanged?
    ensures SameWire(s, Step(s, ev))
  {
    hide WireOf, PumpNext;
  }

  /** Every step keeps control and data apart on the wire. */
  lemma StepWire(s: State, ev: Event)
    requires Consistent(s) && Enabled(s, ev) && Segregated(s)
    ensures Segregated(Step(s, ev))
    ensures if ev.UartTx? then Quiet(s, Step(s, ev))
            else if Talks(ev) then Talked(WireOf(s.trace), WireOf(Step(s, ev).trace))
            else Kept(s, Step(s, ev))
  {
    hide Segregated, SameWire, IsrRx, ServiceTx, GuardFired, PumpResult, NotifyArrived, OnDisconnected;
    match ev {
      case UartRx(arrivals) => RxWire(s, arrivals); RxStays(s, arrivals); SameSegregated(s, IsrRx(s, arrivals));
      case UartTx(room, now) => TxWire(s, room, now);
      case GuardFires(now) => GuardWire(s, now);
      case PumpSends(result) => SendWire(s, result); SendStays(s, result); SameSegregated(s, PumpResult(s, result));
      case Notify(data) => NotifyWire(s, data);
      case LinkDown(byUser) => DropWire(s, byUser);
      case _ => TalkWire(s, ev);
    }
  }

  lemma RxStays(s: State, arrivals: seq<Arrival>)
    requires Consistent(s) && Enabled(s, UartRx(arrivals))
    ensures IsrRx(s, arrivals).app == s.app
  {
    if s.app == DataMode {
      RxBytesFrame(s, arrivals);
    }
    hide RxBytes, ScheduleTx, RefreshFlow, Pause;
  }

  lemma SendStays(s: State, result: Errno)
    ensures PumpResult(s, result).app == s.app
  {
    hide RefreshFlow;
  }

  lemma {:induction false} RunWire(s: State, events: seq<Event>)
    requires Consistent(s) && Legal(s, events) && Segregated(s)
    ensures Segregated(Run(s, events))
    decreases |events|
  {
    if events != [] {
      StepKeeps(s, events[0]);
      StepWire(s, events[0]);
      RunWire(Step(s, events[0]), events[1..]);
    }
  }

  /** After a session, what the UART carried since data mode opened, followed by what is still queued, is the
      mixture of its data and of the control bytes queued meanwhile, followed by what was queued since; if
      none were queued meanwhile and the session ended by the escape, that is the data, then
      `+IND=DATAMODE,0`, then control bytes. */
  lemma Handover(s: State)
    requires Segregated(s) && WireOf(s.trace).phase == Closed
    ensures var v := WireOf(s.trace);
            && v.wire + s.ctrl == v.mix.base + v.said
            && |v.mix.base| == |v.mix.data| + |v.mix.inserted|
            && (v.mix.base == v.mix.data <==> v.mix.inserted == "")
            && (v.mix.inserted == "" && v.mix.escaped ==> EXIT_EVENT <= v.said)
  {
    SoundFits(s.trace);
    hide WireOf;
    var v := WireOf(s.trace);
    assert v.mix.base + "" == v.mix.base;
  }

  // ---------- what a sound trace is ----------

  /** When data mode opens, every control byte queued before has left the UART; and a data byte is sent only
      after data mode opened, before it ended, with no control byte waiting. */
  lemma SoundMeans(trace: seq<Obs>, i: nat)
    requires i < |trace| && WireOf(trace).sound
    ensures var v := WireOf(trace[..i]);
            && v.total.queued == v.total.sent + v.ctrlQ
            && (trace[i].Opened? ==> v.total.queued == v.total.sent)
            && (trace[i].WireData? ==> v.phase == Open && v.total.queued == v.total.sent && trace[i].bytes <= v.dataQ)
  {
    hide Fits, WatchWire, WireOf;
    SoundPrefix(trace, i);
    SoundPrefix(trace, i + 1);
    SoundFits(trace[..i]);
    LastWatch(trace[..i + 1]);
    assert trace[..i + 1][..i] == trace[..i];
    Allowed(WireOf(trace[..i]), trace[i]);
  }

  lemma LastWatch(trace: seq<Obs>)
    requires trace != []
    ensures WireOf(trace) == WatchWire(WireOf(trace[..|trace| - 1]), trace[|trace| - 1])
  {
  }

  lemma Allowed(v: Wire, o: Obs)
    requires Fits(v) && WatchWire(v, o).sound
    ensures v.total.queued == v.total.sent + v.ctrlQ
    ensures o.Opened? ==> v.total.queued == v.total.sent
    ensures o.WireData? ==> v.phase == Open && v.total.queued == v.total.sent && o.bytes <= v.dataQ
  {
  }
}
