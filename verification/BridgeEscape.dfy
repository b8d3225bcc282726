/** main.c: the timed escape.  What the host sends in data mode is stored in order except for a candidate
    of at most three plus signs; data mode ends through the escape only for a candidate of exactly three,
    with silence on both sides; and such a candidate always ends it. */
module BridgeEscape {
  import opened Common
  import opened Protocol
  import opened BridgeModel
  import opened BridgeInvariant

  datatype Key = Key(b: char, at: int)

  /** What a trace says of the current session: when it opened, the bytes that arrived and when, the bytes
      the ring stored and how many it refused. */
  datatype Session = Session(openedAt: int, keys: seq<Key>, stored: string, refused: nat)

  function WatchSession(v: Session, o: Obs): Session {
    match o
    case Opened(at) => Session(at, [], "", 0)
    case Arrived(b, at) => v.(keys := v.keys + [Key(b, at)])
    case Offered(bytes, kept) =>
      if kept <= |bytes| then v.(stored := v.stored + bytes[..kept], refused := v.refused + |bytes| - kept) else v
    case _ => v
  }

  function SessionOf(trace: seq<Obs>): Session {
    if trace == [] then Session(0, [], "", 0)
    else WatchSession(SessionOf(trace[..|trace| - 1]), trace[|trace| - 1])
  }

  function Bytes(keys: seq<Key>): string {
    seq(|keys|, i requires 0 <= i < |keys| => keys[i].b)
  }

  // Every arrival but the last `n` is stored, refused or part of the candidate.
  ghost predicate Owes(s: State, n: nat) {
    var v := SessionOf(s.trace);
    && |v.keys| == |v.stored| + v.refused + s.escape.count + n
    && (v.refused == 0 ==> Bytes(v.keys[..|v.keys| - n]) == v.stored + Pluses(s.escape.count))
  }

  // The candidate is the end of what arrived.
  ghost predicate Recent(s: State) {
    var v := SessionOf(s.trace);
    && v.openedAt <= s.lastRx
    && (forall i | 0 <= i < |v.keys| :: v.keys[i].at <= s.lastRx)
    && (forall i | |v.keys| - s.escape.count <= i < |v.keys| && i >= 0 :: v.keys[i].b == '+')
    && (s.escape.active && |v.keys| > 0 ==> v.keys[|v.keys| - 1].at == s.lastRx)
  }

  /** In data mode the received bytes are the stored bytes followed by the candidate's plus signs (if the
      ring refused none; in any case their numbers agree), and the candidate is the end of what arrived. */
  ghost predicate Tracked(s: State) {
    s.app == DataMode ==> Owes(s, 0) && Recent(s)
  }

  /** Nothing arrived, and the session did not open, during the `guardMs` before arrival `i`. */
  predicate QuietBefore(v: Session, i: int, guardMs: nat) {
    0 <= i < |v.keys| && v.keys[i].at - v.openedAt >= guardMs &&
    (i > 0 ==> v.keys[i].at - v.keys[i - 1].at >= guardMs)
  }

  /** The first plus sign of a candidate came after silence. */
  ghost predicate CandidateQuiet(s: State) {
    var v := SessionOf(s.trace);
    s.app == DataMode && s.escape.active ==> QuietBefore(v, |v.keys| - s.escape.count, s.config.guardMs)
  }

  // ---------- the trace ----------

  lemma LogSession(s: State, o: Obs)
    ensures SessionOf(Log(s, o).trace) == WatchSession(SessionOf(s.trace), o)
  {
    assert (s.trace + [o])[..|s.trace|] == s.trace;
  }

  lemma {:induction false} TalkSession(before: seq<Obs>, after: seq<Obs>)
    requires TalkOnly(before, after)
    ensures SessionOf(before) == SessionOf(after)
    decreases |after|
  {
    if |before| < |after| {
      TalkSession(before, after[..|after| - 1]);
    } else {
      assert before == after;
    }
  }

  // ---------- one byte ----------

  lemma PutSession(s: State, bytes: string)
    ensures var v := SessionOf(s.trace); var w := SessionOf(PutHost(s, bytes).trace);
            w.keys == v.keys && w.openedAt == v.openedAt &&
            w.refused >= v.refused && |w.stored| + w.refused == |v.stored| + v.refused + |bytes| &&
            (w.refused == 0 ==> v.refused == 0 && w.stored == v.stored + bytes)
  {
    var kept := Fitting(bytes, H2B_SIZE - |s.h2b|);
    LogSession(s.(h2b := s.h2b + kept), Offered(bytes, |kept|));
    assert bytes[..|kept|] == kept;
  }

  lemma FlushOwes(s: State, later: Uptime)
    requires s.escape.active && 1 <= s.escape.count <= 3 && Owes(s, 1)
    ensures Owes(FlushCandidate(s, later), 1)
    ensures SessionOf(FlushCandidate(s, later).trace).keys == SessionOf(s.trace).keys
    ensures SessionOf(FlushCandidate(s, later).trace).openedAt == SessionOf(s.trace).openedAt
  {
    PutSession(s, Pluses(s.escape.count));
    hide ScheduleTx, PutHost, SessionOf;
  }

  lemma BytesSnoc(keys: seq<Key>)
    requires |keys| > 0
    ensures Bytes(keys) == Bytes(keys[..|keys| - 1]) + [keys[|keys| - 1].b]
  {
  }

  lemma PlainTracks(s: State, a: Arrival)
    requires !s.escape.active && s.escape.count == 0 && Owes(s, 1)
    requires |SessionOf(s.trace).keys| > 0 && SessionOf(s.trace).keys[|SessionOf(s.trace).keys| - 1] == Key(a.b, a.now)
    ensures Owes(RxPlain(s, a), 0)
    ensures SessionOf(RxPlain(s, a).trace).keys == SessionOf(s.trace).keys
    ensures SessionOf(RxPlain(s, a).trace).openedAt == SessionOf(s.trace).openedAt
  {
    var keys := SessionOf(s.trace).keys;
    BytesSnoc(keys);
    assert keys[..|keys|] == keys;
    PutSession(s, [a.b]);
    hide PutHost, SessionOf;
  }

  /** One received byte. */
  lemma ByteTracks(s: State, a: Arrival)
    requires CandidateOk(s) && s.clock <= a.now <= a.later
    requires Owes(s, 0) && Recent(s)
    ensures Owes(RxByte(s, a), 0) && Recent(RxByte(s, a))
    ensures SessionOf(RxByte(s, a).trace).openedAt == SessionOf(s.trace).openedAt
    ensures SessionOf(RxByte(s, a).trace).keys == SessionOf(s.trace).keys + [Key(a.b, a.now)]
  {
    hide FlushCandidate, RxPlain, SessionOf;
    var v := SessionOf(s.trace);
    var s1 := s.(clock := a.later);
    LogSession(s1, Arrived(a.b, a.now));
    var s2 := Log(s1, Arrived(a.b, a.now));
    var w := SessionOf(s2.trace);
    assert w.keys[..|w.keys| - 1] == v.keys && v.keys[..|v.keys|] == v.keys && w.keys[..|w.keys|] == w.keys;
    if !s2.escape.active {
      PlainTracks(s2, a);
    } else {
      var s3 := s2.(work := s2.work.(guard := false));
      if a.b == '+' && s2.escape.count < 3 {
        BytesSnoc(w.keys);
        assert Pluses(s.escape.count + 1) == Pluses(s.escape.count) + ['+'];
      } else {
        FlushOwes(s3, a.later);
        PlainTracks(FlushCandidate(s3, a.later), a);
      }
    }
  }

  /** The plus sign after a full candidate, when the clock ticks while that candidate is flushed: the
      difference of the two readings is negative and passes for a long silence. */
  predicate Ticks(s: State, a: Arrival) {
    s.escape.count == 3 && a.b == '+' && a.now < a.later && a.now - s.lastRx < s.config.guardMs
  }

  // The candidate after one byte.
  lemma ByteEscape(s: State, a: Arrival)
    requires CandidateOk(s) && s.clock <= a.now <= a.later
    ensures var r := RxByte(s, a);
            && r.app == s.app && r.config == s.config
            && r.escape ==
               if s.escape.active && a.b == '+' && s.escape.count < 3 then Escape(true, s.escape.count + 1)
               else if a.b == '+' && Elapsed(a.now, if s.escape.active then a.later else s.lastRx) >= s.config.guardMs
               then Escape(true, 1)
               else Escape(false, 0)
  {
    hide PutHost, ScheduleTx;
  }

  // One more arrival leaves the silence before the others as it was.
  lemma QuietSame(v: Session, w: Session, key: Key, i: int, guardMs: nat)
    requires w.keys == v.keys + [key] && w.openedAt == v.openedAt && i < |v.keys|
    ensures QuietBefore(w, i, guardMs) <==> QuietBefore(v, i, guardMs)
  {
  }

  // And before the new one there was silence if there was any since `lastRx`; only then, if that is when the
  // last one came.
  lemma QuietNext(s: State, w: Session, a: Arrival)
    requires Recent(s) && s.lastRx <= s.clock <= a.now
    requires w.keys == SessionOf(s.trace).keys + [Key(a.b, a.now)] && w.openedAt == SessionOf(s.trace).openedAt
    ensures var n := |SessionOf(s.trace).keys|; var quiet := a.now - s.lastRx >= s.config.guardMs;
            && (quiet ==> QuietBefore(w, n, s.config.guardMs))
            && (s.escape.active && n > 0 && QuietBefore(w, n, s.config.guardMs) ==> quiet)
  {
    hide SessionOf;
  }

  lemma Holds(s: State)
    requires Owes(s, 0)
    ensures s.escape.count <= |SessionOf(s.trace).keys|
  {
    hide SessionOf;
  }

  lemma ByteFacts(s: State, a: Arrival)
    requires CandidateOk(s) && s.clock <= a.now <= a.later
    requires Owes(s, 0) && Recent(s) && s.app == DataMode && CandidateQuiet(s)
    ensures var v, w := SessionOf(s.trace), SessionOf(RxByte(s, a).trace); var n := |v.keys|;
            var g := s.config.guardMs; var quiet := a.now - s.lastRx >= g;
            && |w.keys| == n + 1
            && (s.escape.active ==> n > 0 && QuietBefore(w, n - s.escape.count, g))
            && (quiet ==> QuietBefore(w, n, g))
            && (s.escape.active && QuietBefore(w, n, g) ==> quiet)
  {
    hide RxByte, SessionOf, Owes, Recent, QuietBefore;
    Holds(s);
    var v, w := SessionOf(s.trace), SessionOf(RxByte(s, a).trace);
    ByteTracks(s, a);
    QuietNext(s, w, a);
    if s.escape.active {
      QuietSame(v, w, Key(a.b, a.now), |v.keys| - s.escape.count, s.config.guardMs);
    }
  }

  /** Silence precedes every candidate, except exactly one that starts by such a tick. */
  lemma ByteQuiet(s: State, a: Arrival)
    requires CandidateOk(s) && s.clock <= a.now <= a.later
    requires Owes(s, 0) && Recent(s) && s.app == DataMode && CandidateQuiet(s)
    ensures CandidateQuiet(RxByte(s, a)) <==> !Ticks(s, a)
  {
    hide RxByte, SessionOf, Owes, Recent, QuietBefore;
    ByteFacts(s, a);
    ByteEscape(s, a);
  }

  // ---------- chunks and steps ----------

  function Arrivals(arrivals: seq<Arrival>): seq<Key> {
    seq(|arrivals|, i requires 0 <= i < |arrivals| => Key(arrivals[i].b, arrivals[i].now))
  }

  lemma {:induction false} BytesTrack(s: State, arrivals: seq<Arrival>)
    requires CandidateOk(s) && InOrder(s.clock, arrivals)
    requires Owes(s, 0) && Recent(s)
    ensures Owes(RxBytes(s, arrivals), 0) && Recent(RxBytes(s, arrivals))
    ensures SessionOf(RxBytes(s, arrivals).trace).openedAt == SessionOf(s.trace).openedAt
    ensures SessionOf(RxBytes(s, arrivals).trace).keys == SessionOf(s.trace).keys + Arrivals(arrivals)
    decreases |arrivals|
  {
    hide Owes, Recent, SessionOf, RxByte;
    if arrivals != [] {
      var front := arrivals[..|arrivals| - 1];
      InOrderPrefix(s.clock, arrivals);
      RxBytesFrame(s, front);
      BytesTrack(s, front);
      ByteTracks(RxBytes(s, front), arrivals[|arrivals| - 1]);
      assert Arrivals(arrivals) == Arrivals(front) + Arrivals(arrivals[|arrivals| - 1..]);
    }
  }

  /** No byte of a chunk starts a candidate by a tick. */
  predicate TickFree(s: State, arrivals: seq<Arrival>) {
    forall i | 0 <= i < |arrivals| :: !Ticks(RxBytes(s, arrivals[..i]), arrivals[i])
  }

  lemma {:induction false} BytesQuiet(s: State, arrivals: seq<Arrival>)
    requires CandidateOk(s) && InOrder(s.clock, arrivals) && TickFree(s, arrivals)
    requires Owes(s, 0) && Recent(s) && s.app == DataMode && CandidateQuiet(s)
    ensures CandidateQuiet(RxBytes(s, arrivals))
    decreases |arrivals|
  {
    hide Owes, Recent, SessionOf, CandidateQuiet, RxByte;
    if arrivals != [] {
      var front := arrivals[..|arrivals| - 1];
      InOrderPrefix(s.clock, arrivals);
      RxBytesFrame(s, front);
      BytesTrack(s, front);
      assert forall i | 0 <= i < |front| :: front[..i] == arrivals[..i] && front[i] == arrivals[i];
      BytesQuiet(s, front);
      ByteQuiet(RxBytes(s, front), arrivals[|arrivals| - 1]);
    }
  }

  // What Tracked and CandidateQuiet read.
  ghost predicate SameEscape(s: State, r: State) {
    r.app == s.app && r.escape == s.escape && r.lastRx == s.lastRx && r.config == s.config &&
    SessionOf(r.trace) == SessionOf(s.trace)
  }

  lemma SameTracks(s: State, r: State)
    requires SameEscape(s, r)
    ensures Tracked(s) ==> Tracked(r)
    ensures CandidateQuiet(s) ==> CandidateQuiet(r)
  {
  }

  lemma RxEnds(s: State)
    ensures SameEscape(s, RefreshFlow(ScheduleTx(s)))
  {
    hide RefreshFlow, ScheduleTx, SessionOf;
  }

  lemma PauseSame(s: State)
    ensures SameEscape(s, Pause(s))
  {
    hide SessionOf;
  }

  /** A step in which no byte starts a candidate by a tick of the clock, and a run of such steps. */
  predicate NoTick(s: State, ev: Event) {
    ev.UartRx? && s.app == DataMode ==> TickFree(s, ev.arrivals)
  }

  predicate NoTicks(s: State, events: seq<Event>)
    decreases |events|
  {
    events == [] || (NoTick(s, events[0]) && NoTicks(Step(s, events[0]), events[1..]))
  }

  lemma RxTracks(s: State, arrivals: seq<Arrival>)
    requires Consistent(s) && Enabled(s, UartRx(arrivals)) && Tracked(s)
    ensures Tracked(IsrRx(s, arrivals))
    ensures CandidateQuiet(s) && NoTick(s, UartRx(arrivals)) ==> CandidateQuiet(IsrRx(s, arrivals))
  {
    hide RxBytes, ScheduleTx, RefreshFlow, SessionOf, Pause, Owes, Recent, CandidateQuiet, SameEscape, TickFree;
    if s.app == DataMode && H2B_SIZE - |s.h2b| < RX_CHUNK {
      PauseSame(s);
      SameTracks(s, Pause(s));
    } else if s.app == DataMode {
      RxBytesFrame(s, arrivals);
      BytesTrack(s, arrivals);
      var r := RxBytes(s, arrivals);
      if CandidateQuiet(s) && NoTick(s, UartRx(arrivals)) {
        BytesQuiet(s, arrivals);
      }
      RxEnds(r);
      SameTracks(r, DataModeRx(s, arrivals));
    }
  }

  lemma GuardTracks(s: State, now: Uptime)
    requires Consistent(s) && Enabled(s, GuardFires(now)) && Tracked(s)
    ensures Tracked(GuardFired(s, now))
    ensures CandidateQuiet(s) ==> CandidateQuiet(GuardFired(s, now))
  {
    var s1 := s.(work := s.work.(guard := false), clock := now);
    PutSession(s1, Pluses(s1.escape.count));
    hide PutHost, ScheduleTx, SessionOf, ExitDataMode;
    var keys := SessionOf(s.trace).keys;
    assert keys[..|keys| - 0] == keys;
  }

  lemma OpenTracks(s: State, now: Uptime)
    requires s.app != DataMode ==> s.escape == Escape(false, 0)
    requires Tracked(s)
    ensures Tracked(Activate(s, now))
    ensures CandidateQuiet(s) ==> CandidateQuiet(Activate(s, now))
  {
    if Activates(s) {
      hide RefreshFlow, SessionOf;
      var s1 := s.(flags := s.flags.(pending := false, flushDue := false), escape := Escape(false, 0),
                   work := s.work.(retry := false, coalesce := false), lastRx := now,
                   stats := s.stats.(entries := Add32(s.stats.entries, 1)), app := DataMode);
      LogSession(s1, Opened(now));
    }
  }

  lemma TxTracks(s: State, room: nat, now: Uptime)
    requires Consistent(s) && Tracked(s)
    ensures Tracked(ServiceTx(s, room, now))
    ensures CandidateQuiet(s) ==> CandidateQuiet(ServiceTx(s, room, now))
  {
    hide Activate, SessionOf, Tracked, CandidateQuiet;
    var s1 := s.(clock := now);
    assert SameEscape(s, s1);
    SameTracks(s, s1);
    OpenTracks(s1, now);
    var s2 := Activate(s1, now);
    var d := Min(room, Min(UART_TX_CHUNK, |s2.b2h|));
    var c := Min(room, Min(UART_TX_CHUNK, |s2.ctrl|));
    if s2.app == DataMode && |s2.ctrl| == 0 {
      var s3 := Log(s2.(b2h := s2.b2h[d..]), WireData(s2.b2h[..d]));
      LogSession(s2.(b2h := s2.b2h[d..]), WireData(s2.b2h[..d]));
      SameTracks(s2, s3);
      OpenTracks(s3, now);
    } else {
      var s3 := Log(s2.(ctrl := s2.ctrl[c..]), WireControl(s2.ctrl[..c]));
      LogSession(s2.(ctrl := s2.ctrl[c..]), WireControl(s2.ctrl[..c]));
      SameTracks(s2, s3);
      OpenTracks(s3, now);
    }
  }

  lemma SendTracks(s: State, result: Errno)
    ensures SameEscape(s, PumpResult(s, result))
  {
    hide RefreshFlow, SessionOf;
    if s.pump.Holding? && result == Success {
      var chunk := s.pump.chunk;
      LogSession(s.(h2b := if |chunk| <= |s.h2b| then s.h2b[|chunk|..] else s.h2b,
                    stats := s.stats.(hostToBle := Add32(s.stats.hostToBle, |chunk|),
                                      writeOps := Add32(s.stats.writeOps, 1)),
                    flags := s.flags.(flushDue := false), pump := AtTop), Sent(chunk));
    }
  }

  lemma NotifyTracks(s: State, data: string)
    ensures SameEscape(s, NotifyArrived(s, data))
  {
    hide QueueLine, SessionOf;
    var s1 := s.(stats := s.stats.(notifyOps := Add32(s.stats.notifyOps, 1),
                                   bleToHost := Add32(s.stats.bleToHost, |data|)));
    if s.app == DataMode {
      var kept := Fitting(data, B2H_SIZE - |s.b2h|);
      LogSession(s1.(b2h := s1.b2h + kept), Heard(kept));
    } else {
      TalkSession(s1.trace, QueueLine(s1, RecvLine(data)).trace);
    }
  }

  lemma TalkTracks(s: State, ev: Event)
    requires Consistent(s) && Enabled(s, ev) && Talks(ev) && Tracked(s)
    ensures Tracked(Step(s, ev))
    ensures CandidateQuiet(s) ==> CandidateQuiet(Step(s, ev))
  {
    TalkingStep(s, ev);
    TalkSession(s.trace, Step(s, ev).trace);
    if s.app == DataMode {
      SameTracks(s, Step(s, ev));
    }
    hide Step, SessionOf, TalkOnly;
  }

  lemma DropTracks(s: State, byUser: bool)
    ensures Tracked(OnDisconnected(s, byUser)) && CandidateQuiet(OnDisconnected(s, byUser))
  {
    hide QueueLine, RefreshFlow, LoseLink, SessionOf;
  }

  /** Every step keeps the arrivals accounted for. */
  lemma StepTracks(s: State, ev: Event)
    requires Consistent(s) && Enabled(s, ev) && Tracked(s)
    ensures Tracked(Step(s, ev))
    ensures CandidateQuiet(s) && NoTick(s, ev) ==> CandidateQuiet(Step(s, ev))
  {
    hide IsrRx, ServiceTx, GuardFired, PumpResult, NotifyArrived, OnDisconnected, Tracked, CandidateQuiet, SameEscape,
         Consistent;
    match ev {
      case UartRx(arrivals) => RxTracks(s, arrivals);
      case UartTx(room, now) => TxTracks(s, room, now);
      case GuardFires(now) => GuardTracks(s, now);
      case PumpSends(result) => SendTracks(s, result); SameTracks(s, Step(s, ev));
      case Notify(data) => NotifyTracks(s, data); SameTracks(s, Step(s, ev));
      case LinkDown(byUser) => DropTracks(s, byUser);
      case _ => TalkTracks(s, ev);
    }
  }

  lemma {:induction false} RunTracks(s: State, events: seq<Event>)
    requires Consistent(s) && Legal(s, events) && Tracked(s)
    ensures Tracked(Run(s, events))
    ensures CandidateQuiet(s) && NoTicks(s, events) ==> CandidateQuiet(Run(s, events))
    decreases |events|
  {
    hide Step, Tracked, CandidateQuiet, Consistent, Enabled, NoTick;
    if events != [] {
      StepKeeps(s, events[0]);
      StepTracks(s, events[0]);
      RunTracks(Step(s, events[0]), events[1..]);
    }
  }

  // ---------- when data mode ends ----------

  /** Nothing but the guard timer and the loss of the link ends data mode. */
  lemma DataModeLasts(s: State, ev: Event)
    requires Consistent(s) && Enabled(s, ev)
    requires s.app == DataMode && !ev.LinkDown? && !ev.GuardFires?
    ensures Step(s, ev).app == DataMode
  {
    hide RxBytes, ScheduleTx, RefreshFlow, Activate, QueueData;
    match ev {
      case UartRx(arrivals) => RxBytesFrame(s, arrivals);
      case UartTx(_, _) =>
      case PumpSends(_) =>
      case Notify(_) =>
      case _ => TalkingStep(s, ev);
    }
  }

  /** Data mode ends only because the link drops or because the guard timer finds a candidate of three
      plus signs with silence after it.  In the second case the last three bytes received are those plus
      signs, everything else the session received is stored (unless refused), and the device is back in
      control mode. */
  lemma WhyDataModeEnds(s: State, ev: Event)
    requires Consistent(s) && Enabled(s, ev) && Tracked(s)
    requires s.app == DataMode && Step(s, ev).app != DataMode
    ensures ev.LinkDown? || ev.GuardFires?
    ensures ev.GuardFires? ==>
              var v := SessionOf(Step(s, ev).trace);
              var n := |v.keys|;
              && n >= 3 && v.keys[n - 3].b == v.keys[n - 2].b == v.keys[n - 1].b == '+'
              && ev.now - v.keys[n - 1].at >= s.config.guardMs
              && (CandidateQuiet(s) ==> QuietBefore(v, n - 3, s.config.guardMs))
              && (v.refused == 0 ==> Bytes(v.keys) == v.stored + "+++")
              && Step(s, ev).app == ControlReady
  {
    hide SessionOf, FlushCandidate, IsrRx, ServiceTx, PumpResult, NotifyArrived;
    if !ev.LinkDown? && !ev.GuardFires? {
      DataModeLasts(s, ev);
    } else if ev.GuardFires? {
      ExitSession(s.(work := s.work.(guard := false), clock := ev.now));
      assert Pluses(3) == "+++";
      var keys := SessionOf(s.trace).keys;
      assert keys[..|keys| - 0] == keys;
    }
  }

  lemma ExitSession(s: State)
    ensures SessionOf(ExitDataMode(s).trace) == SessionOf(s.trace)
  {
    hide QueueLine, SessionOf;
    var s1 := ClearSession(s);
    var s2 := s1.(app := if s1.conn != Null then ControlReady else Idle);
    LogSession(s2, Left(true));
    TalkSession(Log(s2, Left(true)).trace, QueueLine(Log(s2, Left(true)), EXITED).trace);
  }

  // ---------- a well-timed escape succeeds ----------

  /** The steps that neither deliver a byte from the host, nor fire the guard timer, nor drop the link. */
  predicate Calm(ev: Event) {
    !ev.UartRx? && !ev.GuardFires? && !ev.LinkDown?
  }

  // Room for the receive interrupt to read.
  predicate Room(s: State) {
    H2B_SIZE - |s.h2b| >= RX_CHUNK
  }

  ghost predicate SameCandidate(s: State, r: State) {
    r.app == s.app && r.escape == s.escape && r.lastRx == s.lastRx && r.config == s.config && Room(r)
  }

  lemma CalmKeeps(s: State, ev: Event)
    requires Consistent(s) && Enabled(s, ev) && s.app == DataMode && Room(s) && Calm(ev)
    ensures SameCandidate(s, Step(s, ev))
    ensures |Step(s, ev).h2b| <= |s.h2b|
  {
    hide ScheduleTx, RefreshFlow, Activate, QueueData, TalkOnly, PumpClaim, StopScan, StartScan, Connect, Disconnect,
         EnterDataMode, OnProfileReady, OnProfileError, OnConnected, OnConnectFailed, QueueLine;
    DataModeLasts(s, ev);
    match ev {
      case UartTx(_, _) =>
      case PumpSends(_) =>
      case Notify(_) =>
      case _ => TalkingStep(s, ev);
    }
  }

  predicate AllPluses(arrivals: seq<Arrival>) {
    forall i | 0 <= i < |arrivals| :: arrivals[i].b == '+'
  }

  /** Plus signs that extend a candidate, or start one after silence, are withheld. */
  lemma {:induction false} PlusesExtend(s: State, arrivals: seq<Arrival>)
    requires CandidateOk(s) && InOrder(s.clock, arrivals) && AllPluses(arrivals)
    requires s.escape.count + |arrivals| <= 3
    requires !s.escape.active && |arrivals| > 0 ==> arrivals[0].now - s.lastRx >= s.config.guardMs
    ensures RxBytes(s, arrivals).h2b == s.h2b
    ensures RxBytes(s, arrivals).escape.count == s.escape.count + |arrivals|
    ensures RxBytes(s, arrivals).lastRx == if arrivals == [] then s.lastRx else arrivals[|arrivals| - 1].now
    decreases |arrivals|
  {
    if arrivals != [] {
      var front := arrivals[..|arrivals| - 1];
      InOrderPrefix(s.clock, arrivals);
      RxBytesFrame(s, front);
      PlusesExtend(s, front);
      RxByteFrame(RxBytes(s, front), arrivals[|arrivals| - 1]);
      hide RxBytes, FlushCandidate, RxPlain;
    }
  }

  /** The bytes a run delivers from the host. */
  function HostBytes(events: seq<Event>): seq<Arrival> {
    if events == [] then []
    else (if events[0].UartRx? then events[0].arrivals else []) + HostBytes(events[1..])
  }

  lemma ChunkExtends(s: State, arrivals: seq<Arrival>)
    requires Consistent(s) && Enabled(s, UartRx(arrivals)) && s.app == DataMode && Room(s) && AllPluses(arrivals)
    requires s.escape.count + |arrivals| <= 3
    requires !s.escape.active && |arrivals| > 0 ==> arrivals[0].now - s.lastRx >= s.config.guardMs
    ensures var r := IsrRx(s, arrivals);
            && r.app == DataMode && r.config == s.config && r.h2b == s.h2b
            && r.escape.count == s.escape.count + |arrivals|
            && r.lastRx == if arrivals == [] then s.lastRx else arrivals[|arrivals| - 1].now
  {
    RxBytesFrame(s, arrivals);
    PlusesExtend(s, arrivals);
    hide RxBytes, ScheduleTx, RefreshFlow;
  }

  // What may come next while a candidate is being typed.
  predicate Typing(s: State, keys: seq<Arrival>) {
    && s.app == DataMode && Room(s) && AllPluses(keys) && s.escape.count + |keys| <= 3
    && (!s.escape.active && |keys| > 0 ==> keys[0].now - s.lastRx >= s.config.guardMs)
  }

  lemma ConsistentInData(s: State)
    requires Consistent(s) && s.app == DataMode
    ensures s.conn == Set && (s.escape.active <==> s.escape.count > 0)
  {
  }

  lemma PileRx(s: State, arrivals: seq<Arrival>, later: seq<Arrival>)
    requires Consistent(s) && Enabled(s, UartRx(arrivals)) && Typing(s, arrivals + later)
    ensures var r := IsrRx(s, arrivals);
            && r.config == s.config && Typing(r, later)
            && r.escape.count == s.escape.count + |arrivals|
            && r.lastRx == if arrivals == [] then s.lastRx else arrivals[|arrivals| - 1].now
  {
    var all := arrivals + later;
    assert forall i | 0 <= i < |arrivals| :: arrivals[i] == all[i];
    assert forall i | 0 <= i < |later| :: later[i] == all[|arrivals| + i];
    ChunkExtends(s, arrivals);
    RxKeeps(s, arrivals);
    ConsistentInData(s);
    ConsistentInData(IsrRx(s, arrivals));
    hide Consistent, IsrRx, Enabled;
  }

  lemma PileCalm(s: State, ev: Event, later: seq<Arrival>)
    requires Consistent(s) && Enabled(s, ev) && Calm(ev) && Typing(s, later)
    ensures var r := Step(s, ev);
            r.config == s.config && Typing(r, later) && r.escape.count == s.escape.count && r.lastRx == s.lastRx
  {
    CalmKeeps(s, ev);
    hide Step, Enabled, Consistent;
  }

  lemma PileStep(s: State, ev: Event, later: seq<Arrival>)
    requires Consistent(s) && Enabled(s, ev) && (Calm(ev) || ev.UartRx?)
    requires Typing(s, HostBytes([ev]) + later)
    ensures var r := Step(s, ev); var keys := HostBytes([ev]);
            && Consistent(r) && r.config == s.config && Typing(r, later)
            && r.escape.count == s.escape.count + |keys|
            && r.lastRx == if keys == [] then s.lastRx else keys[|keys| - 1].now
  {
    StepKeeps(s, ev);
    assert [ev][1..] == [];
    if ev.UartRx? {
      assert HostBytes([ev]) == ev.arrivals;
      PileRx(s, ev.arrivals, later);
      assert Step(s, ev) == IsrRx(s, ev.arrivals) by { UartRxStep(s, ev.arrivals); }
    } else {
      assert HostBytes([ev]) == [] && [] + later == later;
      PileCalm(s, ev, later);
    }
    hide Step, Enabled, Consistent, Typing, IsrRx;
  }

  lemma UartRxStep(s: State, arrivals: seq<Arrival>)
    ensures Step(s, UartRx(arrivals)) == IsrRx(s, arrivals)
  {
    hide IsrRx;
  }

  /** Until the guard timer fires, plus signs after silence pile up into a candidate, however they are
      chunked and whatever calm steps come between them. */
  lemma {:induction false} PlusesPileUp(s: State, events: seq<Event>)
    requires Consistent(s) && Legal(s, events)
    requires forall i | 0 <= i < |events| :: Calm(events[i]) || events[i].UartRx?
    requires Typing(s, HostBytes(events))
    ensures var r := Run(s, events); var keys := HostBytes(events);
            && Consistent(r) && r.app == DataMode && r.config == s.config
            && r.escape.count == s.escape.count + |keys|
            && r.lastRx == if keys == [] then s.lastRx else keys[|keys| - 1].now
    decreases |events|
  {
    hide Step, Consistent, Enabled, Typing;
    if events != [] {
      var ev := events[0];
      var rest := events[1..];
      assert [ev][1..] == [];
      assert HostBytes(events) == HostBytes([ev]) + HostBytes(rest);
      StaysInData(s, HostBytes(events));
      PileStep(s, ev, HostBytes(rest));
      PlusesPileUp(Step(s, ev), rest);
    } else {
      StaysInData(s, []);
    }
  }

  lemma StaysInData(s: State, keys: seq<Arrival>)
    requires Typing(s, keys)
    ensures s.app == DataMode
  {
  }

  lemma {:induction false} LegalSplit(s: State, a: seq<Event>, b: seq<Event>)
    ensures Legal(s, a + b) <==> Legal(s, a) && Legal(Run(s, a), b)
    ensures Run(s, a + b) == Run(Run(s, a), b)
    decreases |a|
  {
    hide Step, Enabled;
    if a == [] {
      assert a + b == b;
    } else {
      assert (a + b)[1..] == a[1..] + b && (a + b)[0] == a[0];
      LegalSplit(Step(s, a[0]), a[1..], b);
    }
  }

  /** Three plus signs, the first after `guardMs` of quiet (since the last byte, flush or activation), with
      nothing else from the host and no firing of the guard timer between them, and silence of `guardMs`
      until it fires: data mode ends. */
  lemma EscapeSucceeds(s: State, events: seq<Event>, now: Uptime)
    requires Consistent(s) && s.app == DataMode && !s.escape.active && Room(s)
    requires Legal(s, events + [GuardFires(now)])
    requires forall i | 0 <= i < |events| :: Calm(events[i]) || events[i].UartRx?
    requires AllPluses(HostBytes(events)) && |HostBytes(events)| == 3
    requires HostBytes(events)[0].now - s.lastRx >= s.config.guardMs
    requires now - HostBytes(events)[2].now >= s.config.guardMs
    ensures var r := Run(s, events + [GuardFires(now)]);
            r.app == ControlReady && !r.escape.active && r.b2h == ""
  {
    LegalSplit(s, events, [GuardFires(now)]);
    assert Typing(s, HostBytes(events));
    PlusesPileUp(s, events);
    var r := Run(s, events);
    hide HostBytes, Consistent, GuardFired;
    assert Run(r, [GuardFires(now)]) == GuardFired(r, now);
    GuardEnds(r, now);
  }

  lemma GuardEnds(s: State, now: Uptime)
    requires Consistent(s) && s.app == DataMode && s.escape.count == 3 && s.clock <= now
    requires now - s.lastRx >= s.config.guardMs
    ensures var r := GuardFired(s, now); r.app == ControlReady && !r.escape.active && r.b2h == ""
  {
    hide QueueLine;
  }

  /** A fourth plus sign: the three before it always become payload; it joins them exactly when the clock
      did not tick while they were flushed and the guard time is positive, and starts a candidate of its
      own otherwise, because the difference of the two clock readings is taken as an unsigned number. */
  lemma FourthPlus(s: State, a: Arrival)
    requires CandidateOk(s) && s.escape.count == 3 && a.b == '+' && s.clock <= a.now <= a.later
    requires H2B_SIZE - |s.h2b| >= 4
    ensures var r := RxByte(s, a);
            && (r.escape == Escape(false, 0) && r.h2b == s.h2b + "++++" <==> a.later == a.now && s.config.guardMs > 0)
            && (r.escape == Escape(true, 1) && r.h2b == s.h2b + "+++" <==> !(a.later == a.now && s.config.guardMs > 0))
  {
    hide ScheduleTx;
    assert Pluses(3) == "+++";
    assert s.h2b + "+++" + ['+'] == s.h2b + "++++";
  }
}
