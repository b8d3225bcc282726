/** main.c: control bytes queued while data mode lasts, and what they do to the end of a session. */
module BridgeHandover {
  import opened Common
  import opened BridgeModel
  import opened BridgeInvariant
  import opened BridgeWire
  import opened BridgeSpeech
  import opened ControlParser
  import opened ExitMatcher

  const E: string := EXIT_EVENT

  // ---------- lines do get into the data ----------

  const MTU_LINE: string := "+IND=MTU,244"

  lemma LineQueued(s: State)
    requires Segregated(s) && s.app == DataMode && s.ctrl == ""
    ensures var r := QueueLine(s, MTU_LINE);
            && r.ctrl == MTU_LINE + NEWLINE
            && r == s.(ctrl := r.ctrl, trace := r.trace)
            && WireOf(r.trace) == WatchWire(WatchWire(WireOf(s.trace), Said(MTU_LINE)), Said(NEWLINE))
  {
    hide WireOf, WatchWire;
    assert "" + MTU_LINE == MTU_LINE && Fitting(MTU_LINE, CTRL_SIZE) == MTU_LINE;
    assert Fitting(NEWLINE, CTRL_SIZE - |MTU_LINE|) == NEWLINE;
    var s1 := s.(ctrl := MTU_LINE);
    var s2 := Log(s1, Said(MTU_LINE));
    var s3 := s2.(ctrl := MTU_LINE + NEWLINE);
    assert QueueCtrl(s, MTU_LINE) == s2;
    assert QueueCtrl(s2, NEWLINE) == Log(s3, Said(NEWLINE));
    LogWire(s1, Said(MTU_LINE));
    LogWire(s3, Said(NEWLINE));
  }

  lemma LineSent(s: State, room: nat)
    requires Consistent(s) && s.app == DataMode && s.ctrl == MTU_LINE + NEWLINE && room >= 64
    ensures var r := Step(s, UartTx(room, s.clock));
            WireOf(r.trace) == WatchWire(WireOf(s.trace), WireControl(MTU_LINE + NEWLINE))
  {
    hide WireOf, WatchWire;
    assert s.ctrl[..14] == s.ctrl && s.ctrl[14..] == "";
    LogWire(s.(clock := s.clock, ctrl := ""), WireControl(s.ctrl));
  }

  lemma LineWatched(v: Wire)
    requires v.phase == Open && v.ctrlQ == ""
    ensures var line := MTU_LINE + NEWLINE;
            var r := WatchWire(WatchWire(WatchWire(v, Said(MTU_LINE)), Said(NEWLINE)), WireControl(line));
            r.wire == v.wire + line && r.mix == v.mix.(block := v.mix.block + line, inserted := v.mix.inserted + line)
  {
    assert "" + MTU_LINE + NEWLINE == MTU_LINE + NEWLINE;
    Assoc(v.mix.block, MTU_LINE, NEWLINE);
    Assoc(v.mix.inserted, MTU_LINE, NEWLINE);
  }

  lemma RunTwo(s: State, a: Event, b: Event)
    requires Enabled(s, a) && Enabled(Step(s, a), b)
    ensures Legal(s, [a, b]) && Run(s, [a, b]) == Step(Step(s, a), b)
  {
    hide Step, Enabled;
    assert [a, b][0] == a && [a, b][1..] == [b] && [b][0] == b && [b][1..] == [];
    assert Legal(Step(s, a), [b]) && Run(Step(s, a), [b]) == Step(Step(s, a), b);
  }

  lemma OpenNow(s: State)
    requires Segregated(s) && s.app == DataMode
    ensures WireOf(s.trace).phase == Open && WireOf(s.trace).ctrlQ == s.ctrl
  {
  }

  /** An MTU line that comes while data mode lasts is the next thing on the wire, in the middle of the data. */
  lemma LineCutsIn(s: State, room: nat)
    requires Consistent(s) && Segregated(s) && s.app == DataMode && s.ctrl == "" && room >= 64
    ensures var events := [Line(MTU_LINE), UartTx(room, s.clock)];
            && Legal(s, events)
            && var v, r := WireOf(s.trace), WireOf(Run(s, events).trace);
               r.wire == v.wire + (MTU_LINE + NEWLINE) && r.mix.data == v.mix.data &&
               r.mix.inserted == v.mix.inserted + (MTU_LINE + NEWLINE)
  {
    hide *;
    LineQueued(s);
    LineStep(s, room);
    StepKeeps(s, Line(MTU_LINE));
    LineSent(QueueLine(s, MTU_LINE), room);
    OpenNow(s);
    LineWatched(WireOf(s.trace));
    RunTwo(s, Line(MTU_LINE), UartTx(room, s.clock));
  }

  lemma LineStep(s: State, room: nat)
    ensures Step(s, Line(MTU_LINE)) == QueueLine(s, MTU_LINE) && Enabled(s, Line(MTU_LINE))
    ensures Enabled(QueueLine(s, MTU_LINE), UartTx(room, s.clock))
  {
  }

  // ---------- a session of whole lines ----------

  lemma NoStraddle(a: string, b: string)
    requires Find(E, a) == -1 && Find(E, b) == -1 && (b == "" || b[0] == '+')
    ensures Find(E, a + b) == -1
  {
    ExitEventStartsOnce();
    var r := Find(E, a + b);
    if r >= 0 {
      OccursChars(a + b, r);
      assert b != "" ==> (a + b)[|a|] == b[0] == E[0];
      if r >= |a| {
        OccursInSuffix(E, a, b, r);
      } else if r + |E| <= |a| {
        OccursInPrefix(E, a, b, r);
      }
    }
  }

  lemma OccursChars(s: string, r: int)
    requires OccursAt(E, s, r)
    ensures forall i | r <= i < r + |E| :: s[i] == E[i - r]
  {
    forall i | r <= i < r + |E|
      ensures s[i] == E[i - r]
    {
      assert s[r..r + |E|][i - r] == s[i];
    }
  }

  // What ends in the event's beginning does not end in its end.
  lemma EndOpen(s: string, k: int)
    requires EndsInPrefix(E, s, k) && s != "" && s[|s| - 1] == '\n'
    ensures k == 0
  {
    EndChar(s, k);
    assert forall i | 0 <= i < 16 :: E[i] != '\n';
  }

  lemma EndChar(s: string, k: int)
    requires EndsInPrefix(E, s, k)
    ensures k > 0 ==> s[|s| - 1] == E[k - 1]
  {
    if k > 0 {
      assert s[|s| - k..][k - 1] == s[|s| - 1];
    }
  }

  lemma SealedConcat(a: string, b: string)
    requires Sealed(a) && Sealed(b)
    ensures Sealed(a + b)
  {
    if a == "" {
      assert a + b == b;
    } else if b == "" {
      assert a + b == a;
    } else {
      NoStraddle(a, b);
    }
  }

  // Bytes of the event only at the end of `base` if they are bytes of the data.
  ghost predicate Together(base: string, data: string) {
    forall k | EndsInPrefix(E, base, k) :: k <= |data| && base[|base| - k..] == data[|data| - k..]
  }

  ghost predicate Unbroken(base: string, data: string) {
    Find(E, base) == -1 && Together(base, data)
  }

  lemma BlockUnbroken(base: string, block: string, data: string)
    requires Unbroken(base, data) && Sealed(block)
    ensures Unbroken(base + block, data)
  {
    if block == "" {
      assert base + block == base;
    } else {
      NoStraddle(base, block);
      var s := base + block;
      forall k | EndsInPrefix(E, s, k)
        ensures k <= |data| && s[|s| - k..] == data[|data| - k..]
      {
        assert block[|block| - 2..][1] == '\n';
        EndOpen(s, k);
      }
    }
  }

  // An event across the border would be one in the data.
  lemma NoneAcross(base: string, data: string, bytes: string, r: int)
    requires Together(base, data) && OccursAt(E, base + bytes, r) && r < |base| < r + |E|
    ensures |base| - r <= |data| && OccursAt(E, data + bytes, |data| - (|base| - r))
  {
    var s, d := base + bytes, data + bytes;
    var k := |base| - r;
    Straddles(E, base, bytes, r);
    assert EndsInPrefix(E, base, k);
    assert s[r..] == base[r..] + bytes && d[|data| - k..] == data[|data| - k..] + bytes;
    assert s[r..r + |E|] == s[r..][..|E|] && d[|data| - k..|data| - k + |E|] == d[|data| - k..][..|E|];
  }

  lemma DataTogether(base: string, data: string, bytes: string)
    requires Together(base, data)
    ensures Together(base + bytes, data + bytes)
  {
    forall k | EndsInPrefix(E, base + bytes, k)
      ensures var s, d := base + bytes, data + bytes; k <= |d| && s[|s| - k..] == d[|d| - k..]
    {
      SameEndAfter(base, data, bytes, k);
    }
  }

  lemma SameEndAfter(base: string, data: string, bytes: string, k: int)
    requires Together(base, data) && EndsInPrefix(E, base + bytes, k)
    ensures var s, d := base + bytes, data + bytes; k <= |d| && s[|s| - k..] == d[|d| - k..]
  {
    if k > |bytes| {
      EndsBefore(E, base, bytes, k);
      hide EndsInPrefix;
      TailOf(base, bytes, k - |bytes|);
      TailOf(data, bytes, k - |bytes|);
    } else {
      hide Together;
      TailWithin(base, bytes, k);
      TailWithin(data, bytes, k);
    }
  }

  lemma TailOf(a: string, b: string, j: int)
    requires 0 <= j <= |a|
    ensures (a + b)[|a + b| - (j + |b|)..] == a[|a| - j..] + b
  {
  }

  lemma TailWithin(a: string, b: string, k: int)
    requires 0 <= k <= |b|
    ensures (a + b)[|a + b| - k..] == b[|b| - k..]
  {
  }

  lemma DataUnbroken(base: string, data: string, bytes: string)
    requires Unbroken(base, data) && Find(E, data + bytes) == -1
    ensures Unbroken(base + bytes, data + bytes)
  {
    DataTogether(base, data, bytes);
    var r := Find(E, base + bytes);
    if r >= |base| {
      OccursInSuffix(E, base, bytes, r);
      OccursInSuffix(E, data, bytes, |data| + r - |base|);
    } else if 0 <= r && r + |E| <= |base| {
      OccursInPrefix(E, base, bytes, r);
    } else if 0 <= r {
      NoneAcross(base, data, bytes, r);
    }
    hide Together;
  }

  /** While the blocks are sealed and the data holds no event, neither does their mixture. */
  ghost predicate Held(v: Wire) {
    v.mix.sealed && Find(E, v.mix.data) == -1 ==>
      Find(E, v.mix.base) == -1 && (v.phase == Open ==> Together(v.mix.base, v.mix.data))
  }

  lemma DataHeld(v: Wire, bytes: string)
    requires Held(v) && v.phase == Open
    ensures Held(v.(mix := MixData(v.mix, bytes)))
  {
    var m := v.mix;
    var r := Find(E, m.data);
    if r >= 0 {
      OccursInPrefix(E, m.data, bytes, r);
    } else if m.sealed && Sealed(m.block) && Find(E, m.data + bytes) == -1 {
      BlockUnbroken(m.base, m.block, m.data);
      DataUnbroken(m.base + m.block, m.data, bytes);
    }
    hide Sealed, Find, Together;
  }

  lemma LeftHeld(v: Wire, byEscape: bool)
    requires Held(v) && v.phase == Open
    ensures Held(v.(phase := Closed, mix := CloseBlock(v.mix).(escaped := byEscape)))
  {
    var m := v.mix;
    if m.sealed && Sealed(m.block) && Find(E, m.data) == -1 {
      BlockUnbroken(m.base, m.block, m.data);
    }
    hide Sealed, Find, Together;
  }

  lemma WatchHeld(v: Wire, o: Obs)
    requires Held(v) && WatchWire(v, o).sound
    ensures Held(WatchWire(v, o))
  {
    hide Sealed;
    match o {
      case WireData(bytes) => DataHeld(v, bytes);
      case Left(byEscape) => LeftHeld(v, byEscape);
      case _ =>
    }
  }

  lemma {:induction false} SessionHeld(trace: seq<Obs>)
    requires WireOf(trace).sound
    ensures Held(WireOf(trace))
    decreases |trace|
  {
    if trace != [] {
      SoundPrefix(trace, |trace| - 1);
      SessionHeld(trace[..|trace| - 1]);
      WatchHeld(WireOf(trace[..|trace| - 1]), trace[|trace| - 1]);
      hide WatchWire, Held;
    }
  }

  // ---------- runs whose lines are whole ----------

  /** What a step says while data mode lasts fits in the ring and is sealed. */
  predicate Orderly(s: State, ev: Event) {
    s.app == DataMode && Talks(ev) ==> Room(s, Spoken(s, ev)) && Sealed(Serialise(Spoken(s, ev)))
  }

  predicate AllOrderly(s: State, events: seq<Event>)
    decreases |events|
  {
    events == [] || (Orderly(s, events[0]) && AllOrderly(Step(s, events[0]), events[1..]))
  }

  lemma Cancel(a: string, b: string, c: string)
    requires a + b == a + c
    ensures b == c
  {
    assert (a + b)[|a|..] == b && (a + c)[|a|..] == c;
  }

  lemma TalkBlock(v: Wire, w: Wire, more: string)
    requires Fits(v) && Fits(w) && Talked(v, w) && v.phase == Open && w.ctrlQ == v.ctrlQ + more
    ensures w.mix.block == v.mix.block + more
  {
    var m := v.mix;
    assert m.base + m.block + "" == m.base + m.block && m.base + w.mix.block + "" == m.base + w.mix.block;
    Assoc(v.wire, v.ctrlQ, more);
    Assoc(m.base, m.block, more);
    Cancel(m.base, w.mix.block, m.block + more);
  }

  lemma StepNeat(s: State, ev: Event)
    requires Consistent(s) && Enabled(s, ev) && Segregated(s) && Neat(WireOf(s.trace)) && Orderly(s, ev)
    ensures Neat(WireOf(Step(s, ev).trace))
  {
    var v, w := WireOf(s.trace), WireOf(Step(s, ev).trace);
    StepWire(s, ev);
    if Talks(ev) {
      if s.app == DataMode {
        StepSays(s, ev);
        SoundFits(s.trace);
        SoundFits(Step(s, ev).trace);
        hide WireOf, Step, Fits, Sealed, Serialise, Spoken, Enabled, Consistent;
        TalkBlock(v, w, Serialise(Spoken(s, ev)));
        SealedConcat(v.mix.block, Serialise(Spoken(s, ev)));
      }
    }
    hide WireOf, Step, Sealed, Enabled, Consistent;
  }

  lemma {:induction false} RunNeat(s: State, events: seq<Event>)
    requires Consistent(s) && Legal(s, events) && Segregated(s) && Neat(WireOf(s.trace)) && AllOrderly(s, events)
    ensures Neat(WireOf(Run(s, events).trace))
    decreases |events|
  {
    hide Step, Segregated, Consistent, Enabled, Orderly, WireOf, Neat;
    if events != [] {
      StepKeeps(s, events[0]);
      StepTotals(s, events[0]);
      StepNeat(s, events[0]);
      RunNeat(Step(s, events[0]), events[1..]);
    }
  }
}
