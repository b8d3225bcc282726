/** The firmware and the host at the two ends of one UART. */
module HostLink {
  import opened Common
  import opened BridgeModel
  import opened BridgeInvariant
  import opened BridgeWire
  import opened BridgeSpeech
  import opened BridgeHandover
  import opened ControlParser
  import opened ExitMatcher

  /** What the host side of ble_at.py holds: the stream data passed on, the bytes held back while the exit is
      awaited, and the control parser. */
  datatype Reader = Streaming(data: string, control: Control)
                  | ExitPending(data: string, held: string, control: Control)
                  | Controlling(data: string, control: Control)

  /** One read of _reader_loop (the contract of Host.BleAtHost.Receive on values). */
  function Read(r: Reader, chunk: string): Reader {
    match r
    case Streaming(data, c) => Streaming(data + chunk, c)
    case ExitPending(data, held, c) =>
      (match Whole(EXIT_EVENT, held + chunk)
       case Before(more, kept) => ExitPending(data + more, kept, c)
       case After(more, rest) =>
         Controlling(data + more, OnBytes(c.(events := c.events + [Strip(EXIT_EVENT)]), rest)))
    case Controlling(data, c) => Controlling(data, OnBytes(c, chunk))
  }

  function ReadAll(r: Reader, chunks: seq<string>): Reader
    decreases |chunks|
  {
    if chunks == [] then r else ReadAll(Read(r, chunks[0]), chunks[1..])
  }

  // exit_data_mode sets the flag before it sends the escape.
  function AwaitExit(r: Reader): Reader {
    if r.Streaming? then ExitPending(r.data, "", r.control) else r
  }

  // The reader whose matcher has reached `m`.
  function Reached(data: string, control: Control, m: Match): Reader {
    match m
    case Before(more, held) => ExitPending(data + more, held, control)
    case After(more, rest) =>
      Controlling(data + more, OnBytes(control.(events := control.events + [Strip(EXIT_EVENT)]), rest))
  }

  /** The reader that has seen `stream` since the exit was awaited. */
  function Expected(data: string, control: Control, stream: string): Reader {
    Reached(data, control, Whole(EXIT_EVENT, stream))
  }

  lemma ReadReached(data: string, control: Control, m: Match, chunk: string)
    ensures Read(Reached(data, control, m), chunk) == Reached(data, control, Feed(EXIT_EVENT, m, chunk))
  {
    hide Whole, OnBytes, Strip;
    match m {
      case After(more, rest) =>
        OnBytesSplit(control.(events := control.events + [Strip(EXIT_EVENT)]), rest, chunk);
      case Before(more, held) =>
        var w := Whole(EXIT_EVENT, held + chunk);
        assert data + more + w.data == data + (more + w.data);
    }
  }

  lemma ReadExpected(data: string, control: Control, stream: string, chunk: string)
    ensures Read(Expected(data, control, stream), chunk) == Expected(data, control, stream + chunk)
  {
    ReadReached(data, control, Whole(EXIT_EVENT, stream), chunk);
    hide Whole, OnBytes, Strip, Read, Reached;
    if Find(EXIT_EVENT, stream) == -1 {
      FeedBefore(EXIT_EVENT, stream, chunk);
    } else {
      FeedAfter(EXIT_EVENT, stream, chunk);
    }
  }

  lemma {:induction false} ReadsExpected(data: string, control: Control, stream: string, chunks: seq<string>)
    ensures ReadAll(Expected(data, control, stream), chunks) == Expected(data, control, stream + Join(chunks))
    decreases |chunks|
  {
    hide Expected, Read;
    if chunks == [] {
      assert stream + Join(chunks) == stream;
    } else {
      ReadExpected(data, control, stream, chunks[0]);
      ReadsExpected(data, control, stream + chunks[0], chunks[1..]);
      assert stream + Join(chunks) == stream + chunks[0] + Join(chunks[1..]);
    }
  }

  lemma {:induction false} StreamsAll(data: string, control: Control, chunks: seq<string>)
    ensures ReadAll(Streaming(data, control), chunks) == Streaming(data + Join(chunks), control)
    decreases |chunks|
  {
    if chunks == [] {
      assert data + Join(chunks) == data;
    } else {
      StreamsAll(data + chunks[0], control, chunks[1..]);
      assert data + Join(chunks) == data + chunks[0] + Join(chunks[1..]);
    }
  }

  lemma FindSuffix(e: string, s: string, n: nat)
    requires Find(e, s) == -1 && n <= |s|
    ensures Find(e, s[n..]) == -1
  {
    var a := Find(e, s[n..]);
    assert s == s[..n] + s[n..];
    if a >= 0 {
      OccursInSuffix(e, s[..n], s[n..], n + a);
    }
  }

  lemma SplitReads(data: string, rest: string, before: seq<string>, after: seq<string>, control: Control)
    requires Find(EXIT_EVENT, data) == -1
    requires Join(before) + Join(after) == data + EXIT_EVENT + rest && |Join(before)| <= |data|
    ensures ReadAll(AwaitExit(ReadAll(Streaming("", control), before)), after) ==
            Controlling(data, OnBytes(control.(events := control.events + [Strip(EXIT_EVENT)]), rest))
  {
    hide OnBytes, Strip, Whole, Find, Join, ReadAll;
    var p := Join(before);
    var q := data[|p|..];
    StreamsAll("", control, before);
    Aligned(data, EXIT_EVENT, rest, p, Join(after));
    NothingYet(EXIT_EVENT);
    ReadsExpected(p, control, "", after);
    FindSuffix(EXIT_EVENT, data, |p|);
    ExitEventStartsOnce();
    SplitsAtEvent(EXIT_EVENT, q, rest);
    assert "" + p == p && p + "" == p && "" + Join(after) == Join(after) && p + q == data;
    assert Expected(p, control, "") == ExitPending(p, "", control);
  }

  /** A session of data mode that ended by the escape, whatever lines the device queued meanwhile, as long as
      none was broken off or holds an exit event.  The host read the wire in any pieces, awaiting the exit
      from somewhere before the end of the session on.  If the data does not itself contain the event, then
      once the whole event is on the wire the host has passed on exactly what the UART carried before it, and
      its control parser has got exactly the event and what follows it.  What it passed on is the data if and
      only if no control byte was queued during the session. */
  lemma DataSplitsExactly(s: State, before: seq<string>, after: seq<string>, control: Control)
    requires Segregated(s)
    requires var v := WireOf(s.trace);
             && v.phase == Closed && v.mix.escaped && Neat(v) && Find(EXIT_EVENT, v.mix.data) == -1
             && v.mix.base + EXIT_EVENT <= v.wire && |Join(before)| <= |v.mix.base|
             && v.wire == Join(before) + Join(after)
    ensures var v := WireOf(s.trace);
            var rest := v.wire[|v.mix.base| + |EXIT_EVENT|..];
            var r := ReadAll(AwaitExit(ReadAll(Streaming("", control), before)), after);
            && r == Controlling(v.mix.base, OnBytes(control.(events := control.events + [Strip(EXIT_EVENT)]), rest))
            && (r.data == v.mix.data <==> v.mix.inserted == "")
  {
    var v := WireOf(s.trace);
    Handover(s);
    SessionHeld(s.trace);
    hide WireOf, OnBytes, Strip, Find, Join, ReadAll, Segregated;
    assert v.wire == v.mix.base + EXIT_EVENT + v.wire[|v.mix.base| + |EXIT_EVENT|..];
    SplitReads(v.mix.base, v.wire[|v.mix.base| + |EXIT_EVENT|..], before, after, control);
  }

  /** A line that holds an event must be left out: here the host passes on exactly the data, one byte, although
      control bytes were queued before it. */
  lemma EventInLine()
    ensures var line := "a" + EXIT_EVENT;
            !Sealed(line) && Whole(EXIT_EVENT, line + "a" + EXIT_EVENT) == After("a", "a" + EXIT_EVENT)
  {
    ExitEventStartsOnce();
    var line := "a" + EXIT_EVENT;
    assert line + "a" + EXIT_EVENT == "a" + EXIT_EVENT + ("a" + EXIT_EVENT);
    SplitsAtEvent(EXIT_EVENT, "a", "a" + EXIT_EVENT);
  }

  /** The same of every run from power-on in which the lines said during data mode are whole. */
  lemma RunSplits(guardMs: u16, allow: bool, payload: nat, now: Uptime, events: seq<Event>, before: seq<string>,
                  after: seq<string>, control: Control)
    requires var p := PowerOn(guardMs, allow, payload, now);
             payload >= 1 && Legal(p, events) && AllOrderly(p, events)
    requires var v := WireOf(Run(PowerOn(guardMs, allow, payload, now), events).trace);
             && v.phase == Closed && v.mix.escaped && Find(EXIT_EVENT, v.mix.data) == -1
             && v.mix.base + EXIT_EVENT <= v.wire && |Join(before)| <= |v.mix.base|
             && v.wire == Join(before) + Join(after)
    ensures var v := WireOf(Run(PowerOn(guardMs, allow, payload, now), events).trace);
            var r := ReadAll(AwaitExit(ReadAll(Streaming("", control), before)), after);
            && r.Controlling? && r.data == v.mix.base && (r.data == v.mix.data <==> v.mix.inserted == "")
  {
    var p := PowerOn(guardMs, allow, payload, now);
    PowerOnIsConsistent(guardMs, allow, payload, now);
    FreshWire(p);
    hide Segregated, WireOf, Run, Legal, AllOrderly, Consistent, ReadAll, Join, Find, Neat, OnBytes, Strip;
    RunWire(p, events);
    RunNeat(p, events);
    DataSplitsExactly(Run(p, events), before, after, control);
  }

  lemma FreshWire(s: State)
    requires s.trace == [] && s.app == Idle && s.ctrl == s.b2h == ""
    ensures Segregated(s) && Neat(WireOf(s.trace)) && ControlQueued(s) == ""
  {
  }

  lemma Aligned(data: string, event: string, rest: string, p: string, q: string)
    requires data + event + rest == p + q && |p| <= |data|
    ensures p == data[..|p|] && q == data[|p|..] + event + rest
  {
    assert (p + q)[..|p|] == p && (p + q)[|p|..] == q;
    assert (data + event + rest)[..|p|] == data[..|p|];
    assert (data + event + rest)[|p|..] == data[|p|..] + event + rest;
  }

  // ---------- control lines ----------

  /** Control bytes that serialise prompts and plain lines, all sent, come out of the host's parser as exactly
      those events, however the UART cuts the bytes and whatever waited in the ring in between. */
  lemma LinesArrive(s: State, items: seq<Item>, chunks: seq<string>)
    requires Segregated(s) && s.ctrl == "" && ControlQueued(s) == Serialise(items)
    requires forall i | 0 <= i < |items| :: items[i].Text? ==> Plain(items[i].text)
    requires Join(chunks) == ControlSent(s)
    ensures ReadAll(Controlling("", Control("", [])), chunks) == Controlling("", Control("", Events(items)))
  {
    hide Segregated, ControlQueued, ControlSent, Serialise, OnBytes, Plain;
    Totals(s);
    assert ControlSent(s) + "" == ControlSent(s);
    RoundTrip(items);
    ControlsAll("", Control("", []), chunks);
  }

  /** Over every run from power-on whose control ring never overflows, with every control byte sent: the host
      reads exactly the prompts and lines that the steps of the run spoke, in order. */
  lemma RunLinesArrive(guardMs: u16, allow: bool, payload: nat, now: Uptime, events: seq<Event>, chunks: seq<string>)
    requires payload >= 1 && Legal(PowerOn(guardMs, allow, payload, now), events)
    requires Lossless(PowerOn(guardMs, allow, payload, now), events)
    requires Run(PowerOn(guardMs, allow, payload, now), events).ctrl == ""
    requires Join(chunks) == ControlSent(Run(PowerOn(guardMs, allow, payload, now), events))
    requires var items := SpokenAll(PowerOn(guardMs, allow, payload, now), events);
             forall i | 0 <= i < |items| :: items[i].Text? ==> Plain(items[i].text)
    ensures var items := SpokenAll(PowerOn(guardMs, allow, payload, now), events);
            ReadAll(Controlling("", Control("", [])), chunks) == Controlling("", Control("", Events(items)))
  {
    var p := PowerOn(guardMs, allow, payload, now);
    PowerOnIsConsistent(guardMs, allow, payload, now);
    FreshWire(p);
    hide Segregated, ControlQueued, ControlSent, Run, Legal, Lossless, SpokenAll, Serialise, Consistent, ReadAll,
         Events, Plain;
    RunQueues(p, events);
    assert "" + Serialise(SpokenAll(p, events)) == Serialise(SpokenAll(p, events));
    LinesArrive(Run(p, events), SpokenAll(p, events), chunks);
  }

  lemma {:induction false} ControlsAll(data: string, c: Control, chunks: seq<string>)
    ensures ReadAll(Controlling(data, c), chunks) == Controlling(data, OnBytes(c, Join(chunks)))
    decreases |chunks|
  {
    NoBytes(c);
    hide OnBytes;
    if chunks != [] {
      OnBytesSplit(c, chunks[0], Join(chunks[1..]));
      ControlsAll(data, OnBytes(c, chunks[0]), chunks[1..]);
    }
  }
}
