/** What ble_at.py learns from the answers of at_host.c: an accepted operation, an error, or what was asked
    for. */
module AtAnswers {
  import opened Common
  import opened Protocol
  import opened AtCommands
  import opened AtParser
  import opened AtChunks
  import opened AtReads
  import opened AtClient
  import opened AtSend
  import opened HostLink
  import Uuid
  import ControlParser

  type Item = ControlParser.Item

  /** What the host gets of an output: lines and prompts, but not the calls. */
  function Sent(outs: seq<Out>): seq<Item>
    decreases |outs|
  {
    if outs == [] then []
    else
      (match outs[0]
       case Line(text) => [ControlParser.Text(text)]
       case Raw(_) => [ControlParser.Prompt]
       case Called(_) => []) + Sent(outs[1..])
  }

  datatype Waited = Waiting | Accepted(line: string) | Raised(line: string)

  /** _wait_ok: the first event that is a final response decides. */
  function WaitOk(events: seq<string>): Waited
    decreases |events|
  {
    if events == [] then Waiting
    else if "+OK" <= events[0] then Accepted(events[0])
    else if "+ERR" <= events[0] then Raised(events[0])
    else WaitOk(events[1..])
  }

  // The events of a host that has read `bytes` of control mode from a clean start, in any pieces.
  predicate Learns(chunks: seq<string>, events: seq<string>) {
    ReadAll(Controlling("", ControlParser.Control("", [])), chunks) ==
    Controlling("", ControlParser.Control("", events))
  }

  lemma OkPlain()
    ensures ControlParser.Plain("+OK") && WaitOk(["+OK"]) == Accepted("+OK")
  {
  }

  lemma ParametersPlain()
    ensures ControlParser.Plain("+ERR=Invalid Parameters")
    ensures WaitOk(["+ERR=Invalid Parameters"]) == Raised("+ERR=Invalid Parameters")
  {
    assert "+ERR=Invalid Parameters"[1] != "+OK"[1];
  }

  lemma FunctionPlain()
    ensures ControlParser.Plain("+ERR=Function Error") && WaitOk(["+ERR=Function Error"]) == Raised("+ERR=Function Error")
  {
    assert "+ERR=Function Error"[1] != "+OK"[1];
  }

  lemma TellsPlain(line: string, e: Errno)
    requires Tells(line, e)
    ensures ControlParser.Plain(line)
    ensures WaitOk([line]) == if e == Success then Accepted("+OK") else Raised(line)
  {
    OkPlain();
    ParametersPlain();
    FunctionPlain();
    hide ControlParser.Plain, WaitOk;
  }

  lemma ItemsArrive(items: seq<Item>, chunks: seq<string>)
    requires forall i | 0 <= i < |items| :: items[i].Text? ==> ControlParser.Plain(items[i].text)
    requires Join(chunks) == ControlParser.Serialise(items)
    ensures Learns(chunks, ControlParser.Events(items))
  {
    hide ControlParser.OnBytes, ControlParser.Serialise, ControlParser.Plain, ControlParser.Events, ReadAll, Join;
    ControlParser.RoundTrip(items);
    ControlsAll("", ControlParser.Control("", []), chunks);
  }

  lemma SentOne(call: Call, replies: seq<Out>, line: string)
    requires replies == [Line(line)]
    ensures Sent([Called(call)] + replies) == [ControlParser.Text(line)]
  {
    var outs := [Called(call)] + replies;
    assert outs == [Called(call), Line(line)] && outs[1..] == replies && replies[1..] == [];
    assert Sent(replies) == [ControlParser.Text(line)];
  }

  lemma SentTwo(call: Call, replies: seq<Out>, line: string, more: string)
    requires replies == [Line(line), Line(more)]
    ensures Sent([Called(call)] + replies) == [ControlParser.Text(line), ControlParser.Text(more)]
  {
    var outs := [Called(call)] + replies;
    assert outs == [Called(call), Line(line), Line(more)] && outs[1..] == replies;
    assert replies[1..] == [Line(more)] && [Line(more)][1..] == [];
    assert Sent([Line(more)]) == [ControlParser.Text(more)];
    assert Sent(replies) == [ControlParser.Text(line)] + [ControlParser.Text(more)];
  }

  // What the device puts out for a call.
  function Outputs(ops: Ops, s: At, c: Call): seq<Out> {
    [Called(c)] + Replies(c, ops(s.calls))
  }

  /** From the method of the client to the operation of main.c and back: a command in any reads makes the call,
      and from its answer, read in any pieces, the client returns if the operation succeeded, and raises the
      line that tells the error otherwise; entering data mode is also announced, exactly when it succeeded. */
  lemma CommandLearned(ops: Ops, s: At, c: Call, given: seq<string>, chunks: seq<string>)
    requires Idle(s) && !c.SendPayload? && !Bare(c) && Carried(c) && Tidy(CommandLine(c)) && OneLineLong(CommandLine(c))
    requires NoneEmpty(given) && Join(given) == CommandLine(c) + NEWLINE
    requires Join(chunks) == ControlParser.Serialise(Sent(Outputs(ops, s, c)))
    ensures ReceiveAll(ops, s, given) == Put(s, Outputs(ops, s, c)).(calls := s.calls + 1)
    ensures exists line :: Tells(line, ops(s.calls).err) &&
              (WaitOk([line]) == if ops(s.calls).err == Success then Accepted("+OK") else Raised(line)) &&
              Learns(chunks, if c.EnterDataMode? && ops(s.calls).err == Success then [line, "+IND=DATAMODE,1"] else [line])
  {
    CommandRuns(ops, s, c, given);
    RepliesTell(c, ops(s.calls));
    hide Learns, Replies, Carried, Tidy, OneLineLong, CommandLine, ReceiveAll, Join, Tells, Sent, WaitOk;
    Learned(c, ops(s.calls), chunks);
  }

  lemma Learned(c: Call, a: Answer, chunks: seq<string>)
    requires !Bare(c) && Join(chunks) == ControlParser.Serialise(Sent([Called(c)] + Replies(c, a)))
    ensures var line := AnswerLine(a.err);
            && Tells(line, a.err)
            && (WaitOk([line]) == if a.err == Success then Accepted("+OK") else Raised(line))
            && Learns(chunks, if c.EnterDataMode? && a.err == Success then [line, "+IND=DATAMODE,1"] else [line])
  {
    hide Learns, Replies, Join, Tells, Sent, WaitOk, AnswerLine, ControlParser.Serialise, ControlParser.Plain;
    var line := AnswerLine(a.err);
    AnswerTells(a.err);
    TellsPlain(line, a.err);
    RepliesAre(c, a);
    if c.EnterDataMode? && a.err == Success {
      SentTwo(c, Replies(c, a), line, ENTERED);
      assert ControlParser.Plain(ENTERED) by { EnteredPlain(); }
      var items := [ControlParser.Text(line), ControlParser.Text(ENTERED)];
      ItemsArrive(items, chunks);
      assert ControlParser.Events(items) == [line, ENTERED];
    } else {
      SentOne(c, Replies(c, a), line);
      var items := [ControlParser.Text(line)];
      ItemsArrive(items, chunks);
      assert ControlParser.Events(items) == [line];
    }
  }

  lemma RepliesAre(c: Call, a: Answer)
    requires !Bare(c)
    ensures Replies(c, a) == if c.EnterDataMode? && a.err == Success then [Line(AnswerLine(a.err)), Line(ENTERED)]
                             else [Line(AnswerLine(a.err))]
  {
  }

  lemma EnteredPlain()
    ensures ControlParser.Plain(ENTERED)
  {
  }

  // ---------- what was asked for ----------

  lemma {:induction false} DecimalLength(n: nat, digits: nat, bound: nat)
    requires digits >= 1 && n < bound && bound == Power10(digits)
    ensures |Decimal(n)| <= digits
    decreases digits
  {
    if n >= 10 {
      assert digits > 1 && n / 10 < Power10(digits - 1);
      DecimalLength(n / 10, digits - 1, Power10(digits - 1));
    }
  }

  function Power10(digits: nat): nat {
    if digits == 0 then 1 else 10 * Power10(digits - 1)
  }

  lemma Short(n: nat)
    requires n < 0x1_0000_0000
    ensures |Decimal(n)| <= 10 && NoComma(Decimal(n)) && Decimal(n) != ""
  {
    assert Power10(4) == 10000 && Power10(8) == 10000 * Power10(4);
    assert Power10(10) == 10 * (10 * Power10(8));
    DecimalLength(n, 10, Power10(10));
    DecimalNoNul(n);
  }

  datatype Counter = Counter(name: string, value: nat)

  /** The counters of AT+STREAMSTAT, in the order of the answer. */
  function Counters(s: Stats): seq<Counter> {
    [Counter("H2B", s.hostToBle), Counter("B2H", s.bleToHost), Counter("WOP", s.writeOps), Counter("NOP", s.notifyOps),
     Counter("BP", s.backpressure), Counter("MAXTX", s.maxHostToBle), Counter("MAXRX", s.maxBleToHost),
     Counter("ENT", s.entries), Counter("UDISC", s.unexpectedDisconnects)]
  }

  function Words(counters: seq<Counter>): seq<string> {
    if counters == [] then []
    else
      var last := counters[|counters| - 1];
      Words(counters[..|counters| - 1]) + [last.name, Decimal(last.value)]
  }

  predicate Clean(counters: seq<Counter>) {
    forall i | 0 <= i < |counters| ::
      NoComma(counters[i].name) && |counters[i].name| <= 5 && counters[i].value < 0x1_0000_0000
  }

  lemma OneMoreCounter(counters: seq<Counter>, last: Counter)
    ensures Words(counters + [last]) == Words(counters) + [last.name, Decimal(last.value)]
    ensures counters != [] ==> Joined(Words(counters + [last])) ==
                               Joined(Words(counters)) + "," + last.name + "," + Decimal(last.value)
    ensures counters == [] ==> Joined(Words(counters + [last])) == last.name + "," + Decimal(last.value)
  {
    assert (counters + [last])[..|counters|] == counters;
    hide Decimal, Joined;
    var d := Decimal(last.value);
    var front := Words(counters) + [last.name];
    assert Words(counters) + [last.name, d] == front + [d];
    JoinedAppended(front, d);
    if counters != [] {
      JoinedAppended(Words(counters), last.name);
    } else {
      JoinedFirst([last.name]);
    }
  }

  lemma {:induction false} WordsClean(counters: seq<Counter>)
    requires Clean(counters)
    ensures |Words(counters)| == 2 * |counters| && AllNoComma(Words(counters))
    ensures counters != [] ==> Words(counters)[|Words(counters)| - 1] != ""
    ensures |Joined(Words(counters))| <= 17 * |counters|
    decreases |counters|
  {
    hide Decimal, Joined;
    if counters == [] {
      assert Joined([]) == "" by { NoWords(); }
    } else {
      var n := |counters| - 1;
      assert counters == counters[..n] + [counters[n]];
      WordsClean(counters[..n]);
      OneMoreCounter(counters[..n], counters[n]);
      Short(counters[n].value);
    }
  }

  lemma NoWords()
    ensures Joined([]) == ""
  {
  }

  // The words of the first `k + 1` counters.
  lemma UpTo(counters: seq<Counter>, k: nat)
    requires k < |counters|
    ensures Words(counters[..k + 1]) == Words(counters[..k]) + [counters[k].name, Decimal(counters[k].value)]
    ensures Joined(Words(counters[..k + 1])) ==
            (if k == 0 then "" else Joined(Words(counters[..k])) + ",") + counters[k].name + "," +
            Decimal(counters[k].value)
  {
    assert counters[..k + 1] == counters[..k] + [counters[k]];
    OneMoreCounter(counters[..k], counters[k]);
    hide Decimal, Joined, Words;
    assert "" + counters[k].name == counters[k].name;
  }

  lemma Labelled(text: string, name: string, d: string, glue: string)
    requires glue == "," + name + ","
    ensures text + "," + name + "," + d == text + glue + d
  {
  }

  lemma FieldsJoined(s: Stats)
    ensures StatsFields(s) == Joined(Words(Counters(s)))
  {
    hide Decimal, Joined, Words;
    var c := Counters(s);
    assert c[..9] == c;
    UpTo(c, 0); UpTo(c, 1); UpTo(c, 2); UpTo(c, 3); UpTo(c, 4); UpTo(c, 5); UpTo(c, 6); UpTo(c, 7); UpTo(c, 8);
    assert Joined(Words(c[..1])) == "H2B," + Decimal(s.hostToBle) by { assert "" + "H2B" + "," == "H2B,"; }
    Labelled(Joined(Words(c[..1])), "B2H", Decimal(s.bleToHost), ",B2H,");
    Labelled(Joined(Words(c[..2])), "WOP", Decimal(s.writeOps), ",WOP,");
    Labelled(Joined(Words(c[..3])), "NOP", Decimal(s.notifyOps), ",NOP,");
    Labelled(Joined(Words(c[..4])), "BP", Decimal(s.backpressure), ",BP,");
    Labelled(Joined(Words(c[..5])), "MAXTX", Decimal(s.maxHostToBle), ",MAXTX,");
    Labelled(Joined(Words(c[..6])), "MAXRX", Decimal(s.maxBleToHost), ",MAXRX,");
    Labelled(Joined(Words(c[..7])), "ENT", Decimal(s.entries), ",ENT,");
    Labelled(Joined(Words(c[..8])), "UDISC", Decimal(s.unexpectedDisconnects), ",UDISC,");
  }

  /** The answer to AT+STREAMSTAT is never cut, and splitting what follows `+OK=` gives back every counter
      after its name. */
  lemma StatsLearned(a: Answer, i: nat)
    requires Clean(Counters(a.stats)) && i < 9
    ensures Replies(GetStreamStats, a) == [Line(StatsLine(a.stats))] && "+OK=" <= StatsLine(a.stats)
    ensures var words := SplitArgs(StatsLine(a.stats)[4..], 18); var counter := Counters(a.stats)[i];
            |words| == 18 && words[2 * i] == counter.name && words[2 * i + 1] == Decimal(counter.value)
  {
    hide Decimal, Joined, StatsFields, SplitArgs, Words;
    var s := a.stats;
    FieldsJoined(s);
    WordsClean(Counters(s));
    SplitJoined(Words(Counters(s)), 18);
    WordAt(Counters(s), i);
    var line := StatsLine(s);
    assert line[4..] == StatsFields(s) && |line| <= 191 && line[..|line|] == line;
  }

  lemma {:induction false} WordAt(counters: seq<Counter>, i: nat)
    requires i < |counters|
    ensures |Words(counters)| == 2 * |counters|
    ensures Words(counters)[2 * i] == counters[i].name && Words(counters)[2 * i + 1] == Decimal(counters[i].value)
    decreases |counters|
  {
    hide Decimal;
    var n := |counters| - 1;
    if i < n {
      WordAt(counters[..n], i);
    } else if n > 0 {
      WordAt(counters[..n], 0);
    }
  }

  lemma {:induction false} JoinedLength(args: seq<string>, bound: nat)
    requires forall i | 0 <= i < |args| :: |args[i]| <= bound
    ensures |Joined(args)| <= |args| * (bound + 1)
    decreases |args|
  {
    if args != [] {
      JoinedFirst(args);
      JoinedLength(args[1..], bound);
      assert |args| * (bound + 1) == (|args| - 1) * (bound + 1) + (bound + 1);
    }
    hide Joined;
  }

  /** The three UUIDs of the profile come back from the answer, which is never cut: they are canonical texts. */
  lemma ProfileLearned(a: Answer)
    requires |a.profile| == 3
    requires forall i | 0 <= i < 3 :: |a.profile[i]| < Uuid.STR_LEN && NoComma(a.profile[i]) && a.profile[i] != ""
    ensures exists line :: Replies(GetProfile, a) == [Line(line)] && "+OK=" <= line && SplitArgs(line[4..], 3) == a.profile
  {
    hide SplitArgs, Joined, NoComma, Replies;
    JoinedLength(a.profile, 36);
    AllClean(a.profile);
    SplitJoined(a.profile, 3);
    Whole("+OK=", Joined(a.profile), 128);
    var line := "+OK=" + Joined(a.profile);
    assert Replies(GetProfile, a) == [Line(line)] by { ProfileReply(a); }
  }

  lemma AllClean(args: seq<string>)
    requires forall i | 0 <= i < |args| :: NoComma(args[i])
    ensures AllNoComma(args)
  {
  }

  // A text that fits is printed whole.
  lemma Whole(head: string, rest: string, size: nat)
    requires |head| + |rest| < size
    ensures Printed(head + rest, size) == head + rest && head <= head + rest && (head + rest)[|head|..] == rest
  {
  }

  lemma ProfileReply(a: Answer)
    ensures Replies(GetProfile, a) == [Line(Printed("+OK=" + Joined(a.profile), 128))]
  {
    hide Joined, Printed;
  }

  /** So does the MTU. */
  lemma MtuLearned(a: Answer)
    requires a.mtu <= 0xFFFF
    ensures exists line :: Replies(GetMtu, a) == [Line(line)] && "+OK=" <= line && ParseU16(line[4..]) == Some(a.mtu)
  {
    var line := "+OK=" + Decimal(a.mtu);
    Short(a.mtu);
    NumberRoundTrip(a.mtu);
    hide Decimal, ParseU16;
    assert line[4..] == Decimal(a.mtu) && Printed(line, 32) == line;
    assert Replies(GetMtu, a) == [Line(line)];
  }

  /** And the address and the payload length of the connection, if there is one. */
  lemma StatusLearned(a: Answer)
    requires a.dataLen <= 0xFFFF && (a.mac.Some? ==> |a.mac.value| <= 17 && NoComma(a.mac.value))
    ensures a.mac == None ==> Replies(GetStatus, a) == [Line("+OK=NUM,0")]
    ensures a.mac.Some? ==>
              exists line :: Replies(GetStatus, a) == [Line(line), Line("+OK=NUM,1")] &&
                SplitArgs(line, 4) == ["0:" + a.mac.value, "0", "1", Decimal(a.dataLen)]
  {
    if a.mac.Some? {
      var words := ["0:" + a.mac.value, "0", "1", Decimal(a.dataLen)];
      var line := "0:" + a.mac.value + ",0,1," + Decimal(a.dataLen);
      Short(a.dataLen);
      assert AllNoComma(words);
      SplitJoined(words, 4);
      hide Decimal, SplitArgs, NoComma;
      StatusJoined("0:" + a.mac.value, Decimal(a.dataLen));
      assert Printed(line, 80) == line;
      assert Replies(GetStatus, a) == [Line(line), Line("+OK=NUM,1")];
    }
  }

  lemma StatusJoined(first: string, last: string)
    ensures Joined([first, "0", "1", last]) == first + ",0,1," + last
  {
    JoinedFirst([first, "0", "1", last]);
    JoinedFirst(["0", "1", last]);
    JoinedFirst(["1", last]);
    JoinedFirst([last]);
    hide Joined;
    assert [first, "0", "1", last][1..] == ["0", "1", last] && ["0", "1", last][1..] == ["1", last];
    assert ["1", last][1..] == [last];
  }
}
