/** at_host.c: when it matters how the bytes are cut into calls, and what a whole input means. */
module AtChunks {
  import opened Common
  import opened Protocol
  import opened AtCommands
  import opened AtParser

  // ---------- cutting the input ----------

  // The first byte of the payload being awaited after `n` outputs has come, and whether it was a line ending.
  predicate FirstByte(s: At, n: nat, eol: bool) {
    || (|s.out| == n && s.payload.Collecting? && s.payload.got != "" && IsEol(s.payload.got[0]) == eol)
    || (|s.out| > n && s.out[n].Called? && s.out[n].call.SendPayload? && s.out[n].call.data != "" &&
        IsEol(s.out[n].call.data[0]) == eol)
  }

  predicate Untouched(s: At, n: nat) {
    |s.out| == n && s.payload.Collecting? && s.payload.got == ""
  }

  lemma OutGrows(ops: Ops, r: Rx, ch: char)
    ensures r.s.out <= OnByte(ops, r, ch).s.out
  {
    hide Parse, Replies;
  }

  lemma FirstByteStays(ops: Ops, r: Rx, ch: char, n: nat, eol: bool)
    requires Within(r) && FirstByte(r.s, n, eol)
    ensures FirstByte(OnByte(ops, r, ch).s, n, eol)
  {
    OutGrows(ops, r, ch);
    hide Parse, Replies, EndLine;
  }

  lemma {:induction false} FirstByteKept(ops: Ops, r: Rx, bytes: string, n: nat, eol: bool)
    requires Within(r) && FirstByte(r.s, n, eol)
    ensures FirstByte(OnBytes(ops, r, bytes).s, n, eol)
    decreases |bytes|
  {
    hide OnByte, Within, FirstByte;
    if bytes != "" {
      WithinByte(ops, r, bytes[0]);
      FirstByteStays(ops, r, bytes[0], n, eol);
      FirstByteKept(ops, OnByte(ops, r, bytes[0]), bytes[1..], n, eol);
    }
  }

  // Line endings are skipped until another byte comes.
  lemma {:induction false} SkipsEols(ops: Ops, r: Rx, bytes: string)
    requires Within(r) && r.skip
    ensures Untouched(OnBytes(ops, r, bytes).s, |r.s.out|) || FirstByte(OnBytes(ops, r, bytes).s, |r.s.out|, false)
    decreases |bytes|
  {
    if bytes != "" {
      var m := OnByte(ops, r, bytes[0]);
      WithinByte(ops, r, bytes[0]);
      if IsEol(bytes[0]) {
        SkipsEols(ops, m, bytes[1..]);
      } else {
        assert FirstByte(m.s, |r.s.out|, false);
        FirstByteKept(ops, m, bytes[1..], |r.s.out|, false);
      }
    }
  }

  /** Cutting an input in two leaves the same state and output as not cutting it, except exactly when the cut
      comes while line endings are being skipped after an accepted AT+SEND line, and the second part begins
      with one. */
  lemma CutMatters(ops: Ops, s: At, a: string, b: string)
    requires Within(Rx(s, false))
    ensures Receive(ops, Receive(ops, s, a), b) == Receive(ops, s, a + b) <==>
            !(OnBytes(ops, Rx(s, false), a).skip && b != "" && IsEol(b[0]))
  {
    var r := OnBytes(ops, Rx(s, false), a);
    OnBytesSplit(ops, Rx(s, false), a, b);
    WithinBytes(ops, Rx(s, false), a);
    if r.skip && b != "" {
      if IsEol(b[0]) {
        CutDiffers(ops, r, b);
      } else {
        hide Parse, Replies;
        assert OnByte(ops, r, b[0]) == OnByte(ops, Rx(r.s, false), b[0]);
      }
    }
    hide OnByte;
  }

  lemma CutDiffers(ops: Ops, r: Rx, b: string)
    requires Within(r) && r.skip && b != "" && IsEol(b[0])
    ensures OnBytes(ops, Rx(r.s, false), b).s != OnBytes(ops, r, b).s
  {
    var n := |r.s.out|;
    var m := OnByte(ops, Rx(r.s, false), b[0]);
    WithinByte(ops, Rx(r.s, false), b[0]);
    assert FirstByte(m.s, n, true);
    FirstByteKept(ops, m, b[1..], n, true);
    SkipsEols(ops, r, b);
    hide OnByte, Within;
  }

  /** What ends an accepted AT+SEND line. */
  predicate Accepts(s: At, ch: char) {
    s.payload.NoPayload? && IsEol(ch) && !s.buffer.overflow && Parse(s.buffer.line).Send?
  }

  predicate AllEol(s: string) {
    forall i | 0 <= i < |s| :: IsEol(s[i])
  }

  lemma SkipByte(ops: Ops, r: Rx, ch: char)
    requires Within(r)
    ensures OnByte(ops, r, ch).skip <==> Accepts(r.s, ch) || (r.skip && IsEol(ch))
  {
    BlankLine();
    SendLength(r.s.buffer.line);
    hide Parse, Replies;
  }

  lemma BlankLine()
    ensures Parse("") == Blank
  {
  }

  /** The input ends with an accepted AT+SEND line and then nothing but line endings. */
  predicate EndsInSend(ops: Ops, s: At, a: string) {
    exists k | 0 <= k < |a| :: Accepts(Receive(ops, s, a[..k]), a[k]) && AllEol(a[k + 1..])
  }

  lemma EndsInSendAfter(ops: Ops, s: At, front: string, ch: char)
    ensures EndsInSend(ops, s, front + [ch]) <==>
            Accepts(Receive(ops, s, front), ch) || (EndsInSend(ops, s, front) && IsEol(ch))
  {
    hide Accepts, Receive;
    var a := front + [ch];
    var n := |front|;
    assert a[..n] == front && a[n] == ch && a[n + 1..] == "";
    forall k | 0 <= k < n
      ensures a[..k] == front[..k] && a[k] == front[k] && (AllEol(a[k + 1..]) <==> AllEol(front[k + 1..]) && IsEol(ch))
    {
      assert a[k + 1..] == front[k + 1..] + [ch];
    }
    if EndsInSend(ops, s, front) && IsEol(ch) {
      var k :| 0 <= k < n && Accepts(Receive(ops, s, front[..k]), front[k]) && AllEol(front[k + 1..]);
      assert Accepts(Receive(ops, s, a[..k]), a[k]) && AllEol(a[k + 1..]);
    }
    if Accepts(Receive(ops, s, front), ch) {
      assert Accepts(Receive(ops, s, a[..n]), a[n]) && AllEol(a[n + 1..]);
    }
    if EndsInSend(ops, s, a) {
      var k :| 0 <= k < |a| && Accepts(Receive(ops, s, a[..k]), a[k]) && AllEol(a[k + 1..]);
      if k < n {
        assert Accepts(Receive(ops, s, front[..k]), front[k]) && AllEol(front[k + 1..]);
      }
    }
  }

  lemma NoSendYet(ops: Ops, s: At)
    ensures !EndsInSend(ops, s, "")
  {
  }

  /** The condition of CutMatters in terms of the input alone. */
  lemma {:induction false} SkipMeans(ops: Ops, s: At, a: string)
    requires Within(Rx(s, false))
    ensures OnBytes(ops, Rx(s, false), a).skip <==> EndsInSend(ops, s, a)
    decreases |a|
  {
    hide OnByte, Within, Accepts, EndsInSend;
    var r := Rx(s, false);
    if a == "" {
      NoSendYet(ops, s);
    } else {
      var n := |a| - 1;
      var front := a[..n];
      assert a == front + [a[n]];
      OnBytesSplit(ops, r, front, [a[n]]);
      WithinBytes(ops, r, front);
      OneByte(ops, OnBytes(ops, r, front), a[n]);
      SkipByte(ops, OnBytes(ops, r, front), a[n]);
      SkipMeans(ops, s, front);
      EndsInSendAfter(ops, s, front, a[n]);
    }
  }

  lemma OneByte(ops: Ops, r: Rx, ch: char)
    ensures OnBytes(ops, r, [ch]) == OnByte(ops, r, ch)
  {
    hide OnByte;
    assert [ch][1..] == "";
  }

  // ---------- what an input means ----------

  function EolAt(s: string): (i: nat)
    ensures i <= |s| && (i < |s| ==> IsEol(s[i]))
    ensures forall j | 0 <= j < i :: !IsEol(s[j])
  {
    if s == "" || IsEol(s[0]) then 0 else 1 + EolAt(s[1..])
  }

  function DropEols(s: string): (r: string)
    ensures |r| <= |s|
  {
    if s != "" && IsEol(s[0]) then DropEols(s[1..]) else s
  }

  function Truncated(text: string): Buffer {
    Buffer(text[..Min(|text|, LINE_MAX)], |text| > LINE_MAX)
  }

  /** The intended reading of an input, line by line: a line longer than the buffer is one Invalid Command and
      nothing else, an accepted AT+SEND line takes the bytes after its line endings as its payload, every
      other line is executed. */
  function Lines(ops: Ops, s: At, input: string): At
    decreases |input|
  {
    var k := EolAt(input);
    if k == |input| then s.(buffer := Truncated(input))
    else if k == 0 then Lines(ops, s, input[1..])
    else if k > LINE_MAX then Lines(ops, Put(s, [Line(INVALID_COMMAND)]), input[k + 1..])
    else if Parse(input[..k]).Send? then
      var length := Parse(input[..k]).length;
      var data := DropEols(input[k + 1..]);
      var s1 := Put(s, [Raw(">")]);
      if |data| < length then s1.(payload := Collecting(Parse(input[..k]).index, length, data))
      else Lines(ops, Deliver(ops, s1, Parse(input[..k]).index, data[..length]), data[length..])
    else Lines(ops, Execute(ops, s, input[..k]), input[k + 1..])
  }

  predicate Idle(s: At) {
    s.buffer == EMPTY && s.payload.NoPayload?
  }

  lemma {:induction false} CollectsLine(ops: Ops, s: At, text: string)
    requires Idle(s) && forall i | 0 <= i < |text| :: !IsEol(text[i])
    ensures OnBytes(ops, Rx(s, false), text) == Rx(s.(buffer := Truncated(text)), false)
    decreases |text|
  {
    if text == "" {
      assert Truncated(text) == EMPTY;
    } else {
      var n := |text| - 1;
      CollectsLine(ops, s, text[..n]);
      OnBytesSplit(ops, Rx(s, false), text[..n], [text[n]]);
      assert text == text[..n] + [text[n]];
      OneByte(ops, Rx(s.(buffer := Truncated(text[..n])), false), text[n]);
    }
  }

  lemma {:induction false} SkipsLineEndings(ops: Ops, r: Rx, input: string)
    requires r.skip && r.s.payload.Collecting? && r.s.payload.got == ""
    ensures OnBytes(ops, r, input).s == OnBytes(ops, Rx(r.s, false), DropEols(input)).s
    decreases |input|
  {
    if input != "" {
      if IsEol(input[0]) {
        SkipsLineEndings(ops, r, input[1..]);
      } else {
        assert OnByte(ops, r, input[0]) == OnByte(ops, Rx(r.s, false), input[0]);
      }
    }
    hide OnByte;
  }

  lemma {:induction false} CollectsPayload(ops: Ops, s: At, data: string)
    requires s.payload.Collecting? && |s.payload.got| + |data| < s.payload.expected
    ensures OnBytes(ops, Rx(s, false), data) == Rx(s.(payload := s.payload.(got := s.payload.got + data)), false)
    decreases |data|
  {
    if data == "" {
      assert s.payload.got + data == s.payload.got;
    } else {
      var n := |data| - 1;
      CollectsPayload(ops, s, data[..n]);
      OnBytesSplit(ops, Rx(s, false), data[..n], [data[n]]);
      assert data == data[..n] + [data[n]];
      assert s.payload.got + data[..n] + [data[n]] == s.payload.got + data;
      OneByte(ops, Rx(s.(payload := s.payload.(got := s.payload.got + data[..n])), false), data[n]);
    }
  }

  lemma CompletesPayload(ops: Ops, s: At, data: string)
    requires s.payload.Collecting? && |s.payload.got| + |data| == s.payload.expected && data != ""
    ensures OnBytes(ops, Rx(s, false), data) ==
            Rx(Deliver(ops, s, s.payload.index, s.payload.got + data), false)
  {
    var n := |data| - 1;
    var m := s.(payload := s.payload.(got := s.payload.got + data[..n]));
    CollectsPayload(ops, s, data[..n]);
    OnBytesSplit(ops, Rx(s, false), data[..n], [data[n]]);
    assert data == data[..n] + [data[n]];
    assert s.payload.got + data == m.payload.got + [data[n]];
    OneByte(ops, Rx(m, false), data[n]);
    hide OnBytes;
  }

  lemma EndOfLine(ops: Ops, s: At, line: string, eol: char)
    requires Idle(s) && IsEol(eol)
    ensures OnByte(ops, Rx(s.(buffer := Truncated(line)), false), eol) ==
            if |line| > LINE_MAX then Rx(Put(s, [Line(INVALID_COMMAND)]), false)
            else if line == "" then Rx(s, false)
            else Rx(Execute(ops, s, line), Parse(line).Send?)
  {
    hide Parse, Replies;
    assert |line| <= LINE_MAX ==> Truncated(line).line == line;
    assert s.(buffer := EMPTY) == s;
  }

  lemma OneLine(ops: Ops, s: At, line: string, eol: char, rest: string)
    requires Idle(s) && IsEol(eol) && forall i | 0 <= i < |line| :: !IsEol(line[i])
    ensures OnBytes(ops, Rx(s, false), line + [eol] + rest) ==
            if |line| > LINE_MAX then OnBytes(ops, Rx(Put(s, [Line(INVALID_COMMAND)]), false), rest)
            else if line == "" then OnBytes(ops, Rx(s, false), rest)
            else OnBytes(ops, Rx(Execute(ops, s, line), Parse(line).Send?), rest)
  {
    hide OnByte, OnBytes, Truncated, Parse, Execute;
    var m := Rx(s.(buffer := Truncated(line)), false);
    CollectsLine(ops, s, line);
    assert line + [eol] + rest == line + ([eol] + rest);
    OnBytesSplit(ops, Rx(s, false), line, [eol] + rest);
    Unfold(ops, m, [eol] + rest);
    assert ([eol] + rest)[1..] == rest;
    EndOfLine(ops, s, line, eol);
  }

  lemma Unfold(ops: Ops, r: Rx, bytes: string)
    requires bytes != ""
    ensures OnBytes(ops, r, bytes) == OnBytes(ops, OnByte(ops, r, bytes[0]), bytes[1..])
  {
    hide OnByte;
  }

  lemma PayloadRest(ops: Ops, s: At, data: string)
    requires s.payload.Collecting? && s.payload.got == "" && 0 < s.payload.expected
    ensures var n := s.payload.expected;
            OnBytes(ops, Rx(s, false), data).s ==
            if |data| < n then s.(payload := s.payload.(got := data))
            else OnBytes(ops, Rx(Deliver(ops, s, s.payload.index, data[..n]), false), data[n..]).s
  {
    hide OnByte, OnBytes, Deliver;
    var n := s.payload.expected;
    if |data| < n {
      CollectsPayload(ops, s, data);
      assert "" + data == data;
    } else {
      CompletesPayload(ops, s, data[..n]);
      assert data == data[..n] + data[n..] && "" + data[..n] == data[..n];
      OnBytesSplit(ops, Rx(s, false), data[..n], data[n..]);
    }
  }

  lemma PayloadPart(ops: Ops, s: At, input: string)
    requires s.payload.Collecting? && s.payload.got == "" && 0 < s.payload.expected
    ensures var data := DropEols(input);
            OnBytes(ops, Rx(s, true), input).s ==
            if |data| < s.payload.expected then s.(payload := s.payload.(got := data))
            else OnBytes(ops, Rx(Deliver(ops, s, s.payload.index, data[..s.payload.expected]), false),
                         data[s.payload.expected..]).s
  {
    hide *;
    SkipsLineEndings(ops, Rx(s, true), input);
    PayloadRest(ops, s, DropEols(input));
  }

  // The three ways a line that has ended is dealt with.

  lemma SendLine(ops: Ops, s: At, line: string, rest: string)
    requires Idle(s) && Parse(line).Send?
    ensures var data := DropEols(rest);
            var n := Parse(line).length;
            var s1 := Put(s, [Raw(">")]);
            OnBytes(ops, Rx(Execute(ops, s, line), true), rest).s ==
            if |data| < n then s1.(payload := Collecting(Parse(line).index, n, data))
            else Receive(ops, Deliver(ops, s1, Parse(line).index, data[..n]), data[n..])
  {
    SendLength(line);
    hide Parse, OnByte, OnBytes;
    var s1 := Execute(ops, s, line);
    PayloadPart(ops, s1, rest);
    var data := DropEols(rest);
    var n := Parse(line).length;
    if |data| >= n {
      assert Deliver(ops, s1, Parse(line).index, data[..n]) ==
             Deliver(ops, Put(s, [Raw(">")]), Parse(line).index, data[..n]);
    }
  }

  /** The byte parser does with a whole input what reading it line by line means. */
  lemma {:induction false} RefinesLines(ops: Ops, s: At, input: string)
    requires Idle(s)
    ensures Receive(ops, s, input) == Lines(ops, s, input)
    decreases |input|
  {
    hide Parse, OnByte, OnBytes, Truncated;
    var k := EolAt(input);
    if k == |input| {
      CollectsLine(ops, s, input);
    } else {
      var line := input[..k];
      var rest := input[k + 1..];
      assert input == line + [input[k]] + rest;
      OneLine(ops, s, line, input[k], rest);
      SendLength(line);
      if k == 0 {
        RefinesLines(ops, s, rest);
      } else if k > LINE_MAX {
        RefinesLines(ops, Put(s, [Line(INVALID_COMMAND)]), rest);
      } else if Parse(line).Send? {
        SendLine(ops, s, line, rest);
        var data := DropEols(rest);
        var n := Parse(line).length;
        if |data| >= n {
          RefinesLines(ops, Deliver(ops, Put(s, [Raw(">")]), Parse(line).index, data[..n]), data[n..]);
        }
      } else {
        RefinesLines(ops, Execute(ops, s, line), rest);
      }
    }
  }

  // ---------- responses ----------

  /** How many commands an input completes: the lines that are not blank, and those that are too long. */
  function Completed(input: string): nat
    decreases |input|
  {
    var k := EolAt(input);
    if k == |input| then 0
    else if k == 0 then Completed(input[1..])
    else if k > LINE_MAX then 1 + Completed(input[k + 1..])
    else if Parse(input[..k]).Send? then
      var length := Parse(input[..k]).length;
      var data := DropEols(input[k + 1..]);
      1 + if |data| < length then 0 else Completed(data[length..])
    else (if Parse(input[..k]).Blank? then 0 else 1) + Completed(input[k + 1..])
  }

  function Prompts(outs: seq<Out>): nat {
    if outs == [] then 0 else Prompts(outs[..|outs| - 1]) + (if outs[|outs| - 1].Raw? then 1 else 0)
  }

  function PayloadsSent(outs: seq<Out>): nat {
    if outs == [] then 0
    else PayloadsSent(outs[..|outs| - 1]) +
         (if outs[|outs| - 1].Called? && outs[|outs| - 1].call.SendPayload? then 1 else 0)
  }

  function Outstanding(s: At): nat {
    if s.payload.Collecting? then 1 else 0
  }

  // What one line or payload adds.
  ghost predicate Adds(s: At, r: At, finals: nat, prompts: nat, payloads: nat) {
    && Finals(r.out) == Finals(s.out) + finals
    && Prompts(r.out) == Prompts(s.out) + prompts
    && PayloadsSent(r.out) == PayloadsSent(s.out) + payloads
  }

  lemma {:induction false} NoPrompts(a: seq<Out>, b: seq<Out>)
    requires forall i | 0 <= i < |b| :: b[i].Line?
    ensures Prompts(a + b) == Prompts(a) && PayloadsSent(a + b) == PayloadsSent(a)
    decreases |b|
  {
    if b == [] {
      assert a + b == a;
    } else {
      assert (a + b)[..|a + b| - 1] == a + b[..|b| - 1];
      NoPrompts(a, b[..|b| - 1]);
    }
  }

  lemma LineAdds(s: At, text: string)
    ensures Adds(s, Put(s, [Line(text)]), if Final(Line(text)) then 1 else 0, 0, 0)
  {
    FinalsConcat(s.out, [Line(text)]);
    FinalsOne(Line(text));
    NoPrompts(s.out, [Line(text)]);
  }

  lemma PromptAdds(s: At)
    ensures Adds(s, Put(s, [Raw(">")]), 0, 1, 0)
  {
    assert (s.out + [Raw(">")])[..|s.out|] == s.out;
  }

  lemma CallAdds(s: At, call: Call)
    ensures Adds(s, Put(s, [Called(call)]), 0, 0, if call.SendPayload? then 1 else 0)
  {
    assert (s.out + [Called(call)])[..|s.out|] == s.out;
  }

  lemma DeliverAdds(ops: Ops, s: At, index: nat, data: string)
    ensures Adds(s, Deliver(ops, s, index, data), 1, 0, 1)
  {
    var m := Put(s, [Called(SendPayload(index, data))]);
    var text := AnswerLine(ops(s.calls).err);
    CallAdds(s, SendPayload(index, data));
    LineAdds(m, text);
    hide Finals, Prompts, PayloadsSent;
    assert Deliver(ops, s, index, data).out == Put(m, [Line(text)]).out;
    assert Final(Line(text));
  }

  lemma RepliesAreLines(call: Call, a: Answer)
    ensures forall i | 0 <= i < |Replies(call, a)| :: Replies(call, a)[i].Line?
  {
    hide Printed, StatsLine, Joined, Decimal;
  }

  lemma WrongFinal(line: string)
    ensures Parse(line).Wrong? ==> Final(Line(Parse(line).line))
    ensures Parse(line).Op? ==> !Parse(line).call.SendPayload?
  {
    hide CStr, Trim, EqualsIgnoreCase, StartsWithIgnoreCase, SplitArgs, ParseU16;
    assert Final(Line(INVALID_PARAMETERS)) && Final(Line(FUNCTION_ERROR)) && Final(Line(INVALID_COMMAND));
  }

  lemma OpAdds(s: At, call: Call, a: Answer)
    ensures Adds(s, Put(s, [Called(call)] + Replies(call, a)), 1, 0, if call.SendPayload? then 1 else 0)
  {
    hide Finals, Prompts, PayloadsSent, Replies;
    var replies := Replies(call, a);
    var m := Put(s, [Called(call)]);
    CallAdds(s, call);
    RepliesFinal(call, a);
    RepliesAreLines(call, a);
    FinalsConcat(m.out, replies);
    NoPrompts(m.out, replies);
    assert s.out + ([Called(call)] + replies) == m.out + replies;
  }

  lemma ExecuteAdds(ops: Ops, s: At, line: string)
    requires !Parse(line).Send?
    ensures Adds(s, Execute(ops, s, line), if Parse(line).Blank? then 0 else 1, 0, 0)
  {
    hide Parse, Finals, Prompts, PayloadsSent, Replies;
    WrongFinal(line);
    match Parse(line) {
      case Blank =>
      case Ping => LineAdds(s, OK_LINE);
      case Wrong(text) => LineAdds(s, text);
      case Op(call) => OpAdds(s, call, ops(s.calls));
    }
  }

  lemma StaysIdle(ops: Ops, s: At, line: string, index: nat, data: string)
    requires Idle(s)
    ensures !Parse(line).Send? ==> Idle(Execute(ops, s, line))
    ensures Idle(Deliver(ops, Put(s, [Raw(">")]), index, data))
  {
    hide Parse, Replies;
  }

  /** Response accounting: each completed command is answered by exactly one `+OK...` or `+ERR...` line,
      except an AT+SEND whose payload is still outstanding; each accepted AT+SEND yields one prompt and, when
      its payload is complete, one operation. */
  lemma {:induction false} Accounting(ops: Ops, s: At, input: string)
    requires Idle(s)
    ensures var r := Lines(ops, s, input);
            && Finals(r.out) + Outstanding(r) == Finals(s.out) + Completed(input)
            && Prompts(r.out) + PayloadsSent(s.out) == Prompts(s.out) + PayloadsSent(r.out) + Outstanding(r)
    decreases |input|
  {
    hide Finals, Prompts, PayloadsSent, Parse, Execute, Deliver;
    var k := EolAt(input);
    if k < |input| {
      var line := input[..k];
      var rest := input[k + 1..];
      SendLength(line);
      if k == 0 {
        Accounting(ops, s, input[1..]);
      } else if k > LINE_MAX {
        LineAdds(s, INVALID_COMMAND);
        assert Final(Line(INVALID_COMMAND));
        Accounting(ops, Put(s, [Line(INVALID_COMMAND)]), rest);
      } else if Parse(line).Send? {
        var n := Parse(line).length;
        var data := DropEols(rest);
        var s1 := Put(s, [Raw(">")]);
        PromptAdds(s);
        if |data| >= n {
          StaysIdle(ops, s, line, Parse(line).index, data[..n]);
          DeliverAdds(ops, s1, Parse(line).index, data[..n]);
          Accounting(ops, Deliver(ops, s1, Parse(line).index, data[..n]), data[n..]);
        }
      } else {
        ExecuteAdds(ops, s, line);
        StaysIdle(ops, s, line, 0, "");
        Accounting(ops, Execute(ops, s, line), rest);
      }
    }
  }
}
