/** ble_at.py's send against at_host.c: the AT+SEND line, its CR LF and the payload, cut into any reads. */
module AtSend {
  import opened Common
  import opened Protocol
  import opened AtCommands
  import opened AtParser
  import opened AtChunks
  import opened AtReads
  import opened AtClient

  // What the client writes for a payload of `n` bytes.
  function PayloadLine(n: nat): string {
    "AT+SEND=0," + Decimal(n)
  }

  predicate Graphic(s: string) {
    forall i | 0 <= i < |s| :: s[i] != NUL && !IsSpace(s[i])
  }

  lemma DecimalGraphic(n: nat)
    ensures Graphic(Decimal(n)) && Decimal(n) != ""
  {
    DecimalDigits(n);
    hide Decimal, DigitsValue;
    assert forall i | 0 <= i < |Decimal(n)| :: IsDigit(Decimal(n)[i]);
  }

  lemma GraphicTidy(s: string)
    requires Graphic(s) && s != ""
    ensures Tidy(s)
  {
  }

  lemma SendGraphic(n: nat)
    ensures Graphic(PayloadLine(n))
  {
    DecimalGraphic(n);
    hide Decimal;
    assert Graphic("AT+SEND=0,");
  }

  lemma SendCommandIs(zero: string, length: string, n: nat)
    requires ParseU16(zero) == Some(0) && ParseU16(length) == if n <= 0xFFFF then Some(n) else None
    ensures SendCommand([zero, length]) == if 1 <= n <= SEND_MAX then Send(0, n) else Wrong(INVALID_PARAMETERS)
  {
    hide ParseU16;
  }

  lemma SendBranch(n: nat)
    ensures SendCommand(SplitArgs("0," + Decimal(n), 5)) ==
            if 1 <= n <= SEND_MAX then Send(0, n) else Wrong(INVALID_PARAMETERS)
  {
    hide ParseU16, SplitArgs, NoComma, SendCommand, Decimal;
    NumberRoundTrip(0);
    ZeroIs();
    DecimalClean(n);
    SplitFirst("0", Decimal(n), 5);
    SplitOne(Decimal(n), 4);
    assert "0" + "," + Decimal(n) == "0," + Decimal(n);
    assert ["0"] + [Decimal(n)] == ["0", Decimal(n)];
    SendCommandIs("0", Decimal(n), n);
  }

  lemma ZeroIs()
    ensures Decimal(0) == "0" && NoComma("0")
  {
  }

  lemma SendUnderstood(n: nat)
    ensures Parse(PayloadLine(n)) == if 1 <= n <= SEND_MAX then Send(0, n) else Wrong(INVALID_PARAMETERS)
  {
    hide Decimal, Branch, Parse, Tidy, Graphic, SendCommand, SplitArgs;
    SendGraphic(n);
    GraphicTidy(PayloadLine(n));
    SendBranch(n);
    assert PayloadLine(n) == Verb(SendPayload(0, "")) + ("0," + Decimal(n));
    Dispatch(SendPayload(0, ""), "0," + Decimal(n));
    SameBranch("0," + Decimal(n));
  }

  lemma SameBranch(rest: string)
    ensures Branch(SendPayload(0, ""), rest) == SendCommand(SplitArgs(rest, 5))
  {
  }

  // ---------- what the device does ----------

  // The device has sent its prompt and awaits `n` bytes; and what it does with them.
  function Awaiting(s: At, n: nat): At {
    Put(s, [Raw(">")]).(payload := Collecting(0, n, ""))
  }

  function Delivered(ops: Ops, s: At, data: string): At {
    Deliver(ops, Put(s, [Raw(">")]), 0, data)
  }

  lemma PayloadLineShape(n: nat)
    requires n <= SEND_MAX
    ensures OneLineLong(PayloadLine(n))
  {
    SendGraphic(n);
    assert |Decimal(n / 10 / 10)| == 1;
    assert |Decimal(n / 10)| <= 2;
  }

  // In one read: the line, its CR, and what follows.
  lemma LineAndMore(ops: Ops, s: At, n: nat, rest: string)
    requires Idle(s) && 1 <= n <= SEND_MAX && |DropEols(rest)| <= n
    ensures Receive(ops, s, PayloadLine(n) + [CR] + rest) ==
            if |DropEols(rest)| < n then Awaiting(s, n).(payload := Collecting(0, n, DropEols(rest)))
            else Delivered(ops, s, DropEols(rest))
  {
    PayloadLineShape(n);
    SendUnderstood(n);
    var data := DropEols(rest);
    hide OnBytes, OnByte, Parse, Execute, PayloadLine, DropEols, Idle;
    OneLine(ops, s, PayloadLine(n), CR, rest);
    SendLine(ops, s, PayloadLine(n), rest);
    if |data| == n {
      assert data[..n] == data && data[n..] == "";
      NoBytesYet(ops, Rx(Delivered(ops, s, data), false));
    }
  }

  lemma PayloadTaken(ops: Ops, s: At, n: nat, input: string)
    requires Idle(s) && 1 <= n <= |input|
    ensures Receive(ops, Awaiting(s, n), input) == Receive(ops, Delivered(ops, s, input[..n]), input[n..])
    ensures !OnBytes(ops, Rx(Awaiting(s, n), false), input[..n]).skip
  {
    hide OnBytes;
    var m := Awaiting(s, n);
    CompletesPayload(ops, m, input[..n]);
    assert input == input[..n] + input[n..] && "" + input[..n] == input[..n];
    OnBytesSplit(ops, Rx(m, false), input[..n], input[n..]);
  }

  // Once the device awaits the payload, cuts do not matter up to its end.
  lemma AwaitedReads(ops: Ops, s: At, n: nat, chunks: seq<string>)
    requires Idle(s) && 1 <= n <= SEND_MAX && NoneEmpty(chunks) && |Join(chunks)| <= n + 1
    ensures ReceiveAll(ops, Awaiting(s, n), chunks) == Receive(ops, Awaiting(s, n), Join(chunks))
  {
    var m := Awaiting(s, n);
    forall i | 0 < i < |chunks|
      ensures !OnBytes(ops, Rx(m, false), Join(chunks[..i])).skip
    {
      CutShape(chunks, i);
      var x := Join(chunks[..i]);
      if |x| < n {
        CollectsPayload(ops, m, x);
      } else {
        PayloadTaken(ops, s, n, x);
        assert x[..n] == x;
      }
    }
    hide OnBytes;
    NoSkipReads(ops, m, chunks);
  }

  // The reads that end with the CR, or with the LF but none between the two.
  lemma PromptComes(ops: Ops, s: At, n: nat, rest: string, chunks: seq<string>)
    requires Idle(s) && 1 <= n <= SEND_MAX && |DropEols(rest)| <= n && NoneEmpty(chunks)
    requires Join(chunks) == PayloadLine(n) + [CR] + rest
    requires forall i | 0 < i < |chunks| :: |Join(chunks[..i])| <= |PayloadLine(n)|
    ensures ReceiveAll(ops, s, chunks) == Receive(ops, s, PayloadLine(n) + [CR] + rest)
  {
    var line := PayloadLine(n);
    PayloadLineShape(n);
    forall i | 0 < i < |chunks|
      ensures !OnBytes(ops, Rx(s, false), Join(chunks[..i])).skip
    {
      CutShape(chunks, i);
      var p := |Join(chunks[..i])|;
      assert (line + [CR] + rest)[..p] == line[..p];
      InLine(ops, s, line, p);
    }
    hide OnBytes, PayloadLine, OneLineLong;
    NoSkipReads(ops, s, chunks);
  }

  /** A read ends after the first `p` bytes. */
  predicate CutAt(chunks: seq<string>, p: nat) {
    exists i | 0 <= i <= |chunks| :: |Join(chunks[..i])| == p
  }

  predicate AllLf(s: string) {
    forall i | 0 <= i < |s| :: s[i] == LF
  }

  // What the client writes to send `data`.
  function Written(data: string): string {
    PayloadLine(|data|) + [CR] + ([LF] + data)
  }

  lemma {:induction false} Increasing(chunks: seq<string>, i: nat, j: nat)
    requires NoneEmpty(chunks) && i < j <= |chunks|
    ensures |Join(chunks[..i])| < |Join(chunks[..j])|
    decreases j
  {
    assert chunks[..j] == chunks[..j - 1] + [chunks[j - 1]];
    JoinSnoc(chunks[..j - 1], chunks[j - 1]);
    if i < j - 1 {
      Increasing(chunks, i, j - 1);
    }
  }

  // The reads split where one ends.
  lemma Split(ops: Ops, s: At, chunks: seq<string>, i: nat)
    requires i <= |chunks| && NoneEmpty(chunks)
    ensures ReceiveAll(ops, s, chunks) == ReceiveAll(ops, ReceiveAll(ops, s, chunks[..i]), chunks[i..])
    ensures NoneEmpty(chunks[..i]) && NoneEmpty(chunks[i..])
    ensures forall j | 0 < j < i :: chunks[..i][..j] == chunks[..j] && |Join(chunks[..j])| < |Join(chunks[..i])|
  {
    assert chunks == chunks[..i] + chunks[i..];
    AllConcat(ops, s, chunks[..i], chunks[i..]);
    forall j | 0 < j < i
      ensures chunks[..i][..j] == chunks[..j] && |Join(chunks[..j])| < |Join(chunks[..i])|
    {
      Increasing(chunks, j, i);
    }
    hide ReceiveAll, Join;
  }

  lemma PrefixAt(line: string, data: string, p: nat)
    requires p == |line| + 1 || p == |line| + 2
    ensures var all := line + [CR] + ([LF] + data);
            if p == |line| + 1 then all[..p] == line + [CR] + "" && all[p..] == [LF] + data
            else all[..p] == line + [CR] + [LF] && all[p..] == data
  {
  }

  // A read ends right after the CR: the LF is the first byte of the payload.
  lemma TornSend(ops: Ops, s: At, data: string, chunks: seq<string>, i: nat)
    requires Idle(s) && 1 <= |data| <= SEND_MAX && NoneEmpty(chunks) && Join(chunks) == Written(data)
    requires i <= |chunks| && |Join(chunks[..i])| == |PayloadLine(|data|)| + 1
    ensures ReceiveAll(ops, s, chunks) ==
            Receive(ops, Delivered(ops, s, [LF] + data[..|data| - 1]), data[|data| - 1..])
  {
    hide ReceiveAll, Receive, PayloadLine, Join, OneLineLong, Delivered, Idle;
    var n, line, x := |data|, PayloadLine(|data|), [LF] + data;
    CutShape(chunks, i);
    PrefixAt(line, data, |line| + 1);
    Split(ops, s, chunks, i);
    PromptComes(ops, s, n, "", chunks[..i]);
    LineAndMore(ops, s, n, "");
    AwaitedReads(ops, s, n, chunks[i..]);
    PayloadTaken(ops, s, n, x);
    assert x[..n] == [LF] + data[..n - 1] && x[n..] == data[n - 1..];
  }

  // No read ends right after the CR, one does right after the LF.
  lemma PromptedSend(ops: Ops, s: At, data: string, chunks: seq<string>, i: nat)
    requires Idle(s) && 1 <= |data| <= SEND_MAX && NoneEmpty(chunks) && Join(chunks) == Written(data)
    requires !CutAt(chunks, |PayloadLine(|data|)| + 1)
    requires i <= |chunks| && |Join(chunks[..i])| == |PayloadLine(|data|)| + 2
    ensures ReceiveAll(ops, s, chunks) == Delivered(ops, s, data)
  {
    hide ReceiveAll, Receive, PayloadLine, Join, OneLineLong, Delivered, Idle;
    var n, line := |data|, PayloadLine(|data|);
    CutShape(chunks, i);
    PrefixAt(line, data, |line| + 2);
    Split(ops, s, chunks, i);
    assert DropEols([LF]) == "";
    PromptComes(ops, s, n, [LF], chunks[..i]);
    LineAndMore(ops, s, n, [LF]);
    AwaitedReads(ops, s, n, chunks[i..]);
    PayloadTaken(ops, s, n, data);
    assert data[..n] == data && data[n..] == "";
    Nothing(ops, Delivered(ops, s, data));
  }

  lemma Nothing(ops: Ops, s: At)
    ensures Receive(ops, s, "") == s
  {
  }

  lemma {:induction false} ShiftIsLf(data: string, i: nat)
    requires i < |data| && [LF] + data[..|data| - 1] == data
    ensures data[i] == LF
    decreases i
  {
    assert data[i] == ([LF] + data[..|data| - 1])[i];
    if i > 0 {
      ShiftIsLf(data, i - 1);
    }
  }

  lemma ShiftKeeps(data: string)
    requires data != ""
    ensures [LF] + data[..|data| - 1] == data <==> AllLf(data)
  {
    if [LF] + data[..|data| - 1] == data {
      forall i | 0 <= i < |data|
        ensures data[i] == LF
      {
        ShiftIsLf(data, i);
      }
    }
  }

  lemma DeliveredTells(ops: Ops, s: At, x: string, r: At)
    requires Delivered(ops, s, x).out <= r.out
    ensures |s.out| + 1 < |r.out| && r.out[|s.out| + 1] == Called(SendPayload(0, x))
  {
    assert Delivered(ops, s, x).out[|s.out| + 1] == Called(SendPayload(0, x));
  }

  lemma TornLoses(ops: Ops, s: At, data: string)
    requires Idle(s) && data != ""
    ensures Receive(ops, Delivered(ops, s, [LF] + data[..|data| - 1]), data[|data| - 1..]) == Delivered(ops, s, data)
            <==> AllLf(data)
  {
    ShiftKeeps(data);
    var n, x := |data|, [LF] + data[..|data| - 1];
    var m := Delivered(ops, s, x);
    assert data[n - 1..] == [data[n - 1]];
    OneByte(ops, Rx(m, false), data[n - 1]);
    OutGrows(ops, Rx(m, false), data[n - 1]);
    if AllLf(data) {
      NothingMore(ops, m);
    } else {
      DeliveredTells(ops, s, x, OnByte(ops, Rx(m, false), data[n - 1]).s);
      DeliveredTells(ops, s, data, Delivered(ops, s, data));
    }
    hide OnByte, Delivered, OnBytes;
  }

  // The first reads that reach beyond `p`.
  function FirstPast(chunks: seq<string>, p: nat): (i: nat)
    requires |Join(chunks)| > p
    ensures 0 < i <= |chunks| && |Join(chunks[..i])| > p && |Join(chunks[..i - 1])| <= p
  {
    var n := |chunks| - 1;
    assert chunks == chunks[..n] + [chunks[n]];
    JoinSnoc(chunks[..n], chunks[n]);
    if |Join(chunks[..n])| <= p then
      assert chunks[..n + 1] == chunks;
      n + 1
    else
      var i := FirstPast(chunks[..n], p);
      PrefixOf(chunks, i, n);
      PrefixOf(chunks, i - 1, n);
      i
  }

  // A payload that is still not complete.
  lemma {:induction false} StillAwaiting(ops: Ops, s: At, chunks: seq<string>)
    requires s.payload.Collecting? && |s.payload.got| + |Join(chunks)| < s.payload.expected
    ensures ReceiveAll(ops, s, chunks).payload.Collecting?
    decreases |chunks|
  {
    if chunks != [] {
      CollectsPayload(ops, s, chunks[0]);
      hide OnBytes;
      StillAwaiting(ops, Receive(ops, s, chunks[0]), chunks[1..]);
    }
  }

  lemma {:induction false} DropAtMost(s: string)
    ensures |DropEols(s)| <= |s|
    ensures s != "" && IsEol(s[0]) ==> |DropEols(s)| < |s|
    ensures s != "" && !IsEol(s[0]) ==> DropEols(s) == s
    decreases |s|
  {
  }

  lemma PrefixPast(line: string, data: string, j: nat)
    requires j <= |data|
    ensures var all := line + [CR] + ([LF] + data); var p := |line| + 2 + j;
            all[..p] == line + [CR] + ([LF] + data[..j]) && all[p..] == data[j..]
  {
    assert ([LF] + data)[..1 + j] == [LF] + data[..j];
  }

  // The first byte of the payload came in one read with the line: line endings there are lost.
  lemma LostSend(ops: Ops, s: At, data: string, chunks: seq<string>)
    requires Idle(s) && 1 <= |data| <= SEND_MAX && NoneEmpty(chunks) && Join(chunks) == Written(data)
    requires !CutAt(chunks, |PayloadLine(|data|)| + 1) && !CutAt(chunks, |PayloadLine(|data|)| + 2) && IsEol(data[0])
    ensures ReceiveAll(ops, s, chunks) != Delivered(ops, s, data)
  {
    hide ReceiveAll, Receive, PayloadLine, Join, OneLineLong, Idle, CutAt, DropEols, NoneEmpty;
    var n, line := |data|, PayloadLine(|data|);
    var i := FirstPast(chunks, |line|);
    FirstReads(ops, s, data, chunks, i);
    var j := |Join(chunks[..i])| - |line| - 2;
    DropAtMost(data[..j]);
    LineAndMore(ops, s, n, [LF] + data[..j]);
    StillAwaiting(ops, ReceiveAll(ops, s, chunks[..i]), chunks[i..]);
  }

  lemma BeforeFirst(chunks: seq<string>, i: nat, p: nat)
    requires NoneEmpty(chunks) && 0 < i <= |chunks| && |Join(chunks[..i - 1])| <= p
    ensures forall j | 0 < j < i :: |Join(chunks[..j])| <= p
  {
    forall j | 0 < j < i
      ensures |Join(chunks[..j])| <= p
    {
      if j < i - 1 {
        Increasing(chunks, j, i - 1);
      }
    }
  }

  lemma {:induction false} FinishesAwaiting(ops: Ops, s: At, chunks: seq<string>)
    requires NoneEmpty(chunks) && chunks != []
    requires s.payload.Collecting? && |s.payload.got| + |Join(chunks)| == s.payload.expected
    ensures ReceiveAll(ops, s, chunks) == Deliver(ops, s, s.payload.index, s.payload.got + Join(chunks))
    decreases |chunks|
  {
    var c, rest := chunks[0], chunks[1..];
    assert Join(chunks) == c + Join(rest);
    if rest == [] {
      assert c + Join(rest) == c;
      CompletesPayload(ops, s, c);
    } else {
      assert Join(rest) == rest[0] + Join(rest[1..]);
      CollectsPayload(ops, s, c);
      var m := s.(payload := s.payload.(got := s.payload.got + c));
      hide OnBytes;
      FinishesAwaiting(ops, m, rest);
      assert (s.payload.got + c) + Join(rest) == s.payload.got + (c + Join(rest));
    }
    hide OnBytes;
  }

  lemma Empty(chunks: seq<string>)
    requires NoneEmpty(chunks) && Join(chunks) == ""
    ensures chunks == []
  {
  }

  lemma FirstReads(ops: Ops, s: At, data: string, chunks: seq<string>, i: nat)
    requires Idle(s) && 1 <= |data| <= SEND_MAX && NoneEmpty(chunks) && Join(chunks) == Written(data)
    requires !CutAt(chunks, |PayloadLine(|data|)| + 1) && !CutAt(chunks, |PayloadLine(|data|)| + 2)
    requires |Join(chunks)| > |PayloadLine(|data|)| && i == FirstPast(chunks, |PayloadLine(|data|)|)
    ensures i <= |chunks| && NoneEmpty(chunks[i..])
    ensures var j := |Join(chunks[..i])| - |PayloadLine(|data|)| - 2;
            && 1 <= j <= |data| && Join(chunks[i..]) == data[j..]
            && ReceiveAll(ops, s, chunks[..i]) == Receive(ops, s, PayloadLine(|data|) + [CR] + ([LF] + data[..j]))
            && ReceiveAll(ops, s, chunks) == ReceiveAll(ops, ReceiveAll(ops, s, chunks[..i]), chunks[i..])
            && |DropEols([LF] + data[..j])| <= j && DropEols([LF] + data[..j]) == DropEols(data[..j])
  {
    hide ReceiveAll, Receive, PayloadLine, Join, OneLineLong, Idle, NoneEmpty;
    var n, line := |data|, PayloadLine(|data|);
    var j := |Join(chunks[..i])| - |line| - 2;
    CutShape(chunks, i);
    assert !(|Join(chunks[..i])| == |line| + 1) && !(|Join(chunks[..i])| == |line| + 2);
    PrefixPast(line, data, j);
    Split(ops, s, chunks, i);
    BeforeFirst(chunks, i, |line|);
    var rest := [LF] + data[..j];
    DropAtMost(data[..j]);
    assert rest[1..] == data[..j];
    PromptComes(ops, s, n, rest, chunks[..i]);
  }

  // And if it is no line ending nothing is lost.
  lemma KeptSend(ops: Ops, s: At, data: string, chunks: seq<string>)
    requires Idle(s) && 1 <= |data| <= SEND_MAX && NoneEmpty(chunks) && Join(chunks) == Written(data)
    requires !CutAt(chunks, |PayloadLine(|data|)| + 1) && !CutAt(chunks, |PayloadLine(|data|)| + 2) && !IsEol(data[0])
    ensures ReceiveAll(ops, s, chunks) == Delivered(ops, s, data)
  {
    hide ReceiveAll, Receive, PayloadLine, Join, OneLineLong, Idle, CutAt, DropEols, Awaiting, Delivered, NoneEmpty;
    var n, line := |data|, PayloadLine(|data|);
    var i := FirstPast(chunks, |line|);
    FirstReads(ops, s, data, chunks, i);
    var j := |Join(chunks[..i])| - |line| - 2;
    DropAtMost(data[..j]);
    LineAndMore(ops, s, n, [LF] + data[..j]);
    RestDelivered(ops, s, data, j, ReceiveAll(ops, s, chunks[..i]), chunks[i..]);
  }

  // The reads after the first `j` bytes of the payload.
  lemma RestDelivered(ops: Ops, s: At, data: string, j: nat, m: At, chunks: seq<string>)
    requires 1 <= j <= |data| && NoneEmpty(chunks) && Join(chunks) == data[j..]
    requires m == if j < |data| then Awaiting(s, |data|).(payload := Collecting(0, |data|, data[..j]))
                  else Delivered(ops, s, data[..j])
    ensures ReceiveAll(ops, m, chunks) == Delivered(ops, s, data)
  {
    hide ReceiveAll, Join, NoneEmpty;
    AwaitingShape(s, |data|);
    if j < |data| {
      assert data[..j] + data[j..] == data;
      NotEmpty(chunks);
      FinishesAwaiting(ops, m, chunks);
    } else {
      assert data[..j] == data && data[j..] == "";
      Empty(chunks);
      NoReads(ops, m);
    }
  }

  lemma AwaitingShape(s: At, n: nat)
    ensures Awaiting(s, n).payload == Collecting(0, n, "")
  {
  }

  lemma NotEmpty(chunks: seq<string>)
    requires Join(chunks) != ""
    ensures chunks != []
  {
  }

  lemma NoReads(ops: Ops, s: At)
    ensures ReceiveAll(ops, s, []) == s
  {
  }

  /** The client's send, however line, CR LF and payload were cut into reads: exactly the payload is handed to
      the operation if and only if, when a read ends right after the CR, the payload is nothing but LFs, and
      otherwise the payload does not begin with a line ending or a read ends right after the LF.  The host then
      gets the prompt and the line that tells the operation's result. */
  lemma PayloadArrives(ops: Ops, s: At, data: string, chunks: seq<string>)
    requires Idle(s) && 1 <= |data| <= SEND_MAX && NoneEmpty(chunks) && Join(chunks) == Written(data)
    ensures ReceiveAll(ops, s, chunks) == Delivered(ops, s, data) <==>
            var end := |PayloadLine(|data|)|;
            if CutAt(chunks, end + 1) then AllLf(data) else !IsEol(data[0]) || CutAt(chunks, end + 2)
    ensures var line := AnswerLine(ops(s.calls).err);
            && Delivered(ops, s, data).out == s.out + [Raw(">"), Called(SendPayload(0, data)), Line(line)]
            && Tells(line, ops(s.calls).err)
  {
    AnswerTells(ops(s.calls).err);
    DeliveredOut(ops, s, data);
    var end := |PayloadLine(|data|)|;
    if CutAt(chunks, end + 1) {
      var i :| 0 <= i <= |chunks| && |Join(chunks[..i])| == end + 1;
      TornSend(ops, s, data, chunks, i);
      TornLoses(ops, s, data);
    } else if CutAt(chunks, end + 2) {
      var i :| 0 <= i <= |chunks| && |Join(chunks[..i])| == end + 2;
      PromptedSend(ops, s, data, chunks, i);
    } else if IsEol(data[0]) {
      LostSend(ops, s, data, chunks);
    } else {
      KeptSend(ops, s, data, chunks);
    }
    hide ReceiveAll, Delivered, Join, PayloadLine, CutAt, AllLf, NoneEmpty, Idle, AnswerLine;
  }

  lemma DeliveredOut(ops: Ops, s: At, data: string)
    ensures Delivered(ops, s, data).out ==
            s.out + [Raw(">"), Called(SendPayload(0, data)), Line(AnswerLine(ops(s.calls).err))]
  {
    hide AnswerLine;
  }
}
