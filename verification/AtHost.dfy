/** at_host.c as it is written: the parser over its two fixed buffers, and the two routines that edit text in
    place. */
module AtHosting {
  import opened Common
  import opened Protocol
  import opened AtCommands
  import opened AtParser
  import opened AtText
  import opened AtDispatch

  class AtHost {
    const ops: Ops
    const lineBuffer: array<char>
    var lineLength: nat
    var lineOverflow: bool
    var payloadMode: bool
    const payloadBuffer: array<char>
    var payloadExpected: nat
    var payloadReceived: nat
    var payloadConnIndex: nat
    var calls: nat
    var output: seq<Out>

    ghost predicate Valid()
      reads this
    {
      && lineBuffer.Length == LINE_MAX + 1 && payloadBuffer.Length == SEND_MAX
      && lineLength <= LINE_MAX && (lineOverflow ==> lineLength == LINE_MAX)
      && (payloadMode ==> payloadReceived < payloadExpected <= SEND_MAX && lineLength == 0 && !lineOverflow)
    }

    ghost function Value(): At
      requires Valid()
      reads this, lineBuffer, payloadBuffer
    {
      At(Buffer(lineBuffer[..lineLength], lineOverflow),
         if payloadMode then Collecting(payloadConnIndex, payloadExpected, payloadBuffer[..payloadReceived])
         else NoPayload,
         calls, output)
    }

    constructor (ops: Ops)
      ensures Valid() && Value() == At(EMPTY, NoPayload, 0, [])
      ensures fresh(lineBuffer) && fresh(payloadBuffer)
    {
      this.ops := ops;
      lineBuffer := new char[LINE_MAX + 1];
      payloadBuffer := new char[SEND_MAX];
      lineLength, lineOverflow, payloadMode := 0, false, false;
      payloadExpected, payloadReceived, payloadConnIndex, calls := 0, 0, 0, 0;
      output := [];
    }

    method ProcessSendPayload()
      requires Valid() && payloadMode && payloadReceived + 1 == payloadExpected
      modifies this
      ensures Valid() && lineLength == old(lineLength) && lineOverflow == old(lineOverflow)
      ensures !payloadMode && calls == old(calls) + 1
      ensures output == old(output) + [Called(SendPayload(old(payloadConnIndex), payloadBuffer[..old(payloadExpected)])),
                                       Line(AnswerLine(ops(old(calls)).err))]
    {
      var call := SendPayload(payloadConnIndex, payloadBuffer[..payloadExpected]);
      var err := ops(calls).err;
      output := output + [Called(call), Line(AnswerLine(err))];
      calls := calls + 1;
      payloadMode, payloadExpected, payloadReceived := false, 0, 0;
    }

    // tx_line, and emit_error_from_errno or the plain confirmation
    method TxLine(text: string)
      modifies this`output
      ensures output == old(output) + [Line(text)]
    {
      output := output + [Line(text)];
    }

    method EmitErrno(err: Errno)
      modifies this`output
      ensures output == old(output) + [Line(AnswerLine(err))]
    {
      match err {
        case Success => TxLine(OK_LINE);
        case Invalid => TxLine(INVALID_PARAMETERS);
        case NoEntry => TxLine(INVALID_PARAMETERS);
        case Range => TxLine(INVALID_PARAMETERS);
        case MsgSize => TxLine(INVALID_PARAMETERS);
        case _ => TxLine(FUNCTION_ERROR);
      }
    }

    method HandleGetStatus(a: Answer)
      modifies this`output
      ensures output == old(output) + Replies(GetStatus, a)
    {
      if a.mac == None {
        TxLine("+OK=NUM,0");
        return;
      }
      TxLine(Printed("0:" + a.mac.value + ",0,1," + Decimal(a.dataLen), 80));
      TxLine("+OK=NUM,1");
    }

    // The operation and what process_command says of its result.
    method Invoke(call: Call)
      modifies this`output, this`calls
      ensures calls == old(calls) + 1
      ensures output == old(output) + [Called(call)] + Replies(call, ops(old(calls)))
    {
      hide Printed, StatsLine, Joined, Decimal, AnswerLine;
      var a := ops(calls);
      output := output + [Called(call)];
      calls := calls + 1;
      match call {
        case GetStatus => HandleGetStatus(a);
        case GetProfile => TxLine(Printed("+OK=" + Joined(a.profile), 128));
        case GetMtu => TxLine(Printed("+OK=" + Decimal(a.mtu), 32));
        case GetStreamStats => TxLine(Printed(StatsLine(a.stats), 192));
        case EnterDataMode(_) =>
          EmitErrno(a.err);
          if a.err == Success {
            Entered(a.err);
            TxLine(ENTERED);
          }
        case _ => EmitErrno(a.err);
      }
    }

    // process_command on the terminated line buffer, which holds `text`; true for
    // AT_COMMAND_RESULT_ENTER_PAYLOAD.
    method ProcessCommand(ghost text: string) returns (enterPayload: bool)
      requires Valid() && !payloadMode && lineLength == 0 && !lineOverflow
      requires Holds(lineBuffer[..], 0, CStr(text)) && |CStr(text)| <= LINE_MAX
      modifies this
      ensures Valid() && Value() == Execute(ops, old(Value()), text)
      ensures enterPayload == payloadMode
    {
      SendLength(text);
      hide Parse, Replies, Holds, CStr;
      var command := ReadCommand(lineBuffer, text);
      match command {
        case Blank =>
        case Ping => TxLine(OK_LINE);
        case Wrong(line) => TxLine(line);
        case Send(index, length) =>
          payloadMode, payloadExpected, payloadReceived, payloadConnIndex := true, length, 0, index;
          output := output + [Raw(">")];
        case Op(call) => Invoke(call);
      }
      return payloadMode;
    }

    method EndOfLine(skip: bool) returns (skip': bool)
      requires Valid() && !payloadMode
      modifies this, lineBuffer
      ensures Valid()
      ensures Value() == EndLine(ops, old(Value()))
      ensures skip' == if !old(lineOverflow) && old(lineLength) > 0 then payloadMode else skip
    {
      hide Execute, CStr, Holds;
      var overflow := lineOverflow;
      ghost var line := lineBuffer[..lineLength];
      var length := lineLength;
      skip' := skip;
      lineBuffer[lineLength] := NUL;
      lineLength, lineOverflow := 0, false;
      ghost var s := Value();
      CutHolds(lineBuffer[..], line);
      if !overflow && length > 0 {
        skip' := ProcessCommand(line);
        ExecuteBuffer(ops, s, Buffer(line, false), line);
      } else if overflow {
        output := output + [Line(INVALID_COMMAND)];
      }
    }

    method RxByte(ch: char, skip: bool) returns (skip': bool)
      requires Valid()
      modifies this, lineBuffer, payloadBuffer
      ensures Valid()
      ensures Rx(Value(), skip') == OnByte(ops, Rx(old(Value()), skip), ch)
    {
      hide EndLine;
      skip' := skip;
      if payloadMode {
        if skip && payloadReceived == 0 && IsEol(ch) {
          return;
        }
        skip' := false;
        ghost var got := payloadBuffer[..payloadReceived];
        payloadBuffer[payloadReceived] := ch;
        assert payloadBuffer[..payloadReceived + 1] == got + [ch];
        if payloadReceived + 1 == payloadExpected {
          ProcessSendPayload();
        } else {
          payloadReceived := payloadReceived + 1;
        }
        return;
      }
      if IsEol(ch) {
        skip' := EndOfLine(skip);
        return;
      }
      if lineLength >= LINE_MAX {
        lineOverflow := true;
        return;
      }
      lineBuffer[lineLength] := ch;
      lineLength := lineLength + 1;
    }

    method RxBytes(data: string)
      requires Valid()
      modifies this, lineBuffer, payloadBuffer
      ensures Valid()
      ensures Value() == Receive(ops, old(Value()), data)
    {
      hide OnByte;
      var skip := false;
      for i := 0 to |data|
        invariant Valid()
        invariant OnBytes(ops, Rx(Value(), skip), data[i..]) == OnBytes(ops, Rx(old(Value()), false), data)
      {
        assert data[i..][1..] == data[i + 1..];
        skip := RxByte(data[i], skip);
      }
    }
  }

  lemma Entered(err: Errno)
    requires err == Success
    ensures AnswerLine(err) == OK_LINE
  {
  }

  // The C string in the buffer is that of the collected line.
  lemma CutHolds(buffer: seq<char>, line: string)
    requires |line| < |buffer| && buffer[..|line|] == line && buffer[|line|] == NUL
    ensures Holds(buffer, 0, CStr(line)) && |CStr(line)| <= |line|
  {
    CStrPrefix(line);
    var s := CStr(line);
    assert buffer[0..|s|] == line[..|s|];
    hide CStr;
  }

  // Clearing the line buffer first or last is the same.
  lemma ExecuteBuffer(ops: Ops, s: At, buffer: Buffer, line: string)
    requires s.buffer == EMPTY
    ensures Execute(ops, s, line) == Execute(ops, s.(buffer := buffer), line).(buffer := EMPTY)
  {
    hide Parse, Replies;
  }
}
