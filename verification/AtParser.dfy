/** at_host.c: the byte parser of control mode, and the lines and payloads it stands for. */
module AtParser {
  import opened Common
  import opened Protocol
  import opened AtCommands

  const LINE_MAX: nat := 159   // the line buffer, less its terminator

  datatype Payload = NoPayload | Collecting(index: nat, expected: nat, got: string)

  datatype Buffer = Buffer(line: string, overflow: bool)

  /** The parser between two calls: the line or the payload being collected, how many operations were called,
      and what was put out. */
  datatype At = At(buffer: Buffer, payload: Payload, calls: nat, out: seq<Out>)

  const EMPTY := Buffer("", false)

  function Put(s: At, outs: seq<Out>): At {
    s.(out := s.out + outs)
  }

  /** process_command: the effect of one line. */
  function Execute(ops: Ops, s: At, line: string): At {
    match Parse(line)
    case Blank => s
    case Ping => Put(s, [Line(OK_LINE)])
    case Wrong(text) => Put(s, [Line(text)])
    case Send(index, length) => Put(s, [Raw(">")]).(payload := Collecting(index, length, ""))
    case Op(call) => Put(s, [Called(call)] + Replies(call, ops(s.calls))).(calls := s.calls + 1)
  }

  /** process_send_payload. */
  function Deliver(ops: Ops, s: At, index: nat, data: string): At {
    Put(s, [Called(SendPayload(index, data)), Line(AnswerLine(ops(s.calls).err))])
      .(payload := NoPayload, calls := s.calls + 1)
  }

  /** A line ending outside a payload. */
  function EndLine(ops: Ops, s: At): At {
    var s1 := if s.buffer.overflow then Put(s, [Line(INVALID_COMMAND)])
              else if s.buffer.line != "" then Execute(ops, s, s.buffer.line)
              else s;
    s1.(buffer := EMPTY)
  }

  /** The parser and the local flag of at_host_rx_bytes. */
  datatype Rx = Rx(s: At, skip: bool)

  function OnByte(ops: Ops, r: Rx, ch: char): Rx {
    match r.s.payload
    case Collecting(index, expected, got) =>
      if r.skip && got == "" && IsEol(ch) then r
      else if |got| + 1 == expected then Rx(Deliver(ops, r.s, index, got + [ch]), false)
      else Rx(r.s.(payload := Collecting(index, expected, got + [ch])), false)
    case NoPayload =>
      if IsEol(ch) then
        var s1 := EndLine(ops, r.s);
        Rx(s1, if !r.s.buffer.overflow && r.s.buffer.line != "" then s1.payload.Collecting? else r.skip)
      else if |r.s.buffer.line| >= LINE_MAX then Rx(r.s.(buffer := r.s.buffer.(overflow := true)), r.skip)
      else Rx(r.s.(buffer := r.s.buffer.(line := r.s.buffer.line + [ch])), r.skip)
  }

  function OnBytes(ops: Ops, r: Rx, bytes: string): Rx
    decreases |bytes|
  {
    if bytes == "" then r else OnBytes(ops, OnByte(ops, r, bytes[0]), bytes[1..])
  }

  /** One call of at_host_rx_bytes. */
  function Receive(ops: Ops, s: At, bytes: string): At {
    OnBytes(ops, Rx(s, false), bytes).s
  }

  /** The buffers stay inside their arrays, and the flag is only up before the first payload byte. */
  predicate Within(r: Rx) {
    && |r.s.buffer.line| <= LINE_MAX
    && (r.s.buffer.overflow ==> |r.s.buffer.line| == LINE_MAX)
    && (r.s.payload.Collecting? ==> |r.s.payload.got| < r.s.payload.expected <= SEND_MAX && r.s.buffer == EMPTY)
    && (r.skip ==> r.s.payload.Collecting? && r.s.payload.got == "")
  }

  // ---------- bounds ----------

  lemma SendLength(line: string)
    ensures Parse(line).Send? ==> 1 <= Parse(line).length <= SEND_MAX
  {
    hide CStr, Trim, EqualsIgnoreCase, StartsWithIgnoreCase, SplitArgs, ParseU16;
  }

  lemma WithinByte(ops: Ops, r: Rx, ch: char)
    requires Within(r)
    ensures Within(OnByte(ops, r, ch))
  {
    hide Parse;
    SendLength(r.s.buffer.line);
  }

  lemma {:induction false} WithinBytes(ops: Ops, r: Rx, bytes: string)
    requires Within(r)
    ensures Within(OnBytes(ops, r, bytes))
    decreases |bytes|
  {
    hide OnByte, Within;
    if bytes != "" {
      WithinByte(ops, r, bytes[0]);
      WithinBytes(ops, OnByte(ops, r, bytes[0]), bytes[1..]);
    }
  }

  lemma {:induction false} OnBytesSplit(ops: Ops, r: Rx, a: string, b: string)
    ensures OnBytes(ops, r, a + b) == OnBytes(ops, OnBytes(ops, r, a), b)
    decreases |a|
  {
    hide OnByte;
    if a == "" {
      assert a + b == b;
    } else {
      assert (a + b)[1..] == a[1..] + b;
      OnBytesSplit(ops, OnByte(ops, r, a[0]), a[1..], b);
    }
  }
}
