/** at_host.c: C strings, argument lists, and the dispatch of one command line. */
module AtCommands {
  import opened Common
  import opened Protocol

  const SEND_MAX: nat := 256

  // ---------- C strings ----------

  const NUL: char := '\0'

  /** The C string that starts at the front of `s`. */
  function CStr(s: string): string {
    if s == "" || s[0] == NUL then "" else [s[0]] + CStr(s[1..])
  }

  // isspace in the C locale.
  predicate IsSpace(c: char) {
    c == ' ' || 9 <= c as int <= 13
  }

  function TrimLeft(s: string): string {
    if s != "" && IsSpace(s[0]) then TrimLeft(s[1..]) else s
  }

  function TrimRight(s: string): string {
    if s != "" && IsSpace(s[|s| - 1]) then TrimRight(s[..|s| - 1]) else s
  }

  function Trim(s: string): string {
    TrimRight(TrimLeft(s))
  }

  function Upper(c: char): char {
    if 'a' <= c <= 'z' then (c as int - 32) as char else c
  }

  predicate EqualsIgnoreCase(a: string, b: string) {
    |a| == |b| && forall i | 0 <= i < |a| :: Upper(a[i]) == Upper(b[i])
  }

  predicate StartsWithIgnoreCase(text: string, prefix: string) {
    |prefix| <= |text| && forall i | 0 <= i < |prefix| :: Upper(text[i]) == Upper(prefix[i])
  }

  function CommaAt(s: string): (i: nat)
    ensures i <= |s| && (i < |s| ==> s[i] == ',')
    ensures forall j | 0 <= j < i :: s[j] != ','
  {
    if s == "" || s[0] == ',' then 0 else 1 + CommaAt(s[1..])
  }

  /** split_args: at most `max` arguments; a comma at the very end adds none, and what follows the last
      argument that fits is dropped. */
  function SplitArgs(text: string, max: nat): (args: seq<string>)
    ensures |args| <= max
  {
    if text == "" || max == 0 then []
    else
      var i := CommaAt(text);
      if i == |text| then [text] else [text[..i]] + SplitArgs(text[i + 1..], max - 1)
  }

  predicate IsDigit(c: char) {
    '0' <= c <= '9'
  }

  predicate AllDigits(s: string) {
    forall i | 0 <= i < |s| :: IsDigit(s[i])
  }

  function DigitsValue(s: string): nat
    requires AllDigits(s)
  {
    if s == "" then 0
    else
      assert IsDigit(s[|s| - 1]);
      DigitsValue(s[..|s| - 1]) * 10 + (s[|s| - 1] as int - '0' as int)
  }

  datatype Option<T> = None | Some(value: T)

  const ULONG_MAX: nat := 0xFFFF_FFFF

  /** parse_uint16_value: strtoul in base 10 with a 32-bit unsigned long, which skips white space, takes a
      sign and negates modulo 2^32, and saturates. */
  function ParseU16(text: string): Option<nat> {
    var body := TrimLeft(text);
    var signed := body != "" && (body[0] == '+' || body[0] == '-');
    var digits := if signed then body[1..] else body;
    if digits == "" || !AllDigits(digits) then None
    else
      var v := DigitsValue(digits);
      var parsed := if v > ULONG_MAX then ULONG_MAX
                    else if signed && body[0] == '-' && v > 0 then ULONG_MAX + 1 - v
                    else v;
      if parsed > 0xFFFF then None else Some(parsed)
  }

  // ---------- the operations of main.c ----------

  datatype Call =
    | StartScan(seconds: nat, filter: string)
    | Connect(mac: string, addrType: nat)
    | Disconnect(index: nat)
    | SendPayload(index: nat, data: string)
    | GetStatus
    | GetProfile
    | SetProfile(service: string, notify: string, write: string)
    | SetMtu(mtu: nat)
    | GetMtu
    | RequestMtu(index: nat)
    | SetConnParams(index: nat, minInterval: nat, maxInterval: nat, latency: nat, timeout: nat)
    | EnterDataMode(index: nat)
    | GetStreamStats

  /** What an operation answers; each call reads the fields it asks for. */
  datatype Answer = Answer(err: Errno, mac: Option<string>, dataLen: nat, profile: seq<string>, mtu: nat, stats: Stats)

  /** The answer to every call ever made, in order: an arbitrary main.c. */
  type Ops = nat -> Answer

  datatype Out = Line(text: string) | Raw(bytes: string) | Called(call: Call)

  // snprintk into a buffer of `size` characters.
  function Printed(text: string, size: nat): string
    requires size > 0
  {
    Fitting(text, size - 1)
  }

  function StatusLines(a: Answer): seq<Out> {
    match a.mac
    case None => [Line("+OK=NUM,0")]
    case Some(mac) => [Line(Printed("0:" + mac + ",0,1," + Decimal(a.dataLen), 80)), Line("+OK=NUM,1")]
  }

  function Joined(texts: seq<string>): string {
    if texts == [] then "" else if |texts| == 1 then texts[0] else texts[0] + "," + Joined(texts[1..])
  }

  function StatsLine(s: Stats): string {
    "+OK=" + StatsFields(s)
  }

  function StatsFields(s: Stats): string {
    "H2B," + Decimal(s.hostToBle) + ",B2H," + Decimal(s.bleToHost) + ",WOP," + Decimal(s.writeOps) +
    ",NOP," + Decimal(s.notifyOps) + ",BP," + Decimal(s.backpressure) + ",MAXTX," + Decimal(s.maxHostToBle) +
    ",MAXRX," + Decimal(s.maxBleToHost) + ",ENT," + Decimal(s.entries) +
    ",UDISC," + Decimal(s.unexpectedDisconnects)
  }

  // ---------- dispatch ----------

  /** A parsed command. */
  datatype Command =
    | Blank
    | Ping
    | Op(call: Call)
    | Send(index: nat, length: nat)
    | Wrong(line: string)

  function WithArgs(text: string, prefix: string, max: nat): seq<string>
    requires |prefix| <= |text|
  {
    SplitArgs(text[|prefix|..], max)
  }

  function IndexCommand(text: string, prefix: string, make: nat -> Call): Command
    requires |prefix| <= |text|
  {
    match ParseU16(text[|prefix|..])
    case Some(v) => if v > 255 then Wrong(INVALID_PARAMETERS) else Op(make(v))
    case None => Wrong(INVALID_PARAMETERS)
  }

  function ScanCommand(args: seq<string>): Command {
    if args == [] then Wrong(INVALID_PARAMETERS)
    else
      match ParseU16(args[0])
      case None => Wrong(INVALID_PARAMETERS)
      case Some(v) =>
        if v == 0 then Wrong(INVALID_PARAMETERS)
        else Op(StartScan(v, if |args| >= 2 then args[1] else ""))
  }

  function ConnectCommand(args: seq<string>): Command {
    if |args| != 2 then Wrong(INVALID_PARAMETERS)
    else
      match ParseU16(args[1])
      case None => Wrong(INVALID_PARAMETERS)
      case Some(v) => if v > 3 then Wrong(INVALID_PARAMETERS) else Op(Connect(args[0], v))
  }

  function SendCommand(args: seq<string>): Command {
    if |args| != 2 then Wrong(INVALID_PARAMETERS)
    else
      match (ParseU16(args[0]), ParseU16(args[1]))
      case (Some(index), Some(length)) =>
        if index > 255 || length == 0 || length > SEND_MAX then Wrong(INVALID_PARAMETERS) else Send(index, length)
      case _ => Wrong(INVALID_PARAMETERS)
  }

  function ParamsCommand(args: seq<string>): Command {
    if |args| != 5 then Wrong(INVALID_PARAMETERS)
    else
      match (ParseU16(args[0]), ParseU16(args[1]), ParseU16(args[2]), ParseU16(args[3]), ParseU16(args[4]))
      case (Some(i), Some(a), Some(b), Some(c), Some(d)) =>
        if i > 255 then Wrong(INVALID_PARAMETERS) else Op(SetConnParams(i, a, b, c, d))
      case _ => Wrong(INVALID_PARAMETERS)
  }

  /** process_command up to the call it makes: which command a line is. */
  function Parse(line: string): Command {
    var w := Trim(CStr(line));
    if w == "" then Blank else ParseTrimmed(w)
  }

  // The chain of comparisons.
  function ParseTrimmed(w: string): Command {
    if EqualsIgnoreCase(w, "AT") then Ping
    else if StartsWithIgnoreCase(w, "AT+STARTSCAN=") then ScanCommand(WithArgs(w, "AT+STARTSCAN=", 5))
    else if StartsWithIgnoreCase(w, "AT+STARTCON=") then ConnectCommand(WithArgs(w, "AT+STARTCON=", 5))
    else if StartsWithIgnoreCase(w, "AT+DISCON=") then IndexCommand(w, "AT+DISCON=", (v: nat) => Disconnect(v))
    else if StartsWithIgnoreCase(w, "AT+SEND=") then SendCommand(WithArgs(w, "AT+SEND=", 5))
    else if EqualsIgnoreCase(w, "AT+CONSTATUS") then Op(GetStatus)
    else if StartsWithIgnoreCase(w, "AT+SETSVCUUID=") then
      var args := WithArgs(w, "AT+SETSVCUUID=", 5);
      if |args| != 3 then Wrong(INVALID_PARAMETERS) else Op(SetProfile(args[0], args[1], args[2]))
    else ParseRest(w)
  }

  // The second half of the chain.
  function ParseRest(w: string): Command {
    if EqualsIgnoreCase(w, "AT+GETSVCUUID") then Op(GetProfile)
    else if StartsWithIgnoreCase(w, "AT+SETMTU=") then
      (match ParseU16(w[|"AT+SETMTU="|..]) case Some(v) => Op(SetMtu(v)) case None => Wrong(INVALID_PARAMETERS))
    else if EqualsIgnoreCase(w, "AT+GETMTU") then Op(GetMtu)
    else if StartsWithIgnoreCase(w, "AT+CONMTUREQ=") then IndexCommand(w, "AT+CONMTUREQ=", (v: nat) => RequestMtu(v))
    else if StartsWithIgnoreCase(w, "AT+CONPARAREQ=") then ParamsCommand(WithArgs(w, "AT+CONPARAREQ=", 5))
    else if StartsWithIgnoreCase(w, "AT+ENTERDATAMODE=") then
      IndexCommand(w, "AT+ENTERDATAMODE=", (v: nat) => EnterDataMode(v))
    else if EqualsIgnoreCase(w, "AT+STREAMSTAT") then Op(GetStreamStats)
    else if StartsWithIgnoreCase(w, "AT+") then Wrong(FUNCTION_ERROR)
    else Wrong(INVALID_COMMAND)
  }

  /** The lines a call is answered with. */
  function Replies(call: Call, a: Answer): seq<Out> {
    match call
    case GetStatus => StatusLines(a)
    case GetProfile => [Line(Printed("+OK=" + Joined(a.profile), 128))]
    case GetMtu => [Line(Printed("+OK=" + Decimal(a.mtu), 32))]
    case GetStreamStats => [Line(Printed(StatsLine(a.stats), 192))]
    case EnterDataMode(_) => if a.err == Success then [Line(OK_LINE), Line(ENTERED)] else [Line(AnswerLine(a.err))]
    case _ => [Line(AnswerLine(a.err))]
  }

  // ---------- properties ----------

  lemma {:induction false} CStrPrefix(s: string)
    ensures CStr(s) <= s && NUL !in CStr(s)
    ensures |CStr(s)| < |s| ==> s[|CStr(s)|] == NUL
    decreases |s|
  {
    if s != "" && s[0] != NUL {
      CStrPrefix(s[1..]);
    }
  }

  lemma {:induction false} CStrSame(s: string)
    requires NUL !in s
    ensures CStr(s) == s
    decreases |s|
  {
    if s != "" {
      CStrSame(s[1..]);
    }
  }

  /** A response that ends a command. */
  predicate Final(o: Out) {
    o.Line? && ("+OK" <= o.text || "+ERR" <= o.text)
  }

  function Finals(outs: seq<Out>): nat {
    if outs == [] then 0 else Finals(outs[..|outs| - 1]) + (if Final(outs[|outs| - 1]) then 1 else 0)
  }

  lemma {:induction false} FinalsConcat(a: seq<Out>, b: seq<Out>)
    ensures Finals(a + b) == Finals(a) + Finals(b)
    decreases |b|
  {
    if b == [] {
      assert a + b == a;
    } else {
      assert (a + b)[..|a + b| - 1] == a + b[..|b| - 1];
      FinalsConcat(a, b[..|b| - 1]);
    }
  }

  lemma FinalsOne(o: Out)
    ensures Finals([o]) == if Final(o) then 1 else 0
  {
    assert [o][..0] == [];
  }

  lemma FinalsTwo(o: Out, p: Out)
    ensures Finals([o, p]) == (if Final(o) then 1 else 0) + (if Final(p) then 1 else 0)
  {
    FinalsOne(o);
    FinalsOne(p);
    FinalsConcat([o], [p]);
    assert [o] + [p] == [o, p];
  }

  lemma StartsOk(rest: string, size: nat)
    requires size > 4
    ensures Final(Line(Printed("+OK=" + rest, size)))
  {
  }

  /** Every call but that of AT+SEND's payload, and that one too, is answered by exactly one final response. */
  lemma RepliesFinal(call: Call, a: Answer)
    ensures Finals(Replies(call, a)) == 1
  {
    match call {
      case GetStatus =>
        match a.mac {
          case None => FinalsOne(Line("+OK=NUM,0"));
          case Some(mac) => StatusFinal(mac, a.dataLen);
        }
      case GetProfile => StartsOk(Joined(a.profile), 128); FinalsOne(Replies(call, a)[0]);
      case GetMtu => StartsOk(Decimal(a.mtu), 32); FinalsOne(Replies(call, a)[0]);
      case GetStreamStats => StatsFinal(a.stats);
      case EnterDataMode(_) =>
        assert !("+OK" <= ENTERED) && !("+ERR" <= ENTERED) by { assert ENTERED[1] == 'I'; }
        FinalsTwo(Line(OK_LINE), Line(ENTERED));
        AnswerFinal(a.err);
      case _ => AnswerFinal(a.err);
    }
  }

  lemma AnswerFinal(e: Errno)
    ensures Finals([Line(AnswerLine(e))]) == 1
  {
    FinalsOne(Line(AnswerLine(e)));
  }

  lemma StatusFinal(mac: string, dataLen: nat)
    ensures Finals([Line(Printed("0:" + mac + ",0,1," + Decimal(dataLen), 80)), Line("+OK=NUM,1")]) == 1
  {
    hide Decimal;
    var text := Printed("0:" + mac + ",0,1," + Decimal(dataLen), 80);
    assert text[0] == '0';
    FinalsTwo(Line(text), Line("+OK=NUM,1"));
  }

  lemma StatsFinal(s: Stats)
    ensures Finals([Line(Printed(StatsLine(s), 192))]) == 1
  {
    hide StatsFields;
    StartsOk(StatsFields(s), 192);
    FinalsOne(Line(Printed(StatsLine(s), 192)));
  }
}
