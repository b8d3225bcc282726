/** at_host.c: process_command up to the call it makes, over its working copy of the line. */
module AtDispatch {
  import opened Common
  import opened Protocol
  import opened AtCommands
  import opened AtParser
  import opened AtText

  // The tail of a C string is one.
  lemma HoldsFrom(text: seq<char>, s: string, from: nat)
    requires Holds(text, 0, s) && from <= |s|
    ensures Holds(text, from, s[from..]) && Terminated(text, from) && CStr(text[from..]) == s[from..]
  {
    assert text[from..|s|] == text[0..|s|][from..];
    HoldsCStr(text, from, s[from..]);
    assert text[from..][|s| - from] == NUL;
  }

  /** equals_ignore_case. */
  method EqualsText(text: array<char>, other: string, ghost w: string) returns (b: bool)
    requires Holds(text[..], 0, w) && NUL !in other
    ensures b == EqualsIgnoreCase(w, other)
  {
    HoldsAt(text[..], 0, w);
    var i := 0;
    while text[i] != NUL && i < |other|
      invariant i <= |w| && i <= |other| && forall j | 0 <= j < i :: Upper(w[j]) == Upper(other[j])
      decreases |other| - i
    {
      if Upper(text[i]) != Upper(other[i]) {
        return false;
      }
      i := i + 1;
    }
    b := text[i] == NUL && i == |other|;
  }

  /** starts_with_ignore_case. */
  method StartsText(text: array<char>, prefix: string, ghost w: string) returns (b: bool)
    requires Holds(text[..], 0, w) && NUL !in prefix
    ensures b == StartsWithIgnoreCase(w, prefix)
  {
    HoldsAt(text[..], 0, w);
    var i := 0;
    while i < |prefix|
      invariant i <= |w| && i <= |prefix| && forall j | 0 <= j < i :: Upper(w[j]) == Upper(prefix[j])
    {
      if text[i] == NUL || Upper(text[i]) != Upper(prefix[i]) {
        return false;
      }
      i := i + 1;
    }
    b := true;
  }

  // The C string at a place, and the number it is; strtoul is ParseU16.
  method TextAt(text: array<char>, at: nat, ghost s: string) returns (r: string)
    requires Holds(text[..], at, s)
    ensures r == s
  {
    HoldsCStr(text[..], at, s);
    assert text[..][at..][|s|] == NUL;
    assert text[..][at..] == text[at..];
    var n := StrLen(text, at);
    r := text[at..at + n];
    assert text[..][at..at + n] == r;
  }

  method NumberAt(text: array<char>, at: nat, ghost s: string) returns (v: Option<nat>)
    requires Holds(text[..], at, s)
    ensures v == ParseU16(s)
  {
    var r := TextAt(text, at, s);
    v := ParseU16(r);
  }

  // snprintk of the line into the working array.
  method CopyLine(line: array<char>, ghost s: string) returns (working: array<char>)
    requires Holds(line[..], 0, s) && |s| <= LINE_MAX
    ensures fresh(working) && working.Length == LINE_MAX + 1 && Holds(working[..], 0, s)
  {
    working := new char[LINE_MAX + 1];
    HoldsAt(line[..], 0, s);
    var i := 0;
    while line[i] != NUL
      invariant i <= |s| && working.Length == LINE_MAX + 1 && working[..i] == s[..i]
      decreases |s| - i
    {
      working[i] := line[i];
      i := i + 1;
    }
    working[i] := NUL;
    assert working[..][0..0 + |s|] == s;
  }

  // split_args on what follows the verb.
  method Arguments(working: array<char>, from: nat, ghost w: string) returns (args: seq<nat>)
    requires Holds(working[..], 0, w) && from <= |w|
    modifies working
    ensures Split(working[..], args, SplitArgs(w[from..], 5), working.Length)
  {
    HoldsFrom(working[..], w, from);
    args := SplitInPlace(working, from, 5);
  }

  lemma SplitHas(text: seq<char>, args: seq<nat>, done: seq<string>, cursor: nat, k: nat)
    requires Split(text, args, done, cursor) && k < |done|
    ensures |args| == |done| && Holds(text, args[k], done[k])
  {
  }

  lemma SplitCount(text: seq<char>, args: seq<nat>, done: seq<string>, cursor: nat)
    requires Split(text, args, done, cursor)
    ensures |args| == |done|
  {
  }

  method ReadScan(working: array<char>, from: nat, ghost w: string) returns (c: Command)
    requires Holds(working[..], 0, w) && from <= |w|
    modifies working
    ensures c == ScanCommand(SplitArgs(w[from..], 5))
  {
    hide Split, Holds, SplitArgs, ParseU16;
    ghost var done := SplitArgs(w[from..], 5);
    var args := Arguments(working, from, w);
    SplitCount(working[..], args, done, working.Length);
    if |args| == 0 {
      return Wrong(INVALID_PARAMETERS);
    }
    SplitHas(working[..], args, done, working.Length, 0);
    var seconds := NumberAt(working, args[0], done[0]);
    if seconds == None || seconds.value == 0 {
      return Wrong(INVALID_PARAMETERS);
    }
    var filter := "";
    if |args| >= 2 {
      SplitHas(working[..], args, done, working.Length, 1);
      filter := TextAt(working, args[1], done[1]);
    }
    c := Op(StartScan(seconds.value, filter));
  }

  method ReadConnect(working: array<char>, from: nat, ghost w: string) returns (c: Command)
    requires Holds(working[..], 0, w) && from <= |w|
    modifies working
    ensures c == ConnectCommand(SplitArgs(w[from..], 5))
  {
    hide Split, Holds, SplitArgs, ParseU16;
    ghost var done := SplitArgs(w[from..], 5);
    var args := Arguments(working, from, w);
    SplitCount(working[..], args, done, working.Length);
    if |args| != 2 {
      return Wrong(INVALID_PARAMETERS);
    }
    SplitHas(working[..], args, done, working.Length, 0);
    SplitHas(working[..], args, done, working.Length, 1);
    var addrType := NumberAt(working, args[1], done[1]);
    if addrType == None || addrType.value > 3 {
      return Wrong(INVALID_PARAMETERS);
    }
    var mac := TextAt(working, args[0], done[0]);
    c := Op(Connect(mac, addrType.value));
  }

  method ReadSend(working: array<char>, from: nat, ghost w: string) returns (c: Command)
    requires Holds(working[..], 0, w) && from <= |w|
    modifies working
    ensures c == SendCommand(SplitArgs(w[from..], 5))
  {
    hide Split, Holds, SplitArgs, ParseU16;
    ghost var done := SplitArgs(w[from..], 5);
    var args := Arguments(working, from, w);
    SplitCount(working[..], args, done, working.Length);
    if |args| != 2 {
      return Wrong(INVALID_PARAMETERS);
    }
    SplitHas(working[..], args, done, working.Length, 0);
    SplitHas(working[..], args, done, working.Length, 1);
    var index := NumberAt(working, args[0], done[0]);
    var length := NumberAt(working, args[1], done[1]);
    if index == None || length == None || index.value > 255 || length.value == 0 || length.value > SEND_MAX {
      return Wrong(INVALID_PARAMETERS);
    }
    c := Send(index.value, length.value);
  }

  method ReadProfile(working: array<char>, from: nat, ghost w: string) returns (c: Command)
    requires Holds(working[..], 0, w) && from <= |w|
    modifies working
    ensures c == var args := SplitArgs(w[from..], 5);
                 if |args| != 3 then Wrong(INVALID_PARAMETERS) else Op(SetProfile(args[0], args[1], args[2]))
  {
    hide Split, Holds, SplitArgs;
    ghost var done := SplitArgs(w[from..], 5);
    var args := Arguments(working, from, w);
    SplitCount(working[..], args, done, working.Length);
    if |args| != 3 {
      return Wrong(INVALID_PARAMETERS);
    }
    SplitHas(working[..], args, done, working.Length, 0);
    SplitHas(working[..], args, done, working.Length, 1);
    SplitHas(working[..], args, done, working.Length, 2);
    var service := TextAt(working, args[0], done[0]);
    var notify := TextAt(working, args[1], done[1]);
    var write := TextAt(working, args[2], done[2]);
    c := Op(SetProfile(service, notify, write));
  }

  method ReadParams(working: array<char>, from: nat, ghost w: string) returns (c: Command)
    requires Holds(working[..], 0, w) && from <= |w|
    modifies working
    ensures c == ParamsCommand(SplitArgs(w[from..], 5))
  {
    hide Split, Holds, SplitArgs, ParseU16;
    ghost var done := SplitArgs(w[from..], 5);
    var args := Arguments(working, from, w);
    SplitCount(working[..], args, done, working.Length);
    if |args| != 5 {
      return Wrong(INVALID_PARAMETERS);
    }
    AllHold(working[..], args, done, working.Length);
    var index := NumberAt(working, args[0], done[0]);
    var minInterval := NumberAt(working, args[1], done[1]);
    var maxInterval := NumberAt(working, args[2], done[2]);
    var latency := NumberAt(working, args[3], done[3]);
    var timeout := NumberAt(working, args[4], done[4]);
    if index == None || minInterval == None || maxInterval == None || latency == None || timeout == None ||
       index.value > 255 {
      return Wrong(INVALID_PARAMETERS);
    }
    c := Op(SetConnParams(index.value, minInterval.value, maxInterval.value, latency.value, timeout.value));
  }

  lemma AllHold(text: seq<char>, args: seq<nat>, done: seq<string>, cursor: nat)
    requires Split(text, args, done, cursor)
    ensures |args| == |done| && forall k | 0 <= k < |done| :: Holds(text, args[k], done[k])
  {
  }

  // The number after the verb.
  method ReadNumber(working: array<char>, from: nat, ghost w: string) returns (v: Option<nat>)
    requires Holds(working[..], 0, w) && from <= |w|
    ensures v == ParseU16(w[from..])
  {
    HoldsFrom(working[..], w, from);
    v := NumberAt(working, from, w[from..]);
  }

  // A command with one connection index after its verb, and AT+SETMTU.
  method ReadIndexed(working: array<char>, from: nat, ghost w: string, make: nat -> Call) returns (c: Command)
    requires Holds(working[..], 0, w) && from <= |w|
    ensures c == match ParseU16(w[from..])
                 case Some(v) => if v > 255 then Wrong(INVALID_PARAMETERS) else Op(make(v))
                 case None => Wrong(INVALID_PARAMETERS)
  {
    hide Holds;
    var v := ReadNumber(working, from, w);
    if v == None || v.value > 255 {
      return Wrong(INVALID_PARAMETERS);
    }
    c := Op(make(v.value));
  }

  method ReadMtu(working: array<char>, from: nat, ghost w: string) returns (c: Command)
    requires Holds(working[..], 0, w) && from <= |w|
    ensures c == match ParseU16(w[from..]) case Some(v) => Op(SetMtu(v)) case None => Wrong(INVALID_PARAMETERS)
  {
    hide Holds;
    var v := ReadNumber(working, from, w);
    if v == None {
      return Wrong(INVALID_PARAMETERS);
    }
    c := Op(SetMtu(v.value));
  }

  /** The second half of the chain of comparisons. */
  method ReadRest(working: array<char>, ghost w: string) returns (c: Command)
    requires Holds(working[..], 0, w)
    modifies working
    ensures c == ParseRest(w)
  {
    hide Holds, ParseU16, SplitArgs, ParamsCommand, EqualsIgnoreCase;
    var b := EqualsText(working, "AT+GETSVCUUID", w);
    if b {
      return Op(GetProfile);
    }
    b := StartsText(working, "AT+SETMTU=", w);
    if b {
      c := ReadMtu(working, |"AT+SETMTU="|, w);
      return;
    }
    b := EqualsText(working, "AT+GETMTU", w);
    if b {
      return Op(GetMtu);
    }
    b := StartsText(working, "AT+CONMTUREQ=", w);
    if b {
      c := ReadIndexed(working, |"AT+CONMTUREQ="|, w, (v: nat) => RequestMtu(v));
      return;
    }
    b := StartsText(working, "AT+CONPARAREQ=", w);
    if b {
      c := ReadParams(working, |"AT+CONPARAREQ="|, w);
      return;
    }
    b := StartsText(working, "AT+ENTERDATAMODE=", w);
    if b {
      c := ReadIndexed(working, |"AT+ENTERDATAMODE="|, w, (v: nat) => EnterDataMode(v));
      return;
    }
    b := EqualsText(working, "AT+STREAMSTAT", w);
    if b {
      return Op(GetStreamStats);
    }
    b := StartsText(working, "AT+", w);
    c := Wrong(if b then FUNCTION_ERROR else INVALID_COMMAND);
  }

  // Its first half.
  method ReadVerb(working: array<char>, ghost w: string) returns (c: Command)
    requires Holds(working[..], 0, w) && w != ""
    modifies working
    ensures c == ParseTrimmed(w)
  {
    hide Holds, ParseU16, SplitArgs, ParseRest, ScanCommand, ConnectCommand, SendCommand, EqualsIgnoreCase;
    var b := EqualsText(working, "AT", w);
    if b {
      return Ping;
    }
    b := StartsText(working, "AT+STARTSCAN=", w);
    if b {
      c := ReadScan(working, |"AT+STARTSCAN="|, w);
      return;
    }
    b := StartsText(working, "AT+STARTCON=", w);
    if b {
      c := ReadConnect(working, |"AT+STARTCON="|, w);
      return;
    }
    b := StartsText(working, "AT+DISCON=", w);
    if b {
      c := ReadIndexed(working, |"AT+DISCON="|, w, (v: nat) => Disconnect(v));
      return;
    }
    b := StartsText(working, "AT+SEND=", w);
    if b {
      c := ReadSend(working, |"AT+SEND="|, w);
      return;
    }
    b := EqualsText(working, "AT+CONSTATUS", w);
    if b {
      return Op(GetStatus);
    }
    b := StartsText(working, "AT+SETSVCUUID=", w);
    if b {
      c := ReadProfile(working, |"AT+SETSVCUUID="|, w);
      return;
    }
    c := ReadRest(working, w);
  }

  /** process_command: the line is copied, trimmed in place, its verb compared and its arguments split in
      place.  What comes out is the command that the line is. */
  method ReadCommand(line: array<char>, ghost text: string) returns (c: Command)
    requires Holds(line[..], 0, CStr(text)) && |CStr(text)| <= LINE_MAX
    ensures c == Parse(text)
  {
    ghost var s := CStr(text);
    var working := CopyLine(line, s);
    HoldsFrom(working[..], s, 0);
    assert s[0..] == s && working[..][0..] == working[..];
    TrimWhitespace(working);
    ghost var w := Trim(s);
    HoldsAt(working[..], 0, w);
    hide Holds, CStr, Trim, TrimLeft, TrimRight;
    if working[0] == NUL {
      return Blank;
    }
    c := ReadVerb(working, w);
  }
}
