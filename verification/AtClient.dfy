/** The commands of ble_at.py against their reading by at_host.c. */
module AtClient {
  import opened Common
  import opened Protocol
  import opened AtCommands
  import opened AtParser
  import opened AtChunks
  import opened AtReads

  // ---------- numbers ----------

  lemma {:induction false} DecimalDigits(n: nat)
    ensures Decimal(n) != "" && forall i | 0 <= i < |Decimal(n)| :: IsDigit(Decimal(n)[i])
    ensures DigitsValue(Decimal(n)) == n
    decreases n
  {
    var s := Decimal(n);
    if n >= 10 {
      DecimalDigits(n / 10);
      assert s[..|s| - 1] == Decimal(n / 10);
    } else {
      assert s[..0] == "";
    }
  }

  /** A printed number is read back if and only if it fits in 16 bits; otherwise it is refused. */
  lemma NumberRoundTrip(n: nat)
    ensures ParseU16(Decimal(n)) == if n <= 0xFFFF then Some(n) else None
  {
    DecimalDigits(n);
    assert IsDigit(Decimal(n)[0]);
    hide Decimal, DigitsValue;
  }

  // ---------- arguments ----------

  predicate NoComma(s: string) {
    ',' !in s
  }

  lemma SplitOne(s: string, max: nat)
    requires max > 0 && NoComma(s) && s != ""
    ensures SplitArgs(s, max) == [s]
  {
  }

  lemma SplitFirst(s: string, rest: string, max: nat)
    requires max > 0 && NoComma(s)
    ensures SplitArgs(s + "," + rest, max) == [s] + SplitArgs(rest, max - 1)
  {
    var t := s + "," + rest;
    assert t[|s|] == ',';
    assert forall j | 0 <= j < |s| :: t[j] == s[j];
    assert CommaAt(t) == |s|;
    assert t[..|s|] == s && t[|s| + 1..] == rest;
  }

  lemma {:induction false} PiecesNoComma(text: string, max: nat)
    ensures forall i | 0 <= i < |SplitArgs(text, max)| :: NoComma(SplitArgs(text, max)[i])
    decreases max
  {
    if text != "" && max > 0 {
      var i := CommaAt(text);
      if i < |text| {
        PiecesNoComma(text[i + 1..], max - 1);
      }
    }
  }

  predicate AllNoComma(args: seq<string>) {
    forall i | 0 <= i < |args| :: NoComma(args[i])
  }

  lemma JoinedFirst(args: seq<string>)
    requires |args| > 0
    ensures Joined(args) == if |args| == 1 then args[0] else args[0] + "," + Joined(args[1..])
  {
  }

  lemma Snoc(first: string, rest: seq<string>)
    requires rest != []
    ensures ([first] + rest)[..|rest|] == [first] + rest[..|rest| - 1]
  {
  }

  lemma SplitNone(max: nat)
    ensures SplitArgs("", max) == []
  {
  }

  lemma {:induction false} JoinedSplits(args: seq<string>, max: nat)
    requires 0 < |args| <= max && AllNoComma(args)
    ensures SplitArgs(Joined(args), max) == if args[|args| - 1] == "" then args[..|args| - 1] else args
    decreases |args|
  {
    hide SplitArgs, Joined;
    JoinedFirst(args);
    if |args| > 1 {
      var rest := args[1..];
      assert args == [args[0]] + rest;
      JoinedSplits(rest, max - 1);
      hide AllNoComma;
      SplitFirst(args[0], Joined(rest), max);
      Snoc(args[0], rest);
    } else if args[0] != "" {
      SplitOne(args[0], max);
    } else {
      SplitNone(max);
    }
  }

  /** Joining arguments with commas and splitting gives them back if and only if none contains a comma and the
      last is not empty. */
  lemma SplitJoined(args: seq<string>, max: nat)
    requires 0 < |args| <= max
    ensures SplitArgs(Joined(args), max) == args <==> AllNoComma(args) && args[|args| - 1] != ""
  {
    hide SplitArgs, Joined;
    PiecesNoComma(Joined(args), max);
    if AllNoComma(args) {
      JoinedSplits(args, max);
    }
  }

  // ---------- command lines ----------

  /** A line that process_command takes as it is: no terminator inside, no white space around. */
  predicate Tidy(w: string) {
    w != "" && NUL !in w && !IsSpace(w[0]) && !IsSpace(w[|w| - 1])
  }

  lemma TidyTrim(w: string)
    requires Tidy(w)
    ensures Trim(CStr(w)) == w
  {
    CStrSame(w);
  }

  lemma Lacks(w: string, verb: string, i: nat)
    requires i < |w| && i < |verb| && Upper(w[i]) != Upper(verb[i])
    ensures !StartsWithIgnoreCase(w, verb) && !EqualsIgnoreCase(w, verb)
  {
  }

  lemma HasVerb(verb: string, rest: string)
    ensures var w := verb + rest;
            && StartsWithIgnoreCase(w, verb) && (rest == "" ==> EqualsIgnoreCase(w, verb))
            && w[|verb|..] == rest && forall i | 0 <= i < |verb| :: w[i] == verb[i]
  {
  }

  lemma NotPing(w: string)
    requires |w| > 2
    ensures !EqualsIgnoreCase(w, "AT")
  {
  }

  // The verbs by the letter after `AT+`.
  lemma NoneOfS(w: string)
    requires |w| > 3 && Upper(w[3]) != 'S'
    ensures !StartsWithIgnoreCase(w, "AT+STARTSCAN=") && !StartsWithIgnoreCase(w, "AT+STARTCON=")
    ensures !StartsWithIgnoreCase(w, "AT+SEND=") && !StartsWithIgnoreCase(w, "AT+SETSVCUUID=")
    ensures !StartsWithIgnoreCase(w, "AT+SETMTU=")
  {
    Lacks(w, "AT+STARTSCAN=", 3);
    Lacks(w, "AT+STARTCON=", 3);
    Lacks(w, "AT+SEND=", 3);
    Lacks(w, "AT+SETSVCUUID=", 3);
    Lacks(w, "AT+SETMTU=", 3);
  }

  lemma NoneOfCDG(w: string)
    requires |w| > 3
    ensures Upper(w[3]) != 'C' ==> !EqualsIgnoreCase(w, "AT+CONSTATUS") && !StartsWithIgnoreCase(w, "AT+CONMTUREQ=") &&
                                   !StartsWithIgnoreCase(w, "AT+CONPARAREQ=")
    ensures Upper(w[3]) != 'D' ==> !StartsWithIgnoreCase(w, "AT+DISCON=")
    ensures Upper(w[3]) != 'G' ==> !EqualsIgnoreCase(w, "AT+GETSVCUUID") && !EqualsIgnoreCase(w, "AT+GETMTU")
    ensures Upper(w[3]) != 'E' ==> !StartsWithIgnoreCase(w, "AT+ENTERDATAMODE=")
  {
    if Upper(w[3]) != 'C' {
      Lacks(w, "AT+CONSTATUS", 3);
      Lacks(w, "AT+CONMTUREQ=", 3);
      Lacks(w, "AT+CONPARAREQ=", 3);
    }
    if Upper(w[3]) != 'D' {
      Lacks(w, "AT+DISCON=", 3);
    }
    if Upper(w[3]) != 'G' {
      Lacks(w, "AT+GETSVCUUID", 3);
      Lacks(w, "AT+GETMTU", 3);
    }
    if Upper(w[3]) != 'E' {
      Lacks(w, "AT+ENTERDATAMODE=", 3);
    }
  }

  // Not AT+STARTSCAN or AT+STARTCON, by the letter at `i`.
  lemma NoStart(w: string, i: nat)
    requires 3 < i <= 5 && i < |w| && Upper(w[i]) != "AT+START"[i]
    ensures !StartsWithIgnoreCase(w, "AT+STARTSCAN=") && !StartsWithIgnoreCase(w, "AT+STARTCON=")
  {
    Lacks(w, "AT+STARTSCAN=", i);
    Lacks(w, "AT+STARTCON=", i);
  }

  // Which branch of process_command a line takes.
  function Verb(c: Call): string {
    match c
    case StartScan(_, _) => "AT+STARTSCAN="
    case Connect(_, _) => "AT+STARTCON="
    case Disconnect(_) => "AT+DISCON="
    case SendPayload(_, _) => "AT+SEND="
    case GetStatus => "AT+CONSTATUS"
    case GetProfile => "AT+GETSVCUUID"
    case SetProfile(_, _, _) => "AT+SETSVCUUID="
    case SetMtu(_) => "AT+SETMTU="
    case GetMtu => "AT+GETMTU"
    case RequestMtu(_) => "AT+CONMTUREQ="
    case SetConnParams(_, _, _, _, _) => "AT+CONPARAREQ="
    case EnterDataMode(_) => "AT+ENTERDATAMODE="
    case GetStreamStats => "AT+STREAMSTAT"
  }

  /** What the branch of a verb makes of the text after it. */
  function Branch(c: Call, rest: string): Command {
    match c
    case StartScan(_, _) => ScanCommand(SplitArgs(rest, 5))
    case Connect(_, _) => ConnectCommand(SplitArgs(rest, 5))
    case SendPayload(_, _) => SendCommand(SplitArgs(rest, 5))
    case SetConnParams(_, _, _, _, _) => ParamsCommand(SplitArgs(rest, 5))
    case SetProfile(_, _, _) =>
      var args := SplitArgs(rest, 5);
      if |args| != 3 then Wrong(INVALID_PARAMETERS) else Op(SetProfile(args[0], args[1], args[2]))
    case SetMtu(_) => (match ParseU16(rest) case Some(v) => Op(SetMtu(v)) case None => Wrong(INVALID_PARAMETERS))
    case Disconnect(_) => Indexed(ParseU16(rest), (i: nat) => Disconnect(i))
    case RequestMtu(_) => Indexed(ParseU16(rest), (i: nat) => RequestMtu(i))
    case EnterDataMode(_) => Indexed(ParseU16(rest), (i: nat) => EnterDataMode(i))
    case _ => Op(c)
  }

  function Indexed(parsed: Option<nat>, make: nat -> Call): Command {
    match parsed
    case Some(v) => if v > 255 then Wrong(INVALID_PARAMETERS) else Op(make(v))
    case None => Wrong(INVALID_PARAMETERS)
  }

  predicate Bare(c: Call) {
    c.GetStatus? || c.GetProfile? || c.GetMtu? || c.GetStreamStats?
  }

  /** The line `w` has the verb of `c`, in any mixture of upper and lower case. */
  predicate Matches(w: string, c: Call) {
    if Bare(c) then EqualsIgnoreCase(w, Verb(c)) else StartsWithIgnoreCase(w, Verb(c))
  }

  lemma VerbAt(w: string, c: Call, i: nat)
    requires Matches(w, c) && i < |Verb(c)|
    ensures |w| >= |Verb(c)| && Upper(w[i]) == Upper(Verb(c)[i]) == Verb(c)[i]
  {
  }

  lemma AnyCaseS(w: string, c: Call)
    requires Verb(c)[3] == 'S' && Matches(w, c)
    ensures |w| >= |Verb(c)| && ParseTrimmed(w) == Branch(c, w[|Verb(c)|..])
  {
    hide SplitArgs, ParseU16, ScanCommand, ConnectCommand, SendCommand, ParamsCommand,
         StartsWithIgnoreCase, EqualsIgnoreCase;
    VerbAt(w, c, 3);
    VerbAt(w, c, 4);
    VerbAt(w, c, 5);
    VerbAt(w, c, 6);
    NotPing(w);
    NoneOfCDG(w);
    match c {
      case StartScan(_, _) =>
      case Connect(_, _) => VerbAt(w, c, 8); Lacks(w, "AT+STARTSCAN=", 8);
      case SendPayload(_, _) => NoStart(w, 4);
      case SetProfile(_, _, _) => NoStart(w, 4); Lacks(w, "AT+SEND=", 5);
      case SetMtu(_) => NoStart(w, 4); Lacks(w, "AT+SEND=", 5); Lacks(w, "AT+SETSVCUUID=", 6);
      case GetStreamStats =>
        NoStart(w, 5);
        Lacks(w, "AT+SEND=", 4);
        Lacks(w, "AT+SETSVCUUID=", 4);
        Lacks(w, "AT+SETMTU=", 4);
      case _ =>
    }
  }

  /** The chain of comparisons finds the branch of the verb, wherever it stands in the chain: no other verb is
      a part of it. */
  lemma AnyCase(w: string, c: Call)
    requires Matches(w, c)
    ensures |w| >= |Verb(c)| && ParseTrimmed(w) == Branch(c, w[|Verb(c)|..])
  {
    hide SplitArgs, ParseU16, ScanCommand, ConnectCommand, SendCommand, ParamsCommand,
         StartsWithIgnoreCase, EqualsIgnoreCase;
    if Verb(c)[3] == 'S' {
      AnyCaseS(w, c);
      return;
    }
    VerbAt(w, c, 3);
    VerbAt(w, c, 6);
    NotPing(w);
    NoneOfCDG(w);
    NoneOfS(w);
    match c {
      case GetMtu => Lacks(w, "AT+GETSVCUUID", 6);
      case RequestMtu(_) => Lacks(w, "AT+CONSTATUS", 6);
      case SetConnParams(_, _, _, _, _) => Lacks(w, "AT+CONSTATUS", 6); Lacks(w, "AT+CONMTUREQ=", 6);
      case _ =>
    }
  }

  lemma Dispatch(c: Call, rest: string)
    requires Tidy(Verb(c) + rest) && (Bare(c) ==> rest == "")
    ensures Parse(Verb(c) + rest) == Branch(c, rest)
  {
    hide ParseTrimmed, Branch, Trim, CStr, StartsWithIgnoreCase, EqualsIgnoreCase;
    var w := Verb(c) + rest;
    TidyTrim(w);
    HasVerb(Verb(c), rest);
    assert rest == "" ==> w == Verb(c);
    AnyCase(w, c);
  }

  // ---------- the client's commands ----------

  function Arguments(c: Call): seq<string> {
    match c
    case StartScan(seconds, filter) => if filter == "" then [Decimal(seconds)] else [Decimal(seconds), filter]
    case Connect(mac, addrType) => [mac, Decimal(addrType)]
    case Disconnect(index) => [Decimal(index)]
    case SendPayload(index, data) => [Decimal(index), Decimal(|data|)]
    case SetProfile(service, notify, write) => [service, notify, write]
    case SetMtu(mtu) => [Decimal(mtu)]
    case RequestMtu(index) => [Decimal(index)]
    case SetConnParams(index, a, b, l, t) => [Decimal(index), Decimal(a), Decimal(b), Decimal(l), Decimal(t)]
    case EnterDataMode(index) => [Decimal(index)]
    case _ => []
  }

  /** What the client writes for a call. */
  function CommandLine(c: Call): string {
    Verb(c) + Joined(Arguments(c))
  }

  /** The calls that a command line can carry. */
  predicate Carried(c: Call) {
    match c
    case StartScan(seconds, filter) => 1 <= seconds <= 0xFFFF && NoComma(filter)
    case Connect(mac, addrType) => NoComma(mac) && addrType <= 3
    case Disconnect(index) => index <= 255
    case SendPayload(index, data) => index <= 255 && 1 <= |data| <= SEND_MAX
    case SetProfile(service, notify, write) => NoComma(service) && NoComma(notify) && NoComma(write) && write != ""
    case SetMtu(mtu) => mtu <= 0xFFFF
    case RequestMtu(index) => index <= 255
    case SetConnParams(index, a, b, l, t) => index <= 255 && a <= 0xFFFF && b <= 0xFFFF && l <= 0xFFFF && t <= 0xFFFF
    case EnterDataMode(index) => index <= 255
    case _ => true
  }

  lemma DecimalClean(n: nat)
    ensures NoComma(Decimal(n)) && Decimal(n) != ""
    ensures ParseU16(Decimal(n)) == if n <= 0xFFFF then Some(n) else None
  {
    DecimalDigits(n);
    NumberRoundTrip(n);
    hide Decimal, ParseU16, DigitsValue;
  }

  // The same of each branch.
  predicate Understood(c: Call) {
    Branch(c, Joined(Arguments(c))) == Op(c)
  }

  lemma ScanUnderstood(c: Call)
    requires c.StartScan?
    ensures Understood(c) <==> Carried(c)
  {
    var args := Arguments(c);
    SplitJoined(args, 5);
    PiecesNoComma(Joined(args), 5);
    DecimalClean(c.seconds);
    hide Decimal, ParseU16, SplitArgs, NoComma;
  }

  lemma ConnectUnderstood(c: Call)
    requires c.Connect?
    ensures Understood(c) <==> Carried(c)
  {
    var args := Arguments(c);
    SplitJoined(args, 5);
    PiecesNoComma(Joined(args), 5);
    DecimalClean(c.addrType);
    hide Decimal, ParseU16, SplitArgs, NoComma, Joined;
  }

  lemma ProfileUnderstood(c: Call)
    requires c.SetProfile?
    ensures Understood(c) <==> Carried(c)
  {
    var args := Arguments(c);
    SplitJoined(args, 5);
    PiecesNoComma(Joined(args), 5);
    hide SplitArgs, NoComma, Joined;
  }

  // The text is a printed number.
  predicate Prints(text: string, n: nat) {
    ParseU16(text) == if n <= 0xFFFF then Some(n) else None
  }

  lemma ParamsOf(args: seq<string>, i: nat, a: nat, b: nat, l: nat, t: nat)
    requires |args| == 5 && Prints(args[0], i) && Prints(args[1], a) && Prints(args[2], b) && Prints(args[3], l)
    requires Prints(args[4], t)
    ensures ParamsCommand(args) == Op(SetConnParams(i, a, b, l, t)) <==> Carried(SetConnParams(i, a, b, l, t))
  {
    hide ParseU16, NoComma;
  }

  lemma ParamsArgs(c: Call)
    requires c.SetConnParams?
    ensures var args := Arguments(c);
            && |args| == 5 && AllNoComma(args) && args[4] != ""
            && Prints(args[0], c.index) && Prints(args[1], c.minInterval) && Prints(args[2], c.maxInterval)
            && Prints(args[3], c.latency) && Prints(args[4], c.timeout)
  {
    DecimalClean(c.index);
    DecimalClean(c.minInterval);
    DecimalClean(c.maxInterval);
    DecimalClean(c.latency);
    DecimalClean(c.timeout);
    hide Decimal, ParseU16, NoComma;
  }

  lemma ParamsUnderstood(c: Call)
    requires c.SetConnParams?
    ensures Understood(c) <==> Carried(c)
  {
    hide Arguments, Prints, AllNoComma, SplitArgs, Joined, ParamsCommand, Carried;
    var args := Arguments(c);
    ParamsArgs(c);
    SplitJoined(args, 5);
    ParamsOf(args, c.index, c.minInterval, c.maxInterval, c.latency, c.timeout);
  }

  lemma NumberUnderstood(c: Call, n: nat)
    requires Arguments(c) == [Decimal(n)]
    requires c == Disconnect(n) || c == RequestMtu(n) || c == EnterDataMode(n) || c == SetMtu(n)
    ensures Understood(c) <==> Carried(c)
  {
    DecimalClean(n);
    hide Decimal, ParseU16, NoComma;
    assert Joined(Arguments(c)) == Decimal(n);
  }

  // What the text of a command line means after its verb: process_command cuts it at a terminator and at
  // trailing white space.
  function Heard(tail: string): string {
    TrimRight(CStr(tail))
  }

  lemma {:induction false} CStrPrefixed(v: string, t: string)
    requires NUL !in v
    ensures CStr(v + t) == v + CStr(t)
    decreases |v|
  {
    if v == "" {
      assert v + t == t;
    } else {
      assert (v + t)[1..] == v[1..] + t;
      CStrPrefixed(v[1..], t);
    }
  }

  lemma {:induction false} TrimRightPrefixed(v: string, t: string)
    requires v != "" && !IsSpace(v[|v| - 1])
    ensures TrimRight(v + t) == v + TrimRight(t)
    decreases |t|
  {
    if t == "" {
      assert v + t == v;
    } else {
      assert (v + t)[..|v + t| - 1] == v + t[..|t| - 1];
      TrimRightPrefixed(v, t[..|t| - 1]);
    }
  }

  lemma {:induction false} TrimRightEnds(t: string)
    ensures TrimRight(t) <= t && (TrimRight(t) != "" ==> !IsSpace(TrimRight(t)[|TrimRight(t)| - 1]))
    ensures TrimRight(t) == t <==> t == "" || !IsSpace(t[|t| - 1])
    decreases |t|
  {
    if t != "" && IsSpace(t[|t| - 1]) {
      TrimRightEnds(t[..|t| - 1]);
    }
  }

  lemma VerbShape(c: Call)
    ensures Tidy(Verb(c))
  {
  }

  lemma HeardShape(v: string, tail: string)
    requires Tidy(v)
    ensures Tidy(v + Heard(tail)) && Trim(CStr(v + tail)) == v + Heard(tail)
    ensures NUL !in Heard(tail)
  {
    CStrPrefixed(v, tail);
    CStrPrefix(tail);
    TrimRightPrefixed(v, CStr(tail));
    TrimRightEnds(CStr(tail));
    assert TrimLeft(v + CStr(tail)) == v + CStr(tail);
    hide CStr, TrimLeft, TrimRight;
  }

  lemma SameParse(a: string, b: string)
    requires Trim(CStr(a)) == Trim(CStr(b))
    ensures Parse(a) == Parse(b)
  {
    hide Trim, CStr, SplitArgs, ParseU16, StartsWithIgnoreCase, EqualsIgnoreCase;
  }

  /** Whatever follows the verb, its branch gets it, cut. */
  lemma DispatchAny(c: Call, tail: string)
    requires Bare(c) ==> tail == ""
    ensures Parse(Verb(c) + tail) == Branch(c, Heard(tail))
  {
    VerbShape(c);
    HeardShape(Verb(c), tail);
    TidyTrim(Verb(c) + Heard(tail));
    assert Bare(c) ==> Heard(tail) == "";
    hide Parse, Trim, CStr, TrimRight, Heard, Tidy, Branch, Verb;
    SameParse(Verb(c) + tail, Verb(c) + Heard(tail));
    Dispatch(c, Heard(tail));
  }

  // The line is tidy if and only if nothing is cut.
  lemma TidyHeard(v: string, tail: string)
    requires Tidy(v)
    ensures Tidy(v + tail) <==> Heard(tail) == tail
    ensures !Tidy(v + tail) ==> NUL in tail || (tail != "" && IsSpace(tail[|tail| - 1]))
  {
    CStrPrefix(tail);
    TrimRightEnds(CStr(tail));
    if NUL !in tail {
      CStrSame(tail);
    }
    hide CStr, TrimRight;
  }

  predicate NoNul(s: string) {
    NUL !in s
  }

  lemma {:induction false} PiecesNoNul(text: string, max: nat)
    requires NoNul(text)
    ensures forall i | 0 <= i < |SplitArgs(text, max)| :: NoNul(SplitArgs(text, max)[i])
    decreases max
  {
    if text != "" && max > 0 {
      var i := CommaAt(text);
      if i < |text| {
        PiecesNoNul(text[i + 1..], max - 1);
      }
    }
  }

  lemma {:induction false} JoinedAppended(front: seq<string>, last: string)
    requires front != []
    ensures Joined(front + [last]) == Joined(front) + "," + last
    decreases |front|
  {
    var all := front + [last];
    JoinedFirst(all);
    JoinedFirst(front);
    assert all[0] == front[0] && all[1..] == front[1..] + [last];
    if |front| == 1 {
      assert all[1..] == [last];
      JoinedFirst([last]);
    } else {
      hide Joined;
      JoinedAppended(front[1..], last);
      assert front[0] + "," + (Joined(front[1..]) + "," + last) == front[0] + "," + Joined(front[1..]) + "," + last;
    }
  }

  lemma {:induction false} JoinedNoNul(args: seq<string>)
    requires forall i | 0 <= i < |args| :: NoNul(args[i])
    ensures NoNul(Joined(args))
    decreases |args|
  {
    if args != [] {
      JoinedFirst(args);
      JoinedNoNul(args[1..]);
    }
  }

  // Without terminators, only trailing white space of the last argument is cut.
  lemma CutText(front: seq<string>, last: string)
    requires front != [] && NoNul(last) && forall i | 0 <= i < |front| :: NoNul(front[i])
    ensures Heard(Joined(front + [last])) == Joined(front + [TrimRight(last)])
  {
    hide Joined, TrimRight, CStr;
    var tail := Joined(front + [last]);
    JoinedNoNul(front + [last]);
    CStrSame(tail);
    JoinedAppended(front, last);
    JoinedAppended(front, TrimRight(last));
    var head := Joined(front) + ",";
    assert head[|head| - 1] == ',';
    TrimRightPrefixed(head, last);
  }

  lemma HeardClean(tail: string)
    ensures NoNul(Heard(tail))
  {
    CStrPrefix(tail);
    TrimRightEnds(CStr(tail));
    hide CStr, TrimRight;
  }

  // If anything is cut off the last of some arguments, it does not come back.
  lemma CutLast(front: seq<string>, last: string)
    requires 0 < |front| < 5 && AllNoComma(front) && forall i | 0 <= i < |front| :: NoNul(front[i])
    requires var tail := Joined(front + [last]); Heard(tail) != tail
    ensures var p := SplitArgs(Heard(Joined(front + [last])), 5); |p| > |front| ==> p[|front|] != last
  {
    hide Heard, SplitArgs, Joined, TrimRight, NoComma, NoNul;
    var tail := Joined(front + [last]);
    HeardClean(tail);
    PiecesNoComma(Heard(tail), 5);
    PiecesNoNul(Heard(tail), 5);
    if NoComma(last) && NoNul(last) {
      CutText(front, last);
      var cut := TrimRight(last);
      CutClean(last);
      JoinedSplits(front + [cut], 5);
      assert (front + [cut])[..|front|] == front;
    }
  }

  lemma CutClean(last: string)
    requires NoComma(last)
    ensures NoComma(TrimRight(last))
  {
    TrimRightEnds(last);
    hide TrimRight;
  }

  // What a call becomes of the whole tail.
  predicate Gets(c: Call) {
    Branch(c, Heard(Joined(Arguments(c)))) == Op(c)
  }

  predicate Whole(c: Call) {
    Heard(Joined(Arguments(c))) == Joined(Arguments(c))
  }

  lemma DecimalNoNul(n: nat)
    ensures NoNul(Decimal(n)) && NoComma(Decimal(n)) && Decimal(n) != "" && !IsSpace(Decimal(n)[|Decimal(n)| - 1])
  {
    DecimalClean(n);
    DecimalDigits(n);
    var d := Decimal(n);
    assert forall i | 0 <= i < |d| :: IsDigit(d[i]);
    hide Decimal, DigitsValue, ParseU16;
  }

  lemma NumberWhole(c: Call, n: nat)
    requires Arguments(c) == [Decimal(n)]
    ensures Whole(c)
  {
    DecimalNoNul(n);
    JoinedFirst(Arguments(c));
    CStrSame(Decimal(n));
    TrimRightEnds(Decimal(n));
    hide Decimal, Joined, CStr, TrimRight;
  }

  lemma ScanCut(c: Call)
    requires c.StartScan? && !Whole(c)
    ensures !Gets(c)
  {
    var d := Decimal(c.seconds);
    DecimalNoNul(c.seconds);
    if c.filter == "" {
      NumberWhole(c, c.seconds);
    } else {
      assert [d] + [c.filter] == Arguments(c);
      CutLast([d], c.filter);
    }
    hide Decimal, Heard, SplitArgs, Joined, ParseU16;
  }

  lemma ProfileCut(c: Call)
    requires c.SetProfile? && !Whole(c)
    ensures !Gets(c)
  {
    var tail := Joined(Arguments(c));
    HeardShape("AT", tail);
    PiecesNoComma(Heard(tail), 5);
    PiecesNoNul(Heard(tail), 5);
    hide Heard, SplitArgs, Joined;
    var front := [c.service, c.notify];
    assert front + [c.write] == Arguments(c);
    if AllNoComma(front) && NoNul(c.service) && NoNul(c.notify) {
      CutLast(front, c.write);
    }
  }

  lemma ConnectCut(c: Call)
    requires c.Connect? && !Whole(c)
    ensures !Gets(c)
  {
    var d := Decimal(c.addrType);
    var tail := Joined(Arguments(c));
    DecimalNoNul(c.addrType);
    hide Decimal;
    JoinedFirst(Arguments(c));
    JoinedFirst([d]);
    assert Arguments(c)[1..] == [d];
    assert tail == c.mac + "," + d;
    HeardShape("AT", tail);
    TidyHeard("AT", tail);
    PiecesNoNul(Heard(tail), 5);
    assert tail[|tail| - 1] == d[|d| - 1];
    assert NUL in c.mac;
    hide Heard, SplitArgs, Joined, ParseU16;
  }

  lemma ParamsWhole(c: Call)
    requires c.SetConnParams?
    ensures Whole(c)
  {
    var args := Arguments(c);
    DecimalNoNul(c.index);
    DecimalNoNul(c.minInterval);
    DecimalNoNul(c.maxInterval);
    DecimalNoNul(c.latency);
    DecimalNoNul(c.timeout);
    hide Decimal, Joined, Heard;
    TrimRightEnds(args[4]);
    assert args[..4] + [args[4]] == args;
    CutText(args[..4], args[4]);
  }

  /** A command without a payload is understood as the call it was written for if and only if the numbers are
      in range, the texts hold no comma, and the line holds no terminator and does not end in white space. */
  lemma CommandArrives(c: Call)
    requires !c.SendPayload?
    ensures Parse(CommandLine(c)) == Op(c) <==> Carried(c) && Tidy(CommandLine(c))
  {
    var tail := Joined(Arguments(c));
    BareTail(c);
    DispatchAny(c, tail);
    VerbShape(c);
    TidyHeard(Verb(c), tail);
    hide Tidy, Verb, Heard, Parse, Branch, Joined, Arguments, Carried;
    match c {
      case StartScan(_, _) =>
        if Whole(c) { ScanUnderstood(c); } else { ScanCut(c); }
      case Connect(_, _) =>
        if Whole(c) { ConnectUnderstood(c); } else { ConnectCut(c); }
      case SetProfile(_, _, _) =>
        if Whole(c) { ProfileUnderstood(c); } else { ProfileCut(c); }
      case SetConnParams(_, _, _, _, _) => ParamsWhole(c); ParamsUnderstood(c);
      case Disconnect(index) => NumberArrives(c, index);
      case RequestMtu(index) => NumberArrives(c, index);
      case EnterDataMode(index) => NumberArrives(c, index);
      case SetMtu(mtu) => NumberArrives(c, mtu);
      case _ => BareArrives(c);
    }
  }

  lemma BareTail(c: Call)
    ensures Bare(c) ==> Joined(Arguments(c)) == ""
  {
  }

  lemma BareArrives(c: Call)
    requires Bare(c)
    ensures Whole(c) && Gets(c) && Carried(c)
  {
  }

  lemma NumberArrives(c: Call, n: nat)
    requires c == Disconnect(n) || c == RequestMtu(n) || c == EnterDataMode(n) || c == SetMtu(n)
    ensures Whole(c) && (Gets(c) <==> Carried(c))
  {
    assert Arguments(c) == [Decimal(n)];
    NumberWhole(c, n);
    NumberUnderstood(c, n);
    hide Heard, Joined, Decimal, Carried, Branch;
  }

  // ---------- from the client's write to the operation ----------

  predicate NoEol(line: string) {
    forall i | 0 <= i < |line| :: !IsEol(line[i])
  }

  predicate OneLineLong(line: string) {
    1 <= |line| <= LINE_MAX && NoEol(line)
  }

  predicate NoneEmpty(chunks: seq<string>) {
    forall i | 0 <= i < |chunks| :: chunks[i] != ""
  }

  /** No read ends while line endings are being skipped. */
  predicate NoSkip(ops: Ops, s: At, chunks: seq<string>) {
    forall i | 0 < i < |chunks| :: !OnBytes(ops, Rx(s, false), Join(chunks[..i])).skip
  }

  lemma NoSkipReads(ops: Ops, s: At, chunks: seq<string>)
    requires Within(Rx(s, false)) && NoSkip(ops, s, chunks)
    ensures ReceiveAll(ops, s, chunks) == Receive(ops, s, Join(chunks))
  {
    forall i | 0 < i < |chunks|
      ensures !Torn(ops, s, chunks, i)
    {
      SkipMeans(ops, s, Join(chunks[..i]));
    }
    hide Torn, OnBytes;
    UntornReads(ops, s, chunks);
  }

  // The first reads of a stream are a part of it, and the rest is not empty.
  lemma CutShape(chunks: seq<string>, i: nat)
    requires i <= |chunks|
    ensures Join(chunks) == Join(chunks[..i]) + Join(chunks[i..])
    ensures Join(chunks[..i]) == Join(chunks)[..|Join(chunks[..i])|]
    ensures Join(chunks[i..]) == Join(chunks)[|Join(chunks[..i])|..]
    ensures NoneEmpty(chunks) && i < |chunks| ==> |Join(chunks[..i])| < |Join(chunks)|
  {
    assert chunks == chunks[..i] + chunks[i..];
    JoinConcat(chunks[..i], chunks[i..]);
  }

  lemma NothingMore(ops: Ops, s: At)
    requires Idle(s)
    ensures OnBytes(ops, Rx(s, false), [LF]) == Rx(s, false)
  {
    OneByte(ops, Rx(s, false), LF);
    assert EndLine(ops, s) == s;
  }

  // What becomes of a line with its line ending.
  function Done(ops: Ops, s: At, line: string): At {
    if |line| > LINE_MAX then Put(s, [Line(INVALID_COMMAND)]) else if line == "" then s else Execute(ops, s, line)
  }

  predicate AsksPayload(line: string) {
    1 <= |line| <= LINE_MAX && Parse(line).Send?
  }

  lemma InLine(ops: Ops, s: At, line: string, p: nat)
    requires Idle(s) && NoEol(line) && p <= |line|
    ensures !OnBytes(ops, Rx(s, false), line[..p]).skip
  {
    CollectsLine(ops, s, line[..p]);
    hide OnBytes;
  }

  lemma DoneIdle(ops: Ops, s: At, line: string)
    requires Idle(s) && !AsksPayload(line)
    ensures Idle(Done(ops, s, line))
  {
    hide Parse, Execute;
    if 1 <= |line| <= LINE_MAX {
      StaysIdle(ops, s, line, 0, "");
    }
  }

  lemma LineEnds(ops: Ops, s: At, line: string)
    requires Idle(s) && NoEol(line) && !AsksPayload(line)
    ensures OnBytes(ops, Rx(s, false), line + [CR]) == Rx(Done(ops, s, line), false)
    ensures Receive(ops, s, line + NEWLINE) == Done(ops, s, line)
  {
    hide OnBytes, OnByte, Parse, Execute, Idle;
    assert line + [CR] + "" == line + [CR] && line + NEWLINE == line + [CR] + [LF];
    OneLine(ops, s, line, CR, "");
    OneLine(ops, s, line, CR, [LF]);
    NoBytesYet(ops, Rx(Done(ops, s, line), false));
    DoneIdle(ops, s, line);
    NothingMore(ops, Done(ops, s, line));
  }

  lemma NoBytesYet(ops: Ops, r: Rx)
    ensures OnBytes(ops, r, "") == r
  {
  }

  lemma LineReads(ops: Ops, s: At, line: string, chunks: seq<string>)
    requires Idle(s) && NoEol(line) && !AsksPayload(line) && NoneEmpty(chunks)
    requires Join(chunks) == line + NEWLINE
    ensures ReceiveAll(ops, s, chunks) == Done(ops, s, line)
  {
    LineEnds(ops, s, line);
    forall i | 0 < i < |chunks|
      ensures !OnBytes(ops, Rx(s, false), Join(chunks[..i])).skip
    {
      CutShape(chunks, i);
      var p := |Join(chunks[..i])|;
      if p <= |line| {
        assert (line + NEWLINE)[..p] == line[..p];
        InLine(ops, s, line, p);
      } else {
        assert (line + NEWLINE)[..p] == line + [CR];
      }
    }
    hide OnBytes, AsksPayload, Done;
    NoSkipReads(ops, s, chunks);
  }

  /** A call that is answered by its error number is answered by the line that tells it; entering data mode also
      by the announcement of it, exactly when it is accepted. */
  lemma RepliesTell(c: Call, a: Answer)
    requires !Bare(c)
    ensures var replies := Replies(c, a);
            && |replies| > 0 && replies[0].Line? && Tells(replies[0].text, a.err)
            && replies[1..] == if c.EnterDataMode? && a.err == Success then [Line("+IND=DATAMODE,1")] else []
  {
    AnswerTells(a.err);
    hide AnswerLine;
    assert a.err == Success ==> AnswerLine(a.err) == OK_LINE by { OkAnswer(); }
  }

  lemma OkAnswer()
    ensures AnswerLine(Success) == OK_LINE
  {
  }

  /** A command that fits a line, is written with CR LF and can be carried makes exactly the call it was
      written for, and is answered, however the bytes were cut into reads. */
  lemma CommandRuns(ops: Ops, s: At, c: Call, chunks: seq<string>)
    requires Idle(s) && !c.SendPayload? && Carried(c) && Tidy(CommandLine(c)) && OneLineLong(CommandLine(c))
    requires NoneEmpty(chunks) && Join(chunks) == CommandLine(c) + NEWLINE
    ensures ReceiveAll(ops, s, chunks) == Put(s, [Called(c)] + Replies(c, ops(s.calls))).(calls := s.calls + 1)
    ensures !Bare(c) ==> var replies := Replies(c, ops(s.calls));
                         replies[0].Line? && Tells(replies[0].text, ops(s.calls).err)
  {
    CommandArrives(c);
    if !Bare(c) {
      RepliesTell(c, ops(s.calls));
    }
    hide Parse, Replies, Carried, Tidy, OneLineLong, CommandLine, OnBytes, ReceiveAll, Join;
    LineReads(ops, s, CommandLine(c), chunks);
  }
}
