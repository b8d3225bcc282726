/** at_host.c: what every command line means.  The meaning is given by a grammar: a line has a verb, its
    arguments denote a call or they do not. */
module AtGrammar {
  import opened Common
  import opened Protocol
  import opened AtCommands
  import opened AtParser
  import opened AtChunks
  import opened AtReads
  import opened AtClient
  import Uuid

  predicate Number(text: string, v: nat) {
    ParseU16(text) == Some(v)
  }

  /** The text after the verb denotes the call. */
  predicate Denotes(rest: string, c: Call) {
    var args := SplitArgs(rest, 5);
    match c
    case StartScan(seconds, filter) =>
      |args| >= 1 && Number(args[0], seconds) && seconds >= 1 && filter == (if |args| >= 2 then args[1] else "")
    case Connect(mac, addrType) => |args| == 2 && args[0] == mac && Number(args[1], addrType) && addrType <= 3
    case SetProfile(service, notify, write) => args == [service, notify, write]
    case SetConnParams(i, a, b, l, t) =>
      |args| == 5 && Number(args[0], i) && i <= 255 && Number(args[1], a) && Number(args[2], b) && Number(args[3], l) &&
      Number(args[4], t)
    case Disconnect(index) => Number(rest, index) && index <= 255
    case RequestMtu(index) => Number(rest, index) && index <= 255
    case EnterDataMode(index) => Number(rest, index) && index <= 255
    case SetMtu(mtu) => Number(rest, mtu)
    case SendPayload(_, _) => false
    case _ => true
  }

  /** The text after AT+SEND= asks for a payload. */
  predicate AsksFor(rest: string, index: nat, length: nat) {
    var args := SplitArgs(rest, 5);
    |args| == 2 && Number(args[0], index) && index <= 255 && Number(args[1], length) && 1 <= length <= 256
  }

  ghost predicate Known(w: string) {
    exists c: Call :: Matches(w, c)
  }

  function Rest(w: string, c: Call): string
    requires Matches(w, c)
  {
    w[|Verb(c)|..]
  }

  lemma BranchDenotes(k: Call, rest: string, c: Call)
    requires Verb(k) == Verb(c) && (Bare(k) ==> rest == "")
    ensures Branch(k, rest) == Op(c) <==> Denotes(rest, c)
  {
    hide SplitArgs, ParseU16;
  }

  lemma BranchShape(k: Call, rest: string)
    ensures Branch(k, rest).Op? ==> Verb(Branch(k, rest).call) == Verb(k) && Bare(Branch(k, rest).call) == Bare(k)
    ensures Branch(k, rest).Send? ==> k.SendPayload?
    ensures Branch(k, rest).Wrong? ==> Branch(k, rest).line == "+ERR=Invalid Parameters"
    ensures !Branch(k, rest).Blank? && !Branch(k, rest).Ping?
  {
    hide SplitArgs, ParseU16;
  }

  lemma SendAsks(k: Call, rest: string, index: nat, length: nat)
    requires k.SendPayload?
    ensures Branch(k, rest) == Send(index, length) <==> AsksFor(rest, index, length)
    ensures !Branch(k, rest).Op?
  {
    hide SplitArgs, ParseU16;
  }

  // A line with no verb falls through the whole chain.
  lemma FallsThroughRest(w: string)
    requires !Known(w)
    ensures ParseRest(w) == if StartsWithIgnoreCase(w, "AT+") then Wrong("+ERR=Function Error")
                            else Wrong("+ERR=Invalid Command")
  {
    hide StartsWithIgnoreCase, EqualsIgnoreCase, Known, SplitArgs, ParseU16, ParamsCommand, IndexCommand;
    NoVerb(w, GetProfile);
    NoVerb(w, SetMtu(0));
    NoVerb(w, GetMtu);
    NoVerb(w, RequestMtu(0));
    NoVerb(w, SetConnParams(0, 0, 0, 0, 0));
    NoVerb(w, EnterDataMode(0));
    NoVerb(w, GetStreamStats);
  }

  lemma FallsThrough(w: string)
    requires !Known(w)
    ensures ParseTrimmed(w) == if EqualsIgnoreCase(w, "AT") then Ping
                               else if StartsWithIgnoreCase(w, "AT+") then Wrong("+ERR=Function Error")
                               else Wrong("+ERR=Invalid Command")
  {
    hide StartsWithIgnoreCase, EqualsIgnoreCase, Known, SplitArgs, ParseU16, ParseRest, ScanCommand, ConnectCommand,
         SendCommand, IndexCommand;
    NoVerb(w, StartScan(0, ""));
    NoVerb(w, Connect("", 0));
    NoVerb(w, Disconnect(0));
    NoVerb(w, SendPayload(0, ""));
    NoVerb(w, GetStatus);
    NoVerb(w, SetProfile("", "", ""));
    FallsThroughRest(w);
  }

  lemma NoVerb(w: string, c: Call)
    requires !Known(w)
    ensures !Matches(w, c)
  {
  }

  lemma SameVerb(w: string, a: Call, b: Call)
    requires Matches(w, a) && Verb(a) == Verb(b) && Bare(a) == Bare(b)
    ensures Matches(w, b) && Rest(w, a) == Rest(w, b) && (Bare(a) ==> Rest(w, a) == "")
  {
  }

  lemma KnownStarts(w: string)
    requires Known(w)
    ensures StartsWithIgnoreCase(w, "AT+") && !EqualsIgnoreCase(w, "AT") && w != ""
  {
    hide Matches, Verb;
    var c :| Matches(w, c);
    VerbStarts(c);
    VerbAt(w, c, 0);
    VerbAt(w, c, 1);
    VerbAt(w, c, 2);
  }

  lemma VerbStarts(c: Call)
    ensures |Verb(c)| > 3 && Verb(c)[0] == 'A' && Verb(c)[1] == 'T' && Verb(c)[2] == '+'
  {
  }

  /** Every command line there is.  A blank one does nothing; AT is confirmed; a call is made exactly if the
      line has its verb and the arguments denote it, and a payload awaited exactly if the arguments of AT+SEND
      ask for one; everything else is one of three errors: the parameters if the verb is known, the function
      if it only begins like one, and the command otherwise. */
  lemma LineMeans(line: string, c: Call, index: nat, length: nat)
    ensures var w := Trim(CStr(line)); var p := Parse(line);
            && (p == Blank <==> w == "")
            && (p == Ping <==> EqualsIgnoreCase(w, "AT"))
            && (p == Op(c) <==> Matches(w, c) && Denotes(Rest(w, c), c))
            && (p == Send(index, length) <==>
                  StartsWithIgnoreCase(w, "AT+SEND=") && AsksFor(w[|"AT+SEND="|..], index, length))
            && (p.Wrong? ==>
                  p.line == if Known(w) then "+ERR=Invalid Parameters"
                            else if StartsWithIgnoreCase(w, "AT+") then "+ERR=Function Error"
                            else "+ERR=Invalid Command")
  {
    var w := Trim(CStr(line));
    var send := SendPayload(0, "");
    assert Matches(w, send) <==> StartsWithIgnoreCase(w, "AT+SEND=");
    hide Trim, CStr, ParseTrimmed, Branch, StartsWithIgnoreCase, EqualsIgnoreCase, Matches, AsksFor, Denotes;
    if w == "" {
      BlankMatches(c);
      BlankMatches(send);
    } else if Known(w) {
      KnownMeans(w, c, index, length);
    } else {
      FallsThrough(w);
      NoVerb(w, c);
      NoVerb(w, send);
    }
  }

  lemma BlankMatches(c: Call)
    ensures !Matches("", c) && !EqualsIgnoreCase("", "AT")
  {
  }

  lemma KnownMeans(w: string, c: Call, index: nat, length: nat)
    requires Known(w)
    ensures ParseTrimmed(w) == Op(c) <==> Matches(w, c) && Denotes(Rest(w, c), c)
    ensures var send := SendPayload(0, "");
            ParseTrimmed(w) == Send(index, length) <==> Matches(w, send) && AsksFor(Rest(w, send), index, length)
    ensures ParseTrimmed(w).Wrong? ==> ParseTrimmed(w).line == "+ERR=Invalid Parameters"
    ensures !ParseTrimmed(w).Blank? && !ParseTrimmed(w).Ping? && !EqualsIgnoreCase(w, "AT") && w != ""
  {
    KnownStarts(w);
    hide ParseTrimmed, Branch, StartsWithIgnoreCase, EqualsIgnoreCase, Matches, AsksFor, Denotes;
    var k :| Matches(w, k);
    AnyCase(w, k);
    BranchShape(k, Rest(w, k));
    var send := SendPayload(0, "");
    if Matches(w, send) {
      AnyCase(w, send);
      SendAsks(send, Rest(w, send), index, length);
    } else if k.SendPayload? {
      SameVerb(w, k, send);
    }
    if Matches(w, c) {
      AnyCase(w, c);
      SameVerb(w, c, c);
      BranchDenotes(c, Rest(w, c), c);
    } else if ParseTrimmed(w) == Op(c) {
      SameVerb(w, k, c);
    }
  }

  /** What the device does with any line and its CR LF, cut into any reads, that asks for no payload: one that is
      longer than the buffer is refused whole; a blank one is ignored; AT is confirmed; a line that denotes a
      call makes that call, once, and is answered by its replies; and every other line by its error. */
  lemma LineAnswered(ops: Ops, s: At, line: string, chunks: seq<string>, c: Call)
    requires Idle(s) && NoEol(line) && !AsksPayload(line) && NoneEmpty(chunks) && Join(chunks) == line + NEWLINE
    ensures var r := ReceiveAll(ops, s, chunks); var w := Trim(CStr(line));
            if |line| > 159 then r == Put(s, [Line("+ERR=Invalid Command")])
            else
              && (w == "" ==> r == s)
              && (EqualsIgnoreCase(w, "AT") ==> r == Put(s, [Line("+OK")]))
              && (Matches(w, c) && Denotes(Rest(w, c), c) ==>
                    r == Put(s, [Called(c)] + Replies(c, ops(s.calls))).(calls := s.calls + 1))
              && (Known(w) && !Parse(line).Op? ==> r == Put(s, [Line("+ERR=Invalid Parameters")]))
              && (!Known(w) && StartsWithIgnoreCase(w, "AT+") ==> r == Put(s, [Line("+ERR=Function Error")]))
              && (w != "" && !EqualsIgnoreCase(w, "AT") && !StartsWithIgnoreCase(w, "AT+") ==>
                    r == Put(s, [Line("+ERR=Invalid Command")]))
  {
    LineReads(ops, s, line, chunks);
    if |line| <= 159 {
      LineMeans(line, c, 0, 0);
      Classes(line);
      hide Trim, CStr, Parse, StartsWithIgnoreCase, EqualsIgnoreCase, Matches, Denotes, Replies, Known, OnBytes, Join;
      EmptyLine(line);
    }
    hide ReceiveAll, Parse, Execute;
  }

  lemma EmptyLine(line: string)
    ensures line == "" ==> Parse(line) == Blank
  {
  }

  // A line is of exactly one kind.
  lemma Classes(line: string)
    ensures var w := Trim(CStr(line)); var p := Parse(line);
            && (Known(w) ==> StartsWithIgnoreCase(w, "AT+") && w != "" && !EqualsIgnoreCase(w, "AT"))
            && (!Known(w) ==> !p.Op? && !p.Send?)
            && (EqualsIgnoreCase(w, "AT") ==> w != "" && !StartsWithIgnoreCase(w, "AT+"))
            && (StartsWithIgnoreCase(w, "AT+") ==> w != "")
  {
    var w := Trim(CStr(line));
    hide Trim, CStr;
    if Known(w) {
      KnownStarts(w);
    } else {
      FallsThrough(w);
    }
    hide ParseTrimmed, Known;
  }

  // ---------- what the parts of a line are ----------

  /** Letters are compared without regard to case, all else as it is. */
  lemma SameLetter(c: char, d: char)
    ensures Upper(c) == Upper(d) <==>
            c == d || ('a' <= c <= 'z' && d as int == c as int - 32) || ('a' <= d <= 'z' && c as int == d as int - 32)
  {
  }

  /** The six characters of white space. */
  lemma WhiteSpace(c: char)
    ensures IsSpace(c) <==> c in " \t\n\r" || c == 11 as char || c == 12 as char
  {
    var w := " \t\n\r";
    assert w[0] == ' ' && w[1] == '\t' && w[2] == '\n' && w[3] == '\r';
  }

  lemma {:induction false} TrimLeftMeans(s: string)
    ensures var t := TrimLeft(s);
            && |t| <= |s| && t == s[|s| - |t|..] && (t != "" ==> !IsSpace(t[0]))
            && forall i | 0 <= i < |s| - |t| :: IsSpace(s[i])
    decreases |s|
  {
    if s != "" && IsSpace(s[0]) {
      TrimLeftMeans(s[1..]);
    }
  }

  /** Trimming takes white space off both ends, and all of it. */
  lemma TrimMeans(s: string)
    ensures exists a, b :: Uuid.AllSpace(a) && Uuid.AllSpace(b) && s == a + Trim(s) + b
    ensures Trim(s) != "" ==> !IsSpace(Trim(s)[0]) && !IsSpace(Trim(s)[|Trim(s)| - 1])
  {
    var t := TrimLeft(s);
    TrimLeftMeans(s);
    Uuid.TrimRightShape(t);
    TrimRightEnds(t);
    hide TrimLeft, TrimRight;
    var a, b := s[..|s| - |t|], t[|Trim(s)|..];
    assert s == a + t && t == Trim(s) + b;
    assert Uuid.AllSpace(a) && Uuid.AllSpace(b) && s == a + Trim(s) + b;
  }

  /** The pieces of a text between its commas. */
  function Pieces(text: string): (pieces: seq<string>)
    ensures pieces != []
    decreases |text|
  {
    var i := CommaAt(text);
    if i == |text| then [text] else [text[..i]] + Pieces(text[i + 1..])
  }

  // A last piece that is empty does not count.
  function Counted(pieces: seq<string>): seq<string> {
    if pieces != [] && pieces[|pieces| - 1] == "" then pieces[..|pieces| - 1] else pieces
  }

  lemma {:induction false} PiecesMean(text: string)
    ensures Joined(Pieces(text)) == text && AllNoComma(Pieces(text))
    decreases |text|
  {
    hide Joined, NoComma;
    var i := CommaAt(text);
    JoinedFirst(Pieces(text));
    FirstClean(text);
    if i < |text| {
      PiecesMean(text[i + 1..]);
      assert Pieces(text)[1..] == Pieces(text[i + 1..]);
    }
  }

  lemma FirstClean(text: string)
    ensures var i := CommaAt(text);
            NoComma(text[..i]) && if i == |text| then text[..i] == text else text == text[..i] + "," + text[i + 1..]
  {
    hide CommaAt;
    var i := CommaAt(text);
    if i < |text| {
      CutAtComma(text, i);
    }
  }

  lemma CutAtComma(text: string, i: nat)
    requires i < |text| && text[i] == ','
    ensures text == text[..i] + "," + text[i + 1..]
  {
  }

  lemma CountedNext(first: string, rest: seq<string>)
    requires rest != []
    ensures Counted([first] + rest) == [first] + Counted(rest)
  {
    var all := [first] + rest;
    assert all[|all| - 1] == rest[|rest| - 1];
    assert all[..|all| - 1] == [first] + rest[..|rest| - 1];
  }

  /** Splitting gives the first `max` pieces between commas. */
  lemma {:induction false} SplitMeans(text: string, max: nat)
    ensures var counted := Counted(Pieces(text)); SplitArgs(text, max) == counted[..Min(max, |counted|)]
    decreases |text|
  {
    hide Counted;
    var i := CommaAt(text);
    if i == |text| {
      LastPiece(text);
    } else {
      var rest := text[i + 1..];
      CountedNext(text[..i], Pieces(rest));
      if max > 0 {
        SplitMeans(rest, max - 1);
        hide Pieces, SplitArgs;
      }
    }
  }

  lemma LastPiece(text: string)
    ensures Counted([text]) == if text == "" then [] else [text]
  {
  }

  lemma DigitsAfter(w: string, sign: string, digits: string)
    requires Uuid.AllSpace(w) && (sign == "" || sign == "+" || sign == "-")
    requires digits != "" && AllDigits(digits)
    ensures TrimLeft(w + (sign + digits)) == sign + digits
  {
    Uuid.TrimLeftPrepended(w, sign + digits);
    assert !IsSpace((sign + digits)[0]);
  }

  /** White space, an optional sign, and digits. */
  predicate Written(text: string, w: string, sign: string, digits: string) {
    && text == w + (sign + digits) && Uuid.AllSpace(w) && (sign == "" || sign == "+" || sign == "-")
    && digits != "" && AllDigits(digits)
  }

  /** A number over 16 bits is refused, and so is a negative one, but for those that strtoul turns into small
      positive ones modulo 2^32. */
  lemma NumberMeans(text: string, w: string, sign: string, digits: string)
    requires Written(text, w, sign, digits)
    ensures var v := DigitsValue(digits);
            ParseU16(text) ==
            if v <= 0xFFFF && (sign != "-" || v == 0) then Some(v)
            else if sign == "-" && 0xFFFF_0001 <= v <= 0xFFFF_FFFF then Some(0x1_0000_0000 - v)
            else None
  {
    hide TrimLeft, DigitsValue, Uuid.AllSpace;
    DigitsAfter(w, sign, digits);
    var body := sign + digits;
    if sign == "" {
      assert body == digits && IsDigit(body[0]);
    } else {
      assert body[0] == sign[0] && body[1..] == digits;
    }
  }

  /** And nothing else is a number. */
  lemma NumberShape(text: string)
    requires ParseU16(text).Some?
    ensures exists w, sign, digits :: Written(text, w, sign, digits)
  {
    hide TrimLeft, DigitsValue, AllDigits;
    TrimLeftMeans(text);
    var body := TrimLeft(text);
    var w := text[..|text| - |body|];
    var signed := body != "" && (body[0] == '+' || body[0] == '-');
    var digits := if signed then body[1..] else body;
    var sign := if signed then [body[0]] else "";
    assert digits != "" && AllDigits(digits);
    assert body == sign + digits && text == w + body;
    assert Uuid.AllSpace(w) by {
      assert forall i | 0 <= i < |w| :: w[i] == text[i];
    }
    assert Written(text, w, sign, digits);
  }
}
