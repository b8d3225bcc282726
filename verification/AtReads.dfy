/** at_host.c over a run of reads.  control_uart_isr hands on at most 64 bytes a call, and never none. */
module AtReads {
  import opened Common
  import opened Protocol
  import opened AtCommands
  import opened AtParser
  import opened AtChunks

  function ReceiveAll(ops: Ops, s: At, chunks: seq<string>): At
    decreases |chunks|
  {
    if chunks == [] then s else ReceiveAll(ops, Receive(ops, s, chunks[0]), chunks[1..])
  }

  /** The read before `chunks[i]` ends after an accepted AT+SEND line and at most line endings, and that read
      begins with a line ending. */
  predicate Torn(ops: Ops, s: At, chunks: seq<string>, i: nat) {
    0 < i < |chunks| && chunks[i] != "" && IsEol(chunks[i][0]) && EndsInSend(ops, s, Join(chunks[..i]))
  }

  predicate Untorn(ops: Ops, s: At, chunks: seq<string>) {
    forall i | 0 < i < |chunks| :: !Torn(ops, s, chunks, i)
  }

  // ---------- reads in sequence ----------

  lemma {:induction false} AllConcat(ops: Ops, s: At, a: seq<string>, b: seq<string>)
    ensures ReceiveAll(ops, s, a + b) == ReceiveAll(ops, ReceiveAll(ops, s, a), b)
    decreases |a|
  {
    hide Receive;
    if a == [] {
      assert a + b == b;
    } else {
      assert (a + b)[0] == a[0] && (a + b)[1..] == a[1..] + b;
      AllConcat(ops, Receive(ops, s, a[0]), a[1..], b);
    }
  }

  lemma AllOne(ops: Ops, s: At, chunk: string)
    ensures ReceiveAll(ops, s, [chunk]) == Receive(ops, s, chunk)
  {
    hide Receive;
    assert [chunk][1..] == [];
  }

  lemma {:induction false} JoinConcat(a: seq<string>, b: seq<string>)
    ensures Join(a + b) == Join(a) + Join(b)
    decreases |a|
  {
    if a == [] {
      assert a + b == b;
    } else {
      assert (a + b)[0] == a[0] && (a + b)[1..] == a[1..] + b;
      JoinConcat(a[1..], b);
    }
  }

  lemma {:induction false} WithinAll(ops: Ops, s: At, chunks: seq<string>)
    requires Within(Rx(s, false))
    ensures Within(Rx(ReceiveAll(ops, s, chunks), false))
    decreases |chunks|
  {
    if chunks != [] {
      WithinBytes(ops, Rx(s, false), chunks[0]);
      StillWithin(OnBytes(ops, Rx(s, false), chunks[0]));
      hide Within, OnBytes;
      WithinAll(ops, Receive(ops, s, chunks[0]), chunks[1..]);
    }
  }

  lemma StillWithin(r: Rx)
    requires Within(r)
    ensures Within(Rx(r.s, false))
  {
  }

  lemma PrefixOf(chunks: seq<string>, i: nat, j: nat)
    requires i <= j <= |chunks|
    ensures chunks[..j][..i] == chunks[..i]
  {
  }

  /** Reads that are not torn are as good as one. */
  lemma {:induction false} UntornReads(ops: Ops, s: At, chunks: seq<string>)
    requires Within(Rx(s, false)) && Untorn(ops, s, chunks)
    ensures ReceiveAll(ops, s, chunks) == Receive(ops, s, Join(chunks))
    decreases |chunks|
  {
    if chunks != [] {
      var n := |chunks| - 1;
      var front := chunks[..n];
      forall i | 0 < i < |front|
        ensures !Torn(ops, s, front, i)
      {
        assert !Torn(ops, s, chunks, i);
        PrefixOf(chunks, i, n);
      }
      UntornReads(ops, s, front);
      LastRead(ops, s, chunks);
    }
  }

  lemma LastRead(ops: Ops, s: At, chunks: seq<string>)
    requires Within(Rx(s, false)) && chunks != []
    ensures var n := |chunks| - 1; var front := chunks[..n];
            && Join(chunks) == Join(front) + chunks[n]
            && (ReceiveAll(ops, s, front) == Receive(ops, s, Join(front)) && !Torn(ops, s, chunks, n) ==>
                  ReceiveAll(ops, s, chunks) == Receive(ops, s, Join(chunks)))
  {
    var n := |chunks| - 1;
    var front := chunks[..n];
    assert chunks == front + [chunks[n]];
    JoinSnoc(front, chunks[n]);
    AllConcat(ops, s, front, [chunks[n]]);
    AllOne(ops, ReceiveAll(ops, s, front), chunks[n]);
    CutMatters(ops, s, Join(front), chunks[n]);
    SkipMeans(ops, s, Join(front));
    if n == 0 {
      NoSendYet(ops, s);
    }
    hide Receive, ReceiveAll, OnBytes, Within, EndsInSend, Join;
  }

  // ---------- torn reads ----------

  lemma {:induction false} FirstByteAll(ops: Ops, s: At, chunks: seq<string>, n: nat, eol: bool)
    requires Within(Rx(s, false)) && FirstByte(s, n, eol)
    ensures FirstByte(ReceiveAll(ops, s, chunks), n, eol)
    decreases |chunks|
  {
    hide Within, FirstByte, OnBytes;
    if chunks != [] {
      WithinBytes(ops, Rx(s, false), chunks[0]);
      StillWithin(OnBytes(ops, Rx(s, false), chunks[0]));
      FirstByteKept(ops, Rx(s, false), chunks[0], n, eol);
      FirstByteAll(ops, Receive(ops, s, chunks[0]), chunks[1..], n, eol);
    }
  }

  // A payload that begins with a line ending, and one that does not.
  lemma Apart(a: At, b: At, n: nat)
    requires FirstByte(a, n, true) && (Untouched(b, n) || FirstByte(b, n, false))
    ensures a != b
  {
  }

  // The line ending that follows a torn cut is the payload's first byte.
  lemma TornByte(ops: Ops, r: Rx, chunk: string)
    requires Within(r) && r.skip && chunk != "" && IsEol(chunk[0])
    ensures FirstByte(Receive(ops, r.s, chunk), |r.s.out|, true)
  {
    var m := OnByte(ops, Rx(r.s, false), chunk[0]);
    WithinByte(ops, Rx(r.s, false), chunk[0]);
    assert FirstByte(m.s, |r.s.out|, true);
    FirstByteKept(ops, m, chunk[1..], |r.s.out|, true);
    hide OnByte, Within, FirstByte;
  }

  lemma FirstTear(ops: Ops, s: At, chunks: seq<string>, i: nat)
    requires Within(Rx(s, false)) && Torn(ops, s, chunks, i) && Untorn(ops, s, chunks[..i])
    ensures ReceiveAll(ops, s, chunks) != Receive(ops, s, Join(chunks))
  {
    var a, b := chunks[..i], chunks[i..];
    var r := OnBytes(ops, Rx(s, false), Join(a));
    UntornReads(ops, s, a);
    SkipMeans(ops, s, Join(a));
    WithinBytes(ops, Rx(s, false), Join(a));
    assert chunks == a + b;
    JoinConcat(a, b);
    AllConcat(ops, s, a, b);
    OnBytesSplit(ops, Rx(s, false), Join(a), Join(b));
    SkipsEols(ops, r, Join(b));
    TornByte(ops, r, b[0]);
    StillWithin(r);
    WithinBytes(ops, Rx(r.s, false), b[0]);
    StillWithin(OnBytes(ops, Rx(r.s, false), b[0]));
    hide OnBytes, Within, FirstByte, Untouched, EndsInSend, Untorn, Join;
    FirstByteAll(ops, Receive(ops, r.s, b[0]), b[1..], |r.s.out|, true);
    Apart(ReceiveAll(ops, r.s, b), OnBytes(ops, r, Join(b)).s, |r.s.out|);
  }

  lemma {:induction false} TornReads(ops: Ops, s: At, chunks: seq<string>, i: nat)
    requires Within(Rx(s, false)) && Torn(ops, s, chunks, i)
    ensures ReceiveAll(ops, s, chunks) != Receive(ops, s, Join(chunks))
    decreases i
  {
    if j :| 0 < j < i && Torn(ops, s, chunks, j) {
      TornReads(ops, s, chunks, j);
    } else {
      forall j | 0 < j < |chunks[..i]|
        ensures !Torn(ops, s, chunks[..i], j)
      {
        PrefixOf(chunks, j, i);
        assert !Torn(ops, s, chunks, j);
      }
      FirstTear(ops, s, chunks, i);
    }
  }

  /** However an input was cut into reads, the parser does what it does with the whole of it if and only if no
      cut is torn. */
  lemma ReadsMatter(ops: Ops, s: At, chunks: seq<string>)
    requires Within(Rx(s, false))
    ensures ReceiveAll(ops, s, chunks) == Receive(ops, s, Join(chunks)) <==> Untorn(ops, s, chunks)
  {
    hide Torn, Receive, ReceiveAll, Within;
    if Untorn(ops, s, chunks) {
      UntornReads(ops, s, chunks);
    } else {
      var i :| 0 < i < |chunks| && Torn(ops, s, chunks, i);
      TornReads(ops, s, chunks, i);
    }
  }

  /** So a run of reads does what reading its bytes line by line means, if and only if no cut is torn. */
  lemma ReadsRefineLines(ops: Ops, s: At, chunks: seq<string>)
    requires Idle(s)
    ensures ReceiveAll(ops, s, chunks) == Lines(ops, s, Join(chunks)) <==> Untorn(ops, s, chunks)
  {
    ReadsMatter(ops, s, chunks);
    RefinesLines(ops, s, Join(chunks));
    hide Receive, ReceiveAll, Lines, Untorn;
  }

  // ---------- response accounting ----------

  /** The line ending `ch` completes a command: an overflowed line, or one that is not blank. */
  predicate Completes(s: At, ch: char) {
    s.payload.NoPayload? && IsEol(ch) &&
    (s.buffer.overflow || (s.buffer.line != "" && !Parse(s.buffer.line).Blank?))
  }

  function CompletedIn(ops: Ops, r: Rx, bytes: string): nat
    decreases |bytes|
  {
    if bytes == "" then 0
    else (if Completes(r.s, bytes[0]) then 1 else 0) + CompletedIn(ops, OnByte(ops, r, bytes[0]), bytes[1..])
  }

  function CompletedAll(ops: Ops, s: At, chunks: seq<string>): nat
    decreases |chunks|
  {
    if chunks == [] then 0
    else CompletedIn(ops, Rx(s, false), chunks[0]) + CompletedAll(ops, Receive(ops, s, chunks[0]), chunks[1..])
  }

  // The final responses put out and still owed; and the prompts, against the payloads delivered and awaited.
  function Answered(s: At): nat {
    Finals(s.out) + Outstanding(s)
  }

  predicate Prompted(s: At, r: At) {
    Prompts(r.out) + PayloadsSent(s.out) + Outstanding(s) == Prompts(s.out) + PayloadsSent(r.out) + Outstanding(r)
  }

  lemma LineAccounts(ops: Ops, s: At, ch: char)
    requires s.payload.NoPayload? && IsEol(ch)
    ensures Answered(EndLine(ops, s)) == Answered(s) + (if Completes(s, ch) then 1 else 0)
    ensures Prompted(s, EndLine(ops, s))
  {
    hide Finals, Prompts, PayloadsSent, Parse;
    if s.buffer.overflow {
      LineAdds(s, INVALID_COMMAND);
      assert Final(Line(INVALID_COMMAND));
    } else if s.buffer.line != "" {
      if Parse(s.buffer.line).Send? {
        PromptAdds(s);
      } else {
        ExecuteAdds(ops, s, s.buffer.line);
        KeepsPayload(ops, s, s.buffer.line);
        hide Execute;
      }
    }
  }

  lemma KeepsPayload(ops: Ops, s: At, line: string)
    requires s.payload.NoPayload? && !Parse(line).Send?
    ensures Execute(ops, s, line).payload.NoPayload?
  {
    hide Parse, Replies;
  }

  lemma ByteAccounts(ops: Ops, r: Rx, ch: char)
    requires Within(r)
    ensures Answered(OnByte(ops, r, ch).s) == Answered(r.s) + (if Completes(r.s, ch) then 1 else 0)
    ensures Prompted(r.s, OnByte(ops, r, ch).s)
  {
    match r.s.payload {
      case NoPayload =>
        if IsEol(ch) {
          LineAccounts(ops, r.s, ch);
        }
      case Collecting(index, expected, got) =>
        if !(r.skip && got == "" && IsEol(ch)) && |got| + 1 == expected {
          DeliverAdds(ops, r.s, index, got + [ch]);
        }
    }
    hide Finals, Prompts, PayloadsSent, EndLine, Parse;
  }

  lemma PromptedTwice(a: At, b: At, c: At)
    requires Prompted(a, b) && Prompted(b, c)
    ensures Prompted(a, c)
  {
    hide Prompts, PayloadsSent;
  }

  lemma {:induction false} BytesAccount(ops: Ops, r: Rx, bytes: string)
    requires Within(r)
    ensures Answered(OnBytes(ops, r, bytes).s) == Answered(r.s) + CompletedIn(ops, r, bytes)
    ensures Prompted(r.s, OnBytes(ops, r, bytes).s)
    decreases |bytes|
  {
    hide OnByte, Within, Answered, Completes;
    if bytes != "" {
      var m := OnByte(ops, r, bytes[0]);
      WithinByte(ops, r, bytes[0]);
      ByteAccounts(ops, r, bytes[0]);
      BytesAccount(ops, m, bytes[1..]);
      PromptedTwice(r.s, m.s, OnBytes(ops, m, bytes[1..]).s);
      hide Prompted;
    }
  }

  /** Response accounting over every run of reads, torn or not, from any state between two reads: each completed
      command has exactly one final response, but an AT+SEND whose payload is still awaited; and each prompt
      is that of a payload delivered or awaited. */
  lemma {:induction false} ReadsAccount(ops: Ops, s: At, chunks: seq<string>)
    requires Within(Rx(s, false))
    ensures var r := ReceiveAll(ops, s, chunks);
            && Finals(r.out) + Outstanding(r) == Finals(s.out) + Outstanding(s) + CompletedAll(ops, s, chunks)
            && Prompted(s, r)
    decreases |chunks|
  {
    hide Within, Finals, OnBytes, CompletedIn, Prompts, PayloadsSent;
    if chunks != [] {
      var m := Receive(ops, s, chunks[0]);
      WithinBytes(ops, Rx(s, false), chunks[0]);
      StillWithin(OnBytes(ops, Rx(s, false), chunks[0]));
      BytesAccount(ops, Rx(s, false), chunks[0]);
      ReadsAccount(ops, m, chunks[1..]);
      PromptedTwice(s, m, ReceiveAll(ops, m, chunks[1..]));
      hide Prompted;
    }
  }

  /** When no cut is torn, the completed commands are those of the input read line by line. */
  lemma CompletedMeans(ops: Ops, s: At, chunks: seq<string>)
    requires Idle(s) && Untorn(ops, s, chunks)
    ensures CompletedAll(ops, s, chunks) == Completed(Join(chunks))
  {
    ReadsAccount(ops, s, chunks);
    UntornReads(ops, s, chunks);
    RefinesLines(ops, s, Join(chunks));
    Accounting(ops, s, Join(chunks));
    hide Finals, Untorn, Receive, ReceiveAll, Lines, Completed, CompletedAll, Prompts, PayloadsSent;
  }

  /** From power-on. */
  lemma Responses(ops: Ops, chunks: seq<string>)
    ensures var s := At(EMPTY, NoPayload, 0, []); var r := ReceiveAll(ops, s, chunks);
            && Finals(r.out) + Outstanding(r) == CompletedAll(ops, s, chunks)
            && Prompts(r.out) == PayloadsSent(r.out) + Outstanding(r)
  {
    ReadsAccount(ops, At(EMPTY, NoPayload, 0, []), chunks);
    hide ReceiveAll, CompletedAll;
  }
}
