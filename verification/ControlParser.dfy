/** ble_at.py: the parser of control-mode bytes.  Lines are kept as the bytes they were decoded from, which is
    what is decoded as long as they are ASCII. */
module ControlParser {
  import opened Common

  // The ASCII characters str.strip removes.
  predicate IsSpace(c: char) {
    c == ' ' || 9 <= c as int <= 13 || 28 <= c as int <= 31
  }

  function LStrip(s: string): string {
    if s != "" && IsSpace(s[0]) then LStrip(s[1..]) else s
  }

  function RStrip(s: string): string {
    if s != "" && IsSpace(s[|s| - 1]) then RStrip(s[..|s| - 1]) else s
  }

  function Strip(s: string): string {
    RStrip(LStrip(s))
  }

  /** `_line_buffer` and the events emitted so far. */
  datatype Control = Control(line: string, events: seq<string>)

  function OnByte(c: Control, ch: char): Control {
    if ch == '>' && c.line == "" then c.(events := c.events + [">"])
    else if !IsEol(ch) then c.(line := c.line + [ch])
    else
      var text := Strip(c.line + [ch]);
      Control("", if text != "" then c.events + [text] else c.events)
  }

  function OnBytes(c: Control, bytes: string): Control {
    if bytes == "" then c else OnByte(OnBytes(c, bytes[..|bytes| - 1]), bytes[|bytes| - 1])
  }

  lemma NoBytes(c: Control)
    ensures OnBytes(c, "") == c
  {
  }

  /** How the bytes were cut into reads does not matter. */
  lemma {:induction false} OnBytesSplit(c: Control, a: string, b: string)
    ensures OnBytes(c, a + b) == OnBytes(OnBytes(c, a), b)
    decreases |b|
  {
    if b == "" {
      assert a + b == a;
    } else {
      OnBytesSplit(c, a, b[..|b| - 1]);
      assert (a + b)[..|a + b| - 1] == a + b[..|b| - 1];
    }
  }

  // ---------- what the firmware sends ----------

  datatype Item = Prompt | Text(text: string)

  function Serialised(item: Item): string {
    match item case Prompt => ">" case Text(text) => text + NEWLINE
  }

  function Event(item: Item): string {
    match item case Prompt => ">" case Text(text) => text
  }

  function Serialise(items: seq<Item>): string {
    if items == [] then ""
    else Serialise(items[..|items| - 1]) + Serialised(items[|items| - 1])
  }

  function Events(items: seq<Item>): seq<string> {
    seq(|items|, i requires 0 <= i < |items| => Event(items[i]))
  }

  predicate NoEol(s: string) {
    forall i | 0 <= i < |s| :: !IsEol(s[i])
  }

  /** Bytes that decode to themselves. */
  predicate Ascii(text: string) {
    forall i | 0 <= i < |text| :: text[i] as int < 0x80
  }

  /** The ASCII lines that come back as one event: no line ending inside, not blank, no white space around,
      and not starting with `>`, unless that is all there is. */
  predicate Plain(text: string) {
    Ascii(text) && Trimmed(text)
  }

  predicate Trimmed(text: string) {
    NoEol(text) && text != "" && !IsSpace(text[0]) && !IsSpace(text[|text| - 1]) && (text[0] == '>' ==> text == ">")
  }

  // ---------- proofs ----------

  lemma {:induction false} Collects(c: Control, text: string)
    requires NoEol(text) && (c.line == "" && text != "" ==> text[0] != '>')
    ensures OnBytes(c, text) == c.(line := c.line + text)
    decreases |text|
  {
    if text == "" {
      assert c.line + text == c.line;
    } else {
      Collects(c, text[..|text| - 1]);
      assert c.line + text == c.line + text[..|text| - 1] + [text[|text| - 1]];
    }
  }

  lemma {:induction false} LStripKeeps(s: string)
    ensures |LStrip(s)| <= |s| && LStrip(s) == s[|s| - |LStrip(s)|..]
    ensures LStrip(s) != "" ==> !IsSpace(LStrip(s)[0])
    decreases |s|
  {
    if s != "" && IsSpace(s[0]) {
      LStripKeeps(s[1..]);
    }
  }

  lemma {:induction false} RStripKeeps(s: string)
    ensures |RStrip(s)| <= |s| && RStrip(s) == s[..|RStrip(s)|]
    ensures RStrip(s) != "" ==> !IsSpace(RStrip(s)[|RStrip(s)| - 1])
    decreases |s|
  {
    if s != "" && IsSpace(s[|s| - 1]) {
      RStripKeeps(s[..|s| - 1]);
    }
  }

  lemma StripEnds(s: string)
    ensures Strip(s) != "" ==> !IsSpace(Strip(s)[0]) && !IsSpace(Strip(s)[|Strip(s)| - 1])
    ensures |Strip(s)| <= |s|
    ensures forall c | c in Strip(s) :: c in s
  {
    LStripKeeps(s);
    RStripKeeps(LStrip(s));
  }

  // A stripped line end disappears; a stripped text followed by one stays.
  lemma StripLine(text: string, eol: char)
    requires IsEol(eol)
    requires text == "" || (!IsSpace(text[0]) && !IsSpace(text[|text| - 1]))
    ensures Strip(text + [eol]) == text
  {
    if text == "" {
      assert LStrip([eol]) == LStrip([eol][1..]);
    } else {
      assert LStrip(text + [eol]) == text + [eol];
      assert (text + [eol])[..|text|] == text;
      assert RStrip(text) == text;
      assert RStrip(text + [eol]) == RStrip(text);
    }
  }

  lemma Ends(c: Control, text: string)
    requires NoEol(text) && (c.line == "" && text != "" ==> text[0] != '>')
    ensures OnBytes(c, text + NEWLINE) ==
            Control("", if Strip(c.line + text + [CR]) != "" then c.events + [Strip(c.line + text + [CR])] else c.events)
  {
    Collects(c, text);
    OnBytesSplit(c, text, NEWLINE);
    var m := OnBytes(c, text);
    assert NEWLINE[..1] == "\r" && "\r"[..0] == "";
    assert OnBytes(m, "\r") == OnByte(m, CR);
    assert OnBytes(m, NEWLINE) == OnByte(OnBytes(m, "\r"), LF);
    StripLine("", LF);
    assert "" + [LF] == [LF];
  }

  lemma SameEnd(events: seq<string>, a: string, b: string)
    ensures events + [a] == events + [b] <==> a == b
    ensures events != events + [b]
  {
    assert (events + [a])[|events|] == a;
    assert (events + [b])[|events|] == b;
    assert |events| < |events + [b]|;
  }

  lemma CleanStrip(text: string)
    requires NoEol(text) && (text == "" || text[0] != '>')
    ensures Strip(text + [CR]) == text && text != "" <==> Trimmed(text)
  {
    if text == "" || (!IsSpace(text[0]) && !IsSpace(text[|text| - 1])) {
      StripLine(text, CR);
    } else {
      StripEnds(text + [CR]);
    }
    hide Strip;
  }

  lemma CleanLine(events: seq<string>, text: string)
    requires NoEol(text) && (text == "" || text[0] != '>')
    ensures OnBytes(Control("", events), text + NEWLINE).events == events + [text] <==> Trimmed(text)
    ensures OnBytes(Control("", events), text + NEWLINE).line == ""
  {
    var c := Control("", events);
    Ends(c, text);
    CleanStrip(text);
    hide OnBytes, Strip, Trimmed, NoEol;
    assert c.line + text + [CR] == text + [CR];
    SameEnd(events, Strip(text + [CR]), text);
  }

  lemma BrokenLine(events: seq<string>, text: string)
    requires !NoEol(text)
    ensures OnBytes(Control("", events), text + NEWLINE).events != events + [text]
  {
    NoEolEvents(Control("", events), text + NEWLINE);
    hide OnBytes;
    assert !NoEol((events + [text])[|events|]);
  }

  /** One ASCII line from a clean state: it comes back as exactly one event, itself, if and only if it is
      Plain. */
  lemma LineRoundTrip(events: seq<string>, text: string)
    requires Ascii(text)
    ensures OnBytes(Control("", events), text + NEWLINE).events == events + [text] <==> Plain(text)
    ensures Plain(text) ==> OnBytes(Control("", events), text + NEWLINE).line == ""
  {
    hide OnBytes;
    if !NoEol(text) {
      BrokenLine(events, text);
    } else if text != "" && text[0] == '>' {
      PromptLine(events, text);
    } else {
      CleanLine(events, text);
    }
  }

  lemma PromptLine(events: seq<string>, text: string)
    requires NoEol(text) && text != "" && text[0] == '>'
    ensures OnBytes(Control("", events), text + NEWLINE).events == events + [text] <==> text == ">"
    ensures text == ">" ==> OnBytes(Control("", events), text + NEWLINE).line == ""
  {
    var c := Control("", events);
    var rest := text[1..];
    assert text + NEWLINE == [text[0]] + (rest + NEWLINE);
    OnBytesSplit(c, [text[0]], rest + NEWLINE);
    var m := Control("", events + [">"]);
    assert [text[0]][..0] == "";
    assert OnBytes(c, [text[0]]) == m;
    AtLeast(m, rest + NEWLINE);
    if rest == "" {
      Ends(m, rest);
      StripLine("", CR);
      assert "" + rest + [CR] == [CR];
      assert text == ">";
    } else {
      assert OnBytes(m, rest + NEWLINE).events[|events|] == ">";
    }
  }

  // Events are only added.
  lemma {:induction false} AtLeast(c: Control, bytes: string)
    ensures c.events <= OnBytes(c, bytes).events
    decreases |bytes|
  {
    if bytes != "" {
      AtLeast(c, bytes[..|bytes| - 1]);
    }
  }

  // No new event has a line ending in it.
  lemma {:induction false} NoEolEvents(c: Control, bytes: string)
    requires NoEol(c.line)
    ensures NoEol(OnBytes(c, bytes).line)
    ensures c.events <= OnBytes(c, bytes).events
    ensures forall i | |c.events| <= i < |OnBytes(c, bytes).events| :: NoEol(OnBytes(c, bytes).events[i])
    decreases |bytes|
  {
    if bytes != "" {
      var m := OnBytes(c, bytes[..|bytes| - 1]);
      var ch := bytes[|bytes| - 1];
      NoEolEvents(c, bytes[..|bytes| - 1]);
      if IsEol(ch) {
        StripNoEol(m.line, ch);
      }
    }
  }

  lemma StripNoEol(line: string, eol: char)
    requires NoEol(line) && IsEol(eol)
    ensures NoEol(Strip(line + [eol]))
  {
    var s := line + [eol];
    LStripKeeps(s);
    var t := LStrip(s);
    RStripKeeps(t);
    var u := RStrip(t);
    if t != "" {
      assert t[|t| - 1] == eol;
    }
  }

  /** Prompts and plain lines, in any order, come back as exactly those events; by OnBytesSplit, however
      the bytes are cut into reads. */
  lemma {:induction false} RoundTrip(items: seq<Item>)
    requires forall i | 0 <= i < |items| :: items[i].Text? ==> Plain(items[i].text)
    ensures OnBytes(Control("", []), Serialise(items)) == Control("", Events(items))
    decreases |items|
  {
    hide OnBytes, OnByte, Plain, Serialised, Event, Events;
    var c := Control("", []);
    if items == [] {
      NoBytes(c);
      NoEvents();
    } else {
      var front := items[..|items| - 1];
      var last := items[|items| - 1];
      RoundTrip(front);
      OnBytesSplit(c, Serialise(front), Serialised(last));
      ItemTrip(Events(front), last);
      LastEvent(items);
    }
  }

  lemma NoEvents()
    ensures Events([]) == []
  {
  }

  lemma LastEvent(items: seq<Item>)
    requires items != []
    ensures Events(items) == Events(items[..|items| - 1]) + [Event(items[|items| - 1])]
  {
  }

  lemma ItemTrip(events: seq<string>, item: Item)
    requires item.Text? ==> Plain(item.text)
    ensures OnBytes(Control("", events), Serialised(item)) == Control("", events + [Event(item)])
  {
    match item {
      case Prompt =>
        assert ">"[..0] == "";
        assert OnBytes(Control("", events), ">") == OnByte(Control("", events), '>');
      case Text(text) =>
        hide OnBytes;
        LineRoundTrip(events, text);
    }
  }
}
