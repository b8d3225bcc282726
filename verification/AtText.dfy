/** at_host.c: the two routines that edit a command line in place. */
module AtText {
  import opened Common
  import opened AtCommands

  // The C string at `from`, when one ends inside the array.
  predicate Terminated(text: seq<char>, from: nat) {
    from <= |text| && NUL in text[from..]
  }

  // `s` is the C string at `from`.
  predicate Holds(text: seq<char>, from: nat, s: string) {
    from + |s| < |text| && text[from..from + |s|] == s && NUL !in s && text[from + |s|] == NUL
  }

  lemma {:induction false} HoldsCStr(text: seq<char>, from: nat, s: string)
    requires Holds(text, from, s)
    ensures CStr(text[from..]) == s
    decreases |s|
  {
    var t := text[from..];
    assert t[0] == text[from];
    if s != "" {
      assert text[from..from + |s|][0] == text[from] == s[0];
      assert text[from + 1..from + 1 + |s[1..]|] == s[1..];
      HoldsCStr(text, from + 1, s[1..]);
      assert t[1..] == text[from + 1..];
    }
  }

  lemma {:induction false} CStrHolds(text: seq<char>, from: nat)
    requires Terminated(text, from)
    ensures Holds(text, from, CStr(text[from..]))
    decreases |text| - from
  {
    var t := text[from..];
    if t[0] != NUL {
      assert t[1..] == text[from + 1..];
      CStrHolds(text, from + 1);
      var s := CStr(t[1..]);
      assert text[from..from + 1 + |s|] == [text[from]] + text[from + 1..from + 1 + |s|];
    }
  }

  lemma {:induction false} TrimLeftDrops(s: string, n: nat)
    requires n <= |s| && (forall i | 0 <= i < n :: IsSpace(s[i])) && (n < |s| ==> !IsSpace(s[n]))
    ensures TrimLeft(s) == s[n..]
    decreases n
  {
    if n > 0 {
      TrimLeftDrops(s[1..], n - 1);
    }
  }

  lemma {:induction false} TrimRightDrops(s: string, n: nat)
    requires n <= |s| && (forall i | n <= i < |s| :: IsSpace(s[i])) && (n > 0 ==> !IsSpace(s[n - 1]))
    ensures TrimRight(s) == s[..n]
    decreases |s| - n
  {
    if n < |s| {
      TrimRightDrops(s[..|s| - 1], n);
      assert s[..|s| - 1][..n] == s[..n];
    } else {
      assert s[..n] == s;
    }
  }

  method StrLen(text: array<char>, from: nat) returns (n: nat)
    requires Terminated(text[..], from)
    ensures Holds(text[..], from, CStr(text[from..])) && n == |CStr(text[from..])|
  {
    ghost var s := CStr(text[from..]);
    assert text[..][from..] == text[from..];
    CStrHolds(text[..], from);
    HoldsAt(text[..], from, s);
    n := 0;
    while text[from + n] != NUL
      invariant n <= |s|
      decreases |s| - n
    {
      n := n + 1;
    }
  }

  // Character by character.
  lemma HoldsAt(text: seq<char>, from: nat, s: string)
    requires Holds(text, from, s)
    ensures forall i | 0 <= i < |s| :: text[from + i] == s[i] && text[from + i] != NUL
    ensures text[from + |s|] == NUL
  {
    forall i | 0 <= i < |s|
      ensures text[from + i] == s[i]
    {
      assert text[from..from + |s|][i] == text[from + i];
    }
  }

  lemma TrimIs(s: string, start: nat, end: nat)
    requires start <= end <= |s|
    requires (forall i | 0 <= i < start :: IsSpace(s[i])) && (start < |s| ==> start < end && !IsSpace(s[start]))
    requires (forall i | end <= i < |s| :: IsSpace(s[i])) && (start < end ==> !IsSpace(s[end - 1]))
    ensures Trim(s) == s[start..end]
  {
    TrimLeftDrops(s, start);
    var t := s[start..];
    assert forall i | end - start <= i < |t| :: t[i] == s[start + i];
    TrimRightDrops(t, end - start);
    assert t[..end - start] == s[start..end];
  }

  // The ends of the trimmed text.
  method TrimEnds(text: array<char>) returns (start: nat, end: nat)
    requires Terminated(text[..], 0)
    ensures start <= end <= |CStr(text[..])| && Holds(text[..], 0, CStr(text[..]))
    ensures Trim(CStr(text[..])) == CStr(text[..])[start..end]
  {
    ghost var s := CStr(text[..]);
    assert text[0..] == text[..];
    end := StrLen(text, 0);
    HoldsAt(text[..], 0, s);
    start := 0;
    while start < end && IsSpace(text[start])
      invariant start <= end == |s| && forall i | 0 <= i < start :: IsSpace(s[i])
    {
      start := start + 1;
    }
    while end > start && IsSpace(text[end - 1])
      invariant start <= end <= |s| && (forall i | end <= i < |s| :: IsSpace(s[i]))
      invariant start < |s| ==> start < end && !IsSpace(s[start])
    {
      end := end - 1;
    }
    TrimIs(s, start, end);
  }

  /** trim_whitespace. */
  method TrimWhitespace(text: array<char>)
    requires Terminated(text[..], 0)
    modifies text
    ensures Holds(text[..], 0, Trim(CStr(old(text[..]))))
    ensures CStr(text[..]) == Trim(CStr(old(text[..])))
  {
    ghost var s := CStr(text[..]);
    var start, end := TrimEnds(text);
    ghost var u := s[start..end];
    assert u == text[start..end] by { assert text[..][0..|s|][start..end] == text[start..end]; }
    MoveDown(text, start, end - start);
    text[end - start] := NUL;
    hide CStr, Trim;
    assert text[..][0..|u|] == u;
    assert forall c | c in u :: c in s;
    HoldsCStr(text[..], 0, u);
    assert text[..][0..] == text[..];
  }

  // memmove to the front.
  method MoveDown(text: array<char>, from: nat, n: nat)
    requires from + n <= text.Length
    modifies text
    ensures text[..n] == old(text[from..from + n])
    ensures forall i | n <= i < text.Length :: text[i] == old(text[i])
  {
    for i := 0 to n
      invariant forall j | 0 <= j < i :: text[j] == old(text[from + j])
      invariant forall j | i <= j < text.Length :: text[j] == old(text[j])
    {
      text[i] := text[from + i];
    }
  }

  lemma HoldsElsewhere(before: seq<char>, after: seq<char>, from: nat, s: string)
    requires Holds(before, from, s) && |after| == |before|
    requires forall i | from <= i <= from + |s| :: after[i] == before[i]
    ensures Holds(after, from, s)
  {
    assert after[from..from + |s|] == before[from..from + |s|];
  }

  lemma CommaIs(s: string, i: nat)
    requires i <= |s| && (i < |s| ==> s[i] == ',') && forall j | 0 <= j < i :: s[j] != ','
    ensures CommaAt(s) == i
  {
  }

  // strchr(cursor, ',').
  method StrChrComma(text: array<char>, from: nat, ghost s: string) returns (comma: nat, found: bool)
    requires Holds(text[..], from, s)
    ensures comma == CommaAt(s) && (found <==> comma < |s|)
  {
    HoldsAt(text[..], from, s);
    comma := 0;
    while text[from + comma] != NUL && text[from + comma] != ','
      invariant comma <= |s| && forall j | 0 <= j < comma :: s[j] != ','
      decreases |s| - comma
    {
      comma := comma + 1;
    }
    CommaIs(s, comma);
    found := text[from + comma] != NUL;
  }

  // The arguments found so far, each a C string that ends before the cursor.
  ghost predicate Split(text: seq<char>, args: seq<nat>, done: seq<string>, cursor: nat) {
    |args| == |done| && forall k | 0 <= k < |done| :: Holds(text, args[k], done[k]) && args[k] + |done[k]| < cursor
  }

  // The string at the cursor is still to be split.
  ghost predicate Splitting(text: seq<char>, args: seq<nat>, done: seq<string>, cursor: nat, s: string,
                            spec: seq<string>, left: nat) {
    && Split(text, args, done, cursor) && Terminated(text, cursor) && s == CStr(text[cursor..])
    && spec == done + SplitArgs(s, left)
  }

  /** split_args on the C string at `from`: where each argument starts.  Afterwards each is a C string of
      its own. */
  method SplitInPlace(text: array<char>, from: nat, max: nat) returns (args: seq<nat>)
    requires Terminated(text[..], from)
    modifies text
    ensures Split(text[..], args, SplitArgs(CStr(old(text[..])[from..]), max), text.Length)
  {
    SplittingStarts(text[..], from, max);
    hide *;
    ghost var s := CStr(text[..][from..]);
    ghost var spec := SplitArgs(s, max);
    ghost var done: seq<string> := [];
    var cursor: nat, count: nat := from, 0;
    args := [];
    while count < max
      invariant count <= max && Splitting(text[..], args, done, cursor, s, spec, max - count)
    {
      var piece := NextArg(text, cursor, s, args, done, spec, max - count);
      if piece == End {
        return;
      }
      args := args + [cursor];
      if piece == Last {
        return;
      }
      done := done + [s[..piece.comma]];
      s := s[piece.comma + 1..];
      cursor := cursor + piece.comma + 1;
      count := count + 1;
    }
    SplittingEnds(text[..], args, done, cursor, s, spec, 0);
  }

  // What the loop finds at the cursor: the end, the last argument, or one that a comma ends.
  datatype Piece = End | Last | Cut(comma: nat)

  method NextArg(text: array<char>, cursor: nat, ghost s: string, ghost args: seq<nat>, ghost done: seq<string>,
                 ghost spec: seq<string>, ghost left: nat)
    returns (piece: Piece)
    requires Splitting(text[..], args, done, cursor, s, spec, left) && left > 0
    modifies text
    ensures match piece
            case End => Split(text[..], args, spec, text.Length)
            case Last => Split(text[..], args + [cursor], spec, text.Length)
            case Cut(comma) =>
              comma < |s| &&
              Splitting(text[..], args + [cursor], done + [s[..comma]], cursor + comma + 1, s[comma + 1..], spec, left - 1)
  {
    hide *;
    SplittingHere(text[..], args, done, cursor, s, spec, left);
    if text[cursor] == NUL {
      SplittingEnds(text[..], args, done, cursor, s, spec, left);
      return End;
    }
    var comma, found := StrChrComma(text, cursor, s);
    if !found {
      CommaBound(s);
      SplittingLast(text[..], args, done, cursor, s, spec, left);
      return Last;
    }
    SplitOff(text, cursor, comma, s, args, done, spec, left);
    return Cut(comma);
  }

  lemma CommaBound(s: string)
    ensures CommaAt(s) <= |s|
  {
  }

  // One argument, with its comma replaced by a terminator.
  method SplitOff(text: array<char>, cursor: nat, comma: nat, ghost s: string, ghost args: seq<nat>,
                  ghost done: seq<string>, ghost spec: seq<string>, ghost left: nat)
    requires Splitting(text[..], args, done, cursor, s, spec, left) && Holds(text[..], cursor, s)
    requires left > 0 && comma == CommaAt(s) < |s|
    modifies text
    ensures Splitting(text[..], args + [cursor], done + [s[..comma]], cursor + comma + 1, s[comma + 1..], spec, left - 1)
  {
    hide CStr, Split, SplitArgs, Splitting;
    SplittingCut(text[..], args, done, cursor, s, spec, left);
    CutAt(text, cursor, comma, s, args, done);
    assert text[..][cursor + comma + 1..] == text[cursor + comma + 1..];
    SplittingNext(text[..], args + [cursor], done + [s[..comma]], cursor + comma + 1, s[comma + 1..], spec, left - 1);
  }

  lemma SplittingStarts(text: seq<char>, from: nat, max: nat)
    requires Terminated(text, from)
    ensures Splitting(text, [], [], from, CStr(text[from..]), SplitArgs(CStr(text[from..]), max), max)
  {
    NoArgs(text, from);
    hide CStr, SplitArgs, Split;
  }

  lemma SplittingHere(text: seq<char>, args: seq<nat>, done: seq<string>, cursor: nat, s: string, spec: seq<string>,
                      left: nat)
    requires Splitting(text, args, done, cursor, s, spec, left)
    ensures cursor < |text| && (text[cursor] == NUL <==> s == "") && Holds(text, cursor, s)
  {
    StringHere(text, cursor);
    CStrHolds(text, cursor);
  }

  lemma SplittingLast(text: seq<char>, args: seq<nat>, done: seq<string>, cursor: nat, s: string, spec: seq<string>,
                      left: nat)
    requires Splitting(text, args, done, cursor, s, spec, left) && left > 0 && s != "" && CommaAt(s) == |s|
    requires Holds(text, cursor, s)
    ensures Split(text, args + [cursor], spec, |text|)
  {
    SplitStep(s, left, done);
    LastArg(text, args, done, cursor, s);
    hide CStr, SplitArgs, Split, Holds, CommaAt;
  }

  lemma SplittingCut(text: seq<char>, args: seq<nat>, done: seq<string>, cursor: nat, s: string, spec: seq<string>,
                     left: nat)
    requires Splitting(text, args, done, cursor, s, spec, left) && left > 0 && s != "" && CommaAt(s) < |s|
    ensures Split(text, args, done, cursor)
    ensures spec == done + [s[..CommaAt(s)]] + SplitArgs(s[CommaAt(s) + 1..], left - 1)
  {
    SplitStep(s, left, done);
    hide CStr, SplitArgs, Split, CommaAt;
  }

  lemma SplittingNext(text: seq<char>, args: seq<nat>, done: seq<string>, cursor: nat, s: string, spec: seq<string>,
                      left: nat)
    requires Split(text, args, done, cursor) && Terminated(text, cursor) && s == CStr(text[cursor..])
    requires spec == done + SplitArgs(s, left)
    ensures Splitting(text, args, done, cursor, s, spec, left)
  {
  }

  lemma SplittingEnds(text: seq<char>, args: seq<nat>, done: seq<string>, cursor: nat, s: string, spec: seq<string>,
                      left: nat)
    requires Splitting(text, args, done, cursor, s, spec, left) && (left == 0 || s == "")
    ensures Split(text, args, spec, |text|)
  {
    SplitEnd(s, left, done);
    Longer(text, args, done, cursor);
    hide CStr, SplitArgs, Split;
  }

  lemma SplitStep(s: string, max: nat, done: seq<string>)
    requires s != "" && max > 0
    ensures var c := CommaAt(s);
            done + SplitArgs(s, max) ==
            if c == |s| then done + [s] else done + [s[..c]] + SplitArgs(s[c + 1..], max - 1)
  {
    var c := CommaAt(s);
    if c < |s| {
      Regroup(done, s[..c], SplitArgs(s[c + 1..], max - 1));
    }
  }

  lemma Regroup(a: seq<string>, x: string, b: seq<string>)
    ensures a + ([x] + b) == a + [x] + b
  {
  }

  lemma SplitEnd(s: string, max: nat, done: seq<string>)
    requires s == "" || max == 0
    ensures done + SplitArgs(s, max) == done
  {
  }

  lemma NoArgs(text: seq<char>, cursor: nat)
    ensures Split(text, [], [], cursor)
  {
  }

  lemma StringHere(text: seq<char>, from: nat)
    requires Terminated(text, from)
    ensures from < |text| && (text[from] == NUL <==> CStr(text[from..]) == "")
  {
    assert text[from..][0] == text[from];
  }

  lemma LastArg(text: seq<char>, args: seq<nat>, done: seq<string>, cursor: nat, s: string)
    requires Split(text, args, done, cursor) && Holds(text, cursor, s)
    ensures Split(text, args + [cursor], done + [s], |text|)
  {
  }

  lemma Longer(text: seq<char>, args: seq<nat>, done: seq<string>, cursor: nat)
    requires Split(text, args, done, cursor) && cursor <= |text|
    ensures Split(text, args, done, |text|)
  {
  }

  lemma CutKeeps(before: seq<char>, after: seq<char>, args: seq<nat>, done: seq<string>, cursor: nat, comma: nat, s: string)
    requires Split(before, args, done, cursor) && Holds(before, cursor, s) && comma < |s|
    requires after == before[cursor + comma := NUL]
    ensures Split(after, args, done, cursor) && Holds(after, cursor, s[..comma])
  {
    forall k | 0 <= k < |done|
      ensures Holds(after, args[k], done[k])
    {
      HoldsElsewhere(before, after, args[k], done[k]);
    }
    assert after[cursor..cursor + comma] == before[cursor..cursor + |s|][..comma];
  }

  lemma CutNext(before: seq<char>, after: seq<char>, cursor: nat, comma: nat, s: string)
    requires Holds(before, cursor, s) && comma < |s| && after == before[cursor + comma := NUL]
    ensures Holds(after, cursor + comma + 1, s[comma + 1..]) && Terminated(after, cursor + comma + 1)
    ensures CStr(after[cursor + comma + 1..]) == s[comma + 1..]
  {
    var next := cursor + comma + 1;
    assert after[next..cursor + |s|] == before[cursor..cursor + |s|][comma + 1..];
    HoldsCStr(after, next, s[comma + 1..]);
    assert after[next..][|s| - comma - 1] == NUL;
  }

  // Replacing the comma by a terminator.
  method CutAt(text: array<char>, cursor: nat, comma: nat, ghost s: string, ghost args: seq<nat>, ghost done: seq<string>)
    requires Holds(text[..], cursor, s) && comma < |s|
    requires Split(text[..], args, done, cursor)
    modifies text
    ensures Split(text[..], args + [cursor], done + [s[..comma]], cursor + comma + 1)
    ensures cursor + comma + 1 < text.Length && Terminated(text[..], cursor + comma + 1)
    ensures CStr(text[cursor + comma + 1..]) == s[comma + 1..]
  {
    ghost var before := text[..];
    CutKeeps(before, before[cursor + comma := NUL], args, done, cursor, comma, s);
    CutNext(before, before[cursor + comma := NUL], cursor, comma, s);
    text[cursor + comma] := NUL;
    assert text[..] == before[cursor + comma := NUL];
    assert text[..][cursor + comma + 1..] == text[cursor + comma + 1..];
    hide CStr;
  }
}
