/** app_common.c: the canonical text of a UUID. */
module Uuid {
  import opened Common
  import opened AtCommands

  const STR_LEN: nat := 37   // BLE_HOST_UUID_STR_LEN

  predicate IsHex(c: char) {
    '0' <= c <= '9' || 'a' <= c <= 'f' || 'A' <= c <= 'F'
  }

  function Lower(c: char): char {
    if 'A' <= c <= 'Z' then (c as int + 32) as char else c
  }

  function Map(f: char -> char, s: string): string {
    seq(|s|, i requires 0 <= i < |s| => f(s[i]))
  }

  predicate AllHex(s: string) {
    forall i | 0 <= i < |s| :: IsHex(s[i])
  }

  predicate Prefixed(s: string) {
    |s| >= 2 && s[0] == '0' && (s[1] == 'x' || s[1] == 'X')
  }

  /** normalize_uuid16, on everything up to the terminator. */
  function Normalize16(text: string): Option<string> {
    var digits := if Prefixed(text) then text[2..] else text;
    if |digits| == 4 && AllHex(digits) then Some("0x" + Map(c => Upper(c), digits)) else None
  }

  function Dashed(d: string): string
    requires |d| == 32
  {
    d[..8] + "-" + d[8..12] + "-" + d[12..16] + "-" + d[16..20] + "-" + d[20..]
  }

  function Undashed(s: string): string {
    if s == "" then "" else Undashed(s[..|s| - 1]) + (if s[|s| - 1] == '-' then "" else [s[|s| - 1]])
  }

  // What is tried when the text is not a 16-bit UUID.
  function Normalize128(body: string): Option<string> {
    var compact := Undashed(body);
    if |compact| == 32 && AllHex(compact) then Some(Dashed(Map(c => Lower(c), compact))) else None
  }

  /** ble_host_normalize_uuid.  Only the trimmed part counts for a 128-bit UUID, but a 16-bit one is looked
      for in the text with its trailing white space. */
  function Normalize(input: string): Option<string> {
    var text := TrimLeft(input);
    var body := TrimRight(text);
    if body == "" then None
    else if |body| <= 6 && Normalize16(text).Some? then Normalize16(text)
    else Normalize128(body)
  }

  /** ble_host_uuid_equals. */
  predicate Equals(a: string, b: string) {
    Normalize(a).Some? && Normalize(b).Some? && Normalize(a) == Normalize(b)
  }

  // ---------- what a text means ----------

  function Digit(c: char): nat
    requires IsHex(c)
  {
    if '0' <= c <= '9' then c as int - '0' as int
    else if 'a' <= c <= 'f' then c as int - 'a' as int + 10
    else c as int - 'A' as int + 10
  }

  function Digits(s: string): seq<nat>
    requires AllHex(s)
  {
    seq(|s|, i requires 0 <= i < |s| => Digit(s[i]))
  }

  datatype Meaning = Nothing | Short(digits: seq<nat>) | Long(digits: seq<nat>)

  /** The number a text stands for. */
  function Means(input: string): Meaning {
    var text := TrimLeft(input);
    var body := TrimRight(text);
    var short := if Prefixed(text) then text[2..] else text;
    var long := Undashed(body);
    if |short| == 4 && AllHex(short) then Short(Digits(short))
    else if |long| == 32 && AllHex(long) then Long(Digits(long))
    else Nothing
  }

  // ---------- proofs ----------

  lemma CaseKeepsDigit(c: char)
    requires IsHex(c)
    ensures IsHex(Upper(c)) && Digit(Upper(c)) == Digit(c)
    ensures IsHex(Lower(c)) && Digit(Lower(c)) == Digit(c)
  {
  }

  lemma SameDigit(c: char, d: char)
    requires IsHex(c) && IsHex(d)
    ensures Digit(c) == Digit(d) <==> Upper(c) == Upper(d)
    ensures Digit(c) == Digit(d) <==> Lower(c) == Lower(d)
  {
  }

  lemma SameUpper(a: string, b: string)
    requires AllHex(a) && AllHex(b)
    ensures Map(c => Upper(c), a) == Map(c => Upper(c), b) <==> Digits(a) == Digits(b)
  {
    SameDigits(a, b);
    if Map(c => Upper(c), a) == Map(c => Upper(c), b) {
      assert |a| == |Map(c => Upper(c), a)| == |b|;
      assert forall i | 0 <= i < |a| :: Upper(a[i]) == Map(c => Upper(c), a)[i] == Upper(b[i]);
    }
  }

  lemma SameLower(a: string, b: string)
    requires AllHex(a) && AllHex(b)
    ensures Map(c => Lower(c), a) == Map(c => Lower(c), b) <==> Digits(a) == Digits(b)
  {
    SameDigits(a, b);
    if Map(c => Lower(c), a) == Map(c => Lower(c), b) {
      assert |a| == |Map(c => Lower(c), a)| == |b|;
      assert forall i | 0 <= i < |a| :: Lower(a[i]) == Map(c => Lower(c), a)[i] == Lower(b[i]);
    }
  }

  // Digit by digit.
  lemma SameDigits(a: string, b: string)
    requires AllHex(a) && AllHex(b)
    ensures Digits(a) == Digits(b) <==> |a| == |b| && forall i | 0 <= i < |a| :: Upper(a[i]) == Upper(b[i])
    ensures Digits(a) == Digits(b) <==> |a| == |b| && forall i | 0 <= i < |a| :: Lower(a[i]) == Lower(b[i])
  {
    forall i | 0 <= i < |a| && i < |b|
      ensures Digits(a)[i] == Digits(b)[i] <==> Upper(a[i]) == Upper(b[i])
      ensures Digits(a)[i] == Digits(b)[i] <==> Lower(a[i]) == Lower(b[i])
    {
      SameDigit(a[i], b[i]);
    }
    assert |Digits(a)| == |a| && |Digits(b)| == |b|;
  }

  lemma {:induction false} TrimRightShape(s: string)
    ensures |TrimRight(s)| <= |s| && TrimRight(s) == s[..|TrimRight(s)|]
    ensures forall i | |TrimRight(s)| <= i < |s| :: IsSpace(s[i])
    decreases |s|
  {
    if s != "" && IsSpace(s[|s| - 1]) {
      TrimRightShape(s[..|s| - 1]);
    }
  }

  // A text that is a 16-bit UUID has no trailing white space, so its length is what was tested.
  lemma ShortIsTrimmed(text: string)
    requires Normalize16(text).Some?
    ensures TrimRight(text) == text && 4 <= |text| <= 6
  {
    var last := text[|text| - 1];
    if Prefixed(text) {
      assert last == text[2..][3];
    }
    assert IsHex(last);
  }

  lemma MeansNormalize(a: string)
    ensures Normalize(a) == (match Means(a)
                             case Nothing => None
                             case Short(_) => Normalize16(TrimLeft(a))
                             case Long(_) => Some(Dashed(Map(c => Lower(c), Undashed(TrimRight(TrimLeft(a)))))))
    ensures Means(a).Short? <==> Normalize16(TrimLeft(a)).Some?
  {
    var text := TrimLeft(a);
    if Normalize16(text).Some? {
      ShortIsTrimmed(text);
    }
    assert Undashed("") == "";
  }

  lemma DashedInjective(a: string, b: string)
    requires |a| == |b| == 32
    ensures Dashed(a) == Dashed(b) <==> a == b
    ensures |Dashed(a)| == 36
  {
    var s, t := Dashed(a), Dashed(b);
    if s == t {
      assert a[..8] == s[..8] && b[..8] == t[..8];
      assert a[8..12] == s[9..13] && b[8..12] == t[9..13];
      assert a[12..16] == s[14..18] && b[12..16] == t[14..18];
      assert a[16..20] == s[19..23] && b[16..20] == t[19..23];
      assert a[20..] == s[24..] && b[20..] == t[24..];
      assert a == a[..8] + a[8..12] + a[12..16] + a[16..20] + a[20..];
      assert b == b[..8] + b[8..12] + b[12..16] + b[16..20] + b[20..];
    }
  }

  /** Two texts are equal as UUIDs exactly when both stand for something and stand for the same: equality is
      that of the numbers, whatever the case, the dashes and the white space. */
  lemma EqualsMeans(a: string, b: string)
    ensures Equals(a, b) <==> Means(a) != Nothing && Means(a) == Means(b)
  {
    MeansNormalize(a);
    MeansNormalize(b);
    var s, t := TrimLeft(a), TrimLeft(b);
    if Means(a).Short? && Means(b).Short? {
      var x := if Prefixed(s) then s[2..] else s;
      var y := if Prefixed(t) then t[2..] else t;
      SameUpper(x, y);
      hide Map, AllHex, Digits, TrimLeft, TrimRight;
      var p, q := Map(c => Upper(c), x), Map(c => Upper(c), y);
      assert ("0x" + p)[2..] == p && ("0x" + q)[2..] == q;
    } else if Means(a).Long? && Means(b).Long? {
      var x, y := Undashed(TrimRight(s)), Undashed(TrimRight(t));
      SameLower(x, y);
      DashedInjective(Map(c => Lower(c), x), Map(c => Lower(c), y));
    } else if Means(a) != Nothing && Means(b) != Nothing {
      ShapesDiffer(a, b);
    }
  }

  lemma ShapesDiffer(a: string, b: string)
    requires Means(a).Short? != Means(b).Short? && Means(a) != Nothing && Means(b) != Nothing
    ensures Normalize(a) != Normalize(b)
  {
    MeansNormalize(a);
    MeansNormalize(b);
    LengthTells(a);
    LengthTells(b);
  }

  lemma LengthTells(a: string)
    ensures Means(a).Short? ==> Normalize(a).Some? && |Normalize(a).value| == 6
    ensures Means(a).Long? ==> Normalize(a).Some? && |Normalize(a).value| == 36
  {
    MeansNormalize(a);
    if Means(a).Long? {
      var d := Map(c => Lower(c), Undashed(TrimRight(TrimLeft(a))));
      DashedInjective(d, d);
    }
  }

  // ---------- the canonical form is its own canonical form ----------

  lemma {:induction false} UndashedConcat(a: string, b: string)
    ensures Undashed(a + b) == Undashed(a) + Undashed(b)
    decreases |b|
  {
    if b == "" {
      assert a + b == a;
    } else {
      assert (a + b)[..|a + b| - 1] == a + b[..|b| - 1];
      UndashedConcat(a, b[..|b| - 1]);
    }
  }

  lemma {:induction false} UndashedHex(s: string)
    requires AllHex(s)
    ensures Undashed(s) == s
    decreases |s|
  {
    if s != "" {
      UndashedHex(s[..|s| - 1]);
    }
  }

  /** Only dashes are taken out. */
  lemma {:induction false} UndashedMeans(s: string)
    ensures '-' !in Undashed(s)
    ensures forall c: char | c != '-' :: multiset(Undashed(s))[c] == multiset(s)[c]
    decreases |s|
  {
    if s != "" {
      var n := |s| - 1;
      UndashedMeans(s[..n]);
      OneMoreChar(s[..n], s[n], Undashed(s[..n]), Undashed(s));
      assert s == s[..n] + [s[n]];
    }
  }

  lemma OneMoreChar(s: string, c: char, u: string, v: string)
    requires '-' !in u && v == u + (if c == '-' then "" else [c])
    requires forall d: char | d != '-' :: multiset(u)[d] == multiset(s)[d]
    ensures '-' !in v && forall d: char | d != '-' :: multiset(v)[d] == multiset(s + [c])[d]
  {
    assert u + "" == u;
  }

  lemma UndashedJoin(a: string, b: string)
    requires AllHex(b)
    ensures Undashed(a + "-" + b) == Undashed(a) + b
  {
    UndashedHex(b);
    assert Undashed("-") == "" by { assert "-"[..0] == ""; }
    hide Undashed;
    UndashedConcat(a, "-");
    UndashedConcat(a + "-", b);
    assert Undashed(a) + "" == Undashed(a);
  }

  lemma UndashedDashed(d: string)
    requires |d| == 32 && AllHex(d)
    ensures Undashed(Dashed(d)) == d
  {
    var a, b, c, e, f := d[..8], d[8..12], d[12..16], d[16..20], d[20..];
    UndashedHex(a);
    hide Undashed;
    UndashedJoin(a, b);
    UndashedJoin(a + "-" + b, c);
    UndashedJoin(a + "-" + b + "-" + c, e);
    UndashedJoin(a + "-" + b + "-" + c + "-" + e, f);
    assert d == a + b + c + e + f;
  }

  lemma NoSpaces(s: string)
    requires s != "" && !IsSpace(s[0]) && !IsSpace(s[|s| - 1])
    ensures TrimLeft(s) == s && TrimRight(s) == s
  {
  }

  /** Normalising is idempotent, and its results fit the array they are stored in. */
  lemma Idempotent(a: string)
    ensures Normalize(a).Some? ==> Normalize(Normalize(a).value) == Normalize(a) && |Normalize(a).value| < STR_LEN
  {
    MeansNormalize(a);
    LengthTells(a);
    var text := TrimLeft(a);
    match Means(a) {
      case Nothing =>
      case Short(_) => ShortIdempotent(if Prefixed(text) then text[2..] else text);
      case Long(_) => LongIdempotent(Undashed(TrimRight(text)));
    }
  }

  lemma ShortIdempotent(digits: string)
    requires |digits| == 4 && AllHex(digits)
    ensures var c := "0x" + Map(c => Upper(c), digits); Normalize(c) == Some(c)
  {
    var u := Map(c => Upper(c), digits);
    var c := "0x" + u;
    forall i | 0 <= i < 4
      ensures IsHex(u[i]) && Upper(u[i]) == u[i]
    {
      CaseKeepsDigit(digits[i]);
    }
    assert c[|c| - 1] == u[3];
    NoSpaces(c);
    assert c[2..] == u && Map(c => Upper(c), u) == u;
  }

  lemma LongIdempotent(compact: string)
    requires |compact| == 32 && AllHex(compact)
    ensures var c := Dashed(Map(c => Lower(c), compact)); Normalize(c) == Some(c)
  {
    var d := Map(c => Lower(c), compact);
    var c := Dashed(d);
    forall i | 0 <= i < 32
      ensures IsHex(d[i]) && Lower(d[i]) == d[i]
    {
      CaseKeepsDigit(compact[i]);
    }
    DashedInjective(d, d);
    assert c[0] == d[0] && c[35] == d[31];
    NoSpaces(c);
    UndashedDashed(d);
    assert Map(c => Lower(c), d) == d;
  }

  /** Hence UUID equality is an equivalence on the accepted texts, and a text equals its canonical form. */
  lemma Equivalence(a: string, b: string, c: string)
    ensures Normalize(a).Some? <==> Equals(a, a)
    ensures Normalize(a).Some? ==> Equals(a, Normalize(a).value)
    ensures Equals(a, b) ==> Equals(b, a)
    ensures Equals(a, b) && Equals(b, c) ==> Equals(a, c)
  {
    Idempotent(a);
    hide Normalize;
  }

  /** Four digits are a 16-bit UUID, with or without a prefix in either case. */
  lemma ShortForms(digits: string, prefix: string)
    requires |digits| == 4 && AllHex(digits) && (prefix == "" || prefix == "0x" || prefix == "0X")
    ensures Means(prefix + digits) == Short(Digits(digits))
  {
    var t := prefix + digits;
    assert t != "" && !IsSpace(t[0]);
    assert TrimLeft(t) == t;
    assert prefix == "" ==> t == digits && !Prefixed(t) by { assert !IsHex('x') && !IsHex('X'); }
    assert prefix != "" ==> Prefixed(t) && t[2..] == digits;
  }

  predicate UpperHex(c: char) {
    '0' <= c <= '9' || 'A' <= c <= 'F'
  }

  predicate LowerHex(c: char) {
    '0' <= c <= '9' || 'a' <= c <= 'f'
  }

  lemma LongShape(compact: string)
    requires |compact| == 32 && AllHex(compact)
    ensures var t := Dashed(Map(c => Lower(c), compact));
            |t| == 36 && forall i | 0 <= i < 36 ::
              if i == 8 || i == 13 || i == 18 || i == 23 then t[i] == '-' else LowerHex(t[i])
  {
    var d := Map(c => Lower(c), compact);
    assert forall i | 0 <= i < 32 :: LowerHex(d[i]);
    hide Map;
  }

  /** The canonical text: `0x` and four upper-case digits, or 32 lower-case digits with dashes after the 8th, 12th,
      16th and 20th; and it means what the text meant. */
  lemma CanonicalShape(a: string)
    requires Normalize(a).Some?
    ensures var t := Normalize(a).value;
            && Means(t) == Means(a) != Nothing
            && if Means(a).Short? then
                 |t| == 6 && t[..2] == "0x" && forall i | 2 <= i < 6 :: UpperHex(t[i])
               else
                 |t| == 36 && forall i | 0 <= i < 36 ::
                   if i == 8 || i == 13 || i == 18 || i == 23 then t[i] == '-' else LowerHex(t[i])
  {
    MeansNormalize(a);
    Equivalence(a, a, a);
    EqualsMeans(a, Normalize(a).value);
    if Means(a).Long? {
      LongShape(Undashed(TrimRight(TrimLeft(a))));
    }
    hide Equals, Dashed, TrimLeft, TrimRight, Undashed;
  }

  predicate AllSpace(w: string) {
    forall i | 0 <= i < |w| :: IsSpace(w[i])
  }

  lemma {:induction false} TrimRightAppended(t: string, w: string)
    requires AllSpace(w)
    ensures TrimRight(t + w) == TrimRight(t)
    decreases |w|
  {
    if w == "" {
      assert t + w == t;
    } else {
      assert (t + w)[..|t + w| - 1] == t + w[..|w| - 1];
      TrimRightAppended(t, w[..|w| - 1]);
    }
  }

  lemma {:induction false} TrimLeftPrepended(w: string, t: string)
    requires AllSpace(w)
    ensures TrimLeft(w + t) == TrimLeft(t)
    decreases |w|
  {
    if w == "" {
      assert w + t == t;
    } else {
      assert (w + t)[1..] == w[1..] + t;
      TrimLeftPrepended(w[1..], t);
    }
  }

  lemma {:induction false} UndashedShorter(s: string)
    ensures |Undashed(s)| <= |s|
    decreases |s|
  {
    if s != "" {
      UndashedShorter(s[..|s| - 1]);
    }
  }

  lemma SpacedNot16(t: string, w: string)
    requires AllSpace(w) && w != ""
    ensures Normalize16(t + w) == None
  {
    var s := t + w;
    assert IsSpace(s[|s| - 1]);
  }

  lemma NormalizeParts(a: string)
    ensures var text := TrimLeft(a); var body := TrimRight(text);
            Normalize(a) == if body != "" && |body| <= 6 && Normalize16(text).Some? then Normalize16(text)
                            else Normalize128(body)
  {
    assert Undashed("") == "";
  }

  lemma ShortNot128(t: string)
    requires |t| <= 6
    ensures Normalize128(t) == None
  {
    UndashedShorter(t);
  }

  /** White space after an accepted text is accepted, and changes nothing, if and only if the text is not a
      16-bit UUID; before it, white space never matters. */
  lemma TrailingSpace(t: string, w: string)
    requires Normalize(t).Some? && TrimLeft(t) == t && TrimRight(t) == t && AllSpace(w) && w != ""
    ensures Normalize(t + w).Some? <==> !Means(t).Short?
    ensures Normalize(t + w).Some? ==> Normalize(t + w) == Normalize(t)
    ensures Normalize(w + t) == Normalize(t)
  {
    hide *;
    ShortWhen(t);
    FrontKept(t, w);
    NormalizeParts(t);
    NormalizeParts(t + w);
    NormalizeParts(w + t);
    TrimRightAppended(t, w);
    TrimLeftPrepended(w, t);
    SpacedNot16(t, w);
    if Means(t).Short? {
      ShortIsTrimmed(t);
      ShortNot128(t);
    }
  }

  lemma ShortWhen(t: string)
    requires Normalize(t).Some?
    ensures Means(t).Short? <==> Normalize16(TrimLeft(t)).Some?
    ensures Means(t).Short? ==> TrimRight(TrimLeft(t)) == TrimLeft(t) && |TrimLeft(t)| <= 6
    ensures TrimRight(TrimLeft(t)) != "" && TrimLeft(t) != ""
  {
    MeansNormalize(t);
    if Normalize16(TrimLeft(t)).Some? {
      ShortIsTrimmed(TrimLeft(t));
    }
  }

  lemma FrontKept(t: string, w: string)
    requires TrimLeft(t) == t && t != ""
    ensures TrimLeft(t + w) == t + w
  {
    TrimLeftShorter(t[1..]);
  }

  lemma {:induction false} TrimLeftShorter(s: string)
    ensures |TrimLeft(s)| <= |s|
    decreases |s|
  {
    if s != "" {
      TrimLeftShorter(s[1..]);
    }
  }
}
