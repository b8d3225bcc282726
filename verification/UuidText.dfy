/** app_common.c as it is written: normalising into a caller's buffer. */
module UuidText {
  import opened Common
  import opened AtCommands
  import opened AtText
  import opened Uuid

  // snprintk of a text that fits.
  method Store(output: array<char>, text: string)
    requires |text| < output.Length
    modifies output
    ensures output[..|text|] == text && output[|text|] == NUL
  {
    for i := 0 to |text|
      invariant forall j | 0 <= j < i :: output[j] == text[j]
    {
      output[i] := text[i];
    }
    output[|text|] := NUL;
  }

  // The two white-space loops.
  method Ends(input: string) returns (text: string, len: nat)
    ensures text == TrimLeft(input) && len <= |text| && TrimRight(text) == text[..len]
  {
    var start := 0;
    while start < |input| && IsSpace(input[start])
      invariant start <= |input| && forall i | 0 <= i < start :: IsSpace(input[i])
    {
      start := start + 1;
    }
    text := input[start..];
    TrimLeftDrops(input, start);
    len := |text|;
    while len > 0 && IsSpace(text[len - 1])
      invariant len <= |text| && forall i | len <= i < |text| :: IsSpace(text[i])
    {
      len := len - 1;
    }
    TrimRightDrops(text, len);
  }

  lemma {:induction false} UndashedPrefix(s: string, n: nat)
    requires n <= |s|
    ensures Undashed(s[..n]) <= Undashed(s)
    decreases |s|
  {
    if n < |s| {
      UndashedPrefix(s[..|s| - 1], n);
      assert s[..|s| - 1][..n] == s[..n];
    } else {
      assert s[..n] == s;
    }
  }

  // The loop that drops the dashes; it gives up at the first other character and at the 33rd digit.
  method Compact(body: string) returns (compact: string, ok: bool)
    ensures ok <==> |Undashed(body)| <= 32 && AllHex(Undashed(body))
    ensures ok ==> compact == Undashed(body)
  {
    compact := "";
    for i := 0 to |body|
      invariant compact == Undashed(body[..i]) && |compact| <= 32 && AllHex(compact)
    {
      assert body[..i + 1][..i] == body[..i];
      UndashedPrefix(body, i + 1);
      if body[i] == '-' {
        continue;
      }
      if !IsHex(body[i]) || |compact| >= 32 {
        assert Undashed(body[..i + 1]) == compact + [body[i]];
        assert Undashed(body)[|compact|] == body[i];
        return compact, false;
      }
      compact := compact + [body[i]];
    }
    assert body[..|body|] == body;
    ok := true;
  }

  /** ble_host_normalize_uuid: writes the canonical text, or nothing at all. */
  method NormalizeUuid(input: string, output: array<char>) returns (ok: bool)
    requires output.Length == STR_LEN
    modifies output
    ensures ok <==> Normalize(input).Some?
    ensures ok ==> Holds(output[..], 0, Normalize(input).value)
    ensures !ok ==> output[..] == old(output[..])
  {
    Idempotent(input);
    ghost var canonical := Normalize(input);
    var text, len := Ends(input);
    if len == 0 {
      return false;
    }
    if len <= 6 && Normalize16(text).Some? {
      Store(output, Normalize16(text).value);
      Stored(output[..], input);
      return true;
    }
    var compact, valid := Compact(text[..len]);
    if !valid || |compact| != 32 {
      return false;
    }
    Store(output, Dashed(Map(c => Lower(c), compact)));
    Stored(output[..], input);
    return true;
  }

  lemma Stored(output: seq<char>, input: string)
    requires Normalize(input).Some? && |Normalize(input).value| < |output|
    requires output[..|Normalize(input).value|] == Normalize(input).value && output[|Normalize(input).value|] == NUL
    ensures Holds(output, 0, Normalize(input).value)
  {
    NoNul(input);
  }

  lemma NoNul(input: string)
    requires Normalize(input).Some?
    ensures NUL !in Normalize(input).value
  {
    MeansNormalize(input);
    var text := TrimLeft(input);
    if Means(input).Short? {
      var digits := if Prefixed(text) then text[2..] else text;
      forall i | 0 <= i < |digits|
        ensures Upper(digits[i]) != NUL
      {
        CaseKeepsDigit(digits[i]);
      }
    } else {
      var compact := Undashed(TrimRight(text));
      forall i | 0 <= i < |compact|
        ensures Lower(compact[i]) != NUL
      {
        CaseKeepsDigit(compact[i]);
      }
    }
  }
}
