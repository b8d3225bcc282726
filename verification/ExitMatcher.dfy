/** ble_at.py: finding an event (`e` below, EXIT_EVENT in the program) in a byte stream that arrives in
    arbitrary pieces. */
module ExitMatcher {
  import opened Common

  predicate OccursAt(e: string, s: string, i: int) {
    0 <= i && i + |e| <= |s| && s[i..i + |e|] == e
  }

  /** bytearray.find: the first occurrence, or -1. */
  function Find(e: string, s: string): (r: int)
    ensures r == -1 || OccursAt(e, s, r)
    ensures forall i :: OccursAt(e, s, i) ==> 0 <= r <= i
  {
    FindFrom(e, s, 0)
  }

  function FindFrom(e: string, s: string, from: nat): (r: int)
    ensures r == -1 || (from <= r && OccursAt(e, s, r))
    ensures forall i | i >= from :: OccursAt(e, s, i) ==> 0 <= r <= i
    decreases |s| - from
  {
    if from + |e| > |s| then -1
    else if OccursAt(e, s, from) then from
    else if from == |s| then -1
    else FindFrom(e, s, from + 1)
  }

  /** The last `k` bytes of `s` are the first `k` of the event, and not all of it. */
  predicate EndsInPrefix(e: string, s: string, k: int) {
    0 <= k <= |s| && k < |e| && s[|s| - k..] == e[..k]
  }

  /** The length of the longest such end. */
  function HeldLen(e: string, s: string): (k: nat)
    requires |e| > 0
    ensures EndsInPrefix(e, s, k)
    ensures forall j :: EndsInPrefix(e, s, j) ==> j <= k
  {
    HeldBelow(e, s, Min(|s|, |e| - 1))
  }

  function HeldBelow(e: string, s: string, limit: nat): (k: nat)
    requires limit <= |s| && limit < |e|
    ensures k <= limit && EndsInPrefix(e, s, k)
    ensures forall j | j <= limit :: EndsInPrefix(e, s, j) ==> j <= k
  {
    if EndsInPrefix(e, s, limit) then limit else HeldBelow(e, s, limit - 1)
  }

  /** What is known after a stream: the bytes passed on as data, and either the bytes held back, or the
      bytes that follow the event. */
  datatype Match = Before(data: string, held: string) | After(data: string, rest: string)

  /** The intended answer, read off the whole stream. */
  function Whole(e: string, stream: string): Match
    requires |e| > 0
  {
    var at := Find(e, stream);
    if at >= 0 then After(stream[..at], stream[at + |e|..])
    else
      var k := HeldLen(e, stream);
      Before(stream[..|stream| - k], stream[|stream| - k..])
  }

  /** `m` with `data` passed on before it. */
  function Prepend(data: string, m: Match): Match {
    match m
    case Before(more, held) => Before(data + more, held)
    case After(more, rest) => After(data + more, rest)
  }

  /** One chunk, given the answer so far: only the held bytes are looked at again. */
  function Feed(e: string, m: Match, chunk: string): Match
    requires |e| > 0
  {
    match m
    case After(data, rest) => After(data, rest + chunk)
    case Before(data, held) => Prepend(data, Whole(e, held + chunk))
  }

  function FeedAll(e: string, m: Match, chunks: seq<string>): Match
    requires |e| > 0
    decreases |chunks|
  {
    if chunks == [] then m else FeedAll(e, Feed(e, m, chunks[0]), chunks[1..])
  }

  // ---------- proofs ----------

  lemma OccursInPrefix(e: string, s: string, t: string, i: int)
    requires i + |e| <= |s|
    ensures OccursAt(e, s, i) <==> OccursAt(e, s + t, i)
  {
    if i >= 0 {
      assert s[i..i + |e|] == (s + t)[i..i + |e|];
    }
  }

  lemma OccursInSuffix(e: string, s: string, t: string, i: int)
    requires i >= |s|
    ensures OccursAt(e, t, i - |s|) <==> OccursAt(e, s + t, i)
  {
    if i + |e| <= |s| + |t| {
      assert t[i - |s|..i - |s| + |e|] == (s + t)[i..i + |e|];
    }
  }

  // An occurrence that straddles the end of `s` makes `s` end in a prefix of the event.
  lemma Straddles(e: string, s: string, t: string, i: int)
    requires OccursAt(e, s + t, i) && i < |s| < i + |e|
    ensures EndsInPrefix(e, s, |s| - i)
  {
    var j := |s| - i;
    assert (s + t)[i..i + |e|][..j] == (s + t)[i..i + j] == s[i..];
  }

  lemma NoEarlyOccurrence(e: string, s: string, t: string, i: int)
    requires |e| > 0 && Find(e, s) == -1 && OccursAt(e, s + t, i)
    ensures i >= |s| - HeldLen(e, s)
  {
    if i + |e| <= |s| {
      OccursInPrefix(e, s, t, i);
    } else if i < |s| {
      Straddles(e, s, t, i);
    }
  }

  lemma SameFind(e: string, s: string, t: string)
    requires |e| > 0 && Find(e, s) == -1
    ensures var d := |s| - HeldLen(e, s); var r := Find(e, s[d..] + t);
            Find(e, s + t) == if r == -1 then -1 else d + r
  {
    var d := |s| - HeldLen(e, s);
    var a := Find(e, s + t);
    var r := Find(e, s[d..] + t);
    assert s + t == s[..d] + (s[d..] + t);
    if a >= 0 {
      NoEarlyOccurrence(e, s, t, a);
      OccursInSuffix(e, s[..d], s[d..] + t, a);
    }
    if r >= 0 {
      OccursInSuffix(e, s[..d], s[d..] + t, d + r);
    }
  }

  lemma EndsInSuffix(e: string, s: string, t: string, k: int)
    requires k <= |t|
    ensures EndsInPrefix(e, t, k) <==> EndsInPrefix(e, s + t, k)
  {
    if k >= 0 {
      assert t[|t| - k..] == (s + t)[|s + t| - k..];
    }
  }

  lemma EndsBefore(e: string, s: string, t: string, k: int)
    requires EndsInPrefix(e, s + t, k) && k >= |t|
    ensures EndsInPrefix(e, s, k - |t|)
  {
    var j := k - |t|;
    assert (s + t)[|s + t| - k..][..j] == s[|s| - j..];
    assert e[..k][..j] == e[..j];
  }

  lemma SameHeld(e: string, s: string, t: string)
    requires |e| > 0
    ensures HeldLen(e, s + t) == HeldLen(e, s[|s| - HeldLen(e, s)..] + t)
  {
    var d := |s| - HeldLen(e, s);
    var u := s[d..] + t;
    assert s + t == s[..d] + u;
    var a := HeldLen(e, s + t);
    EndsInSuffix(e, s[..d], u, HeldLen(e, u));
    if a >= |t| {
      EndsBefore(e, s, t, a);
    }
    EndsInSuffix(e, s[..d], u, a);
  }

  lemma FeedAfter(e: string, stream: string, chunk: string)
    requires |e| > 0 && Find(e, stream) >= 0
    ensures Feed(e, Whole(e, stream), chunk) == Whole(e, stream + chunk)
  {
    var at := Find(e, stream);
    var a := Find(e, stream + chunk);
    OccursInPrefix(e, stream, chunk, at);
    OccursInPrefix(e, stream, chunk, a);
    assert (stream + chunk)[..at] == stream[..at];
    assert (stream + chunk)[at + |e|..] == stream[at + |e|..] + chunk;
  }

  // Bytes in front of `t` that neither contain nor begin the event change nothing but the data.
  lemma PrependFound(e: string, p: string, t: string)
    requires |e| > 0 && Find(e, t) >= 0 && Find(e, p + t) == |p| + Find(e, t)
    ensures Whole(e, p + t) == Prepend(p, Whole(e, t))
  {
    Bounds(e, t);
    var r := Find(e, t);
    hide Find, HeldLen, OccursAt, EndsInPrefix;
    Cut(p, t, r);
    Cut(p, t, r + |e|);
  }

  lemma PrependHeld(e: string, p: string, t: string)
    requires |e| > 0 && Find(e, t) == -1 && Find(e, p + t) == -1 && HeldLen(e, p + t) == HeldLen(e, t)
    ensures Whole(e, p + t) == Prepend(p, Whole(e, t))
  {
    Bounds(e, t);
    hide Find, HeldLen, OccursAt, EndsInPrefix;
    Cut(p, t, |t| - HeldLen(e, t));
  }

  lemma WholePrepend(e: string, p: string, t: string)
    requires |e| > 0
    requires Find(e, p + t) == if Find(e, t) == -1 then -1 else |p| + Find(e, t)
    requires HeldLen(e, p + t) == HeldLen(e, t)
    ensures Whole(e, p + t) == Prepend(p, Whole(e, t))
  {
    Bounds(e, t);
    hide *;
    if Find(e, t) == -1 {
      PrependHeld(e, p, t);
    } else {
      PrependFound(e, p, t);
    }
  }

  lemma FeedBefore(e: string, stream: string, chunk: string)
    requires |e| > 0 && Find(e, stream) == -1
    ensures Feed(e, Whole(e, stream), chunk) == Whole(e, stream + chunk)
  {
    SameFind(e, stream, chunk);
    SameHeld(e, stream, chunk);
    Bounds(e, stream);
    var d := |stream| - HeldLen(e, stream);
    assert Whole(e, stream) == Before(stream[..d], stream[d..]);
    hide Find, HeldLen, OccursAt, EndsInPrefix, Whole, Prepend;
    Reglue(stream, d, chunk);
    WholePrepend(e, stream[..d], stream[d..] + chunk);
  }

  lemma Bounds(e: string, s: string)
    requires |e| > 0
    ensures Find(e, s) == -1 || 0 <= Find(e, s) <= |s| - |e|
    ensures HeldLen(e, s) <= |s|
  {
  }

  lemma Reglue(s: string, d: nat, t: string)
    requires d <= |s|
    ensures s + t == s[..d] + (s[d..] + t)
  {
  }

  lemma Cut(s: string, t: string, n: nat)
    requires n <= |t|
    ensures (s + t)[..|s| + n] == s + t[..n] && (s + t)[|s| + n..] == t[n..]
  {
  }

  /** However the stream is cut into chunks the answer is that of the whole stream: before the event the
      data passed on plus the held bytes is the stream, and the held bytes are its longest end that may
      begin the event; after it the data is exactly what preceded its first occurrence. */
  lemma {:induction false} ChunksDoNotMatter(e: string, stream: string, chunks: seq<string>)
    requires |e| > 0
    ensures FeedAll(e, Whole(e, stream), chunks) == Whole(e, stream + Join(chunks))
    decreases |chunks|
  {
    hide Whole, Feed;
    if chunks == [] {
      assert stream + Join(chunks) == stream;
    } else {
      if Find(e, stream) == -1 {
        FeedBefore(e, stream, chunks[0]);
      } else {
        FeedAfter(e, stream, chunks[0]);
      }
      ChunksDoNotMatter(e, stream + chunks[0], chunks[1..]);
      assert stream + Join(chunks) == stream + chunks[0] + Join(chunks[1..]);
    }
  }

  lemma NothingYet(e: string)
    requires |e| > 0
    ensures Whole(e, "") == Before("", "")
  {
  }

  /** The first byte of the event occurs nowhere else in it. */
  predicate StartsOnce(e: string) {
    |e| > 0 && forall j | 0 < j < |e| :: e[j] != e[0]
  }

  // An occurrence that starts before an occurrence of the first byte ends before it.
  lemma OccurrencesApart(e: string, s: string, i: int, p: int)
    requires StartsOnce(e) && OccursAt(e, s, i) && i < p < |s| && s[p] == e[0]
    ensures i + |e| <= p
  {
    forall k | i <= k < i + |e|
      ensures s[k] == e[k - i]
    {
      assert s[i..i + |e|][k - i] == s[k];
    }
  }

  /** The event cannot overlap itself, so data without an occurrence, followed by the event, is split there. */
  lemma SplitsAtEvent(e: string, data: string, rest: string)
    requires StartsOnce(e) && Find(e, data) == -1
    ensures Whole(e, data + e + rest) == After(data, rest)
  {
    var s := data + e + rest;
    assert s == data + (e + rest);
    assert OccursAt(e, e + rest, 0);
    OccursInSuffix(e, data, e + rest, |data|);
    var a := Find(e, s);
    if a < |data| {
      OccurrencesApart(e, s, a, |data|);
      OccursInPrefix(e, data, e + rest, a);
    }
    assert s[..|data|] == data && s[|data| + |e|..] == rest;
  }

  /** Until the event is complete, only data has been passed on. */
  lemma PartialEvent(e: string, data: string, n: nat)
    requires StartsOnce(e) && Find(e, data) == -1 && n < |e|
    ensures Whole(e, data + e[..n]).Before? && Whole(e, data + e[..n]).data <= data
  {
    var s := data + e[..n];
    var a := Find(e, s);
    if a >= 0 {
      if n > 0 && a < |data| {
        OccurrencesApart(e, s, a, |data|);
      }
      OccursInPrefix(e, data, e[..n], if a + |e| <= |data| then a else -|e|);
    }
    assert s[|s| - n..] == e[..n];
    assert EndsInPrefix(e, s, n);
    assert s[..|s| - HeldLen(e, s)] == data[..|s| - HeldLen(e, s)];
  }

  lemma ExitEventStartsOnce()
    ensures StartsOnce(EXIT_EVENT) && |EXIT_EVENT| == 17
  {
  }

  // The rest of the stream is in `buffer`; `passed` has been passed on.
  ghost predicate Remains(e: string, all: string, passed: string, buffer: string) {
    |e| > 0 && Whole(e, all) == Prepend(passed, Whole(e, buffer))
  }

  lemma AllRemains(e: string, all: string)
    requires |e| > 0
    ensures Remains(e, all, "", all)
  {
    hide Whole;
    assert forall s: string :: "" + s == s;
  }

  lemma AtEvent(e: string, all: string, passed: string, buffer: string)
    requires Remains(e, all, passed, buffer) && Find(e, buffer) == 0
    ensures |e| <= |buffer| && Whole(e, all) == After(passed, buffer[|e|..])
  {
  }

  lemma DropToEvent(e: string, s: string)
    requires |e| > 0 && Find(e, s) >= 0
    ensures Find(e, s) + |e| <= |s|
    ensures Whole(e, s[Find(e, s)..]) == After("", s[Find(e, s) + |e|..])
  {
    var at := Find(e, s);
    assert s == s[..at] + s[at..];
    OccursInSuffix(e, s[..at], s[at..], at);
    assert s[at..][|e|..] == s[at + |e|..];
  }

  lemma BeforeEvent(e: string, all: string, passed: string, buffer: string)
    requires Remains(e, all, passed, buffer) && Find(e, buffer) > 0
    ensures Find(e, buffer) <= |buffer|
    ensures Remains(e, all, passed + buffer[..Find(e, buffer)], buffer[Find(e, buffer)..])
  {
    DropToEvent(e, buffer);
  }

  lemma DropToHeld(e: string, s: string)
    requires |e| > 0 && Find(e, s) == -1
    ensures HeldLen(e, s) <= |s|
    ensures Whole(e, s[|s| - HeldLen(e, s)..]) == Before("", s[|s| - HeldLen(e, s)..])
  {
    SameFind(e, s, "");
    SameHeld(e, s, "");
    hide Find, HeldLen, EndsInPrefix, OccursAt;
    var h := s[|s| - HeldLen(e, s)..];
    assert s + "" == s && h + "" == h;
  }

  lemma NoEvent(e: string, all: string, passed: string, buffer: string)
    requires Remains(e, all, passed, buffer) && Find(e, buffer) == -1
    ensures var n := |buffer| - HeldLen(e, buffer);
            && n >= 0
            && (n == 0 ==> Whole(e, all) == Before(passed, buffer))
            && Remains(e, all, passed + buffer[..n], buffer[n..])
  {
    var n := |buffer| - HeldLen(e, buffer);
    DropToHeld(e, buffer);
    assert Whole(e, buffer) == Before(buffer[..n], buffer[n..]);
    assert n == 0 ==> buffer[..n] == "" && buffer[n..] == buffer;
    hide Whole, Find, HeldLen, EndsInPrefix, OccursAt;
    PassedOn(passed, buffer[..n], buffer[n..]);
  }

  lemma PassedOn(passed: string, more: string, held: string)
    ensures Prepend(passed, Before(more, held)) == Prepend(passed + more, Before("", held))
    ensures more == "" ==> passed + more == passed
  {
  }

  lemma NothingLeft(e: string, all: string, passed: string)
    requires Remains(e, all, passed, "")
    ensures Whole(e, all) == Before(passed, "")
  {
    NothingYet(e);
  }

  lemma HeldUnique(e: string, s: string, k: nat)
    requires EndsInPrefix(e, s, k)
    requires forall j | k < j <= Min(|s|, |e| - 1) :: !EndsInPrefix(e, s, j)
    ensures k == HeldLen(e, s)
  {
  }
}
