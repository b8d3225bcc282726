/** e2e_stream_test.py: the test frames, and what decoding a stream means. */
module Frames {

  type byte = b: int | 0 <= b < 256

  const MAGIC: seq<byte> := [66, 65, 84, 72]  // "BATH"
  const HEADER: nat := 14

  datatype Frame = Frame(seq_: nat, txMs: nat, payloadLen: nat)

  datatype Option<T> = None | Some(value: T)

  /** The number stored in little-endian order. */
  function Le(bytes: seq<byte>): nat {
    if bytes == [] then 0 else bytes[0] + 256 * Le(bytes[1..])
  }

  function Pack(value: nat, width: nat): (bytes: seq<byte>)
    ensures |bytes| == width
  {
    if width == 0 then [] else [value % 256] + Pack(value / 256, width - 1)
  }

  function Fill(b: byte, n: nat): seq<byte> {
    seq(n, _ => b)
  }

  /** _validate_frame. */
  function Validate(n: nat, frame: seq<byte>): Option<Frame>
    requires n >= HEADER
  {
    if |frame| != n then None
    else
      var number, txMs, len := Le(frame[4..8]), Le(frame[8..12]), Le(frame[12..14]);
      if frame[..4] != MAGIC || len != n then None
      else if exists i | HEADER <= i < n :: frame[i] != number % 256 then None
      else Some(Frame(number, txMs, len))
  }

  /** build_frame; struct.pack accepts 32-bit sequence numbers and 16-bit lengths. */
  function Build(number: nat, txMs: nat, n: nat): seq<byte>
    requires n >= HEADER
  {
    MAGIC + Pack(number, 4) + Pack(txMs, 4) + Pack(n, 2) + Fill(number % 256, n - HEADER)
  }

  /** The intended decoding: from the left, a valid frame where there is one, otherwise one byte on. */
  function Greedy(n: nat, s: seq<byte>): seq<Frame>
    requires n >= HEADER
    decreases |s|
  {
    if |s| < n then []
    else
      match Validate(n, s[..n])
      case Some(f) => [f] + Greedy(n, s[n..])
      case None => Greedy(n, s[1..])
  }

  predicate ValidAt(n: nat, s: seq<byte>)
    requires n >= HEADER
  {
    |s| >= n && Validate(n, s[..n]).Some?
  }

  /** After decoding `frames` from `s`, keeping `buffer` is as good as keeping all of `s`. */
  ghost predicate Resumes(n: nat, s: seq<byte>, frames: seq<Frame>, buffer: seq<byte>)
    requires n >= HEADER
  {
    forall t: seq<byte> :: Greedy(n, s + t) == frames + Greedy(n, buffer + t)
  }

  // ---------- proofs ----------

  lemma ResumesNow(n: nat, s: seq<byte>)
    requires n >= HEADER
    ensures Resumes(n, s, [], s)
  {
  }

  lemma ResumesTwice(n: nat, s: seq<byte>, f: seq<Frame>, m: seq<byte>, g: seq<Frame>, r: seq<byte>)
    requires n >= HEADER && Resumes(n, s, f, m) && Resumes(n, m, g, r)
    ensures Resumes(n, s, f + g, r)
  {
    hide Greedy;
    forall t: seq<byte>
      ensures Greedy(n, s + t) == f + g + Greedy(n, r + t)
    {
      assert f + g + Greedy(n, r + t) == f + (g + Greedy(n, r + t));
    }
  }

  lemma ResumesMore(n: nat, s: seq<byte>, f: seq<Frame>, m: seq<byte>, chunk: seq<byte>)
    requires n >= HEADER && Resumes(n, s, f, m)
    ensures Resumes(n, s + chunk, f, m + chunk)
  {
    hide Greedy;
    forall t: seq<byte>
      ensures Greedy(n, s + chunk + t) == f + Greedy(n, m + chunk + t)
    {
      assert s + chunk + t == s + (chunk + t) && m + chunk + t == m + (chunk + t);
    }
  }

  // A first byte that starts no frame, whatever follows, can go.
  lemma DropByte(n: nat, s: seq<byte>)
    requires n >= HEADER && |s| > 0
    requires forall t: seq<byte> :: !ValidAt(n, s + t)
    ensures Resumes(n, s, [], s[1..])
  {
    forall t: seq<byte>
      ensures Greedy(n, s + t) == [] + Greedy(n, s[1..] + t)
    {
      assert !ValidAt(n, s + t);
      assert (s + t)[1..] == s[1..] + t;
    }
  }

  lemma DropNonMagic(n: nat, s: seq<byte>)
    requires n >= HEADER && |s| >= 4 && s[..4] != MAGIC
    ensures Resumes(n, s, [], s[1..])
  {
    forall t: seq<byte>
      ensures !ValidAt(n, s + t)
    {
      if |s + t| >= n {
        assert (s + t)[..n][..4] == s[..4];
      }
    }
    DropByte(n, s);
  }

  predicate MagicAt(s: seq<byte>, i: int) {
    0 <= i && i + 4 <= |s| && s[i..i + 4] == MAGIC
  }

  /** Everything before the first magic, or before the last three bytes, can go. */
  lemma {:induction false} DropToMagic(n: nat, s: seq<byte>, start: nat)
    requires n >= HEADER && (start == 0 || start + 3 <= |s|)
    requires forall i | 0 <= i < start :: !MagicAt(s, i)
    ensures Resumes(n, s, [], s[start..])
    decreases start
  {
    if start == 0 {
      assert s[0..] == s;
      ResumesNow(n, s);
    } else {
      assert !MagicAt(s, 0) && s[..4] == s[0..4];
      DropNonMagic(n, s);
      var r := s[1..];
      forall i | 0 <= i < start - 1
        ensures !MagicAt(r, i)
      {
        assert !MagicAt(s, i + 1);
        assert r[i..i + 4] == s[i + 1..i + 1 + 4];
      }
      DropToMagic(n, r, start - 1);
      assert r[start - 1..] == s[start..];
      hide Resumes, Greedy;
      ResumesTwice(n, s, [], r, [], s[start..]);
    }
  }

  lemma DropInvalid(n: nat, s: seq<byte>)
    requires n >= HEADER && |s| >= n && Validate(n, s[..n]) == None
    ensures Resumes(n, s, [], s[1..])
  {
    forall t: seq<byte>
      ensures !ValidAt(n, s + t)
    {
      assert (s + t)[..n] == s[..n];
    }
    DropByte(n, s);
  }

  lemma TakeValid(n: nat, s: seq<byte>)
    requires n >= HEADER && |s| >= n && Validate(n, s[..n]).Some?
    ensures Resumes(n, s, [Validate(n, s[..n]).value], s[n..])
  {
    forall t: seq<byte>
      ensures Greedy(n, s + t) == [Validate(n, s[..n]).value] + Greedy(n, s[n..] + t)
    {
      assert (s + t)[..n] == s[..n] && (s + t)[n..] == s[n..] + t;
    }
  }

  // ---------- building and decoding ----------

  lemma {:induction false} LePack(value: nat, width: nat)
    ensures Le(Pack(value, width)) == value % Power256(width)
    decreases width
  {
    if width > 0 {
      LePack(value / 256, width - 1);
      assert Pack(value, width)[1..] == Pack(value / 256, width - 1);
      DivMod(value, Power256(width - 1));
    }
  }

  function Power256(width: nat): nat
    ensures Power256(width) > 0
  {
    if width == 0 then 1 else 256 * Power256(width - 1)
  }

  lemma DivMod(value: nat, p: nat)
    requires p > 0
    ensures value % (256 * p) == value % 256 + 256 * (value / 256 % p)
  {
    var q, r := value / 256, value % 256;
    var a, b := q / p, q % p;
    assert value == 256 * (a * p + b) + r;
    assert value == a * (256 * p) + (256 * b + r);
    assert 0 <= 256 * b + r < 256 * p;
    ModUnique(value, 256 * p, a, 256 * b + r);
  }

  lemma ModUnique(value: nat, m: nat, q: nat, r: nat)
    requires m > 0 && value == q * m + r && r < m
    ensures value % m == r
  {
    var d := value / m - q;
    assert value % m == value - (value / m) * m;
    assert d * m == r - value % m;
    MulBig(d, m);
  }

  lemma MulBig(d: int, m: int)
    requires m >= 0
    ensures d >= 1 ==> d * m >= m
    ensures d <= -1 ==> d * m <= -m
  {
    if d >= 1 {
      assert d * m == (d - 1) * m + m;
    } else if d <= -1 {
      assert d * m == (d + 1) * m - m;
    }
  }

  lemma BuildParts(number: nat, txMs: nat, n: nat)
    requires n >= HEADER
    ensures var f := Build(number, txMs, n);
            && |f| == n
            && f[..4] == MAGIC
            && f[4..8] == Pack(number, 4) && f[8..12] == Pack(txMs, 4) && f[12..14] == Pack(n, 2)
            && forall i | HEADER <= i < n :: f[i] == number % 256
  {
    hide Pack;
  }

  lemma Powers()
    ensures Power256(4) == 0x1_0000_0000 && Power256(2) == 0x1_0000
  {
    assert Power256(1) == 256 && Power256(2) == 256 * 256 && Power256(3) == 256 * 256 * 256;
  }

  /** A built frame is valid and says what it was built from. */
  lemma BuildValid(number: nat, txMs: nat, n: nat)
    requires HEADER <= n < 0x1_0000 && number < 0x1_0000_0000 && txMs < 0x1_0000_0000
    ensures |Build(number, txMs, n)| == n
    ensures Validate(n, Build(number, txMs, n)) == Some(Frame(number, txMs, n))
  {
    hide Build, Pack, Le, Power256;
    BuildParts(number, txMs, n);
    LePack(number, 4);
    LePack(txMs, 4);
    LePack(n, 2);
    Powers();
  }

  lemma {:induction false} PackLe(bytes: seq<byte>)
    ensures Pack(Le(bytes), |bytes|) == bytes && Le(bytes) < Power256(|bytes|)
    decreases |bytes|
  {
    if bytes != [] {
      PackLe(bytes[1..]);
      assert Le(bytes) % 256 == bytes[0] && Le(bytes) / 256 == Le(bytes[1..]);
      assert bytes == [bytes[0]] + bytes[1..];
    }
  }

  /** A valid frame is a built one: every byte of it is the one build_frame would have put there. */
  lemma ValidBuilt(n: nat, frame: seq<byte>)
    requires n >= HEADER && Validate(n, frame).Some?
    ensures var g := Validate(n, frame).value;
            && n < 0x1_0000 && g.seq_ < 0x1_0000_0000 && g.txMs < 0x1_0000_0000 && g.payloadLen == n
            && frame == Build(g.seq_, g.txMs, n)
  {
    var g := Validate(n, frame).value;
    PackLe(frame[4..8]);
    PackLe(frame[8..12]);
    PackLe(frame[12..14]);
    Powers();
    hide Pack, Le, Power256;
    assert frame == frame[..4] + frame[4..8] + frame[8..12] + frame[12..14] + frame[14..];
    assert frame[14..] == Fill(g.seq_ % 256, n - HEADER);
  }

  /** So a frame is valid if and only if it was built, and what it then says is what it was built from. */
  lemma ValidMeans(n: nat, frame: seq<byte>, g: Frame)
    requires n >= HEADER
    ensures Validate(n, frame) == Some(g) <==>
            && n < 0x1_0000 && g.seq_ < 0x1_0000_0000 && g.txMs < 0x1_0000_0000 && g.payloadLen == n
            && frame == Build(g.seq_, g.txMs, n)
  {
    if Validate(n, frame).Some? {
      ValidBuilt(n, frame);
    }
    if n < 0x1_0000 && g.seq_ < 0x1_0000_0000 && g.txMs < 0x1_0000_0000 {
      BuildValid(g.seq_, g.txMs, n);
    }
    hide Validate, Build;
  }

  // ---------- what is found in a stream ----------

  /** Where the decoder takes its frames. */
  function Places(n: nat, s: seq<byte>, from: nat): seq<nat>
    requires n >= HEADER && from <= |s|
    decreases |s| - from
  {
    if |s| - from < n then []
    else if Validate(n, s[from..from + n]).Some? then [from] + Places(n, s, from + n)
    else Places(n, s, from + 1)
  }

  predicate BuiltAt(n: nat, s: seq<byte>, i: nat, g: Frame)
    requires n >= HEADER
  {
    && i + n <= |s| && g.seq_ < 0x1_0000_0000 && g.txMs < 0x1_0000_0000 && g.payloadLen == n < 0x1_0000
    && s[i..i + n] == Build(g.seq_, g.txMs, n)
  }

  /** `frames` are built frames of `s` at `places`, which do not overlap, and no built frame starts between
      them, before the first (from `from` on) or after the last. */
  ghost predicate Leftmost(n: nat, s: seq<byte>, from: nat, places: seq<nat>, frames: seq<Frame>)
    requires n >= HEADER
    decreases |places|
  {
    |places| == |frames| &&
    if places == [] then forall i: nat, g: Frame | i >= from :: !BuiltAt(n, s, i, g)
    else
      && from <= places[0] && BuiltAt(n, s, places[0], frames[0])
      && (forall i: nat, g: Frame | from <= i < places[0] :: !BuiltAt(n, s, i, g))
      && Leftmost(n, s, places[0] + n, places[1..], frames[1..])
  }

  lemma InvalidHere(n: nat, s: seq<byte>, i: nat)
    requires n >= HEADER && (i + n <= |s| ==> Validate(n, s[i..i + n]) == None)
    ensures forall g: Frame :: !BuiltAt(n, s, i, g)
  {
    forall g: Frame
      ensures !BuiltAt(n, s, i, g)
    {
      if i + n <= |s| {
        ValidMeans(n, s[i..i + n], g);
      }
    }
  }

  lemma BuiltHere(n: nat, s: seq<byte>, i: nat, g: Frame)
    requires n >= HEADER && i + n <= |s| && Validate(n, s[i..i + n]) == Some(g)
    ensures BuiltAt(n, s, i, g)
  {
    ValidMeans(n, s[i..i + n], g);
  }

  lemma LeftmostLater(n: nat, s: seq<byte>, from: nat, places: seq<nat>, frames: seq<Frame>)
    requires n >= HEADER && Leftmost(n, s, from + 1, places, frames) && forall g: Frame :: !BuiltAt(n, s, from, g)
    ensures Leftmost(n, s, from, places, frames)
  {
    hide BuiltAt;
  }

  /** The decoder finds exactly the leftmost non-overlapping frames that somebody built: nothing that is not
      byte for byte a built frame is ever returned, and none that starts outside a returned one is missed. */
  lemma {:induction false} GreedyFinds(n: nat, s: seq<byte>, from: nat)
    requires n >= HEADER && from <= |s|
    ensures Leftmost(n, s, from, Places(n, s, from), Greedy(n, s[from..]))
    decreases |s| - from
  {
    hide Validate, BuiltAt;
    var rest := s[from..];
    if |rest| < n {
      forall i: nat, g: Frame | i >= from
        ensures !BuiltAt(n, s, i, g)
      {
        InvalidHere(n, s, i);
      }
    } else {
      assert rest[..n] == s[from..from + n] && rest[n..] == s[from + n..] && rest[1..] == s[from + 1..];
      match Validate(n, s[from..from + n]) {
        case Some(g) =>
          BuiltHere(n, s, from, g);
          GreedyFinds(n, s, from + n);
          TakesFrame(n, s, from, g, Places(n, s, from + n), Greedy(n, s[from + n..]));
        case None =>
          InvalidHere(n, s, from);
          GreedyFinds(n, s, from + 1);
          LeftmostLater(n, s, from, Places(n, s, from + 1), Greedy(n, s[from + 1..]));
      }
    }
  }

  lemma TakesFrame(n: nat, s: seq<byte>, from: nat, g: Frame, places: seq<nat>, frames: seq<Frame>)
    requires n >= HEADER && BuiltAt(n, s, from, g) && Leftmost(n, s, from + n, places, frames)
    ensures Leftmost(n, s, from, [from] + places, [g] + frames)
  {
    assert ([from] + places)[1..] == places && ([g] + frames)[1..] == frames;
    hide BuiltAt;
  }

  /** A stream: frames somebody built, and noise between them. */
  datatype Piece = Noise(bytes: seq<byte>) | Built(number: nat, txMs: nat)

  predicate Proper(p: Piece) {
    p.Built? ==> p.number < 0x1_0000_0000 && p.txMs < 0x1_0000_0000
  }

  function Stream(n: nat, pieces: seq<Piece>): seq<byte>
    requires n >= HEADER
  {
    if pieces == [] then []
    else
      (match pieces[0] case Noise(bytes) => bytes case Built(number, txMs) => Build(number, txMs, n)) +
      Stream(n, pieces[1..])
  }

  function Sent(n: nat, pieces: seq<Piece>): seq<Frame> {
    if pieces == [] then []
    else
      (match pieces[0] case Noise(_) => [] case Built(number, txMs) => [Frame(number, txMs, n)]) + Sent(n, pieces[1..])
  }

  /** No valid frame starts inside the noise (it may end in it, or beyond). */
  predicate Harmless(n: nat, noise: seq<byte>, after: seq<byte>)
    requires n >= HEADER
  {
    forall i | 0 <= i < |noise| :: !ValidAt(n, noise[i..] + after)
  }

  predicate AllHarmless(n: nat, pieces: seq<Piece>)
    requires n >= HEADER
  {
    pieces == [] ||
    ((pieces[0].Noise? ==> Harmless(n, pieces[0].bytes, Stream(n, pieces[1..]))) && AllHarmless(n, pieces[1..]))
  }

  lemma {:induction false} SkipNoise(n: nat, noise: seq<byte>, after: seq<byte>)
    requires n >= HEADER && Harmless(n, noise, after)
    ensures Greedy(n, noise + after) == Greedy(n, after)
    decreases |noise|
  {
    if noise == [] {
      assert noise + after == after;
    } else {
      assert noise[0..] == noise;
      assert !ValidAt(n, noise + after);
      assert (noise + after)[1..] == noise[1..] + after;
      forall i | 0 <= i < |noise[1..]|
        ensures !ValidAt(n, noise[1..][i..] + after)
      {
        assert noise[1..][i..] == noise[i + 1..];
        assert !ValidAt(n, noise[i + 1..] + after);
      }
      SkipNoise(n, noise[1..], after);
    }
  }

  /** Built frames among harmless noise decode to exactly what was sent, in order. */
  lemma {:induction false} DecodesSent(n: nat, pieces: seq<Piece>)
    requires HEADER <= n < 0x1_0000
    requires (forall i | 0 <= i < |pieces| :: Proper(pieces[i])) && AllHarmless(n, pieces)
    ensures Greedy(n, Stream(n, pieces)) == Sent(n, pieces)
    decreases |pieces|
  {
    if pieces != [] {
      var rest := Stream(n, pieces[1..]);
      DecodesSent(n, pieces[1..]);
      match pieces[0] {
        case Noise(bytes) => SkipNoise(n, bytes, rest);
        case Built(number, txMs) =>
          BuildValid(number, txMs, n);
          var f := Build(number, txMs, n);
          hide Build, Validate;
          assert (f + rest)[..n] == f && (f + rest)[n..] == rest;
      }
    }
  }

  /** Noise without the first byte of the magic is harmless anywhere. */
  lemma NoB(n: nat, noise: seq<byte>, after: seq<byte>)
    requires n >= HEADER && 66 !in noise
    ensures Harmless(n, noise, after)
  {
    forall i | 0 <= i < |noise|
      ensures !ValidAt(n, noise[i..] + after)
    {
      var s := noise[i..] + after;
      assert s[0] == noise[i];
      if |s| >= n {
        assert s[..n][..4][0] == s[0];
      }
    }
  }
}
