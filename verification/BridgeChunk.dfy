/** main.c: what one chunk from the host puts into the host-to-BLE ring. */
module BridgeChunk {
  import opened Common
  import opened Protocol
  import opened BridgeModel
  import opened BridgeInvariant
  import opened BridgeEscape

  // Given what was received and how long the candidate is, what was offered to the ring.
  function Payload(received: string, candidate: nat): string {
    if candidate <= |received| then received[..|received| - candidate] else ""
  }

  predicate EndsInPluses(received: string, candidate: nat) {
    candidate <= |received| && received[|received| - candidate..] == Pluses(candidate)
  }

  lemma FittingSplit(a: string, b: string, room: nat)
    ensures Fitting(a + b, room) == Fitting(a, room) + Fitting(b, room - |Fitting(a, room)|)
  {
  }

  lemma PayloadSplit(before: string, held: nat, b: char, candidate: nat)
    requires EndsInPluses(before, held) && EndsInPluses(Pluses(held) + [b], candidate)
    ensures EndsInPluses(before + [b], candidate)
    ensures Payload(before + [b], candidate) == Payload(before, held) + Payload(Pluses(held) + [b], candidate)
  {
    var tail := Pluses(held) + [b];
    assert before + [b] == Payload(before, held) + tail;
  }

  // The ring took what fitted of `offered`.
  predicate Stored(s: State, r: State, offered: string) {
    r.h2b == s.h2b + Fitting(offered, H2B_SIZE - |s.h2b|)
  }

  lemma StoredTwice(s: State, m: State, r: State, a: string, b: string)
    requires Stored(s, m, a) && Stored(m, r, b)
    ensures Stored(s, r, a + b)
  {
    FittingSplit(a, b, H2B_SIZE - |s.h2b|);
    assert H2B_SIZE - |m.h2b| == H2B_SIZE - |s.h2b| - |Fitting(a, H2B_SIZE - |s.h2b|)|;
  }

  lemma PlainStores(s: State, a: Arrival)
    requires !s.escape.active && s.escape.count == 0
    ensures var r := RxPlain(s, a);
            r.escape.count <= 1 && (r.escape.count == 1 ==> a.b == '+') &&
            Stored(s, r, Payload([a.b], r.escape.count))
  {
  }

  lemma FlushStores(s: State, later: Uptime)
    requires s.escape.active && s.escape.count > 0
    ensures Stored(s, FlushCandidate(s, later), Pluses(s.escape.count))
  {
    hide ScheduleTx;
  }

  lemma FlushedByteStores(s: State, a: Arrival)
    requires s.escape.active && s.escape.count > 0
    ensures var r := RxPlain(FlushCandidate(s, a.later), a); var received := Pluses(s.escape.count) + [a.b];
            EndsInPluses(received, r.escape.count) && Stored(s, r, Payload(received, r.escape.count))
  {
    var ps := Pluses(s.escape.count);
    var m := FlushCandidate(s, a.later);
    FlushStores(s, a.later);
    PlainStores(m, a);
    hide FlushCandidate, RxPlain, Stored;
    var r := RxPlain(m, a);
    StoredTwice(s, m, r, ps, Payload([a.b], r.escape.count));
    assert Payload(ps + [a.b], r.escape.count) == ps + Payload([a.b], r.escape.count);
  }

  /** One byte, after the candidate `Pluses(s.escape.count)`. */
  lemma ByteStores(s: State, a: Arrival)
    requires CandidateOk(s)
    ensures var r := RxByte(s, a); var received := Pluses(s.escape.count) + [a.b];
            EndsInPluses(received, r.escape.count) && Stored(s, r, Payload(received, r.escape.count))
  {
    hide FlushCandidate, RxPlain;
    var s2 := Log(s.(clock := a.later), Arrived(a.b, a.now));
    if !s2.escape.active {
      PlainStores(s2, a);
      assert Pluses(0) + [a.b] == [a.b];
    } else if a.b == '+' && s2.escape.count < 3 {
      assert Pluses(s.escape.count) + [a.b] == Pluses(s.escape.count + 1);
    } else {
      FlushedByteStores(s2.(work := s2.work.(guard := false)), a);
    }
  }

  lemma ArrivalsSnoc(arrivals: seq<Arrival>)
    requires |arrivals| > 0
    ensures Bytes(Arrivals(arrivals)) == Bytes(Arrivals(arrivals[..|arrivals| - 1])) + [arrivals[|arrivals| - 1].b]
  {
  }

  /** A chunk stores, in order, the longest prefix that fits of everything received (the candidate it found
      and its own bytes) but the candidate it leaves, which is all plus signs. */
  lemma {:induction false} ChunkStores(s: State, arrivals: seq<Arrival>)
    requires CandidateOk(s) && InOrder(s.clock, arrivals)
    ensures var r := RxBytes(s, arrivals); var received := Pluses(s.escape.count) + Bytes(Arrivals(arrivals));
            EndsInPluses(received, r.escape.count) && Stored(s, r, Payload(received, r.escape.count))
    decreases |arrivals|
  {
    hide RxByte, Stored, Bytes, Arrivals, Pluses, Payload, EndsInPluses;
    if arrivals == [] {
      NothingStored(s);
    } else {
      var front := arrivals[..|arrivals| - 1];
      InOrderPrefix(s.clock, arrivals);
      RxBytesFrame(s, front);
      ChunkStores(s, front);
      LastByteStores(s, arrivals, RxBytes(s, front));
    }
  }

  lemma NothingStored(s: State)
    ensures var received := Pluses(s.escape.count) + Bytes(Arrivals([]));
            EndsInPluses(received, s.escape.count) && Stored(s, s, Payload(received, s.escape.count))
  {
    assert Pluses(s.escape.count) + Bytes(Arrivals([])) == Pluses(s.escape.count);
  }

  // One more byte, in the state `m` that the bytes before it left.
  lemma LastByteStores(s: State, arrivals: seq<Arrival>, m: State)
    requires arrivals != [] && CandidateOk(m)
    requires var before := Pluses(s.escape.count) + Bytes(Arrivals(arrivals[..|arrivals| - 1]));
             EndsInPluses(before, m.escape.count) && Stored(s, m, Payload(before, m.escape.count))
    ensures var r := RxByte(m, arrivals[|arrivals| - 1]);
            var received := Pluses(s.escape.count) + Bytes(Arrivals(arrivals));
            EndsInPluses(received, r.escape.count) && Stored(s, r, Payload(received, r.escape.count))
  {
    hide RxByte, Stored, Bytes, Arrivals, Pluses, Payload, EndsInPluses, CandidateOk;
    var held := Pluses(s.escape.count);
    var a := arrivals[|arrivals| - 1];
    var before := held + Bytes(Arrivals(arrivals[..|arrivals| - 1]));
    ByteStores(m, a);
    var r := RxByte(m, a);
    ArrivalsSnoc(arrivals);
    assert before + [a.b] == held + Bytes(Arrivals(arrivals));
    PayloadSplit(before, m.escape.count, a.b, r.escape.count);
    StoredTwice(s, m, r, Payload(before, m.escape.count), Payload(Pluses(m.escape.count) + [a.b], r.escape.count));
  }

  /** When the receive interrupt found room for a chunk, no more bytes are refused than the candidate held. */
  lemma FewRefused(s: State, arrivals: seq<Arrival>)
    requires Consistent(s) && Enabled(s, UartRx(arrivals)) && s.app == DataMode && Room(s)
    ensures var r := IsrRx(s, arrivals);
            var offered := s.escape.count + |arrivals| - r.escape.count;
            offered - s.escape.count <= |r.h2b| - |s.h2b| <= offered
  {
    hide RxBytes, Bytes, Arrivals, Pluses, Stored, EndsInPluses, Payload, IsrRx;
    RxBytesFrame(s, arrivals);
    ChunkStores(s, arrivals);
    ReceivedLength(s.escape.count, arrivals);
    var received := Pluses(s.escape.count) + Bytes(Arrivals(arrivals));
    StoredBounds(s, RxBytes(s, arrivals), received, s.escape.count, |arrivals|);
    ReadBytes(s, arrivals);
  }

  lemma StoredBounds(s: State, r: State, received: string, held: nat, n: nat)
    requires |received| == held + n && n <= RX_CHUNK && Room(s)
    requires EndsInPluses(received, r.escape.count) && Stored(s, r, Payload(received, r.escape.count))
    ensures var offered := held + n - r.escape.count; offered - held <= |r.h2b| - |s.h2b| <= offered
  {
  }

  // What the interrupt does after the bytes leaves ring and candidate alone.
  lemma ReadBytes(s: State, arrivals: seq<Arrival>)
    requires s.app == DataMode && Room(s) && RxBytes(s, arrivals).app == DataMode
    ensures IsrRx(s, arrivals).h2b == RxBytes(s, arrivals).h2b && IsrRx(s, arrivals).escape == RxBytes(s, arrivals).escape
  {
    NoBytes(s);
    hide RxBytes, ScheduleTx, RefreshFlow;
  }

  lemma ReceivedLength(held: nat, arrivals: seq<Arrival>)
    ensures |Pluses(held) + Bytes(Arrivals(arrivals))| == held + |arrivals|
  {
  }

  lemma NoBytes(s: State)
    ensures RxBytes(s, []) == s
  {
  }
}
