/** e2e_stream_test.py: the statistics shared by the send loop and the receive callback, and the gate. */
module EchoGate {

  datatype Stats = Stats(
    txFrames: nat, rxFrames: nat, reordered: nat, duplicates: nat, lastRx: int,
    txTimestamps: map<nat, real>, rxSeen: set<nat>, rtt: seq<real>)

  const FRESH := Stats(0, 0, 0, 0, -1, map[], {}, [])

  function Max(a: int, b: int): int {
    if a > b then a else b
  }

  function MarkTx(s: Stats, number: nat, time: real): Stats {
    s.(txFrames := s.txFrames + 1, txTimestamps := s.txTimestamps[number := time])
  }

  function MarkRx(s: Stats, number: nat, time: real): Stats {
    if number in s.rxSeen then s.(duplicates := s.duplicates + 1)
    else
      s.(rxSeen := s.rxSeen + {number}, rxFrames := s.rxFrames + 1,
         reordered := if s.lastRx >= 0 && number < s.lastRx then s.reordered + 1 else s.reordered,
         lastRx := Max(s.lastRx, number),
         txTimestamps := s.txTimestamps - {number},
         rtt := if number in s.txTimestamps then s.rtt + [(time - s.txTimestamps[number]) * 1000.0] else s.rtt)
  }

  class StreamStats {
    var txFrames: nat
    var rxFrames: nat
    var reordered: nat
    var duplicates: nat
    var lastRx: int
    var txTimestamps: map<nat, real>
    var rxSeen: set<nat>
    var rtt: seq<real>

    ghost function Value(): Stats
      reads this
    {
      Stats(txFrames, rxFrames, reordered, duplicates, lastRx, txTimestamps, rxSeen, rtt)
    }

    constructor ()
      ensures Value() == FRESH
    {
      txFrames, rxFrames, reordered, duplicates, lastRx := 0, 0, 0, 0, -1;
      txTimestamps, rxSeen, rtt := map[], {}, [];
    }

    method MarkSent(number: nat, time: real)
      modifies this
      ensures Value() == MarkTx(old(Value()), number, time)
    {
      txFrames := txFrames + 1;
      txTimestamps := txTimestamps[number := time];
    }

    method MarkReceived(number: nat, time: real)
      modifies this
      ensures Value() == MarkRx(old(Value()), number, time)
    {
      if number in rxSeen {
        duplicates := duplicates + 1;
        return;
      }
      rxSeen := rxSeen + {number};
      rxFrames := rxFrames + 1;
      if lastRx >= 0 && number < lastRx {
        reordered := reordered + 1;
      }
      lastRx := Max(lastRx, number);
      if number in txTimestamps {
        rtt := rtt + [(time - txTimestamps[number]) * 1000.0];
      }
      txTimestamps := txTimestamps - {number};
    }

    method Outstanding() returns (n: nat)
      ensures n == |Value().txTimestamps|
    {
      n := |txTimestamps|;
    }
  }

  // ---------- the send loop and the callback, interleaved ----------

  /** `next` is the loop's sequence number; `passed` says that the loop has passed the gate and not sent yet. */
  datatype Loop = Loop(stats: Stats, next: nat, passed: bool, gated: bool, maxOutstanding: int)

  datatype Turn = Gate | Send(time: real) | Echo(number: nat, time: real)

  predicate CanHappen(l: Loop, t: Turn) {
    match t
    case Gate => !l.passed
    case Send(_) => l.passed
    case Echo(number, _) => number < l.next   // the peer echoes frames it was sent, any number of times
  }

  function Take(l: Loop, t: Turn): Loop {
    match t
    case Gate => l.(passed := !(l.gated && |l.stats.txTimestamps| >= l.maxOutstanding))
    case Send(time) => l.(stats := MarkTx(l.stats, l.next, time), next := l.next + 1, passed := false)
    case Echo(number, time) => l.(stats := MarkRx(l.stats, number, time))
  }

  predicate Possible(l: Loop, turns: seq<Turn>)
    decreases |turns|
  {
    turns == [] || (CanHappen(l, turns[0]) && Possible(Take(l, turns[0]), turns[1..]))
  }

  function TakeAll(l: Loop, turns: seq<Turn>): Loop
    decreases |turns|
  {
    if turns == [] then l else TakeAll(Take(l, turns[0]), turns[1..])
  }

  function Numbers(n: nat): (r: set<nat>)
    ensures forall i :: i in r <==> 0 <= i < n
  {
    if n == 0 then {} else Numbers(n - 1) + {n - 1}
  }

  /** The pending timestamps are those of the frames sent and not seen, and their number is the difference
      of the two counters. */
  predicate Accounted(s: Stats, next: nat) {
    && s.rxSeen <= Numbers(next)
    && s.txTimestamps.Keys == Numbers(next) - s.rxSeen
    && s.txFrames == next
    && s.rxFrames == |s.rxSeen|
    && |s.txTimestamps| == s.txFrames - s.rxFrames
  }

  /** And behind the gate there are never more than allowed. */
  predicate Balanced(l: Loop) {
    && Accounted(l.stats, l.next)
    && (l.gated ==> |l.stats.txTimestamps| <= Max(0, l.maxOutstanding))
    && (l.gated && l.passed ==> |l.stats.txTimestamps| < l.maxOutstanding)
  }

  lemma KeyAdded(m: map<nat, real>, k: nat, v: real)
    requires k !in m
    ensures m[k := v].Keys == m.Keys + {k} && |m[k := v]| == |m| + 1
  {
    assert m[k := v].Keys == m.Keys + {k};
    assert |m[k := v].Keys| == |m[k := v]| && |m.Keys| == |m|;
  }

  lemma KeyRemoved(m: map<nat, real>, k: nat)
    requires k in m
    ensures (m - {k}).Keys == m.Keys - {k} && |m - {k}| == |m| - 1
  {
    assert (m - {k}).Keys == m.Keys - {k};
    assert |(m - {k}).Keys| == |m - {k}| && |m.Keys| == |m|;
  }

  lemma Added(all: set<nat>, seen: set<nat>, number: nat)
    requires seen <= all && number !in all
    ensures seen <= all + {number} && all - seen + {number} == all + {number} - seen
  {
  }

  lemma SendKeeps(s: Stats, next: nat, time: real)
    requires Accounted(s, next)
    ensures Accounted(MarkTx(s, next, time), next + 1)
    ensures |MarkTx(s, next, time).txTimestamps| == |s.txTimestamps| + 1
  {
    assert Numbers(next + 1) == Numbers(next) + {next} && next !in Numbers(next);
    hide Numbers;
    KeyAdded(s.txTimestamps, next, time);
    Added(Numbers(next), s.rxSeen, next);
  }

  lemma OneMore(seen: set<nat>, number: nat)
    requires number !in seen
    ensures |seen + {number}| == |seen| + 1
  {
  }

  lemma Removed(all: set<nat>, seen: set<nat>, number: nat)
    ensures all - seen - {number} == all - (seen + {number})
  {
  }

  lemma EchoKeeps(s: Stats, next: nat, number: nat, time: real)
    requires Accounted(s, next) && number < next
    ensures Accounted(MarkRx(s, number, time), next)
    ensures |MarkRx(s, number, time).txTimestamps| <= |s.txTimestamps|
  {
    if number !in s.rxSeen {
      assert number in Numbers(next);
      hide Numbers, Max;
      KeyRemoved(s.txTimestamps, number);
      OneMore(s.rxSeen, number);
      Removed(Numbers(next), s.rxSeen, number);
    }
  }

  lemma TakeKeeps(l: Loop, t: Turn)
    requires Balanced(l) && CanHappen(l, t)
    ensures Balanced(Take(l, t))
  {
    hide Accounted, MarkTx, MarkRx;
    match t {
      case Gate =>
      case Send(time) => SendKeeps(l.stats, l.next, time);
      case Echo(number, time) => EchoKeeps(l.stats, l.next, number, time);
    }
  }

  /** Under every interleaving of the send loop with the receive callback. */
  lemma {:induction false} AlwaysBalanced(l: Loop, turns: seq<Turn>)
    requires Balanced(l) && Possible(l, turns)
    ensures Balanced(TakeAll(l, turns))
    decreases |turns|
  {
    if turns != [] {
      TakeKeeps(l, turns[0]);
      AlwaysBalanced(Take(l, turns[0]), turns[1..]);
    }
  }

  lemma StartsAccounted(s: Stats)
    requires s.rxSeen == {} && s.txTimestamps == map[] && s.txFrames == 0 && s.rxFrames == 0
    ensures Accounted(s, 0) && |s.txTimestamps| == 0
  {
  }

  lemma StartsBalanced(gated: bool, maxOutstanding: int)
    ensures Balanced(Loop(FRESH, 0, false, gated, maxOutstanding))
  {
    hide Accounted;
    StartsAccounted(FRESH);
  }

  /** The gate opens exactly when it is not used or fewer frames than allowed have been sent and not seen. */
  lemma GateOpens(l: Loop)
    requires Balanced(l)
    ensures Take(l, Gate).passed <==> !l.gated || l.stats.txFrames - l.stats.rxFrames < l.maxOutstanding
    ensures Take(l, Gate) == l.(passed := Take(l, Gate).passed)
  {
    hide Numbers;
  }

  /** While a frame has not been seen, its timestamp is that of its sending. */
  lemma {:induction false} TimestampKept(l: Loop, number: nat, sent: real, turns: seq<Turn>)
    requires Balanced(l) && Possible(l, turns)
    requires number < l.next && number in l.stats.txTimestamps && l.stats.txTimestamps[number] == sent
    requires forall i | 0 <= i < |turns| :: !(turns[i].Echo? && turns[i].number == number)
    ensures var r := TakeAll(l, turns);
            number < r.next && number in r.stats.txTimestamps && r.stats.txTimestamps[number] == sent
    decreases |turns|
  {
    hide Balanced;
    if turns != [] {
      TakeKeeps(l, turns[0]);
      assert !(turns[0].Echo? && turns[0].number == number);
      TimestampKept(Take(l, turns[0]), number, sent, turns[1..]);
    }
  }

  lemma {:induction false} Unseen(l: Loop, number: nat)
    requires Balanced(l) && number in l.stats.txTimestamps
    ensures number !in l.stats.rxSeen
  {
  }

  /** The round trip measured for a frame is from its sending to its first echo, whatever is sent and echoed in
      between; a later echo of it measures nothing. */
  lemma RoundTripMeasured(l: Loop, sent: real, turns: seq<Turn>, seen: real, again: real)
    requires Balanced(l) && l.passed && Possible(Take(l, Send(sent)), turns)
    requires forall i | 0 <= i < |turns| :: !(turns[i].Echo? && turns[i].number == l.next)
    ensures var m := TakeAll(Take(l, Send(sent)), turns); var r := Take(m, Echo(l.next, seen));
            && r.stats.rtt == m.stats.rtt + [(seen - sent) * 1000.0]
            && Take(r, Echo(l.next, again)).stats == r.stats.(duplicates := r.stats.duplicates + 1)
  {
    hide Balanced, TakeAll, MarkRx, MarkTx, Possible;
    var s := Take(l, Send(sent));
    TakeKeeps(l, Send(sent));
    JustSent(l.stats, l.next, sent);
    TimestampKept(s, l.next, sent, turns);
    AlwaysBalanced(s, turns);
    var m := TakeAll(s, turns);
    Unseen(m, l.next);
    Measured(m.stats, l.next, sent, seen, again);
  }

  lemma JustSent(s: Stats, number: nat, sent: real)
    ensures var r := MarkTx(s, number, sent); number in r.txTimestamps && r.txTimestamps[number] == sent
  {
  }

  lemma Measured(s: Stats, number: nat, sent: real, seen: real, again: real)
    requires number !in s.rxSeen && number in s.txTimestamps && s.txTimestamps[number] == sent
    ensures var r := MarkRx(s, number, seen);
            r.rtt == s.rtt + [(seen - sent) * 1000.0] && MarkRx(r, number, again) == r.(duplicates := r.duplicates + 1)
  {
  }

  // ---------- what the counters count ----------

  // The received numbers, in order; which of them came for the first time, after a larger one.
  predicate FirstAfterLarger(received: seq<nat>, i: nat)
    requires i < |received|
  {
    received[i] !in received[..i] && exists j | 0 <= j < i :: received[j] > received[i]
  }

  function CountReordered(received: seq<nat>, i: nat): nat
    requires i <= |received|
  {
    if i == 0 then 0 else CountReordered(received, i - 1) + (if FirstAfterLarger(received, i - 1) then 1 else 0)
  }

  function MarkAll(received: seq<nat>, i: nat): Stats
    requires i <= |received|
  {
    if i == 0 then FRESH else MarkRx(MarkAll(received, i - 1), received[i - 1], 0.0)
  }

  // The largest received number, and the distinct ones.
  ghost predicate Seen(s: Stats, received: seq<nat>, i: nat)
    requires i <= |received|
  {
    && s.rxSeen == (set x | x in received[..i])
    && (forall j | 0 <= j < i :: received[j] <= s.lastRx)
    && s.lastRx >= -1
    && (s.lastRx >= 0 ==> exists j | 0 <= j < i :: received[j] == s.lastRx)
  }

  lemma SeenNext(s: Stats, received: seq<nat>, i: nat)
    requires i < |received| && Seen(s, received, i)
    ensures Seen(MarkRx(s, received[i], 0.0), received, i + 1)
    ensures FirstAfterLarger(received, i) <==> received[i] !in s.rxSeen && s.lastRx >= 0 && received[i] < s.lastRx
  {
    assert received[..i + 1] == received[..i] + [received[i]];
    var r := MarkRx(s, received[i], 0.0);
    if r.lastRx == received[i] {
      assert received[i] == r.lastRx;
    }
  }

  lemma NothingSeen(received: seq<nat>)
    ensures Seen(FRESH, received, 0)
  {
    assert received[..0] == [];
  }

  lemma MarkCounts(s: Stats, number: nat)
    requires s.rxFrames == |s.rxSeen|
    ensures var r := MarkRx(s, number, 0.0);
            && r.rxFrames == |r.rxSeen|
            && r.rxFrames + r.duplicates == s.rxFrames + s.duplicates + 1
            && r.reordered ==
               s.reordered + if number !in s.rxSeen && s.lastRx >= 0 && number < s.lastRx then 1 else 0
  {
    if number !in s.rxSeen {
      OneMore(s.rxSeen, number);
    }
  }

  /** The receive counters after any list of received numbers: distinct ones, repetitions, and first
      arrivals overtaken by a larger number. */
  lemma {:induction false} CountersMean(received: seq<nat>, i: nat)
    requires i <= |received|
    ensures var s := MarkAll(received, i);
            Seen(s, received, i) && s.rxFrames == |s.rxSeen| && s.rxFrames + s.duplicates == i &&
            s.reordered == CountReordered(received, i)
    decreases i
  {
    hide Seen, FirstAfterLarger, MarkRx;
    if i == 0 {
      NothingSeen(received);
    } else {
      CountersMean(received, i - 1);
      SeenNext(MarkAll(received, i - 1), received, i - 1);
      MarkCounts(MarkAll(received, i - 1), received[i - 1]);
    }
  }
}
