/** main.c: what holds after every run from power-on. */
module BridgeRuns {
  import opened BridgeModel
  import opened BridgeInvariant
  import opened BridgeDelivery
  import opened BridgeEscape
  import opened BridgeWire

  lemma PowerOnHolds(s: State)
    requires s.trace == [] && s.app == Idle && s.h2b == s.b2h == s.ctrl == ""
    requires s.stats.hostToBle == s.stats.writeOps == 0
    ensures Conserved(s) && Tracked(s) && Segregated(s) && CandidateQuiet(s)
  {
  }

  /** Whatever the link, the host, the timers and the AT commands do: the globals agree, the host's bytes are
      delivered exactly once and in order, the arrivals of a session are accounted for, control and data
      do not mix; and if no byte starts a candidate by a tick of the clock, silence precedes every candidate. */
  lemma EveryRun(guardMs: u16, allowDataMode: bool, payloadLen: nat, now: Uptime, events: seq<Event>)
    requires payloadLen >= 1
    requires Legal(PowerOn(guardMs, allowDataMode, payloadLen, now), events)
    ensures var s := Run(PowerOn(guardMs, allowDataMode, payloadLen, now), events);
            && Consistent(s) && Conserved(s) && Tracked(s) && Segregated(s)
            && (NoTicks(PowerOn(guardMs, allowDataMode, payloadLen, now), events) ==> CandidateQuiet(s))
  {
    var s := PowerOn(guardMs, allowDataMode, payloadLen, now);
    PowerOnIsConsistent(guardMs, allowDataMode, payloadLen, now);
    PowerOnHolds(s);
    hide *;
    RunKeeps(s, events);
    RunConserves(s, events);
    RunTracks(s, events);
    RunWire(s, events);
  }
}
