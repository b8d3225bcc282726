/** profile_manager.c: whole discoveries, from the start of the link to readiness or to the failure that ends
    them; and what becomes of a write. */
module ProfileDialogue {
  import opened Common
  import opened Protocol
  import opened Uuid
  import opened ProfileModel
  import BridgeModel

  /** What the peer has, and what the link and the stack answer to the requests of one discovery. */
  datatype Peer = Peer(services: seq<Service>, characteristics: seq<Characteristic>)

  datatype Answers = Answers(start: Errno, next: Errno, subscribe: Errno, refused: bool)

  function ServiceReports(services: seq<Service>): seq<Event> {
    if services == [] then []
    else ServiceReports(services[..|services| - 1]) + [ServiceSeen(services[|services| - 1])]
  }

  function CharacteristicReports(cs: seq<Characteristic>): seq<Event>
    decreases |cs|
  {
    if cs == [] then [] else [CharacteristicSeen(cs[0])] + CharacteristicReports(cs[1..])
  }

  predicate HasService(c: Config, peer: Peer) {
    LastMatch(peer.services, c.service) != []
  }

  predicate HasNotify(c: Config, peer: Peer) {
    FirstMatch(peer.characteristics, c.notify) != []
  }

  predicate HasWrite(c: Config, peer: Peer) {
    FirstMatch(peer.characteristics, c.write) != []
  }

  /** The events of a link that answers every request of the manager. */
  function Subscribing(c: Config, peer: Peer, a: Answers): seq<Event> {
    if HasNotify(c, peer) && HasWrite(c, peer) && c.autoSubscribe && a.subscribe == Success
    then [SubscribeAnswered(a.refused)]
    else []
  }

  function Describing(c: Config, peer: Peer, a: Answers): seq<Event> {
    if HasService(c, peer) && a.next == Success
    then CharacteristicReports(peer.characteristics) + ([CharacteristicsEnd(a.subscribe)] + Subscribing(c, peer, a))
    else []
  }

  function Dialogue(c: Config, peer: Peer, a: Answers): seq<Event> {
    if a.start == Success
    then ServiceReports(peer.services) + ([ServicesEnd(a.next)] + Describing(c, peer, a))
    else []
  }

  /** How it ends. */
  function Outcome(c: Config, peer: Peer, a: Answers): Notice {
    if a.start != Success then DiscoverFailed
    else if !HasService(c, peer) then ServiceMissing
    else if a.next != Success then DiscoverFailed
    else if !HasNotify(c, peer) then NotifyMissing
    else if !HasWrite(c, peer) then WriteMissing
    else if c.autoSubscribe && (a.subscribe != Success || a.refused) then SubscribeFailed
    else BecameReady
  }

  // ---------- runs ----------

  lemma {:induction false} RunConcat(s: State, a: seq<Event>, b: seq<Event>)
    ensures Run(s, a + b) == Run(Run(s, a), b)
    ensures Legal(s, a + b) <==> Legal(s, a) && Legal(Run(s, a), b)
    decreases |a|
  {
    hide Step, Enabled;
    if a == [] {
      assert a + b == b;
    } else {
      assert (a + b)[0] == a[0] && (a + b)[1..] == a[1..] + b;
      RunConcat(Step(s, a[0]), a[1..], b);
    }
  }

  lemma RunFirst(s: State, ev: Event, rest: seq<Event>)
    ensures Run(s, [ev] + rest) == Run(Step(s, ev), rest)
    ensures Legal(s, [ev] + rest) <==> Enabled(s, ev) && Legal(Step(s, ev), rest)
  {
    hide Step, Enabled;
    assert ([ev] + rest)[0] == ev && ([ev] + rest)[1..] == rest;
  }

  lemma {:induction false} ServicesSeen(s: State, services: seq<Service>)
    requires s.connected && s.request == Services
    ensures Legal(s, ServiceReports(services)) && Run(s, ServiceReports(services)) == SeeServices(s, services)
    ensures SeeServices(s, services).connected && SeeServices(s, services).request == Services
    decreases |services|
  {
    hide Equals;
    if services != [] {
      var n := |services| - 1;
      ServicesSeen(s, services[..n]);
      RunSnoc(s, ServiceReports(services[..n]), ServiceSeen(services[n]));
    }
  }

  lemma {:induction false} CharacteristicsSeen(s: State, cs: seq<Characteristic>)
    requires s.connected && s.request == Characteristics
    ensures Legal(s, CharacteristicReports(cs)) && Run(s, CharacteristicReports(cs)) == SeeCharacteristics(s, cs)
    decreases |cs|
  {
    hide Equals;
    if cs != [] {
      RunFirst(s, CharacteristicSeen(cs[0]), CharacteristicReports(cs[1..]));
      CharacteristicsSeen(OnCharacteristic(s, cs[0]), cs[1..]);
    }
  }

  // ---------- the three parts of a discovery ----------

  // What the last part leaves.
  ghost predicate Ends(s: State, r: State, n: Notice) {
    && r.notices == s.notices + [n] && r.request == NoRequest && (r.ready <==> n == BecameReady)
    && r.connected && r.config == s.config && r.payloadLen == s.payloadLen && r.attMtu == s.attMtu
  }

  lemma Subscribes(s: State, peer: Peer, a: Answers)
    requires s.connected && s.request == Characteristics && !s.ready
    requires s.found.notify == HasNotify(s.config, peer) && s.found.write == HasWrite(s.config, peer)
    requires HasService(s.config, peer) && a.start == a.next == Success
    ensures var events := [CharacteristicsEnd(a.subscribe)] + Subscribing(s.config, peer, a); var r := Run(s, events);
            && Legal(s, events) && Ends(s, r, Outcome(s.config, peer, a))
            && r.found == s.found && r.start == s.start && r.end == s.end && r.notifyHandle == s.notifyHandle
            && r.writeHandle == s.writeHandle && r.props == s.props
  {
    hide HasNotify, HasWrite, HasService;
    var m := Step(s, CharacteristicsEnd(a.subscribe));
    var rest := Subscribing(s.config, peer, a);
    RunFirst(s, CharacteristicsEnd(a.subscribe), rest);
    if rest != [] {
      assert rest == [SubscribeAnswered(a.refused)] + [];
      RunFirst(m, SubscribeAnswered(a.refused), []);
    }
  }

  lemma Describes(s: State, peer: Peer, a: Answers)
    requires s.connected && s.request == Characteristics && !s.ready && !s.found.notify && !s.found.write
    requires HasService(s.config, peer) && a.start == a.next == Success
    ensures var c := s.config;
            var events := CharacteristicReports(peer.characteristics) +
                          ([CharacteristicsEnd(a.subscribe)] + Subscribing(c, peer, a));
            var r := Run(s, events);
            var n, w := FirstMatch(peer.characteristics, c.notify), FirstMatch(peer.characteristics, c.write);
            && Legal(s, events) && Ends(s, r, Outcome(c, peer, a))
            && r.start == s.start && r.end == s.end
            && (n != [] ==> r.notifyHandle == n[0].handle)
            && (w != [] ==> r.writeHandle == w[0].handle && r.props == w[0].props)
            && r.found == Found(s.found.service, n != [], w != [])
  {
    var m := SeeCharacteristics(s, peer.characteristics);
    var rest := [CharacteristicsEnd(a.subscribe)] + Subscribing(s.config, peer, a);
    RunConcat(s, CharacteristicReports(peer.characteristics), rest);
    CharacteristicsSeen(s, peer.characteristics);
    CharacteristicsMean(s, peer.characteristics);
    hide FirstMatch, SeeCharacteristics, Run, Legal, Outcome, Subscribing, HasService;
    Subscribes(m, peer, a);
  }

  /** The handles of the profile as the peer has it. */
  ghost predicate Taken(r: State, peer: Peer) {
    var c := r.config;
    var v := LastMatch(peer.services, c.service);
    var n, w := FirstMatch(peer.characteristics, c.notify), FirstMatch(peer.characteristics, c.write);
    && v != [] && n != [] && w != [] && r.found == Found(true, true, true)
    && r.start == v[0].start && r.end == v[0].end && r.notifyHandle == n[0].handle
    && r.writeHandle == w[0].handle && r.props == w[0].props
  }

  lemma Lists(s: State, peer: Peer, a: Answers)
    requires s.connected && s.request == Services && !s.ready && s.found == Found(false, false, false)
    requires a.start == Success
    ensures var r := Run(s, Dialogue(s.config, peer, a));
            && Legal(s, Dialogue(s.config, peer, a)) && Ends(s, r, Outcome(s.config, peer, a))
            && (r.ready ==> Taken(r, peer))
  {
    var c := s.config;
    var m := SeeServices(s, peer.services);
    var rest := [ServicesEnd(a.next)] + Describing(c, peer, a);
    RunConcat(s, ServiceReports(peer.services), rest);
    ServicesSeen(s, peer.services);
    ServicesMean(s, peer.services);
    RunFirst(m, ServicesEnd(a.next), Describing(c, peer, a));
    hide LastMatch, FirstMatch, SeeServices, Run, Legal;
    if HasService(c, peer) && a.next == Success {
      hide Outcome, HasNotify, HasWrite;
      Describes(Step(m, ServicesEnd(a.next)), peer, a);
      ReadyHas(c, peer, a);
    } else {
      NoMore(Step(m, ServicesEnd(a.next)));
    }
  }

  lemma ReadyHas(c: Config, peer: Peer, a: Answers)
    ensures Outcome(c, peer, a) == BecameReady ==> HasNotify(c, peer) && HasWrite(c, peer)
    ensures HasNotify(c, peer) <==> FirstMatch(peer.characteristics, c.notify) != []
    ensures HasWrite(c, peer) <==> FirstMatch(peer.characteristics, c.write) != []
  {
    hide FirstMatch, LastMatch;
  }

  lemma NoMore(s: State)
    ensures Run(s, []) == s && Legal(s, [])
  {
  }

  /** On every link that comes up, whatever the peer has and whatever is answered: the discovery runs to its
      end and reports exactly one outcome; and it ends ready exactly if every request is accepted and the
      peer has the service and both characteristics, and then with its handles. */
  lemma Discovers(s: State, attMtu: nat, peer: Peer, a: Answers)
    requires Sound(s) && !s.connected && attMtu >= 23
    ensures var events := [LinkStarts(attMtu, a.start)] + Dialogue(s.config, peer, a);
            var r := Run(s, events); var outcome := Outcome(s.config, peer, a);
            && Legal(s, events) && r.connected && r.config == s.config && r.request == NoRequest
            && r.notices == s.notices + [outcome]
            && (r.ready <==> outcome == BecameReady) && (r.ready ==> Taken(r, peer))
            && r.attMtu == attMtu && r.payloadLen == Min(attMtu, s.config.mtu) - 3
  {
    var c := s.config;
    RunFirst(s, LinkStarts(attMtu, a.start), Dialogue(c, peer, a));
    var m := Start(s, attMtu, a.start);
    if a.start == Success {
      hide Run, Legal, Dialogue, Outcome, Taken;
      Lists(m, peer, a);
    } else {
      NoMore(m);
    }
  }

  // ---------- writes and the MTU ----------

  /** When the stack is asked to write at all: the profile is ready, the data fits, and the characteristic
      takes writes without response, or with response and none is in flight. */
  predicate Asks(s: State, data: string) {
    s.ready && s.writeHandle != 0 && 1 <= |data| <= s.payloadLen &&
    (s.props.withoutResponse || (s.props.withResponse && !s.busy.write))
  }

  /** A send succeeds if and only if the stack is asked and accepts; if it is not asked, the answer says why,
      and the pump tries again exactly if the profile is not ready or the characteristic is busy.  A write with
      response is then in flight with exactly these bytes; a send that fails leaves none of its own in flight. */
  lemma SendMeans(s: State, data: string, err: Errno)
    requires Sound(s)
    ensures var (e, r) := Send(s, data, err);
            && (e == Success <==> Asks(s, data) && err == Success)
            && (Asks(s, data) ==> e == err)
            && (!Asks(s, data) ==>
                  && (e == NotConn <==> !s.connected)
                  && (e == Again <==> s.connected && !(s.ready && s.writeHandle != 0))
                  && (e == MsgSize <==> s.ready && s.writeHandle != 0 && !(1 <= |data| <= s.payloadLen))
                  && (e == Access <==> s.ready && s.writeHandle != 0 && 1 <= |data| <= s.payloadLen)
                  && (BridgeModel.Retryable(e) <==> e == Again || e == Access))
            && (e == Success && !s.props.withoutResponse ==> r == s.(pending := data, busy := s.busy.(write := true)))
            && (e != Success || s.props.withoutResponse ==> r.busy == s.busy)
            && (s.busy.write ==> r == s)
  {
  }

  /** The bytes of a write with response stay what they were given until the peer answers it, whatever else
      happens on the link, and no other write is started meanwhile. */
  lemma WriteCarries(s: State, data: string, events: seq<Event>, more: string, err: Errno)
    requires Sound(s) && Send(s, data, Success).0 == Success && !s.props.withoutResponse
    requires Legal(Send(s, data, Success).1, events)
    requires forall i :: 0 <= i < |events| ==> !events[i].LinkEnds? && !events[i].WriteAnswered?
    ensures var r := Run(Send(s, data, Success).1, events);
            && r.busy.write && r.pending == data
            && Send(r, more, err).1 == r && (Send(r, more, err).0 == Success ==> r.props.withoutResponse)
  {
    var m := Send(s, data, Success).1;
    SendMeans(s, data, Success);
    assert m == Step(s, Sending(data, Success));
    StepSound(s, Sending(data, Success));
    PendingStays(m, events);
    RunSound(m, events);
    hide Run, Legal, Sound, Step;
    SendMeans(Run(m, events), more, err);
  }

  /** After an MTU exchange, and when the stack says there is nothing to exchange, the payload length is the
      largest that both MTUs allow, and is announced; a failed exchange changes nothing. */
  lemma MtuTakes(s: State, ev: Event)
    requires Sound(s) && Enabled(s, ev) && s.connected
    requires ev.MtuExchanged? || (ev == MtuAsked(Already) && !s.busy.exchange)
    ensures var r := Step(s, ev);
            && !r.busy.exchange
            && if ev.MtuExchanged? && ev.failed then r.payloadLen == s.payloadLen && r.notices == s.notices
               else r.payloadLen == Min(r.attMtu, s.config.mtu) - 3 && r.notices == s.notices + [MtuUpdated(r.payloadLen)]
  {
  }

  /** Asking for an MTU exchange succeeds exactly if the link is there, none is going on, and the stack accepts or
      has nothing to exchange; in the first case, and only then, one is going on afterwards, and it can be
      answered with any MTU not smaller than before. */
  lemma MtuAsks(s: State, err: Errno, attMtu: nat, failed: bool)
    requires Sound(s)
    ensures var (e, r) := RequestMtu(s, err);
            && (e == Success <==> s.connected && !s.busy.exchange && (err == Success || err == Already))
            && (r.busy.exchange <==> s.busy.exchange || (s.connected && err == Success))
            && (!s.connected ==> e == NotConn) && (s.connected && s.busy.exchange ==> e == Busy)
            && (s.connected && !s.busy.exchange && err != Already ==> e == err)
            && (e != Success || err == Success ==> r == s.(busy := r.busy))
            && (e == err == Success && attMtu >= s.attMtu ==> Enabled(r, MtuExchanged(attMtu, failed)))
  {
    hide Sound, PayloadLen;
  }

  /** A write is over with its answer, and only a failed one is reported. */
  lemma WriteEnds(s: State, failed: bool)
    ensures var r := Step(s, WriteAnswered(failed));
            && !r.busy.write && r.pending == s.pending && r.ready == s.ready
            && r.notices == if failed then s.notices + [WriteFailed] else s.notices
  {
  }

  /** A profile that takes the stream takes it without responses: sending in data mode changes nothing in the manager
      and is answered by the stack, as long as the chunks fit. */
  lemma StreamSends(s: State, data: string, err: Errno)
    requires Sound(s) && CanEnterDataMode(s)
    ensures Send(s, data, err) == (if 1 <= |data| <= s.payloadLen then err else MsgSize, s)
  {
  }

  /** The end of the link leaves nothing of it: the next discovery starts from nothing found. */
  lemma LinkEndsClean(s: State)
    requires Sound(s) && s.connected
    ensures var r := Step(s, LinkEnds);
            && Sound(r) && !r.connected && !r.ready && r.request == NoRequest && r.found == Found(false, false, false)
            && r.busy == Flight(false, false) && r.pending == "" && r.start == r.end == r.notifyHandle == r.writeHandle == 0
            && r.config == s.config && r.notices == s.notices && !CanEnterDataMode(r)
  {
    StepSound(s, LinkEnds);
  }
}
