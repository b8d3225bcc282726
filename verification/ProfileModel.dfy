/** profile_manager.c: discovery, payload length and single outstanding writes, as steps on a state. */
module ProfileModel {
  import opened Common
  import opened Protocol
  import opened Uuid
  import BridgeModel

  const SEND_MAX: nat := 256

  /** The part of the configuration the manager reads. */
  datatype Config = Config(service: string, notify: string, write: string, mtu: nat, autoSubscribe: bool)

  datatype Props = Props(withoutResponse: bool, withResponse: bool)

  datatype Service = Service(start: nat, end: nat, uuid: string)

  datatype Characteristic = Characteristic(handle: nat, props: Props, uuid: string)

  /** The request the manager is waiting for the link to answer. */
  datatype Request = NoRequest | Services | Characteristics | Subscription

  datatype Notice = BecameReady | ServiceMissing | NotifyMissing | WriteMissing | DiscoverFailed | SubscribeFailed |
                    WriteFailed | MtuUpdated(payloadLen: nat)

  datatype Found = Found(service: bool, notify: bool, write: bool)

  datatype Flight = Flight(exchange: bool, write: bool)

  datatype State = State(
    config: Config,
    connected: bool,
    attMtu: nat,            // what bt_gatt_get_mtu returns on the current link
    request: Request,
    start: nat, end: nat,
    notifyHandle: nat, writeHandle: nat, props: Props,
    ready: bool,
    found: Found,
    busy: Flight,
    payloadLen: nat,
    pending: string,        // pending_write up to pending_write_len
    notices: seq<Notice>)

  // ---------- the functions of the file ----------

  function PayloadLen(attMtu: nat, preferred: nat): nat {
    var m := Min(attMtu, if preferred < 23 then 23 else preferred);
    if m > 3 then m - 3 else 20
  }

  function UpdatePayloadLen(s: State): State {
    s.(payloadLen := PayloadLen(if s.connected then s.attMtu else 23, s.config.mtu))
  }

  function Tell(s: State, n: Notice): State {
    s.(notices := s.notices + [n])
  }

  function Reset(s: State): State {
    UpdatePayloadLen(s.(request := NoRequest, start := 0, end := 0, notifyHandle := 0, writeHandle := 0,
                        props := Props(false, false), ready := false, found := Found(false, false, false),
                        busy := Flight(false, false), pending := ""))
  }

  function Start(s: State, attMtu: nat, err: Errno): State {
    var s1 := UpdatePayloadLen(Reset(s).(connected := true, attMtu := attMtu));
    if err == Success then s1.(request := Services) else Tell(s1, DiscoverFailed)
  }

  function OnService(s: State, v: Service): State {
    if Equals(v.uuid, s.config.service)
    then s.(found := s.found.(service := true), start := v.start, end := v.end)
    else s
  }

  function ServicesDone(s: State, err: Errno): State {
    var s1 := s.(request := NoRequest);
    if !s.found.service then Tell(s1, ServiceMissing)
    else if err == Success then s1.(request := Characteristics)
    else Tell(s1, DiscoverFailed)
  }

  function OnCharacteristic(s: State, c: Characteristic): State {
    var s1 := if !s.found.notify && Equals(c.uuid, s.config.notify)
              then s.(found := s.found.(notify := true), notifyHandle := c.handle) else s;
    if !s1.found.write && Equals(c.uuid, s1.config.write)
    then s1.(found := s1.found.(write := true), writeHandle := c.handle, props := c.props)
    else s1
  }

  function CharacteristicsDone(s: State, err: Errno): State {
    var s1 := s.(request := NoRequest);
    if !s.found.notify then Tell(s1, NotifyMissing)
    else if !s.found.write then Tell(s1, WriteMissing)
    else if !s.config.autoSubscribe then Tell(s1.(ready := true), BecameReady)
    else if err == Success then s1.(request := Subscription)
    else Tell(s1, SubscribeFailed)
  }

  function Subscribed(s: State, failed: bool): State {
    if failed then Tell(s.(request := NoRequest, ready := false), SubscribeFailed)
    else Tell(s.(request := NoRequest, ready := true), BecameReady)
  }

  function Disconnected(s: State): State {
    Reset(s).(connected := false)
  }

  function RequestMtu(s: State, err: Errno): (Errno, State) {
    if !s.connected then (NotConn, s)
    else if s.busy.exchange then (Busy, s)
    else if err == Already then
      var s1 := UpdatePayloadLen(s);
      (Success, Tell(s1, MtuUpdated(s1.payloadLen)))
    else if err != Success then (err, s)
    else (Success, s.(busy := s.busy.(exchange := true)))
  }

  function Exchanged(s: State, failed: bool): State {
    var s1 := s.(busy := s.busy.(exchange := false));
    if failed then s1
    else
      var s2 := UpdatePayloadLen(s1);
      Tell(s2, MtuUpdated(s2.payloadLen))
  }

  /** profile_manager_send; `err` is what the Bluetooth stack answers if it is asked. */
  function Send(s: State, data: string, err: Errno): (Errno, State) {
    if !s.connected then (NotConn, s)
    else if !s.ready || !s.found.write || s.writeHandle == 0 then (Again, s)
    else if |data| == 0 || |data| > SEND_MAX || |data| > s.payloadLen then (MsgSize, s)
    else if s.props.withoutResponse then (err, s)
    else if !s.props.withResponse || s.busy.write then (Access, s)
    else (err, s.(pending := data, busy := s.busy.(write := err == Success)))
  }

  function Written(s: State, failed: bool): State {
    var s1 := s.(busy := s.busy.(write := false));
    if failed then Tell(s1, WriteFailed) else s1
  }

  predicate CanEnterDataMode(s: State) {
    s.ready && s.found.write && s.writeHandle != 0 && s.props.withoutResponse
  }

  // ---------- steps ----------

  datatype Event =
    | LinkStarts(attMtu: nat, err: Errno)
    | ServiceSeen(service: Service)
    | ServicesEnd(err: Errno)
    | CharacteristicSeen(characteristic: Characteristic)
    | CharacteristicsEnd(err: Errno)
    | SubscribeAnswered(failed: bool)
    | Unsubscribed
    | LinkEnds
    | MtuAsked(err: Errno)
    | MtuExchanged(attMtu: nat, failed: bool)
    | Configured(config: Config)
    | Sending(data: string, err: Errno)
    | WriteAnswered(failed: bool)

  /** Callbacks answer an outstanding request of the current link; the ATT MTU is at least 23 and does not
      shrink on a link; accepted configurations have an MTU of 23 to 259. */
  predicate Enabled(s: State, ev: Event) {
    match ev
    case LinkStarts(attMtu, _) => !s.connected && attMtu >= 23
    case ServiceSeen(_) => s.connected && s.request == Services
    case ServicesEnd(_) => s.connected && s.request == Services
    case CharacteristicSeen(_) => s.connected && s.request == Characteristics
    case CharacteristicsEnd(_) => s.connected && s.request == Characteristics
    case SubscribeAnswered(_) => s.connected && s.request == Subscription
    case Unsubscribed => s.connected
    case LinkEnds => s.connected
    case MtuAsked(_) => true
    case MtuExchanged(attMtu, _) => s.connected && s.busy.exchange && attMtu >= s.attMtu
    case Configured(c) => 23 <= c.mtu <= 259
    case Sending(_, _) => true
    case WriteAnswered(_) => s.connected && s.busy.write
  }

  function Step(s: State, ev: Event): State {
    match ev
    case LinkStarts(attMtu, err) => Start(s, attMtu, err)
    case ServiceSeen(v) => OnService(s, v)
    case ServicesEnd(err) => ServicesDone(s, err)
    case CharacteristicSeen(c) => OnCharacteristic(s, c)
    case CharacteristicsEnd(err) => CharacteristicsDone(s, err)
    case SubscribeAnswered(failed) => Subscribed(s, failed)
    case Unsubscribed => s.(ready := false)
    case LinkEnds => Disconnected(s)
    case MtuAsked(err) => RequestMtu(s, err).1
    case MtuExchanged(attMtu, failed) => Exchanged(s.(attMtu := attMtu), failed)
    case Configured(c) => UpdatePayloadLen(s.(config := c))
    case Sending(data, err) => Send(s, data, err).1
    case WriteAnswered(failed) => Written(s, failed)
  }

  predicate Legal(s: State, events: seq<Event>)
    decreases |events|
  {
    events == [] || (Enabled(s, events[0]) && Legal(Step(s, events[0]), events[1..]))
  }

  function Run(s: State, events: seq<Event>): State
    decreases |events|
  {
    if events == [] then s else Run(Step(s, events[0]), events[1..])
  }

  function Initial(c: Config): State {
    UpdatePayloadLen(State(c, false, 23, NoRequest, 0, 0, 0, 0, Props(false, false), false, Found(false, false, false),
                           Flight(false, false), 20, "", []))
  }

  // ---------- invariants ----------

  /** `ready` only on a live link with the service and both characteristics found; the payload length is that
      of the effective MTU less the three bytes of ATT overhead; a pending write is within its buffer. */
  predicate Sound(s: State) {
    && (s.ready ==> s.connected && s.found == Found(true, true, true) && s.request == NoRequest)
    && (s.request == Services ==> s.connected && !s.found.notify && !s.found.write)
    && (s.request == Characteristics ==> s.connected && s.found.service)
    && (s.request == Subscription ==> s.connected && s.found == Found(true, true, true))
    && 23 <= s.config.mtu <= 259 && s.attMtu >= 23
    && 20 <= s.payloadLen <= SEND_MAX
    && (s.connected ==> s.payloadLen <= s.attMtu - 3 && s.payloadLen <= PayloadLen(s.attMtu, s.config.mtu))
    && (s.busy.write ==> s.connected && 1 <= |s.pending|)
    && |s.pending| <= SEND_MAX
  }

  lemma PayloadRange(attMtu: nat, mtu: nat)
    requires attMtu >= 23 && 23 <= mtu <= 259
    ensures 20 <= PayloadLen(attMtu, mtu) <= SEND_MAX
    ensures PayloadLen(attMtu, mtu) <= attMtu - 3 && PayloadLen(attMtu, mtu) <= mtu - 3
    ensures PayloadLen(attMtu, mtu) == attMtu - 3 || PayloadLen(attMtu, mtu) == mtu - 3
  {
  }

  lemma StepSound(s: State, ev: Event)
    requires Sound(s) && Enabled(s, ev)
    ensures Sound(Step(s, ev))
  {
    hide Equals;
    match ev {
      case LinkStarts(_, _) => StartSound(s, ev.attMtu, ev.err);
      case ServiceSeen(_) =>
      case ServicesEnd(_) =>
      case CharacteristicSeen(_) =>
      case CharacteristicsEnd(_) =>
      case SubscribeAnswered(_) =>
      case LinkEnds =>
      case _ =>
    }
  }

  lemma StartSound(s: State, attMtu: nat, err: Errno)
    requires Sound(s) && attMtu >= 23
    ensures Sound(Start(s, attMtu, err))
  {
  }

  lemma {:induction false} RunSound(s: State, events: seq<Event>)
    requires Sound(s) && Legal(s, events)
    ensures Sound(Run(s, events))
    decreases |events|
  {
    hide Sound, Step, Enabled;
    if events != [] {
      StepSound(s, events[0]);
      RunSound(Step(s, events[0]), events[1..]);
    }
  }

  lemma InitialSound(c: Config)
    requires 23 <= c.mtu <= 259
    ensures Sound(Initial(c))
  {
  }

  /** While a write is in flight the buffer it was given does not change, until it is answered or the link
      ends. */
  lemma PendingFixed(s: State, ev: Event)
    requires Sound(s) && Enabled(s, ev) && s.busy.write && !ev.LinkEnds?
    ensures Step(s, ev).pending == s.pending
    ensures !Step(s, ev).busy.write ==> ev.WriteAnswered?
  {
    hide Equals;
    assert !ev.LinkStarts?;
  }

  lemma {:induction false} PendingStays(s: State, events: seq<Event>)
    requires Sound(s) && Legal(s, events) && s.busy.write
    requires forall i :: 0 <= i < |events| ==> !events[i].LinkEnds? && !events[i].WriteAnswered?
    ensures Run(s, events).busy.write && Run(s, events).pending == s.pending
    decreases |events|
  {
    hide Sound, Step, Enabled;
    if events != [] {
      StepSound(s, events[0]);
      PendingFixed(s, events[0]);
      PendingStays(Step(s, events[0]), events[1..]);
    }
  }

  // ---------- the payload length on a link ----------

  /** On a live link the payload length shrinks exactly when the preferred MTU is set below it. */
  lemma StepGrows(s: State, ev: Event)
    requires Sound(s) && Enabled(s, ev) && s.connected
    ensures Step(s, ev).payloadLen < s.payloadLen <==>
            ev.Configured? && PayloadLen(s.attMtu, ev.config.mtu) < s.payloadLen
    ensures !ev.LinkEnds? ==> Step(s, ev).connected
  {
    hide Equals;
  }

  // The configuration stays and the link lasts.
  predicate Fixed(events: seq<Event>) {
    forall i | 0 <= i < |events| :: !events[i].Configured? && !events[i].LinkEnds?
  }

  lemma {:induction false} RunGrows(s: State, events: seq<Event>)
    requires Sound(s) && Legal(s, events) && s.connected && Fixed(events)
    ensures Run(s, events).payloadLen >= s.payloadLen
    decreases |events|
  {
    hide Sound, Step, Enabled;
    if events != [] {
      assert !events[0].Configured? && !events[0].LinkEnds?;
      StepSound(s, events[0]);
      StepGrows(s, events[0]);
      RunGrows(Step(s, events[0]), events[1..]);
    }
  }

  /** The pump never meets the size error: a chunk claimed with the payload length of the manager still fits
      when it is sent, whatever happened on the link in between, unless the profile was configured anew. */
  lemma ChunkFits(b: BridgeModel.State, contiguous: nat, s: State, events: seq<Event>, err: Errno)
    requires Sound(s) && s.connected && Legal(s, events) && Fixed(events) && err != MsgSize
    requires b.profile.payloadLen == s.payloadLen && BridgeModel.PumpNext(b, contiguous).Holding?
    ensures Send(Run(s, events), BridgeModel.PumpNext(b, contiguous).chunk, err).0 != MsgSize
  {
    RunGrows(s, events);
    var chunk := BridgeModel.PumpNext(b, contiguous).chunk;
    assert 1 <= |chunk| <= BridgeModel.ClaimBound(b);
    hide Sound, Run, Legal, Fixed;
  }

  /** And it does meet it when AT+SETMTU=23 comes between the claim and the send of a longer chunk. */
  lemma ChunkOutgrown(s: State, chunk: string, err: Errno)
    requires Sound(s) && CanEnterDataMode(s) && 20 < |chunk| <= s.payloadLen
    ensures var ev := Configured(s.config.(mtu := 23));
            && Send(s, chunk, err) == (err, s)
            && Enabled(s, ev) && Send(Step(s, ev), chunk, err).0 == MsgSize
  {
  }

  // ---------- discovery ----------

  // The last service with the wanted UUID.
  function LastMatch(services: seq<Service>, uuid: string): seq<Service> {
    if services == [] then []
    else
      var n := |services| - 1;
      if Equals(services[n].uuid, uuid) then [services[n]] else LastMatch(services[..n], uuid)
  }

  // The first characteristic with the wanted UUID.
  function FirstMatch(cs: seq<Characteristic>, uuid: string): seq<Characteristic> {
    if cs == [] then []
    else if Equals(cs[0].uuid, uuid) then [cs[0]]
    else FirstMatch(cs[1..], uuid)
  }

  function SeeServices(s: State, services: seq<Service>): State {
    if services == [] then s
    else OnService(SeeServices(s, services[..|services| - 1]), services[|services| - 1])
  }

  function SeeCharacteristics(s: State, cs: seq<Characteristic>): State
    decreases |cs|
  {
    if cs == [] then s else SeeCharacteristics(OnCharacteristic(s, cs[0]), cs[1..])
  }

  lemma {:induction false} ServicesMean(s: State, services: seq<Service>)
    requires !s.found.service
    ensures var m := LastMatch(services, s.config.service);
            SeeServices(s, services) ==
            if m == [] then s else s.(found := s.found.(service := true), start := m[0].start, end := m[0].end)
    decreases |services|
  {
    hide Equals;
    if services != [] {
      ServicesMean(s, services[..|services| - 1]);
    }
  }

  // The effect of the first characteristic that matches, if there is one and none was found before.
  function WithNotify(s: State, first: seq<Characteristic>): State {
    if s.found.notify || first == [] then s
    else s.(found := s.found.(notify := true), notifyHandle := first[0].handle)
  }

  function WithWrite(s: State, first: seq<Characteristic>): State {
    if s.found.write || first == [] then s
    else s.(found := s.found.(write := true), writeHandle := first[0].handle, props := first[0].props)
  }

  lemma FirstWins(s: State, n: seq<Characteristic>, w: seq<Characteristic>, n1: seq<Characteristic>,
                  w1: seq<Characteristic>)
    ensures WithWrite(WithNotify(WithWrite(WithNotify(s, n), w), n1), w1) ==
            WithWrite(WithNotify(s, if n == [] then n1 else n), if w == [] then w1 else w)
  {
  }

  lemma {:induction false} CharacteristicsMean(s: State, cs: seq<Characteristic>)
    ensures SeeCharacteristics(s, cs) ==
            WithWrite(WithNotify(s, FirstMatch(cs, s.config.notify)), FirstMatch(cs, s.config.write))
    decreases |cs|
  {
    hide Equals;
    if cs != [] {
      var n := FirstMatch(cs[..1], s.config.notify);
      var w := FirstMatch(cs[..1], s.config.write);
      OneCharacteristic(s, cs[0]);
      CharacteristicsMean(OnCharacteristic(s, cs[0]), cs[1..]);
      FirstWins(s, n, w, FirstMatch(cs[1..], s.config.notify), FirstMatch(cs[1..], s.config.write));
    }
  }

  lemma OneCharacteristic(s: State, c: Characteristic)
    ensures OnCharacteristic(s, c).config == s.config
    ensures OnCharacteristic(s, c) ==
            WithWrite(WithNotify(s, FirstMatch([c], s.config.notify)), FirstMatch([c], s.config.write))
  {
    hide Equals;
  }

  // ---------- discovery in a run ----------

  function SeenServices(events: seq<Event>): seq<Service> {
    if events == [] then []
    else
      var n := |events| - 1;
      SeenServices(events[..n]) + (if events[n].ServiceSeen? then [events[n].service] else [])
  }

  function SeenCharacteristics(events: seq<Event>): seq<Characteristic> {
    if events == [] then []
    else
      var n := |events| - 1;
      SeenCharacteristics(events[..n]) + (if events[n].CharacteristicSeen? then [events[n].characteristic] else [])
  }

  /** The answer that makes the manager ready. */
  predicate Completes(auto: bool, ev: Event) {
    if auto then ev == SubscribeAnswered(false) else ev.CharacteristicsEnd?
  }

  /** It came, and notifications were not switched off after it. */
  predicate Completed(auto: bool, events: seq<Event>) {
    exists i | 0 <= i < |events| ::
      Completes(auto, events[i]) && forall j | i < j < |events| :: !events[j].Unsubscribed?
  }

  lemma CompletedSnoc(auto: bool, events: seq<Event>, ev: Event)
    ensures Completed(auto, events + [ev]) <==> Completes(auto, ev) || (Completed(auto, events) && !ev.Unsubscribed?)
  {
    var all := events + [ev];
    var n := |events|;
    assert all[n] == ev && forall i | 0 <= i < n :: all[i] == events[i];
    if Completes(auto, ev) {
      assert Completes(auto, all[n]);
    } else if Completed(auto, events) && !ev.Unsubscribed? {
      var i :| 0 <= i < n && Completes(auto, events[i]) && forall j | i < j < n :: !events[j].Unsubscribed?;
      assert Completes(auto, all[i]) && forall j | i < j < |all| :: !all[j].Unsubscribed?;
    }
    if i :| 0 <= i < |all| && Completes(auto, all[i]) && (forall j | i < j < |all| :: !all[j].Unsubscribed?) && i < n {
      assert Completes(auto, events[i]) && forall j | i < j < n :: !events[j].Unsubscribed?;
      assert !all[n].Unsubscribed?;
    }
  }

  lemma {:induction false} FirstMatchSnoc(cs: seq<Characteristic>, c: Characteristic, uuid: string)
    ensures FirstMatch(cs + [c], uuid) ==
            if FirstMatch(cs, uuid) != [] then FirstMatch(cs, uuid) else if Equals(c.uuid, uuid) then [c] else []
    decreases |cs|
  {
    hide Equals;
    if cs == [] {
      assert cs + [c] == [c];
    } else {
      assert (cs + [c])[0] == cs[0] && (cs + [c])[1..] == cs[1..] + [c];
      FirstMatchSnoc(cs[1..], c, uuid);
    }
  }

  lemma LastMatchSnoc(services: seq<Service>, v: Service, uuid: string)
    ensures LastMatch(services + [v], uuid) == if Equals(v.uuid, uuid) then [v] else LastMatch(services, uuid)
  {
    hide Equals;
    assert (services + [v])[..|services|] == services;
  }

  /** The range and the handles are those of the last matching service and the first matching
      characteristics. */
  ghost predicate Chosen(s: State, services: seq<Service>, cs: seq<Characteristic>) {
    var v := LastMatch(services, s.config.service);
    var n := FirstMatch(cs, s.config.notify);
    var w := FirstMatch(cs, s.config.write);
    && s.found == Found(v != [], n != [], w != [])
    && (v != [] ==> s.start == v[0].start && s.end == v[0].end)
    && (n != [] ==> s.notifyHandle == n[0].handle)
    && (w != [] ==> s.writeHandle == w[0].handle && s.props == w[0].props)
  }

  // Readiness, by what was answered.
  ghost predicate ReadyBy(s: State, events: seq<Event>) {
    var auto := s.config.autoSubscribe;
    && (s.ready <==> s.found == Found(true, true, true) && Completed(auto, events))
    && (s.request == Services || s.request == Characteristics ==> !Completed(auto, events))
    && (s.request == Subscription ==> auto && !Completed(auto, events))
  }

  lemma ChosenStep(s: State, ev: Event, services: seq<Service>, cs: seq<Characteristic>)
    requires Sound(s) && Enabled(s, ev) && s.connected && !ev.Configured? && !ev.LinkEnds? && Chosen(s, services, cs)
    ensures Step(s, ev).config == s.config
    ensures Chosen(Step(s, ev), if ev.ServiceSeen? then services + [ev.service] else services,
                   if ev.CharacteristicSeen? then cs + [ev.characteristic] else cs)
  {
    match ev {
      case ServiceSeen(v) => LastMatchSnoc(services, v, s.config.service);
      case CharacteristicSeen(c) =>
        FirstMatchSnoc(cs, c, s.config.notify);
        FirstMatchSnoc(cs, c, s.config.write);
      case _ =>
    }
    hide Equals, LastMatch, FirstMatch;
  }

  lemma ReadyStep(s: State, ev: Event, events: seq<Event>)
    requires Sound(s) && Enabled(s, ev) && s.connected && !ev.Configured? && !ev.LinkEnds? && ReadyBy(s, events)
    ensures ReadyBy(Step(s, ev), events + [ev])
  {
    CompletedSnoc(s.config.autoSubscribe, events, ev);
    hide Equals, Completed;
  }

  lemma {:induction false} RunSnoc(s: State, events: seq<Event>, ev: Event)
    ensures Run(s, events + [ev]) == Step(Run(s, events), ev)
    ensures Legal(s, events + [ev]) <==> Legal(s, events) && Enabled(Run(s, events), ev)
    decreases |events|
  {
    hide Step, Enabled;
    if events == [] {
      assert events + [ev] == [ev] && [ev][1..] == [];
    } else {
      assert (events + [ev])[0] == events[0] && (events + [ev])[1..] == events[1..] + [ev];
      RunSnoc(Step(s, events[0]), events[1..], ev);
    }
  }

  // What holds throughout a discovery that began in `s`.
  ghost predicate Follows(s: State, events: seq<Event>) {
    var r := Run(s, events);
    && Sound(r) && r.connected && r.config == s.config
    && Chosen(r, SeenServices(events), SeenCharacteristics(events)) && ReadyBy(r, events)
  }

  lemma {:induction false} Discovering(s: State, events: seq<Event>)
    requires Follows(s, []) && Legal(s, events) && Fixed(events)
    ensures Follows(s, events)
    decreases |events|
  {
    hide Sound, Step, Enabled, Run, Chosen, ReadyBy;
    if events != [] {
      var n := |events| - 1;
      var front, ev := events[..n], events[n];
      assert events == front + [ev];
      RunSnoc(s, front, ev);
      Discovering(s, front);
      var r := Run(s, front);
      StepSound(r, ev);
      StepGrows(r, ev);
      ChosenStep(r, ev, SeenServices(front), SeenCharacteristics(front));
      ReadyStep(r, ev, front);
      assert SeenServices(front) + [] == SeenServices(front);
      assert SeenCharacteristics(front) + [] == SeenCharacteristics(front);
    }
  }

  lemma Begins(s: State, attMtu: nat, err: Errno)
    requires Sound(s) && attMtu >= 23
    ensures Follows(Start(s, attMtu, err), [])
  {
    hide Equals;
    StartSound(s, attMtu, err);
  }

  /** On any link, whatever else happens on it (MTU exchanges, sends, writes, lost subscriptions), as long as
      it lasts and the profile is not configured anew: the service range is that of the last matching service
      reported, the handles those of the first matching characteristics reported, and the manager is ready
      exactly if all three were found and the answer that completes the discovery came, and notifications
      were not switched off after it. */
  lemma DiscoveryMeans(s: State, attMtu: nat, err: Errno, events: seq<Event>)
    requires Sound(s) && Legal(s, [LinkStarts(attMtu, err)] + events) && Fixed(events)
    ensures var r := Run(s, [LinkStarts(attMtu, err)] + events);
            && r.config == s.config
            && Chosen(r, SeenServices(events), SeenCharacteristics(events))
            && (r.ready <==> r.found == Found(true, true, true) && Completed(s.config.autoSubscribe, events))
  {
    var all := [LinkStarts(attMtu, err)] + events;
    assert all[0] == LinkStarts(attMtu, err) && all[1..] == events;
    var s1 := Start(s, attMtu, err);
    Begins(s, attMtu, err);
    assert s1.config == s.config;
    hide Sound, Start, Chosen, Fixed;
    Discovering(s1, events);
    hide Run, Completed;
  }
}
