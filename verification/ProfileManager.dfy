/** profile_manager.c as it is written: the one static state, a method a function.  What the stack answers to
    a request is a parameter.  Each method is proved to do what ProfileModel says. */
module ProfileManaging {
  import opened Common
  import opened Protocol
  import opened Uuid
  import opened ProfileModel

  class ProfileManager {
    var config: Config
    var connected: bool
    var attMtu: nat
    var request: Request
    var serviceStart: nat
    var serviceEnd: nat
    var notifyHandle: nat
    var writeHandle: nat
    var writeProps: Props
    var ready: bool
    var found: Found
    var busy: Flight
    var payloadLen: nat
    const pendingWrite: array<char>
    var pendingLen: nat
    var notices: seq<Notice>

    ghost predicate Valid()
      reads this
    {
      pendingWrite.Length == SEND_MAX && pendingLen <= SEND_MAX
    }

    ghost function Snapshot(): State
      requires Valid()
      reads this, pendingWrite
    {
      State(config, connected, attMtu, request, serviceStart, serviceEnd, notifyHandle, writeHandle, writeProps, ready,
            found, busy, payloadLen, pendingWrite[..pendingLen], notices)
    }

    constructor (config: Config)
      ensures Valid() && fresh(pendingWrite)
      ensures Snapshot() == Initial(config)
    {
      this.config := config;
      connected, attMtu, request := false, 23, NoRequest;
      serviceStart, serviceEnd, notifyHandle, writeHandle := 0, 0, 0, 0;
      writeProps, ready := Props(false, false), false;
      found, busy := Found(false, false, false), Flight(false, false);
      pendingWrite := new char[SEND_MAX];
      pendingLen, notices := 0, [];
      payloadLen := 20;
      new;
      UpdatePayloadLen();
    }

    method UpdatePayloadLen()
      requires Valid()
      modifies this`payloadLen
      ensures Valid() && Snapshot() == ProfileModel.UpdatePayloadLen(old(Snapshot()))
    {
      var mtu, preferred := 23, config.mtu;
      if connected {
        mtu := attMtu;
      }
      if preferred < 23 {
        preferred := 23;
      }
      mtu := Min(mtu, preferred);
      payloadLen := if mtu > 3 then mtu - 3 else 20;
    }

    // report_error and the ready and mtu_updated callbacks
    method Report(n: Notice)
      requires Valid()
      modifies this`notices
      ensures Valid() && Snapshot() == Tell(old(Snapshot()), n)
    {
      notices := notices + [n];
    }

    method ClearHandles()
      requires Valid()
      modifies this`serviceStart, this`serviceEnd, this`notifyHandle, this`writeHandle
      ensures Valid()
      ensures Snapshot() == old(Snapshot()).(start := 0, end := 0, notifyHandle := 0, writeHandle := 0)
    {
      serviceStart, serviceEnd, notifyHandle, writeHandle := 0, 0, 0, 0;
    }

    method ClearFlags()
      requires Valid()
      modifies this`writeProps, this`ready, this`found, this`busy
      ensures Valid()
      ensures Snapshot() == old(Snapshot()).(props := Props(false, false), ready := false,
                                             found := Found(false, false, false), busy := Flight(false, false))
    {
      writeProps, ready := Props(false, false), false;
      found, busy := Found(false, false, false), Flight(false, false);
    }

    method Reset()
      requires Valid()
      modifies this
      ensures Valid() && Snapshot() == ProfileModel.Reset(old(Snapshot()))
    {
      hide ProfileModel.UpdatePayloadLen;
      request := NoRequest;
      ClearHandles();
      ClearFlags();
      pendingLen := 0;
      UpdatePayloadLen();
    }

    // `given` says whether there is a connection to start on.
    method Start(given: bool, mtu: nat, err: Errno) returns (r: Errno)
      requires Valid()
      modifies this
      ensures Valid() && r == (if given then err else Invalid)
      ensures Snapshot() == if given then ProfileModel.Start(old(Snapshot()), mtu, err) else old(Snapshot())
    {
      hide ProfileModel.UpdatePayloadLen, ProfileModel.Reset;
      if !given {
        return Invalid;
      }
      r := err;
      Reset();
      connected, attMtu := true, mtu;
      UpdatePayloadLen();
      if err != Success {
        Report(DiscoverFailed);
      } else {
        request := Services;
      }
    }

    method ServiceFound(service: Service)
      requires Valid()
      modifies this
      ensures Valid() && Snapshot() == OnService(old(Snapshot()), service)
    {
      hide Equals;
      if Equals(service.uuid, config.service) {
        found := found.(service := true);
        serviceStart, serviceEnd := service.start, service.end;
      }
    }

    method ServicesEnd(err: Errno)
      requires Valid()
      modifies this
      ensures Valid() && Snapshot() == ServicesDone(old(Snapshot()), err)
    {
      request := NoRequest;
      if !found.service {
        Report(ServiceMissing);
        return;
      }
      if err != Success {
        Report(DiscoverFailed);
      } else {
        request := Characteristics;
      }
    }

    method CharacteristicFound(c: Characteristic)
      requires Valid()
      modifies this
      ensures Valid() && Snapshot() == OnCharacteristic(old(Snapshot()), c)
    {
      hide Equals;
      if !found.notify && Equals(c.uuid, config.notify) {
        found := found.(notify := true);
        notifyHandle := c.handle;
      }
      if !found.write && Equals(c.uuid, config.write) {
        found := found.(write := true);
        writeHandle, writeProps := c.handle, c.props;
      }
    }

    method CharacteristicsEnd(err: Errno)
      requires Valid()
      modifies this
      ensures Valid() && Snapshot() == CharacteristicsDone(old(Snapshot()), err)
    {
      request := NoRequest;
      if !found.notify {
        Report(NotifyMissing);
        return;
      }
      if !found.write {
        Report(WriteMissing);
        return;
      }
      if config.autoSubscribe {
        if err != Success {
          Report(SubscribeFailed);
        } else {
          request := Subscription;
        }
      } else {
        ready := true;
        Report(BecameReady);
      }
    }

    method SubscribeHandler(failed: bool)
      requires Valid()
      modifies this
      ensures Valid() && Snapshot() == Subscribed(old(Snapshot()), failed)
    {
      request := NoRequest;
      if failed {
        ready := false;
        Report(SubscribeFailed);
        return;
      }
      ready := true;
      Report(BecameReady);
    }

    // notify_handler with no data
    method NotifyEnded()
      requires Valid()
      modifies this`ready
      ensures Valid() && Snapshot() == Step(old(Snapshot()), Unsubscribed)
    {
      ready := false;
    }

    // `current` says whether the connection that was lost is the manager's own.
    method HandleDisconnected(current: bool)
      requires Valid()
      modifies this
      ensures Valid()
      ensures Snapshot() == if current then ProfileModel.Disconnected(old(Snapshot())) else old(Snapshot())
    {
      hide ProfileModel.Reset;
      if current {
        Reset();
        connected := false;
      }
    }

    method SetConfig(c: Config)
      requires Valid()
      modifies this
      ensures Valid() && Snapshot() == Step(old(Snapshot()), Configured(c))
    {
      hide ProfileModel.UpdatePayloadLen;
      config := c;
      UpdatePayloadLen();
    }

    method RequestMtu(stack: Errno) returns (err: Errno)
      requires Valid()
      modifies this
      ensures Valid() && (err, Snapshot()) == ProfileModel.RequestMtu(old(Snapshot()), stack)
    {
      hide ProfileModel.UpdatePayloadLen;
      if !connected {
        return NotConn;
      }
      if busy.exchange {
        return Busy;
      }
      busy := busy.(exchange := true);
      if stack == Already {
        busy := busy.(exchange := false);
        UpdatePayloadLen();
        Report(MtuUpdated(payloadLen));
        return Success;
      }
      if stack != Success {
        busy := busy.(exchange := false);
      }
      return stack;
    }

    method ExchangeHandler(mtu: nat, failed: bool)
      requires Valid()
      modifies this
      ensures Valid() && Snapshot() == Step(old(Snapshot()), MtuExchanged(mtu, failed))
    {
      hide ProfileModel.UpdatePayloadLen;
      attMtu := mtu;
      busy := busy.(exchange := false);
      if !failed {
        UpdatePayloadLen();
        Report(MtuUpdated(payloadLen));
      }
    }

    // memcpy into pending_write
    method CopyPending(data: string)
      requires Valid() && |data| <= SEND_MAX
      modifies this`pendingLen, pendingWrite
      ensures Valid() && Snapshot() == old(Snapshot()).(pending := data)
    {
      for i := 0 to |data|
        invariant pendingWrite[..i] == data[..i]
      {
        pendingWrite[i] := data[i];
      }
      pendingLen := |data|;
      assert data[..|data|] == data;
    }

    method Send(data: string, stack: Errno) returns (err: Errno)
      requires Valid()
      modifies this, pendingWrite
      ensures Valid() && (err, Snapshot()) == ProfileModel.Send(old(Snapshot()), data, stack)
    {
      if !connected {
        return NotConn;
      }
      if !ready || !found.write || writeHandle == 0 {
        return Again;
      }
      if |data| == 0 || |data| > SEND_MAX || |data| > payloadLen {
        return MsgSize;
      }
      if writeProps.withoutResponse {
        return stack;
      }
      if !writeProps.withResponse || busy.write {
        return Access;
      }
      CopyPending(data);
      busy := busy.(write := true);
      if stack != Success {
        busy := busy.(write := false);
      }
      return stack;
    }

    method WriteHandler(failed: bool)
      requires Valid()
      modifies this
      ensures Valid() && Snapshot() == Written(old(Snapshot()), failed)
    {
      busy := busy.(write := false);
      if failed {
        Report(WriteFailed);
      }
    }
  }
}
