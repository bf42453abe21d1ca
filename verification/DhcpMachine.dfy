// The DHCP client as the object the daemon holds: each transition updates the
// fields in place and is proved against its specification.

module DhcpMachine {
  import opened Bytes
  import opened DhcpWire
  import D = DhcpClient
  import opened DhcpClient

  class Dhcp4 {
    const lossy: Lossy
    const mac: Mac
    const hostname: Option<seq<byte>>
    var xid: u32
    var phase: Phase
    var server: Option<Ip>
    var offered: Ip
    var lease: Option<Lease>
    var tries: nat
    var elapsed: u32
    var renewInterval: u32

    ghost function Now(): Client
      reads this
    {
      Client(mac, hostname, xid, phase, server, offered, lease, tries, elapsed, renewInterval)
    }

    constructor (lossy: Lossy, mac: Mac, hostname: Option<seq<byte>>, xid: u32)
      ensures Now() == Fresh(mac, hostname, xid) && this.lossy == lossy
    {
      this.lossy, this.mac, this.hostname, this.xid := lossy, mac, hostname, xid;
      phase, server, offered, lease := Init, None, UNSPECIFIED, None;
      tries, elapsed, renewInterval := 0, 0, MIN_RENEW_INTERVAL;
    }

    method Poll(input: Input) returns (actions: seq<Action>)
      modifies this
      ensures Outcome(Now(), actions) == D.Poll(lossy, old(Now()), input)
    {
      hide D.OnStart, D.OnDatagram, D.OnTimeout;
      match input {
        case Start(newXid) => actions := OnStart(newXid);
        case Datagram(bytes) => actions := OnDatagram(bytes);
        case Timeout(timer) => actions := OnTimeout(timer);
      }
    }

    method OnStart(newXid: u32) returns (actions: seq<Action>)
      modifies this
      ensures Outcome(Now(), actions) == D.OnStart(old(Now()), newXid)
    {
      hide EncodeMessage, Base, D.Backoff;
      xid, phase, server, offered := newXid, Selecting, None, UNSPECIFIED;
      lease, tries, elapsed := None, 0, 0;
      var data := Discover();
      actions := Transmit(data);
    }

    method OnDatagram(bytes: seq<byte>) returns (actions: seq<Action>)
      modifies this
      ensures Outcome(Now(), actions) == D.OnDatagram(lossy, old(Now()), bytes)
    {
      hide DecodeMessage, D.OnOffer, D.OnAck, KindOf;
      var decoded := Decode(lossy, bytes);
      if decoded.None? { return []; }
      var msg := decoded.value;
      if msg.op != BOOTREPLY || msg.xid != xid || msg.chaddr[..6] != mac { return []; }
      var kind := KindOf(msg.options);
      if phase == Selecting && kind == Some(Offer) {
        actions := OnOffer(msg);
      } else if phase in {Requesting, Renewing, Rebinding} && kind == Some(Ack) {
        actions := OnAck(msg);
      } else if phase in {Requesting, Renewing, Rebinding} && kind == Some(Nak) {
        actions := Release(NakReceived);
      } else {
        actions := [];
      }
    }

    method OnOffer(msg: Message) returns (actions: seq<Action>)
      modifies this
      ensures Outcome(Now(), actions) == D.OnOffer(old(Now()), msg)
    {
      hide EncodeMessage, Base, D.Backoff, ServerOf;
      var named := ServerOf(msg.options);
      if named.None? { return []; }
      server, offered, phase, tries := named, msg.yiaddr, Requesting, 0;
      var data := RequestSelecting();
      actions := Transmit(data);
    }

    method OnAck(msg: Message) returns (actions: seq<Action>)
      modifies this
      ensures Outcome(Now(), actions) == D.OnAck(old(Now()), msg)
    {
      hide LeaseOfAck;
      var granted := LeaseOfAck(msg);
      if granted.Err? { return []; }
      var l := granted.value;
      phase, server, tries, lease := Bound, Some(l.server), 0, Some(l);
      actions := [SetTimer(Renew, l.renewSecs), SetTimer(Rebind, l.rebindSecs), SetTimer(Expire, l.leaseSecs), Configured(l)];
    }

    method Release(why: Reason) returns (actions: seq<Action>)
      modifies this
      ensures Outcome(Now(), actions) == D.Released(old(Now()), why)
    {
      phase, server, lease := Init, None, None;
      actions := [Deconfigure(why)];
    }

    method OnTimeout(timer: Timer) returns (actions: seq<Action>)
      modifies this
      ensures Outcome(Now(), actions) == D.OnTimeout(old(Now()), timer)
    {
      hide D.Resend, D.EnterRenewing, D.EnterRebinding;
      actions := [];
      match timer {
        case Retransmit => actions := Resend();
        case Renew => if phase == Bound { actions := EnterRenewing(); }
        case Rebind => if phase == Bound || phase == Renewing { actions := EnterRebinding(); }
        case Expire => if lease.Some? { actions := Release(Expired); }
      }
    }

    method Resend() returns (actions: seq<Action>)
      modifies this
      ensures Outcome(Now(), actions) == D.Resend(old(Now()))
    {
      hide EncodeMessage, D.Backoff;
      actions := [];
      match phase {
        case Selecting =>
          if tries + 1 >= MAX_TRIES {
            actions := GiveUp();
          } else {
            Age();
            var data := Discover();
            actions := Transmit(data);
          }
        case Requesting =>
          if tries + 1 >= MAX_TRIES {
            actions := GiveUp();
          } else {
            Age();
            var data := RequestSelecting();
            actions := Transmit(data);
          }
        case Renewing =>
          var secs := HalveRenewInterval();
          var data := RequestRenew();
          actions := [Unicast(server.GetOr(LIMITED_BROADCAST), data), SetTimer(Retransmit, secs)];
        case Rebinding =>
          var secs := HalveRenewInterval();
          var data := RequestRenew();
          actions := [Broadcast(data), SetTimer(Retransmit, secs)];
        case _ =>
      }
    }

    method GiveUp() returns (actions: seq<Action>)
      modifies this
      ensures Outcome(Now(), actions) == D.GivenUp(old(Now()))
    {
      phase, server, offered := Init, None, UNSPECIFIED;
      actions := [Failed];
    }

    method EnterRenewing() returns (actions: seq<Action>)
      modifies this
      ensures Outcome(Now(), actions) == D.EnterRenewing(old(Now()))
    {
      hide EncodeMessage;
      if lease.None? { return []; }
      var l := lease.value;
      phase, renewInterval := Renewing, HalfFloored(Minus(l.rebindSecs, l.renewSecs));
      var data := RequestRenew();
      actions := [Unicast(l.server, data), SetTimer(Retransmit, renewInterval)];
    }

    method EnterRebinding() returns (actions: seq<Action>)
      modifies this
      ensures Outcome(Now(), actions) == D.EnterRebinding(old(Now()))
    {
      hide EncodeMessage;
      if lease.None? { return []; }
      var l := lease.value;
      phase, renewInterval := Rebinding, HalfFloored(Minus(l.leaseSecs, l.rebindSecs));
      var data := RequestRenew();
      actions := [Broadcast(data), SetTimer(Retransmit, renewInterval)];
    }

    method Age()
      modifies this`elapsed, this`tries
      ensures Now() == D.Aged(old(Now()))
    {
      var spent := elapsed + Backoff(xid, tries);
      elapsed := if spent < 0x1_0000_0000 then spent else 0xffff_ffff;
      tries := tries + 1;
    }

    method HalveRenewInterval() returns (secs: u32)
      modifies this`renewInterval
      ensures secs == renewInterval == HalfFloored(old(renewInterval))
    {
      renewInterval := HalfFloored(renewInterval);
      secs := renewInterval;
    }

    method Transmit(data: seq<byte>) returns (actions: seq<Action>)
      ensures actions == [Broadcast(data), SetTimer(Retransmit, Backoff(xid, tries))]
    {
      actions := [Broadcast(data), SetTimer(Retransmit, Backoff(xid, tries))];
    }

    // The header and the options every message of this client starts with.
    method StartMessage(kind: MessageType) returns (msg: Message)
      ensures msg == Base(Now(), kind)
    {
      msg := D.Request(xid, mac).(secs := if elapsed < 0xffff then elapsed else 0xffff);
      var options := [MessageKind(kind), ClientId([HTYPE_ETHERNET] + mac)];
      if hostname.Some? {
        options := options + [HostName(hostname.value)];
      } else {
        assert options == options + [];
      }
      options := options + [ParameterRequest(PARAM_REQUEST)];
      msg := msg.(options := options);
    }

    method Discover() returns (data: seq<byte>)
      ensures data == EncodeMessage(DiscoverMessage(Now()))
    {
      hide EncodeMessage, Base;
      var msg := StartMessage(MessageType.Discover);
      data := Encode(msg.(flags := FLAG_BROADCAST));
    }

    method RequestSelecting() returns (data: seq<byte>)
      ensures data == EncodeMessage(SelectingRequest(Now()))
    {
      hide EncodeMessage, Base;
      var msg := StartMessage(MessageType.Request);
      var options := msg.options + [RequestedIp(offered)];
      assert options + [] == options;
      if server.Some? {
        options := options + [ServerId(server.value)];
      }
      data := Encode(msg.(flags := FLAG_BROADCAST, options := options));
    }

    method RequestRenew() returns (data: seq<byte>)
      ensures data == EncodeMessage(RenewingRequest(Now()))
    {
      hide EncodeMessage, Base;
      var msg := StartMessage(MessageType.Request);
      data := Encode(msg.(ciaddr := if lease.Some? then lease.value.addr else UNSPECIFIED));
    }
  }
}
