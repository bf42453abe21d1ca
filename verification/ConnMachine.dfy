// The connection as the object the daemon drives: handlers that update its
// fields in place and append to what they ask for, each proved against its
// specification. The providers and the handshake a session owns are held by
// value; FourWayMachine, SaeMachine and Dot1xMachine are those objects.

module ConnMachine {
  import opened Bytes
  import opened Suites
  import opened Policy
  import F = Connection
  import opened Connection
  import E = Eapol
  import H = FourWayHandshake
  import S = SaeExchange
  import D = Dot1x

  class Link {
    const env: Surroundings
    const device: Device
    var profiles: seq<Profile>
    var state: State
    var target: Option<Target>
    var session: Option<Session>
    var attempts: u32
    var armed: Option<TimerId>
    var pending: Option<Bss>

    ghost function Now(): Conn
      reads this
    {
      Conn(device, profiles, state, target, session, attempts, armed, pending)
    }

    constructor (env: Surroundings, device: Device, profiles: seq<Profile>)
      ensures Now() == NewConnection(device, profiles) && this.env == env
    {
      this.env, this.device, this.profiles := env, device, profiles;
      state, target, session, attempts, armed, pending := Idle, None, None, 0, None, None;
    }

    method InsertProfile(p: Profile)
      modifies this`profiles, this`target
      ensures Now() == F.InsertProfile(old(Now()), p)
    {
      if target.Some? && target.value.ssid == p.ssid {
        target := Some(target.value.(retry := p.autoconnect));
      }
      profiles := Others(profiles, p.ssid);
      profiles := profiles + [p];
    }

    method ForgetProfile(ssid: seq<byte>)
      modifies this`profiles
      ensures Now() == F.ForgetProfile(old(Now()), ssid)
    {
      profiles := Others(profiles, ssid);
    }

    method Poll(input: Input, drawn: Drawn) returns (out: seq<Action>)
      requires env.Valid()
      modifies this
      ensures Turn(Now(), out) == F.Poll(env, drawn, old(Now()), input)
    {
      hide F.OnCommand, F.OnWireless, F.OnScanResults, F.OnEapol, F.OnLease, F.OnTimer;
      match input {
        case Commanded(command) => out := OnCommand(command, drawn, []);
        case Wireless(event) => out := OnWireless(event, drawn, []);
        case ScanResults(scan) => out := OnScanResults(scan, drawn, []);
        case EapolFrame(bytes) => out := OnEapol(bytes, drawn, []);
        case Leased(event) => out := OnLease(event, []);
        case Timer(id) => out := OnTimer(id, []);
      }
    }

    // ---- transitions -----------------------------------------------------------

    method Arm(id: TimerId, millis: nat, before: seq<Action>) returns (out: seq<Action>)
      modifies this`armed
      ensures Turn(Now(), out) == F.Arm(Turn(old(Now()), before), id, millis)
    {
      armed := Some(id);
      out := before + [SetTimer(id, millis)];
    }

    method Disarm(before: seq<Action>) returns (out: seq<Action>)
      modifies this`armed
      ensures Turn(Now(), out) == F.Disarm(Turn(old(Now()), before))
    {
      out := before;
      if armed.Some? {
        out := out + [ClearTimer(armed.value)];
        armed := None;
      }
    }

    method Enter(next: State, before: seq<Action>) returns (out: seq<Action>)
      modifies this`armed, this`state
      ensures Turn(Now(), out) == F.Enter(Turn(old(Now()), before), next)
    {
      out := before;
      if armed.Some? && armed != TimerOf(next) {
        out := Disarm(out);
      }
      state := next;
      out := out + [Notify(next)];
    }

    method GoIdle(before: seq<Action>) returns (out: seq<Action>)
      modifies this
      ensures Turn(Now(), out) == F.GoIdle(Turn(old(Now()), before))
    {
      out := Disarm(before);
      state, target, session, pending, attempts := Idle, None, None, None, 0;
      out := out + [Notify(Idle)];
    }

    // Wait a while, longer each time, and scan again.
    method BackOff(before: seq<Action>) returns (out: seq<Action>)
      modifies this`attempts, this`state, this`armed
      ensures var again: u32 := (old(attempts) + 1) % 0x1_0000_0000;
              Turn(Now(), out) == F.Arm(F.Enter(Turn(old(Now()).(attempts := again), before), Reconnecting), ReconnectBackoff, BackoffMs(again))
    {
      hide F.Enter, BackoffMs;
      attempts := (attempts + 1) % 0x1_0000_0000;
      out := Enter(Reconnecting, before);
      out := Arm(ReconnectBackoff, BackoffMs(attempts), out);
    }

    method Fail(f: Failure, before: seq<Action>) returns (out: seq<Action>)
      modifies this
      ensures Turn(Now(), out) == F.Fail(Turn(old(Now()), before), f)
    {
      hide F.Enter, F.Arm, BackoffMs, Terminal;
      out := before;
      if Associated(state) && !f.Disconnected? {
        out := out + [Disconnect(REASON_LEAVING)];
      }
      session, pending := None, None;
      if !Terminal(f) && target.Some? && target.value.retry {
        out := BackOff(out);
        return;
      }
      out := Disarm(out);
      state, target, attempts := Idle, None, 0;
      out := out + [Failed(f)];
    }

    method StartScan(before: seq<Action>) returns (out: seq<Action>)
      modifies this`state, this`armed
      ensures Turn(Now(), out) == F.StartScan(Turn(old(Now()), before))
    {
      hide F.Enter;
      out := Enter(Scanning, before);
      out := out + [TriggerScan(device.ifindex)];
      out := Arm(ScanTimeout, SCAN_TIMEOUT_MS, out);
    }

    // ---- commands ---------------------------------------------------------------

    method OnCommand(command: Command, drawn: Drawn, before: seq<Action>) returns (out: seq<Action>)
      requires env.Valid()
      modifies this
      ensures Turn(Now(), out) == F.OnCommand(env, drawn, Turn(old(Now()), before), command)
    {
      hide F.StartScan, F.GoIdle, F.Plan, ProfileFor;
      out := before;
      match command {
        case Connect(ssid) =>
          if state != Idle {
            out := out + [Disconnect(REASON_LEAVING)];
          }
          var profile := ProfileFor(profiles, ssid);
          target := Some(Target(ssid, None, profile.Some? && profile.value.autoconnect, profile.None?));
          session, pending, attempts := None, None, 0;
          out := StartScan(out);
        case Autoconnect =>
          if state != Idle { return; }
          target, session, pending, attempts := None, None, None, 0;
          out := StartScan(out);
        case Secret(value) =>
          if target.None? { return; }
          target := Some(target.value.(secret := Some(value)));
          if pending.Some? {
            var bss := pending.value;
            pending := None;
            out := Plan(bss, false, drawn, out);
          }
        case Disconnecting =>
          out := out + [Disconnect(REASON_LEAVING)];
          out := GoIdle(out);
      }
    }

    // ---- scanning -----------------------------------------------------------------

    method OnScanResults(scan: seq<Bss>, drawn: Drawn, before: seq<Action>) returns (out: seq<Action>)
      requires env.Valid()
      modifies this
      ensures Turn(Now(), out) == F.OnScanResults(env, drawn, Turn(old(Now()), before), scan)
    {
      hide F.Select, F.ConsiderRoam;
      out := before;
      match state {
        case Scanning => out := Select(scan, drawn, out);
        case Connected => out := ConsiderRoam(scan, drawn, out);
        case _ =>
      }
    }

    method Select(scan: seq<Bss>, drawn: Drawn, before: seq<Action>) returns (out: seq<Action>)
      requires env.Valid()
      modifies this
      ensures Turn(Now(), out) == F.Select(env, drawn, Turn(old(Now()), before), scan)
    {
      hide F.Plan, F.Fail, BestBss, BestKnown, FindBss;
      var bssid;
      if target.Some? {
        var best := BestBss(scan, target.value.ssid);
        if best.None? {
          out := Fail(NotFound, before);
          return;
        }
        bssid := best.value.bssid;
      } else {
        var best := BestKnown(scan, profiles);
        if best.None? {
          out := Fail(NoKnownNetwork, before);
          return;
        }
        bssid := best.value.0.bssid;
        target := Some(Target(best.value.1.ssid, None, true, false));
      }
      var bss := FindBss(scan, bssid);
      if bss.None? {
        out := before + [Crashed];
      } else {
        out := Plan(bss.value, false, drawn, before);
      }
    }

    method Plan(bss: Bss, roaming: bool, drawn: Drawn, before: seq<Action>) returns (out: seq<Action>)
      requires env.Valid()
      modifies this
      ensures Turn(Now(), out) == F.Plan(env, drawn, Turn(old(Now()), before), bss, roaming)
    {
      hide F.Decide, F.Fail, F.StartSae, F.SendAssociation;
      out := before;
      var decision := Decide(env, drawn, Conn(device, profiles, state, target, session, attempts, armed, pending), bss, roaming);
      match decision {
        case Unsuitable(failure) => if !roaming { out := Fail(failure, out); }
        case Abandon(failure) => out := Fail(failure, out);
        case Ask =>
          out := Disarm(out);
          out := out + [RequestSecret(if target.Some? then target.value.ssid else [])];
          pending := Some(bss);
        case Stay =>
        case Go(planned) =>
          session := Some(planned);
          if planned.auth.PreAssoc? { out := StartSae(out); } else { out := SendAssociation(out); }
      }
    }

    // ---- pre-association authentication ----------------------------------------------

    method StartSae(before: seq<Action>) returns (out: seq<Action>)
      requires env.Valid()
      modifies this
      ensures Turn(Now(), out) == F.StartSae(env, Turn(old(Now()), before))
    {
      hide F.Enter, F.DriveSae;
      out := Enter(Authenticating, before);
      out := DriveSae(None, true, out);
    }

    method DriveSae(frame: Option<seq<byte>>, start: bool, before: seq<Action>) returns (out: seq<Action>)
      requires env.Valid()
      modifies this
      ensures Turn(Now(), out) == F.DriveSae(env, Turn(old(Now()), before), frame, start)
    {
      hide F.OnSaeStep, S.Start, S.OnFrame, S.OnTimeout;
      out := before;
      if target.None? || session.None? || !session.value.auth.PreAssoc? { return; }
      var s := session.value;
      var context := S.Context(target.value.ssid, s.choice.bssid, device.mac, if s.choice.rsn.Some? then s.choice.rsn.value.akm else Psk);
      var o;
      if start {
        o := S.Start(env.g, s.auth.sae, context);
      } else if frame.Some? {
        o := S.OnFrame(env.g, s.auth.sae, frame.value);
      } else {
        o := S.OnTimeout(s.auth.sae);
      }
      session := Some(s.(auth := PreAssoc(o.next)));
      out := OnSaeStep(o.result, out);
    }

    method OnSaeStep(r: S.Stepped, before: seq<Action>) returns (out: seq<Action>)
      modifies this
      ensures Turn(Now(), out) == F.OnSaeStep(Turn(old(Now()), before), r)
    {
      hide F.Fail, F.SendAssociation;
      out := before;
      if r.Err? {
        out := Fail(FailureOfCrypto(r.error), out);
        return;
      }
      match r.value {
        case Send(frame) =>
          if target.None? || session.None? || |frame| < 2 {
            out := Fail(Internal, out);
            return;
          }
          var choice := session.value.choice;
          out := out + [Authenticate(AuthRequest(device.ifindex, target.value.ssid, choice.bssid, choice.freqMhz, AUTHTYPE_SAE, frame[2..]))];
          out := Arm(AuthTimeout, AUTH_TIMEOUT_MS, out);
        case Wait =>
        case Done(pmk) =>
          if session.None? {
            out := out + [Crashed];
            return;
          }
          if session.value.auth.PreAssoc? {
            session := Some(session.value.(pmkid := session.value.auth.sae.pmkid));
          }
          session := Some(session.value.(auth := Ready(pmk)));
          out := SendAssociation(out);
      }
    }

    // ---- association --------------------------------------------------------------------

    // The request is filled in field by field, as the session allows.
    method BuildRequest(s: Session, ssid: seq<byte>) returns (request: AssocRequest)
      ensures request == RequestFor(device, ssid, s)
    {
      hide StationElement;
      request := AssocRequest(device.ifindex, ssid, s.choice.bssid, s.choice.freqMhz, AUTHTYPE_OPEN_SYSTEM, 0, [], None, [],
                              None, [], if s.auth.Offloaded? then Some(s.auth.offload) else None, false);
      if s.choice.rsn.None? { return; }
      var n := s.choice.rsn.value;
      var element := EncodeStation(StationOf(n, s.pmkid));
      if n.akm.IsSae() {
        request := request.(authType := AUTHTYPE_SAE, wpaVersions := WPA_VERSION_2 + WPA_VERSION_3);
      } else {
        request := request.(wpaVersions := WPA_VERSION_2);
      }
      if KernelCipher(n.pairwise).Some? {
        request := request.(pairwise := [KernelCipher(n.pairwise).value]);
      }
      request := request.(group := KernelCipher(n.group), akms := [AkmSelector(n.akm)],
                          mfp := Some(if n.mfpRequired then MFP_REQUIRED else if n.mfpCapable then MFP_OPTIONAL else MFP_NO));
      assert element + [] == element;
      if n.akm.IsSae() && request.offload.None? {
        request := request.(authenticated := true);
        element := element + RSNXE_SAE_H2E;
      }
      request := request.(ies := element);
    }

    method SendAssociation(before: seq<Action>) returns (out: seq<Action>)
      modifies this
      ensures Turn(Now(), out) == F.SendAssociation(Turn(old(Now()), before))
    {
      hide F.Enter, RequestFor;
      out := before;
      if target.None? || session.None? {
        out := out + [Crashed];
        return;
      }
      var request := BuildRequest(session.value, target.value.ssid);
      if session.value.auth.Offloaded? {
        session := Some(session.value.(auth := OpenAuth));
      }
      if session.value.choice.rsn.Some? {
        session := Some(session.value.(assocIe := request.ies));
      }
      out := Enter(Associating, out);
      out := out + [Associate(request)];
      out := Arm(AssocTimeout, ASSOC_TIMEOUT_MS, out);
    }

    method OnAssociated(drawn: Drawn, before: seq<Action>) returns (out: seq<Action>)
      modifies this
      ensures Turn(Now(), out) == F.OnAssociated(env, drawn, Turn(old(Now()), before))
    {
      hide F.Enter, F.Fail, F.Configured, F.StartHandshake, F.DriveDot1x;
      out := before;
      if session.None? { return; }
      match session.value.auth {
        case OpenAuth => out := Configured(out);
        case Offloaded(_) =>
          session := Some(session.value.(auth := OpenAuth));
          out := Configured(out);
        case Ready(pmk) =>
          session := Some(session.value.(auth := Running));
          out := StartHandshake(pmk, drawn, out);
        case PostAssoc(_, _) =>
          out := Enter(Handshaking, out);
          out := DriveDot1x(None, drawn, out);
        case _ => out := Fail(Internal, out);
      }
    }

    // ---- the 4-way handshake ----------------------------------------------------------------

    method StartHandshake(pmk: seq<byte>, drawn: Drawn, before: seq<Action>) returns (out: seq<Action>)
      modifies this
      ensures Turn(Now(), out) == F.StartHandshake(Turn(old(Now()), before), pmk, drawn)
    {
      hide F.Enter, F.Fail;
      out := before;
      if session.None? || session.value.choice.rsn.None? {
        out := out + [Crashed];
        return;
      }
      if drawn.snonce.None? {
        out := Fail(FailureOfEapol(E.EntropyFailed), out);
        return;
      }
      var s := session.value;
      var config := H.Config(s.choice.rsn.value.akm, device.mac, s.choice.bssid, s.assocIe, s.choice.rsn.value.beaconIe);
      session := Some(s.(handshake := Some(H.Fresh(pmk, config, drawn.snonce.value))));
      out := Enter(Handshaking, out);
    }

    method OnEapol(frame: seq<byte>, drawn: Drawn, before: seq<Action>) returns (out: seq<Action>)
      modifies this
      ensures Turn(Now(), out) == F.OnEapol(env, drawn, Turn(old(Now()), before), frame)
    {
      hide E.ParseEapol, F.DriveHandshake, F.DriveDot1x;
      out := before;
      if state != Handshaking && state != Connected { return; }
      var eapol := E.ParseEapol(frame);
      if eapol.Err? { return; }
      match eapol.value.packetType {
        case KeyType => out := DriveHandshake(H.Frame(frame), out);
        case EapPacketType => out := DriveDot1x(Some(frame), drawn, out);
        case _ =>
      }
    }

    method DriveHandshake(input: H.Input, before: seq<Action>) returns (out: seq<Action>)
      modifies this
      ensures Turn(Now(), out) == F.DriveHandshake(env, Turn(old(Now()), before), input)
    {
      hide H.Poll, F.Fail, F.Configured, F.PerformOne;
      out := before;
      if session.None? || session.value.handshake.None? { return; }
      var o := H.Poll(env.c, session.value.handshake.value, input);
      session := Some(session.value.(handshake := Some(o.next)));
      if o.result.Err? {
        out := Fail(FailureOfEapol(o.result.error), out);
        return;
      }
      var actions := o.result.value;
      ghost var u := Turn(Now(), out);
      var complete := false;
      for i := 0 to |actions|
        invariant Turn(Now(), out) == F.Perform(u, actions[..i])
        invariant complete <==> H.Installs(actions[..i])
      {
        assert actions[..i + 1][..i] == actions[..i] && actions[..i + 1][i] == actions[i];
        out := PerformOne(actions[i], out);
        InstallsMore(actions[..i], actions[i]);
        assert actions[..i] + [actions[i]] == actions[..i + 1];
        if actions[i].Complete? {
          complete := true;
        }
      }
      assert actions[..|actions|] == actions;
      if complete {
        out := Configured(out);
      }
    }

    static lemma InstallsMore(actions: seq<H.Action>, a: H.Action)
      ensures H.Installs(actions + [a]) <==> H.Installs(actions) || a.Complete?
    {
      var more := actions + [a];
      assert more[|actions|] == a;
      if H.Installs(actions) {
        var i :| 0 <= i < |actions| && actions[i].Complete?;
        assert more[i].Complete?;
      }
    }

    method PerformOne(a: H.Action, before: seq<Action>) returns (out: seq<Action>)
      modifies this`armed
      ensures Turn(Now(), out) == F.PerformOne(Turn(old(Now()), before), a)
    {
      out := before;
      match a {
        case Send(frame) => out := out + [SendEapol(frame)];
        case ArmTimer(millis) => out := Arm(HandshakeRetry, millis, out);
        case DisarmTimer => out := Disarm(out);
        case Complete(ptk, gtk) =>
          if session.None? || session.value.choice.rsn.None? {
            out := out + [Crashed];
          } else {
            var choice := session.value.choice;
            out := out + [InstallKeys(Some(PairwiseKey(choice.bssid, Suite(choice.rsn.value.pairwise), ptk)),
                                      GroupKey(Suite(choice.rsn.value.group), gtk))];
          }
        case NewGtk(gtk) =>
          var suite := if session.None? || session.value.choice.rsn.None? then Ieee(4) else Suite(session.value.choice.rsn.value.group);
          out := out + [InstallKeys(None, GroupKey(suite, gtk))];
      }
    }

    // ---- post-association authentication -----------------------------------------------------

    method DriveDot1x(frame: Option<seq<byte>>, drawn: Drawn, before: seq<Action>) returns (out: seq<Action>)
      modifies this
      ensures Turn(Now(), out) == F.DriveDot1x(env, drawn, Turn(old(Now()), before), frame)
    {
      hide D.OnFrame, F.Fail, F.StartHandshake;
      out := before;
      if target.None? || session.None? || !session.value.auth.PostAssoc? || frame.None? { return; }
      var account := session.value.auth.account;
      var o := D.OnFrame(env.methods(account), session.value.auth.eap, frame.value);
      session := Some(session.value.(auth := PostAssoc(account, o.next)));
      if o.result.Err? {
        out := Fail(FailureOfCrypto(CryptoOfEapol(o.result.error)), out);
        return;
      }
      match o.result.value {
        case Send(reply) => out := out + [SendEapol(reply)];
        case Wait =>
        case Done(pmk) =>
          session := Some(session.value.(auth := Running));
          out := StartHandshake(pmk, drawn, out);
      }
    }

    // ---- address configuration --------------------------------------------------------------------

    method Configured(before: seq<Action>) returns (out: seq<Action>)
      modifies this`state, this`armed, this`attempts
      ensures Turn(Now(), out) == F.Configured(Turn(old(Now()), before))
    {
      hide F.Enter;
      if session.Some? && session.value.choice.roaming {
        out := Enter(Connected, before);
        attempts := 0;
        return;
      }
      out := Enter(Configuring, before);
      out := out + [StartDhcp];
    }

    method OnLease(event: LeaseEvent, before: seq<Action>) returns (out: seq<Action>)
      modifies this
      ensures Turn(Now(), out) == F.OnLease(Turn(old(Now()), before), event)
    {
      hide F.Enter, F.Fail, F.SaveJoined;
      out := before;
      match event {
        case Acquired(lease) =>
          out := out + [ApplyLease(lease)];
          out := Enter(Connected, out);
          attempts := 0;
          out := SaveJoined(out);
        case Lost(_) =>
          if state == Connected {
            out := Enter(Configuring, out);
            out := out + [StartDhcp];
          }
        case NoLease => out := Fail(DhcpFailed, out);
      }
    }

    method SaveJoined(before: seq<Action>) returns (out: seq<Action>)
      modifies this`target, this`profiles
      ensures Turn(Now(), out) == F.SaveJoined(Turn(old(Now()), before))
    {
      hide Others, NewProfile;
      out := before;
      if target.None? || !target.value.save || session.None? { return; }
      var credential := NoCredential;
      if session.value.choice.rsn.Some? {
        if target.value.secret.None? { return; }
        credential := Passphrase(target.value.secret.value);
      }
      target := Some(target.value.(save := false));
      var profile := NewProfile(target.value.ssid, session.value.choice.advertised, credential);
      profile := profile.(autoconnect := true);
      InsertProfile(profile);
      out := out + [SaveProfile(profile)];
    }

    // ---- roaming, events and timers ------------------------------------------------------------------

    method ConsiderRoam(scan: seq<Bss>, drawn: Drawn, before: seq<Action>) returns (out: seq<Action>)
      requires env.Valid()
      modifies this
      ensures Turn(Now(), out) == F.ConsiderRoam(env, drawn, Turn(old(Now()), before), scan)
    {
      hide F.Plan, RoamTarget, FindBss;
      out := before;
      if session.None? || target.None? { return; }
      var choice := session.value.choice;
      var heard := FindBss(scan, choice.bssid);
      var signal := if heard.Some? then heard.value.signal else choice.signal;
      var better := RoamTarget(scan, target.value.ssid, choice.bssid, signal);
      if better.None? {
        session := Some(session.value.(choice := choice.(signal := signal)));
        return;
      }
      var bss := FindBss(scan, better.value.bssid);
      if bss.None? {
        out := out + [Crashed];
      } else {
        out := Plan(bss.value, true, drawn, out);
      }
    }

    method OnWireless(event: Event, drawn: Drawn, before: seq<Action>) returns (out: seq<Action>)
      requires env.Valid()
      modifies this
      ensures Turn(Now(), out) == F.OnWireless(env, drawn, Turn(old(Now()), before), event)
    {
      hide F.Fail, F.OnAssociated, F.DriveSae;
      out := before;
      match event {
        case ScanComplete =>
          if state == Scanning || state == Connected {
            out := out + [FetchScanResults(device.ifindex)];
          }
        case ScanAborted => if state == Scanning { out := Fail(NotFound, out); }
        case Answered(status) =>
          if state == Associating {
            match status {
              case Joined => out := OnAssociated(drawn, out);
              case RefusedWith(code) => out := Fail(Refused(code), out);
              case TimedOut => out := Fail(AssocTimedOut, out);
            }
          }
        case Dropped(reason, byAp) =>
          if Associated(state) { out := Fail(Failure.Disconnected(reason, byAp), out); }
        case ExternalAuth(abort) =>
          if abort && state == Authenticating { out := Fail(AuthRejected, out); }
        case AuthFrame(frame) =>
          if state == Authenticating && session.Some? && |frame| >= MGMT_HEADER_LEN && frame[0] == FC_AUTH
             && frame[10..16] == session.value.choice.bssid
          {
            out := DriveSae(Some(frame[MGMT_HEADER_LEN..]), false, out);
          }
        case _ =>
      }
    }

    method OnTimer(id: TimerId, before: seq<Action>) returns (out: seq<Action>)
      requires env.Valid()
      modifies this
      ensures Turn(Now(), out) == F.OnTimer(env, Turn(old(Now()), before), id)
    {
      hide F.Fail, F.DriveSae, F.DriveHandshake, F.StartScan;
      out := before;
      match (id, state) {
        case (ScanTimeout, Scanning) => if pending.None? { out := Fail(NotFound, out); }
        case (AssocTimeout, Associating) => out := Fail(AssocTimedOut, out);
        case (AuthTimeout, Authenticating) => out := DriveSae(None, false, out);
        case (HandshakeRetry, Handshaking) => out := DriveHandshake(H.Expiry, out);
        case (HandshakeRetry, Connected) => out := DriveHandshake(H.Expiry, out);
        case (ReconnectBackoff, Reconnecting) => out := StartScan(out);
        case _ =>
      }
    }
  }
}
