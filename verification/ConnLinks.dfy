// No association is left behind, and a failure reported is the end of it.

module ConnLinks {
  import opened Bytes
  import opened Suites
  import opened Policy
  import opened Connection
  import opened ConnParts
  import opened ConnInvariant
  import opened ConnSteps
  import opened ConnRuns
  import D = Dot1x
  import E = Eapol
  import H = FourWayHandshake
  import S = SaeExchange

  // Whether the kernel has been asked for an association and not to drop it.
  // Authenticating with another AP drops it as well.
  function Linked(before: bool, out: seq<Action>): bool {
    if out == [] then before
    else
      match out[|out| - 1]
      case Associate(_) => true
      case Disconnect(_) => false
      case Authenticate(_) => false
      case _ => Linked(before, out[..|out| - 1])
  }

  predicate Ended(c: Conn) {
    c.state == Idle && c.target.None? && c.session.None? && c.armed.None?
  }

  // Only a state of an association can have one, and what is reported as failed
  // is not being tried again.
  predicate Tidy(before: bool, t: Turn) {
    && (Linked(before, t.out) ==> Associated(t.c.state))
    && (forall i :: 0 <= i < |t.out| && t.out[i].Failed? ==> Ended(t.c))
  }

  predicate NoFailure(out: seq<Action>) {
    forall i :: 0 <= i < |out| ==> !out[i].Failed?
  }

  lemma PushLinked(before: bool, t: Turn, a: Action)
    ensures Linked(before, Push(t, a).out) ==
              (match a case Associate(_) => true case Disconnect(_) => false case Authenticate(_) => false case _ => Linked(before, t.out))
  {
    assert Push(t, a).out[..|t.out|] == t.out;
  }

  lemma TransitionsTidy(before: bool, t: Turn, state: State, id: TimerId, millis: nat)
    ensures Linked(before, Enter(t, state).out) == Linked(before, t.out)
    ensures Linked(before, Arm(t, id, millis).out) == Linked(before, t.out)
    ensures Linked(before, Disarm(t).out) == Linked(before, t.out)
    ensures NoFailure(t.out) ==> NoFailure(Enter(t, state).out) && NoFailure(Arm(t, id, millis).out) && NoFailure(Disarm(t).out)
    ensures Enter(t, state).c == t.c.(state := state, armed := Enter(t, state).c.armed)
    ensures Disarm(t).c == t.c.(armed := None)
  {
    hide TimerOf, Linked;
    var v := if t.c.armed.Some? && t.c.armed != TimerOf(state) then Disarm(t) else t;
    if t.c.armed.Some? { PushLinked(before, t.(c := t.c.(armed := None)), ClearTimer(t.c.armed.value)); }
    PushLinked(before, v.(c := v.c.(state := state)), Notify(state));
    PushLinked(before, t.(c := t.c.(armed := Some(id))), SetTimer(id, millis));
  }

  // Ending an attempt drops the association there is, unless it is the kernel
  // that already did.
  lemma FailTidy(before: bool, t: Turn, f: Failure)
    requires NoFailure(t.out) && (Linked(before, t.out) ==> Associated(t.c.state) && !f.Disconnected?)
    ensures Tidy(before, Fail(t, f))
    ensures Fail(t, f).c.state == Reconnecting ==> !Terminal(f) && t.c.target.Some? && t.c.target.value.retry
  {
    hide Linked, Enter, Arm, Disarm, BackoffMs, Terminal;
    PushLinked(before, t, Disconnect(REASON_LEAVING));
    var u := if Associated(t.c.state) && !f.Disconnected? then Push(t, Disconnect(REASON_LEAVING)) else t;
    var v := u.(c := u.c.(session := None, pending := None));
    var attempts: u32 := (v.c.attempts + 1) % 0x1_0000_0000;
    var again := v.(c := v.c.(attempts := attempts));
    TransitionsTidy(before, again, Reconnecting, ReconnectBackoff, 0);
    TransitionsTidy(before, Enter(again, Reconnecting), Reconnecting, ReconnectBackoff, BackoffMs(attempts));
    ArmKeepsState(Enter(again, Reconnecting), ReconnectBackoff, BackoffMs(attempts));
    TransitionsTidy(before, v, Idle, ReconnectBackoff, 0);
    var w := Disarm(v);
    PushLinked(before, w.(c := w.c.(state := Idle, target := None, attempts := 0)), Failed(f));
  }

  lemma ArmKeepsState(t: Turn, id: TimerId, millis: nat)
    ensures Arm(t, id, millis).c == t.c.(armed := Some(id))
  {
  }

  lemma StartScanTidy(before: bool, t: Turn)
    requires NoFailure(t.out) && !Linked(before, t.out)
    ensures Tidy(before, StartScan(t))
  {
    hide Linked, Enter, Arm;
    TransitionsTidy(before, t, Scanning, ScanTimeout, 0);
    var u := Enter(t, Scanning);
    var v := Push(u, TriggerScan(u.c.device.ifindex));
    PushLinked(before, u, TriggerScan(u.c.device.ifindex));
    TransitionsTidy(before, v, Scanning, ScanTimeout, SCAN_TIMEOUT_MS);
  }

  lemma AssociationTidy(before: bool, t: Turn)
    requires NoFailure(t.out) && t.c.target.Some? && t.c.session.Some?
    ensures Tidy(before, SendAssociation(t))
  {
    hide Linked, Enter, Arm, RequestFor;
    var s := t.c.session.value;
    var request := RequestFor(t.c.device, Ssid(t.c), s);
    var sent := s.(auth := if s.auth.Offloaded? then OpenAuth else s.auth,
                   assocIe := if s.choice.rsn.Some? then request.ies else s.assocIe);
    var u := t.(c := t.c.(session := Some(sent)));
    TransitionsTidy(before, u, Associating, AssocTimeout, 0);
    var v := Push(Enter(u, Associating), Associate(request));
    TransitionsTidy(before, v, Associating, AssocTimeout, ASSOC_TIMEOUT_MS);
    ArmKeepsState(v, AssocTimeout, ASSOC_TIMEOUT_MS);
  }

  // From here the exchange either goes on, having dropped any association, or
  // is not in its state any more.
  lemma SaeStepTidy(before: bool, t: Turn, r: S.Stepped)
    requires NoFailure(t.out) && t.c.state == Authenticating && t.c.target.Some? && t.c.session.Some?
    requires !Linked(before, t.out) || (r.Ok? && r.value.Send? && |r.value.frame| >= 2)
    ensures Tidy(before, OnSaeStep(t, r))
  {
    hide Linked, Fail, SendAssociation, Arm;
    if r.Err? {
      FailTidy(before, t, FailureOfCrypto(r.error));
    } else {
      match r.value {
        case Send(frame) =>
          if |frame| >= 2 {
            var choice := t.c.session.value.choice;
            var request := AuthRequest(t.c.device.ifindex, Ssid(t.c), choice.bssid, choice.freqMhz, AUTHTYPE_SAE, frame[2..]);
            PushLinked(before, t, Authenticate(request));
            TransitionsTidy(before, Push(t, Authenticate(request)), Authenticating, AuthTimeout, AUTH_TIMEOUT_MS);
          } else {
            FailTidy(before, t, Internal);
          }
        case Wait =>
        case Done(pmk) =>
          var s := t.c.session.value;
          var pmkid := if s.auth.PreAssoc? then s.auth.sae.pmkid else s.pmkid;
          AssociationTidy(before, t.(c := t.c.(session := Some(s.(pmkid := pmkid, auth := Ready(pmk))))));
      }
    }
  }

  lemma SaeTidy(env: Surroundings, before: bool, t: Turn, frame: Option<seq<byte>>)
    requires env.Valid() && NoFailure(t.out) && t.c.state == Authenticating && !Linked(before, t.out)
    ensures Tidy(before, DriveSae(env, t, frame, false))
  {
    hide Linked, S.OnFrame, S.OnTimeout, OnSaeStep;
    if t.c.target.Some? && t.c.session.Some? && t.c.session.value.auth.PreAssoc? {
      var s := t.c.session.value;
      var o := if frame.Some? then S.OnFrame(env.g, s.auth.sae, frame.value) else S.OnTimeout(s.auth.sae);
      SaeStepTidy(before, t.(c := t.c.(session := Some(s.(auth := PreAssoc(o.next))))), o.result);
    }
  }

  lemma StartSaeTidy(env: Surroundings, before: bool, t: Turn)
    requires env.Valid() && NoFailure(t.out) && t.c.target.Some? && t.c.session.Some?
    requires PreStaged(t.c.session.value) && t.c.session.value.auth.sae.stage.Idle?
    ensures Tidy(before, StartSae(env, t))
  {
    hide Linked, S.Start, OnSaeStep, Enter, OriginOk, InProgress;
    TransitionsTidy(before, t, Authenticating, AuthTimeout, 0);
    var u, s := Enter(t, Authenticating), t.c.session.value;
    var o := S.Start(env.g, s.auth.sae, SaeContext(u.c, s.choice));
    SaeStarts(env.g, s.auth.sae, SaeContext(u.c, s.choice));
    SaeStepTidy(before, u.(c := u.c.(session := Some(s.(auth := PreAssoc(o.next))))), o.result);
  }

  lemma PlanTidy(env: Surroundings, drawn: Drawn, before: bool, t: Turn, bss: Bss, roaming: bool)
    requires env.Valid() && NoFailure(t.out) && Tidy(before, t) && t.c.target.Some?
    ensures Tidy(before, Plan(env, drawn, t, bss, roaming))
  {
    hide Linked, StartSae, SendAssociation, Decide, Fail, Disarm, PreStaged, Staged;
    DecisionIsOk(env, drawn, t.c, bss, roaming);
    match Decide(env, drawn, t.c, bss, roaming) {
      case Unsuitable(f) =>
        DecisionFailure(env, drawn, t.c, bss, roaming);
        FailTidy(before, t, f);
      case Abandon(f) => FailTidy(before, t, f);
      case Ask =>
        TransitionsTidy(before, t, Idle, ScanTimeout, 0);
        PushLinked(before, Disarm(t), RequestSecret(Ssid(t.c)));
      case Stay =>
      case Go(s) =>
        var u := t.(c := t.c.(session := Some(s)));
        if s.auth.PreAssoc? { StartSaeTidy(env, before, u); } else { AssociationTidy(before, u); }
    }
  }

  lemma DecisionFailure(env: Surroundings, drawn: Drawn, c: Conn, bss: Bss, roaming: bool)
    ensures var d := Decide(env, drawn, c, bss, roaming); d.Unsuitable? ==> !d.failure.Disconnected?
  {
    hide Negotiate, TargetProfile, Assemble, CredentialFor;
  }

  lemma StartHandshakeTidy(before: bool, t: Turn, pmk: seq<byte>, drawn: Drawn)
    requires NoFailure(t.out) && Tidy(before, t)
    ensures Tidy(before, StartHandshake(t, pmk, drawn))
  {
    hide Linked, Fail, Enter;
    FailTidy(before, t, FailureOfEapol(E.EntropyFailed));
    if t.c.session.None? || t.c.session.value.choice.rsn.None? {
      PushLinked(before, t, Crashed);
    } else if drawn.snonce.Some? {
      var s := t.c.session.value;
      var n := s.choice.rsn.value;
      var config := H.Config(n.akm, t.c.device.mac, s.choice.bssid, s.assocIe, n.beaconIe);
      TransitionsTidy(before, t.(c := t.c.(session := Some(s.(handshake := Some(H.Fresh(pmk, config, drawn.snonce.value)))))),
                      Handshaking, HandshakeRetry, 0);
    }
  }

  lemma Dot1xTidy(env: Surroundings, before: bool, t: Turn, drawn: Drawn, frame: Option<seq<byte>>)
    requires NoFailure(t.out) && Tidy(before, t)
    ensures Tidy(before, DriveDot1x(env, drawn, t, frame))
  {
    hide Linked, D.OnFrame, Fail, StartHandshake;
    if t.c.target.Some? && t.c.session.Some? && t.c.session.value.auth.PostAssoc? && frame.Some? {
      var s := t.c.session.value;
      var o := D.OnFrame(env.methods(s.auth.account), s.auth.eap, frame.value);
      var u := t.(c := t.c.(session := Some(s.(auth := PostAssoc(s.auth.account, o.next)))));
      if o.result.Err? {
        FailTidy(before, u, FailureOfCrypto(CryptoOfEapol(o.result.error)));
      } else {
        match o.result.value {
          case Send(reply) => PushLinked(before, u, SendEapol(reply));
          case Wait =>
          case Done(pmk) => StartHandshakeTidy(before, u.(c := u.c.(session := Some(s.(auth := Running)))), pmk, drawn);
        }
      }
    }
  }

  lemma ConfiguredTidy(before: bool, t: Turn)
    requires NoFailure(t.out)
    ensures Tidy(before, Configured(t))
  {
    hide Linked, Enter;
    TransitionsTidy(before, t, Connected, HandshakeRetry, 0);
    TransitionsTidy(before, t, Configuring, HandshakeRetry, 0);
  }

  lemma {:induction false} PerformTidy(before: bool, t: Turn, actions: seq<H.Action>)
    requires NoFailure(t.out)
    ensures NoFailure(Perform(t, actions).out) && Linked(before, Perform(t, actions).out) == Linked(before, t.out)
    ensures Perform(t, actions).c == t.c.(armed := Perform(t, actions).c.armed)
  {
    hide Linked, Suite, GroupSuite;
    if actions != [] {
      PerformTidy(before, t, actions[..|actions| - 1]);
      var u := Perform(t, actions[..|actions| - 1]);
      var v := PerformOne(u, actions[|actions| - 1]);
      assert v == u || v == Push(u.(c := v.c), v.out[|u.out|]);
      if v != u { PushLinked(before, u.(c := v.c), v.out[|u.out|]); }
    }
  }

  lemma HandshakeTidy(env: Surroundings, before: bool, t: Turn, input: H.Input)
    requires NoFailure(t.out) && Tidy(before, t)
    ensures Tidy(before, DriveHandshake(env, t, input))
  {
    hide Linked, H.Poll, H.Installs, Fail, Perform, Configured;
    if t.c.session.Some? && t.c.session.value.handshake.Some? {
      var s := t.c.session.value;
      var o := H.Poll(env.c, s.handshake.value, input);
      var u := t.(c := t.c.(session := Some(s.(handshake := Some(o.next)))));
      if o.result.Ok? {
        PerformTidy(before, u, o.result.value);
        ConfiguredTidy(before, Perform(u, o.result.value));
      } else {
        FailTidy(before, u, FailureOfEapol(o.result.error));
      }
    }
  }

  lemma AssociatedTidy(env: Surroundings, before: bool, t: Turn, drawn: Drawn)
    requires NoFailure(t.out) && Tidy(before, t)
    ensures Tidy(before, OnAssociated(env, drawn, t))
  {
    hide Linked, DriveDot1x, Configured, StartHandshake, Fail, Enter;
    if t.c.session.Some? {
      var s := t.c.session.value;
      FailTidy(before, t, Internal);
      match s.auth {
        case OpenAuth => ConfiguredTidy(before, t);
        case Offloaded(_) => ConfiguredTidy(before, t.(c := t.c.(session := Some(s.(auth := OpenAuth)))));
        case Ready(pmk) => StartHandshakeTidy(before, t.(c := t.c.(session := Some(s.(auth := Running)))), pmk, drawn);
        case _ =>
          TransitionsTidy(before, t, Handshaking, HandshakeRetry, 0);
          Dot1xTidy(env, before, Enter(t, Handshaking), drawn, None);
      }
    }
  }

  lemma ScanTidy(env: Surroundings, drawn: Drawn, before: bool, t: Turn, scan: seq<Bss>)
    requires env.Valid() && NoFailure(t.out) && Tidy(before, t)
    ensures Tidy(before, OnScanResults(env, drawn, t, scan))
  {
    hide Linked, Plan, Fail, BestBss, BestKnown, RoamTarget, FindBss;
    forall v: Turn, bss: Bss, roaming: bool | NoFailure(v.out) && Tidy(before, v) && v.c.target.Some?
      ensures Tidy(before, Plan(env, drawn, v, bss, roaming))
    {
      PlanTidy(env, drawn, before, v, bss, roaming);
    }
    forall v: Turn ensures Linked(before, Push(v, Crashed).out) == Linked(before, v.out) {
      PushLinked(before, v, Crashed);
    }
    FailTidy(before, t, NotFound);
    FailTidy(before, t, NoKnownNetwork);
  }

  lemma CommandTidy(env: Surroundings, drawn: Drawn, before: bool, t: Turn, command: Command)
    requires env.Valid() && t.out == [] && Tidy(before, t)
    ensures Tidy(before, OnCommand(env, drawn, t, command))
  {
    hide Linked, Plan, StartScan, Disarm, ProfileFor;
    PushLinked(before, t, Disconnect(REASON_LEAVING));
    match command {
      case Connect(ssid) =>
        var u := if t.c.state != Idle then Push(t, Disconnect(REASON_LEAVING)) else t;
        var profile := ProfileFor(u.c.profiles, ssid);
        var target := Target(ssid, None, profile.Some? && profile.value.autoconnect, profile.None?);
        StartScanTidy(before, u.(c := u.c.(target := Some(target), session := None, pending := None, attempts := 0)));
      case Autoconnect =>
        if t.c.state == Idle {
          StartScanTidy(before, t.(c := t.c.(target := None, session := None, pending := None, attempts := 0)));
        }
      case Secret(value) =>
        if t.c.target.Some? && t.c.pending.Some? {
          var d := t.c.(target := Some(t.c.target.value.(secret := Some(value))), pending := None);
          PlanTidy(env, drawn, before, t.(c := d), t.c.pending.value, false);
        }
      case Disconnecting =>
        var u := Push(t, Disconnect(REASON_LEAVING));
        TransitionsTidy(before, u, Idle, ScanTimeout, 0);
        PushLinked(before, Disarm(u), Notify(Idle));
    }
  }

  lemma WirelessTidy(env: Surroundings, drawn: Drawn, before: bool, t: Turn, event: Event)
    requires env.Valid() && NoFailure(t.out) && Tidy(before, t) && (event.Dropped? ==> !Linked(before, t.out))
    ensures Tidy(before, OnWireless(env, drawn, t, event))
  {
    hide Linked, DriveSae, OnAssociated, AuthBody, Fail;
    AssociatedTidy(env, before, t, drawn);
    FailTidy(before, t, NotFound);
    FailTidy(before, t, AssocTimedOut);
    FailTidy(before, t, AuthRejected);
    PushLinked(before, t, FetchScanResults(t.c.device.ifindex));
    match event {
      case Answered(RefusedWith(code)) => FailTidy(before, t, Refused(code));
      case Dropped(reason, byAp) => FailTidy(before, t, Failure.Disconnected(reason, byAp));
      case AuthFrame(frame) => if t.c.state == Authenticating { SaeTidy(env, before, t, AuthBody(t.c, frame)); }
      case _ =>
    }
  }

  lemma TimerTidy(env: Surroundings, before: bool, t: Turn, id: TimerId)
    requires env.Valid() && NoFailure(t.out) && Tidy(before, t)
    ensures Tidy(before, OnTimer(env, t, id))
  {
    hide Linked, DriveSae, DriveHandshake, Fail, StartScan;
    if t.c.state == Authenticating { SaeTidy(env, before, t, None); }
    HandshakeTidy(env, before, t, H.Expiry);
    FailTidy(before, t, NotFound);
    FailTidy(before, t, AssocTimedOut);
    if t.c.state == Reconnecting { StartScanTidy(before, t); }
  }

  lemma LeaseTidy(before: bool, t: Turn, event: LeaseEvent)
    requires t.out == [] && Tidy(before, t)
    ensures Tidy(before, OnLease(t, event))
  {
    hide Linked, Enter, Fail, Others, NewProfile;
    FailTidy(before, t, DhcpFailed);
    TransitionsTidy(before, t, Configuring, HandshakeRetry, 0);
    PushLinked(before, Enter(t, Configuring), StartDhcp);
    if event.Acquired? { TransitionsTidy(before, Push(t, ApplyLease(event.lease)), Connected, HandshakeRetry, 0); }
  }

  lemma PollTidy(env: Surroundings, drawn: Drawn, before: bool, c: Conn, input: Input)
    requires env.Valid() && (before ==> Associated(c.state))
    requires input.Wireless? && input.event.Dropped? ==> !before
    ensures Tidy(before, Poll(env, drawn, c, input))
  {
    hide OnCommand, OnWireless, OnScanResults, OnTimer, OnLease, DriveHandshake, DriveDot1x;
    var t := Turn(c, []);
    match input {
      case Commanded(command) => CommandTidy(env, drawn, before, t, command);
      case Wireless(event) => WirelessTidy(env, drawn, before, t, event);
      case ScanResults(scan) => ScanTidy(env, drawn, before, t, scan);
      case EapolFrame(bytes) =>
        HandshakeTidy(env, before, t, H.Frame(bytes));
        Dot1xTidy(env, before, t, drawn, Some(bytes));
      case Timer(id) => TimerTidy(env, before, t, id);
      case Leased(event) => LeaseTidy(before, t, event);
    }
  }

  // ---- whole runs ----------------------------------------------------------------------

  // A disconnection reported is taken for one the kernel has made of this very
  // link: any `Dropped` clears the record, an echo of an earlier link that is
  // heard while Associating included.
  function LinkBefore(linked: bool, h: Happening): bool {
    linked && !(h.Polled? && h.input.Wireless? && h.input.event.Dropped?)
  }

  // Whether a link is up after `k` happenings.
  function LinkedAt(r: Run, k: nat): bool
    requires k <= |r.happenings| == |r.outputs|
  {
    if k == 0 then false else Linked(LinkBefore(LinkedAt(r, k - 1), r.happenings[k - 1]), r.outputs[k - 1])
  }

  lemma HappeningTidy(env: Surroundings, linked: bool, c: Conn, h: Happening)
    requires env.Valid() && (linked ==> Associated(c.state))
    ensures Tidy(LinkBefore(linked, h), Handle(env, c, h))
  {
    hide Poll, Linked, Others;
    match h {
      case Polled(input, drawn) => PollTidy(env, drawn, LinkBefore(linked, h), c, input);
      case Fires(id, drawn) => PollTidy(env, drawn, LinkBefore(linked, h), c, Timer(id));
      case _ => NothingLinks(LinkBefore(linked, h));
    }
  }

  lemma NothingLinks(before: bool)
    ensures Linked(before, []) == before
  {
  }

  // In every run an association the kernel was asked for and still holds is one
  // the connection is in a state to use: an attempt never ends with it left up.
  lemma {:induction false} NoLinkLeftBehind(env: Surroundings, device: Device, profiles: seq<Profile>, r: Run, k: nat)
    requires IsRun(env, device, profiles, r) && k < |r.states|
    ensures LinkedAt(r, k) ==> Associated(r.states[k].state)
  {
    hide Handle, Linked, Associated;
    if k > 0 {
      NoLinkLeftBehind(env, device, profiles, r, k - 1);
      assert StepOf(env, r, k - 1);
      HappeningTidy(env, LinkedAt(r, k - 1), r.states[k - 1], r.happenings[k - 1]);
    }
  }

  // And what is reported as failed is over: nothing stands, runs or is aimed at.
  lemma FailedIsOver(env: Surroundings, device: Device, profiles: seq<Profile>, r: Run, k: nat, i: nat)
    requires IsRun(env, device, profiles, r) && k < |r.outputs| && i < |r.outputs[k]| && r.outputs[k][i].Failed?
    ensures Ended(r.states[k + 1])
  {
    hide Handle, Linked, Associated, LinkedAt, Ended;
    NoLinkLeftBehind(env, device, profiles, r, k);
    assert StepOf(env, r, k);
    HappeningTidy(env, LinkedAt(r, k), r.states[k], r.happenings[k]);
  }
}
