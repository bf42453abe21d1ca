// Where the session a connection holds came from: the input that offered its
// BSS, and the floor its target's profile had then.

module ConnOrigins {
  import opened Bytes
  import opened Suites
  import opened Policy
  import opened Connection
  import opened ConnRuns
  import D = Dot1x
  import E = Eapol
  import H = FourWayHandshake
  import S = SaeExchange

  predicate SameOrigin(before: Conn, after: Conn) {
    after.session.Some? ==> before.session.Some? && after.session.value.origin == before.session.value.origin
  }

  // The BSS was in the scan just handed over, or parked for the secret just given.
  predicate Offered(before: Conn, input: Input, bss: Bss) {
    || (input.ScanResults? && bss in input.scan)
    || (input.Commanded? && input.command.Secret? && before.pending == Some(bss))
  }

  function FloorNow(c: Conn): Option<Security> {
    if TargetProfile(c).Some? then Some(TargetProfile(c).value.minSecurity) else None
  }

  predicate PlannedBy(before: Conn, input: Input, after: Conn) {
    && after.session.Some?
    && Offered(before, input, after.session.value.origin.bss)
    && after.session.value.origin.floor == FloorNow(after)
  }

  lemma FailHasNoSession(t: Turn, f: Failure)
    ensures Fail(t, f).c.session.None?
  {
    hide TimerOf, BackoffMs, Terminal;
  }

  // Transitions leave the session, its target and the profiles alone.
  lemma TransitionsAside(t: Turn, state: State, id: TimerId, millis: nat)
    ensures Enter(t, state).c == t.c.(state := state, armed := Enter(t, state).c.armed)
    ensures Arm(t, id, millis).c == t.c.(armed := Some(id))
    ensures Disarm(t).c == t.c.(armed := None)
  {
    hide TimerOf;
  }

  lemma AssociationSameOrigin(t: Turn)
    ensures SameOrigin(t.c, SendAssociation(t).c)
    ensures var u := SendAssociation(t).c; u.target == t.c.target && u.profiles == t.c.profiles
  {
    hide RequestFor, Enter, Arm;
    if t.c.session.Some? {
      var s := t.c.session.value;
      var request := RequestFor(t.c.device, Ssid(t.c), s);
      var sent := s.(auth := if s.auth.Offloaded? then OpenAuth else s.auth,
                     assocIe := if s.choice.rsn.Some? then request.ies else s.assocIe);
      var u := t.(c := t.c.(session := Some(sent)));
      TransitionsAside(u, Associating, AssocTimeout, ASSOC_TIMEOUT_MS);
      TransitionsAside(Push(Enter(u, Associating), Associate(request)), Associating, AssocTimeout, ASSOC_TIMEOUT_MS);
    }
  }

  lemma SaeStepSameOrigin(t: Turn, r: S.Stepped)
    ensures SameOrigin(t.c, OnSaeStep(t, r).c)
    ensures var u := OnSaeStep(t, r).c; u.session.Some? ==> u.target == t.c.target && u.profiles == t.c.profiles
  {
    hide Fail, SendAssociation;
    if r.Err? {
      FailHasNoSession(t, FailureOfCrypto(r.error));
    } else {
      FailHasNoSession(t, Internal);
      if r.value.Done? && t.c.session.Some? {
        var s := t.c.session.value;
        var pmkid := if s.auth.PreAssoc? then s.auth.sae.pmkid else s.pmkid;
        AssociationSameOrigin(t.(c := t.c.(session := Some(s.(pmkid := pmkid, auth := Ready(r.value.pmk))))));
      }
    }
  }

  lemma SaeSameOrigin(env: Surroundings, t: Turn, frame: Option<seq<byte>>, start: bool)
    requires env.Valid()
    ensures SameOrigin(t.c, DriveSae(env, t, frame, start).c)
    ensures var u := DriveSae(env, t, frame, start).c; u.session.Some? ==> u.target == t.c.target && u.profiles == t.c.profiles
  {
    hide S.Start, S.OnFrame, S.OnTimeout, OnSaeStep;
    if t.c.target.Some? && t.c.session.Some? && t.c.session.value.auth.PreAssoc? {
      var s := t.c.session.value;
      var o := if start then S.Start(env.g, s.auth.sae, SaeContext(t.c, s.choice))
               else if frame.Some? then S.OnFrame(env.g, s.auth.sae, frame.value)
               else S.OnTimeout(s.auth.sae);
      SaeStepSameOrigin(t.(c := t.c.(session := Some(s.(auth := PreAssoc(o.next))))), o.result);
    }
  }

  lemma HandshakeSameOrigin(env: Surroundings, t: Turn, input: H.Input)
    ensures SameOrigin(t.c, DriveHandshake(env, t, input).c)
  {
    hide H.Poll, H.Installs, Fail, Perform, Configured;
    if t.c.session.Some? && t.c.session.value.handshake.Some? {
      var s := t.c.session.value;
      var o := H.Poll(env.c, s.handshake.value, input);
      var u := t.(c := t.c.(session := Some(s.(handshake := Some(o.next)))));
      if o.result.Ok? {
        PerformSameSession(u, o.result.value);
        ConfiguredSameOrigin(Perform(u, o.result.value));
      } else {
        FailHasNoSession(u, FailureOfEapol(o.result.error));
      }
    }
  }

  lemma {:induction false} PerformSameSession(t: Turn, actions: seq<H.Action>)
    ensures Perform(t, actions).c.session == t.c.session
  {
    hide Suite, GroupSuite;
    if actions != [] { PerformSameSession(t, actions[..|actions| - 1]); }
  }

  lemma StartHandshakeSameOrigin(t: Turn, pmk: seq<byte>, drawn: Drawn)
    ensures SameOrigin(t.c, StartHandshake(t, pmk, drawn).c)
  {
    hide Fail, Enter;
    FailHasNoSession(t, FailureOfEapol(E.EntropyFailed));
    if t.c.session.Some? && t.c.session.value.choice.rsn.Some? && drawn.snonce.Some? {
      var s := t.c.session.value;
      var n := s.choice.rsn.value;
      var config := H.Config(n.akm, t.c.device.mac, s.choice.bssid, s.assocIe, n.beaconIe);
      var u := t.(c := t.c.(session := Some(s.(handshake := Some(H.Fresh(pmk, config, drawn.snonce.value))))));
      TransitionsAside(u, Handshaking, HandshakeRetry, 0);
    }
  }

  lemma Dot1xSameOrigin(env: Surroundings, t: Turn, drawn: Drawn, frame: Option<seq<byte>>)
    ensures SameOrigin(t.c, DriveDot1x(env, drawn, t, frame).c)
  {
    hide D.OnFrame, Fail, StartHandshake;
    if t.c.target.Some? && t.c.session.Some? && t.c.session.value.auth.PostAssoc? && frame.Some? {
      var s := t.c.session.value;
      var o := D.OnFrame(env.methods(s.auth.account), s.auth.eap, frame.value);
      var u := t.(c := t.c.(session := Some(s.(auth := PostAssoc(s.auth.account, o.next)))));
      if o.result.Err? {
        FailHasNoSession(u, FailureOfCrypto(CryptoOfEapol(o.result.error)));
      } else if o.result.value.Done? {
        StartHandshakeSameOrigin(u.(c := u.c.(session := Some(s.(auth := Running)))), o.result.value.pmk, drawn);
      }
    }
  }

  lemma ConfiguredSameOrigin(t: Turn)
    ensures Configured(t).c.session == t.c.session
  {
    hide Enter;
    TransitionsAside(t, Connected, HandshakeRetry, 0);
    TransitionsAside(t, Configuring, HandshakeRetry, 0);
  }

  lemma AssociatedSameOrigin(env: Surroundings, t: Turn, drawn: Drawn)
    ensures SameOrigin(t.c, OnAssociated(env, drawn, t).c)
  {
    hide DriveDot1x, Configured, StartHandshake, Fail, Enter;
    if t.c.session.Some? {
      var s := t.c.session.value;
      FailHasNoSession(t, Internal);
      match s.auth {
        case OpenAuth => ConfiguredSameOrigin(t);
        case Offloaded(_) => ConfiguredSameOrigin(t.(c := t.c.(session := Some(s.(auth := OpenAuth)))));
        case Ready(pmk) => StartHandshakeSameOrigin(t.(c := t.c.(session := Some(s.(auth := Running)))), pmk, drawn);
        case _ =>
          TransitionsAside(t, Handshaking, HandshakeRetry, 0);
          Dot1xSameOrigin(env, Enter(t, Handshaking), drawn, None);
      }
    }
  }

  lemma PlanOrigin(env: Surroundings, drawn: Drawn, t: Turn, bss: Bss, roaming: bool)
    requires env.Valid()
    ensures var u := Plan(env, drawn, t, bss, roaming).c;
            SameOrigin(t.c, u) || (u.session.Some? && u.session.value.origin.bss == bss && u.session.value.origin.floor == FloorNow(u))
  {
    hide DriveSae, SendAssociation, Decide, TargetProfile, Fail, Enter, Disarm;
    match Decide(env, drawn, t.c, bss, roaming) {
      case Unsuitable(f) => FailHasNoSession(t, f);
      case Abandon(f) => FailHasNoSession(t, f);
      case Ask => TransitionsAside(t, Idle, ScanTimeout, 0);
      case Stay =>
      case Go(s) =>
        DecidedOrigin(env, drawn, t.c, bss, roaming);
        var u := t.(c := t.c.(session := Some(s)));
        TransitionsAside(u, Authenticating, AuthTimeout, 0);
        SaeSameOrigin(env, Enter(u, Authenticating), None, true);
        AssociationSameOrigin(u);
        SameTargetProfile(t.c, Plan(env, drawn, t, bss, roaming).c);
    }
  }

  lemma DecidedOrigin(env: Surroundings, drawn: Drawn, c: Conn, bss: Bss, roaming: bool)
    ensures var d := Decide(env, drawn, c, bss, roaming);
            d.Go? ==> d.session.origin == Origin(bss, FloorNow(c))
  {
    hide Evaluate, Assemble, TargetProfile, CredentialFor;
  }

  lemma SameTargetProfile(a: Conn, b: Conn)
    ensures a.target == b.target && a.profiles == b.profiles ==> TargetProfile(a) == TargetProfile(b)
  {
  }

  lemma ScanOrigin(env: Surroundings, drawn: Drawn, t: Turn, scan: seq<Bss>)
    requires env.Valid()
    ensures var u := OnScanResults(env, drawn, t, scan).c;
            SameOrigin(t.c, u) || (u.session.Some? && u.session.value.origin.bss in scan && u.session.value.origin.floor == FloorNow(u))
  {
    hide Plan, BestBss, BestKnown, RoamTarget, FindBss, FloorNow, TimerOf, BackoffMs;
    forall v: Turn, bss: Bss, roaming: bool
      ensures var u := Plan(env, drawn, v, bss, roaming).c;
              SameOrigin(v.c, u) || (u.session.Some? && u.session.value.origin.bss == bss && u.session.value.origin.floor == FloorNow(u))
    {
      PlanOrigin(env, drawn, v, bss, roaming);
    }
  }

  lemma CommandOrigin(env: Surroundings, drawn: Drawn, t: Turn, command: Command)
    requires env.Valid()
    ensures var u := OnCommand(env, drawn, t, command).c;
            SameOrigin(t.c, u) || PlannedBy(t.c, Commanded(command), u)
  {
    hide Plan, FloorNow, Enter, Arm, Disarm, ProfileFor;
    match command {
      case Connect(ssid) =>
        var u := if t.c.state != Idle then Push(t, Disconnect(REASON_LEAVING)) else t;
        var profile := ProfileFor(u.c.profiles, ssid);
        var target := Target(ssid, None, profile.Some? && profile.value.autoconnect, profile.None?);
        ScanKeepsSession(u.(c := u.c.(target := Some(target), session := None, pending := None, attempts := 0)));
      case Autoconnect =>
        ScanKeepsSession(t.(c := t.c.(target := None, session := None, pending := None, attempts := 0)));
      case Secret(value) =>
        if t.c.target.Some? && t.c.pending.Some? {
          var d := t.c.(target := Some(t.c.target.value.(secret := Some(value))), pending := None);
          PlanOrigin(env, drawn, t.(c := d), t.c.pending.value, false);
        }
      case Disconnecting =>
    }
  }

  lemma ScanKeepsSession(t: Turn)
    ensures StartScan(t).c.session == t.c.session
  {
    hide Enter, Arm;
    TransitionsAside(t, Scanning, ScanTimeout, 0);
    var u := Enter(t, Scanning);
    TransitionsAside(Push(u, TriggerScan(u.c.device.ifindex)), Scanning, ScanTimeout, SCAN_TIMEOUT_MS);
  }

  lemma WirelessOrigin(env: Surroundings, drawn: Drawn, t: Turn, event: Event)
    requires env.Valid()
    ensures SameOrigin(t.c, OnWireless(env, drawn, t, event).c)
  {
    hide DriveSae, OnAssociated, AuthBody, Fail;
    AssociatedSameOrigin(env, t, drawn);
    FailHasNoSession(t, NotFound);
    FailHasNoSession(t, AssocTimedOut);
    FailHasNoSession(t, AuthRejected);
    match event {
      case Answered(RefusedWith(code)) => FailHasNoSession(t, Refused(code));
      case Dropped(reason, byAp) => FailHasNoSession(t, Failure.Disconnected(reason, byAp));
      case AuthFrame(frame) => SaeSameOrigin(env, t, AuthBody(t.c, frame), false);
      case _ =>
    }
  }

  lemma TimerOrigin(env: Surroundings, t: Turn, id: TimerId)
    requires env.Valid()
    ensures SameOrigin(t.c, OnTimer(env, t, id).c)
  {
    hide DriveSae, DriveHandshake, Fail, StartScan;
    SaeSameOrigin(env, t, None, false);
    HandshakeSameOrigin(env, t, H.Expiry);
    FailHasNoSession(t, NotFound);
    FailHasNoSession(t, AssocTimedOut);
    ScanKeepsSession(t);
  }

  lemma LeaseOrigin(t: Turn, event: LeaseEvent)
    ensures SameOrigin(t.c, OnLease(t, event).c)
  {
    hide Enter, Fail, Others, NewProfile;
    FailHasNoSession(t, DhcpFailed);
    TransitionsAside(t, Configuring, HandshakeRetry, 0);
    if event.Acquired? { TransitionsAside(Push(t, ApplyLease(event.lease)), Connected, HandshakeRetry, 0); }
  }

  lemma PollOrigin(env: Surroundings, drawn: Drawn, c: Conn, input: Input)
    requires env.Valid()
    ensures SameOrigin(c, Poll(env, drawn, c, input).c) || PlannedBy(c, input, Poll(env, drawn, c, input).c)
  {
    hide OnCommand, OnWireless, OnScanResults, OnTimer, OnLease, DriveHandshake, DriveDot1x, FloorNow;
    var t := Turn(c, []);
    match input {
      case Commanded(command) => CommandOrigin(env, drawn, t, command);
      case Wireless(event) => WirelessOrigin(env, drawn, t, event);
      case ScanResults(scan) => ScanOrigin(env, drawn, t, scan);
      case EapolFrame(bytes) =>
        HandshakeSameOrigin(env, t, H.Frame(bytes));
        Dot1xSameOrigin(env, t, drawn, Some(bytes));
      case Timer(id) => TimerOrigin(env, t, id);
      case Leased(event) => LeaseOrigin(t, event);
    }
  }

  // Whatever session stands, its BSS was offered at some earlier input, and its
  // floor is what the target's profile asked for then.
  lemma {:induction false} OriginWasPlanned(env: Surroundings, device: Device, profiles: seq<Profile>, r: Run, k: nat) returns (j: nat)
    requires IsRun(env, device, profiles, r) && k < |r.states| && r.states[k].session.Some?
    ensures j < k && r.happenings[j].Polled? && PlannedBy(r.states[j], r.happenings[j].input, r.states[j + 1])
    ensures r.states[j + 1].session.value.origin == r.states[k].session.value.origin
  {
    hide Poll, PlannedBy, Others;
    var h := r.happenings[k - 1];
    assert StepOf(env, r, k - 1);
    if h.Polled? { PollOrigin(env, h.drawn, r.states[k - 1], h.input); }
    if h.Fires? { FiredOrigin(env, h.drawn, r.states[k - 1], h.timer); }
    if h.Polled? && !SameOrigin(r.states[k - 1], r.states[k]) {
      j := k - 1;
    } else {
      j := OriginWasPlanned(env, device, profiles, r, k - 1);
    }
  }

  lemma FiredOrigin(env: Surroundings, drawn: Drawn, c: Conn, id: TimerId)
    requires env.Valid()
    ensures SameOrigin(c, Poll(env, drawn, c, Timer(id)).c)
  {
    hide Poll, FloorNow;
    PollOrigin(env, drawn, c, Timer(id));
  }
}
