// When an address acquired finds the session it is for, and what comes of one
// that does not: the code takes it in any state
// (crates/caw-core/src/conn.rs:1159-1176).

module ConnLeases {
  import opened Bytes
  import opened Suites
  import opened Policy
  import opened Connection
  import opened ConnInvariant
  import opened ConnSteps
  import opened ConnRuns
  import Y = DhcpClient

  lemma Stepped(env: Surroundings, r: Run, i: nat)
    requires env.Valid() && i < |r.happenings| && |r.states| == |r.happenings| + 1 && |r.outputs| == |r.happenings| && StepOf(env, r, i)
    ensures match r.happenings[i]
            case Polled(input, drawn) => Poll(env, drawn, r.states[i], input) == Turn(r.states[i + 1], r.outputs[i])
            case Fires(id, drawn) => Poll(env, drawn, r.states[i], Timer(id)) == Turn(r.states[i + 1], r.outputs[i])
            case _ => true
  {
    hide Poll;
  }

  lemma LeaseIsDelivered(env: Surroundings, drawn: Drawn, c: Conn, event: LeaseEvent)
    requires env.Valid()
    ensures Poll(env, drawn, c, Leased(event)) == OnLease(Turn(c, []), event)
  {
    hide OnLease, OnCommand, OnWireless, OnScanResults, OnEapol, OnTimer;
  }

  lemma KeyedStepFits(env: Surroundings, device: Device, profiles: seq<Profile>, r: Run, i: nat)
    requires IsRun(env, device, profiles, r) && i < |r.happenings| && LeasesFit(r, i)
    requires Keyed(r.states[i + 1], SeenAt(r, i + 1))
    ensures Fits(r.states[i], r.happenings[i])
  {
    assert StepOf(env, r, i);
    assert SeenAt(r, i + 1) == Observed(SeenBefore(SeenAt(r, i), r.happenings[i]), r.outputs[i]);
    RunKeeps(env, true, device, profiles, r, i);
    hide StepOf, Keyed, OnLease, Poll, Observed, SeenAt, LeaseFits, LeasesFit, Structured, Placed, Timed, Waiting;
    var h := r.happenings[i];
    if h.Polled? && h.input.Leased? && h.input.lease.Acquired? {
      Stepped(env, r, i);
      assert Poll(env, h.drawn, r.states[i], h.input) == OnLease(Turn(r.states[i], []), h.input.lease) by {
        LeaseIsDelivered(env, h.drawn, r.states[i], h.input.lease);
      }
      AcquiredKeepsKeyed(r.states[i], SeenAt(r, i), h.input.lease.lease);
    }
  }

  lemma {:induction false} KeyedSoFarFits(env: Surroundings, device: Device, profiles: seq<Profile>, r: Run, n: nat)
    requires IsRun(env, device, profiles, r) && n <= |r.happenings|
    requires forall k :: 0 <= k <= n ==> Keyed(r.states[k], SeenAt(r, k))
    ensures LeasesFit(r, n)
  {
    hide StepOf, SeenAt, Keyed, Fits;
    if n > 0 {
      KeyedSoFarFits(env, device, profiles, r, n - 1);
      assert Keyed(r.states[n], SeenAt(r, n));
      KeyedStepFits(env, device, profiles, r, n - 1);
    }
  }

  // Sessions are where they belong, and keyed, after each of the first `n`
  // happenings exactly when every address acquired in them fits.
  lemma KeyedExactlyWhenLeasesFit(env: Surroundings, device: Device, profiles: seq<Profile>, r: Run, n: nat)
    requires IsRun(env, device, profiles, r) && n <= |r.happenings|
    ensures (forall k :: 0 <= k <= n ==> Keyed(r.states[k], SeenAt(r, k))) <==> LeasesFit(r, n)
  {
    hide StepOf, Handle, SeenAt, Timed, Structured, Waiting, Keyed, Fits;
    if LeasesFit(r, n) {
      forall k | 0 <= k <= n ensures Keyed(r.states[k], SeenAt(r, k)) {
        RunKeeps(env, true, device, profiles, r, k);
      }
    }
    if forall k :: 0 <= k <= n ==> Keyed(r.states[k], SeenAt(r, k)) {
      KeyedSoFarFits(env, device, profiles, r, n);
    }
  }

  // A renewal that arrives behind the loss of its link does not: whatever the
  // link was for, the connection ends up connected to nothing, with no session
  // and nothing running to take it further.
  lemma LateLeaseConnectsNothing(env: Surroundings, drawn: Drawn, c: Conn, reason: u16, byAp: bool, lease: Y.Lease)
    requires env.Valid() && Associated(c.state)
    ensures var dropped := Poll(env, drawn, c, Wireless(Dropped(reason, byAp)));
            var t := Poll(env, drawn, dropped.c, Leased(Acquired(lease)));
            && (dropped.c.state == Idle || dropped.c.state == Reconnecting) && !LeaseFits(dropped.c)
            && t.c.state == Connected && t.c.session.None? && t.c.armed.None?
  {
    hide Poll;
    DroppedWaits(env, drawn, c, reason, byAp);
    LeaseConnectsAnything(env, drawn, Poll(env, drawn, c, Wireless(Dropped(reason, byAp))).c, lease);
  }

  lemma DroppedWaits(env: Surroundings, drawn: Drawn, c: Conn, reason: u16, byAp: bool)
    requires env.Valid() && Associated(c.state)
    ensures var d := Poll(env, drawn, c, Wireless(Dropped(reason, byAp))).c;
            d.session.None? && ((d.state == Idle && d.armed.None?) || (d.state == Reconnecting && d.armed == Some(ReconnectBackoff)))
  {
    hide BackoffMs, OnCommand, OnScanResults, OnEapol, OnTimer, OnLease, DriveSae, OnAssociated, AuthBody;
  }

  // Nothing is looked at: from rest, or from a pause between attempts, the
  // lease alone makes the connection Connected.
  lemma LeaseConnectsAnything(env: Surroundings, drawn: Drawn, c: Conn, lease: Y.Lease)
    requires env.Valid() && c.session.None? && c.armed != Some(HandshakeRetry)
    ensures var t := Poll(env, drawn, c, Leased(Acquired(lease))); t.c.state == Connected && t.c.session.None? && t.c.armed.None?
  {
    hide Others, NewProfile, OnCommand, OnScanResults, OnEapol, OnTimer, OnWireless;
  }

  // It can happen from the very start of a run, leaving no timer behind.
  lemma LeaseOutOfPlace(env: Surroundings, device: Device, ssid: seq<byte>, security: Security, secret: seq<byte>, drawn: Drawn, lease: Y.Lease)
      returns (profiles: seq<Profile>, r: Run)
    requires env.Valid()
    ensures IsRun(env, device, profiles, r) && |r.happenings| == 3 && LeasesFit(r, 2) && !LeasesFit(r, 3)
    ensures r.states[2].state == Reconnecting && SeenAt(r, 2).live == {ReconnectBackoff}
    ensures r.states[3].state == Connected && r.states[3].session.None? && SeenAt(r, 3).live == {}
  {
    hide Poll, StepOf, Invariant;
    profiles := [NewProfile(ssid, security, Passphrase(secret))];
    var inputs := [Polled(Commanded(Connect(ssid)), drawn), Fires(ScanTimeout, drawn), Polled(Leased(Acquired(lease)), drawn)];
    r := EverythingHasARun(env, device, profiles, inputs);
    ScansInVain(env, drawn, NewConnection(device, profiles), ssid);
    assert StepOf(env, r, 0) && StepOf(env, r, 1) && StepOf(env, r, 2);
    Stepped(env, r, 0);
    Stepped(env, r, 1);
    Stepped(env, r, 2);
    LeaseConnectsAnything(env, drawn, r.states[2], lease);
    OneTimer(env, device, profiles, r, 2);
    OneTimer(env, device, profiles, r, 3);
    assert !Fits(r.states[2], r.happenings[2]);
  }

  // A scan for a network to be tried again that finds nothing ends in a pause.
  lemma ScansInVain(env: Surroundings, drawn: Drawn, c: Conn, ssid: seq<byte>)
    requires env.Valid() && ProfileFor(c.profiles, ssid).Some? && ProfileFor(c.profiles, ssid).value.autoconnect && c.armed.None?
    ensures var d := Poll(env, drawn, c, Commanded(Connect(ssid))).c;
            var e := Poll(env, drawn, d, Timer(ScanTimeout)).c;
            e.state == Reconnecting && e.session.None? && e.armed == Some(ReconnectBackoff)
  {
    hide ProfileFor, BackoffMs, OnWireless, OnScanResults, OnEapol, OnLease, Plan, DriveSae, DriveHandshake;
  }
}
