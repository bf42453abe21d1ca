// Whole runs of a connection: polls with any input, timers that fire or fire
// late, and profiles saved and forgotten in between.

module ConnRuns {
  import opened Bytes
  import opened Suites
  import opened Policy
  import opened Connection
  import opened ConnParts
  import opened ConnInvariant
  import opened ConnSteps
  import C = Crypto
  import H = FourWayHandshake

  // An expiry takes its timer off the wheel and is delivered; a `Timer` input
  // on its own is one that was already on its way when it was cleared.
  datatype Happening =
    | Polled(input: Input, drawn: Drawn)
    | Fires(timer: TimerId, drawn: Drawn)
    | Saved(profile: Profile)
    | Forgotten(ssid: seq<byte>)

  function Handle(env: Surroundings, c: Conn, h: Happening): Turn
    requires env.Valid()
  {
    match h
    case Polled(input, drawn) => Poll(env, drawn, c, input)
    case Fires(id, drawn) => Poll(env, drawn, c, Timer(id))
    case Saved(profile) => Turn(InsertProfile(c, profile), [])
    case Forgotten(ssid) => Turn(ForgetProfile(c, ssid), [])
  }

  // A recorded run: the connection before and after each happening, and what
  // it asked for at each.
  datatype Run = Run(states: seq<Conn>, happenings: seq<Happening>, outputs: seq<seq<Action>>)

  predicate StepOf(env: Surroundings, r: Run, i: nat)
    requires env.Valid() && i < |r.happenings| && |r.states| == |r.happenings| + 1 && |r.outputs| == |r.happenings|
  {
    Handle(env, r.states[i], r.happenings[i]) == Turn(r.states[i + 1], r.outputs[i])
  }

  ghost predicate IsRun(env: Surroundings, device: Device, profiles: seq<Profile>, r: Run) {
    && env.Valid() && |r.states| == |r.happenings| + 1 && |r.outputs| == |r.happenings|
    && r.states[0] == NewConnection(device, profiles)
    && forall i :: 0 <= i < |r.happenings| ==> StepOf(env, r, i)
  }

  // Whatever happens, there is a run of it.
  lemma {:induction false} EverythingHasARun(env: Surroundings, device: Device, profiles: seq<Profile>, hs: seq<Happening>) returns (r: Run)
    requires env.Valid()
    ensures IsRun(env, device, profiles, r) && r.happenings == hs
  {
    hide Handle;
    if hs == [] {
      r := Run([NewConnection(device, profiles)], [], []);
    } else {
      var n := |hs| - 1;
      var before := EverythingHasARun(env, device, profiles, hs[..n]);
      var t := Handle(env, before.states[n], hs[n]);
      r := Run(before.states + [t.c], before.happenings + [hs[n]], before.outputs + [t.out]);
      assert hs[..n] + [hs[n]] == hs;
      forall i | 0 <= i < |r.happenings| ensures StepOf(env, r, i) {
        if i < n { assert StepOf(env, before, i); }
      }
    }
  }

  const NOTHING_SEEN: Seen := Seen({}, None, None)

  function SeenBefore(s: Seen, h: Happening): Seen {
    if h.Fires? then s.(live := s.live - {h.timer}) else s
  }

  // What the daemon has seen after `k` happenings, and everything asked for.
  function SeenAt(r: Run, k: nat): Seen
    requires k <= |r.happenings| == |r.outputs|
  {
    if k == 0 then NOTHING_SEEN else Observed(SeenBefore(SeenAt(r, k - 1), r.happenings[k - 1]), r.outputs[k - 1])
  }

  function LogAt(r: Run, k: nat): seq<Action>
    requires k <= |r.outputs|
  {
    if k == 0 then [] else LogAt(r, k - 1) + r.outputs[k - 1]
  }

  // An address acquired is for a session it can be taken for.
  predicate Fits(c: Conn, h: Happening) {
    h.Polled? && h.input.Leased? && h.input.lease.Acquired? ==> LeaseFits(c)
  }

  // So is every address acquired in the first `n` happenings.
  ghost predicate LeasesFit(r: Run, n: nat)
    requires n <= |r.happenings| && |r.states| > |r.happenings|
  {
    forall i :: 0 <= i < n ==> Fits(r.states[i], r.happenings[i])
  }

  // The RSN element this input carries under the keys of the handshake it meets.
  function HeardAt(env: Surroundings, c: Conn, h: Happening): Option<seq<byte>> {
    if h.Polled? && h.input.EapolFrame? && c.session.Some? && c.session.value.handshake.Some?
    then HeardRsn(env.c, c.session.value.handshake.value, h.input.bytes) else None
  }

  // ---- one step ----------------------------------------------------------------------

  lemma StartsGood(tame: bool, heard: Option<seq<byte>>, s0: Seen, c: Conn)
    requires Timed(c, s0) && Structured(c, s0) && (tame ==> Placed(c, s0))
    ensures Good(tame, heard, s0, Turn(c, [])) && AllPlain(Turn(c, []).out) && Observed(s0, Turn(c, []).out) == s0
  {
  }

  lemma OnEapolKeeps(env: Surroundings, tame: bool, heard: Option<seq<byte>>, s0: Seen, t: Turn, drawn: Drawn, frame: seq<byte>)
    requires Good(tame, heard, s0, t) && AllPlain(t.out)
    requires t.c.session.Some? && t.c.session.value.handshake.Some? ==>
      heard == HeardRsn(env.c, t.c.session.value.handshake.value, frame)
    ensures Good(tame, heard, s0, OnEapol(env, drawn, t, frame))
    ensures Waits(s0, t) ==> Waits(s0, OnEapol(env, drawn, t, frame))
  {
    hide Good, DriveHandshake, DriveDot1x, HeardRsn, Plain, Waits;
    if t.c.state == Handshaking || t.c.state == Connected {
      DriveHandshakeKeeps(env, tame, heard, s0, t, H.Frame(frame));
      DriveDot1xKeeps(env, tame, heard, s0, t, drawn, frame);
    }
  }

  lemma PollKeeps(env: Surroundings, drawn: Drawn, tame: bool, heard: Option<seq<byte>>, s0: Seen, c: Conn, input: Input)
    requires env.Valid() && Timed(c, s0) && Structured(c, s0) && (tame ==> Placed(c, s0))
    requires if input.Timer? then Waiting(c, s0.(live := s0.live + {input.id})) else Waiting(c, s0)
    requires tame && input.Leased? && input.lease.Acquired? ==> LeaseFits(c)
    requires input.EapolFrame? && c.session.Some? && c.session.value.handshake.Some? ==>
      heard == HeardRsn(env.c, c.session.value.handshake.value, input.bytes)
    ensures var t := Poll(env, drawn, c, input); Good(tame, heard, s0, t) && Waits(s0, t)
  {
    hide Good, OnCommand, OnWireless, OnScanResults, OnEapol, OnLease, OnTimer, HeardRsn, Timed, Structured, Placed, Plain, Observed;
    var t := Turn(c, []);
    StartsGood(tame, heard, s0, c);
    match input {
      case Commanded(command) => OnCommandKeeps(env, drawn, tame, heard, s0, t, command);
      case Wireless(event) => OnWirelessKeeps(env, drawn, tame, heard, s0, t, event);
      case ScanResults(scan) => ScanKeeps(env, drawn, tame, heard, s0, t, scan);
      case EapolFrame(bytes) => OnEapolKeeps(env, tame, heard, s0, t, drawn, bytes);
      case Leased(event) => OnLeaseKeeps(tame, heard, s0, t, event);
      case Timer(id) => OnTimerKeeps(env, tame, heard, s0, t, id);
    }
  }

  lemma ScanKeeps(env: Surroundings, drawn: Drawn, tame: bool, heard: Option<seq<byte>>, s0: Seen, t: Turn, scan: seq<Bss>)
    requires env.Valid() && Good(tame, heard, s0, t) && AllPlain(t.out)
    ensures Good(tame, heard, s0, OnScanResults(env, drawn, t, scan))
    ensures Waits(s0, t) ==> Waits(s0, OnScanResults(env, drawn, t, scan))
  {
    hide Good, Select, ConsiderRoam, Plain, Waits;
    if t.c.state == Scanning { SelectKeeps(env, drawn, tame, heard, s0, t, scan); }
    if t.c.state == Connected { ConsiderRoamKeeps(env, drawn, tame, heard, s0, t, scan); }
  }

  predicate Invariant(tame: bool, c: Conn, seen: Seen) {
    Timed(c, seen) && Structured(c, seen) && Waiting(c, seen) && (tame ==> Placed(c, seen))
  }

  lemma ProfilesAside(tame: bool, before: Conn, after: Conn, seen: Seen)
    requires Invariant(tame, before, seen)
    requires after == before.(profiles := after.profiles, target := after.target) && (after.target.Some? <==> before.target.Some?)
    ensures Invariant(tame, after, seen) && Actions(after.session, None, [])
  {
    hide SessionOk, InProgress;
  }

  lemma StepKeeps(env: Surroundings, tame: bool, c: Conn, seen: Seen, h: Happening)
    requires env.Valid() && Invariant(tame, c, seen) && (tame ==> Fits(c, h))
    ensures var t := Handle(env, c, h);
            Invariant(tame, t.c, Observed(SeenBefore(seen, h), t.out)) && Actions(t.c.session, HeardAt(env, c, h), t.out)
  {
    hide Poll, HeardRsn, SessionOk, Actions, Observed, Others, InProgress;
    var s0 := SeenBefore(seen, h);
    match h {
      case Polled(input, drawn) =>
        if input.Timer? { MoreLive(c, seen, input.id); }
        PollKeeps(env, drawn, tame, HeardAt(env, c, h), s0, c, input);
      case Fires(id, drawn) =>
        LessLive(tame, c, seen, id);
        PollKeeps(env, drawn, tame, None, s0, c, Timer(id));
      case Saved(profile) =>
        ProfilesAside(tame, c, InsertProfile(c, profile), seen);
        NothingSeen(seen);
      case Forgotten(ssid) =>
        ProfilesAside(tame, c, ForgetProfile(c, ssid), seen);
        NothingSeen(seen);
    }
  }

  lemma MoreLive(c: Conn, seen: Seen, id: TimerId)
    requires Waiting(c, seen)
    ensures Waiting(c, seen.(live := seen.live + {id}))
  {
  }

  lemma LessLive(tame: bool, c: Conn, seen: Seen, id: TimerId)
    requires Invariant(tame, c, seen)
    ensures var s0 := seen.(live := seen.live - {id});
            && Timed(c, s0) && Structured(c, s0) && (tame ==> Placed(c, s0))
            && Waiting(c, s0.(live := s0.live + {id}))
  {
    hide SessionOk, InProgress;
    var s0 := seen.(live := seen.live - {id});
    if c.session.Some? { SeenElsewhere(c.session.value, seen, s0); }
  }

  lemma {:induction false} RunKeeps(env: Surroundings, tame: bool, device: Device, profiles: seq<Profile>, r: Run, k: nat)
    requires IsRun(env, device, profiles, r) && k < |r.states| && (tame ==> LeasesFit(r, k))
    ensures Invariant(tame, r.states[k], SeenAt(r, k))
  {
    hide Handle, Invariant, Fits;
    if k == 0 {
      StartIsGood(tame, device, profiles);
    } else {
      RunKeeps(env, tame, device, profiles, r, k - 1);
      assert StepOf(env, r, k - 1) && (tame ==> Fits(r.states[k - 1], r.happenings[k - 1]));
      StepKeeps(env, tame, r.states[k - 1], SeenAt(r, k - 1), r.happenings[k - 1]);
    }
  }

  lemma StartIsGood(tame: bool, device: Device, profiles: seq<Profile>)
    ensures Invariant(tame, NewConnection(device, profiles), NOTHING_SEEN)
  {
  }

  // ---- timers ----------------------------------------------------------------------------

  // In every run, what runs is at most one core timer, the one believed in,
  // which is the one of the state; and no state that waits on a timer alone is
  // ever left without it.
  lemma OneTimer(env: Surroundings, device: Device, profiles: seq<Profile>, r: Run, k: nat)
    requires IsRun(env, device, profiles, r) && k < |r.states|
    ensures var c, live := r.states[k], SeenAt(r, k).live;
            && (forall id :: id in live ==> c.armed == Some(id) && TimerOf(c.state) == Some(id))
            && (c.state in {Authenticating, Associating, Reconnecting} ==> live == {TimerOf(c.state).value})
            && (c.state == Scanning && c.pending.None? ==> live == {ScanTimeout})
  {
    hide StepOf, Handle, SeenAt, Structured, Placed;
    RunKeeps(env, false, device, profiles, r, k);
  }

  // ---- sessions and keys --------------------------------------------------------------------

  // Keys for `peer` went in, and no association request has gone out since.
  predicate InstalledSince(log: seq<Action>, peer: Mac) {
    exists i :: 0 <= i < |log| && InstalledAt(log, i, peer)
  }

  predicate InstalledAt(log: seq<Action>, i: nat, peer: Mac)
    requires i < |log|
  {
    && log[i].InstallKeys? && log[i].pairwise.Some? && log[i].pairwise.value.peer == peer
    && forall j :: i < j < |log| ==> !log[j].Associate?
  }

  lemma {:induction false} ObservedMore(s: Seen, r: Seen, a: seq<Action>, b: seq<Action>)
    requires s.keyed == Observed(r, a).keyed && s.request == Observed(r, a).request
    ensures Observed(s, b).keyed == Observed(r, a + b).keyed && Observed(s, b).request == Observed(r, a + b).request
  {
    if b == [] {
      assert a + b == a;
    } else {
      ObservedMore(s, r, a, b[..|b| - 1]);
      assert (a + b)[..|a + b| - 1] == a + b[..|b| - 1];
    }
  }

  lemma {:induction false} KeyedWasInstalled(log: seq<Action>)
    ensures var keyed := Observed(NOTHING_SEEN, log).keyed; keyed.Some? ==> InstalledSince(log, keyed.value)
  {
    if log != [] {
      var before, a := log[..|log| - 1], log[|log| - 1];
      KeyedWasInstalled(before);
      var keyed := Observed(NOTHING_SEEN, log).keyed;
      if keyed.Some? {
        if a.InstallKeys? && a.pairwise.Some? {
          assert InstalledAt(log, |log| - 1, keyed.value);
        } else {
          var i :| 0 <= i < |before| && InstalledAt(before, i, keyed.value);
          assert InstalledAt(log, i, keyed.value);
        }
      }
    }
  }

  lemma {:induction false} SeenIsTheLog(r: Run, k: nat)
    requires k <= |r.happenings| == |r.outputs|
    ensures SeenAt(r, k).keyed == Observed(NOTHING_SEEN, LogAt(r, k)).keyed
    ensures SeenAt(r, k).request == Observed(NOTHING_SEEN, LogAt(r, k)).request
  {
    hide Observed;
    if k == 0 {
      NothingSeen(NOTHING_SEEN);
    } else {
      SeenIsTheLog(r, k - 1);
      ObservedMore(SeenBefore(SeenAt(r, k - 1), r.happenings[k - 1]), NOTHING_SEEN, LogAt(r, k - 1), r.outputs[k - 1]);
    }
  }

  // Where every address acquired fits, a session stands exactly in the five
  // states of one, and a secured session the device did not key itself has an
  // address configured or in hand only after pairwise keys for its own BSS went
  // in since its association request.
  lemma KeyedBeforeConfigured(env: Surroundings, device: Device, profiles: seq<Profile>, r: Run, k: nat)
    requires IsRun(env, device, profiles, r) && k < |r.states| && LeasesFit(r, k)
    ensures var c, request := r.states[k], SeenAt(r, k).request;
            && (c.session.Some? <==> Standing(c.state))
            && (c.state == Configuring || c.state == Connected ==>
                  && c.session.Some? && request.Some? && request.value.bssid == c.session.value.choice.bssid
                  && (c.session.value.choice.rsn.Some? && request.value.offload.None? ==>
                        InstalledSince(LogAt(r, k), c.session.value.choice.bssid)))
  {
    hide StepOf, Handle, SeenAt, Timed, Waiting, Fits, Observed;
    RunKeeps(env, true, device, profiles, r, k);
    SeenIsTheLog(r, k);
    KeyedWasInstalled(LogAt(r, k));
  }

  // ---- nothing the code expects fails ---------------------------------------------------------

  // What each action of a step may be taken to mean, in every run.
  lemma EveryActionIsOk(env: Surroundings, device: Device, profiles: seq<Profile>, r: Run, k: nat)
    requires IsRun(env, device, profiles, r) && k < |r.outputs|
    ensures Invariant(false, r.states[k + 1], SeenAt(r, k + 1))
    ensures Actions(r.states[k + 1].session, HeardAt(env, r.states[k], r.happenings[k]), r.outputs[k])
  {
    hide Invariant, Actions, HeardAt, Handle;
    RunKeeps(env, false, device, profiles, r, k);
    assert StepOf(env, r, k);
    StepKeeps(env, false, r.states[k], SeenAt(r, k), r.happenings[k]);
  }

  // No `expect` in the connection fails, and it never reports an internal
  // failure.
  lemma NoExpectFails(env: Surroundings, device: Device, profiles: seq<Profile>, r: Run, k: nat, i: nat)
    requires IsRun(env, device, profiles, r) && k < |r.outputs| && i < |r.outputs[k]|
    ensures r.outputs[k][i] != Crashed && r.outputs[k][i] != Failed(Internal)
  {
    hide StepOf, Handle, Invariant, HeardAt;
    EveryActionIsOk(env, device, profiles, r, k);
    assert ActionOk(r.states[k + 1].session, HeardAt(env, r.states[k], r.happenings[k]), r.outputs[k][i]);
  }

  // ---- what goes over the air ---------------------------------------------------------------------

  // What a station's element should read as.
  function Said(n: Negotiated, raw: seq<byte>, s: StationRsn): RsnIe {
    RsnIe(n.group, [n.pairwise], [n.akm], Capabilities(s), n.mfpCapable, n.mfpRequired,
          if n.mfpCapable then n.groupMgmt else None, raw)
  }

  lemma ElementsParse(n: Negotiated, pmkid: Option<C.Block16>, offloaded: bool, rsn: RsnIe)
    requires ChosenFrom(n, rsn) && Scanned(rsn)
    ensures ParseRsn(Elements(n, pmkid, offloaded))
         == Ok(Said(n, StationElement(StationOf(n, pmkid)), StationOf(n, pmkid)))
  {
    hide ParseRsn, StationElement;
    ScannedShape(rsn);
    StationElementParses(StationOf(n, pmkid), if n.akm.IsSae() && !offloaded then RSNXE_SAE_H2E else []);
    assert StationElement(StationOf(n, pmkid)) + [] == StationElement(StationOf(n, pmkid));
  }

  // The elements of an association request say exactly what was chosen from
  // what the BSS advertised.
  lemma RequestSaysTheChoice(env: Surroundings, device: Device, profiles: seq<Profile>, r: Run, k: nat, i: nat)
    requires IsRun(env, device, profiles, r) && k < |r.outputs| && i < |r.outputs[k]| && r.outputs[k][i].Associate?
    ensures r.states[k + 1].session.Some?
    ensures var s, request := r.states[k + 1].session.value, r.outputs[k][i].request;
            && request.bssid == s.origin.bss.bssid && (s.choice.rsn.Some? <==> s.origin.bss.rsn.Some?)
            && (s.choice.rsn.Some? && Scanned(s.origin.bss.rsn.value) ==>
                  var n := s.choice.rsn.value;
                  && ChosenFrom(n, s.origin.bss.rsn.value)
                  && ParseRsn(request.ies) == Ok(Said(n, StationElement(StationOf(n, s.pmkid)), StationOf(n, s.pmkid)))
                  && request.akms == [AkmSelector(n.akm)])
  {
    hide StepOf, Handle, HeardAt, Timed, Waiting, Scanned, ParseRsn, StationElement, Elements, Said, ChosenFrom, InProgress, SeenAt;
    EveryActionIsOk(env, device, profiles, r, k);
    var request := r.outputs[k][i].request;
    assert ActionOk(r.states[k + 1].session, HeardAt(env, r.states[k], r.happenings[k]), r.outputs[k][i]);
    var s := r.states[k + 1].session.value;
    if s.choice.rsn.Some? && Scanned(s.origin.bss.rsn.value) {
      ElementsParse(s.choice.rsn.value, s.pmkid, request.offload.Some?, s.origin.bss.rsn.value);
    }
  }

  // Every message 2, the first and each resend, carries octet for octet the
  // elements of the last association request, made to the same BSS: the retry
  // timer is what follows a message 2 and nothing else.
  lemma Message2CarriesTheRequest(env: Surroundings, device: Device, profiles: seq<Profile>, r: Run, k: nat, j: nat)
    requires IsRun(env, device, profiles, r) && k < |r.outputs| && j < |r.outputs[k]| && ArmsRetry(r.outputs[k][j])
    ensures var c, request := r.states[k + 1], SeenAt(r, k + 1).request;
            && c.session.Some? && request.Some? && request.value.bssid == c.session.value.choice.bssid
            && j > 0 && r.outputs[k][j - 1].SendEapol? && KeyDataIn(r.outputs[k][j - 1].frame) == request.value.ies
  {
    hide StepOf, Handle, HeardAt, Timed, Waiting, KeyDataIn, OriginOk, ResendsOwn, RepeatsEap, InProgress, SeenAt, ActionOk;
    EveryActionIsOk(env, device, profiles, r, k);
    if j > 0 {
      assert Repeatable(r.states[k + 1].session, r.outputs[k][j - 1]);
    }
  }

  // And nothing else it sends has key data: what has any repeats the request.
  lemma KeyDataRepeatsTheRequest(env: Surroundings, device: Device, profiles: seq<Profile>, r: Run, k: nat, i: nat)
    requires IsRun(env, device, profiles, r) && k < |r.outputs| && i < |r.outputs[k]|
    requires r.outputs[k][i].SendEapol? && KeyDataIn(r.outputs[k][i].frame) != []
    ensures var c, request := r.states[k + 1], SeenAt(r, k + 1).request;
            && c.session.Some? && request.Some? && request.value.bssid == c.session.value.choice.bssid
            && KeyDataIn(r.outputs[k][i].frame) == request.value.ies
  {
    hide StepOf, Handle, HeardAt, Timed, Waiting, KeyDataIn, OriginOk, ResendsOwn, RepeatsEap, InProgress, SeenAt;
    EveryActionIsOk(env, device, profiles, r, k);
    assert ActionOk(r.states[k + 1].session, HeardAt(env, r.states[k], r.happenings[k]), r.outputs[k][i]);
  }

  // Pairwise keys follow only a frame that carried, under those very keys, the
  // RSN element the chosen BSS advertised, octet for octet.
  lemma KeysFollowTheBeacon(env: Surroundings, device: Device, profiles: seq<Profile>, r: Run, k: nat, i: nat)
    requires IsRun(env, device, profiles, r) && k < |r.outputs| && i < |r.outputs[k]|
    requires r.outputs[k][i].InstallKeys? && r.outputs[k][i].pairwise.Some?
    ensures r.states[k + 1].session.Some?
    ensures var s, key := r.states[k + 1].session.value, r.outputs[k][i].pairwise.value;
            && s.origin.bss.rsn.Some? && key.peer == s.origin.bss.bssid
            && HeardAt(env, r.states[k], r.happenings[k]) == Some(s.origin.bss.rsn.value.raw)
            && s.handshake.Some? && s.handshake.value.ptk == Some(key.ptk)
  {
    hide StepOf, Handle, HeardAt, Timed, Waiting, ResendsOwn, RepeatsEap, InProgress, SeenAt;
    EveryActionIsOk(env, device, profiles, r, k);
    assert ActionOk(r.states[k + 1].session, HeardAt(env, r.states[k], r.happenings[k]), r.outputs[k][i]);
  }

  // ---- the floor ---------------------------------------------------------------------------------

  // What a request, as it goes out, would be joined at.
  function RequestSecurity(r: AssocRequest): Security {
    if r.akms == [] then Open else NegotiatedSecurity(AkmOf(r.akms[0]), r.mfp == Some(MFP_REQUIRED))
  }

  // No association is asked for, and no SAE exchange run, below the floor the
  // target's profile had when the BSS was planned.
  lemma FloorHolds(env: Surroundings, device: Device, profiles: seq<Profile>, r: Run, k: nat, i: nat)
    requires IsRun(env, device, profiles, r) && k < |r.outputs| && i < |r.outputs[k]|
    ensures var a, session := r.outputs[k][i], r.states[k + 1].session;
            && (a.Associate? ==>
                  session.Some? && a.request.bssid == session.value.origin.bss.bssid
                  && (session.value.origin.floor.Some? ==> IsAtLeast(RequestSecurity(a.request), session.value.origin.floor.value)))
            && (a.Authenticate? ==>
                  session.Some? && a.auth.bssid == session.value.origin.bss.bssid
                  && (session.value.origin.floor.Some? ==> IsAtLeast(Wpa3Personal, session.value.origin.floor.value)))
  {
    hide StepOf, Handle, HeardAt, Timed, Waiting, ResendsOwn, RepeatsEap, InProgress, Elements, IsAtLeast, SeenAt;
    EveryActionIsOk(env, device, profiles, r, k);
    var a, session := r.outputs[k][i], r.states[k + 1].session;
    assert ActionOk(session, HeardAt(env, r.states[k], r.happenings[k]), a);
    if a.Associate? { RequestIsTheChoice(session.value, a.request); }
  }

  lemma RequestIsTheChoice(s: Session, r: AssocRequest)
    requires AssociateOk(s, r) && OriginOk(s.origin, s.choice)
    ensures RequestSecurity(r) == s.choice.negotiated
  {
    hide Elements;
    if s.choice.rsn.Some? {
      SelectorsRoundTrip(s.choice.rsn.value.pairwise, s.choice.rsn.value.akm);
    }
  }
}
