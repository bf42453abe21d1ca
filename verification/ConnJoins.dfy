// A whole join: from the command to connect to an address, against an access
// point that holds the passphrase (crates/caw-core/src/conn.rs:554-1176).

module ConnJoins {
  import opened Bytes
  import opened Suites
  import opened Policy
  import opened Connection
  import opened ConnSteps
  import opened ConnRuns
  import A = Authenticator
  import C = Crypto
  import E = Eapol
  import H = FourWayHandshake
  import Y = DhcpClient

  // ---- what is offered ----------------------------------------------------------------

  predicate Distinct(scan: seq<Bss>) {
    forall i, j :: 0 <= i < j < |scan| ==> scan[i].bssid != scan[j].bssid
  }

  // The network a saved credential is for is in the scan, and its best BSS can
  // be joined and is strong enough for the profile.
  predicate Offers(env: Surroundings, c: Conn, ssid: seq<byte>, credential: Credential, scan: seq<Bss>, bss: Bss, n: Negotiated) {
    var profile := ProfileFor(c.profiles, ssid);
    && profile.Some? && profile.value.credential == credential && Accepts(profile.value, SecurityOf(n))
    && Distinct(scan) && BestBss(scan, ssid) == Some(bss) && bss.rsn.Some?
    && Negotiate(bss.rsn.value, Some(credential), env.enterpriseBuild) == Some(n)
  }

  // The station derives the PMK itself, from the passphrase.
  predicate ByPsk(c: Conn, n: Negotiated) {
    n.akm.IsPsk() && !c.device.caps.offloads4wayPsk
  }

  // The access point of that BSS, and what its end of the association says.
  predicate Shares(c: Conn, bss: Bss, n: Negotiated, pmkid: Option<C.Block16>, ap: A.Ap) {
    && A.Sound(ap) && ap.akm == n.akm && ap.aa == bss.bssid && ap.spa == c.device.mac
    && ap.beaconIe == n.beaconIe && ap.stationIe == Elements(n, pmkid, false)
  }

  lemma {:induction false} FoundWhenDistinct(scan: seq<Bss>, bss: Bss)
    requires Distinct(scan) && bss in scan
    ensures FindBss(scan, bss.bssid) == Some(bss)
  {
    if scan[0] != bss {
      var i :| 0 < i < |scan| && scan[i] == bss;
      assert scan[1..][i - 1] == bss;
      FoundWhenDistinct(scan[1..], bss);
    }
  }

  // ---- one step of it at a time ------------------------------------------------------------

  predicate Seeking(c: Conn, ssid: seq<byte>) {
    c.state == Scanning && c.target.Some? && c.target.value.ssid == ssid && c.session.None? && c.pending.None?
  }

  lemma ConnectSeeks(env: Surroundings, drawn: Drawn, c: Conn, ssid: seq<byte>)
    requires env.Valid()
    ensures var t := Poll(env, drawn, c, Commanded(Connect(ssid)));
            Seeking(t.c, ssid) && t.c.profiles == c.profiles && t.c.device == c.device
  {
    hide ProfileFor;
  }

  // The session a plan leads to, as the association request goes out.
  predicate Requesting(c: Conn, bss: Bss, n: Negotiated, auth: Auth, pmkid: Option<C.Block16>) {
    && c.state == Associating && c.target.Some? && c.session.Some?
    && var s := c.session.value;
       && s.auth == auth && s.handshake.None? && !s.choice.roaming
       && s.choice.bssid == bss.bssid && s.choice.rsn == Some(n)
       && s.assocIe == Elements(n, pmkid, false)
  }

  // The decision to join that BSS, authenticated in this way.
  predicate GoesWith(d: Decision, bss: Bss, n: Negotiated, auth: Auth) {
    && d.Go? && d.session.auth == auth && d.session.handshake.None? && d.session.pmkid.None? && !d.session.choice.roaming
    && d.session.choice.bssid == bss.bssid && d.session.choice.rsn == Some(n)
  }

  lemma DecidesByPsk(env: Surroundings, drawn: Drawn, c: Conn, ssid: seq<byte>, secret: seq<byte>, scan: seq<Bss>, bss: Bss, n: Negotiated)
    requires Seeking(c, ssid) && Offers(env, c, ssid, Passphrase(secret), scan, bss, n) && ByPsk(c, n)
    ensures GoesWith(Decide(env, drawn, c, bss, false), bss, n, Ready(env.pbkdf2(secret, ssid)))
  {
    hide ProfileFor, Negotiate, Accepts, BestBss, Distinct, SecurityOf;
  }

  // The association request for that BSS, saying what was negotiated.
  predicate Asks(out: seq<Action>, bss: Bss, n: Negotiated, pmkid: Option<C.Block16>) {
    exists i :: 0 <= i < |out| && out[i].Associate? && out[i].request.bssid == bss.bssid
                && out[i].request.ies == Elements(n, pmkid, false)
  }

  lemma RequestGoes(t: Turn, bss: Bss, n: Negotiated, auth: Auth, pmkid: Option<C.Block16>)
    requires t.c.target.Some? && t.c.session.Some? && !auth.Offloaded?
    requires var s := t.c.session.value;
             s.auth == auth && s.handshake.None? && s.pmkid == pmkid && !s.choice.roaming
             && s.choice.bssid == bss.bssid && s.choice.rsn == Some(n)
    ensures var u := SendAssociation(t);
            Requesting(u.c, bss, n, auth, pmkid) && u.c.device == t.c.device && Asks(u.out, bss, n, pmkid)
  {
    hide Elements;
    var u := SendAssociation(t);
    assert u.out[|u.out| - 2].Associate?;
  }

  lemma ScanRequests(env: Surroundings, drawn: Drawn, c: Conn, ssid: seq<byte>, credential: Credential, scan: seq<Bss>, bss: Bss,
                     n: Negotiated, auth: Auth)
    requires env.Valid() && Seeking(c, ssid) && Offers(env, c, ssid, credential, scan, bss, n)
    requires GoesWith(Decide(env, drawn, c, bss, false), bss, n, auth) && (auth.Ready? || auth.PostAssoc?)
    ensures var t := Poll(env, drawn, c, ScanResults(scan));
            Requesting(t.c, bss, n, auth, None) && t.c.device == c.device && Asks(t.out, bss, n, None)
  {
    hide Decide, SendAssociation, Requesting, Asks, Distinct, Elements, Negotiate, ProfileFor, Accepts, SecurityOf, StartSae, Strongest, Filter;
    FoundWhenDistinct(scan, bss);
    var session := Decide(env, drawn, c, bss, false).session;
    RequestGoes(Turn(c.(session := Some(session)), []), bss, n, auth, None);
  }

  // In a handshake with the access point, as far as `m`.
  predicate Shaking(c: Conn, bss: Bss, n: Negotiated, m: H.FourWay) {
    && c.state == Handshaking && c.target.Some? && c.session.Some?
    && var s := c.session.value;
       s.handshake == Some(m) && !s.choice.roaming && s.choice.bssid == bss.bssid && s.choice.rsn == Some(n)
  }

  lemma JoinedShakes(env: Surroundings, drawn: Drawn, c: Conn, bss: Bss, n: Negotiated, ap: A.Ap, pmkid: Option<C.Block16>, snonce: C.Nonce)
    requires env.Valid() && Requesting(c, bss, n, Ready(ap.pmk), pmkid) && drawn.snonce == Some(snonce) && Shares(c, bss, n, pmkid, ap)
    ensures var t := Poll(env, drawn, c, Wireless(Answered(Joined)));
            Shaking(t.c, bss, n, A.StationOf(ap, snonce))
  {
    hide Elements;
  }

  // Messages of the handshake, and its timer, reach it.
  function Delivery(input: H.Input): Input {
    match input
    case Frame(bytes) => EapolFrame(bytes)
    case Expiry => Timer(HandshakeRetry)
  }

  predicate KeyInput(input: H.Input) {
    input.Frame? ==> E.ParseEapol(input.bytes).Ok? && E.ParseEapol(input.bytes).value.packetType == E.KeyType
  }

  lemma DeliveredToHandshake(env: Surroundings, drawn: Drawn, c: Conn, input: H.Input)
    requires env.Valid() && c.state == Handshaking && KeyInput(input)
    ensures Poll(env, drawn, c, Delivery(input)) == DriveHandshake(env, Turn(c, []), input)
  {
    hide H.Poll, DriveHandshake, DriveDot1x, E.ParseEapol;
  }

  lemma HandshakeGoesOn(env: Surroundings, drawn: Drawn, c: Conn, bss: Bss, n: Negotiated, m: H.FourWay, input: H.Input)
    requires env.Valid() && Shaking(c, bss, n, m) && KeyInput(input) && A.GoesOn(H.Poll(env.c, m, input).result)
    ensures var t := Poll(env, drawn, c, Delivery(input));
            Shaking(t.c, bss, n, H.Poll(env.c, m, input).next)
  {
    hide H.Poll, Configured, Fail, Poll, KeyInput, Delivery, Perform;
    DeliveredToHandshake(env, drawn, c, input);
    var o := H.Poll(env.c, m, input);
    var s := c.session.value;
    var u := Turn(c.(session := Some(s.(handshake := Some(o.next)))), []);
    if o.result.value == [] {
      PerformUnfolds(u, H.DisarmTimer, H.DisarmTimer, H.DisarmTimer);
    } else {
      assert o.result.value == [o.result.value[0], o.result.value[1]];
      PerformUnfolds(u, o.result.value[0], o.result.value[1], H.DisarmTimer);
    }
  }

  // What the end of a handshake asks for: the keys of the access point, and an address.
  predicate Keys(out: seq<Action>, bss: Bss, n: Negotiated, ptk: C.Ptk, gtk: E.Gtk) {
    && InstallKeys(Some(PairwiseKey(bss.bssid, Suite(n.pairwise), ptk)), GroupKey(Suite(n.group), gtk)) in out
    && StartDhcp in out
  }

  predicate On(c: Conn, state: State, bss: Bss) {
    c.state == state && c.session.Some? && c.session.value.choice.bssid == bss.bssid
  }

  lemma CompletionInstalls(env: Surroundings, drawn: Drawn, c: Conn, bss: Bss, n: Negotiated, m: H.FourWay, bytes: seq<byte>,
                           ptk: C.Ptk, gtk: E.Gtk)
    requires env.Valid() && Shaking(c, bss, n, m) && KeyInput(H.Frame(bytes))
    requires var r := H.Poll(env.c, m, H.Frame(bytes)).result;
             r.Ok? && |r.value| == 3 && r.value[0].Send? && r.value[1] == H.DisarmTimer && r.value[2] == H.Complete(ptk, gtk)
    ensures var t := Poll(env, drawn, c, EapolFrame(bytes));
            On(t.c, Configuring, bss) && Keys(t.out, bss, n, ptk, gtk)
  {
    hide H.Poll, Fail, Suite, Poll, KeyInput, Perform;
    DeliveredToHandshake(env, drawn, c, H.Frame(bytes));
    var o := H.Poll(env.c, m, H.Frame(bytes));
    var actions := o.result.value;
    assert actions == [actions[0], actions[1], actions[2]] && H.Installs(actions);
    var s := c.session.value;
    var u := Turn(c.(session := Some(s.(handshake := Some(o.next)))), []);
    PerformUnfolds(u, actions[0], actions[1], actions[2]);
    ConfiguredGoesOn(Perform(u, actions), InstallKeys(Some(PairwiseKey(bss.bssid, Suite(n.pairwise), ptk)), GroupKey(Suite(n.group), gtk)));
  }

  lemma ConfiguredGoesOn(t: Turn, a: Action)
    requires a in t.out && t.c.session.Some? && !t.c.session.value.choice.roaming
    ensures var u := Configured(t);
            u.c.state == Configuring && u.c.session == t.c.session && a in u.out && StartDhcp in u.out
  {
  }

  lemma LeaseConnects(env: Surroundings, drawn: Drawn, c: Conn, bss: Bss, lease: Y.Lease)
    requires env.Valid() && On(c, Configuring, bss)
    ensures var t := Poll(env, drawn, c, Leased(Acquired(lease)));
            On(t.c, Connected, bss) && ApplyLease(lease) in t.out
  {
    hide Others, NewProfile;
    assert Poll(env, drawn, c, Leased(Acquired(lease))).out[0] == ApplyLease(lease);
  }

  // ---- from the association on ----------------------------------------------------------------

  // Message 1 however often with lulls in between, then a message 3, and what
  // the access point put in it.
  datatype Exchange = Exchange(
    snonce: C.Nonce, attempts: seq<A.Attempt>, k3: E.KeyFrame, version: byte, padding: seq<byte>,
    plain: seq<byte>, others: seq<seq<byte>>, fill: seq<byte>)

  ghost predicate Fair(c: C.Primitives, ap: A.Ap, x: Exchange) {
    && C.Lawful(c) && A.Sound(ap) && A.Retrying(ap, x.attempts) && A.LastMsg1(x.attempts).Some? && x.k3.Valid()
    && A.IsKeyData3(ap, x.plain, x.others, x.fill)
    && A.Follows3(c, ap, x.snonce, A.LastMsg1(x.attempts).value.k, x.k3, x.version, x.plain)
  }

  // The pairwise key the access point derives in it.
  function PtkIn(c: C.Primitives, ap: A.Ap, x: Exchange): C.Ptk
    requires A.Sound(ap) && A.LastMsg1(x.attempts).Some?
  {
    A.ApPtk(c, ap, A.LastMsg1(x.attempts).value.k.nonce, x.snonce)
  }

  predicate Carries(h: Happening, input: Input) {
    (h.Polled? && h.input == input) || (h.Fires? && input == Timer(h.timer))
  }

  predicate At(r: Run, k: nat, input: Input) {
    k < |r.happenings| && Carries(r.happenings[k], input)
  }

  function AttemptInput(a: A.Attempt): Input {
    if a.Lull? || !a.k.Valid() then Timer(HandshakeRetry) else Delivery(A.InputOf(a))
  }

  // From `k` on: every message of the exchange in order, and a lease.
  ghost predicate Shakes(r: Run, k: nat, x: Exchange, lease: Y.Lease)
    requires x.k3.Valid()
  {
    var m := |x.attempts|;
    && (forall i :: 0 <= i < m ==> At(r, k + i, AttemptInput(x.attempts[i])))
    && At(r, k + m, Delivery(A.Wire(x.k3, x.version, x.padding)))
    && At(r, k + 1 + m, Leased(Acquired(lease)))
  }

  // The association reported, with a nonce to be had, and all of that.
  ghost predicate Proceeds(r: Run, k: nat, x: Exchange, lease: Y.Lease)
    requires x.k3.Valid()
  {
    && At(r, k, Wireless(Answered(Joined))) && r.happenings[k].Polled? && r.happenings[k].drawn.snonce == Some(x.snonce)
    && Shakes(r, k + 1, x, lease)
  }

  // Connected to that BSS with the keys of its access point, and the lease.
  ghost predicate ConnectedBy(r: Run, k: nat, bss: Bss, n: Negotiated, ptk: C.Ptk, gtk: E.Gtk, lease: Y.Lease) {
    && 0 < k < |r.outputs| && k + 1 < |r.states|
    && Keys(r.outputs[k - 1], bss, n, ptk, gtk)
    && On(r.states[k + 1], Connected, bss) && ApplyLease(lease) in r.outputs[k]
  }

  lemma Stepping(env: Surroundings, device: Device, profiles: seq<Profile>, r: Run, k: nat, input: Input) returns (drawn: Drawn)
    requires IsRun(env, device, profiles, r) && At(r, k, input)
    ensures Poll(env, drawn, r.states[k], input) == Turn(r.states[k + 1], r.outputs[k])
    ensures r.happenings[k].Polled? ==> drawn == r.happenings[k].drawn
  {
    hide Poll;
    assert StepOf(env, r, k);
    drawn := r.happenings[k].drawn;
  }

  lemma {:induction false} AttemptsKeepShaking(env: Surroundings, device: Device, profiles: seq<Profile>, r: Run, k: nat,
                                               bss: Bss, n: Negotiated, ap: A.Ap, snonce: C.Nonce, attempts: seq<A.Attempt>)
    requires IsRun(env, device, profiles, r) && k < |r.states| && Shaking(r.states[k], bss, n, A.StationOf(ap, snonce))
    requires A.Sound(ap) && A.Retrying(ap, attempts)
    requires forall i :: 0 <= i < |attempts| ==> At(r, k + i, AttemptInput(attempts[i]))
    ensures k + |attempts| < |r.states| && (A.LastMsg1(attempts).Some? ==> A.IsMsg1(ap, A.LastMsg1(attempts).value.k))
    ensures Shaking(r.states[k + |attempts|], bss, n, A.Waiting(env.c, ap, snonce, attempts))
  {
    hide Poll, H.Poll, Shaking, A.IsMsg1, A.Lulls, A.GoesOn, StepOf, A.StationOf;
    A.RetryingIsValid(ap, attempts);
    if attempts == [] {
    } else {
      var m := |attempts| - 1;
      AttemptsKeepShaking(env, device, profiles, r, k, bss, n, ap, snonce, attempts[..m]);
      A.AttemptAnswered(env.c, ap, snonce, attempts);
      assert At(r, k + m, AttemptInput(attempts[m]));
      var drawn := Stepping(env, device, profiles, r, k + m, AttemptInput(attempts[m]));
      AttemptIsForTheKeyLayer(attempts[m]);
      HandshakeGoesOn(env, drawn, r.states[k + m], bss, n, A.Waiting(env.c, ap, snonce, attempts[..m]), A.InputOf(attempts[m]));
    }
  }

  lemma AttemptIsForTheKeyLayer(a: A.Attempt)
    requires a.Msg1? ==> a.k.Valid()
    ensures KeyInput(A.InputOf(a)) && AttemptInput(a) == Delivery(A.InputOf(a))
  {
    hide E.ParseEapol, A.Wire, E.KeyFrame.Valid;
    if a.Msg1? { A.WireParses(a.k, a.version, a.padding); }
  }

  lemma Msg3Completes(c: C.Primitives, ap: A.Ap, x: Exchange)
    requires Fair(c, ap, x) && A.IsMsg1(ap, A.LastMsg1(x.attempts).value.k)
    ensures var result := H.Poll(c, A.Waiting(c, ap, x.snonce, x.attempts), A.Wire(x.k3, x.version, x.padding)).result;
            && result.Ok? && |result.value| == 3 && result.value[0].Send? && result.value[1] == H.DisarmTimer
            && result.value[2] == H.Complete(PtkIn(c, ap, x), ap.gtk)
    ensures KeyInput(A.Wire(x.k3, x.version, x.padding))
  {
    hide E.ParseEapol, E.KeyFrame.Has, E.KeyFrame.Counter, A.IsMsg1, A.IsKeyData3, A.Protected, C.DerivePtk, C.HashOf, H.Poll,
      E.EncodeKey, H.SignedReply;
    A.WireParses(x.k3, x.version, x.padding);
    var last := A.LastMsg1(x.attempts).value;
    var m := A.Waiting(c, ap, x.snonce, x.attempts);
    A.Msg3Answered(c, ap, m, x.k3, x.version, x.padding, x.plain, x.others, x.fill);
  }

  lemma FairRetries(c: C.Primitives, ap: A.Ap, x: Exchange)
    requires Fair(c, ap, x)
    ensures A.Sound(ap) && A.Retrying(ap, x.attempts) && A.LastMsg1(x.attempts).Some? && x.k3.Valid()
  {
  }

  // A handshake begun under the access point's own PMK becomes a connection
  // under its keys.
  lemma HandshakeConnects(env: Surroundings, device: Device, profiles: seq<Profile>, r: Run, k: nat, bss: Bss, n: Negotiated,
                          ap: A.Ap, x: Exchange, lease: Y.Lease)
    requires IsRun(env, device, profiles, r) && k < |r.states| && Shaking(r.states[k], bss, n, A.StationOf(ap, x.snonce))
    requires Fair(env.c, ap, x) && Shakes(r, k, x, lease)
    ensures ConnectedBy(r, k + 1 + |x.attempts|, bss, n, PtkIn(env.c, ap, x), ap.gtk, lease)
  {
    hide StepOf, Shaking, Keys, On, A.StationOf, A.Waiting, A.IsMsg1, A.Follows3, A.IsKeyData3, A.Retrying, AttemptInput,
      A.Wire, Delivery, A.Sound, C.Lawful, Poll, H.Poll, PtkIn, Fair;
    FairRetries(env.c, ap, x);
    var m := |x.attempts|;
    AttemptsKeepShaking(env, device, profiles, r, k, bss, n, ap, x.snonce, x.attempts);
    Msg3Completes(env.c, ap, x);
    var wire := A.Wire(x.k3, x.version, x.padding);
    var d1 := Stepping(env, device, profiles, r, k + m, Delivery(wire));
    assert wire.Frame? && Delivery(wire) == EapolFrame(wire.bytes) by { WireIsDelivered(x.k3, x.version, x.padding); }
    CompletionInstalls(env, d1, r.states[k + m], bss, n, A.Waiting(env.c, ap, x.snonce, x.attempts), wire.bytes,
                       PtkIn(env.c, ap, x), ap.gtk);
    var d2 := Stepping(env, device, profiles, r, k + 1 + m, Leased(Acquired(lease)));
    LeaseConnects(env, d2, r.states[k + 1 + m], bss, lease);
  }

  // So does an association asked for with that PMK in hand.
  lemma AssociationConnects(env: Surroundings, device: Device, profiles: seq<Profile>, r: Run, k: nat, bss: Bss, n: Negotiated,
                            ap: A.Ap, pmkid: Option<C.Block16>, x: Exchange, lease: Y.Lease)
    requires IsRun(env, device, profiles, r) && k < |r.states| && Requesting(r.states[k], bss, n, Ready(ap.pmk), pmkid)
    requires Shares(r.states[k], bss, n, pmkid, ap) && Fair(env.c, ap, x) && Proceeds(r, k, x, lease)
    ensures ConnectedBy(r, k + 2 + |x.attempts|, bss, n, PtkIn(env.c, ap, x), ap.gtk, lease)
  {
    hide StepOf, Requesting, Shares, Shaking, A.StationOf, Poll, PtkIn, Fair, Shakes, ConnectedBy;
    FairRetries(env.c, ap, x);
    var d0 := Stepping(env, device, profiles, r, k, Wireless(Answered(Joined)));
    JoinedShakes(env, d0, r.states[k], bss, n, ap, pmkid, x.snonce);
    HandshakeConnects(env, device, profiles, r, k + 1, bss, n, ap, x, lease);
  }

  lemma WireIsDelivered(k: E.KeyFrame, version: byte, padding: seq<byte>)
    requires k.Valid()
    ensures var wire := A.Wire(k, version, padding); wire.Frame? && Delivery(wire) == EapolFrame(wire.bytes)
  {
    hide E.EncodeKey;
  }

  // ---- a join with a passphrase ------------------------------------------------------------------

  // A network with a saved passphrase, and an access point of it that has the
  // same and goes through the exchange `x`.
  ghost predicate FacesPsk(env: Surroundings, c: Conn, ssid: seq<byte>, secret: seq<byte>, scan: seq<Bss>, bss: Bss, n: Negotiated,
                           ap: A.Ap, x: Exchange) {
    && Offers(env, c, ssid, Passphrase(secret), scan, bss, n) && ByPsk(c, n)
    && Shares(c, bss, n, None, ap) && ap.pmk == env.pbkdf2(secret, ssid) && Fair(env.c, ap, x)
  }

  // A join from the command on: a scan, the association, handshake and lease.
  ghost predicate PskJoin(r: Run, k: nat, ssid: seq<byte>, scan: seq<Bss>, x: Exchange, lease: Y.Lease) {
    x.k3.Valid() && At(r, k, Commanded(Connect(ssid))) && At(r, k + 1, ScanResults(scan)) && Proceeds(r, k + 2, x, lease)
  }

  predicate AsksAt(r: Run, k: nat, bss: Bss, n: Negotiated, pmkid: Option<C.Block16>) {
    k < |r.outputs| && Asks(r.outputs[k], bss, n, pmkid)
  }

  // A network with a saved passphrase is joined, from whatever the connection
  // was doing: told to connect, shown a scan with a BSS of it, and facing an
  // access point with the same passphrase, it asks for that BSS, installs the
  // keys of the access point, and takes the lease.
  lemma KnownNetworkIsJoined(env: Surroundings, device: Device, profiles: seq<Profile>, r: Run, k: nat,
                             ssid: seq<byte>, secret: seq<byte>, scan: seq<Bss>, bss: Bss, n: Negotiated,
                             ap: A.Ap, x: Exchange, lease: Y.Lease)
    requires IsRun(env, device, profiles, r) && k < |r.states| && FacesPsk(env, r.states[k], ssid, secret, scan, bss, n, ap, x)
    requires PskJoin(r, k, ssid, scan, x, lease)
    ensures AsksAt(r, k + 1, bss, n, None)
    ensures ConnectedBy(r, k + 4 + |x.attempts|, bss, n, PtkIn(env.c, ap, x), ap.gtk, lease)
  {
    hide StepOf, Requesting, Keys, On, A.Follows3, A.IsKeyData3, A.Retrying, AttemptInput, Asks, Seeking, Fair, Proceeds, ConnectedBy,
      A.Wire, Delivery, A.Sound, C.Lawful, Poll, H.Poll, PtkIn, Distinct, BestBss, Negotiate, SecurityOf, Accepts;
    var d0 := Stepping(env, device, profiles, r, k, Commanded(Connect(ssid)));
    ConnectSeeks(env, d0, r.states[k], ssid);
    var d1 := Stepping(env, device, profiles, r, k + 1, ScanResults(scan));
    DecidesByPsk(env, d1, r.states[k + 1], ssid, secret, scan, bss, n);
    ScanRequests(env, d1, r.states[k + 1], ssid, Passphrase(secret), scan, bss, n, Ready(ap.pmk));
    AssociationConnects(env, device, profiles, r, k + 2, bss, n, ap, None, x, lease);
  }
}
