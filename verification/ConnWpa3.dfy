// A whole join of a WPA3 network: SAE with the access point before the
// association, then its handshake under the PMK they agreed on
// (crates/caw-core/src/conn.rs:554-1176; crates/caw-crypto/src/sae.rs).

module ConnWpa3 {
  import opened Bytes
  import opened Suites
  import opened Policy
  import opened Connection
  import opened ConnRuns
  import opened ConnJoins
  import A = Authenticator
  import C = Crypto
  import G = SaeAgreement
  import S = SaeExchange
  import Y = DhcpClient

  // SAE is run here, not by the device.
  predicate BySae(c: Conn, n: Negotiated) {
    n.akm.Sae? && !c.device.caps.offloadsSae
  }

  function StationContext(c: Conn, ssid: seq<byte>, bss: Bss): S.Context {
    S.Context(ssid, bss.bssid, c.device.mac, Sae)
  }

  // In SAE with that BSS, as far as `p`.
  predicate Proving(c: Conn, ssid: seq<byte>, bss: Bss, n: Negotiated, p: S.Provider) {
    && c.state == Authenticating && c.target.Some? && c.target.value.ssid == ssid && c.session.Some?
    && var s := c.session.value;
       && s.auth == PreAssoc(p) && s.handshake.None? && !s.choice.roaming
       && s.choice.bssid == bss.bssid && s.choice.rsn == Some(n)
  }

  lemma DecidesToProve(env: Surroundings, drawn: Drawn, c: Conn, ssid: seq<byte>, secret: seq<byte>, scan: seq<Bss>, bss: Bss, n: Negotiated)
    requires Seeking(c, ssid) && Offers(env, c, ssid, Passphrase(secret), scan, bss, n) && BySae(c, n)
    ensures var d := Decide(env, drawn, c, bss, false);
            && d.Go? && d.session.auth == PreAssoc(S.WithSeed(secret, drawn.seed)) && d.session.handshake.None?
            && !d.session.choice.roaming
            && d.session.choice.bssid == bss.bssid && d.session.choice.rsn == Some(n)
  {
    hide ProfileFor, Negotiate, Accepts, BestBss, Distinct, SecurityOf;
  }

  // A frame of the exchange handed to the kernel, which writes its first field.
  predicate Says(out: seq<Action>, bss: Bss, frame: seq<byte>)
    requires |frame| >= 2
  {
    exists i :: 0 <= i < |out| && out[i].Authenticate? && out[i].auth.bssid == bss.bssid && out[i].auth.data == frame[2..]
  }

  lemma SendSays(t: Turn, frame: seq<byte>, bss: Bss)
    requires t.c.target.Some? && t.c.session.Some? && t.c.session.value.choice.bssid == bss.bssid && |frame| >= 6
    ensures var u := OnSaeStep(t, Ok(S.Send(frame)));
            u.c == t.c.(armed := u.c.armed) && Says(u.out, bss, frame)
  {
    var u := OnSaeStep(t, Ok(S.Send(frame)));
    assert u.out[|u.out| - 2].Authenticate?;
  }

  lemma ProofStarts(env: Surroundings, t: Turn, ssid: seq<byte>, bss: Bss, n: Negotiated, p: S.Provider)
    requires env.Valid() && t.c.target.Some? && t.c.target.value.ssid == ssid && t.c.session.Some? && n.akm.Sae?
    requires var s := t.c.session.value;
             s.auth == PreAssoc(p) && s.handshake.None? && !s.choice.roaming && s.choice.bssid == bss.bssid && s.choice.rsn == Some(n)
    requires var r := S.Start(env.g, p, StationContext(t.c, ssid, bss)).result; r.Ok? && r.value.Send? && |r.value.frame| >= 6
    ensures var u := StartSae(env, t);
            var o := S.Start(env.g, p, StationContext(t.c, ssid, bss));
            Proving(u.c, ssid, bss, n, o.next) && u.c.device == t.c.device && Says(u.out, bss, o.result.value.frame)
  {
    hide S.Start, S.OnFrame, S.OnTimeout, Fail, SendAssociation, OnSaeStep, Says;
    var o := S.Start(env.g, p, StationContext(t.c, ssid, bss));
    var u := Enter(t, Authenticating);
    SendSays(u.(c := u.c.(session := Some(t.c.session.value.(auth := PreAssoc(o.next))))), o.result.value.frame, bss);
  }

  lemma ScanProves(env: Surroundings, drawn: Drawn, c: Conn, ssid: seq<byte>, secret: seq<byte>, scan: seq<Bss>, bss: Bss, n: Negotiated)
    requires env.Valid() && Seeking(c, ssid) && Offers(env, c, ssid, Passphrase(secret), scan, bss, n) && BySae(c, n)
    requires var r := S.Start(env.g, S.WithSeed(secret, drawn.seed), StationContext(c, ssid, bss)).result;
             r.Ok? && r.value.Send? && |r.value.frame| >= 6
    ensures var t := Poll(env, drawn, c, ScanResults(scan));
            var o := S.Start(env.g, S.WithSeed(secret, drawn.seed), StationContext(c, ssid, bss));
            Proving(t.c, ssid, bss, n, o.next) && t.c.device == c.device && Says(t.out, bss, o.result.value.frame)
  {
    hide Says, Decide, SendAssociation, Distinct, Negotiate, ProfileFor, Accepts, SecurityOf, StartSae, Strongest, Filter, S.Start, Proving;
    FoundWhenDistinct(scan, bss);
    DecidesToProve(env, drawn, c, ssid, secret, scan, bss, n);
    var session := Decide(env, drawn, c, bss, false).session;
    ProofStarts(env, Turn(c.(session := Some(session)), []), ssid, bss, n, S.WithSeed(secret, drawn.seed));
  }

  // An authentication frame of that BSS, saying `body`.
  predicate FromBss(frame: seq<byte>, bss: Bss, body: seq<byte>) {
    |frame| >= MGMT_HEADER_LEN && frame[0] == FC_AUTH && frame[10..16] == bss.bssid && frame[MGMT_HEADER_LEN..] == body
  }

  // A frame answered with another leaves the exchange one step on; the one that
  // settles it leads to the association.
  lemma ProofGoesOn(env: Surroundings, drawn: Drawn, c: Conn, ssid: seq<byte>, bss: Bss, n: Negotiated, p: S.Provider,
                    frame: seq<byte>, body: seq<byte>)
    requires env.Valid() && Proving(c, ssid, bss, n, p) && FromBss(frame, bss, body)
    requires var r := S.OnFrame(env.g, p, body).result; r.Ok? && (r.value.Send? ==> |r.value.frame| >= 6) && !r.value.Wait?
    ensures var t, o := Poll(env, drawn, c, Wireless(AuthFrame(frame))), S.OnFrame(env.g, p, body);
            && t.c.device == c.device
            && (o.result.value.Send? ==> Proving(t.c, ssid, bss, n, o.next) && Says(t.out, bss, o.result.value.frame))
            && (o.result.value.Done? ==>
                  Requesting(t.c, bss, n, Ready(o.result.value.pmk), o.next.pmkid) && Asks(t.out, bss, n, o.next.pmkid))
  {
    hide S.Start, S.OnFrame, S.OnTimeout, Fail, SendAssociation, Requesting, Asks, Elements, OnAssociated, Says;
    var s := c.session.value;
    var o := S.OnFrame(env.g, p, body);
    if o.result.value.Send? {
      SendSays(Turn(c.(session := Some(s.(auth := PreAssoc(o.next)))), []), o.result.value.frame, bss);
    }
    if o.result.value.Done? {
      var u := Turn(c.(session := Some(s.(pmkid := o.next.pmkid, auth := Ready(o.result.value.pmk)))), []);
      RequestGoes(u, bss, n, Ready(o.result.value.pmk), o.next.pmkid);
    }
  }

  // ---- the run -------------------------------------------------------------------------------

  // The two ends of an SAE exchange: the provider of the station, and the access
  // point's own, asked for tokens and heard in full.
  datatype Proof = Proof(ap: S.Context, seedA: S.Seed, seedB: S.Seed, tokensA: seq<S.Token>, tokensB: seq<S.Token>, ra: S.Run, rb: S.Run)

  ghost predicate SaeWith(g: S.Curve, a: S.Context, secret: seq<byte>, q: Proof) {
    && G.Lawful(g) && S.Sized(g) && G.Usable(g, a.ssid, secret) && G.Peers(a, q.ap) && a.akm == Sae && q.ap.akm == Sae
    && G.Exchange(g, q.ra, q.rb, a, q.ap, secret, q.seedA, q.seedB, q.tokensA, q.tokensB)
    && G.Takes(q.ra.states[|q.tokensA| + 1], q.rb.states[|q.tokensB| + 1])
  }

  // The access point has come to this PMK and PMKID.
  predicate Settled(q: Proof, pmk: S.Block32, pmkid: Option<C.Block16>) {
    var n := |q.tokensB| + 2;
    n < |q.rb.results| && n + 1 < |q.rb.states| && q.rb.results[n] == Ok(S.Done(pmk)) && q.rb.states[n + 1].pmkid == pmkid
  }

  // Each step of the exchange, up to the station's confirm.
  lemma ProofAt(g: S.Curve, a: S.Context, secret: seq<byte>, q: Proof, i: nat)
    requires SaeWith(g, a, secret, q) && i <= |q.tokensA| + 1
    ensures i + 1 < |q.ra.inputs| == |q.ra.results| && i + 1 < |q.ra.states|
    ensures q.ra.results[i].Ok? && q.ra.results[i].value.Send? && |q.ra.results[i].value.frame| >= 6
    ensures if i == 0 then S.Start(g, S.WithSeed(secret, q.seedA), a) == S.Outcome(q.ra.states[1], q.ra.results[0])
            else q.ra.inputs[i].Frame? && S.OnFrame(g, q.ra.states[i], q.ra.inputs[i].bytes) == S.Outcome(q.ra.states[i + 1], q.ra.results[i])
  {
    hide S.Start, S.OnFrame, S.CommitOf, G.Lawful, G.Usable, G.Acceptable, S.Sized, G.Peers, G.Heard;
    G.EveryFrameIsAnswered(g, q.ra, q.rb, a, q.ap, secret, q.seedA, q.seedB, q.tokensA, q.tokensB, i);
    assert S.StepOf(g, q.ra, i);
    if 0 < i <= |q.tokensA| {
      assert q.ra.inputs[1 + (i - 1)] == S.Frame(G.TokenRequest(q.tokensA[i - 1]));
    }
  }

  lemma ProofEnds(g: S.Curve, a: S.Context, secret: seq<byte>, q: Proof, pmk: S.Block32, pmkid: Option<C.Block16>)
    requires SaeWith(g, a, secret, q) && Settled(q, pmk, pmkid)
    ensures var n := |q.tokensA| + 2;
            && n < |q.ra.inputs| && n + 1 < |q.ra.states| && q.ra.inputs[n].Frame?
            && S.OnFrame(g, q.ra.states[n], q.ra.inputs[n].bytes) == S.Outcome(q.ra.states[n + 1], Ok(S.Done(pmk)))
            && q.ra.states[n + 1].pmkid == pmkid
  {
    hide S.OnFrame, S.CommitOf, G.Lawful, G.Usable, G.Acceptable, S.Sized, G.Peers, G.Heard;
    G.BothEndsAgree(g, q.ra, q.rb, a, q.ap, secret, q.seedA, q.seedB, q.tokensA, q.tokensB);
    assert S.StepOf(g, q.ra, |q.tokensA| + 2);
  }

  // A WPA3 join from the command on: a scan, every frame the station's provider
  // is to hear from that BSS, and then the association, handshake and lease.
  ghost predicate Wpa3Join(r: Run, k: nat, ssid: seq<byte>, scan: seq<Bss>, bss: Bss, q: Proof, x: Exchange, lease: Y.Lease) {
    && x.k3.Valid() && |q.ra.inputs| == |q.tokensA| + 3
    && At(r, k, Commanded(Connect(ssid)))
    && At(r, k + 1, ScanResults(scan)) && r.happenings[k + 1].Polled? && r.happenings[k + 1].drawn.seed == q.seedA
    && (forall i :: 1 <= i < |q.ra.inputs| ==> Hears(r, k + 1 + i, bss, q.ra.inputs[i]))
    && Proceeds(r, k + 4 + |q.tokensA|, x, lease)
  }

  predicate Hears(r: Run, k: nat, bss: Bss, input: S.Input) {
    && k < |r.happenings| && r.happenings[k].Polled? && r.happenings[k].input.Wireless?
    && r.happenings[k].input.event.AuthFrame? && input.Frame?
    && FromBss(r.happenings[k].input.event.frame, bss, input.bytes)
  }

  predicate SaysAt(r: Run, k: nat, bss: Bss, result: S.Stepped) {
    && k < |r.outputs| && result.Ok? && result.value.Send? && |result.value.frame| >= 2
    && Says(r.outputs[k], bss, result.value.frame)
  }

  // The connection goes through the exchange as its provider would on its own,
  // and says on the air each frame the provider says.
  lemma {:induction false} ProofFollows(env: Surroundings, device: Device, profiles: seq<Profile>, r: Run, k: nat,
      ssid: seq<byte>, secret: seq<byte>, scan: seq<Bss>, bss: Bss, n: Negotiated, q: Proof, x: Exchange, lease: Y.Lease, i: nat)
    requires IsRun(env, device, profiles, r) && k < |r.states| && Offers(env, r.states[k], ssid, Passphrase(secret), scan, bss, n) && BySae(r.states[k], n)
    requires SaeWith(env.g, StationContext(r.states[k], ssid, bss), secret, q)
    requires Wpa3Join(r, k, ssid, scan, bss, q, x, lease) && i <= |q.tokensA| + 1
    ensures k + 2 + i < |r.states| && i + 1 < |q.ra.states| && i < |q.ra.results|
    ensures r.states[k + 2 + i].device == r.states[k].device && Proving(r.states[k + 2 + i], ssid, bss, n, q.ra.states[i + 1])
    ensures SaysAt(r, k + 1 + i, bss, q.ra.results[i])
  {
    hide Poll, StepOf, Proving, SaeWith, Proceeds, FromBss, Says, S.Start, S.OnFrame, Distinct, BestBss, Negotiate, SecurityOf, Accepts, ProfileFor;
    var a := StationContext(r.states[k], ssid, bss);
    ProofAt(env.g, a, secret, q, i);
    if i == 0 {
      var d0 := Stepping(env, device, profiles, r, k, Commanded(Connect(ssid)));
      ConnectSeeks(env, d0, r.states[k], ssid);
      var d1 := Stepping(env, device, profiles, r, k + 1, ScanResults(scan));
      ScanProves(env, d1, r.states[k + 1], ssid, secret, scan, bss, n);
    } else {
      ProofFollows(env, device, profiles, r, k, ssid, secret, scan, bss, n, q, x, lease, i - 1);
      var at := k + 1 + i;
      assert Hears(r, at, bss, q.ra.inputs[i]);
      var frame := r.happenings[at].input.event.frame;
      var d := Stepping(env, device, profiles, r, at, Wireless(AuthFrame(frame)));
      ProofGoesOn(env, d, r.states[at], ssid, bss, n, q.ra.states[i], frame, q.ra.inputs[i].bytes);
    }
  }

  lemma SharesStill(c: Conn, d: Conn, bss: Bss, n: Negotiated, pmkid: Option<C.Block16>, ap: A.Ap)
    requires Shares(c, bss, n, pmkid, ap) && d.device == c.device
    ensures Shares(d, bss, n, pmkid, ap)
  {
  }

  // A network with a saved passphrase, and an access point of it that has the
  // same, proves it in `q` and goes through the exchange `x`.
  ghost predicate FacesSae(env: Surroundings, c: Conn, ssid: seq<byte>, secret: seq<byte>, scan: seq<Bss>, bss: Bss, n: Negotiated,
                           q: Proof, ap: A.Ap, pmkid: Option<C.Block16>, x: Exchange) {
    && Offers(env, c, ssid, Passphrase(secret), scan, bss, n) && BySae(c, n)
    && SaeWith(env.g, StationContext(c, ssid, bss), secret, q) && |ap.pmk| == 32 && Settled(q, ap.pmk, pmkid)
    && Shares(c, bss, n, pmkid, ap) && Fair(env.c, ap, x)
  }

  // A WPA3 network is joined, from whatever the connection was doing. Facing an
  // access point with the password, its association names the PMKID both ends
  // came to, and the keys installed are those the access point derives from the
  // PMK of its own end.
  lemma Wpa3NetworkIsJoined(env: Surroundings, device: Device, profiles: seq<Profile>, r: Run, k: nat,
      ssid: seq<byte>, secret: seq<byte>, scan: seq<Bss>, bss: Bss, n: Negotiated, q: Proof,
      ap: A.Ap, pmkid: Option<C.Block16>, x: Exchange, lease: Y.Lease)
    requires IsRun(env, device, profiles, r) && k < |r.states|
    requires FacesSae(env, r.states[k], ssid, secret, scan, bss, n, q, ap, pmkid, x) && Wpa3Join(r, k, ssid, scan, bss, q, x, lease)
    ensures AsksAt(r, k + 3 + |q.tokensA|, bss, n, pmkid)
    ensures ConnectedBy(r, k + 6 + |q.tokensA| + |x.attempts|, bss, n, PtkIn(env.c, ap, x), ap.gtk, lease)
  {
    hide Poll, StepOf, Proving, SaeWith, Proceeds, FromBss, Says, S.OnFrame, Requesting, Asks, ConnectedBy, Fair, PtkIn, Offers, BySae,
      Shares, Settled, SaysAt, StationContext;
    var na := |q.tokensA|;
    var a := StationContext(r.states[k], ssid, bss);
    ProofFollows(env, device, profiles, r, k, ssid, secret, scan, bss, n, q, x, lease, na + 1);
    ProofEnds(env.g, a, secret, q, ap.pmk, pmkid);
    var at := k + 3 + na;
    assert Hears(r, at, bss, q.ra.inputs[na + 2]);
    var frame := r.happenings[at].input.event.frame;
    var d := Stepping(env, device, profiles, r, at, Wireless(AuthFrame(frame)));
    ProofGoesOn(env, d, r.states[at], ssid, bss, n, q.ra.states[na + 2], frame, q.ra.inputs[na + 2].bytes);
    SharesStill(r.states[k], r.states[at + 1], bss, n, pmkid, ap);
    AssociationConnects(env, device, profiles, r, at + 1, bss, n, ap, pmkid, x, lease);
  }
}
