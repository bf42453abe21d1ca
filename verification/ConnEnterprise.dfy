// A whole join of an enterprise network: 802.1X over the association, then the
// handshake under the PMK of the method
// (crates/caw-core/src/conn.rs:554-1176; crates/caw-eapol/src/eap/dot1x.rs).

module ConnEnterprise {
  import opened Bytes
  import opened Suites
  import opened Policy
  import opened Connection
  import opened ConnRuns
  import opened ConnJoins
  import A = Authenticator
  import C = Crypto
  import D = Dot1x
  import E = Eapol
  import Y = DhcpClient

  // What the files of an account make: its outer identity, and its method as
  // it starts.
  datatype Account = Account(account: nat, identity: D.TypeData, inner: nat)

  function Began(a: Account): D.Provider<nat> {
    D.NewProvider(a.identity, a.inner)
  }

  lemma DecidesByMethod(env: Surroundings, drawn: Drawn, c: Conn, ssid: seq<byte>, a: Account, scan: seq<Bss>, bss: Bss, n: Negotiated)
    requires Seeking(c, ssid) && Offers(env, c, ssid, Enterprise(a.account), scan, bss, n)
    requires n.akm.IsEnterprise() && env.enterpriseBuild && drawn.account == Some((a.identity, a.inner))
    ensures GoesWith(Decide(env, drawn, c, bss, false), bss, n, PostAssoc(a.account, Began(a)))
  {
    hide ProfileFor, Negotiate, Accepts, BestBss, Distinct, SecurityOf;
  }

  // In 802.1X over the association, as far as `p`.
  predicate Conversing(c: Conn, bss: Bss, n: Negotiated, account: nat, p: D.Provider<nat>) {
    && c.state == Handshaking && c.target.Some? && c.session.Some?
    && var s := c.session.value;
       && s.auth == PostAssoc(account, p) && s.handshake.None? && !s.choice.roaming
       && s.choice.bssid == bss.bssid && s.choice.rsn == Some(n)
       && s.assocIe == Elements(n, None, false)
  }

  lemma JoinedConverses(env: Surroundings, drawn: Drawn, c: Conn, bss: Bss, n: Negotiated, account: nat, p: D.Provider<nat>)
    requires env.Valid() && Requesting(c, bss, n, PostAssoc(account, p), None)
    ensures var t := Poll(env, drawn, c, Wireless(Answered(Joined)));
            Conversing(t.c, bss, n, account, p) && t.c.device == c.device
  {
    hide Elements, D.OnFrame, StartHandshake, Fail;
  }

  predicate IsEap(frame: seq<byte>) {
    E.ParseEapol(frame).Ok? && E.ParseEapol(frame).value.packetType == E.EapPacketType
  }

  lemma DeliveredToMethod(env: Surroundings, drawn: Drawn, c: Conn, frame: seq<byte>)
    requires env.Valid() && c.state == Handshaking && IsEap(frame)
    ensures Poll(env, drawn, c, EapolFrame(frame)) == DriveDot1x(env, drawn, Turn(c, []), Some(frame))
  {
    hide DriveHandshake, DriveDot1x, E.ParseEapol;
  }

  // A frame that does not settle it leaves the conversation one step on, its
  // answer sent; the one that does begins a handshake under its PMK.
  lemma ConverseGoesOn(env: Surroundings, drawn: Drawn, c: Conn, bss: Bss, n: Negotiated, account: nat, p: D.Provider<nat>, frame: seq<byte>)
    requires env.Valid() && Conversing(c, bss, n, account, p) && IsEap(frame)
    requires var r := D.OnFrame(env.methods(account), p, frame).result; r.Ok? && !r.value.Done?
    ensures var t, o := Poll(env, drawn, c, EapolFrame(frame)), D.OnFrame(env.methods(account), p, frame);
            && Conversing(t.c, bss, n, account, o.next) && t.c.device == c.device
            && (o.result.value.Send? ==> t.out == [SendEapol(o.result.value.frame)])
  {
    hide Poll, IsEap, D.OnFrame, StartHandshake, Fail, Elements;
    DeliveredToMethod(env, drawn, c, frame);
  }

  lemma ConverseEnds(env: Surroundings, drawn: Drawn, c: Conn, bss: Bss, n: Negotiated, account: nat, p: D.Provider<nat>, frame: seq<byte>,
                     ap: A.Ap, snonce: C.Nonce)
    requires env.Valid() && Conversing(c, bss, n, account, p) && IsEap(frame)
    requires |ap.pmk| == 32 && D.OnFrame(env.methods(account), p, frame).result == Ok(D.Done(ap.pmk))
    requires drawn.snonce == Some(snonce) && Shares(c, bss, n, None, ap)
    ensures Shaking(Poll(env, drawn, c, EapolFrame(frame)).c, bss, n, A.StationOf(ap, snonce))
  {
    hide Poll, IsEap, D.OnFrame, Fail, Elements, A.Sound;
    DeliveredToMethod(env, drawn, c, frame);
  }

  // ---- the run -------------------------------------------------------------------------------

  // 802.1X between the provider of the station and its authenticator, as a run
  // of the provider: frames only, none refused, and the PMK at the last.
  ghost predicate Converses(em: D.EapMethod<nat>, a: Account, q: D.Run<nat>, pmk: seq<byte>) {
    && D.IsRun(em, q) && q.inputs != [] && q.states[0] == Began(a)
    && (forall i :: 0 <= i < |q.inputs| ==> Accepted(q, i))
    && D.DoneAt(q, |q.inputs| - 1) && q.results[|q.inputs| - 1].value.pmk == pmk
  }

  predicate Accepted(q: D.Run<nat>, i: nat)
    requires i < |q.inputs| == |q.results|
  {
    q.inputs[i].Frame? && IsEap(q.inputs[i].bytes) && q.results[i].Ok?
  }

  lemma NotDoneBefore(em: D.EapMethod<nat>, a: Account, q: D.Run<nat>, pmk: seq<byte>, i: nat)
    requires Converses(em, a, q, pmk) && i + 1 < |q.inputs|
    ensures !D.DoneAt(q, i)
  {
    hide D.StepOf, Accepted;
    if D.DoneAt(q, i) { D.PmkAtMostOnce(em, q, i, |q.inputs| - 1); }
  }

  // Every frame of the conversation, a nonce at its end, and the handshake.
  ghost predicate Settles(r: Run, k: nat, q: D.Run<nat>, x: Exchange, lease: Y.Lease) {
    && x.k3.Valid() && q.inputs != []
    && (forall i :: 0 <= i < |q.inputs| ==> Brings(r, k + i, q.inputs[i]))
    && k + |q.inputs| <= |r.happenings| && r.happenings[k + |q.inputs| - 1].Polled?
    && r.happenings[k + |q.inputs| - 1].drawn.snonce == Some(x.snonce)
    && Shakes(r, k + |q.inputs|, x, lease)
  }

  // An enterprise join from the command on: a scan, for which the files of the
  // account are read, the association reported, and all of that.
  ghost predicate EnterpriseJoin(r: Run, k: nat, ssid: seq<byte>, scan: seq<Bss>, a: Account, q: D.Run<nat>, x: Exchange, lease: Y.Lease) {
    && At(r, k, Commanded(Connect(ssid)))
    && At(r, k + 1, ScanResults(scan)) && r.happenings[k + 1].Polled? && r.happenings[k + 1].drawn.account == Some((a.identity, a.inner))
    && At(r, k + 2, Wireless(Answered(Joined)))
    && Settles(r, k + 3, q, x, lease)
  }

  predicate Brings(r: Run, k: nat, input: D.Input) {
    k < |r.happenings| && r.happenings[k].Polled? && input.Frame? && r.happenings[k].input == EapolFrame(input.bytes)
  }

  // What the provider answers, the connection sends.
  predicate RepliesAt(r: Run, k: nat, result: Result<D.Step, E.EapolError>) {
    k < |r.outputs| && (result.Ok? && result.value.Send? ==> r.outputs[k] == [SendEapol(result.value.frame)])
  }

  lemma {:induction false} ConversationFollows(env: Surroundings, device: Device, profiles: seq<Profile>, r: Run, k: nat, bss: Bss, n: Negotiated,
                                               a: Account, q: D.Run<nat>, pmk: seq<byte>, i: nat)
    requires IsRun(env, device, profiles, r) && k < |r.states| && Conversing(r.states[k], bss, n, a.account, Began(a))
    requires Converses(env.methods(a.account), a, q, pmk) && i < |q.inputs|
    requires forall j :: 0 <= j < |q.inputs| ==> Brings(r, k + j, q.inputs[j])
    ensures k + i < |r.states| && r.states[k + i].device == r.states[k].device
    ensures Conversing(r.states[k + i], bss, n, a.account, q.states[i])
    ensures i > 0 ==> RepliesAt(r, k + i - 1, q.results[i - 1])
  {
    hide Poll, StepOf, Conversing, IsEap, D.OnFrame, Began;
    if i > 0 {
      var em, j := env.methods(a.account), i - 1;
      ConversationFollows(env, device, profiles, r, k, bss, n, a, q, pmk, j);
      NotDoneBefore(em, a, q, pmk, j);
      assert Brings(r, k + j, q.inputs[j]) && Accepted(q, j) && D.StepOf(em, q, j);
      var frame := q.inputs[j].bytes;
      var d := Stepping(env, device, profiles, r, k + j, EapolFrame(frame));
      ConverseGoesOn(env, d, r.states[k + j], bss, n, a.account, q.states[j], frame);
    }
  }

  lemma SharesStill(c: Conn, d: Conn, bss: Bss, n: Negotiated, ap: A.Ap)
    requires Shares(c, bss, n, None, ap) && d.device == c.device
    ensures Shares(d, bss, n, None, ap)
  {
  }

  // The conversation settled, its PMK is the first half of the key the method
  // has produced.
  lemma PmkIsTheMethods(em: D.EapMethod<nat>, a: Account, q: D.Run<nat>, pmk: seq<byte>)
    requires Converses(em, a, q, pmk)
    ensures |q.states| == |q.inputs| + 1
    ensures var msk := em.msk(q.states[|q.inputs| - 1].inner); msk.Some? && pmk == D.PmkOfMsk(msk.value)
    ensures var last := q.inputs[|q.inputs| - 1]; last.Frame? && D.OnFrame(em, q.states[|q.inputs| - 1], last.bytes).result == Ok(D.Done(pmk))
  {
    hide D.OnFrame, IsEap;
    var m := |q.inputs| - 1;
    assert D.StepOf(em, q, m) && Accepted(q, m);
    D.PmkOnlyFromMethod(em, q.states[m], q.inputs[m].bytes);
  }

  // An association made for 802.1X becomes, through the conversation, a
  // connection under the keys of an access point that was handed its PMK.
  lemma ConversationConnects(env: Surroundings, device: Device, profiles: seq<Profile>, r: Run, k: nat, bss: Bss, n: Negotiated,
                             a: Account, q: D.Run<nat>, ap: A.Ap, x: Exchange, lease: Y.Lease)
    requires IsRun(env, device, profiles, r) && k < |r.states| && Conversing(r.states[k], bss, n, a.account, Began(a))
    requires Converses(env.methods(a.account), a, q, ap.pmk) && Shares(r.states[k], bss, n, None, ap) && Fair(env.c, ap, x)
    requires Settles(r, k, q, x, lease)
    ensures ConnectedBy(r, k + |q.inputs| + 1 + |x.attempts|, bss, n, PtkIn(env.c, ap, x), ap.gtk, lease)
  {
    hide Poll, StepOf, Conversing, IsEap, D.OnFrame, D.StepOf, Began, Shares, Shaking, Fair, Shakes, ConnectedBy, PtkIn, A.StationOf;
    var m := |q.inputs| - 1;
    ConversationFollows(env, device, profiles, r, k, bss, n, a, q, ap.pmk, m);
    PmkIsTheMethods(env.methods(a.account), a, q, ap.pmk);
    assert Brings(r, k + m, q.inputs[m]) && Accepted(q, m);
    var frame := q.inputs[m].bytes;
    var d := Stepping(env, device, profiles, r, k + m, EapolFrame(frame));
    SharesStill(r.states[k], r.states[k + m], bss, n, ap);
    ConverseEnds(env, d, r.states[k + m], bss, n, a.account, q.states[m], frame, ap, x.snonce);
    HandshakeConnects(env, device, profiles, r, k + m + 1, bss, n, ap, x, lease);
  }

  // A network with a saved account, and an access point of it that is handed
  // the PMK of the conversation `q` and goes through the exchange `x`.
  ghost predicate FacesDot1x(env: Surroundings, c: Conn, ssid: seq<byte>, scan: seq<Bss>, bss: Bss, n: Negotiated,
                             a: Account, q: D.Run<nat>, ap: A.Ap, x: Exchange) {
    && Offers(env, c, ssid, Enterprise(a.account), scan, bss, n) && n.akm.IsEnterprise() && env.enterpriseBuild
    && Converses(env.methods(a.account), a, q, ap.pmk) && Shares(c, bss, n, None, ap) && Fair(env.c, ap, x)
  }

  // An enterprise network is joined, from whatever the connection was doing:
  // its association says what was negotiated, and once the method has produced
  // its key, the keys installed are those of the access point handed the PMK
  // made of it.
  lemma EnterpriseNetworkIsJoined(env: Surroundings, device: Device, profiles: seq<Profile>, r: Run, k: nat,
      ssid: seq<byte>, scan: seq<Bss>, bss: Bss, n: Negotiated, a: Account, q: D.Run<nat>, ap: A.Ap, x: Exchange, lease: Y.Lease)
    requires IsRun(env, device, profiles, r) && k < |r.states|
    requires FacesDot1x(env, r.states[k], ssid, scan, bss, n, a, q, ap, x) && EnterpriseJoin(r, k, ssid, scan, a, q, x, lease)
    ensures AsksAt(r, k + 1, bss, n, None)
    ensures ConnectedBy(r, k + 4 + |q.inputs| + |x.attempts|, bss, n, PtkIn(env.c, ap, x), ap.gtk, lease)
  {
    hide Poll, StepOf, Requesting, Conversing, Converses, Shares, Fair, Shakes, ConnectedBy, PtkIn, Asks, Seeking, GoesWith, Decide, Settles,
      Distinct, BestBss, Negotiate, SecurityOf, Accepts;
    var d0 := Stepping(env, device, profiles, r, k, Commanded(Connect(ssid)));
    ConnectSeeks(env, d0, r.states[k], ssid);
    var d1 := Stepping(env, device, profiles, r, k + 1, ScanResults(scan));
    DecidesByMethod(env, d1, r.states[k + 1], ssid, a, scan, bss, n);
    ScanRequests(env, d1, r.states[k + 1], ssid, Enterprise(a.account), scan, bss, n, PostAssoc(a.account, Began(a)));
    var d2 := Stepping(env, device, profiles, r, k + 2, Wireless(Answered(Joined)));
    JoinedConverses(env, d2, r.states[k + 2], bss, n, a.account, Began(a));
    SharesStill(r.states[k], r.states[k + 3], bss, n, ap);
    ConversationConnects(env, device, profiles, r, k + 3, bss, n, a, q, ap, x, lease);
  }
}
