// What the joins suppose can be had all at once: for each way of joining, an
// access point, its messages and a whole run that meet every hypothesis.

module ConnInstances {
  import opened Bytes
  import opened Suites
  import opened Policy
  import opened Connection
  import opened ConnRuns
  import opened ConnJoins
  import A = Authenticator
  import C = Crypto
  import D = Dot1x
  import E = Eapol
  import G = SaeAgreement
  import H = FourWayHandshake
  import N = ConnEnterprise
  import S = SaeExchange
  import W = ConnWpa3
  import Y = DhcpClient

  // ---- a handshake with any access point ----------------------------------------------

  const FLAGS1: u16 := 0x008a
  const FLAGS3: u16 := 0x138a

  function Replay(n: byte): E.Octets8 {
    Zeros(7) + [n]
  }

  function First(): E.KeyFrame {
    E.KeyFrame(E.DESCRIPTOR_TYPE_RSN, FLAGS1, 16, Replay(1), Zeros(32), Zeros(16), Zeros(8), Zeros(16), [])
  }

  // Octets up to the next whole semiblock, none of which reads as an element.
  function Fill(n: nat): seq<byte> {
    if n % 8 == 0 then [] else [E.EID_VENDOR] + Zeros(7 - n % 8)
  }

  lemma FillFits(n: nat)
    ensures E.Padding(Fill(n)) && (n + |Fill(n)|) % 8 == 0 && |Fill(n)| <= 7
  {
  }

  function Contents(ap: A.Ap): seq<byte>
    requires A.Sound(ap)
  {
    E.Joined(A.Elements3(ap, []))
  }

  lemma ContentsFit(ap: A.Ap)
    requires A.Sound(ap)
    ensures 8 <= |Contents(ap)| <= 300
  {
    var beacon, gtk := ap.beaconIe, A.GtkElement(ap.gtk);
    assert A.Elements3(ap, []) == [beacon, gtk];
    var none: seq<seq<byte>> := [];
    assert [beacon, gtk][1..] == [gtk] && [gtk][1..] == none;
    assert E.Joined([gtk]) == gtk + E.Joined(none);
    assert E.Joined([beacon, gtk]) == beacon + E.Joined([gtk]);
  }

  function Plain3(ap: A.Ap): seq<byte>
    requires A.Sound(ap)
  {
    Contents(ap) + Fill(|Contents(ap)|)
  }

  lemma Plain3IsKeyData(ap: A.Ap)
    requires A.Sound(ap)
    ensures A.IsKeyData3(ap, Plain3(ap), [], Fill(|Contents(ap)|)) && C.Wrappable(Plain3(ap)) && |Plain3(ap)| <= 307
  {
    hide Contents, Fill;
    ContentsFit(ap);
    FillFits(|Contents(ap)|);
    assert Contents(ap) == E.Joined(A.Elements3(ap, [])) by { ContentsAreJoined(ap); }
  }

  lemma ContentsAreJoined(ap: A.Ap)
    requires A.Sound(ap)
    ensures Contents(ap) == E.Joined(A.Elements3(ap, []))
  {
  }

  lemma FirstIsMsg1(ap: A.Ap)
    ensures A.IsMsg1(ap, First()) && First().Valid() && C.VersionOf(First().keyInfo, ap.akm) == Ok(C.HmacSha1Version)
    ensures First().Counter() == 1
  {
    CounterReads(1);
  }

  lemma {:induction false} ZerosRead(n: nat)
    ensures FromBE(Zeros(n)) == 0
  {
    if n > 0 {
      ZerosRead(n - 1);
      assert Zeros(n)[..n - 1] == Zeros(n - 1);
    }
  }

  lemma CounterReads(n: byte)
    ensures FromBE(Replay(n)) == n
  {
    hide FromBE;
    var width: nat := 7;
    ZerosRead(width);
    LastOfFromBE(Zeros(width), n);
  }

  // Message 3 as it is signed and wrapped.
  function Unsigned3(c: C.Primitives, ap: A.Ap, ptk: C.Ptk): E.KeyFrame
    requires A.Sound(ap)
  {
    E.KeyFrame(E.DESCRIPTOR_TYPE_RSN, FLAGS3, 16, Replay(2), Zeros(32), Zeros(16), Zeros(8), Zeros(16), c.wrap(ptk.kek, Plain3(ap)))
  }

  lemma Third(c: C.Primitives, ap: A.Ap, ptk: C.Ptk) returns (k3: E.KeyFrame)
    requires C.Lawful(c) && A.Sound(ap)
    ensures A.Protected(c, k3, 2, ptk, C.HmacSha1Version, Plain3(ap))
    ensures k3.Has(E.PAIRWISE) && k3.nonce == Zeros(32) && k3.Counter() == 2
  {
    Plain3IsKeyData(ap);
    CounterReads(2);
    hide Plain3, E.EncodeKey, C.ComputeMic, Replay, FromBE;
    var u := Unsigned3(c, ap, ptk);
    k3 := E.Signed(c, u, 2, ptk.kck, C.HmacSha1Version);
    assert E.Unsigned(k3) == E.Unsigned(u);
  }

  // An access point and any lawful primitives get through a handshake: one
  // message 1 and the message 3 behind it.
  lemma FairHappens(c: C.Primitives, ap: A.Ap, snonce: C.Nonce) returns (x: Exchange)
    requires C.Lawful(c) && A.Sound(ap)
    ensures Fair(c, ap, x) && x.snonce == snonce && x.attempts == [A.Msg1(First(), 2, [])]
  {
    hide C.Lawful, Plain3, A.IsKeyData3, A.Protected, First, A.IsMsg1, C.DerivePtk, E.KeyFrame.Has, E.KeyFrame.Counter, C.VersionOf, Contents, Fill;
    FirstIsMsg1(ap);
    Plain3IsKeyData(ap);
    var ptk := A.ApPtk(c, ap, First().nonce, snonce);
    var k3 := Third(c, ap, ptk);
    var attempts := [A.Msg1(First(), 2, [])];
    x := Exchange(snonce, attempts, k3, 2, [], Plain3(ap), [], Fill(|Contents(ap)|));
    assert attempts[..0] == [];
    RetryingOnce(ap, attempts[0]);
    assert First().nonce == Zeros(32) by { FirstNonce(); }
    assert k3.Valid() by { ProtectedIsValid(c, k3, 2, ptk, C.HmacSha1Version, Plain3(ap)); }
  }

  lemma FirstNonce()
    ensures First().nonce == Zeros(32)
  {
  }

  lemma ProtectedIsValid(c: C.Primitives, k: E.KeyFrame, version: byte, ptk: C.Ptk, dv: C.DescriptorVersion, plain: seq<byte>)
    requires A.Protected(c, k, version, ptk, dv, plain)
    ensures k.Valid()
  {
  }

  lemma RetryingOnce(ap: A.Ap, attempt: A.Attempt)
    requires attempt.Msg1? && A.IsMsg1(ap, attempt.k)
    ensures A.Retrying(ap, [attempt]) && A.LastMsg1([attempt]) == Some(attempt)
  {
    hide A.IsMsg1;
    var before: seq<A.Attempt> := [];
    assert [attempt][..0] == before;
    assert A.Retrying(ap, before) && A.LastMsg1(before) == None;
  }

  // ---- a network with one access point ----------------------------------------------------

  datatype Network = Network(ssid: seq<byte>, bssid: Mac, akm: Akm, credential: Credential)

  predicate OpenTo(env: Surroundings, net: Network) {
    Satisfies(net.akm, Some(net.credential)) && Runnable(net.akm, env.enterpriseBuild)
  }

  function Beaconed(akm: Akm): StationRsn {
    StationRsn(Ccmp128, Ccmp128, akm, akm.IsSae(), akm.IsSae(), None, None)
  }

  function Advertised(akm: Akm): RsnIe {
    var b := Beaconed(akm);
    RsnIe(Ccmp128, [Ccmp128], [akm], Capabilities(b), akm.IsSae(), akm.IsSae(), None, StationElement(b))
  }

  function Agreed(akm: Akm): Negotiated {
    Negotiated(akm, Ccmp128, Ccmp128, None, akm.IsSae(), akm.IsSae(), StationElement(Beaconed(akm)))
  }

  function BssOf(net: Network): Bss {
    Bss(net.bssid, net.ssid, 2412, -50, SecurityOf(Agreed(net.akm)), Some(Advertised(net.akm)))
  }

  function ProfilesOf(net: Network): seq<Profile> {
    [Profile(net.ssid, SecurityOf(Agreed(net.akm)), net.credential, true, SecurityOf(Agreed(net.akm)))]
  }

  lemma AdvertisedIsScanned(akm: Akm)
    requires CanonicalAkm(akm)
    ensures Scanned(Advertised(akm))
  {
    hide StationElement, ParseRsn;
    StationElementParses(Beaconed(akm), []);
    assert StationElement(Beaconed(akm)) + [] == StationElement(Beaconed(akm));
  }

  lemma Negotiates(env: Surroundings, net: Network)
    requires OpenTo(env, net)
    ensures Negotiate(Advertised(net.akm), Some(net.credential), env.enterpriseBuild) == Some(Agreed(net.akm))
  {
    hide ChooseAkm, StationElement;
    ChooseAkmUnfolds(Advertised(net.akm), Some(net.credential), env.enterpriseBuild);
    assert net.akm in [net.akm] && forall a :: a in [net.akm] ==> a == net.akm;
  }

  lemma BestOfOne(bss: Bss)
    ensures BestBss([bss], bss.ssid) == Some(bss)
  {
    var wanted := (b: Bss) => b.ssid == bss.ssid;
    var none: seq<Bss> := [];
    assert [bss][..0] == none;
    assert Filter(none, wanted) == none;
    assert Filter([bss], wanted) == none + [bss] == [bss];
    assert Strongest([bss]) == Some(bss);
  }

  lemma OffersHere(env: Surroundings, device: Device, net: Network)
    requires OpenTo(env, net)
    ensures Offers(env, NewConnection(device, ProfilesOf(net)), net.ssid, net.credential, [BssOf(net)], BssOf(net), Agreed(net.akm))
  {
    hide Negotiate, SecurityOf, BestBss, Advertised;
    Negotiates(env, net);
    BestOfOne(BssOf(net));
  }

  function ApOf(net: Network, mac: Mac, pmk: seq<byte>, pmkid: Option<C.Block16>): A.Ap {
    A.Ap(pmk, net.akm, net.bssid, mac, Agreed(net.akm).beaconIe, Elements(Agreed(net.akm), pmkid, false), E.Gtk(Zeros(16), 1))
  }

  lemma SharesHere(env: Surroundings, device: Device, net: Network, pmk: seq<byte>, pmkid: Option<C.Block16>)
    requires OpenTo(env, net)
    ensures Shares(NewConnection(device, ProfilesOf(net)), BssOf(net), Agreed(net.akm), pmkid, ApOf(net, device.mac, pmk, pmkid))
    ensures A.Sound(ApOf(net, device.mac, pmk, pmkid))
  {
    hide Elements, StationSuites;
  }

  // ---- with a passphrase ----------------------------------------------------------------------

  // What ends every join: both messages of the exchange, and a lease.
  function Finish(x: Exchange, drawn: Drawn, lease: Y.Lease): seq<Happening>
    requires x.k3.Valid() && |x.attempts| == 1
  {
    [Polled(AttemptInput(x.attempts[0]), drawn), Polled(Delivery(A.Wire(x.k3, x.version, x.padding)), drawn),
     Polled(Leased(Acquired(lease)), drawn)]
  }

  lemma FinishShakes(r: Run, k: nat, x: Exchange, drawn: Drawn, lease: Y.Lease)
    requires x.k3.Valid() && |x.attempts| == 1 && k + 3 == |r.happenings| && r.happenings[k..] == Finish(x, drawn, lease)
    ensures Shakes(r, k, x, lease)
  {
    hide AttemptInput, Delivery, A.Wire, E.KeyFrame.Valid;
    assert r.happenings[k] == r.happenings[k..][0] && r.happenings[k + 1] == r.happenings[k..][1];
    assert r.happenings[k + 2] == r.happenings[k..][2];
  }

  function PskHappenings(ssid: seq<byte>, scan: seq<Bss>, drawn: Drawn): seq<Happening> {
    [Polled(Commanded(Connect(ssid)), drawn), Polled(ScanResults(scan), drawn), Polled(Wireless(Answered(Joined)), drawn)]
  }

  lemma PskJoinProceeds(r: Run, ssid: seq<byte>, scan: seq<Bss>, x: Exchange, drawn: Drawn, lease: Y.Lease)
    requires x.k3.Valid() && |x.attempts| == 1 && drawn.snonce == Some(x.snonce)
    requires r.happenings == PskHappenings(ssid, scan, drawn) + Finish(x, drawn, lease)
    ensures PskJoin(r, 0, ssid, scan, x, lease)
  {
    hide Finish, E.KeyFrame.Valid, Shakes;
    assert |Finish(x, drawn, lease)| == 3 by { FinishIsThree(x, drawn, lease); }
    assert r.happenings[3..] == Finish(x, drawn, lease);
    FinishShakes(r, 3, x, drawn, lease);
  }

  lemma FinishIsThree(x: Exchange, drawn: Drawn, lease: Y.Lease)
    requires x.k3.Valid() && |x.attempts| == 1
    ensures |Finish(x, drawn, lease)| == 3
  {
    hide AttemptInput, Delivery, A.Wire, E.KeyFrame.Valid;
  }

  // The exchange has what its keys are named by.
  predicate Keyable(ap: A.Ap, x: Exchange) {
    A.Sound(ap) && A.LastMsg1(x.attempts).Some? && x.k3.Valid()
  }

  // A network with a PSK and an access point of it.
  lemma PskFaces(env: Surroundings, device: Device, ssid: seq<byte>, secret: seq<byte>, bssid: Mac, snonce: C.Nonce)
      returns (ap: A.Ap, x: Exchange)
    requires env.Valid() && C.Lawful(env.c) && !device.caps.offloads4wayPsk
    ensures var net := Network(ssid, bssid, Psk, Passphrase(secret));
            FacesPsk(env, NewConnection(device, ProfilesOf(net)), ssid, secret, [BssOf(net)], BssOf(net), Agreed(Psk), ap, x)
    ensures x.snonce == snonce && |x.attempts| == 1 && Keyable(ap, x)
  {
    hide C.Lawful, A.Sound, Fair, Offers, Shares, ProfilesOf, BssOf, Advertised, Agreed;
    var net := Network(ssid, bssid, Psk, Passphrase(secret));
    ap := ApOf(net, device.mac, env.pbkdf2(secret, ssid), None);
    OffersHere(env, device, net);
    SharesHere(env, device, net, ap.pmk, None);
    x := FairHappens(env.c, ap, snonce);
    FairRetries(env.c, ap, x);
    AgreedAkm(Psk);
  }

  // The network is joined.
  lemma PskJoinHappens(env: Surroundings, device: Device, ssid: seq<byte>, secret: seq<byte>, bssid: Mac, drawn: Drawn, lease: Y.Lease)
      returns (r: Run, ap: A.Ap, x: Exchange)
    requires env.Valid() && C.Lawful(env.c) && !device.caps.offloads4wayPsk && drawn.snonce.Some?
    ensures var net := Network(ssid, bssid, Psk, Passphrase(secret));
            var c, bss, n := NewConnection(device, ProfilesOf(net)), BssOf(net), Agreed(Psk);
            && IsRun(env, device, ProfilesOf(net), r) && Scanned(Advertised(Psk))
            && FacesPsk(env, c, ssid, secret, [bss], bss, n, ap, x) && PskJoin(r, 0, ssid, [bss], x, lease)
            && |x.attempts| == 1 && ConnectedBy(r, 5, bss, n, PtkIn(env.c, ap, x), ap.gtk, lease)
  {
    hide C.Lawful, A.Sound, A.LastMsg1, FacesPsk, StepOf, ConnectedBy, PtkIn, PskJoin, PskHappenings, Finish, ProfilesOf, BssOf,
      Advertised, Agreed, NewConnection, Scanned, E.KeyFrame.Valid;
    var net := Network(ssid, bssid, Psk, Passphrase(secret));
    var bss, n := BssOf(net), Agreed(Psk);
    AdvertisedIsScanned(Psk);
    ap, x := PskFaces(env, device, ssid, secret, bssid, drawn.snonce.value);
    FinishIsThree(x, drawn, lease);
    r := EverythingHasARun(env, device, ProfilesOf(net), PskHappenings(ssid, [bss], drawn) + Finish(x, drawn, lease));
    PskJoinProceeds(r, ssid, [bss], x, drawn, lease);
    KnownNetworkIsJoined(env, device, ProfilesOf(net), r, 0, ssid, secret, [bss], bss, n, ap, x, lease);
  }

  lemma AgreedAkm(akm: Akm)
    ensures Agreed(akm).akm == akm
  {
  }

  // ---- with SAE -----------------------------------------------------------------------------------

  function FrameFrom(bssid: Mac, body: seq<byte>): seq<byte> {
    [FC_AUTH] + Zeros(9) + bssid + Zeros(8) + body
  }

  lemma FrameIsFrom(bss: Bss, body: seq<byte>)
    ensures W.FromBss(FrameFrom(bss.bssid, body), bss, body)
  {
    var head := [FC_AUTH] + Zeros(9) + bss.bssid + Zeros(8);
    assert FrameFrom(bss.bssid, body) == head + body;
    assert head[10..16] == bss.bssid && (head + body)[10..16] == head[10..16];
  }

  function HeardFrom(bssid: Mac, input: S.Input, drawn: Drawn): Happening {
    Polled(Wireless(AuthFrame(FrameFrom(bssid, if input.Frame? then input.bytes else []))), drawn)
  }

  function SaeHappenings(ssid: seq<byte>, scan: seq<Bss>, bssid: Mac, commit: S.Input, confirm: S.Input, drawn: Drawn): seq<Happening> {
    [Polled(Commanded(Connect(ssid)), drawn), Polled(ScanResults(scan), drawn), HeardFrom(bssid, commit, drawn),
     HeardFrom(bssid, confirm, drawn), Polled(Wireless(Answered(Joined)), drawn)]
  }

  lemma SaeJoinProceeds(r: Run, ssid: seq<byte>, bss: Bss, q: W.Proof, x: Exchange, drawn: Drawn, lease: Y.Lease)
    requires x.k3.Valid() && |x.attempts| == 1 && drawn.snonce == Some(x.snonce) && drawn.seed == q.seedA && q.tokensA == []
    requires |q.ra.inputs| == 3 && q.ra.inputs[1].Frame? && q.ra.inputs[2].Frame?
    requires r.happenings == SaeHappenings(ssid, [bss], bss.bssid, q.ra.inputs[1], q.ra.inputs[2], drawn) + Finish(x, drawn, lease)
    ensures W.Wpa3Join(r, 0, ssid, [bss], bss, q, x, lease)
  {
    hide Finish, E.KeyFrame.Valid, Shakes, FrameFrom, W.FromBss;
    FinishIsThree(x, drawn, lease);
    assert r.happenings[5..] == Finish(x, drawn, lease);
    FinishShakes(r, 5, x, drawn, lease);
    FrameIsFrom(bss, q.ra.inputs[1].bytes);
    FrameIsFrom(bss, q.ra.inputs[2].bytes);
    forall i | 1 <= i < 3 ensures W.Hears(r, 1 + i, bss, q.ra.inputs[i]) {
      assert i == 1 || i == 2;
    }
  }

  // The exchange the joining station and its access point go through.
  lemma ProofHappens(a: S.Context, b: S.Context, secret: seq<byte>) returns (q: W.Proof, pmk: S.Block32, pmkid: Option<C.Block16>)
    requires G.Peers(a, b) && a.akm == Sae && b.akm == Sae
    ensures W.SaeWith(G.ModFive(), a, secret, q) && W.Settled(q, pmk, pmkid) && q.tokensA == [] && q.seedA == G.SeedFor(2, 2)
    ensures |q.ra.inputs| == 3 && q.ra.inputs[1].Frame? && q.ra.inputs[2].Frame?
  {
    hide G.ModFive, G.Lawful, G.Usable, G.SeedFor, S.Sized, S.StepOf;
    var ra, rb := G.AgreementHappens(a, b, secret);
    G.LawfulIsSized(G.ModFive());
    q := W.Proof(b, G.SeedFor(2, 2), G.SeedFor(3, 4), [], [], ra, rb);
    pmk, pmkid := rb.results[2].value.pmk, rb.states[3].pmkid;
  }

  // A WPA3 network is joined, over the integers modulo 5.
  lemma SaeJoinHappens(env: Surroundings, device: Device, ssid: seq<byte>, secret: seq<byte>, bssid: Mac, drawn: Drawn, lease: Y.Lease)
      returns (r: Run, q: W.Proof, ap: A.Ap, pmkid: Option<C.Block16>, x: Exchange)
    requires env.Valid() && C.Lawful(env.c) && env.g == G.ModFive() && !device.caps.offloadsSae
    requires drawn.snonce.Some? && drawn.seed == G.SeedFor(2, 2)
    ensures var net := Network(ssid, bssid, Sae, Passphrase(secret));
            var c, bss, n := NewConnection(device, ProfilesOf(net)), BssOf(net), Agreed(Sae);
            && IsRun(env, device, ProfilesOf(net), r) && Scanned(Advertised(Sae))
            && W.FacesSae(env, c, ssid, secret, [bss], bss, n, q, ap, pmkid, x) && W.Wpa3Join(r, 0, ssid, [bss], bss, q, x, lease)
            && |x.attempts| == 1 && ConnectedBy(r, 7, bss, n, PtkIn(env.c, ap, x), ap.gtk, lease)
  {
    hide C.Lawful, A.Sound, Fair, Offers, Shares, StepOf, ConnectedBy, PtkIn, ProfilesOf, Advertised, Agreed, W.SaeWith, W.Settled,
      G.ModFive, G.SeedFor, W.Wpa3Join, SaeHappenings, Finish;
    var net := Network(ssid, bssid, Sae, Passphrase(secret));
    var c, bss, n := NewConnection(device, ProfilesOf(net)), BssOf(net), Agreed(Sae);
    var pmk;
    q, pmk, pmkid := ProofHappens(W.StationContext(c, ssid, bss), S.Context(ssid, device.mac, bssid, Sae), secret);
    ap := ApOf(net, device.mac, pmk, pmkid);
    OffersHere(env, device, net);
    SharesHere(env, device, net, pmk, pmkid);
    AdvertisedIsScanned(Sae);
    x := FairHappens(env.c, ap, drawn.snonce.value);
    FairRetries(env.c, ap, x);
    r := EverythingHasARun(env, device, ProfilesOf(net),
                           SaeHappenings(ssid, [bss], bssid, q.ra.inputs[1], q.ra.inputs[2], drawn) + Finish(x, drawn, lease));
    SaeJoinProceeds(r, ssid, bss, q, x, drawn, lease);
    AgreedAkm(Sae);
    W.Wpa3NetworkIsJoined(env, device, ProfilesOf(net), r, 0, ssid, secret, [bss], bss, n, q, ap, pmkid, x, lease);
  }

  // ---- with 802.1X ------------------------------------------------------------------------------------

  function EapFrame(packet: seq<byte>): seq<byte>
    requires |packet| < 0x1_0000
  {
    E.EncodeEapol(2, E.EapPacketType, packet)
  }

  // An identity request, and the success that ends the conversation.
  const ASKS_WHO: seq<byte> := [1, 1, 0, 5, 1]
  const SUCCEEDS: seq<byte> := [3, 1, 0, 4]

  lemma PacketsRead()
    ensures N.IsEap(EapFrame(ASKS_WHO)) && E.ParseEapol(EapFrame(ASKS_WHO)) == Ok(E.EapolFrame(2, E.EapPacketType, ASKS_WHO, EapFrame(ASKS_WHO)))
    ensures N.IsEap(EapFrame(SUCCEEDS)) && E.ParseEapol(EapFrame(SUCCEEDS)) == Ok(E.EapolFrame(2, E.EapPacketType, SUCCEEDS, EapFrame(SUCCEEDS)))
    ensures D.ParseEap(ASKS_WHO) == Ok(D.EapPacket(D.Request, 1, [D.IDENTITY]))
    ensures D.ParseEap(SUCCEEDS) == Ok(D.EapPacket(D.EapCode.Success, 1, []))
  {
    E.EapolRoundTrip(2, E.EapPacketType, ASKS_WHO, []);
    E.EapolRoundTrip(2, E.EapPacketType, SUCCEEDS, []);
    assert EapFrame(ASKS_WHO) + [] == EapFrame(ASKS_WHO) && EapFrame(SUCCEEDS) + [] == EapFrame(SUCCEEDS);
    assert BE16(ASKS_WHO[2..4]) == 5 && BE16(SUCCEEDS[2..4]) == 4;
    assert ASKS_WHO[4..5] == [D.IDENTITY] && SUCCEEDS[4..4] == [];
  }

  lemma TellsWho(em: D.EapMethod<nat>, a: N.Account)
    ensures var o := D.OnFrame(em, N.Began(a), EapFrame(ASKS_WHO));
            o.result.Ok? && o.result.value.Send? && o.next.phase == D.Running && o.next.inner == a.inner
  {
    hide E.ParseEapol, D.ParseEap, E.EncodeEapol, D.EncodeResponse, EapFrame;
    PacketsRead();
  }

  lemma SuccessEnds(em: D.EapMethod<nat>, p: D.Provider<nat>)
    requires p.phase == D.Running && em.msk(p.inner).Some?
    ensures D.OnFrame(em, p, EapFrame(SUCCEEDS)).result == Ok(D.Done(D.PmkOfMsk(em.msk(p.inner).value)))
  {
    hide E.ParseEapol, D.ParseEap, EapFrame;
    PacketsRead();
  }

  lemma ConversationHappens(em: D.EapMethod<nat>, a: N.Account) returns (q: D.Run<nat>, pmk: D.Pmk)
    requires em.msk(a.inner).Some?
    ensures N.Converses(em, a, q, pmk) && q.inputs == [D.Frame(EapFrame(ASKS_WHO)), D.Frame(EapFrame(SUCCEEDS))]
  {
    hide D.OnFrame, EapFrame, N.IsEap;
    PacketsRead();
    q := D.EveryInputHasARun(em, N.Began(a), [D.Frame(EapFrame(ASKS_WHO)), D.Frame(EapFrame(SUCCEEDS))]);
    assert D.StepOf(em, q, 0) && D.StepOf(em, q, 1);
    TellsWho(em, a);
    SuccessEnds(em, q.states[1]);
    pmk := q.results[1].value.pmk;
    forall i | 0 <= i < 2 ensures N.Accepted(q, i) { assert i == 0 || i == 1; }
  }

  function Dot1xHappenings(ssid: seq<byte>, scan: seq<Bss>, drawn: Drawn): seq<Happening> {
    [Polled(Commanded(Connect(ssid)), drawn), Polled(ScanResults(scan), drawn), Polled(Wireless(Answered(Joined)), drawn),
     Polled(EapolFrame(EapFrame(ASKS_WHO)), drawn), Polled(EapolFrame(EapFrame(SUCCEEDS)), drawn)]
  }

  lemma Dot1xJoinProceeds(r: Run, ssid: seq<byte>, scan: seq<Bss>, a: N.Account, q: D.Run<nat>, x: Exchange, drawn: Drawn, lease: Y.Lease)
    requires x.k3.Valid() && |x.attempts| == 1 && drawn.snonce == Some(x.snonce) && drawn.account == Some((a.identity, a.inner))
    requires q.inputs == [D.Frame(EapFrame(ASKS_WHO)), D.Frame(EapFrame(SUCCEEDS))]
    requires r.happenings == Dot1xHappenings(ssid, scan, drawn) + Finish(x, drawn, lease)
    ensures N.EnterpriseJoin(r, 0, ssid, scan, a, q, x, lease)
  {
    hide Finish, E.KeyFrame.Valid, Shakes, EapFrame;
    FinishIsThree(x, drawn, lease);
    assert r.happenings[5..] == Finish(x, drawn, lease);
    FinishShakes(r, 5, x, drawn, lease);
    forall i | 0 <= i < 2 ensures N.Brings(r, 3 + i, q.inputs[i]) { assert i == 0 || i == 1; }
  }

  // An enterprise network is joined, with a method that has its key from the start.
  lemma Dot1xJoinHappens(env: Surroundings, device: Device, ssid: seq<byte>, a: N.Account, bssid: Mac, drawn: Drawn, lease: Y.Lease)
      returns (r: Run, q: D.Run<nat>, ap: A.Ap, x: Exchange)
    requires env.Valid() && C.Lawful(env.c) && env.enterpriseBuild && env.methods(a.account).msk(a.inner).Some?
    requires drawn.snonce.Some? && drawn.account == Some((a.identity, a.inner))
    ensures var net := Network(ssid, bssid, Akm.Dot1x, Enterprise(a.account));
            var c, bss, n := NewConnection(device, ProfilesOf(net)), BssOf(net), Agreed(Akm.Dot1x);
            && IsRun(env, device, ProfilesOf(net), r) && Scanned(Advertised(Akm.Dot1x))
            && N.FacesDot1x(env, c, ssid, [bss], bss, n, a, q, ap, x) && N.EnterpriseJoin(r, 0, ssid, [bss], a, q, x, lease)
            && |q.inputs| == 2 && |x.attempts| == 1
            && ConnectedBy(r, 7, bss, n, PtkIn(env.c, ap, x), ap.gtk, lease)
  {
    hide C.Lawful, A.Sound, Fair, Offers, Shares, StepOf, ConnectedBy, PtkIn, ProfilesOf, Advertised, Agreed, N.Converses,
      N.EnterpriseJoin, Dot1xHappenings, Finish, EapFrame;
    var net := Network(ssid, bssid, Akm.Dot1x, Enterprise(a.account));
    var bss, n := BssOf(net), Agreed(Akm.Dot1x);
    var pmk;
    q, pmk := ConversationHappens(env.methods(a.account), a);
    ap := ApOf(net, device.mac, pmk, None);
    OffersHere(env, device, net);
    SharesHere(env, device, net, pmk, None);
    AdvertisedIsScanned(Akm.Dot1x);
    x := FairHappens(env.c, ap, drawn.snonce.value);
    FairRetries(env.c, ap, x);
    r := EverythingHasARun(env, device, ProfilesOf(net), Dot1xHappenings(ssid, [bss], drawn) + Finish(x, drawn, lease));
    Dot1xJoinProceeds(r, ssid, [bss], a, q, x, drawn, lease);
    AgreedAkm(Akm.Dot1x);
    N.EnterpriseNetworkIsJoined(env, device, ProfilesOf(net), r, 0, ssid, [bss], bss, n, a, q, ap, x, lease);
  }
}
