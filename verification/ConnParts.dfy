// What the connection relies on in each protocol it drives: the shape of every
// answer, and what the frames it passes on carry.

module ConnParts {
  import opened Bytes
  import C = Crypto
  import E = Eapol
  import H = FourWayHandshake
  import S = SaeExchange
  import D = Dot1x

  // ---- SAE ------------------------------------------------------------------------

  // A started exchange that can still go either way, its resends not yet past
  // the limit.
  predicate InProgress(p: S.Provider) {
    (p.stage.Committed? || p.stage.Confirmed?) && |p.lastSent| >= 6 && p.sync <= S.SYNC_MAX
  }

  predicate Carries(r: S.Stepped, next: S.Provider, before: S.Provider) {
    || r.Err?
    || (r.value.Send? && |r.value.frame| >= 6 && InProgress(next))
    || (r.value.Wait? && next == before)
    || r.value.Done?
  }

  lemma SaeStarts(g: S.Curve, p: S.Provider, ctx: S.Context)
    requires S.Sized(g) && p.stage.Idle? && ctx.akm.Sae?
    ensures var o := S.Start(g, p, ctx); o.result.Ok? && o.result.value.Send? && Carries(o.result, o.next, p)
  {
    hide S.CommitOf;
  }

  lemma SaeAnswers(g: S.Curve, p: S.Provider, frame: seq<byte>)
    requires S.Sized(g) && InProgress(p)
    ensures var o := S.OnFrame(g, p, frame); Carries(o.result, o.next, p)
  {
    hide S.ParseAuth, S.ParseToken, S.ParseCommit, S.DecodeScalar, S.DecodeElement, S.SharedPoint, S.ContextBytes, S.Keys,
      S.ConfirmHash, S.Expected;
  }

  // A timeout is never let pass in silence.
  lemma SaeRetries(p: S.Provider)
    requires InProgress(p)
    ensures var o := S.OnTimeout(p); Carries(o.result, o.next, p) && (o.result.Ok? ==> o.result.value.Send?)
  {
  }

  // ---- the 4-way handshake -------------------------------------------------------------

  // The Key Data of an EAPOL-Key frame; empty for anything else.
  function KeyDataIn(frame: seq<byte>): seq<byte> {
    var eapol := E.ParseEapol(frame);
    if eapol.Err? || eapol.value.packetType != E.KeyType then []
    else
      var k := E.ParseKey(eapol.value.body);
      if k.Err? then [] else k.value.data
  }

  // The RSN element an authenticated frame carries, opened under the keys of
  // the handshake it arrives at.
  function HeardRsn(c: C.Primitives, m: H.FourWay, frame: seq<byte>): Option<seq<byte>> {
    var eapol := E.ParseEapol(frame);
    if eapol.Err? then None
    else
      var k := E.ParseKey(eapol.value.body);
      if k.Err? then None
      else
        var items := H.OpenKeyData(c, m, eapol.value, k.value);
        if items.Err? then None else E.RsnElementOf(items.value)
  }

  // What is kept for a resend is message 2, with this station's own elements.
  predicate ResendsOwn(m: H.FourWay) {
    m.lastSent.Some? ==> KeyDataIn(m.lastSent.value) == m.config.assocIe
  }

  datatype Shape = Silent | Sent | Answered | Installed | Regrouped

  function ShapeOf(actions: seq<H.Action>): Shape {
    if |actions| == 0 then Silent
    else if |actions| == 3 then Installed
    else if |actions| == 2 && actions[1].ArmTimer? then Sent
    else if |actions| == 2 && actions[1].NewGtk? then Regrouped
    else Answered
  }

  // The five things the handshake can ask for at once.
  predicate Shaped(m: H.FourWay, actions: seq<H.Action>) {
    match ShapeOf(actions)
    case Silent => actions == []
    case Sent => |actions| == 2 && actions[0].Send? && actions[1].ArmTimer? && KeyDataIn(actions[0].frame) == m.config.assocIe
    case Answered => |actions| == 2 && actions[0].Send? && actions[1].DisarmTimer? && KeyDataIn(actions[0].frame) == []
    case Installed =>
      |actions| == 3 && actions[0].Send? && actions[1].DisarmTimer? && actions[2].Complete? && KeyDataIn(actions[0].frame) == []
    case Regrouped => |actions| == 2 && actions[0].Send? && actions[1].NewGtk? && KeyDataIn(actions[0].frame) == []
  }

  lemma SignedCarries(c: C.Primitives, version: byte, dv: C.DescriptorVersion, kck: C.Block16, k: E.KeyFrame)
    requires k.Valid()
    ensures KeyDataIn(H.SignedReply(c, version, dv, kck, k)) == k.data
  {
    hide E.ParseEapol, E.ParseKey, E.EncodeKey;
    var signed := E.Signed(c, k, version, kck, dv);
    E.KeyFrameRoundTrip(signed, version, []);
    assert E.EncodeKey(signed, version) + [] == E.EncodeKey(signed, version);
  }

  lemma Msg1Shape(c: C.Primitives, m: H.FourWay, eapol: E.EapolFrame, k: E.KeyFrame)
    ensures var h := H.OnMsg1(c, m, eapol, k);
            h.Ok? ==>
              && H.Kept(m, h.value.0) && ResendsOwn(h.value.0) && Shaped(m, h.value.1) && ShapeOf(h.value.1) == Sent
  {
    hide H.SignedReply, C.DerivePtk, C.VersionOf, E.KeyFrame.Counter, KeyDataIn;
    var h := H.OnMsg1(c, m, eapol, k);
    if h.Ok? {
      var dv := C.VersionOf(k.keyInfo, m.config.akm).value;
      var ptk := C.DerivePtk(c, m.pmk, m.config.akm, m.config.bssid, m.config.ownMac, k.nonce, m.snonce).value;
      SignedCarries(c, eapol.version, dv, ptk.kck, H.Msg2(m, dv, k.replay));
    }
  }

  lemma Msg3Shape(c: C.Primitives, m: H.FourWay, eapol: E.EapolFrame, k: E.KeyFrame, install: bool)
    ensures var h := H.OnMsg3(c, m, eapol, k, install);
            h.Ok? ==>
              && H.Kept(m, h.value.0) && ResendsOwn(h.value.0) && Shaped(m, h.value.1)
              && ShapeOf(h.value.1) == (if install then Installed else Answered)
              && (install ==> m.ptk.Some? && h.value.1[2].ptk == m.ptk.value && h.value.0.ptk == m.ptk)
              && (var items := H.OpenKeyData(c, m, eapol, k); items.Ok? && E.RsnElementOf(items.value) == Some(m.config.beaconIe))
  {
    hide H.SignedReply, H.OpenKeyData, E.GtkOf, E.RsnElementOf, E.KeyFrame.Counter, KeyDataIn;
    var h := H.OnMsg3(c, m, eapol, k, install);
    if h.Ok? {
      OpenedHasPtk(c, m, eapol, k);
      SignedCarries(c, m.version, m.dv, m.ptk.value.kck, H.Msg4(m.dv, k.replay));
    }
  }

  lemma OpenedHasPtk(c: C.Primitives, m: H.FourWay, eapol: E.EapolFrame, k: E.KeyFrame)
    ensures H.OpenKeyData(c, m, eapol, k).Ok? ==> m.ptk.Some?
  {
    hide E.VerifyFrameMic, C.UnwrapKeyData, E.ItemsOf, E.KeyFrame.Has;
  }

  lemma GroupShape(c: C.Primitives, m: H.FourWay, eapol: E.EapolFrame, k: E.KeyFrame)
    requires ResendsOwn(m)
    ensures var h := H.OnGroupMsg1(c, m, eapol, k);
            h.Ok? ==> H.Kept(m, h.value.0) && ResendsOwn(h.value.0) && Shaped(m, h.value.1) && ShapeOf(h.value.1) == Regrouped
  {
    hide H.SignedReply, H.OpenKeyData, E.GtkOf, E.KeyFrame.Counter, KeyDataIn;
    var h := H.OnGroupMsg1(c, m, eapol, k);
    if h.Ok? {
      OpenedHasPtk(c, m, eapol, k);
      SignedCarries(c, m.version, m.dv, m.ptk.value.kck, H.GroupMsg2(m.dv, k.replay));
    }
  }

  // One input of the handshake: what it keeps, what it asks for, and that keys
  // follow only a frame whose RSN element is the beacon's.
  lemma HandshakeStep(c: C.Primitives, m: H.FourWay, input: H.Input)
    requires ResendsOwn(m)
    ensures var o := H.Poll(c, m, input);
            && H.Kept(m, o.next) && ResendsOwn(o.next)
            && (o.result.Ok? ==> Shaped(m, o.result.value))
            && (o.result.Ok? && ShapeOf(o.result.value) == Installed ==>
                  && input.Frame? && HeardRsn(c, m, input.bytes) == Some(m.config.beaconIe)
                  && m.ptk.Some? && o.result.value[2].ptk == m.ptk.value && o.next.ptk == m.ptk)
  {
    hide H.OnMsg1, H.OnMsg3, H.OnGroupMsg1, H.OpenKeyData, E.ParseEapol, E.ParseKey, E.RsnElementOf, E.KeyFrame.Has, E.KeyFrame.Counter,
      KeyDataIn;
    if input.Frame? {
      var eapol := E.ParseEapol(input.bytes);
      if eapol.Ok? {
        var k := E.ParseKey(eapol.value.body);
        if k.Ok? {
          Msg1Shape(c, m, eapol.value, k.value);
          Msg3Shape(c, m, eapol.value, k.value, m.phase == H.AwaitingMsg3);
          GroupShape(c, m, eapol.value, k.value);
        }
      }
    }
  }

  lemma InstallsByShape(m: H.FourWay, actions: seq<H.Action>)
    requires Shaped(m, actions)
    ensures H.Installs(actions) <==> ShapeOf(actions) == Installed
  {
    hide KeyDataIn;
    if ShapeOf(actions) == Installed { assert actions[2].Complete?; }
  }

  // ---- 802.1X -----------------------------------------------------------------------------

  // What is kept for a repeat is an EAP frame.
  predicate RepeatsEap(p: D.Provider<nat>) {
    p.lastResponse.Some? ==> KeyDataIn(p.lastResponse.value) == []
  }

  lemma EapHasNoKeyData(version: byte, body: seq<byte>)
    requires |body| < 0x1_0000
    ensures KeyDataIn(E.EncodeEapol(version, E.EapPacketType, body)) == []
  {
    hide E.ParseEapol, E.EncodeEapol, E.ParseKey;
    E.EapolRoundTrip(version, E.EapPacketType, body, []);
    assert E.EncodeEapol(version, E.EapPacketType, body) + [] == E.EncodeEapol(version, E.EapPacketType, body);
  }

  lemma Dot1xStep(em: D.EapMethod<nat>, p: D.Provider<nat>, frame: seq<byte>)
    requires RepeatsEap(p)
    ensures var o := D.OnFrame(em, p, frame);
            && RepeatsEap(o.next)
            && (o.result.Ok? && o.result.value.Send? ==> KeyDataIn(o.result.value.frame) == [])
  {
    hide E.ParseEapol, D.ParseEap, D.OnRequest, KeyDataIn;
    var eapol := E.ParseEapol(frame);
    if eapol.Ok? && D.ParseEap(eapol.value.body).Ok? {
      Dot1xRequest(em, p.(version := eapol.value.version), D.ParseEap(eapol.value.body).value);
    }
  }

  lemma Dot1xRequest(em: D.EapMethod<nat>, p: D.Provider<nat>, request: D.EapPacket)
    requires RepeatsEap(p)
    ensures var o := D.OnRequest(em, p, request);
            && RepeatsEap(o.next)
            && (o.result.Ok? && o.result.value.Send? ==> KeyDataIn(o.result.value.frame) == [])
  {
    hide D.Reply, KeyDataIn, D.EapPacket.Kind, D.EapPacket.TypeData;
    var (inner, answer) := em.step(p.inner, request.TypeData());
    ReplyIsEap(p, request.identifier, D.IDENTITY, p.identity);
    ReplyIsEap(p, request.identifier, D.NOTIFICATION, []);
    ReplyIsEap(p, request.identifier, D.NAK, [em.typeCode]);
    if answer.Ok? && answer.value.Some? {
      ReplyIsEap(p.(inner := inner), request.identifier, em.typeCode, answer.value.value);
    }
  }

  lemma ReplyIsEap(p: D.Provider<nat>, identifier: byte, kind: byte, typeData: D.TypeData)
    ensures var o := D.Reply(p, identifier, kind, typeData);
            RepeatsEap(o.next) && o.result.Ok? && o.result.value.Send? && KeyDataIn(o.result.value.frame) == []
  {
    hide KeyDataIn, E.EncodeEapol, D.EncodeResponse;
    EapHasNoKeyData(p.version, D.EncodeResponse(identifier, kind, typeData));
  }
}
