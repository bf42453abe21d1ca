// The SAE provider as the connection owns it: one object, its stage replaced
// and its counters advanced in place.

module SaeMachine {
  import opened Bytes
  import opened Suites
  import opened Crypto
  import S = SaeExchange
  import opened SaeExchange

  class SaeProvider {
    const g: Curve
    const password: seq<byte>
    var seed: Seed
    var stage: Stage
    var lastSent: seq<byte>
    var sync: byte
    var sendConfirm: u16
    var token: Option<Token>
    var pmkid: Option<Block16>

    ghost function Now(): Provider
      reads this
    {
      Provider(password, seed, stage, lastSent, sync, sendConfirm, token, pmkid)
    }

    constructor (g: Curve, password: seq<byte>, seed: Seed)
      ensures Now() == WithSeed(password, seed) && this.g == g
    {
      this.g, this.password, this.seed := g, password, seed;
      stage, lastSent, sync, sendConfirm := Idle, [], 0, 0;
      token, pmkid := None, None;
    }

    method Start(ctx: Context) returns (r: Stepped)
      requires Sized(g)
      modifies this
      ensures Outcome(Now(), r) == S.Start(g, old(Now()), ctx)
    {
      hide PasswordToken, PasswordElement, ScalarFrom, CommitFrame;
      if !stage.Idle? { return Err(OutOfOrder); }
      if ctx.akm != Sae { return Err(CryptoError.UnsupportedAkm); }
      var pt := PasswordToken(g, ctx.ssid, password);
      var pwe := PasswordElement(g, pt, ctx.ownMac, ctx.bssid);
      var rand, mask := Rand(g, seed), Mask(g, seed);
      seed := Zeros(96);
      var scalar := (rand + mask) % g.order;
      var element := g.neg(g.mul(mask, pwe));
      var c := Commit(rand, scalar, pwe, BE(scalar, SCALAR_WIDTH), g.encode(element));
      var frame := CommitFrame(c.scalarBytes, c.elementBytes, token);
      stage := Committed(c);
      lastSent := frame;
      sync := 0;
      r := Ok(Send(frame));
    }

    method OnFrame(frame: seq<byte>) returns (r: Stepped)
      requires Sized(g)
      modifies this
      ensures Outcome(Now(), r) == S.OnFrame(g, old(Now()), frame)
    {
      hide S.OnCommit, S.OnConfirm, S.OnTokenRequest, ParseAuth;
      var parsed := ParseAuth(frame);
      if parsed.Err? { return Err(parsed.error); }
      var a := parsed.value;
      if !Expected(a) { return Err(CryptoError.AuthFailed); }
      var taken := stage;
      stage := Failed;
      match taken {
        case Committed(c) =>
          if a.seqNo == SEQ_COMMIT {
            if a.status == STATUS_ANTI_CLOGGING {
              r := OnTokenRequest(c, a.body);
            } else {
              r := OnCommit(c, a.body);
            }
          } else {
            stage := taken;
            r := Ok(Wait);
          }
        case Confirmed(s) =>
          if a.seqNo == SEQ_CONFIRM {
            r := OnConfirm(s, a.body);
          } else {
            stage := taken;
            r := Ok(Wait);
          }
        case Accepted =>
          stage := Accepted;
          r := Ok(Wait);
        case Idle =>
          stage := Idle;
          r := Err(OutOfOrder);
        case Failed =>
          r := Err(CryptoError.AuthFailed);
      }
    }

    method OnCommit(c: Commit, body: seq<byte>) returns (r: Stepped)
      requires Sized(g)
      modifies this
      ensures Outcome(Now(), r) == S.OnCommit(g, old(Now()), c, body)
    {
      hide ParseCommit, DecodeScalar, DecodeElement, ConfirmFrame, BE, Zeros, Pow256;
      var parsed := ParseCommit(body);
      if parsed.Err? { return Err(parsed.error); }
      var (peerScalarBytes, peerElementBytes) := parsed.value;
      if peerScalarBytes == c.scalarBytes && peerElementBytes == c.elementBytes { return Err(CryptoError.AuthFailed); }
      var s := DecodeScalar(g, peerScalarBytes);
      if s.Err? { return Err(s.error); }
      var e := DecodeElement(g, peerElementBytes);
      if e.Err? { return Err(e.error); }
      var k := g.mul(c.rand, g.add(g.mul(s.value, c.pwe), e.value));
      if k == g.zero { return Err(CryptoError.AuthFailed); }
      var keyseed := g.hmac(Zeros(32), g.x(k));
      var context := BE((c.scalar + s.value) % g.order, SCALAR_WIDTH);
      var keys := g.kdf(keyseed, context);
      pmkid := Some(context[..16]);
      var session := Session(peerScalarBytes, peerElementBytes, c.scalarBytes, c.elementBytes, keys[..32], keys[32..]);
      sendConfirm := if sendConfirm < 0xffff then sendConfirm + 1 else 0xffff;
      var frame := ConfirmFrame(g, session, sendConfirm);
      stage := Confirmed(session);
      lastSent := frame;
      sync := 0;
      r := Ok(Send(frame));
    }

    method OnConfirm(s: Session, body: seq<byte>) returns (r: Stepped)
      modifies this
      ensures Outcome(Now(), r) == S.OnConfirm(g, old(Now()), s, body)
    {
      if |body| < 34 { return Err(MalformedInput); }
      var verifier := ConfirmHash(g, s.kck, body[..2], s.peerScalar, s.peerElement, s.ownScalar, s.ownElement);
      if verifier != body[2..34] { return Err(CryptoError.AuthFailed); }
      stage := Accepted;
      lastSent := [];
      r := Ok(Done(s.pmk));
    }

    method OnTokenRequest(c: Commit, body: seq<byte>) returns (r: Stepped)
      modifies this
      ensures Outcome(Now(), r) == S.OnTokenRequest(old(Now()), c, body)
    {
      var parsed := ParseToken(body);
      if parsed.Err? { return Err(parsed.error); }
      token := Some(parsed.value);
      var frame := CommitFrame(c.scalarBytes, c.elementBytes, token);
      stage := Committed(c);
      lastSent := frame;
      sync := 0;
      r := Ok(Send(frame));
    }

    method OnTimeout() returns (r: Stepped)
      modifies this
      ensures Outcome(Now(), r) == S.OnTimeout(old(Now()))
    {
      match stage {
        case Committed(_) | Confirmed(_) =>
          sync := (sync + 1) % 256;
          if sync > SYNC_MAX { return Err(CryptoError.AuthFailed); }
          r := Ok(Send(lastSent));
        case Accepted => r := Ok(Wait);
        case Failed => r := Err(CryptoError.AuthFailed);
        case Idle => r := Err(OutOfOrder);
      }
    }
  }
}
