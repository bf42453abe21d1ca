// SAE, the exchange that runs before association on a WPA3-Personal network
// (crates/caw-crypto/src/sae.rs; IEEE 802.11-2020 section 12.4).

module SaeExchange {
  import opened Bytes
  import opened Suites
  import opened Crypto

  const AUTH_ALG_SAE: u16 := 3
  const SEQ_COMMIT: u16 := 1
  const SEQ_CONFIRM: u16 := 2
  const STATUS_SUCCESS: u16 := 0
  const STATUS_ANTI_CLOGGING: u16 := 76
  const STATUS_H2E: u16 := 126
  const GROUP_P256: u16 := 19
  const EID_EXTENSION: byte := 255
  const EID_EXT_ANTI_CLOGGING: byte := 93
  const SYNC_MAX: nat := 5
  const SCALAR_WIDTH: nat := 32

  type Block32 = s: seq<byte> | |s| == 32 witness Zeros(32)
  type Block64 = s: seq<byte> | |s| == 64 witness Zeros(64)
  type Seed = s: seq<byte> | |s| == 96 witness Zeros(96)
  type Token = t: seq<byte> | |t| <= 254 witness []

  // Points are names; all that is known of one is what the group says.
  type Point = nat

  // The group, its encodings, and the hashes around it.
  datatype Curve = Curve(
    order: nat,
    on: Point -> bool,
    zero: Point,
    add: (Point, Point) -> Point,
    neg: Point -> Point,
    mul: (nat, Point) -> Point,
    encode: Point -> Block64,
    decode: seq<byte> -> Option<Point>,
    x: Point -> Block32,
    toPoint: (seq<byte>, seq<byte>, nat) -> Point,
    hmac: (seq<byte>, seq<byte>) -> Block32,
    kdf: (seq<byte>, seq<byte>) -> Block64)

  // A scalar fits its 32 octets, and there is room for one above 1.
  predicate Sized(g: Curve) {
    2 < g.order <= Pow256(SCALAR_WIDTH)
  }

  datatype Context = Context(ssid: seq<byte>, bssid: Mac, ownMac: Mac, akm: Akm)

  datatype Step = Send(frame: seq<byte>) | Wait | Done(pmk: Block32)

  datatype Commit = Commit(rand: nat, scalar: nat, pwe: Point, scalarBytes: Block32, elementBytes: Block64)

  datatype Session = Session(
    peerScalar: Block32, peerElement: Block64, ownScalar: Block32, ownElement: Block64, kck: Block32, pmk: Block32)

  datatype Stage = Idle | Committed(commit: Commit) | Confirmed(session: Session) | Accepted | Failed

  datatype Provider = Provider(
    password: seq<byte>,
    seed: Seed,
    stage: Stage,
    lastSent: seq<byte>,
    sync: byte,
    sendConfirm: u16,
    token: Option<Token>,
    pmkid: Option<Block16>)

  function WithSeed(password: seq<byte>, seed: Seed): Provider {
    Provider(password, seed, Idle, [], 0, 0, None, None)
  }

  type Stepped = Result<Step, CryptoError>

  datatype Outcome = Outcome(next: Provider, result: Stepped)

  // ---- secrets --------------------------------------------------------------

  // The password element, bound to the pair of addresses and never annihilated:
  // the multiplier lands in [1, order - 1].
  function PasswordToken(g: Curve, ssid: seq<byte>, password: seq<byte>): Point {
    g.add(g.toPoint(ssid, password, 1), g.toPoint(ssid, password, 2))
  }

  function PasswordScalar(g: Curve, own: Mac, peer: Mac): (v: nat)
    requires Sized(g)
    ensures 1 <= v < g.order
  {
    FromBE(g.hmac(Zeros(32), Higher(own, peer) + Lower(own, peer))) % (g.order - 1) + 1
  }

  function PasswordElement(g: Curve, pt: Point, own: Mac, peer: Mac): Point
    requires Sized(g)
  {
    g.mul(PasswordScalar(g, own, peer), pt)
  }

  // Half a seed, reduced, and moved off the two degenerate values.
  function ScalarFrom(g: Curve, half: seq<byte>): (s: nat)
    requires Sized(g)
    ensures 2 <= s < g.order
  {
    var s := FromBE(half) % g.order;
    if s < 2 then 2 else s
  }

  function Rand(g: Curve, seed: Seed): nat
    requires Sized(g)
  {
    ScalarFrom(g, seed[..48])
  }

  function Mask(g: Curve, seed: Seed): nat
    requires Sized(g)
  {
    ScalarFrom(g, seed[48..])
  }

  function CommitOf(g: Curve, password: seq<byte>, seed: Seed, ctx: Context): Commit
    requires Sized(g)
  {
    var pwe := PasswordElement(g, PasswordToken(g, ctx.ssid, password), ctx.ownMac, ctx.bssid);
    var scalar := (Rand(g, seed) + Mask(g, seed)) % g.order;
    Commit(Rand(g, seed), scalar, pwe, BE(scalar, SCALAR_WIDTH), g.encode(g.neg(g.mul(Mask(g, seed), pwe))))
  }

  // ---- frames -----------------------------------------------------------------

  function AuthHeader(seqNo: u16, status: u16): (h: seq<byte>)
    ensures |h| == 6
  {
    ToLE16(AUTH_ALG_SAE) + ToLE16(seqNo) + ToLE16(status)
  }

  function TokenElement(token: Option<Token>): seq<byte> {
    if token.None? then [] else [EID_EXTENSION, |token.value| + 1, EID_EXT_ANTI_CLOGGING] + token.value
  }

  function CommitFrame(scalarBytes: Block32, elementBytes: Block64, token: Option<Token>): seq<byte> {
    AuthHeader(SEQ_COMMIT, STATUS_H2E) + (ToLE16(GROUP_P256) + scalarBytes + elementBytes + TokenElement(token))
  }

  function ConfirmHash(g: Curve, kck: Block32, sc: seq<byte>, s1: Block32, e1: Block64, s2: Block32, e2: Block64): Block32 {
    g.hmac(kck, sc + s1 + e1 + s2 + e2)
  }

  function ConfirmFrame(g: Curve, s: Session, sendConfirm: u16): seq<byte> {
    AuthHeader(SEQ_CONFIRM, STATUS_SUCCESS) + (ToLE16(sendConfirm)
    + ConfirmHash(g, s.kck, ToLE16(sendConfirm), s.ownScalar, s.ownElement, s.peerScalar, s.peerElement))
  }

  datatype AuthFrame = AuthFrame(seqNo: u16, status: u16, body: seq<byte>)

  function ParseAuth(frame: seq<byte>): Result<AuthFrame, CryptoError> {
    if |frame| < 6 || LE16(frame[..2]) != AUTH_ALG_SAE then Err(MalformedInput)
    else Ok(AuthFrame(LE16(frame[2..4]), LE16(frame[4..6]), frame[6..]))
  }

  function ParseCommit(body: seq<byte>): Result<(Block32, Block64), CryptoError> {
    if |body| < 98 then Err(MalformedInput)
    else if LE16(body[..2]) != GROUP_P256 then Err(CryptoError.AuthFailed)
    else Ok((body[2..34], body[34..98]))
  }

  function ParseToken(body: seq<byte>): Result<Token, CryptoError> {
    if |body| < 5 then Err(MalformedInput)
    else
      var element := body[2..];
      var len := element[1] as int;
      if element[0] != EID_EXTENSION || len == 0 || len > |element| - 2 then Err(MalformedInput)
      else if element[2] != EID_EXT_ANTI_CLOGGING then Err(MalformedInput)
      else Ok(element[3..2 + len])
  }

  function DecodeScalar(g: Curve, bytes: Block32): Result<nat, CryptoError> {
    var v := FromBE(bytes);
    if v >= g.order || v < 2 then Err(CryptoError.AuthFailed) else Ok(v)
  }

  function DecodeElement(g: Curve, bytes: Block64): Result<Point, CryptoError> {
    var p := g.decode(bytes);
    if p.None? || p.value == g.zero then Err(CryptoError.AuthFailed) else Ok(p.value)
  }

  // ---- handlers ---------------------------------------------------------------

  // The shared point, and what it is turned into.
  function SharedPoint(g: Curve, c: Commit, peerScalar: nat, peerElement: Point): Point {
    g.mul(c.rand, g.add(g.mul(peerScalar, c.pwe), peerElement))
  }

  function ContextBytes(g: Curve, c: Commit, peerScalar: nat): Block32
    requires g.order > 0
  {
    BE((c.scalar + peerScalar) % g.order, SCALAR_WIDTH)
  }

  function Keys(g: Curve, k: Point, context: Block32): Block64 {
    g.kdf(g.hmac(Zeros(32), g.x(k)), context)
  }

  function OnCommit(g: Curve, p: Provider, c: Commit, body: seq<byte>): Outcome
    requires Sized(g)
  {
    var parsed := ParseCommit(body);
    if parsed.Err? then Outcome(p, Err(parsed.error))
    else
      var (peerScalarBytes, peerElementBytes) := parsed.value;
      if peerScalarBytes == c.scalarBytes && peerElementBytes == c.elementBytes then Outcome(p, Err(CryptoError.AuthFailed))
      else
        var s := DecodeScalar(g, peerScalarBytes);
        if s.Err? then Outcome(p, Err(s.error))
        else
          var e := DecodeElement(g, peerElementBytes);
          if e.Err? then Outcome(p, Err(e.error))
          else
            var k := SharedPoint(g, c, s.value, e.value);
            if k == g.zero then Outcome(p, Err(CryptoError.AuthFailed))
            else
              var context := ContextBytes(g, c, s.value);
              var keys := Keys(g, k, context);
              var session := Session(peerScalarBytes, peerElementBytes, c.scalarBytes, c.elementBytes,
                                     keys[..32], keys[32..]);
              var sc: u16 := if p.sendConfirm < 0xffff then p.sendConfirm + 1 else 0xffff;
              var frame := ConfirmFrame(g, session, sc);
              Outcome(p.(pmkid := Some(context[..16]), sendConfirm := sc, stage := Confirmed(session),
                         lastSent := frame, sync := 0),
                      Ok(Send(frame)))
  }

  function OnConfirm(g: Curve, p: Provider, s: Session, body: seq<byte>): Outcome {
    if |body| < 34 then Outcome(p, Err(MalformedInput))
    else if ConfirmHash(g, s.kck, body[..2], s.peerScalar, s.peerElement, s.ownScalar, s.ownElement) != body[2..34] then
      Outcome(p, Err(CryptoError.AuthFailed))
    else Outcome(p.(stage := Accepted, lastSent := []), Ok(Done(s.pmk)))
  }

  function OnTokenRequest(p: Provider, c: Commit, body: seq<byte>): Outcome {
    var token := ParseToken(body);
    if token.Err? then Outcome(p, Err(token.error))
    else
      var frame := CommitFrame(c.scalarBytes, c.elementBytes, Some(token.value));
      Outcome(p.(token := Some(token.value), stage := Committed(c), lastSent := frame, sync := 0), Ok(Send(frame)))
  }

  function Start(g: Curve, p: Provider, ctx: Context): Outcome
    requires Sized(g)
  {
    if !p.stage.Idle? then Outcome(p, Err(OutOfOrder))
    else if ctx.akm != Sae then Outcome(p, Err(CryptoError.UnsupportedAkm))
    else
      var c := CommitOf(g, p.password, p.seed, ctx);
      var frame := CommitFrame(c.scalarBytes, c.elementBytes, p.token);
      Outcome(p.(seed := Zeros(96), stage := Committed(c), lastSent := frame, sync := 0), Ok(Send(frame)))
  }

  // Whether the header announces something this exchange can go on from.
  predicate Expected(a: AuthFrame) {
    || (a.seqNo == SEQ_COMMIT && (a.status == STATUS_H2E || a.status == STATUS_ANTI_CLOGGING))
    || (a.seqNo == SEQ_CONFIRM && a.status == STATUS_SUCCESS)
  }

  function OnFrame(g: Curve, p: Provider, frame: seq<byte>): Outcome
    requires Sized(g)
  {
    var parsed := ParseAuth(frame);
    if parsed.Err? then Outcome(p, Err(parsed.error))
    else
      var a := parsed.value;
      if !Expected(a) then Outcome(p, Err(CryptoError.AuthFailed))
      else
        var taken := p.(stage := Failed);
        match p.stage
        case Committed(c) =>
          if a.seqNo != SEQ_COMMIT then Outcome(p, Ok(Wait))
          else if a.status == STATUS_ANTI_CLOGGING then OnTokenRequest(taken, c, a.body)
          else OnCommit(g, taken, c, a.body)
        case Confirmed(s) => if a.seqNo != SEQ_CONFIRM then Outcome(p, Ok(Wait)) else OnConfirm(g, taken, s, a.body)
        case Accepted => Outcome(p, Ok(Wait))
        case Idle => Outcome(p, Err(OutOfOrder))
        case Failed => Outcome(p, Err(CryptoError.AuthFailed))
  }

  // The counter is one octet and wraps.
  function OnTimeout(p: Provider): Outcome {
    match p.stage
    case Committed(_) | Confirmed(_) =>
      var sync: byte := (p.sync + 1) % 256;
      if sync > SYNC_MAX then Outcome(p.(sync := sync), Err(CryptoError.AuthFailed))
      else Outcome(p.(sync := sync), Ok(Send(p.lastSent)))
    case Accepted => Outcome(p, Ok(Wait))
    case Failed => Outcome(p, Err(CryptoError.AuthFailed))
    case Idle => Outcome(p, Err(OutOfOrder))
  }

  // ---- runs of one provider ------------------------------------------------------

  datatype Input = Begin(ctx: Context) | Frame(bytes: seq<byte>) | Timeout

  function Poll(g: Curve, p: Provider, input: Input): Outcome
    requires Sized(g)
  {
    match input
    case Begin(ctx) => Start(g, p, ctx)
    case Frame(bytes) => OnFrame(g, p, bytes)
    case Timeout => OnTimeout(p)
  }

  // A recorded run: the provider before and after each input, and its answers.
  datatype Run = Run(states: seq<Provider>, inputs: seq<Input>, results: seq<Stepped>)

  predicate StepOf(g: Curve, r: Run, i: nat)
    requires Sized(g) && i < |r.inputs| && |r.states| == |r.inputs| + 1 && |r.results| == |r.inputs|
  {
    Outcome(r.states[i + 1], r.results[i]) == Poll(g, r.states[i], r.inputs[i])
  }

  ghost predicate IsRun(g: Curve, r: Run) {
    && Sized(g) && |r.states| == |r.inputs| + 1 && |r.results| == |r.inputs|
    && forall i :: 0 <= i < |r.inputs| ==> StepOf(g, r, i)
  }

  // The run one input longer.
  function Extended(g: Curve, r: Run, input: Input): Run
    requires Sized(g) && r.states != []
  {
    var o := Poll(g, r.states[|r.states| - 1], input);
    Run(r.states + [o.next], r.inputs + [input], r.results + [o.result])
  }

  lemma ExtendedIsRun(g: Curve, r: Run, input: Input)
    requires IsRun(g, r)
    ensures IsRun(g, Extended(g, r, input))
  {
    hide Poll, Sized;
    var e := Extended(g, r, input);
    forall i | 0 <= i < |e.inputs| ensures StepOf(g, e, i) {
      if i < |r.inputs| { assert StepOf(g, r, i); }
    }
  }

  // Whatever is put in, there is a run of it.
  lemma {:induction false} EveryInputHasARun(g: Curve, p: Provider, ins: seq<Input>) returns (r: Run)
    requires Sized(g)
    ensures IsRun(g, r) && r.states[0] == p && r.inputs == ins
  {
    hide Poll, Sized;
    if ins == [] {
      r := Run([p], [], []);
    } else {
      var before := EveryInputHasARun(g, p, ins[..|ins| - 1]);
      r := Extended(g, before, ins[|ins| - 1]);
      ExtendedIsRun(g, before, ins[|ins| - 1]);
      assert ins[..|ins| - 1] + [ins[|ins| - 1]] == ins;
    }
  }

  // A run from a provider that has not started.
  ghost predicate WholeRun(g: Curve, r: Run) {
    IsRun(g, r) && r.states[0].stage.Idle? && Consistent(g, r.states[0])
  }

  predicate SendsAt(r: Run, k: nat)
    requires k < |r.results|
  {
    r.results[k].Ok? && r.results[k].value.Send?
  }

  predicate DoneAt(r: Run, k: nat)
    requires k < |r.results|
  {
    r.results[k].Ok? && r.results[k].value.Done?
  }

  // The frame sent at step `k`, as the peer would read its header.
  function SentAt(r: Run, k: nat): Result<AuthFrame, CryptoError>
    requires k < |r.results| && SendsAt(r, k)
  {
    ParseAuth(r.results[k].value.frame)
  }

  predicate Sends(r: Run, k: nat, seqNo: u16)
    requires k < |r.results|
  {
    SendsAt(r, k) && SentAt(r, k).Ok? && SentAt(r, k).value.seqNo == seqNo
  }

  lemma HeaderReads(seqNo: u16, status: u16, body: seq<byte>)
    ensures ParseAuth(AuthHeader(seqNo, status) + body) == Ok(AuthFrame(seqNo, status, body))
  {
    var f := AuthHeader(seqNo, status) + body;
    assert f[..2] == ToLE16(AUTH_ALG_SAE) && f[2..4] == ToLE16(seqNo) && f[4..6] == ToLE16(status) && f[6..] == body;
  }

  // A commit reads back as its scalar and element, with a token or without.
  lemma CommitReads(scalarBytes: Block32, elementBytes: Block64, token: Option<Token>)
    ensures var a := ParseAuth(CommitFrame(scalarBytes, elementBytes, token));
            a.Ok? && a.value.seqNo == SEQ_COMMIT && a.value.status == STATUS_H2E
            && ParseCommit(a.value.body) == Ok((scalarBytes, elementBytes))
  {
    var body := ToLE16(GROUP_P256) + scalarBytes + elementBytes + TokenElement(token);
    HeaderReads(SEQ_COMMIT, STATUS_H2E, body);
    assert body[..2] == ToLE16(GROUP_P256) && body[2..34] == scalarBytes && body[34..98] == elementBytes;
  }

  lemma ConfirmReads(g: Curve, s: Session, sc: u16)
    ensures var a := ParseAuth(ConfirmFrame(g, s, sc));
            a.Ok? && a.value.seqNo == SEQ_CONFIRM && a.value.status == STATUS_SUCCESS
            && |a.value.body| == 34 && a.value.body[..2] == ToLE16(sc)
            && a.value.body[2..34] == ConfirmHash(g, s.kck, ToLE16(sc), s.ownScalar, s.ownElement, s.peerScalar, s.peerElement)
  {
    var hash := ConfirmHash(g, s.kck, ToLE16(sc), s.ownScalar, s.ownElement, s.peerScalar, s.peerElement);
    HeaderReads(SEQ_CONFIRM, STATUS_SUCCESS, ToLE16(sc) + hash);
    assert (ToLE16(sc) + hash)[2..34] == hash;
  }

  // What the provider remembers of the frame it last sent.
  predicate Consistent(g: Curve, p: Provider) {
    match p.stage
    case Idle => p.sendConfirm == 0 && p.token.None?
    case Committed(c) => p.sendConfirm == 0 && p.lastSent == CommitFrame(c.scalarBytes, c.elementBytes, p.token)
    case Confirmed(s) => p.sendConfirm == 1 && p.lastSent == ConfirmFrame(g, s, 1)
    case Accepted => true
    case Failed => true
  }

  // What an accepted, or refused, commit comes to.
  lemma CommitShape(g: Curve, p: Provider, c: Commit, body: seq<byte>)
    requires Sized(g) && p.sendConfirm == 0
    ensures var o := OnCommit(g, p, c, body);
            && (o.result.Err? ==> o.next == p)
            && (o.result.Ok? ==>
                  && o.next.stage.Confirmed? && o.next.sync == 0 && o.next.sendConfirm == 1
                  && o.result.value == Send(o.next.lastSent) && o.next.lastSent == ConfirmFrame(g, o.next.stage.session, 1)
                  && o.next.pmkid.Some? && |o.next.lastSent| == 40)
  {
    hide ParseCommit, DecodeScalar, DecodeElement, SharedPoint, ContextBytes, Keys, ConfirmHash;
  }

  // One input: which stages follow which, and what is said on the way.
  lemma StepShape(g: Curve, p: Provider, input: Input)
    requires Sized(g) && Consistent(g, p)
    ensures var o := Poll(g, p, input);
            var sends := o.result.Ok? && o.result.value.Send?;
            && Consistent(g, o.next)
            && (o.next.stage.Committed? ==> p.stage.Idle? || p.stage == o.next.stage)
            && (o.next.stage.Idle? ==> p.stage.Idle?)
            && (o.next.stage.Confirmed? ==> p.stage.Committed? || p.stage == o.next.stage)
            && (sends ==> (o.next.stage.Committed? || o.next.stage.Confirmed?) && o.result.value.frame == o.next.lastSent)
            && (!sends && (o.next.stage.Committed? || o.next.stage.Confirmed?) ==>
                  o.next.lastSent == p.lastSent && o.next.stage == p.stage)
            && (o.result.Ok? && o.result.value.Done? ==> p.stage.Confirmed? && o.next.stage.Accepted?)
            && (p.stage.Accepted? || p.stage.Failed? ==> o.next.stage == p.stage)
            && (sends && !input.Timeout? ==> o.next.sync == 0)
            && (!sends && !input.Timeout? && (o.next.stage.Committed? || o.next.stage.Confirmed?) ==> o.next == p)
  {
    hide CommitOf, CommitFrame, ConfirmFrame, OnCommit, ParseToken, ConfirmHash, ParseAuth, Expected;
    if input.Frame? && p.stage.Committed? {
      var a := ParseAuth(input.bytes);
      if a.Ok? { CommitShape(g, p.(stage := Failed), p.stage.commit, a.value.body); }
    }
  }

  lemma {:induction false} ConsistentRun(g: Curve, r: Run, k: nat)
    requires IsRun(g, r) && Consistent(g, r.states[0]) && k < |r.states|
    ensures Consistent(g, r.states[k])
  {
    hide Poll, Consistent, Sized;
    if k > 0 {
      ConsistentRun(g, r, k - 1);
      assert StepOf(g, r, k - 1);
      StepShape(g, r.states[k - 1], r.inputs[k - 1]);
    }
  }

  // The shape of step `k` of a run.
  lemma ShapeAt(g: Curve, r: Run, k: nat)
    requires IsRun(g, r) && Consistent(g, r.states[0]) && k < |r.inputs|
    ensures Consistent(g, r.states[k]) && Consistent(g, r.states[k + 1])
    ensures StepOf(g, r, k)
    ensures var p, n := r.states[k], r.states[k + 1];
            && (n.stage.Committed? ==> p.stage.Idle? || p.stage == n.stage)
            && (n.stage.Idle? ==> p.stage.Idle?)
            && (n.stage.Confirmed? ==> p.stage.Committed? || p.stage == n.stage)
            && (SendsAt(r, k) ==> (n.stage.Committed? || n.stage.Confirmed?) && r.results[k].value.frame == n.lastSent)
            && (!SendsAt(r, k) && (n.stage.Committed? || n.stage.Confirmed?) ==> n.lastSent == p.lastSent && n.stage == p.stage)
            && (DoneAt(r, k) ==> p.stage.Confirmed? && n.stage.Accepted?)
            && (p.stage.Accepted? || p.stage.Failed? ==> n.stage == p.stage)
            && (SendsAt(r, k) && !r.inputs[k].Timeout? ==> n.sync == 0)
            && (!SendsAt(r, k) && !r.inputs[k].Timeout? && (n.stage.Committed? || n.stage.Confirmed?) ==> n == p)
  {
    hide Poll, Consistent, Sized;
    ConsistentRun(g, r, k);
    assert StepOf(g, r, k);
    StepShape(g, r.states[k], r.inputs[k]);
  }

  // Being in Committed at `k` after being there at `j` means never having left.
  lemma {:induction false} CommitKept(g: Curve, r: Run, j: nat, k: nat)
    requires WholeRun(g, r) && j <= k < |r.states|
    requires r.states[j].stage.Committed? && r.states[k].stage.Committed?
    ensures r.states[j].stage == r.states[k].stage
  {
    hide Poll, Consistent, Sized;
    if j < k {
      ShapeAt(g, r, k - 1);
      NeverIdleAgain(g, r, j, k - 1);
      CommitKept(g, r, j, k - 1);
    }
  }

  lemma {:induction false} NeverIdleAgain(g: Curve, r: Run, j: nat, k: nat)
    requires IsRun(g, r) && Consistent(g, r.states[0]) && j <= k < |r.states| && !r.states[j].stage.Idle?
    ensures !r.states[k].stage.Idle?
  {
    hide Poll, Consistent, Sized;
    if j < k {
      NeverIdleAgain(g, r, j, k - 1);
      ShapeAt(g, r, k - 1);
    }
  }

  // What a frame sent at `k` is, from the state that sent it.
  lemma SentShape(g: Curve, r: Run, k: nat)
    requires WholeRun(g, r) && k < |r.inputs| && SendsAt(r, k)
    ensures var s := r.states[k + 1].stage;
            && SentAt(r, k).Ok?
            && (SentAt(r, k).value.seqNo == SEQ_COMMIT <==> s.Committed?)
            && (SentAt(r, k).value.seqNo == SEQ_CONFIRM <==> s.Confirmed?)
            && (s.Committed? ==> ParseCommit(SentAt(r, k).value.body) == Ok((s.commit.scalarBytes, s.commit.elementBytes)))
            && (s.Confirmed? ==> |SentAt(r, k).value.body| == 34 && SentAt(r, k).value.body[..2] == ToLE16(1))
  {
    hide Poll, CommitFrame, ConfirmFrame, ParseCommit, ConfirmHash, ParseAuth, Sized;
    ShapeAt(g, r, k);
    var n := r.states[k + 1];
    match n.stage {
      case Committed(c) => CommitReads(c.scalarBytes, c.elementBytes, n.token);
      case Confirmed(s) => ConfirmReads(g, s, 1);
      case _ =>
    }
  }

  // Any two commits of a run carry the same scalar and the same element.
  lemma OneCommit(g: Curve, r: Run, j: nat, k: nat)
    requires WholeRun(g, r) && j <= k < |r.inputs| && Sends(r, j, SEQ_COMMIT) && Sends(r, k, SEQ_COMMIT)
    ensures ParseCommit(SentAt(r, j).value.body).Ok?
    ensures ParseCommit(SentAt(r, j).value.body) == ParseCommit(SentAt(r, k).value.body)
  {
    hide Poll, ParseCommit, ParseAuth, Consistent, Sized;
    SentShape(g, r, j);
    SentShape(g, r, k);
    CommitKept(g, r, j + 1, k + 1);
  }

  // Every confirm sent in a run is number one.
  lemma OneSendConfirm(g: Curve, r: Run, k: nat)
    requires WholeRun(g, r) && k < |r.inputs| && Sends(r, k, SEQ_CONFIRM)
    ensures |SentAt(r, k).value.body| == 34 && SentAt(r, k).value.body[..2] == ToLE16(1)
  {
    hide Poll, ParseCommit, ParseAuth, Consistent, Sized;
    SentShape(g, r, k);
  }

  // A provider under way remembers the last frame it sent.
  lemma {:induction false} LastSentIsLast(g: Curve, r: Run, n: nat) returns (j: nat)
    requires WholeRun(g, r) && n < |r.states| && Waiting(r.states[n])
    ensures j < n && SendsAt(r, j) && r.results[j].value.frame == r.states[n].lastSent
    ensures forall i :: j < i < n ==> !SendsAt(r, i)
  {
    hide Poll, Consistent, Sized;
    ShapeAt(g, r, n - 1);
    if SendsAt(r, n - 1) {
      j := n - 1;
    } else {
      j := LastSentIsLast(g, r, n - 1);
    }
  }

  // A timeout that sends anything sends the last frame again, octet for octet.
  lemma ResendIsIdentical(g: Curve, r: Run, k: nat) returns (j: nat)
    requires WholeRun(g, r) && k < |r.inputs| && r.inputs[k] == Timeout && SendsAt(r, k)
    ensures j < k && SendsAt(r, j) && (forall i :: j < i < k ==> !SendsAt(r, i))
    ensures r.results[k] == r.results[j]
  {
    hide Consistent, Sized;
    assert StepOf(g, r, k);
    j := LastSentIsLast(g, r, k);
  }

  // ---- how often a frame is resent -----------------------------------------------

  predicate Waiting(p: Provider) {
    p.stage.Committed? || p.stage.Confirmed?
  }

  // Timeouts among the first `n` inputs.
  function Timeouts(ins: seq<Input>, n: nat): (t: nat)
    requires n <= |ins|
    ensures t <= n
  {
    if n == 0 then 0 else Timeouts(ins, n - 1) + if ins[n - 1].Timeout? then 1 else 0
  }

  // Frames sent by the first `n` steps.
  function SendCount(r: Run, n: nat): nat
    requires n <= |r.results|
  {
    if n == 0 then 0 else SendCount(r, n - 1) + if SendsAt(r, n - 1) then 1 else 0
  }

  // A stretch of a run that begins with a frame just accepted and in which
  // nothing but timeouts makes the provider send: the peer is silent, or what
  // it says is dropped.
  ghost predicate Quiet(g: Curve, r: Run) {
    && IsRun(g, r) && Consistent(g, r.states[0]) && Waiting(r.states[0]) && r.states[0].sync == 0
    && Waiting(r.states[|r.inputs|])
    && forall i :: 0 <= i < |r.inputs| && !r.inputs[i].Timeout? ==> !SendsAt(r, i)
  }

  lemma TimeoutStep(p: Provider, t: nat)
    requires Waiting(p) && p.sync == t % 256
    ensures OnTimeout(p) == Outcome(p.(sync := (t + 1) % 256),
                                    if (t + 1) % 256 <= SYNC_MAX then Ok(Send(p.lastSent)) else Err(CryptoError.AuthFailed))
  {
    assert (p.sync + 1) % 256 == (t + 1) % 256;
  }

  lemma {:induction false} SyncCounts(g: Curve, r: Run, n: nat)
    requires Quiet(g, r) && n < |r.states|
    ensures r.states[n] == r.states[0].(sync := Timeouts(r.inputs, n) % 256)
  {
    hide OnFrame, Start, OnTimeout, Consistent, Sized;
    if n > 0 {
      SyncCounts(g, r, n - 1);
      WaitingBefore(g, r, n);
      ShapeAt(g, r, n - 1);
      if r.inputs[n - 1].Timeout? { TimeoutStep(r.states[n - 1], Timeouts(r.inputs, n - 1)); }
    }
  }

  lemma {:induction false} WaitingBefore(g: Curve, r: Run, n: nat)
    requires Quiet(g, r) && n < |r.states|
    ensures Waiting(r.states[n])
    decreases |r.inputs| - n
  {
    hide Poll, Consistent, Sized;
    if n < |r.inputs| {
      WaitingBefore(g, r, n + 1);
      NeverIdleAgain(g, r, 0, n);
      ShapeAt(g, r, n);
    }
  }

  // The exact law of retransmission. After an accepted frame, which clears the
  // counter, the t-th timeout resends exactly when t modulo 256 is at most
  // SYNC_MAX, because the counter is one octet.
  lemma ResendLaw(g: Curve, r: Run, k: nat)
    requires Quiet(g, r) && k < |r.inputs| && r.inputs[k].Timeout?
    ensures r.results[k] == if Timeouts(r.inputs, k + 1) % 256 <= SYNC_MAX then Ok(Send(r.states[0].lastSent))
                            else Err(CryptoError.AuthFailed)
  {
    hide OnFrame, Start, OnTimeout, Consistent, Waiting, Sized;
    WaitingBefore(g, r, k);
    SyncCounts(g, r, k);
    assert StepOf(g, r, k);
    TimeoutStep(r.states[k], Timeouts(r.inputs, k));
  }

  lemma {:induction false} ResendCount(g: Curve, r: Run, n: nat)
    requires Quiet(g, r) && n <= |r.inputs|
    ensures var t := Timeouts(r.inputs, n);
            && (t < 256 ==> SendCount(r, n) == if t <= SYNC_MAX then t else SYNC_MAX)
            && (t >= 256 ==> SendCount(r, n) > SYNC_MAX)
  {
    hide Poll, Consistent, Sized;
    if n > 0 {
      ResendCount(g, r, n - 1);
      if r.inputs[n - 1].Timeout? { ResendLaw(g, r, n - 1); }
    }
  }

  // So a frame is sent again at most SYNC_MAX times if and only if the caller
  // gives up within 255 timeouts, as one that heeds the first refusal does.
  lemma AtMostSyncMaxResends(g: Curve, r: Run)
    requires Quiet(g, r)
    ensures SendCount(r, |r.inputs|) <= SYNC_MAX <==> Timeouts(r.inputs, |r.inputs|) < 256
  {
    ResendCount(g, r, |r.inputs|);
  }

  lemma {:induction false} SilenceWaits(g: Curve, r: Run, n: nat)
    requires IsRun(g, r) && n < |r.states| && Waiting(r.states[0])
    requires forall i :: 0 <= i < n ==> r.inputs[i] == Timeout
    ensures Waiting(r.states[n])
  {
    hide OnFrame, Start, Sized;
    if n > 0 {
      SilenceWaits(g, r, n - 1);
      assert StepOf(g, r, n - 1) && r.inputs[n - 1] == Timeout;
    }
  }

  lemma {:induction false} AllTimeouts(ins: seq<Input>, n: nat)
    requires n <= |ins| && forall i :: 0 <= i < n ==> ins[i] == Timeout
    ensures Timeouts(ins, n) == n
  {
    if n > 0 { AllTimeouts(ins, n - 1); }
  }

  const OCTET_VALUES: nat := 256

  // A caller that goes on regardless gets there: 256 timeouts in a row resend
  // the first commit once too often.
  lemma OneResendTooMany(g: Curve, password: seq<byte>, seed: Seed, ctx: Context) returns (r: Run)
    requires Sized(g) && ctx.akm == Sae
    ensures r.states != [] && r.states[0] == Start(g, WithSeed(password, seed), ctx).next
    ensures Quiet(g, r) && Timeouts(r.inputs, |r.inputs|) == OCTET_VALUES
    ensures SendCount(r, |r.inputs|) > SYNC_MAX
  {
    hide CommitOf, CommitFrame, Poll, Sized;
    var p := Start(g, WithSeed(password, seed), ctx).next;
    r := EveryInputHasARun(g, p, seq(OCTET_VALUES, i => Timeout));
    AllTimeouts(r.inputs, |r.inputs|);
    SilenceWaits(g, r, |r.inputs|);
    AtMostSyncMaxResends(g, r);
  }

  // ---- the key is handed over once ----------------------------------------------

  lemma {:induction false} EndedStays(g: Curve, r: Run, j: nat, k: nat)
    requires IsRun(g, r) && Consistent(g, r.states[0]) && j <= k < |r.states|
    requires r.states[j].stage.Accepted? || r.states[j].stage.Failed?
    ensures r.states[k].stage == r.states[j].stage
  {
    hide Poll, Consistent, Sized;
    if j < k {
      EndedStays(g, r, j, k - 1);
      ShapeAt(g, r, k - 1);
    }
  }

  // The PMK comes out at most once, at a frame whose confirm verified against
  // the session the two commits made.
  lemma DoneOnce(g: Curve, r: Run, j: nat, k: nat)
    requires WholeRun(g, r) && j < k < |r.inputs| && DoneAt(r, j)
    ensures !DoneAt(r, k)
  {
    hide Poll, Consistent, Sized;
    ShapeAt(g, r, j);
    EndedStays(g, r, j + 1, k);
    ShapeAt(g, r, k);
  }

  lemma DoneMeansVerified(g: Curve, r: Run, k: nat)
    requires IsRun(g, r) && k < |r.inputs| && DoneAt(r, k)
    ensures r.states[k].stage.Confirmed? && r.inputs[k].Frame?
    ensures var s := r.states[k].stage.session;
            var a := ParseAuth(r.inputs[k].bytes);
            && a.Ok? && a.value.seqNo == SEQ_CONFIRM && |a.value.body| >= 34
            && a.value.body[2..34]
                 == ConfirmHash(g, s.kck, a.value.body[..2], s.peerScalar, s.peerElement, s.ownScalar, s.ownElement)
            && r.results[k] == Ok(Done(s.pmk))
  {
    hide CommitOf, CommitFrame, ConfirmFrame, ParseCommit, ParseToken, DecodeScalar, DecodeElement, SharedPoint, ContextBytes,
         Keys, ConfirmHash, ParseAuth, Sized;
    assert StepOf(g, r, k);
  }
}
