// Two SAE providers that share a password agree on a key
// (crates/caw-crypto/src/sae.rs:252-379, 525-545).

module SaeAgreement {
  import opened Bytes
  import opened Suites
  import opened Crypto
  import opened SaeExchange

  // The laws of a cyclic group of prime order, written additively, and of an
  // encoding of its points; one predicate each, so that a proof names the
  // instances it uses.
  predicate Closed(g: Curve, p: Point, q: Point, a: nat) {
    g.on(p) && g.on(q) ==> g.on(g.add(p, q)) && g.on(g.neg(p)) && g.on(g.mul(a, p))
  }

  predicate Associates(g: Curve, p: Point, q: Point, s: Point) {
    g.on(p) && g.on(q) && g.on(s) ==> g.add(g.add(p, q), s) == g.add(p, g.add(q, s))
  }

  predicate HasUnit(g: Curve, p: Point) {
    g.on(p) ==> g.add(p, g.zero) == p && g.add(p, g.neg(p)) == g.zero
  }

  predicate Distributes(g: Curve, a: nat, b: nat, p: Point) {
    g.on(p) ==> g.mul(a + b, p) == g.add(g.mul(a, p), g.mul(b, p))
  }

  predicate Composes(g: Curve, a: nat, b: nat, p: Point) {
    g.on(p) ==> g.mul(a, g.mul(b, p)) == g.mul(a * b, p)
  }

  predicate Reduces(g: Curve, a: nat, p: Point)
    requires g.order > 0
  {
    g.on(p) ==> g.mul(a % g.order, p) == g.mul(a, p)
  }

  // What primality gives: a multiple vanishes only when the multiplier or the
  // point does.
  predicate NoTorsion(g: Curve, a: nat, p: Point)
    requires g.order > 0
  {
    g.on(p) && g.mul(a, p) == g.zero ==> a % g.order == 0 || p == g.zero
  }

  predicate Decodes(g: Curve, p: Point) {
    g.on(p) && p != g.zero ==> g.decode(g.encode(p)) == Some(p)
  }

  ghost predicate Lawful(g: Curve) {
    && Sized(g)
    && g.on(g.zero)
    && (forall s, w, i :: g.on(g.toPoint(s, w, i)))
    && (forall p, q, a :: Closed(g, p, q, a))
    && (forall p, q, s :: Associates(g, p, q, s))
    && (forall p :: HasUnit(g, p))
    && (forall a, b, p :: Distributes(g, a, b, p))
    && (forall a, b, p :: Composes(g, a, b, p))
    && (forall a, p :: Reduces(g, a, p))
    && (forall a, p :: NoTorsion(g, a, p))
    && (forall p :: Decodes(g, p))
  }

  // The integers modulo 5, each point its own encoding.
  function ModFive(): Curve {
    Curve(5, p => p < 5, 0, (p, q) => (p + q) % 5, p => (4 * p) % 5, (a: nat, p: Point) => (a * p) % 5,
          p => [p % 256] + Zeros(63), s => if |s| == 64 && s[0] < 5 then Some(s[0]) else None,
          p => Zeros(32), (s, w, i) => 1, (k, d) => Zeros(32), (k, d) => Zeros(64))
  }

  lemma ModFiveAdds(p: Point, q: Point, a: nat)
    ensures var g := ModFive(); Closed(g, p, q, a) && HasUnit(g, p) && Decodes(g, p)
  {
  }

  lemma PlusRest(x: nat, y: nat)
    ensures (x % 5 + y) % 5 == (x + y) % 5
  {
    assert x + y == 5 * (x / 5) + (x % 5 + y);
    Offset(x / 5, x % 5 + y);
  }

  lemma ModFiveAssociates(p: Point, q: Point, s: Point)
    ensures Associates(ModFive(), p, q, s)
  {
    PlusRest(p + q, s);
    PlusRest(q + s, p);
    assert ((p + q) % 5 + s) % 5 == (p + (q + s) % 5) % 5;
  }

  lemma ModFiveDistributes(a: nat, b: nat, p: Point)
    ensures Distributes(ModFive(), a, b, p)
  {
    SumModFive(a, b, p);
  }

  lemma ModFiveComposes(a: nat, b: nat, p: Point)
    ensures Composes(ModFive(), a, b, p)
  {
    ProductModFive(a, b * p);
    assert a * b * p == a * (b * p);
  }

  lemma ModFiveReduces(a: nat, p: Point)
    ensures var g := ModFive(); Reduces(g, a, p) && NoTorsion(g, a, p)
  {
    ProductModFive(p, a);
    assert p * a == a * p && p * (a % 5) == a % 5 * p;
    assert p < 5 ==> p == 0 || p == 1 || p == 2 || p == 3 || p == 4;
  }

  // The laws can be met.
  lemma LawsAreSatisfiable()
    ensures Lawful(ModFive()) && forall ssid, password :: Usable(ModFive(), ssid, password)
  {
    hide Pow256, Closed, Associates, HasUnit, Decodes, Distributes, Composes, Reduces, NoTorsion;
    var g := ModFive();
    assert Sized(g) by { WidthsOfBE(); PowGrows(1, 32); }
    forall p, q, a: nat ensures Closed(g, p, q, a) { ModFiveAdds(p, q, a); }
    forall p, q, s ensures Associates(g, p, q, s) { ModFiveAssociates(p, q, s); }
    forall p ensures HasUnit(g, p) { ModFiveAdds(p, 0, 0); }
    forall p ensures Decodes(g, p) { ModFiveAdds(p, 0, 0); }
    forall a: nat, b: nat, p ensures Distributes(g, a, b, p) { ModFiveDistributes(a, b, p); }
    forall a: nat, b: nat, p ensures Composes(g, a, b, p) { ModFiveComposes(a, b, p); }
    forall a: nat, p ensures Reduces(g, a, p) { ModFiveReduces(a, p); }
    forall a: nat, p ensures NoTorsion(g, a, p) { ModFiveReduces(a, p); }
  }

  lemma Offset(k: int, c: int)
    ensures (5 * k + c) % 5 == c % 5
  {
  }

  lemma SumModFive(a: nat, b: nat, p: nat)
    ensures ((a + b) * p) % 5 == (a * p % 5 + b * p % 5) % 5
  {
    assert (a + b) * p == a * p + b * p;
    var x, y := a * p, b * p;
    assert x + y == 5 * (x / 5 + y / 5) + (x % 5 + y % 5);
    Offset(x / 5 + y / 5, x % 5 + y % 5);
  }

  lemma ProductModFive(a: nat, q: nat)
    ensures (a * (q % 5)) % 5 == (a * q) % 5
  {
    assert a * q == a * (5 * (q / 5) + q % 5) == 5 * (a * (q / 5)) + a * (q % 5);
    Offset(a * (q / 5), a * (q % 5));
  }

  lemma {:induction false} PowGrows(m: nat, n: nat)
    requires m <= n
    ensures Pow256(m) <= Pow256(n)
  {
    if m < n { PowGrows(m, n - 1); }
  }

  // A password whose token is not the identity: every password, for all
  // anybody will ever see, and the one thing the code takes for granted.
  predicate Usable(g: Curve, ssid: seq<byte>, password: seq<byte>) {
    PasswordToken(g, ssid, password) != g.zero
  }

  lemma TokenOn(g: Curve, ssid: seq<byte>, password: seq<byte>)
    requires Lawful(g)
    ensures g.on(PasswordToken(g, ssid, password))
  {
    hide Sized;
    assert Closed(g, g.toPoint(ssid, password, 1), g.toPoint(ssid, password, 2), 0);
  }

  lemma MultipleNotZero(g: Curve, a: nat, p: Point)
    requires Lawful(g) && 0 < a < g.order && g.on(p) && p != g.zero
    ensures g.on(g.mul(a, p)) && g.mul(a, p) != g.zero
  {
    hide Sized;
    assert a % g.order == a;
    assert NoTorsion(g, a, p) && Closed(g, p, p, a);
  }

  lemma ElementNotZero(g: Curve, ctx: Context, password: seq<byte>)
    requires Lawful(g) && Usable(g, ctx.ssid, password)
    ensures var p := PasswordElement(g, PasswordToken(g, ctx.ssid, password), ctx.ownMac, ctx.bssid);
            g.on(p) && p != g.zero
  {
    hide PasswordToken, PasswordScalar, Sized, Pow256;
    TokenOn(g, ctx.ssid, password);
    MultipleNotZero(g, PasswordScalar(g, ctx.ownMac, ctx.bssid), PasswordToken(g, ctx.ssid, password));
  }

  lemma NegNotZero(g: Curve, p: Point)
    requires Lawful(g) && g.on(p)
    ensures g.on(g.neg(p)) && (g.neg(p) == g.zero ==> p == g.zero)
  {
    assert HasUnit(g, p) && Closed(g, p, p, 0);
  }

  lemma ScalarReads(g: Curve, scalar: nat)
    requires Sized(g) && scalar < g.order
    ensures FromBE(BE(scalar, SCALAR_WIDTH)) == scalar
  {
    FromBEOfBE(scalar, SCALAR_WIDTH);
  }

  // A masked point is never the identity, so it can be encoded and reads back.
  lemma ElementReads(g: Curve, mask: nat, p: Point)
    requires Lawful(g) && 0 < mask < g.order && g.on(p) && p != g.zero
    ensures DecodeElement(g, g.encode(g.neg(g.mul(mask, p)))) == Ok(g.neg(g.mul(mask, p)))
  {
    hide Sized;
    MultipleNotZero(g, mask, p);
    NegNotZero(g, g.mul(mask, p));
    assert Decodes(g, g.neg(g.mul(mask, p)));
  }

  // The commit of either end reads back as what was meant.
  lemma CommitElementReads(g: Curve, ctx: Context, password: seq<byte>, seed: Seed)
    requires Lawful(g) && Usable(g, ctx.ssid, password)
    ensures var c := CommitOf(g, password, seed, ctx);
            && c.pwe != g.zero
            && DecodeElement(g, c.elementBytes) == Ok(g.neg(g.mul(Mask(g, seed), c.pwe)))
            && FromBE(c.scalarBytes) == c.scalar && c.scalar < g.order
  {
    hide PasswordToken, PasswordElement, Usable, ScalarFrom, Pow256, FromBE, BE, DecodeElement, Sized, Lawful;
    LawfulIsSized(g);
    var c := CommitOf(g, password, seed, ctx);
    ElementNotZero(g, ctx, password);
    ElementReads(g, Mask(g, seed), c.pwe);
    ScalarReads(g, c.scalar);
  }

  // A scalar times the point, and the matching element added, leave the secret
  // part of the scalar times the point.
  lemma MaskCancels(g: Curve, rand: nat, mask: nat, p: Point)
    requires Lawful(g) && g.on(p)
    ensures g.add(g.mul((rand + mask) % g.order, p), g.neg(g.mul(mask, p))) == g.mul(rand, p)
  {
    var r, m := g.mul(rand, p), g.mul(mask, p);
    assert Closed(g, p, p, rand) && Closed(g, p, p, mask) && Closed(g, m, m, 0);
    assert Reduces(g, rand + mask, p) && Distributes(g, rand, mask, p);
    assert Associates(g, r, m, g.neg(m)) && HasUnit(g, m) && HasUnit(g, r);
  }

  lemma SecretsCommute(g: Curve, a: nat, b: nat, p: Point)
    requires Lawful(g) && g.on(p)
    ensures g.mul(a, g.mul(b, p)) == g.mul(b, g.mul(a, p))
  {
    assert Composes(g, a, b, p) && Composes(g, b, a, p);
    assert a * b == b * a;
  }

  // Two providers on one network, each with the other's address.
  predicate Peers(a: Context, b: Context) {
    a.ssid == b.ssid && a.ownMac == b.bssid && a.bssid == b.ownMac
  }

  lemma SameElement(g: Curve, a: Context, b: Context, password: seq<byte>, seedA: Seed, seedB: Seed)
    requires Sized(g) && Peers(a, b)
    ensures CommitOf(g, password, seedA, a).pwe == CommitOf(g, password, seedB, b).pwe
  {
    hide Pow256, ScalarFrom, PasswordToken, FromBE, Lower, Higher;
    SortedPairSymmetric(a.ownMac, a.bssid);
  }

  // rand_a * rand_b * PWE, from either end.
  lemma SharedSecret(g: Curve, randA: nat, maskA: nat, randB: nat, maskB: nat, p: Point)
    requires Lawful(g) && 0 < randA < g.order && 0 < randB < g.order && g.on(p) && p != g.zero
    ensures var fromB := g.mul(randA, g.add(g.mul((randB + maskB) % g.order, p), g.neg(g.mul(maskB, p))));
            var fromA := g.mul(randB, g.add(g.mul((randA + maskA) % g.order, p), g.neg(g.mul(maskA, p))));
            fromA == fromB && fromB != g.zero
  {
    hide Lawful;
    MaskCancels(g, randA, maskA, p);
    MaskCancels(g, randB, maskB, p);
    SecretsCommute(g, randA, randB, p);
    MultipleNotZero(g, randB, p);
    MultipleNotZero(g, randA, g.mul(randB, p));
  }

  // Both ends compute the same shared point, and it is never the identity.
  lemma SamePoint(g: Curve, a: Context, b: Context, password: seq<byte>, seedA: Seed, seedB: Seed)
    requires Lawful(g) && Usable(g, a.ssid, password) && Peers(a, b)
    ensures var ca, cb := CommitOf(g, password, seedA, a), CommitOf(g, password, seedB, b);
            var ea, eb := g.neg(g.mul(Mask(g, seedA), ca.pwe)), g.neg(g.mul(Mask(g, seedB), cb.pwe));
            && SharedPoint(g, ca, cb.scalar, eb) == SharedPoint(g, cb, ca.scalar, ea)
            && SharedPoint(g, ca, cb.scalar, eb) != g.zero
  {
    hide PasswordToken, PasswordElement, Usable, ScalarFrom, Sized, Pow256, Peers, BE, Lawful;
    LawfulIsSized(g);
    SameElement(g, a, b, password, seedA, seedB);
    ElementNotZero(g, a, password);
    SharedSecret(g, Rand(g, seedA), Mask(g, seedA), Rand(g, seedB), Mask(g, seedB), CommitOf(g, password, seedA, a).pwe);
  }

  // ---- acceptance --------------------------------------------------------------

  // What the code refuses in an honest peer: a scalar of 0 or 1, and a commit
  // equal to its own.
  predicate Acceptable(own: Commit, peer: Commit) {
    peer.scalar >= 2 && (peer.scalarBytes, peer.elementBytes) != (own.scalarBytes, own.elementBytes)
  }

  // The keys one end takes from the other's commit.
  function AgreedKeys(g: Curve, own: Commit, peer: Commit, peerElement: Point): Block64
    requires g.order > 0
  {
    Keys(g, SharedPoint(g, own, peer.scalar, peerElement), ContextBytes(g, own, peer.scalar))
  }

  function SessionOf(own: Commit, peer: Commit, keys: Block64): Session {
    Session(peer.scalarBytes, peer.elementBytes, own.scalarBytes, own.elementBytes, keys[..32], keys[32..])
  }

  // A committed provider takes an honest peer's commit, token or not, exactly
  // when that commit is acceptable.
  lemma CommitAccepted(g: Curve, p: Provider, a: Context, b: Context, password: seq<byte>, seedA: Seed, seedB: Seed,
                       token: Option<Token>)
    requires Lawful(g) && Usable(g, a.ssid, password) && Peers(a, b)
    requires p.stage == Committed(CommitOf(g, password, seedA, a)) && p.sendConfirm == 0
    ensures var own, peer := CommitOf(g, password, seedA, a), CommitOf(g, password, seedB, b);
            var o := OnFrame(g, p, CommitFrame(peer.scalarBytes, peer.elementBytes, token));
            var keys := AgreedKeys(g, own, peer, g.neg(g.mul(Mask(g, seedB), peer.pwe)));
            && (o.result.Ok? <==> Acceptable(own, peer))
            && (o.result.Ok? ==>
                  && o.next.stage == Confirmed(SessionOf(own, peer, keys))
                  && o.next.pmkid == Some(ContextBytes(g, own, peer.scalar)[..16])
                  && o.result == Ok(Send(ConfirmFrame(g, SessionOf(own, peer, keys), 1))))
  {
    hide CommitOf, CommitFrame, ConfirmFrame, ParseCommit, ParseAuth, SharedPoint, ContextBytes, Keys, DecodeElement, Mask,
         Lawful, Usable, Sized;
    assert Sized(g) by { LawfulIsSized(g); }
    var own, peer := CommitOf(g, password, seedA, a), CommitOf(g, password, seedB, b);
    CommitReads(peer.scalarBytes, peer.elementBytes, token);
    CommitElementReads(g, b, password, seedB);
    SamePoint(g, a, b, password, seedA, seedB);
  }

  lemma SameContext(g: Curve, own: Commit, peer: Commit)
    requires g.order > 0
    ensures ContextBytes(g, own, peer.scalar) == ContextBytes(g, peer, own.scalar)
  {
    assert own.scalar + peer.scalar == peer.scalar + own.scalar;
  }

  // The confirm of one end is what the other computes for it.
  lemma ConfirmAccepted(g: Curve, p: Provider, own: Commit, peer: Commit, keys: Block64)
    requires Sized(g) && p.stage == Confirmed(SessionOf(own, peer, keys))
    ensures var o := OnFrame(g, p, ConfirmFrame(g, SessionOf(peer, own, keys), 1));
            o.result == Ok(Done(keys[32..])) && o.next.stage == Accepted && o.next.pmkid == p.pmkid
  {
    hide ConfirmFrame, ParseAuth, ConfirmHash;
    ConfirmReads(g, SessionOf(peer, own, keys), 1);
  }

  // ---- anti-clogging ------------------------------------------------------------

  function TokenRequest(token: Token): seq<byte> {
    AuthHeader(SEQ_COMMIT, STATUS_ANTI_CLOGGING)
    + (ToLE16(GROUP_P256) + ([EID_EXTENSION, |token| + 1, EID_EXT_ANTI_CLOGGING] + token))
  }

  // A token request is answered with the same commit and that token, any
  // number of times.
  lemma TokenAnswered(g: Curve, p: Provider, c: Commit, token: Token)
    requires Sized(g) && p.stage == Committed(c)
    ensures var frame := CommitFrame(c.scalarBytes, c.elementBytes, Some(token));
            OnFrame(g, p, TokenRequest(token))
              == Outcome(p.(token := Some(token), lastSent := frame, sync := 0), Ok(Send(frame)))
  {
    hide CommitFrame, ParseAuth;
    var element := [EID_EXTENSION, |token| + 1, EID_EXT_ANTI_CLOGGING] + token;
    var body := ToLE16(GROUP_P256) + element;
    HeaderReads(SEQ_COMMIT, STATUS_ANTI_CLOGGING, body);
    assert body[2..] == element;
    assert element[3..2 + (element[1] as int)] == token;
  }

  function TokenRequests(tokens: seq<Token>): (ins: seq<Input>)
    ensures |ins| == |tokens| && forall i :: 0 <= i < |tokens| ==> ins[i] == Frame(TokenRequest(tokens[i]))
  {
    seq(|tokens|, i requires 0 <= i < |tokens| => Frame(TokenRequest(tokens[i])))
  }

  function LastToken(tokens: seq<Token>): Option<Token> {
    if tokens == [] then None else Some(tokens[|tokens| - 1])
  }

  // What one end hears: the start, any number of token requests, then the
  // commit and the confirm of the other.
  function Heard(ctx: Context, tokens: seq<Token>, commit: seq<byte>, confirm: seq<byte>): (ins: seq<Input>)
    ensures |ins| == |tokens| + 3
    ensures ins[0] == Begin(ctx) && ins[|tokens| + 1] == Frame(commit) && ins[|tokens| + 2] == Frame(confirm)
    ensures forall i :: 0 <= i < |tokens| ==> ins[1 + i] == Frame(TokenRequest(tokens[i]))
  {
    [Begin(ctx)] + TokenRequests(tokens) + [Frame(commit), Frame(confirm)]
  }

  // A run of one end against that.
  ghost predicate EndRun(g: Curve, r: Run, ctx: Context, password: seq<byte>, seed: Seed, tokens: seq<Token>, commit: seq<byte>, confirm: seq<byte>) {
    IsRun(g, r) && r.states[0] == WithSeed(password, seed) && r.inputs == Heard(ctx, tokens, commit, confirm)
  }

  // A provider that has started and echoed every token asked of it.
  lemma {:induction false} StartedWithTokens(g: Curve, r: Run, password: seq<byte>, seed: Seed, ctx: Context, tokens: seq<Token>,
                                             commit: seq<byte>, confirm: seq<byte>, n: nat)
    requires EndRun(g, r, ctx, password, seed, tokens, commit, confirm) && ctx.akm == Sae && n <= |tokens|
    ensures var c, p := CommitOf(g, password, seed, ctx), r.states[n + 1];
            && p.stage == Committed(c) && p.sendConfirm == 0
            && p.lastSent == CommitFrame(c.scalarBytes, c.elementBytes, LastToken(tokens[..n]))
            && r.results[n] == Ok(Send(p.lastSent))
  {
    hide CommitOf, CommitFrame, OnFrame, OnTimeout, TokenRequest, Heard, Sized;
    assert StepOf(g, r, n);
    if n > 0 {
      StartedWithTokens(g, r, password, seed, ctx, tokens, commit, confirm, n - 1);
      assert r.inputs[n] == Frame(TokenRequest(tokens[n - 1]));
      TokenAnswered(g, r.states[n], CommitOf(g, password, seed, ctx), tokens[n - 1]);
    }
  }

  // ---- the exchange ----------------------------------------------------------------

  // One end, up to its confirm.
  lemma OneEnd(g: Curve, r: Run, a: Context, b: Context, password: seq<byte>, seedA: Seed, seedB: Seed,
               tokens: seq<Token>, peerToken: Option<Token>, confirm: seq<byte>)
    requires Lawful(g) && Usable(g, a.ssid, password) && Peers(a, b) && a.akm == Sae
    requires Acceptable(CommitOf(g, password, seedA, a), CommitOf(g, password, seedB, b))
    requires var peer := CommitOf(g, password, seedB, b);
             EndRun(g, r, a, password, seedA, tokens, CommitFrame(peer.scalarBytes, peer.elementBytes, peerToken), confirm)
    ensures var own, peer := CommitOf(g, password, seedA, a), CommitOf(g, password, seedB, b);
            var keys := AgreedKeys(g, own, peer, g.neg(g.mul(Mask(g, seedB), peer.pwe)));
            var p := r.states[|tokens| + 2];
            && p.stage == Confirmed(SessionOf(own, peer, keys))
            && p.pmkid == Some(ContextBytes(g, own, peer.scalar)[..16])
            && p.lastSent == ConfirmFrame(g, SessionOf(own, peer, keys), 1)
            && r.results[|tokens| + 1] == Ok(Send(p.lastSent))
  {
    hide CommitOf, CommitFrame, OnTimeout, TokenRequest, OnFrame, ConfirmFrame, AgreedKeys, Mask, ContextBytes, Lawful, Usable,
         Acceptable, Start, Heard, Sized, Consistent;
    LawfulIsSized(g);
    var n := |tokens|;
    var peer := CommitOf(g, password, seedB, b);
    var commit := CommitFrame(peer.scalarBytes, peer.elementBytes, peerToken);
    StartedWithTokens(g, r, password, seedA, a, tokens, commit, confirm, n);
    CommitAccepted(g, r.states[n + 1], a, b, password, seedA, seedB, peerToken);
    FreshIsConsistent(g, password, seedA);
    ShapeAt(g, r, n + 1);
  }

  lemma LawfulIsSized(g: Curve)
    requires Lawful(g)
    ensures Sized(g)
  {
  }

  lemma FreshIsConsistent(g: Curve, password: seq<byte>, seed: Seed)
    ensures Consistent(g, WithSeed(password, seed))
  {
  }

  // Two runs, each hearing the last commit and then the confirm of the other.
  ghost predicate Exchange(g: Curve, ra: Run, rb: Run, a: Context, b: Context, password: seq<byte>, seedA: Seed, seedB: Seed,
                           tokensA: seq<Token>, tokensB: seq<Token>) {
    && |ra.states| == |tokensA| + 4 && |rb.states| == |tokensB| + 4
    && EndRun(g, ra, a, password, seedA, tokensA, rb.states[|tokensB| + 1].lastSent, rb.states[|tokensB| + 2].lastSent)
    && EndRun(g, rb, b, password, seedB, tokensB, ra.states[|tokensA| + 1].lastSent, ra.states[|tokensA| + 2].lastSent)
  }

  // Each takes the other's commit, by the guard both put before it.
  predicate Takes(p: Provider, q: Provider) {
    && p.stage.Committed? && q.stage.Committed?
    && Acceptable(p.stage.commit, q.stage.commit) && Acceptable(q.stage.commit, p.stage.commit)
  }

  lemma TakenCommits(g: Curve, ra: Run, rb: Run, a: Context, b: Context, password: seq<byte>, seedA: Seed, seedB: Seed,
                     tokensA: seq<Token>, tokensB: seq<Token>)
    requires Sized(g) && a.akm == Sae && b.akm == Sae
    requires Exchange(g, ra, rb, a, b, password, seedA, seedB, tokensA, tokensB)
    requires Takes(ra.states[|tokensA| + 1], rb.states[|tokensB| + 1])
    ensures Acceptable(CommitOf(g, password, seedA, a), CommitOf(g, password, seedB, b))
    ensures Acceptable(CommitOf(g, password, seedB, b), CommitOf(g, password, seedA, a))
  {
    hide CommitOf, CommitFrame, TokenRequest, Acceptable, Heard, Sized;
    StartedWithTokens(g, ra, password, seedA, a, tokensA, rb.states[|tokensB| + 1].lastSent, rb.states[|tokensB| + 2].lastSent, |tokensA|);
    StartedWithTokens(g, rb, password, seedB, b, tokensB, ra.states[|tokensA| + 1].lastSent, ra.states[|tokensA| + 2].lastSent, |tokensB|);
  }

  // There is such a pair of runs: each end can hear what the other has sent.
  lemma ExchangeHappens(g: Curve, a: Context, b: Context, password: seq<byte>, seedA: Seed, seedB: Seed,
                        tokensA: seq<Token>, tokensB: seq<Token>) returns (ra: Run, rb: Run)
    requires Sized(g)
    ensures Exchange(g, ra, rb, a, b, password, seedA, seedB, tokensA, tokensB)
  {
    hide Poll, TokenRequest, Sized;
    var sa := EveryInputHasARun(g, WithSeed(password, seedA), [Begin(a)] + TokenRequests(tokensA));
    var sb := EveryInputHasARun(g, WithSeed(password, seedB), [Begin(b)] + TokenRequests(tokensB));
    var commitA, commitB := sa.states[|tokensA| + 1].lastSent, sb.states[|tokensB| + 1].lastSent;
    var ca, cb := Extended(g, sa, Frame(commitB)), Extended(g, sb, Frame(commitA));
    ExtendedIsRun(g, sa, Frame(commitB));
    ExtendedIsRun(g, sb, Frame(commitA));
    var confirmA, confirmB := ca.states[|tokensA| + 2].lastSent, cb.states[|tokensB| + 2].lastSent;
    ra, rb := Extended(g, ca, Frame(confirmB)), Extended(g, cb, Frame(confirmA));
    ExtendedIsRun(g, ca, Frame(confirmB));
    ExtendedIsRun(g, cb, Frame(confirmA));
    assert ra.inputs == Heard(a, tokensA, commitB, confirmB);
    assert rb.inputs == Heard(b, tokensB, commitA, confirmA);
  }

  // Up to its confirm, one end answers whatever it hears with the frame it then
  // stands ready to send again.
  lemma EveryFrameIsAnswered(g: Curve, ra: Run, rb: Run, a: Context, b: Context, password: seq<byte>, seedA: Seed, seedB: Seed,
                             tokensA: seq<Token>, tokensB: seq<Token>, n: nat)
    requires Lawful(g) && Usable(g, a.ssid, password) && Peers(a, b) && a.akm == Sae && b.akm == Sae
    requires Exchange(g, ra, rb, a, b, password, seedA, seedB, tokensA, tokensB) && n <= |tokensA| + 1
    requires Takes(ra.states[|tokensA| + 1], rb.states[|tokensB| + 1])
    ensures ra.results[n] == Ok(Send(ra.states[n + 1].lastSent)) && |ra.states[n + 1].lastSent| >= 6
  {
    hide CommitOf, OnTimeout, TokenRequest, OnFrame, Mask, ContextBytes, Lawful, Usable, TokenElement, ConfirmHash,
         Acceptable, Start, Heard, Keys, SharedPoint, Sized, IsRun;
    LawfulIsSized(g);
    TakenCommits(g, ra, rb, a, b, password, seedA, seedB, tokensA, tokensB);
    var na, nb := |tokensA|, |tokensB|;
    if n <= na {
      StartedWithTokens(g, ra, password, seedA, a, tokensA, rb.states[nb + 1].lastSent, rb.states[nb + 2].lastSent, n);
    } else {
      StartedWithTokens(g, rb, password, seedB, b, tokensB, ra.states[na + 1].lastSent, ra.states[na + 2].lastSent, nb);
      OneEnd(g, ra, a, b, password, seedA, seedB, tokensA, LastToken(tokensB[..nb]), rb.states[nb + 2].lastSent);
    }
  }

  // Agreement. Two providers with one password and each other's address, each
  // asked for any number of tokens and each taking the other's last commit,
  // send confirms that the other verifies and end with the same PMK and PMKID.
  lemma BothEndsAgree(g: Curve, ra: Run, rb: Run, a: Context, b: Context, password: seq<byte>, seedA: Seed, seedB: Seed,
                      tokensA: seq<Token>, tokensB: seq<Token>)
    requires Lawful(g) && Usable(g, a.ssid, password) && Peers(a, b) && a.akm == Sae && b.akm == Sae
    requires Exchange(g, ra, rb, a, b, password, seedA, seedB, tokensA, tokensB)
    requires Takes(ra.states[|tokensA| + 1], rb.states[|tokensB| + 1])
    ensures var doneA, doneB := ra.results[|tokensA| + 2], rb.results[|tokensB| + 2];
            var endA, endB := ra.states[|tokensA| + 3], rb.states[|tokensB| + 3];
            && doneA.Ok? && doneA.value.Done? && doneB == doneA
            && endA.pmkid.Some? && endB.pmkid == endA.pmkid
            && endA.stage == Accepted && endB.stage == Accepted
  {
    hide CommitOf, CommitFrame, OnTimeout, TokenRequest, OnFrame, ConfirmFrame, Mask, ContextBytes, Lawful, Usable,
         Acceptable, Start, Heard, Keys, SharedPoint, Sized;
    LawfulIsSized(g);
    TakenCommits(g, ra, rb, a, b, password, seedA, seedB, tokensA, tokensB);
    var ca, cb := CommitOf(g, password, seedA, a), CommitOf(g, password, seedB, b);
    var na, nb := |tokensA|, |tokensB|;
    StartedWithTokens(g, ra, password, seedA, a, tokensA, rb.states[nb + 1].lastSent, rb.states[nb + 2].lastSent, na);
    StartedWithTokens(g, rb, password, seedB, b, tokensB, ra.states[na + 1].lastSent, ra.states[na + 2].lastSent, nb);
    OneEnd(g, ra, a, b, password, seedA, seedB, tokensA, LastToken(tokensB[..nb]), rb.states[nb + 2].lastSent);
    OneEnd(g, rb, b, a, password, seedB, seedA, tokensB, LastToken(tokensA[..na]), ra.states[na + 2].lastSent);
    SamePoint(g, a, b, password, seedA, seedB);
    SameContext(g, ca, cb);
    var keys := AgreedKeys(g, ca, cb, g.neg(g.mul(Mask(g, seedB), cb.pwe)));
    assert StepOf(g, ra, na + 2) && StepOf(g, rb, nb + 2);
    ConfirmAccepted(g, ra.states[na + 2], ca, cb, keys);
    ConfirmAccepted(g, rb.states[nb + 2], cb, ca, keys);
  }

  // ---- instances ----------------------------------------------------------------------

  // A seed for this scalar and this mask.
  function SeedFor(rand: byte, mask: byte): Seed {
    Zeros(47) + [rand] + Zeros(47) + [mask]
  }

  lemma {:induction false} LastOctet(n: nat, last: byte)
    ensures FromBE(Zeros(n) + [last]) == last as nat
    decreases n
  {
    var s := Zeros(n) + [last];
    assert s[..n] == Zeros(n);
    if n > 0 {
      LastOctet(n - 1, 0);
      assert Zeros(n) == Zeros(n - 1) + [0];
    }
  }

  lemma SecretsFor(rand: byte, mask: byte)
    requires 2 <= rand < 5 && 2 <= mask < 5 && Sized(ModFive())
    ensures Rand(ModFive(), SeedFor(rand, mask)) == rand as nat && Mask(ModFive(), SeedFor(rand, mask)) == mask as nat
  {
    hide FromBE, Sized;
    var width: nat := 47;
    LastOctet(width, rand);
    LastOctet(width, mask);
    var seed := SeedFor(rand, mask);
    assert seed[..48] == Zeros(47) + [rand] && seed[48..] == Zeros(47) + [mask];
  }

  lemma ScalarFor(rand: byte, mask: byte, password: seq<byte>, ctx: Context)
    requires 2 <= rand < 5 && 2 <= mask < 5 && Sized(ModFive())
    ensures var c := CommitOf(ModFive(), password, SeedFor(rand, mask), ctx);
            c.scalar == (rand as nat + mask as nat) % 5 && FromBE(c.scalarBytes) == c.scalar
  {
    hide PasswordElement, PasswordToken, FromBE, BE, Pow256, Sized, Rand, Mask, SeedFor;
    SecretsFor(rand, mask);
    ScalarReads(ModFive(), (rand as nat + mask as nat) % 5);
  }

  lemma FourAndTwo(a: Context, b: Context, password: seq<byte>)
    requires Sized(ModFive())
    ensures var ca, cb := CommitOf(ModFive(), password, SeedFor(2, 2), a), CommitOf(ModFive(), password, SeedFor(3, 4), b);
            Acceptable(ca, cb) && Acceptable(cb, ca)
  {
    hide CommitOf, ModFive, Sized, SeedFor, FromBE;
    ScalarFor(2, 2, password, a);
    ScalarFor(3, 4, password, b);
  }

  // Two ends that take each other's commit, and so agree.
  lemma AgreementHappens(a: Context, b: Context, password: seq<byte>) returns (ra: Run, rb: Run)
    requires Peers(a, b) && a.akm == Sae && b.akm == Sae
    ensures Lawful(ModFive()) && Usable(ModFive(), a.ssid, password)
    ensures Exchange(ModFive(), ra, rb, a, b, password, SeedFor(2, 2), SeedFor(3, 4), [], [])
    ensures Takes(ra.states[1], rb.states[1])
    ensures ra.results[2].Ok? && ra.results[2].value.Done? && rb.results[2] == ra.results[2]
  {
    hide Lawful, CommitOf, CommitFrame, OnFrame, OnTimeout, Heard, Sized, ModFive, Usable, StepOf, SeedFor, Acceptable, Peers;
    var g := ModFive();
    LawsAreSatisfiable();
    LawfulIsSized(g);
    var seedA, seedB := SeedFor(2, 2), SeedFor(3, 4);
    ra, rb := ExchangeHappens(g, a, b, password, seedA, seedB, [], []);
    var none: seq<Token> := [];
    StartedWithTokens(g, ra, password, seedA, a, none, rb.states[1].lastSent, rb.states[2].lastSent, 0);
    StartedWithTokens(g, rb, password, seedB, b, none, ra.states[1].lastSent, ra.states[2].lastSent, 0);
    FourAndTwo(a, b, password);
    BothEndsAgree(g, ra, rb, a, b, password, seedA, seedB, none, none);
  }

  // And an honest commit that is refused: its scalar comes to 0.
  lemma HonestCommitRefused(p: Provider, a: Context, b: Context, password: seq<byte>)
    requires Peers(a, b) && Sized(ModFive()) && p.sendConfirm == 0
    requires p.stage == Committed(CommitOf(ModFive(), password, SeedFor(2, 2), a))
    ensures var peer := CommitOf(ModFive(), password, SeedFor(3, 2), b);
            && peer.scalar == 0
            && OnFrame(ModFive(), p, CommitFrame(peer.scalarBytes, peer.elementBytes, None)).result.Err?
  {
    hide Lawful, CommitOf, CommitFrame, OnFrame, ModFive, AgreedKeys, ConfirmFrame, ContextBytes, Sized, SessionOf, Usable, Peers, FromBE, SeedFor;
    LawsAreSatisfiable();
    ScalarFor(3, 2, password, b);
    CommitAccepted(ModFive(), p, a, b, password, SeedFor(2, 2), SeedFor(3, 2), None);
  }
}
