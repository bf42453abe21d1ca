// The handlers of the connection, each shown to keep the invariant.

module ConnSteps {
  import opened Bytes
  import opened Suites
  import opened Policy
  import opened Connection
  import opened ConnParts
  import opened ConnInvariant
  import C = Crypto
  import E = Eapol
  import H = FourWayHandshake
  import S = SaeExchange
  import D = Dot1x
  import Y = DhcpClient

  // ---- association ----------------------------------------------------------------------

  // A session about to send its association request.
  predicate Staged(s: Session) {
    && OriginOk(s.origin, s.choice) && s.handshake.None?
    && (s.choice.rsn.None? ==> s.assocIe == [])
    && match s.auth
       case OpenAuth => s.choice.rsn.None?
       case Offloaded(_) => s.choice.rsn.Some?
       case Ready(_) => s.choice.rsn.Some?
       case PostAssoc(_, eap) => s.choice.rsn.Some? && RepeatsEap(eap)
       case _ => false
  }

  // The session as the request leaves it.
  function Sent(device: Device, ssid: seq<byte>, s: Session): Session {
    s.(auth := if s.auth.Offloaded? then OpenAuth else s.auth,
       assocIe := if s.choice.rsn.Some? then RequestFor(device, ssid, s).ies else s.assocIe)
  }

  lemma SentIsOk(device: Device, ssid: seq<byte>, s: Session, seen: Seen)
    requires Staged(s) && seen.request == Some(RequestFor(device, ssid, s))
    ensures SessionOk(Sent(device, ssid, s), seen)
    ensures AssociateOk(Sent(device, ssid, s), RequestFor(device, ssid, s))
    ensures var auth := Sent(device, ssid, s).auth; auth.OpenAuth? || auth.Ready? || auth.PostAssoc?
    ensures seen.keyed.None? ==> Suits(Sent(device, ssid, s), Associating, seen)
  {
    hide OriginOk, Elements, RepeatsEap;
  }

  lemma SendAssociationKeeps(tame: bool, heard: Option<seq<byte>>, s0: Seen, t: Turn)
    requires Timed(t.c, Observed(s0, t.out)) && AllPlain(t.out)
    requires t.c.target.Some? && t.c.session.Some? && Staged(t.c.session.value)
    ensures Good(tame, heard, s0, SendAssociation(t)) && Waits(s0, SendAssociation(t))
  {
    hide Observed, Enter, Arm, SessionOk, AssociateOk, Plain, RequestFor, Staged, Suits;
    var s := t.c.session.value;
    var request := RequestFor(t.c.device, Ssid(t.c), s);
    var sent := Sent(t.c.device, Ssid(t.c), s);
    var begun := t.(c := t.c.(session := Some(sent)));
    EnterKeeps(s0, begun, Associating);
    var u := Enter(begun, Associating);
    var v := Push(u, Associate(request));
    PushSeen(s0, u, Associate(request));
    ArmKeeps(s0, v, AssocTimeout, ASSOC_TIMEOUT_MS);
    var w := Arm(v, AssocTimeout, ASSOC_TIMEOUT_MS);
    assert SendAssociation(t) == w;
    PlainIsOk(w.c.session, heard, u.out);
    PushRetries(w.c.session, u.out, Associate(request));
    PushRetries(w.c.session, v.out, SetTimer(AssocTimeout, ASSOC_TIMEOUT_MS));
    SentIsOk(t.c.device, Ssid(t.c), s, Observed(s0, w.out));
    forall i | 0 <= i < |w.out| ensures ActionOk(w.c.session, heard, w.out[i]) {
      if i < |u.out| { assert Plain(u.out[i]); PlainActionOk(w.c.session, heard, u.out[i]); }
    }
  }

  lemma PlainActionOk(session: Option<Session>, heard: Option<seq<byte>>, a: Action)
    requires Plain(a)
    ensures ActionOk(session, heard, a)
  {
  }

  // ---- SAE ------------------------------------------------------------------------------

  // A session in its pre-association exchange.
  predicate PreStaged(s: Session) {
    && OriginOk(s.origin, s.choice) && s.handshake.None? && s.auth.PreAssoc?
    && s.choice.rsn.Some? && s.choice.rsn.value.akm.Sae?
  }

  lemma PreStagedIsOk(s: Session, seen: Seen)
    requires PreStaged(s)
    ensures SessionOk(s, seen)
  {
    hide OriginOk;
  }

  lemma OkIsPreStaged(s: Session, seen: Seen)
    requires SessionOk(s, seen) && s.auth.PreAssoc?
    ensures PreStaged(s)
  {
    hide OriginOk;
  }

  lemma AuthenticatingIsGood(tame: bool, heard: Option<seq<byte>>, s0: Seen, t: Turn)
    requires Timed(t.c, Observed(s0, t.out)) && Actions(t.c.session, heard, t.out)
    requires t.c.state == Authenticating && t.c.target.Some? && t.c.session.Some?
    requires PreStaged(t.c.session.value) && InProgress(t.c.session.value.auth.sae)
    ensures Good(tame, heard, s0, t)
  {
    hide Observed, Timed, Actions, PreStaged, InProgress, SessionOk;
    var s := t.c.session.value;
    PreStagedIsOk(s, Observed(s0, t.out));
    assert s.auth.PreAssoc? by { PreStagedShape(s); }
  }

  lemma PreStagedShape(s: Session)
    requires PreStaged(s)
    ensures s.auth.PreAssoc? && s.handshake.None? && s.choice.rsn.Some? && s.choice.rsn.value.akm.Sae?
  {
  }

  lemma SaeSendKeeps(tame: bool, heard: Option<seq<byte>>, s0: Seen, t: Turn, frame: seq<byte>)
    requires Timed(t.c, Observed(s0, t.out)) && AllPlain(t.out)
    requires t.c.state == Authenticating && t.c.target.Some? && t.c.session.Some?
    requires PreStaged(t.c.session.value) && InProgress(t.c.session.value.auth.sae) && |frame| >= 6
    ensures Good(tame, heard, s0, OnSaeStep(t, Ok(S.Send(frame)))) && Waits(s0, OnSaeStep(t, Ok(S.Send(frame))))
  {
    hide Observed, Arm, Plain, PreStaged, InProgress, Good, Timed;
    var choice := t.c.session.value.choice;
    var request := AuthRequest(t.c.device.ifindex, Ssid(t.c), choice.bssid, choice.freqMhz, AUTHTYPE_SAE, frame[2..]);
    var u := Push(t, Authenticate(request));
    PushSeen(s0, t, Authenticate(request));
    PreStagedShape(t.c.session.value);
    ArmKeeps(s0, u, AuthTimeout, AUTH_TIMEOUT_MS);
    var v := Arm(u, AuthTimeout, AUTH_TIMEOUT_MS);
    PlainIsOk(v.c.session, heard, t.out);
    PushRetries(v.c.session, t.out, Authenticate(request));
    PushRetries(v.c.session, u.out, SetTimer(AuthTimeout, AUTH_TIMEOUT_MS));
    forall i | 0 <= i < |v.out| ensures ActionOk(v.c.session, heard, v.out[i]) {
      if i < |t.out| { assert Plain(t.out[i]); PlainActionOk(v.c.session, heard, t.out[i]); }
    }
    AuthenticatingIsGood(tame, heard, s0, v);
  }

  lemma SaeStepKeeps(tame: bool, heard: Option<seq<byte>>, s0: Seen, t: Turn, r: S.Stepped, before: S.Provider)
    requires Timed(t.c, Observed(s0, t.out)) && AllPlain(t.out)
    requires t.c.state == Authenticating && t.c.target.Some? && t.c.session.Some? && PreStaged(t.c.session.value)
    requires InProgress(before) || (r.Ok? && r.value.Send?)
    requires Carries(r, t.c.session.value.auth.sae, before)
    ensures Good(tame, heard, s0, OnSaeStep(t, r))
    ensures if r.Ok? && r.value.Wait? then OnSaeStep(t, r) == t else Waits(s0, OnSaeStep(t, r))
  {
    hide Observed, Plain, Good, Waits, InProgress, Fail, SendAssociation, OriginOk;
    if r.Err? {
      FailKeeps(tame, heard, s0, t, FailureOfCrypto(r.error));
    } else {
      match r.value {
        case Send(frame) => SaeSendKeeps(tame, heard, s0, t, frame);
        case Wait =>
          PlainIsOk(t.c.session, heard, t.out);
          AuthenticatingIsGood(tame, heard, s0, t);
        case Done(pmk) =>
          var s := t.c.session.value;
          var u := t.(c := t.c.(session := Some(s.(pmkid := s.auth.sae.pmkid, auth := Ready(pmk)))));
          SendAssociationKeeps(tame, heard, s0, u);
      }
    }
  }

  // A frame or a timeout of the exchange under way.
  lemma DriveSaeKeeps(env: Surroundings, tame: bool, heard: Option<seq<byte>>, s0: Seen, t: Turn, frame: Option<seq<byte>>)
    requires env.Valid() && Timed(t.c, Observed(s0, t.out)) && AllPlain(t.out)
    requires t.c.state == Authenticating && t.c.target.Some? && t.c.session.Some?
    requires PreStaged(t.c.session.value) && InProgress(t.c.session.value.auth.sae)
    ensures var u := DriveSae(env, t, frame, false);
            Good(tame, heard, s0, u) && (frame.None? || Waits(s0, t) ==> Waits(s0, u))
  {
    hide Observed, Plain, Good, OnSaeStep, S.OnFrame, S.OnTimeout, Carries, InProgress, OriginOk;
    var s := t.c.session.value;
    PreStagedShape(s);
    var p := s.auth.sae;
    var o := if frame.Some? then S.OnFrame(env.g, p, frame.value) else S.OnTimeout(p);
    if frame.Some? { SaeAnswers(env.g, p, frame.value); } else { SaeRetries(p); }
    var u := t.(c := t.c.(session := Some(s.(auth := PreAssoc(o.next)))));
    SaeStepKeeps(tame, heard, s0, u, o.result, p);
  }

  lemma StartSaeKeeps(env: Surroundings, tame: bool, heard: Option<seq<byte>>, s0: Seen, t: Turn)
    requires env.Valid() && Timed(t.c, Observed(s0, t.out)) && AllPlain(t.out)
    requires t.c.target.Some? && t.c.session.Some?
    requires PreStaged(t.c.session.value) && t.c.session.value.auth.sae.stage.Idle?
    ensures Good(tame, heard, s0, StartSae(env, t)) && Waits(s0, StartSae(env, t))
  {
    hide Observed, Plain, Good, Waits, Enter, OnSaeStep, S.Start, Carries, InProgress, OriginOk;
    EnterKeeps(s0, t, Authenticating);
    var u, s := Enter(t, Authenticating), t.c.session.value;
    PreStagedShape(s);
    var p := s.auth.sae;
    SaeStarts(env.g, p, SaeContext(u.c, s.choice));
    var o := S.Start(env.g, p, SaeContext(u.c, s.choice));
    SaeStepKeeps(tame, heard, s0, u.(c := u.c.(session := Some(s.(auth := PreAssoc(o.next))))), o.result, p);
  }

  // ---- planning ---------------------------------------------------------------------------

  lemma NegotiatedFrom(rsn: RsnIe, credential: Option<Credential>, enterpriseBuild: bool)
    ensures var n := Negotiate(rsn, credential, enterpriseBuild);
            n.Some? ==>
              && ChosenFrom(n.value, rsn)
              && Satisfies(n.value.akm, credential) && Runnable(n.value.akm, enterpriseBuild)
  {
    hide ChooseAkm;
    ChooseAkmUnfolds(rsn, credential, enterpriseBuild);
  }

  lemma EvaluatedIsOk(env: Surroundings, c: Conn, bss: Bss, credential: Option<Credential>, roaming: bool)
    ensures var choice := Evaluate(env, c, bss, credential, roaming);
            choice.Ok? ==>
              && OriginOk(Origin(bss, if TargetProfile(c).Some? then Some(TargetProfile(c).value.minSecurity) else None), choice.value)
              && choice.value.roaming == roaming
              && (choice.value.rsn.Some? ==> Satisfies(choice.value.rsn.value.akm, credential)
                                             && Runnable(choice.value.rsn.value.akm, env.enterpriseBuild))
    ensures var choice := Evaluate(env, c, bss, credential, roaming); choice.Err? ==> !choice.error.Internal?
  {
    hide Negotiate, ChosenFrom, SecurityOf, TargetProfile, Satisfies, Runnable, IsAtLeast;
    if bss.rsn.Some? { NegotiatedFrom(bss.rsn.value, credential, env.enterpriseBuild); }
  }

  // The AKM policy picks for a credential is never refused as a mismatch, and a
  // secured network is never assembled as an open one.
  lemma AssembledFits(env: Surroundings, drawn: Drawn, akm: Akm, credential: Credential, caps: DeviceCaps, ssid: seq<byte>)
    requires Satisfies(akm, Some(credential)) && Runnable(akm, env.enterpriseBuild)
    ensures var auth := Assemble(env, drawn, akm, credential, caps, ssid);
            && (auth.Err? ==> auth.error == EnterpriseFailed)
            && (auth.Ok? ==>
                  && !auth.value.OpenAuth? && !auth.value.Running?
                  && (auth.value.PreAssoc? ==> akm.Sae? && auth.value.sae.stage.Idle?)
                  && (auth.value.PostAssoc? ==> RepeatsEap(auth.value.eap)))
  {
    hide KeyDataIn;
  }

  lemma DecisionIsOk(env: Surroundings, drawn: Drawn, c: Conn, bss: Bss, roaming: bool)
    ensures match Decide(env, drawn, c, bss, roaming)
            case Unsuitable(f) => !f.Internal?
            case Abandon(f) => f == NoCredentialGiven || f == EnterpriseFailed
            case Ask => CredentialFor(c, bss.rsn.None?).None?
            case Stay => roaming
            case Go(s) =>
              && s.origin.bss == bss && s.pmkid.None?
              && (if s.auth.PreAssoc? then PreStaged(s) && s.auth.sae.stage.Idle? && !roaming else Staged(s))
  {
    hide Evaluate, Assemble, OriginOk, TargetProfile, Satisfies, Runnable, KeyDataIn;
    var credential := CredentialFor(c, bss.rsn.None?);
    EvaluatedIsOk(env, c, bss, credential, roaming);
    var evaluated := Evaluate(env, c, bss, credential, roaming);
    if evaluated.Ok? && evaluated.value.rsn.Some? && credential.Some? {
      AssembledFits(env, drawn, evaluated.value.rsn.value.akm, credential.value, c.device.caps, Ssid(c));
    }
  }

  // What planning needs of where it starts: everything but a session of its own.
  predicate Steady(tame: bool, heard: Option<seq<byte>>, s0: Seen, t: Turn) {
    Good(tame, heard, s0, t) && AllPlain(t.out) && t.c.target.Some?
  }

  lemma AskKeeps(tame: bool, heard: Option<seq<byte>>, s0: Seen, t: Turn, bss: Bss)
    requires Steady(tame, heard, s0, t) && (t.c.state == Scanning || t.c.state == Connected)
    ensures var u := Push(Disarm(t), RequestSecret(Ssid(t.c)));
            var v := u.(c := u.c.(pending := Some(bss)));
            Good(tame, heard, s0, v) && Waits(s0, v)
  {
    hide Observed, Disarm, SessionOk, Plain, Actions;
    DisarmKeeps(s0, t);
    PushSeen(s0, Disarm(t), RequestSecret(Ssid(t.c)));
    var u := Push(Disarm(t), RequestSecret(Ssid(t.c)));
    assert Plain(RequestSecret(Ssid(t.c))) by { AskIsPlain(Ssid(t.c)); }
    assert AllPlain(u.out);
    PlainIsOk(u.c.session, heard, u.out);
    if t.c.session.Some? { SeenElsewhere(t.c.session.value, Observed(s0, t.out), Observed(s0, u.out)); }
  }

  lemma AskIsPlain(ssid: seq<byte>)
    ensures Plain(RequestSecret(ssid))
  {
  }

  lemma SeenElsewhere(s: Session, a: Seen, b: Seen)
    requires a.request == b.request && SessionOk(s, a)
    ensures SessionOk(s, b)
  {
    hide OriginOk, RepeatsEap, ResendsOwn;
  }

  lemma PlanKeeps(env: Surroundings, drawn: Drawn, tame: bool, heard: Option<seq<byte>>, s0: Seen, t: Turn, bss: Bss, roaming: bool)
    requires env.Valid() && Steady(tame, heard, s0, t)
    requires t.c.state == Scanning || t.c.state == Connected || CredentialFor(t.c, bss.rsn.None?).Some?
    ensures Good(tame, heard, s0, Plan(env, drawn, t, bss, roaming))
    ensures (roaming ==> Waits(s0, t)) ==> Waits(s0, Plan(env, drawn, t, bss, roaming))
  {
    hide Observed, Decide, Disarm, Fail, StartSae, SendAssociation, Structured, Placed, Actions, Plain, PreStaged, Staged, Waits;
    DecisionIsOk(env, drawn, t.c, bss, roaming);
    match Decide(env, drawn, t.c, bss, roaming) {
      case Unsuitable(f) => if !roaming { FailKeeps(tame, heard, s0, t, f); }
      case Abandon(f) => FailKeeps(tame, heard, s0, t, f);
      case Ask => AskKeeps(tame, heard, s0, t, bss);
      case Stay =>
      case Go(s) =>
        var u := t.(c := t.c.(session := Some(s)));
        if s.auth.PreAssoc? { StartSaeKeeps(env, tame, heard, s0, u); } else { SendAssociationKeeps(tame, heard, s0, u); }
    }
  }

  // ---- keys and addresses ---------------------------------------------------------------------

  // A live session that has sent its request.
  predicate Holding(t: Turn, seen: Seen) {
    t.c.target.Some? && t.c.session.Some? && SessionOk(t.c.session.value, seen) && !t.c.session.value.auth.PreAssoc?
  }

  predicate Secured(s: Session, seen: Seen) {
    seen.request.Some? && (s.choice.rsn.None? || seen.request.value.offload.Some? || seen.keyed == Some(s.choice.bssid))
  }

  // A plain action more is no harm.
  lemma PushPlain(session: Option<Session>, heard: Option<seq<byte>>, t: Turn, a: Action)
    requires Actions(session, heard, t.out) && Plain(a)
    ensures Actions(session, heard, Push(t, a).out)
  {
    assert !ArmsRetry(a);
    hide ActionOk, Plain, RetriesOwn;
    PlainActionOk(session, heard, a);
    PushRetries(session, t.out, a);
  }

  lemma EnterActions(session: Option<Session>, heard: Option<seq<byte>>, t: Turn, state: State)
    requires Actions(session, heard, t.out)
    ensures Actions(session, heard, Enter(t, state).out)
  {
    hide ActionOk, Actions;
    var v := if t.c.armed.Some? && t.c.armed != TimerOf(state) then Disarm(t) else t;
    if v != t { PushPlain(session, heard, t.(c := t.c.(armed := None)), ClearTimer(t.c.armed.value)); }
    PushPlain(session, heard, v.(c := v.c.(state := state)), Notify(state));
  }

  lemma ConfiguredKeeps(tame: bool, heard: Option<seq<byte>>, s0: Seen, t: Turn)
    requires Timed(t.c, Observed(s0, t.out)) && Actions(t.c.session, heard, t.out)
    requires Holding(t, Observed(s0, t.out))
    requires tame ==> Secured(t.c.session.value, Observed(s0, t.out)) && Suits(t.c.session.value, Configuring, Observed(s0, t.out))
    ensures Good(tame, heard, s0, Configured(t)) && Waits(s0, Configured(t))
  {
    hide Observed, Enter, SessionOk, Actions, Plain;
    var s := t.c.session.value;
    var to := if s.choice.roaming then Connected else Configuring;
    EnterKeeps(s0, t, to);
    EnterActions(t.c.session, heard, t, to);
    var u := Enter(t, to);
    PushSeen(s0, u, StartDhcp);
    assert Plain(StartDhcp) by { DhcpIsPlain(); }
    PushPlain(t.c.session, heard, u, StartDhcp);
    SeenElsewhere(s, Observed(s0, t.out), Observed(s0, Configured(t).out));
  }

  lemma DhcpIsPlain()
    ensures Plain(StartDhcp)
  {
  }

  lemma StartHandshakeKeeps(tame: bool, heard: Option<seq<byte>>, s0: Seen, t: Turn, pmk: seq<byte>, drawn: Drawn)
    requires Timed(t.c, Observed(s0, t.out)) && AllPlain(t.out)
    requires Holding(t, Observed(s0, t.out)) && Standing(t.c.state) && t.c.session.value.auth.Running? && t.c.session.value.choice.rsn.Some?
    requires tame ==> Suits(t.c.session.value, Handshaking, Observed(s0, t.out))
    ensures Good(tame, heard, s0, StartHandshake(t, pmk, drawn)) && Waits(s0, StartHandshake(t, pmk, drawn))
  {
    hide Observed, Enter, Fail, OriginOk, Plain, KeyDataIn, Actions;
    if drawn.snonce.None? {
      FailKeeps(tame, heard, s0, t, FailureOfEapol(E.EntropyFailed));
    } else {
      var s := t.c.session.value;
      var n := s.choice.rsn.value;
      var config := H.Config(n.akm, t.c.device.mac, s.choice.bssid, s.assocIe, n.beaconIe);
      var u := t.(c := t.c.(session := Some(s.(handshake := Some(H.Fresh(pmk, config, drawn.snonce.value))))));
      EnterKeeps(s0, u, Handshaking);
      var v := Enter(u, Handshaking);
      PlainIsOk(v.c.session, heard, v.out);
      assert StartHandshake(t, pmk, drawn) == v;
    }
  }

  lemma OnAssociatedKeeps(env: Surroundings, tame: bool, heard: Option<seq<byte>>, s0: Seen, t: Turn, drawn: Drawn)
    requires Good(tame, heard, s0, t) && AllPlain(t.out) && t.c.state == Associating
    ensures Good(tame, heard, s0, OnAssociated(env, drawn, t)) && Waits(s0, OnAssociated(env, drawn, t))
  {
    hide Observed, Enter, StartHandshake, Configured, OriginOk, RepeatsEap, ResendsOwn, Plain, Actions;
    var s := t.c.session.value;
    match s.auth {
      case OpenAuth => ConfiguredKeeps(tame, heard, s0, t);
      case Ready(pmk) =>
        StartHandshakeKeeps(tame, heard, s0, t.(c := t.c.(session := Some(s.(auth := Running)))), pmk, drawn);
      case _ =>
        EnterKeeps(s0, t, Handshaking);
        EnterActions(t.c.session, heard, t, Handshaking);
        SeenElsewhere(s, Observed(s0, t.out), Observed(s0, Enter(t, Handshaking).out));
    }
  }

  lemma DriveDot1xKeeps(env: Surroundings, tame: bool, heard: Option<seq<byte>>, s0: Seen, t: Turn, drawn: Drawn, frame: seq<byte>)
    requires Good(tame, heard, s0, t) && AllPlain(t.out) && (t.c.state == Handshaking || t.c.state == Connected)
    ensures var u := DriveDot1x(env, drawn, t, Some(frame)); Good(tame, heard, s0, u) && Waits(s0, u)
  {
    hide Observed, Fail, StartHandshake, OriginOk, KeyDataIn, ResendsOwn, D.OnFrame, Timed, RetriesOwn;
    if t.c.session.Some? && t.c.session.value.auth.PostAssoc? {
      var s := t.c.session.value;
      var em := env.methods(s.auth.account);
      var o := D.OnFrame(em, s.auth.eap, frame);
      Dot1xStep(em, s.auth.eap, frame);
      var u := t.(c := t.c.(session := Some(s.(auth := PostAssoc(s.auth.account, o.next)))));
      assert Timed(u.c, Observed(s0, u.out)) by { TimedElsewhere(t.c, u.c, Observed(s0, t.out)); }
      PlainIsOk(u.c.session, heard, u.out);
      if o.result.Err? {
        FailKeeps(tame, heard, s0, u, FailureOfCrypto(CryptoOfEapol(o.result.error)));
      } else {
        match o.result.value {
          case Send(reply) =>
            PushSeen(s0, u, SendEapol(reply));
            PushRetries(u.c.session, u.out, SendEapol(reply));
            assert ActionOk(u.c.session, heard, SendEapol(reply));
          case Wait =>
          case Done(pmk) =>
            var v := u.(c := u.c.(session := Some(s.(auth := Running))));
            TimedElsewhere(t.c, v.c, Observed(s0, t.out));
            StartHandshakeKeeps(tame, heard, s0, v, pmk, drawn);
        }
      }
    }
  }

  lemma TimedElsewhere(a: Conn, b: Conn, seen: Seen)
    requires Timed(a, seen) && a.armed == b.armed && a.state == b.state
    ensures Timed(b, seen)
  {
  }

  // ---- the handshake's answers -------------------------------------------------------------------

  lemma PerformUnfolds(t: Turn, a: H.Action, b: H.Action, c: H.Action)
    ensures Perform(t, []) == t
    ensures Perform(t, [a, b]) == PerformOne(PerformOne(t, a), b)
    ensures Perform(t, [a, b, c]) == PerformOne(PerformOne(PerformOne(t, a), b), c)
  {
    hide PerformOne;
    assert [a, b, c][..2] == [a, b] && [a, b][..1] == [a] && [a][..0] == [];
    assert Perform(t, [a]) == PerformOne(t, a);
  }

  // The session after a step of its handshake.
  lemma StepSession(env: Surroundings, s: Session, seen: Seen, input: H.Input)
    requires SessionOk(s, seen) && s.handshake.Some?
    ensures SessionOk(s.(handshake := Some(H.Poll(env.c, s.handshake.value, input).next)), seen)
    ensures ResendsOwn(s.handshake.value)
  {
    hide OriginOk, RepeatsEap, ResendsOwn, H.Poll, Shaped;
    HandshakeStep(env.c, s.handshake.value, input);
  }

  predicate Listening(tame: bool, heard: Option<seq<byte>>, s0: Seen, u: Turn) {
    && Good(tame, heard, s0, u) && AllPlain(u.out) && (u.c.state == Handshaking || u.c.state == Connected)
    && u.c.session.Some? && u.c.session.value.handshake.Some?
  }

  lemma SendKeeps(tame: bool, heard: Option<seq<byte>>, s0: Seen, u: Turn, frame: seq<byte>)
    requires Listening(tame, heard, s0, u)
    requires KeyDataIn(frame) == [] || KeyDataIn(frame) == u.c.session.value.assocIe
    ensures var v := Push(u, SendEapol(frame)); Good(tame, heard, s0, v) && Observed(s0, v.out) == Observed(s0, u.out)
  {
    hide Observed, KeyDataIn, SessionOk, Timed;
    PushSeen(s0, u, SendEapol(frame));
    assert ActionOk(u.c.session, heard, SendEapol(frame));
  }

  lemma RearmKeeps(tame: bool, heard: Option<seq<byte>>, s0: Seen, u: Turn, millis: nat)
    requires Good(tame, heard, s0, u) && (u.c.state == Handshaking || u.c.state == Connected)
    requires u.out != [] && Repeatable(u.c.session, u.out[|u.out| - 1])
    ensures Good(tame, heard, s0, Arm(u, HandshakeRetry, millis))
  {
    hide Observed, SessionOk, Arm, ActionOk, Repeatable, RetriesOwn;
    PushRetries(u.c.session, u.out, SetTimer(HandshakeRetry, millis));
    ArmKeeps(s0, u, HandshakeRetry, millis);
    var v := Arm(u, HandshakeRetry, millis);
    if u.c.session.Some? { SeenElsewhere(u.c.session.value, Observed(s0, u.out), Observed(s0, v.out)); }
    assert ActionOk(u.c.session, heard, SetTimer(HandshakeRetry, millis)) by { SetTimerIsOk(u.c.session, heard, millis); }
  }

  lemma SetTimerIsOk(session: Option<Session>, heard: Option<seq<byte>>, millis: nat)
    ensures ActionOk(session, heard, SetTimer(HandshakeRetry, millis))
  {
  }

  lemma ClearTimerIsOk(session: Option<Session>, heard: Option<seq<byte>>, id: TimerId)
    ensures ActionOk(session, heard, ClearTimer(id))
  {
  }

  lemma DisarmGood(tame: bool, heard: Option<seq<byte>>, s0: Seen, u: Turn)
    requires Good(tame, heard, s0, u) && (u.c.state == Handshaking || u.c.state == Connected)
    ensures Good(tame, heard, s0, Disarm(u)) && Observed(s0, Disarm(u).out) == Observed(s0, u.out).(live := {})
  {
    hide Observed, SessionOk, ActionOk;
    DisarmKeeps(s0, u);
    var v := Disarm(u);
    if u.c.session.Some? { SeenElsewhere(u.c.session.value, Observed(s0, u.out), Observed(s0, v.out)); }
    if u.c.armed.Some? { ClearTimerIsOk(u.c.session, heard, u.c.armed.value); }
  }

  // Keys go in, for the session's own BSS, under what the frame was heard to say.
  lemma InstallKeeps(tame: bool, heard: Option<seq<byte>>, s0: Seen, u: Turn, ptk: C.Ptk, gtk: E.Gtk)
    requires Good(tame, heard, s0, u) && (u.c.state == Handshaking || u.c.state == Connected)
    requires u.c.session.Some? && u.c.session.value.handshake.Some? && u.c.session.value.handshake.value.ptk == Some(ptk)
    requires heard == Some(u.c.session.value.handshake.value.config.beaconIe)
    ensures var v := PerformOne(u, H.Complete(ptk, gtk));
            && v.c == u.c && Timed(v.c, Observed(s0, v.out)) && Actions(v.c.session, heard, v.out)
            && SessionOk(v.c.session.value, Observed(s0, v.out))
            && Observed(s0, v.out).keyed == Some(v.c.session.value.choice.bssid)
            && Observed(s0, v.out).request == Observed(s0, u.out).request
  {
    hide Observed, OriginOk, ResendsOwn, RepeatsEap, KeyDataIn, Suite, GroupSuite;
    var choice := u.c.session.value.choice;
    var a := InstallKeys(Some(PairwiseKey(choice.bssid, Suite(choice.rsn.value.pairwise), ptk)), GroupKey(GroupSuite(u.c), gtk));
    PushSeen(s0, u, a);
    assert ActionOk(u.c.session, heard, a);
  }

  lemma RegroupKeeps(tame: bool, heard: Option<seq<byte>>, s0: Seen, u: Turn, gtk: E.Gtk)
    requires Good(tame, heard, s0, u)
    ensures Good(tame, heard, s0, PerformOne(u, H.NewGtk(gtk)))
  {
    hide Observed, SessionOk, Timed, KeyDataIn, GroupSuite;
    var a := InstallKeys(None, GroupKey(GroupSuite(u.c), gtk));
    PushSeen(s0, u, a);
    assert ActionOk(u.c.session, heard, a);
  }

  // Message 4 is out, the timer off; the keys go in and an address is sought.
  lemma CompletionKeeps(tame: bool, heard: Option<seq<byte>>, s0: Seen, v: Turn, ptk: C.Ptk, gtk: E.Gtk)
    requires Good(tame, heard, s0, v) && (v.c.state == Handshaking || v.c.state == Connected)
    requires v.c.target.Some? && v.c.session.Some? && v.c.session.value.handshake.Some? && !v.c.session.value.auth.PreAssoc?
    requires heard == Some(v.c.session.value.handshake.value.config.beaconIe) && v.c.session.value.handshake.value.ptk == Some(ptk)
    ensures var u := Configured(PerformOne(Disarm(v), H.Complete(ptk, gtk))); Good(tame, heard, s0, u) && Waits(s0, u)
  {
    hide Observed, SessionOk, Configured, Timed, Actions;
    DisarmGood(tame, heard, s0, v);
    DisarmKeepsConn(v);
    var w := Disarm(v);
    InstallKeeps(tame, heard, s0, w, ptk, gtk);
    ConfiguredKeeps(tame, heard, s0, PerformOne(w, H.Complete(ptk, gtk)));
  }

  lemma DisarmKeepsConn(t: Turn)
    ensures Disarm(t).c == t.c.(armed := None)
  {
  }

  lemma PerformKeeps(tame: bool, heard: Option<seq<byte>>, s0: Seen, u: Turn, m: H.FourWay, actions: seq<H.Action>)
    requires Listening(tame, heard, s0, u) && Shaped(m, actions)
    requires m.config == u.c.session.value.handshake.value.config && !u.c.session.value.auth.PreAssoc?
    requires ShapeOf(actions) == Installed ==>
      && heard == Some(m.config.beaconIe) && u.c.session.value.handshake.value.ptk == Some(actions[2].ptk)
    ensures var v := Perform(u, actions);
            if ShapeOf(actions) == Installed then Good(tame, heard, s0, Configured(v)) && Waits(s0, Configured(v))
            else Good(tame, heard, s0, v) && v.c.state == u.c.state
  {
    hide Observed, SessionOk, KeyDataIn, Configured, Timed, Actions, Plain, Placed;
    if |actions| >= 2 {
      PerformUnfolds(u, actions[0], actions[1], if |actions| == 3 then actions[2] else actions[0]);
      assert |actions| == 2 ==> actions == [actions[0], actions[1]];
      assert |actions| == 3 ==> actions == [actions[0], actions[1], actions[2]];
      OwnElements(u, Observed(s0, u.out));
      SendKeeps(tame, heard, s0, u, actions[0].frame);
      var v := Push(u, SendEapol(actions[0].frame));
      match ShapeOf(actions) {
        case Sent => RearmKeeps(tame, heard, s0, v, actions[1].millis);
        case Answered => DisarmGood(tame, heard, s0, v);
        case Regrouped => RegroupKeeps(tame, heard, s0, v, actions[1].group);
        case Silent =>
        case Installed =>
          CompletionKeeps(tame, heard, s0, v, actions[2].ptk, actions[2].gtk);
      }
    } else {
      PerformUnfolds(u, H.DisarmTimer, H.DisarmTimer, H.DisarmTimer);
    }
  }

  lemma OwnElements(u: Turn, seen: Seen)
    requires u.c.session.Some? && SessionOk(u.c.session.value, seen) && u.c.session.value.handshake.Some?
    ensures u.c.session.value.handshake.value.config.assocIe == u.c.session.value.assocIe
    ensures seen.request.Some? && !u.c.session.value.auth.PreAssoc?
  {
  }

  lemma DriveHandshakeKeeps(env: Surroundings, tame: bool, heard: Option<seq<byte>>, s0: Seen, t: Turn, input: H.Input)
    requires Good(tame, heard, s0, t) && AllPlain(t.out) && (t.c.state == Handshaking || t.c.state == Connected)
    requires input.Frame? && t.c.session.Some? && t.c.session.value.handshake.Some? ==>
      heard == HeardRsn(env.c, t.c.session.value.handshake.value, input.bytes)
    ensures var u := DriveHandshake(env, t, input); Good(tame, heard, s0, u) && Waits(s0, u)
  {
    hide Observed, SessionOk, Fail, Configured, Perform, H.Poll, H.Installs, Shaped, Plain, Timed;
    if t.c.session.Some? && t.c.session.value.handshake.Some? {
      var s := t.c.session.value;
      var m := s.handshake.value;
      var o := H.Poll(env.c, m, input);
      StepSession(env, s, Observed(s0, t.out), input);
      HandshakeStep(env.c, m, input);
      var u := t.(c := t.c.(session := Some(s.(handshake := Some(o.next)))));
      TimedElsewhere(t.c, u.c, Observed(s0, t.out));
      PlainIsOk(u.c.session, heard, u.out);
      OwnElements(u, Observed(s0, u.out));
      if o.result.Err? {
        FailKeeps(tame, heard, s0, u, FailureOfEapol(o.result.error));
      } else {
        InstallsByShape(m, o.result.value);
        PerformKeeps(tame, heard, s0, u, m, o.result.value);
      }
    }
  }

  // ---- leases -------------------------------------------------------------------------------------

  lemma SaveJoinedKeeps(tame: bool, heard: Option<seq<byte>>, s0: Seen, t: Turn)
    requires Good(tame, heard, s0, t) && t.c.state == Connected
    ensures Good(tame, heard, s0, SaveJoined(t)) && Waits(s0, SaveJoined(t))
  {
    hide Observed, SessionOk, Timed, NewProfile, Others, Plain, ActionOk;
    var u := SaveJoined(t);
    if u != t {
      var profile := u.out[|t.out|].profile;
      PushSeen(s0, t.(c := u.c), SaveProfile(profile));
      TimedElsewhere(t.c, u.c, Observed(s0, t.out));
      assert Plain(SaveProfile(profile)) by { SaveIsPlain(profile); }
      PushPlain(t.c.session, heard, t, SaveProfile(profile));
    }
  }

  lemma SaveIsPlain(profile: Profile)
    ensures Plain(SaveProfile(profile))
  {
  }

  // The guard the code does not put before taking an acquired lease: an address
  // is being sought or held, or the association asked for needs no handshake.
  predicate LeaseFits(c: Conn) {
    || c.state == Configuring || c.state == Connected
    || (c.state == Associating && c.session.Some? && c.session.value.auth.OpenAuth?)
  }

  // What it comes to: the session it would configure is past SAE, asked for its
  // association, and needs no keys of its own or has them.
  predicate Configurable(c: Conn, seen: Seen) {
    && c.session.Some? && !c.session.value.auth.PreAssoc? && seen.request.Some?
    && (c.session.value.choice.rsn.None? || seen.request.value.offload.Some? || seen.keyed == Some(c.session.value.choice.bssid))
  }

  lemma FittingIsConfigurable(c: Conn, seen: Seen)
    requires Structured(c, seen) && Placed(c, seen)
    ensures LeaseFits(c) <==> Configurable(c, seen)
  {
    hide OriginOk, RepeatsEap, ResendsOwn, InProgress;
  }

  lemma AcquiredSeen(s0: Seen, c: Conn, lease: Y.Lease)
    ensures var t := OnLease(Turn(c, []), Acquired(lease));
            var seen := Observed(s0, t.out);
            t.c.state == Connected && t.c.session == c.session && seen.request == s0.request && seen.keyed == s0.keyed
  {
    hide SaveJoined, Observed, Enter;
    var a := Push(Turn(c, []), ApplyLease(lease));
    NothingSeen(s0);
    PushSeen(s0, Turn(c, []), ApplyLease(lease));
    EnteredSeen(s0, a, Connected);
    var e := Enter(a, Connected);
    SavedSeen(s0, e.(c := e.c.(attempts := 0)));
  }

  lemma EnteredSeen(s0: Seen, t: Turn, state: State)
    ensures var u := Enter(t, state);
            && u.c == t.c.(state := state, armed := u.c.armed)
            && Observed(s0, u.out).request == Observed(s0, t.out).request && Observed(s0, u.out).keyed == Observed(s0, t.out).keyed
  {
    hide Observed;
    if t.c.armed.Some? { PushSeen(s0, t.(c := t.c.(armed := None)), ClearTimer(t.c.armed.value)); }
    var d := if t.c.armed.Some? && t.c.armed != TimerOf(state) then Disarm(t) else t;
    PushSeen(s0, d.(c := d.c.(state := state)), Notify(state));
  }

  lemma SavedSeen(s0: Seen, t: Turn)
    ensures var u := SaveJoined(t);
            && u.c.state == t.c.state && u.c.session == t.c.session
            && Observed(s0, u.out).request == Observed(s0, t.out).request && Observed(s0, u.out).keyed == Observed(s0, t.out).keyed
  {
    hide Others, NewProfile, Observed;
    var u := SaveJoined(t);
    if u != t { PushSeen(s0, t.(c := u.c), u.out[|t.out|]); }
  }

  lemma NothingSeen(s: Seen)
    ensures Observed(s, []) == s
  {
  }

  // An acquired lease keeps sessions where they belong, and keyed, in exactly
  // that case.
  lemma AcquiredKeepsKeyed(c: Conn, seen: Seen, lease: Y.Lease)
    requires Structured(c, seen) && Placed(c, seen)
    ensures var t := OnLease(Turn(c, []), Acquired(lease)); Keyed(t.c, Observed(seen, t.out)) <==> LeaseFits(c)
  {
    hide OnLease, Observed, Structured, LeaseFits;
    AcquiredSeen(seen, c, lease);
    FittingIsConfigurable(c, seen);
  }

  lemma OnLeaseKeeps(tame: bool, heard: Option<seq<byte>>, s0: Seen, t: Turn, event: LeaseEvent)
    requires Good(tame, heard, s0, t) && AllPlain(t.out)
    requires tame && event.Acquired? ==> LeaseFits(t.c)
    ensures Good(tame, heard, s0, OnLease(t, event)) && (Waits(s0, t) ==> Waits(s0, OnLease(t, event)))
  {
    hide Observed, SessionOk, Enter, Fail, SaveJoined, Actions, Plain;
    match event {
      case Acquired(lease) =>
        var u := Push(t, ApplyLease(lease));
        PushSeen(s0, t, ApplyLease(lease));
        assert Plain(ApplyLease(lease)) by { ApplyIsPlain(lease); }
        EnterKeeps(s0, u, Connected);
        var v := Enter(u, Connected);
        var w := v.(c := v.c.(attempts := 0));
        PlainIsOk(w.c.session, heard, w.out);
        if tame { FittingIsConfigurable(t.c, Observed(s0, t.out)); }
        if t.c.session.Some? { SeenElsewhere(t.c.session.value, Observed(s0, t.out), Observed(s0, w.out)); }
        SaveJoinedKeeps(tame, heard, s0, w);
      case Lost(_) =>
        if t.c.state == Connected {
          EnterKeeps(s0, t, Configuring);
          var v := Enter(t, Configuring);
          PushSeen(s0, v, StartDhcp);
          assert Plain(StartDhcp) by { DhcpIsPlain(); }
          PlainIsOk(v.c.session, heard, Push(v, StartDhcp).out);
          if t.c.session.Some? { SeenElsewhere(t.c.session.value, Observed(s0, t.out), Observed(s0, Push(v, StartDhcp).out)); }
        }
      case NoLease => FailKeeps(tame, heard, s0, t, DhcpFailed);
    }
  }

  lemma ApplyIsPlain(lease: Y.Lease)
    ensures Plain(ApplyLease(lease))
  {
  }

  // ---- scans -------------------------------------------------------------------------------------------

  lemma PlanFoundKeeps(env: Surroundings, drawn: Drawn, tame: bool, heard: Option<seq<byte>>, s0: Seen, t: Turn, scan: seq<Bss>, bss: Bss, roaming: bool)
    requires env.Valid() && Steady(tame, heard, s0, t) && (t.c.state == Scanning || t.c.state == Connected) && bss in scan
    ensures Good(tame, heard, s0, PlanFound(env, drawn, t, scan, bss.bssid, roaming))
    ensures (roaming ==> Waits(s0, t)) ==> Waits(s0, PlanFound(env, drawn, t, scan, bss.bssid, roaming))
  {
    hide Plan, Good, Waits, Plain, FindBss;
    PlanKeeps(env, drawn, tame, heard, s0, t, FindBss(scan, bss.bssid).value, roaming);
  }

  // Scanning has no session of its own: choosing a target keeps everything.
  lemma RetargetKeeps(tame: bool, heard: Option<seq<byte>>, s0: Seen, t: Turn, target: Target)
    requires Good(tame, heard, s0, t) && AllPlain(t.out)
    ensures Steady(tame, heard, s0, t.(c := t.c.(target := Some(target))))
    ensures Steady(tame, heard, s0, t.(c := t.c.(target := Some(target), pending := None)))
  {
    hide Observed, SessionOk, Actions, Plain;
  }

  lemma SelectKeeps(env: Surroundings, drawn: Drawn, tame: bool, heard: Option<seq<byte>>, s0: Seen, t: Turn, scan: seq<Bss>)
    requires env.Valid() && Good(tame, heard, s0, t) && AllPlain(t.out) && t.c.state == Scanning
    ensures Good(tame, heard, s0, Select(env, drawn, t, scan)) && Waits(s0, Select(env, drawn, t, scan))
  {
    hide Good, Waits, Plain, PlanFound, Fail, Filter, Strongest, Autoconnecting, Observed, Timed;
    assert Timed(t.c, Observed(s0, t.out)) by { GoodIsTimed(tame, heard, s0, t); }
    FailKeeps(tame, heard, s0, t, NotFound);
    FailKeeps(tame, heard, s0, t, NoKnownNetwork);
    if t.c.target.Some? {
      var best := BestBss(scan, t.c.target.value.ssid);
      if best.Some? { PlanFoundKeeps(env, drawn, tame, heard, s0, t, scan, best.value, false); }
    } else {
      var best := BestKnown(scan, t.c.profiles);
      if best.Some? {
        var target := Target(best.value.1.ssid, None, true, false);
        RetargetKeeps(tame, heard, s0, t, target);
        PlanFoundKeeps(env, drawn, tame, heard, s0, t.(c := t.c.(target := Some(target))), scan, best.value.0, false);
      }
    }
  }

  lemma GoodIsTimed(tame: bool, heard: Option<seq<byte>>, s0: Seen, t: Turn)
    requires Good(tame, heard, s0, t)
    ensures Timed(t.c, Observed(s0, t.out))
  {
  }

  // A reading of the current AP is all that changes when there is no better one.
  lemma ReadingKeeps(tame: bool, heard: Option<seq<byte>>, s0: Seen, t: Turn, signal: i32)
    requires Good(tame, heard, s0, t) && AllPlain(t.out) && t.c.session.Some?
    ensures var s := t.c.session.value;
            var u := t.(c := t.c.(session := Some(s.(choice := s.choice.(signal := signal)))));
            Good(tame, heard, s0, u) && (Waits(s0, t) ==> Waits(s0, u))
  {
    hide Observed, RepeatsEap, ResendsOwn, InProgress, ChosenFrom, Plain, Actions;
    var s := t.c.session.value;
    var u := t.(c := t.c.(session := Some(s.(choice := s.choice.(signal := signal)))));
    PlainIsOk(u.c.session, heard, u.out);
  }

  lemma ConsiderRoamKeeps(env: Surroundings, drawn: Drawn, tame: bool, heard: Option<seq<byte>>, s0: Seen, t: Turn, scan: seq<Bss>)
    requires env.Valid() && Good(tame, heard, s0, t) && AllPlain(t.out) && t.c.state == Connected
    ensures Good(tame, heard, s0, ConsiderRoam(env, drawn, t, scan)) && Waits(s0, ConsiderRoam(env, drawn, t, scan))
  {
    hide Good, Plain, PlanFound, Filter, Strongest, Observed, FindBss;
    if t.c.session.Some? && t.c.target.Some? {
      var s := t.c.session.value;
      var heardAt := FindBss(scan, s.choice.bssid);
      var signal := if heardAt.Some? then heardAt.value.signal else s.choice.signal;
      ReadingKeeps(tame, heard, s0, t, signal);
      var better := RoamTarget(scan, t.c.target.value.ssid, s.choice.bssid, signal);
      if better.Some? { PlanFoundKeeps(env, drawn, tame, heard, s0, t, scan, better.value, true); }
    }
  }

  // ---- commands and events --------------------------------------------------------------------------------

  lemma OnCommandKeeps(env: Surroundings, drawn: Drawn, tame: bool, heard: Option<seq<byte>>, s0: Seen, t: Turn, command: Command)
    requires env.Valid() && Good(tame, heard, s0, t) && t.out == []
    ensures Good(tame, heard, s0, OnCommand(env, drawn, t, command))
    ensures Waits(s0, t) ==> Waits(s0, OnCommand(env, drawn, t, command))
  {
    hide Good, StartScan, GoIdle, Plan, Observed, Timed, Plain, ProfileFor;
    assert Timed(t.c, Observed(s0, t.out)) by { GoodIsTimed(tame, heard, s0, t); }
    LeavingIsPlain(s0, t);
    match command {
      case Connect(ssid) =>
        var u := if t.c.state != Idle then Push(t, Disconnect(REASON_LEAVING)) else t;
        var profile := ProfileFor(u.c.profiles, ssid);
        var target := Target(ssid, None, profile.Some? && profile.value.autoconnect, profile.None?);
        var v := u.(c := u.c.(target := Some(target), session := None, pending := None, attempts := 0));
        TimedElsewhere(t.c, v.c, Observed(s0, u.out));
        StartScanKeeps(tame, heard, s0, v);
      case Autoconnect =>
        if t.c.state == Idle {
          var v := t.(c := t.c.(target := None, session := None, pending := None, attempts := 0));
          TimedElsewhere(t.c, v.c, Observed(s0, t.out));
          StartScanKeeps(tame, heard, s0, v);
        }
      case Secret(value) =>
        if t.c.target.Some? {
          var target := t.c.target.value.(secret := Some(value));
          RetargetKeeps(tame, heard, s0, t, target);
          var c := t.c.(target := Some(target));
          if c.pending.Some? {
            PlanKeeps(env, drawn, tame, heard, s0, t.(c := c.(pending := None)), c.pending.value, false);
          }
        }
      case Disconnecting => GoIdleKeeps(tame, heard, s0, Push(t, Disconnect(REASON_LEAVING)));
    }
  }

  lemma LeavingIsPlain(s0: Seen, t: Turn)
    requires t.out == [] && Timed(t.c, Observed(s0, t.out))
    ensures var u := Push(t, Disconnect(REASON_LEAVING));
            AllPlain(t.out) && AllPlain(u.out) && Timed(u.c, Observed(s0, u.out)) && Observed(s0, u.out) == Observed(s0, t.out)
  {
    hide Observed;
    PushSeen(s0, t, Disconnect(REASON_LEAVING));
  }

  lemma FetchKeeps(tame: bool, heard: Option<seq<byte>>, s0: Seen, t: Turn)
    requires Good(tame, heard, s0, t)
    ensures var u := Push(t, FetchScanResults(t.c.device.ifindex)); Good(tame, heard, s0, u) && (Waits(s0, t) ==> Waits(s0, u))
  {
    hide Observed, SessionOk, Timed;
    PushSeen(s0, t, FetchScanResults(t.c.device.ifindex));
  }

  // What there is to know in the two states that wait on somebody else.
  lemma AuthenticatingHas(tame: bool, heard: Option<seq<byte>>, s0: Seen, t: Turn)
    requires Good(tame, heard, s0, t) && t.c.state == Authenticating
    ensures t.c.target.Some? && t.c.session.Some? && PreStaged(t.c.session.value) && InProgress(t.c.session.value.auth.sae)
  {
    hide Observed, OriginOk;
    OkIsPreStaged(t.c.session.value, Observed(s0, t.out));
  }

  lemma OnWirelessKeeps(env: Surroundings, drawn: Drawn, tame: bool, heard: Option<seq<byte>>, s0: Seen, t: Turn, event: Event)
    requires env.Valid() && Good(tame, heard, s0, t) && AllPlain(t.out)
    ensures Good(tame, heard, s0, OnWireless(env, drawn, t, event))
    ensures Waits(s0, t) ==> Waits(s0, OnWireless(env, drawn, t, event))
  {
    hide Good, Observed, Timed, Plain, Fail, OnAssociated, DriveSae, Waits, PreStaged, InProgress;
    assert Timed(t.c, Observed(s0, t.out)) by { GoodIsTimed(tame, heard, s0, t); }
    match event {
      case ScanComplete => FetchKeeps(tame, heard, s0, t);
      case ScanAborted => FailKeeps(tame, heard, s0, t, NotFound);
      case Answered(status) =>
        if t.c.state == Associating {
          match status {
            case Joined => OnAssociatedKeeps(env, tame, heard, s0, t, drawn);
            case RefusedWith(code) => FailKeeps(tame, heard, s0, t, Refused(code));
            case TimedOut => FailKeeps(tame, heard, s0, t, AssocTimedOut);
          }
        }
      case Dropped(reason, byAp) => FailKeeps(tame, heard, s0, t, Failure.Disconnected(reason, byAp));
      case ExternalAuth(_) => FailKeeps(tame, heard, s0, t, AuthRejected);
      case AuthFrame(frame) =>
        if t.c.state == Authenticating && AuthBody(t.c, frame).Some? {
          AuthenticatingHas(tame, heard, s0, t);
          DriveSaeKeeps(env, tame, heard, s0, t, AuthBody(t.c, frame));
        }
      case _ =>
    }
  }

  // An expiry may have taken its own timer off before it is delivered; what
  // the state was waiting on is running again, or the state is left.
  lemma OnTimerKeeps(env: Surroundings, tame: bool, heard: Option<seq<byte>>, s0: Seen, t: Turn, id: TimerId)
    requires env.Valid() && Good(tame, heard, s0, t) && AllPlain(t.out)
    requires Waiting(t.c, Observed(s0, t.out).(live := Observed(s0, t.out).live + {id}))
    ensures Good(tame, heard, s0, OnTimer(env, t, id)) && Waits(s0, OnTimer(env, t, id))
  {
    hide Good, Observed, Timed, Plain, Fail, DriveHandshake, DriveSae, StartScan, PreStaged, InProgress;
    assert Timed(t.c, Observed(s0, t.out)) by { GoodIsTimed(tame, heard, s0, t); }
    match id {
      case ScanTimeout => FailKeeps(tame, heard, s0, t, NotFound);
      case AssocTimeout => FailKeeps(tame, heard, s0, t, AssocTimedOut);
      case AuthTimeout =>
        if t.c.state == Authenticating {
          AuthenticatingHas(tame, heard, s0, t);
          DriveSaeKeeps(env, tame, heard, s0, t, None);
        }
      case HandshakeRetry =>
        if t.c.state == Handshaking || t.c.state == Connected {
          DriveHandshakeKeeps(env, tame, heard, s0, t, H.Expiry);
        }
      case ReconnectBackoff =>
        if t.c.state == Reconnecting {
          NoSessionWhileBackingOff(tame, heard, s0, t);
          StartScanKeeps(tame, heard, s0, t);
        }
    }
  }

  lemma NoSessionWhileBackingOff(tame: bool, heard: Option<seq<byte>>, s0: Seen, t: Turn)
    requires Good(tame, heard, s0, t) && t.c.state == Reconnecting
    ensures t.c.session.None?
  {
  }
}
