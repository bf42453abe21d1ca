// What becomes of a connection that hears nothing more, only its own timers:
// how soon an attempt is over, and when a network is given up on
// (crates/caw-core/src/conn.rs:1297-1371).

module ConnSilence {
  import opened Bytes
  import opened Policy
  import opened Connection
  import opened ConnParts
  import opened ConnInvariant
  import opened ConnSteps
  import opened ConnRuns
  import E = Eapol
  import H = FourWayHandshake
  import S = SaeExchange

  // The failure is reported, and the target forgotten.
  predicate GivesUp(out: seq<Action>) {
    exists i :: 0 <= i < |out| && out[i].Failed?
  }

  // The attempt is over, and another will be made.
  predicate BacksOff(out: seq<Action>) {
    exists i :: 0 <= i < |out| && out[i] == Notify(Reconnecting)
  }

  // No further expiry can be borne: the scan, the association, the resends of
  // an SAE frame or those of a handshake message are used up.
  predicate Spent(c: Conn) {
    match c.state
    case Scanning => c.pending.None?
    case Associating => true
    case Authenticating => c.session.Some? && c.session.value.auth.PreAssoc? && c.session.value.auth.sae.sync >= S.SYNC_MAX
    case Handshaking => HandshakeSpent(c)
    case Connected => HandshakeSpent(c)
    case _ => false
  }

  predicate HandshakeSpent(c: Conn) {
    && c.session.Some? && c.session.value.handshake.Some?
    && c.session.value.handshake.value.lastSent.Some? && c.session.value.handshake.value.retries >= E.RETRY_LIMIT
  }

  // A network to be tried again, unless what failed was SAE: its timeout counts
  // as a rejection.
  predicate Persists(c: Conn) {
    c.target.Some? && c.target.value.retry && c.state != Authenticating
  }

  // How many expiries in a row an attempt outlasts at most.
  function Patience(c: Conn): nat {
    match c.state
    case Reconnecting => 2
    case Authenticating =>
      if c.session.Some? && c.session.value.auth.PreAssoc? && c.session.value.auth.sae.sync <= S.SYNC_MAX
      then 1 + S.SYNC_MAX - c.session.value.auth.sae.sync else 1
    case Handshaking => HandshakePatience(c)
    case Connected => HandshakePatience(c)
    case _ => 1
  }

  function HandshakePatience(c: Conn): nat {
    if c.session.Some? && c.session.value.handshake.Some? && c.session.value.handshake.value.retries < E.RETRY_LIMIT
    then 1 + E.RETRY_LIMIT - c.session.value.handshake.value.retries else 1
  }

  // ---- one expiry ---------------------------------------------------------------------

  predicate Quiet(out: seq<Action>) {
    !GivesUp(out) && !BacksOff(out)
  }

  lemma FailSettles(t: Turn, f: Failure)
    requires Quiet(t.out)
    ensures var again := t.c.target.Some? && t.c.target.value.retry && !Terminal(f);
            (GivesUp(Fail(t, f).out) <==> !again) && (BacksOff(Fail(t, f).out) <==> again)
  {
    hide BackoffMs, Terminal;
    var out := Fail(t, f).out;
    assert out[..|t.out|] == t.out;
    if t.c.target.Some? && t.c.target.value.retry && !Terminal(f) {
      assert out[|out| - 2] == Notify(Reconnecting);
    } else {
      assert out[|out| - 1] == Failed(f);
    }
  }

  // What the expiry of its timer does to a state: ends the attempt, when it is
  // spent, or leaves it nearer to its end.
  predicate Expired(c: Conn, t: Turn) {
    if Spent(c) then
      (GivesUp(t.out) <==> !Persists(c)) && (BacksOff(t.out) <==> Persists(c))
    else
      && Quiet(t.out)
      && ((forall i :: 0 <= i < |t.out| ==> !t.out[i].SetTimer?) || Patience(t.c) < Patience(c))
  }

  // What a handshake makes of an expiry: nothing, an end, or one more resend.
  lemma HandshakeAtExpiry(env: Surroundings, m: H.FourWay)
    ensures var o := H.Poll(env.c, m, H.Expiry);
            if m.lastSent.None? then o.result == Ok([]) && o.next == m
            else if m.retries >= E.RETRY_LIMIT then o.result == Err(E.EapolError.Timeout)
            else o.result == Ok([H.Send(m.lastSent.value), H.ArmTimer(H.RETRY_INTERVAL_MS)])
                 && o.next == m.(retries := m.retries + 1)
  {
    hide H.OnFrame;
  }

  lemma ResendExpires(c: Conn, t: Turn, a: Action, id: TimerId, millis: nat)
    requires !Spent(c) && t.out == [a, SetTimer(id, millis)] && !a.Failed? && !a.Notify? && Patience(t.c) < Patience(c)
    ensures Expired(c, t)
  {
  }

  lemma HandshakeExpires(env: Surroundings, c: Conn)
    requires c.state == Handshaking || c.state == Connected
    ensures Expired(c, DriveHandshake(env, Turn(c, []), H.Expiry))
  {
    assert FailureOfEapol(E.EapolError.Timeout) == HandshakeFailed;
    hide H.Poll, Fail, Configured, FailureOfEapol, Expired;
    if c.session.Some? && c.session.value.handshake.Some? {
      var s := c.session.value;
      var m := s.handshake.value;
      HandshakeAtExpiry(env, m);
      var o := H.Poll(env.c, m, H.Expiry);
      var u := Turn(c.(session := Some(s.(handshake := Some(o.next)))), []);
      if m.lastSent.None? {
        NothingExpires(c, u);
      } else if m.retries >= E.RETRY_LIMIT {
        FailureExpires(c, u, HandshakeFailed);
      } else {
        PerformUnfolds(u, H.Send(m.lastSent.value), H.ArmTimer(H.RETRY_INTERVAL_MS), H.DisarmTimer);
        ResendExpires(c, DriveHandshake(env, Turn(c, []), H.Expiry), SendEapol(m.lastSent.value), HandshakeRetry, H.RETRY_INTERVAL_MS);
      }
    } else {
      NothingExpires(c, Turn(c, []));
    }
  }

  lemma NothingExpires(c: Conn, t: Turn)
    requires !Spent(c) && t.out == []
    ensures Expired(c, t)
  {
  }

  lemma FailureExpires(c: Conn, t: Turn, f: Failure)
    requires Spent(c) && t.out == [] && t.c.target == c.target && (Terminal(f) <==> c.state == Authenticating)
    ensures Expired(c, Fail(t, f))
  {
    hide Fail, Terminal, Spent;
    FailSettles(t, f);
  }

  lemma SaeExpires(env: Surroundings, c: Conn)
    requires env.Valid() && c.state == Authenticating && c.target.Some? && c.session.Some?
    requires c.session.value.auth.PreAssoc? && InProgress(c.session.value.auth.sae)
    ensures Expired(c, DriveSae(env, Turn(c, []), None, false))
  {
    hide Fail, SaeContext, Expired;
    var s := c.session.value;
    var o := S.OnTimeout(s.auth.sae);
    var u := Turn(c.(session := Some(s.(auth := PreAssoc(o.next)))), []);
    var t := DriveSae(env, Turn(c, []), None, false);
    assert t == OnSaeStep(u, o.result);
    if o.result.Err? {
      FailureExpires(c, u, AuthRejected);
    } else {
      ResendExpires(c, t, t.out[0], AuthTimeout, AUTH_TIMEOUT_MS);
    }
  }

  lemma LiveIsTheState(c: Conn, seen: Seen, id: TimerId)
    requires Invariant(false, c, seen) && id in seen.live
    ensures TimerOf(c.state) == Some(id)
    ensures c.state == Authenticating ==>
              c.target.Some? && c.session.Some? && c.session.value.auth.PreAssoc? && InProgress(c.session.value.auth.sae)
  {
    hide SessionOk, InProgress;
  }

  lemma TimerExpires(env: Surroundings, drawn: Drawn, c: Conn, seen: Seen, id: TimerId)
    requires env.Valid() && Invariant(false, c, seen) && id in seen.live
    ensures Expired(c, Poll(env, drawn, c, Timer(id)))
  {
    hide DriveSae, DriveHandshake, Fail, StartScan, InProgress, Expired, Invariant, OnCommand, OnWireless, OnScanResults, OnEapol, OnLease;
    LiveIsTheState(c, seen, id);
    var t := Turn(c, []);
    match c.state {
      case Scanning => if c.pending.None? { FailureExpires(c, t, NotFound); } else { NothingExpires(c, t); }
      case Associating => FailureExpires(c, t, AssocTimedOut);
      case Authenticating => SaeExpires(env, c);
      case Reconnecting => BackoffExpires(t);
      case _ => HandshakeExpires(env, c);
    }
  }

  lemma BackoffExpires(t: Turn)
    requires t.c.state == Reconnecting && t.out == []
    ensures Expired(t.c, StartScan(t))
  {
  }

  // ---- whole runs ------------------------------------------------------------------------

  predicate LiveExpiry(r: Run, k: nat)
    requires k < |r.happenings| == |r.outputs|
  {
    r.happenings[k].Fires? && r.happenings[k].timer in SeenAt(r, k).live
  }

  lemma ExpiredAt(env: Surroundings, device: Device, profiles: seq<Profile>, r: Run, k: nat)
    requires IsRun(env, device, profiles, r) && k < |r.happenings| && LiveExpiry(r, k)
    ensures Expired(r.states[k], Turn(r.states[k + 1], r.outputs[k]))
  {
    hide Invariant, Expired, Poll;
    RunKeeps(env, false, device, profiles, r, k);
    assert StepOf(env, r, k);
    TimerExpires(env, r.happenings[k].drawn, r.states[k], SeenAt(r, k), r.happenings[k].timer);
  }

  // A network in silence is given up on, or tried again after a pause, exactly
  // when the attempt is spent; and one that is to be tried again is given up on
  // in silence exactly when it fell silent during SAE.
  lemma SilenceLaw(env: Surroundings, device: Device, profiles: seq<Profile>, r: Run, k: nat)
    requires IsRun(env, device, profiles, r) && k < |r.happenings| && LiveExpiry(r, k)
    ensures GivesUp(r.outputs[k]) <==> Spent(r.states[k]) && !Persists(r.states[k])
    ensures BacksOff(r.outputs[k]) <==> Spent(r.states[k]) && Persists(r.states[k])
  {
    hide IsRun, LiveExpiry, GivesUp, BacksOff, Spent, Persists;
    ExpiredAt(env, device, profiles, r, k);
  }

  // Without a timer set, none is left running after an expiry.
  lemma {:induction false} NothingSet(s: Seen, out: seq<Action>)
    requires s.live == {} && forall i :: 0 <= i < |out| ==> !out[i].SetTimer?
    ensures Observed(s, out).live == {}
  {
    if out != [] { NothingSet(s, out[..|out| - 1]); }
  }

  lemma NextExpiryNeedsATimer(env: Surroundings, device: Device, profiles: seq<Profile>, r: Run, k: nat)
    requires IsRun(env, device, profiles, r) && k + 1 < |r.happenings| && LiveExpiry(r, k) && LiveExpiry(r, k + 1)
    ensures exists i :: 0 <= i < |r.outputs[k]| && r.outputs[k][i].SetTimer?
  {
    hide StepOf, Handle;
    OneTimer(env, device, profiles, r, k);
    if forall i :: 0 <= i < |r.outputs[k]| ==> !r.outputs[k][i].SetTimer? {
      NothingSet(SeenBefore(SeenAt(r, k), r.happenings[k]), r.outputs[k]);
      assert false;
    }
  }

  // However a connection stands, it outlasts no more than its patience of
  // expiries in a row before the attempt ends one way or the other.
  lemma {:induction false} SilenceEndsTheAttempt(env: Surroundings, device: Device, profiles: seq<Profile>, r: Run, j: nat, n: nat)
    requires IsRun(env, device, profiles, r) && j + n <= |r.happenings|
    requires forall i :: j <= i < j + n ==> LiveExpiry(r, i) && Quiet(r.outputs[i])
    ensures j < |r.states| && n <= Patience(r.states[j]) <= 1 + S.SYNC_MAX
    decreases n
  {
    hide StepOf, Handle, LiveExpiry, Quiet, Spent, Persists, GivesUp, BacksOff;
    if n > 1 {
      assert LiveExpiry(r, j) && LiveExpiry(r, j + 1) && Quiet(r.outputs[j]);
      ExpiredAt(env, device, profiles, r, j);
      NextExpiryNeedsATimer(env, device, profiles, r, j);
      SilenceEndsTheAttempt(env, device, profiles, r, j + 1, n - 1);
      SpentIsHeard(r.states[j], Turn(r.states[j + 1], r.outputs[j]));
    }
  }

  lemma SpentIsHeard(c: Conn, t: Turn)
    requires Expired(c, t) && Quiet(t.out)
    ensures !Spent(c)
  {
    hide Spent, GivesUp, BacksOff;
  }
}
