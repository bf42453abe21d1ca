// What every input keeps of a connection, and what each action it asks for may
// be taken to mean.

module ConnInvariant {
  import opened Bytes
  import opened Suites
  import opened Policy
  import opened Connection
  import opened ConnParts

  // ---- what the daemon has seen -----------------------------------------------------

  // The core timers running, the peer keyed since the last association request,
  // and that request.
  datatype Seen = Seen(live: set<TimerId>, keyed: Option<Mac>, request: Option<AssocRequest>)

  function Observe(s: Seen, a: Action): Seen {
    match a
    case SetTimer(id, _) => s.(live := s.live + {id})
    case ClearTimer(id) => s.(live := s.live - {id})
    case Associate(request) => s.(request := Some(request), keyed := None)
    case InstallKeys(pairwise, _) => if pairwise.Some? then s.(keyed := Some(pairwise.value.peer)) else s
    case _ => s
  }

  function Observed(s: Seen, out: seq<Action>): Seen {
    if out == [] then s else Observe(Observed(s, out[..|out| - 1]), out[|out| - 1])
  }

  lemma PushSeen(s: Seen, t: Turn, a: Action)
    ensures Observed(s, Push(t, a).out) == Observe(Observed(s, t.out), a)
  {
    assert Push(t, a).out[..|t.out|] == t.out;
  }

  // ---- timers --------------------------------------------------------------------------

  // The machine's belief: at most the timer of its state, and nothing runs that
  // it does not believe in.
  predicate Timed(c: Conn, seen: Seen) {
    && (c.armed.Some? ==> c.armed == TimerOf(c.state))
    && (forall id :: id in seen.live ==> c.armed == Some(id))
  }

  // The states that cannot be left waiting on nothing.
  predicate Waiting(c: Conn, seen: Seen) {
    && (c.state in {Authenticating, Associating, Reconnecting} ==> TimerOf(c.state).value in seen.live)
    && (c.state == Scanning && c.pending.None? ==> ScanTimeout in seen.live)
  }

  // ---- sessions -------------------------------------------------------------------------

  // The choice is what policy made of the BSS it was planned for, and it clears
  // the floor recorded then.
  predicate OriginOk(origin: Origin, choice: Choice) {
    var bss := origin.bss;
    && choice.bssid == bss.bssid && choice.advertised == bss.security
    && (choice.rsn.Some? <==> bss.rsn.Some?)
    && (choice.rsn.None? ==> bss.security == Open && choice.negotiated == Open)
    && (choice.rsn.Some? ==> ChosenFrom(choice.rsn.value, bss.rsn.value) && choice.negotiated == SecurityOf(choice.rsn.value))
    && (origin.floor.Some? ==> IsAtLeast(choice.negotiated, origin.floor.value))
  }

  predicate ChosenFrom(n: Negotiated, rsn: RsnIe) {
    && n.beaconIe == rsn.raw && n.akm in rsn.akms && n.pairwise in rsn.pairwise
    && n.group == rsn.group && n.groupMgmt == rsn.groupMgmt
    && n.mfpRequired == (rsn.mfpRequired || n.akm.IsSae()) && n.mfpCapable == (rsn.mfpCapable || n.mfpRequired)
    && Runnable(n.akm, true)
  }

  predicate SessionOk(s: Session, seen: Seen) {
    && OriginOk(s.origin, s.choice)
    && !s.auth.Offloaded?
    && (s.auth.Ready? || s.auth.PreAssoc? || s.auth.PostAssoc? || s.handshake.Some? ==> s.choice.rsn.Some?)
    && (s.auth.PreAssoc? ==> s.choice.rsn.value.akm.Sae? && s.handshake.None?)
    && (s.auth.PostAssoc? ==> RepeatsEap(s.auth.eap))
    && (!s.auth.PreAssoc? ==> Requested(s, seen))
    && (s.auth.OpenAuth? ==> s.choice.rsn.None? || seen.request.value.offload.Some?)
    && (s.handshake.Some? ==>
          && ResendsOwn(s.handshake.value)
          && s.handshake.value.config.assocIe == s.assocIe
          && s.handshake.value.config.beaconIe == s.choice.rsn.value.beaconIe)
  }

  // The last association request was this session's.
  predicate Requested(s: Session, seen: Seen) {
    seen.request.Some? && seen.request.value.ies == s.assocIe && seen.request.value.bssid == s.choice.bssid
  }

  // The states that can have a session.
  predicate Standing(s: State) {
    s in {Authenticating, Associating, Handshaking, Configuring, Connected}
  }

  predicate Structured(c: Conn, seen: Seen) {
    && (c.session.Some? ==> c.target.Some? && Standing(c.state) && SessionOk(c.session.value, seen))
    && (c.state == Authenticating ==> c.session.Some? && c.session.value.auth.PreAssoc? && InProgress(c.session.value.auth.sae))
    && (c.state == Associating ==>
          c.session.Some? && (c.session.value.auth.OpenAuth? || c.session.value.auth.Ready? || c.session.value.auth.PostAssoc?))
  }

  // What holds as long as leases arrive only where they are asked for.
  predicate Keyed(c: Conn, seen: Seen) {
    && (c.session.Some? <==> Standing(c.state))
    && (c.session.Some? && c.session.value.auth.PreAssoc? ==> c.state == Authenticating)
    && (c.state == Configuring || c.state == Connected ==>
          c.session.Some? && seen.request.Some?
          && (c.session.value.choice.rsn.None? || seen.request.value.offload.Some? || seen.keyed == Some(c.session.value.choice.bssid)))
  }

  // How far the authentication of a session has got in each state, and that
  // keys asked for have yet to come.
  predicate Suits(s: Session, state: State, seen: Seen) {
    && (state == Associating || state == Handshaking ==> seen.keyed.None?)
    && (s.auth.Ready? ==> state == Associating)
    && (s.auth.PostAssoc? ==> (state == Associating || state == Handshaking) && s.handshake.None?)
    && (state == Handshaking ==> (s.auth.PostAssoc? || s.auth.Running?) && s.choice.rsn.Some?)
    && (s.auth.Ready? || s.auth.PostAssoc? || s.auth.Running? ==> seen.request.Some? && seen.request.value.offload.None?)
  }

  predicate Placed(c: Conn, seen: Seen) {
    Keyed(c, seen) && (c.session.Some? ==> Suits(c.session.value, c.state, seen))
  }

  // ---- what each action says ----------------------------------------------------------------

  predicate AssociateOk(s: Session, r: AssocRequest) {
    && r.bssid == s.choice.bssid && r.ies == s.assocIe
    && (s.choice.rsn.None? ==> r.akms == [] && r.mfp == None && r.ies == [])
    && (s.choice.rsn.Some? ==>
          var n := s.choice.rsn.value;
          && r.akms == [AkmSelector(n.akm)] && r.group == KernelCipher(n.group)
          && r.mfp == Some(if n.mfpRequired then MFP_REQUIRED else if n.mfpCapable then MFP_OPTIONAL else MFP_NO)
          && r.ies == Elements(n, s.pmkid, r.offload.Some?))
  }

  // `heard` is the RSN element the input carried under the handshake's keys.
  predicate ActionOk(session: Option<Session>, heard: Option<seq<byte>>, a: Action) {
    match a
    case Associate(r) => session.Some? && AssociateOk(session.value, r)
    case Authenticate(r) =>
      && session.Some? && r.bssid == session.value.choice.bssid
      && session.value.choice.rsn.Some? && session.value.choice.rsn.value.akm.Sae?
    case SendEapol(frame) =>
      KeyDataIn(frame) != [] ==>
        session.Some? && session.value.handshake.Some? && KeyDataIn(frame) == session.value.assocIe
    case InstallKeys(pairwise, _) =>
      pairwise.Some? ==>
        && session.Some? && session.value.choice.rsn.Some? && pairwise.value.peer == session.value.choice.bssid
        && heard == Some(session.value.choice.rsn.value.beaconIe)
        && session.value.handshake.Some? && session.value.handshake.value.ptk == Some(pairwise.value.ptk)
    case Failed(f) => !f.Internal?
    case Crashed => false
    case _ => true
  }

  // A message to be sent again: an EAPOL frame with the station's own elements.
  predicate Repeatable(session: Option<Session>, a: Action) {
    && a.SendEapol? && session.Some? && session.value.handshake.Some?
    && KeyDataIn(a.frame) == session.value.assocIe
  }

  predicate ArmsRetry(a: Action) {
    a.SetTimer? && a.id == HandshakeRetry
  }

  // The retry timer of a handshake is set only right after such a message.
  predicate RetriesOwn(session: Option<Session>, out: seq<Action>) {
    && (out != [] ==> !ArmsRetry(out[0]))
    && forall i, j :: 0 <= i < |out| && 0 <= j < |out| && j == i + 1 && ArmsRetry(out[j]) ==> Repeatable(session, out[i])
  }

  predicate Actions(session: Option<Session>, heard: Option<seq<byte>>, out: seq<Action>) {
    && (forall i :: 0 <= i < |out| ==> ActionOk(session, heard, out[i]))
    && RetriesOwn(session, out)
  }

  // Nothing in it that says anything about a session.
  predicate Plain(a: Action) {
    && !a.Associate? && !a.Authenticate? && !a.SendEapol? && !a.InstallKeys? && !a.Crashed? && !ArmsRetry(a)
    && (a.Failed? ==> !a.failure.Internal?)
  }

  predicate AllPlain(out: seq<Action>) {
    forall i :: 0 <= i < |out| ==> Plain(out[i])
  }

  lemma PushRetries(session: Option<Session>, out: seq<Action>, a: Action)
    requires RetriesOwn(session, out)
    requires ArmsRetry(a) ==> out != [] && Repeatable(session, out[|out| - 1])
    ensures RetriesOwn(session, out + [a])
  {
    hide Repeatable;
  }

  lemma PlainIsOk(session: Option<Session>, heard: Option<seq<byte>>, out: seq<Action>)
    requires AllPlain(out)
    ensures Actions(session, heard, out)
  {
    assert forall i :: 0 <= i < |out| ==> Plain(out[i]);
  }

  // ---- the whole invariant ---------------------------------------------------------------------

  predicate Good(tame: bool, heard: Option<seq<byte>>, s0: Seen, t: Turn) {
    var seen := Observed(s0, t.out);
    && Timed(t.c, seen) && Structured(t.c, seen) && (tame ==> Placed(t.c, seen))
    && Actions(t.c.session, heard, t.out)
  }

  predicate Waits(s0: Seen, t: Turn) {
    Waiting(t.c, Observed(s0, t.out))
  }

  // ---- transitions --------------------------------------------------------------------------------

  lemma EnterKeeps(s0: Seen, t: Turn, state: State)
    requires Timed(t.c, Observed(s0, t.out))
    ensures var u := Enter(t, state);
            var before, after := Observed(s0, t.out), Observed(s0, u.out);
            && u.c == t.c.(state := state, armed := u.c.armed)
            && Timed(u.c, after) && after.keyed == before.keyed && after.request == before.request
            && (forall id :: id in before.live && TimerOf(state) == Some(id) ==> id in after.live)
            && |u.out| > |t.out| && u.out[..|t.out|] == t.out
            && (AllPlain(t.out) ==> AllPlain(u.out))
  {
    hide Observed;
    var v := if t.c.armed.Some? && t.c.armed != TimerOf(state) then Disarm(t) else t;
    if v != t { PushSeen(s0, t.(c := t.c.(armed := None)), ClearTimer(t.c.armed.value)); }
    PushSeen(s0, v.(c := v.c.(state := state)), Notify(state));
  }

  lemma DisarmKeeps(s0: Seen, t: Turn)
    requires Timed(t.c, Observed(s0, t.out))
    ensures var u := Disarm(t);
            var before, after := Observed(s0, t.out), Observed(s0, u.out);
            && u.c == t.c.(armed := None) && after == before.(live := {})
            && u.out[..|t.out|] == t.out
            && (AllPlain(t.out) ==> AllPlain(u.out))
  {
    hide Observed;
    if t.c.armed.Some? {
      PushSeen(s0, t.(c := t.c.(armed := None)), ClearTimer(t.c.armed.value));
      assert Observed(s0, t.out).live - {t.c.armed.value} == {};
    } else {
      assert Observed(s0, t.out).live == {};
    }
  }

  lemma ArmKeeps(s0: Seen, t: Turn, id: TimerId, millis: nat)
    requires Timed(t.c, Observed(s0, t.out)) && TimerOf(t.c.state) == Some(id)
    ensures var u := Arm(t, id, millis);
            var before, after := Observed(s0, t.out), Observed(s0, u.out);
            && u.c == t.c.(armed := Some(id)) && Timed(u.c, after)
            && after == before.(live := before.live + {id})
            && u.out == t.out + [SetTimer(id, millis)]
            && (AllPlain(t.out) && id != HandshakeRetry ==> AllPlain(u.out))
  {
    hide Observed;
    PushSeen(s0, t.(c := t.c.(armed := Some(id))), SetTimer(id, millis));
  }

  // Between attempts there is nothing to hold but the timer.
  lemma NoSessionIsGood(tame: bool, heard: Option<seq<byte>>, s0: Seen, t: Turn)
    requires Timed(t.c, Observed(s0, t.out)) && AllPlain(t.out) && t.c.session.None? && !Standing(t.c.state)
    ensures Good(tame, heard, s0, t)
  {
    hide Observed, Timed, Plain;
    PlainIsOk(None, heard, t.out);
  }

  lemma FailRetries(s0: Seen, v: Turn)
    requires Timed(v.c, Observed(s0, v.out)) && AllPlain(v.out)
    ensures var attempts: u32 := (v.c.attempts + 1) % 0x1_0000_0000;
            var u := Arm(Enter(v.(c := v.c.(attempts := attempts)), Reconnecting), ReconnectBackoff, BackoffMs(attempts));
            && Timed(u.c, Observed(s0, u.out)) && AllPlain(u.out) && Waits(s0, u)
            && u.c.session == v.c.session && u.c.state == Reconnecting
  {
    hide Observed, Enter, Arm, Plain, BackoffMs;
    var attempts: u32 := (v.c.attempts + 1) % 0x1_0000_0000;
    var w := v.(c := v.c.(attempts := attempts));
    EnterKeeps(s0, w, Reconnecting);
    ArmKeeps(s0, Enter(w, Reconnecting), ReconnectBackoff, BackoffMs(attempts));
  }

  lemma FailStops(s0: Seen, v: Turn, f: Failure)
    requires Timed(v.c, Observed(s0, v.out)) && AllPlain(v.out) && !f.Internal?
    ensures var w := Disarm(v);
            var u := Push(w.(c := w.c.(state := Idle, target := None, attempts := 0)), Failed(f));
            Timed(u.c, Observed(s0, u.out)) && AllPlain(u.out) && Waits(s0, u)
  {
    hide Observed, Disarm;
    DisarmKeeps(s0, v);
    var w := Disarm(v);
    PushSeen(s0, w.(c := w.c.(state := Idle, target := None, attempts := 0)), Failed(f));
  }

  // However an attempt ends, it leaves no session behind, and a timer running
  // if it is to be tried again.
  lemma FailKeeps(tame: bool, heard: Option<seq<byte>>, s0: Seen, t: Turn, f: Failure)
    requires Timed(t.c, Observed(s0, t.out)) && AllPlain(t.out) && !f.Internal?
    ensures Good(tame, heard, s0, Fail(t, f)) && Waits(s0, Fail(t, f)) && AllPlain(Fail(t, f).out)
  {
    hide Observed, Good, Waits, Terminal, BackoffMs, Enter, Arm;
    var u := if Associated(t.c.state) && !f.Disconnected? then Push(t, Disconnect(REASON_LEAVING)) else t;
    PushSeen(s0, t, Disconnect(REASON_LEAVING));
    var v := u.(c := u.c.(session := None, pending := None));
    FailRetries(s0, v);
    FailStops(s0, v, f);
    NoSessionIsGood(tame, heard, s0, Fail(t, f));
  }

  lemma GoIdleKeeps(tame: bool, heard: Option<seq<byte>>, s0: Seen, t: Turn)
    requires Timed(t.c, Observed(s0, t.out)) && AllPlain(t.out)
    ensures Good(tame, heard, s0, GoIdle(t)) && Waits(s0, GoIdle(t))
  {
    hide Observed, Disarm, Good;
    DisarmKeeps(s0, t);
    var u := Disarm(t);
    PushSeen(s0, u.(c := u.c.(state := Idle, target := None, session := None, pending := None, attempts := 0)), Notify(Idle));
    NoSessionIsGood(tame, heard, s0, GoIdle(t));
  }

  lemma StartScanKeeps(tame: bool, heard: Option<seq<byte>>, s0: Seen, t: Turn)
    requires Timed(t.c, Observed(s0, t.out)) && AllPlain(t.out) && t.c.session.None?
    ensures Good(tame, heard, s0, StartScan(t)) && Waits(s0, StartScan(t))
  {
    hide Observed, Enter, Arm, Good;
    EnterKeeps(s0, t, Scanning);
    var u := Enter(t, Scanning);
    PushSeen(s0, u, TriggerScan(u.c.device.ifindex));
    ArmKeeps(s0, Push(u, TriggerScan(u.c.device.ifindex)), ScanTimeout, SCAN_TIMEOUT_MS);
    NoSessionIsGood(tame, heard, s0, StartScan(t));
  }
}
