// The daemon's feedback loop: an action can produce the next input, and the
// loop stops asking after MAX_TURNS (crates/cawd/src/engine.rs).

module EngineLoop {
  import opened Bytes
  import opened Policy
  import opened Connection
  import E = Eapol
  import D = Dot1x
  import H = FourWayHandshake
  import S = SaeExchange
  import Y = DhcpClient

  const MAX_TURNS: nat := 32

  // What the system has to say to one action: whether it could be performed,
  // the scan cache, and a transaction id for a DHCP run.
  datatype Answer = Answer(ok: bool, scan: seq<Bss>, newXid: u32)

  // Answers by the position of the action in its turn.
  type Answers = nat -> Answer

  // The lease event a step of the DHCP client amounts to; the last one counts.
  function EventOf(actions: seq<Y.Action>): Option<LeaseEvent> {
    if actions == [] then None
    else
      match actions[|actions| - 1]
      case Configured(lease) => Some(Acquired(lease))
      case Deconfigure(why) => Some(Lost(why))
      case Failed => Some(NoLease)
      case _ => EventOf(actions[..|actions| - 1])
  }

  // Starting an exchange reports nothing: only its answer or its end does.
  lemma StartingDhcpIsSilent(mac: Mac, hostname: Option<seq<byte>>, xid: u32)
    ensures EventOf(Y.OnStart(Y.Fresh(mac, hostname, xid), xid).actions) == None
  {
    hide Y.DiscoverMessage, Y.Backoff;
    var actions := Y.OnStart(Y.Fresh(mac, hostname, xid), xid).actions;
    assert actions[..1] == [actions[0]] && actions[..1][..0] == [];
    assert EventOf(actions[..1]) == EventOf(actions[..1][..0]);
  }

  // The input an action hands back once performed.
  function Produces(device: Device, a: Action, answer: Answer): Option<Input> {
    match a
    case FetchScanResults(_) => Some(ScanResults(answer.scan))
    case StartDhcp =>
      var event := EventOf(Y.OnStart(Y.Fresh(device.mac, None, answer.newXid), answer.newXid).actions);
      if event.Some? then Some(Leased(event.value)) else None
    case _ => None
  }

  datatype Performance = Performance(c: Conn, produced: seq<Input>, ok: bool)

  // The actions of one turn, in order, up to the first that cannot be done. A
  // profile written is put back in memory too.
  function PerformAll(c: Conn, actions: seq<Action>, answers: Answers): Performance {
    if actions == [] then Performance(c, [], true)
    else
      var n := |actions| - 1;
      var p := PerformAll(c, actions[..n], answers);
      if !p.ok || !answers(n).ok then p.(ok := false)
      else
        var d := if actions[n].SaveProfile? then InsertProfile(p.c, actions[n].profile) else p.c;
        var next := Produces(c.device, actions[n], answers(n));
        Performance(d, p.produced + if next.Some? then [next.value] else [], true)
  }

  datatype Outcome = Settled(turns: nat, c: Conn) | Aborted(turns: nat, c: Conn) | Tripped

  // Polling until nothing more is asked; a failed action puts the connection
  // back to idle.
  function Settle(env: Surroundings, drawn: nat -> Drawn, answers: nat -> Answers, c: Conn, queue: seq<Input>, turn: nat): Outcome
    requires env.Valid() && turn <= MAX_TURNS
    decreases MAX_TURNS - turn
  {
    if turn == MAX_TURNS then Tripped
    else if queue == [] then Settled(turn, c)
    else
      var t := Poll(env, drawn(turn), c, queue[0]);
      var p := PerformAll(t.c, t.out, answers(turn));
      if !p.ok then Aborted(turn + 1, Poll(env, drawn(turn), p.c, Commanded(Disconnecting)).c)
      else Settle(env, drawn, answers, p.c, queue[1..] + p.produced, turn + 1)
  }

  // ---- who asks for the scan cache ----------------------------------------------------

  predicate NoFetch(out: seq<Action>) {
    forall i :: 0 <= i < |out| ==> !out[i].FetchScanResults?
  }

  lemma TransitionsFetchNothing(t: Turn, state: State, id: TimerId, millis: nat)
    requires NoFetch(t.out)
    ensures NoFetch(Enter(t, state).out) && NoFetch(Arm(t, id, millis).out) && NoFetch(Disarm(t).out)
  {
    hide TimerOf;
  }

  lemma FailFetchesNothing(t: Turn, f: Failure)
    requires NoFetch(t.out)
    ensures NoFetch(Fail(t, f).out)
  {
    hide TimerOf, BackoffMs, Terminal;
  }

  lemma StartScanFetchesNothing(t: Turn)
    requires NoFetch(t.out)
    ensures NoFetch(StartScan(t).out)
  {
    hide Enter, Arm;
    TransitionsFetchNothing(t, Scanning, ScanTimeout, 0);
    var u := Enter(t, Scanning);
    TransitionsFetchNothing(Push(u, TriggerScan(u.c.device.ifindex)), Scanning, ScanTimeout, SCAN_TIMEOUT_MS);
  }

  lemma AssociationFetchesNothing(t: Turn)
    requires NoFetch(t.out)
    ensures NoFetch(SendAssociation(t).out)
  {
    hide RequestFor, Enter, Arm;
    if t.c.session.Some? {
      var s := t.c.session.value;
      var request := RequestFor(t.c.device, Ssid(t.c), s);
      var sent := s.(auth := if s.auth.Offloaded? then OpenAuth else s.auth,
                     assocIe := if s.choice.rsn.Some? then request.ies else s.assocIe);
      var u := t.(c := t.c.(session := Some(sent)));
      TransitionsFetchNothing(u, Associating, AssocTimeout, 0);
      TransitionsFetchNothing(Push(Enter(u, Associating), Associate(request)), Associating, AssocTimeout, ASSOC_TIMEOUT_MS);
    }
  }

  lemma SaeStepFetchesNothing(t: Turn, r: S.Stepped)
    requires NoFetch(t.out)
    ensures NoFetch(OnSaeStep(t, r).out)
  {
    hide Fail, SendAssociation;
    if r.Err? {
      FailFetchesNothing(t, FailureOfCrypto(r.error));
    } else {
      FailFetchesNothing(t, Internal);
      if r.value.Done? && t.c.session.Some? {
        var s := t.c.session.value;
        var pmkid := if s.auth.PreAssoc? then s.auth.sae.pmkid else s.pmkid;
        AssociationFetchesNothing(t.(c := t.c.(session := Some(s.(pmkid := pmkid, auth := Ready(r.value.pmk))))));
      }
    }
  }

  lemma SaeFetchesNothing(env: Surroundings, t: Turn, frame: Option<seq<byte>>, start: bool)
    requires env.Valid() && NoFetch(t.out)
    ensures NoFetch(DriveSae(env, t, frame, start).out)
  {
    hide S.Start, S.OnFrame, S.OnTimeout, OnSaeStep;
    if t.c.target.Some? && t.c.session.Some? && t.c.session.value.auth.PreAssoc? {
      var s := t.c.session.value;
      var o := if start then S.Start(env.g, s.auth.sae, SaeContext(t.c, s.choice))
               else if frame.Some? then S.OnFrame(env.g, s.auth.sae, frame.value)
               else S.OnTimeout(s.auth.sae);
      SaeStepFetchesNothing(t.(c := t.c.(session := Some(s.(auth := PreAssoc(o.next))))), o.result);
    }
  }

  lemma PlanFetchesNothing(env: Surroundings, drawn: Drawn, t: Turn, bss: Bss, roaming: bool)
    requires env.Valid() && NoFetch(t.out)
    ensures NoFetch(Plan(env, drawn, t, bss, roaming).out)
  {
    hide DriveSae, SendAssociation, Decide, Fail, Enter, Disarm;
    match Decide(env, drawn, t.c, bss, roaming) {
      case Unsuitable(f) => FailFetchesNothing(t, f);
      case Abandon(f) => FailFetchesNothing(t, f);
      case Ask => TransitionsFetchNothing(t, Idle, ScanTimeout, 0);
      case Stay =>
      case Go(s) =>
        var u := t.(c := t.c.(session := Some(s)));
        TransitionsFetchNothing(u, Authenticating, AuthTimeout, 0);
        SaeFetchesNothing(env, Enter(u, Authenticating), None, true);
        AssociationFetchesNothing(u);
    }
  }

  lemma StartHandshakeFetchesNothing(t: Turn, pmk: seq<byte>, drawn: Drawn)
    requires NoFetch(t.out)
    ensures NoFetch(StartHandshake(t, pmk, drawn).out)
  {
    hide Fail, Enter;
    FailFetchesNothing(t, FailureOfEapol(E.EntropyFailed));
    if t.c.session.Some? && t.c.session.value.choice.rsn.Some? && drawn.snonce.Some? {
      var s := t.c.session.value;
      var n := s.choice.rsn.value;
      var config := H.Config(n.akm, t.c.device.mac, s.choice.bssid, s.assocIe, n.beaconIe);
      TransitionsFetchNothing(t.(c := t.c.(session := Some(s.(handshake := Some(H.Fresh(pmk, config, drawn.snonce.value)))))),
                              Handshaking, HandshakeRetry, 0);
    }
  }

  lemma Dot1xFetchesNothing(env: Surroundings, t: Turn, drawn: Drawn, frame: Option<seq<byte>>)
    requires NoFetch(t.out)
    ensures NoFetch(DriveDot1x(env, drawn, t, frame).out)
  {
    hide D.OnFrame, Fail, StartHandshake;
    if t.c.target.Some? && t.c.session.Some? && t.c.session.value.auth.PostAssoc? && frame.Some? {
      var s := t.c.session.value;
      var o := D.OnFrame(env.methods(s.auth.account), s.auth.eap, frame.value);
      var u := t.(c := t.c.(session := Some(s.(auth := PostAssoc(s.auth.account, o.next)))));
      if o.result.Err? {
        FailFetchesNothing(u, FailureOfCrypto(CryptoOfEapol(o.result.error)));
      } else if o.result.value.Done? {
        StartHandshakeFetchesNothing(u.(c := u.c.(session := Some(s.(auth := Running)))), o.result.value.pmk, drawn);
      }
    }
  }

  lemma ConfiguredFetchesNothing(t: Turn)
    requires NoFetch(t.out)
    ensures NoFetch(Configured(t).out)
  {
    hide Enter;
    TransitionsFetchNothing(t, Connected, HandshakeRetry, 0);
    TransitionsFetchNothing(t, Configuring, HandshakeRetry, 0);
  }

  lemma {:induction false} PerformFetchesNothing(t: Turn, actions: seq<H.Action>)
    requires NoFetch(t.out)
    ensures NoFetch(Perform(t, actions).out)
  {
    hide Suite, GroupSuite;
    if actions != [] { PerformFetchesNothing(t, actions[..|actions| - 1]); }
  }

  lemma HandshakeFetchesNothing(env: Surroundings, t: Turn, input: H.Input)
    requires NoFetch(t.out)
    ensures NoFetch(DriveHandshake(env, t, input).out)
  {
    hide H.Poll, H.Installs, Fail, Perform, Configured;
    if t.c.session.Some? && t.c.session.value.handshake.Some? {
      var s := t.c.session.value;
      var o := H.Poll(env.c, s.handshake.value, input);
      var u := t.(c := t.c.(session := Some(s.(handshake := Some(o.next)))));
      if o.result.Ok? {
        PerformFetchesNothing(u, o.result.value);
        ConfiguredFetchesNothing(Perform(u, o.result.value));
      } else {
        FailFetchesNothing(u, FailureOfEapol(o.result.error));
      }
    }
  }

  lemma AssociatedFetchesNothing(env: Surroundings, t: Turn, drawn: Drawn)
    requires NoFetch(t.out)
    ensures NoFetch(OnAssociated(env, drawn, t).out)
  {
    hide DriveDot1x, Configured, StartHandshake, Fail, Enter;
    if t.c.session.Some? {
      var s := t.c.session.value;
      FailFetchesNothing(t, Internal);
      match s.auth {
        case OpenAuth => ConfiguredFetchesNothing(t);
        case Offloaded(_) => ConfiguredFetchesNothing(t.(c := t.c.(session := Some(s.(auth := OpenAuth)))));
        case Ready(pmk) => StartHandshakeFetchesNothing(t.(c := t.c.(session := Some(s.(auth := Running)))), pmk, drawn);
        case _ =>
          TransitionsFetchNothing(t, Handshaking, HandshakeRetry, 0);
          Dot1xFetchesNothing(env, Enter(t, Handshaking), drawn, None);
      }
    }
  }

  lemma ScanFetchesNothing(env: Surroundings, drawn: Drawn, t: Turn, scan: seq<Bss>)
    requires env.Valid() && NoFetch(t.out)
    ensures NoFetch(OnScanResults(env, drawn, t, scan).out)
  {
    hide Plan, Fail, BestBss, BestKnown, RoamTarget, FindBss;
    forall v: Turn, bss: Bss, roaming: bool | NoFetch(v.out) ensures NoFetch(Plan(env, drawn, v, bss, roaming).out) {
      PlanFetchesNothing(env, drawn, v, bss, roaming);
    }
    FailFetchesNothing(t, NotFound);
    FailFetchesNothing(t, NoKnownNetwork);
  }

  lemma CommandFetchesNothing(env: Surroundings, drawn: Drawn, t: Turn, command: Command)
    requires env.Valid() && NoFetch(t.out)
    ensures NoFetch(OnCommand(env, drawn, t, command).out)
  {
    hide Plan, StartScan, Disarm, ProfileFor;
    match command {
      case Connect(ssid) =>
        var u := if t.c.state != Idle then Push(t, Disconnect(REASON_LEAVING)) else t;
        var profile := ProfileFor(u.c.profiles, ssid);
        var target := Target(ssid, None, profile.Some? && profile.value.autoconnect, profile.None?);
        StartScanFetchesNothing(u.(c := u.c.(target := Some(target), session := None, pending := None, attempts := 0)));
      case Autoconnect =>
        StartScanFetchesNothing(t.(c := t.c.(target := None, session := None, pending := None, attempts := 0)));
      case Secret(value) =>
        if t.c.target.Some? && t.c.pending.Some? {
          var d := t.c.(target := Some(t.c.target.value.(secret := Some(value))), pending := None);
          PlanFetchesNothing(env, drawn, t.(c := d), t.c.pending.value, false);
        }
      case Disconnecting =>
        TransitionsFetchNothing(Push(t, Disconnect(REASON_LEAVING)), Idle, ScanTimeout, 0);
    }
  }

  lemma WirelessFetches(env: Surroundings, drawn: Drawn, t: Turn, event: Event)
    requires env.Valid() && t.out == []
    ensures event != ScanComplete ==> NoFetch(OnWireless(env, drawn, t, event).out)
    ensures event == ScanComplete ==> var out := OnWireless(env, drawn, t, event).out; out == [] || out == [FetchScanResults(t.c.device.ifindex)]
  {
    hide DriveSae, OnAssociated, AuthBody, Fail;
    AssociatedFetchesNothing(env, t, drawn);
    FailFetchesNothing(t, NotFound);
    FailFetchesNothing(t, AssocTimedOut);
    FailFetchesNothing(t, AuthRejected);
    match event {
      case Answered(RefusedWith(code)) => FailFetchesNothing(t, Refused(code));
      case Dropped(reason, byAp) => FailFetchesNothing(t, Failure.Disconnected(reason, byAp));
      case AuthFrame(frame) => SaeFetchesNothing(env, t, AuthBody(t.c, frame), false);
      case _ =>
    }
  }

  lemma LeaseFetchesNothing(t: Turn, event: LeaseEvent)
    requires NoFetch(t.out)
    ensures NoFetch(OnLease(t, event).out)
  {
    hide Enter, Fail, Others, NewProfile;
    FailFetchesNothing(t, DhcpFailed);
    TransitionsFetchNothing(t, Configuring, HandshakeRetry, 0);
    if event.Acquired? { TransitionsFetchNothing(Push(t, ApplyLease(event.lease)), Connected, HandshakeRetry, 0); }
  }

  lemma TimerFetchesNothing(env: Surroundings, t: Turn, id: TimerId)
    requires env.Valid() && NoFetch(t.out)
    ensures NoFetch(OnTimer(env, t, id).out)
  {
    hide DriveSae, DriveHandshake, Fail, StartScan;
    SaeFetchesNothing(env, t, None, false);
    HandshakeFetchesNothing(env, t, H.Expiry);
    FailFetchesNothing(t, NotFound);
    FailFetchesNothing(t, AssocTimedOut);
    StartScanFetchesNothing(t);
  }

  // Only a finished scan makes the connection ask for the results, and then it
  // asks for nothing else.
  lemma OnlyScanCompleteFetches(env: Surroundings, drawn: Drawn, c: Conn, input: Input)
    requires env.Valid()
    ensures var out := Poll(env, drawn, c, input).out;
            if input == Wireless(ScanComplete) then out == [] || out == [FetchScanResults(c.device.ifindex)] else NoFetch(out)
  {
    hide OnCommand, OnWireless, OnScanResults, OnTimer, OnLease, DriveHandshake, DriveDot1x;
    var t := Turn(c, []);
    match input {
      case Commanded(command) => CommandFetchesNothing(env, drawn, t, command);
      case Wireless(event) => WirelessFetches(env, drawn, t, event);
      case ScanResults(scan) => ScanFetchesNothing(env, drawn, t, scan);
      case EapolFrame(bytes) =>
        HandshakeFetchesNothing(env, t, H.Frame(bytes));
        Dot1xFetchesNothing(env, t, drawn, Some(bytes));
      case Timer(id) => TimerFetchesNothing(env, t, id);
      case Leased(event) => LeaseFetchesNothing(t, event);
    }
  }

  // ---- the loop settles ------------------------------------------------------------------

  lemma {:induction false} WithoutFetchNothingComesBack(c: Conn, actions: seq<Action>, answers: Answers)
    requires NoFetch(actions)
    ensures PerformAll(c, actions, answers).produced == []
  {
    hide EventOf, Y.OnStart;
    if actions != [] {
      var n := |actions| - 1;
      WithoutFetchNothingComesBack(c, actions[..n], answers);
      StartingDhcpIsSilent(c.device.mac, None, answers(n).newXid);
    }
  }

  lemma FetchBringsTheScan(c: Conn, answers: Answers)
    ensures var p := PerformAll(c, [FetchScanResults(c.device.ifindex)], answers);
            p.c == c && (p.ok ==> p.produced == [ScanResults(answers(0).scan)])
  {
    var actions := [FetchScanResults(c.device.ifindex)];
    assert actions[..0] == [];
    assert PerformAll(c, actions[..0], answers) == Performance(c, [], true);
  }

  lemma NothingPerformed(c: Conn, answers: Answers)
    ensures PerformAll(c, [], answers) == Performance(c, [], true)
  {
  }

  // Ended, one way or the other, before the guard, after so many turns.
  predicate EndsAt(o: Outcome, turns: nat) {
    !o.Tripped? && o.turns == turns
  }

  // A turn that brings nothing back is the last.
  lemma LastTurn(env: Surroundings, drawn: nat -> Drawn, answers: nat -> Answers, c: Conn, input: Input, turn: nat)
    requires env.Valid() && turn < MAX_TURNS - 1 && input != Wireless(ScanComplete)
    ensures EndsAt(Settle(env, drawn, answers, c, [input], turn), turn + 1)
  {
    hide Poll, PerformAll;
    OnlyScanCompleteFetches(env, drawn(turn), c, input);
    var t := Poll(env, drawn(turn), c, input);
    WithoutFetchNothingComesBack(t.c, t.out, answers(turn));
    assert [input][1..] + [] == [];
  }

  // Whatever the system answers, the loop has settled, or given up on an action
  // that failed, within two turns: its guard never trips.
  lemma SettlesInTwoTurns(env: Surroundings, drawn: nat -> Drawn, answers: nat -> Answers, c: Conn, input: Input)
    requires env.Valid()
    ensures var o := Settle(env, drawn, answers, c, [input], 0);
            EndsAt(o, 1) || (EndsAt(o, 2) && input == Wireless(ScanComplete))
  {
    hide Poll, PerformAll;
    if input == Wireless(ScanComplete) {
      OnlyScanCompleteFetches(env, drawn(0), c, input);
      var t := Poll(env, drawn(0), c, input);
      var p := PerformAll(t.c, t.out, answers(0));
      CompleteKeeps(env, drawn(0), c);
      if t.out == [] {
        NothingPerformed(t.c, answers(0));
        assert [input][1..] + [] == [];
      } else {
        FetchBringsTheScan(c, answers(0));
        if p.ok {
          var next: Input := ScanResults(answers(0)(0).scan);
          assert [input][1..] + [next] == [next];
          LastTurn(env, drawn, answers, p.c, next, 1);
        }
      }
    } else {
      LastTurn(env, drawn, answers, c, input, 0);
    }
  }

  lemma CompleteKeeps(env: Surroundings, drawn: Drawn, c: Conn)
    requires env.Valid()
    ensures Poll(env, drawn, c, Wireless(ScanComplete)).c == c
  {
  }
}

module EngineMachine {
  import opened Bytes
  import opened Connection
  import opened EngineLoop
  import opened ConnMachine

  class Engine {
    const core: Link

    constructor (core: Link)
      ensures this.core == core
    {
      this.core := core;
    }

    // One turn's actions, performed in order until one fails.
    method Perform(actions: seq<Action>, answers: Answers) returns (produced: seq<Input>, ok: bool)
      modifies core
      ensures Performance(core.Now(), produced, ok) == PerformAll(old(core.Now()), actions, answers)
    {
      hide Produces, InsertProfile;
      produced, ok := [], true;
      for i := 0 to |actions|
        invariant ok && Performance(core.Now(), produced, true) == PerformAll(old(core.Now()), actions[..i], answers)
        invariant core.Now().device == old(core.Now()).device
      {
        assert actions[..i + 1][..i] == actions[..i];
        if !answers(i).ok {
          ok := false;
          FailureSticks(old(core.Now()), actions, answers, i + 1);
          return;
        }
        if actions[i].SaveProfile? {
          core.InsertProfile(actions[i].profile);
          InsertKeepsDevice(PerformAll(old(core.Now()), actions[..i], answers).c, actions[i].profile);
        }
        var next := Produces(core.device, actions[i], answers(i));
        produced := produced + if next.Some? then [next.value] else [];
      }
      assert actions[..|actions|] == actions;
    }

    static lemma InsertKeepsDevice(c: Conn, p: Policy.Profile)
      ensures InsertProfile(c, p).device == c.device
    {
    }

    // What was stopped stays stopped.
    static lemma {:induction false} FailureSticks(c: Conn, actions: seq<Action>, answers: Answers, n: nat)
      requires n <= |actions| && !PerformAll(c, actions[..n], answers).ok
      ensures PerformAll(c, actions, answers) == PerformAll(c, actions[..n], answers)
    {
      if n == |actions| {
        assert actions[..n] == actions;
      } else {
        var m := |actions| - 1;
        assert actions[..m][..n] == actions[..n];
        FailureSticks(c, actions[..m], answers, n);
      }
    }

    // The queue of inputs, run down to empty or to an action that fails.
    method Feed(input: Input, drawn: nat -> Drawn, answers: nat -> Answers) returns (turns: nat, aborted: bool)
      requires core.env.Valid()
      modifies core
      ensures (if aborted then Aborted(turns, core.Now()) else Settled(turns, core.Now()))
           == Settle(core.env, drawn, answers, old(core.Now()), [input], 0)
      ensures 1 <= turns <= 2
    {
      hide Connection.Poll, PerformAll, Settle;
      SettlesInTwoTurns(core.env, drawn, answers, core.Now(), input);
      ghost var outcome := Settle(core.env, drawn, answers, core.Now(), [input], 0);
      var queue := [input];
      for turn := 0 to MAX_TURNS
        invariant outcome == Settle(core.env, drawn, answers, core.Now(), queue, turn)
      {
        SettleUnfolds(core.env, drawn, answers, core.Now(), queue, turn);
        if queue == [] { return turn, false; }
        var out := core.Poll(queue[0], drawn(turn));
        var produced, ok := Perform(out, answers(turn));
        if !ok {
          var _ := core.Poll(Commanded(Disconnecting), drawn(turn));
          return turn + 1, true;
        }
        queue := queue[1..] + produced;
      }
      SettleUnfolds(core.env, drawn, answers, core.Now(), queue, MAX_TURNS);
      assert false;
    }

    static lemma SettleUnfolds(env: Surroundings, drawn: nat -> Drawn, answers: nat -> Answers, c: Conn, queue: seq<Input>, turn: nat)
      requires env.Valid() && turn <= MAX_TURNS
      ensures Settle(env, drawn, answers, c, queue, turn) ==
                if turn == MAX_TURNS then Tripped
                else if queue == [] then Settled(turn, c)
                else
                  var t := Connection.Poll(env, drawn(turn), c, queue[0]);
                  var p := PerformAll(t.c, t.out, answers(turn));
                  if !p.ok then Aborted(turn + 1, Connection.Poll(env, drawn(turn), p.c, Commanded(Disconnecting)).c)
                  else Settle(env, drawn, answers, p.c, queue[1..] + p.produced, turn + 1)
    {
      hide Connection.Poll, PerformAll;
    }
  }
}
