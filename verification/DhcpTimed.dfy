// The DHCP client run against the timer wheel: the daemon's clock, one batch
// of due timers at a wake-up, and what is performed for each action
// (crates/cawd/src/engine.rs, timers.rs, reactor.rs).

module DhcpTimed {
  import opened Bytes
  import opened DhcpWire
  import opened DhcpClient
  import opened TimerWheel
  import T = TimerWheel

  // The clock counts nanoseconds.
  const SECOND: nat := 1_000_000_000

  datatype Station = Station(lossy: Lossy, mac: Mac, hostname: Option<seq<byte>>)

  // `granted` is when the lease in hand was acknowledged; `asked` is when each
  // REQUEST of the current stay in Renewing went out. Both are only recorded,
  // never read by a step.
  datatype World = World(now: nat, dhcp: Option<Client>, wheel: seq<Entry<Timer>>, granted: nat, asked: seq<nat>)

  datatype Event = StartDhcp(newXid: u32) | StopDhcp | Receive(payload: seq<byte>) | Pass(to: nat) | Wake

  function Initial(now: nat): World {
    World(now, None, [], 0, [])
  }

  function ArmAll(wheel: seq<Entry<Timer>>, actions: seq<Action>, now: nat): seq<Entry<Timer>> {
    if actions == [] then wheel
    else
      var before := ArmAll(wheel, actions[..|actions| - 1], now);
      var last := actions[|actions| - 1];
      if last.SetTimer? then Arm(before, last.timer, now + last.secs * SECOND) else before
  }

  predicate Grants(actions: seq<Action>) {
    exists i :: 0 <= i < |actions| && actions[i].Configured?
  }

  predicate Asks(actions: seq<Action>) {
    exists i :: 0 <= i < |actions| && actions[i].Unicast?
  }

  // Push one input through the client and perform what it asks.
  function Drive(lossy: Lossy, w: World, input: Input): World
    requires w.dhcp.Some?
  {
    var m := w.dhcp.value;
    var o := Poll(lossy, m, input);
    World(w.now, Some(o.next), ArmAll(w.wheel, o.actions, w.now),
          if Grants(o.actions) then w.now else w.granted,
          if o.next.phase != Renewing then []
          else (if m.phase == Renewing then w.asked else []) + if Asks(o.actions) then [w.now] else [])
  }

  function Deliver(lossy: Lossy, w: World, keys: seq<Timer>): World
    decreases |keys|
  {
    if keys == [] then w
    else Deliver(lossy, if w.dhcp.Some? then Drive(lossy, w, Timeout(keys[0])) else w, keys[1..])
  }

  // Starting or stopping disarms all four timers, the only ones this wheel has.
  function Step(s: Station, w: World, e: Event): World {
    match e
    case StartDhcp(xid) => Drive(s.lossy, w.(dhcp := Some(Fresh(s.mac, s.hostname, xid)), wheel := []), Start(xid))
    case StopDhcp => w.(dhcp := None, wheel := [], asked := [])
    case Receive(bytes) => if w.dhcp.Some? then Drive(s.lossy, w, Datagram(bytes)) else w
    case Pass(to) => w.(now := to)
    case Wake => Deliver(s.lossy, w.(wheel := Remaining(w.wheel, w.now)), T.Expired(w.wheel, w.now))
  }

  predicate NonePassed(wheel: seq<Entry<Timer>>, now: nat) {
    forall i :: 0 <= i < |wheel| ==> now <= wheel[i].at
  }

  // Time moves on only up to the next deadline: what is due is delivered
  // before the clock passes it.
  predicate Punctual(w: World, e: Event) {
    e.Pass? ==> w.now <= e.to && NonePassed(w.wheel, e.to)
  }

  // A recorded run: the world before and after each event.
  datatype Run = Run(worlds: seq<World>, events: seq<Event>)

  predicate PunctualStep(s: Station, r: Run, i: nat)
    requires i < |r.events| && |r.worlds| == |r.events| + 1
  {
    && Punctual(r.worlds[i], r.events[i])
    && r.worlds[i + 1] == Step(s, r.worlds[i], r.events[i])
  }

  // From a daemon that runs no client, with every wake-up on time.
  ghost predicate PunctualRun(s: Station, now: nat, r: Run) {
    && |r.worlds| == |r.events| + 1 && r.worlds[0] == Initial(now)
    && forall i :: 0 <= i < |r.events| ==> PunctualStep(s, r, i)
  }

  // ---- what every reachable world has ---------------------------------------------------

  // The retransmission timer stands before T1, and T1 is due no later than T2.
  predicate Tidy(wheel: seq<Entry<Timer>>) {
    && Distinct(wheel)
    && (Lookup(wheel, Retransmit).Some? && Lookup(wheel, Renew).Some? ==>
          Position(wheel, Retransmit) < Position(wheel, Renew))
    && (Lookup(wheel, Renew).Some? && Lookup(wheel, Rebind).Some? ==>
          Lookup(wheel, Renew).value <= Lookup(wheel, Rebind).value)
  }

  predicate Spaced(times: seq<nat>) {
    forall i :: 0 < i < |times| ==> times[i] >= times[i - 1] + 60 * SECOND
  }

  // `keys` is what a wake-up has taken off the wheel and not yet delivered.
  predicate Outstanding(keys: seq<Timer>) {
    && (forall i, j :: 0 <= i < j < |keys| ==> keys[i] != keys[j])
    && (forall i, j :: 0 <= i < j < |keys| && keys[i] == Renew ==> keys[j] != Retransmit)
  }

  predicate ExpiryArmed(w: World, keys: seq<Timer>)
    requires w.dhcp.Some?
  {
    var lease := w.dhcp.value.lease;
    lease.Some? ==>
      var end := w.granted + lease.value.leaseSecs * SECOND;
      Lookup(w.wheel, Expire) == Some(end) || (Expire in keys && w.now == end)
  }

  predicate RenewingPaced(w: World, keys: seq<Timer>)
    requires w.dhcp.Some?
  {
    if w.dhcp.value.phase != Renewing then w.asked == []
    else
      && w.asked != [] && Spaced(w.asked)
      && (Retransmit in keys ==> w.now >= w.asked[|w.asked| - 1] + 60 * SECOND)
      && (Lookup(w.wheel, Retransmit).Some? ==> Lookup(w.wheel, Retransmit).value >= w.asked[|w.asked| - 1] + 60 * SECOND)
  }

  predicate Sound(w: World, keys: seq<Timer>) {
    && Tidy(w.wheel) && NonePassed(w.wheel, w.now) && Outstanding(keys)
    && (Renew in keys || Rebind in keys ==> Lookup(w.wheel, Renew).None?)
    && (w.dhcp.None? ==> w.asked == [])
    && (w.dhcp.Some? ==>
          && LeaseFitsPhase(w.dhcp.value)
          && (w.dhcp.value.phase in {Selecting, Requesting, Renewing, Rebinding} ==> Lookup(w.wheel, Renew).None?)
          && ExpiryArmed(w, keys) && RenewingPaced(w, keys))
  }

  // ---- arming -------------------------------------------------------------------------

  lemma ArmKeepsNonePassed(wheel: seq<Entry<Timer>>, key: Timer, at: nat, now: nat)
    requires NonePassed(wheel, now) && now <= at
    ensures NonePassed(Arm(wheel, key, at), now)
  {
  }

  lemma ArmRetransmit(wheel: seq<Entry<Timer>>, at: nat)
    requires Tidy(wheel) && Lookup(wheel, Renew).None?
    ensures var r := Arm(wheel, Retransmit, at);
            && Tidy(r) && Lookup(r, Retransmit) == Some(at)
            && Lookup(r, Renew).None? && Lookup(r, Expire) == Lookup(wheel, Expire)
  {
    hide Arm, Lookup, Position;
    ArmChangesOne(wheel, Retransmit, at, Renew);
    ArmChangesOne(wheel, Retransmit, at, Expire);
  }

  lemma ArmLease(wheel: seq<Entry<Timer>>, t1: nat, t2: nat, end: nat)
    requires Tidy(wheel) && t1 <= t2
    ensures var r := Arm(Arm(Arm(wheel, Renew, t1), Rebind, t2), Expire, end);
            && Tidy(r) && Lookup(r, Retransmit) == Lookup(wheel, Retransmit) && Lookup(r, Expire) == Some(end)
  {
    hide Arm, Lookup;
    var a := Arm(wheel, Renew, t1);
    var b := Arm(a, Rebind, t2);
    ArmChangesOne(wheel, Renew, t1, Retransmit);
    ArmChangesOne(a, Rebind, t2, Retransmit);
    ArmChangesOne(a, Rebind, t2, Renew);
    ArmChangesOne(b, Expire, end, Retransmit);
    ArmChangesOne(b, Expire, end, Renew);
    ArmChangesOne(b, Expire, end, Rebind);
  }

  // The three shapes of answer the client gives.
  predicate SendsAndWaits(actions: seq<Action>, secs: u32, unicast: bool) {
    && |actions| == 2 && actions[1] == SetTimer(Retransmit, secs)
    && (if unicast then actions[0].Unicast? else actions[0].Broadcast?)
  }

  predicate GrantsLease(actions: seq<Action>, l: Lease) {
    actions == [SetTimer(Renew, l.renewSecs), SetTimer(Rebind, l.rebindSecs), SetTimer(Expire, l.leaseSecs), Configured(l)]
  }

  predicate Reports(actions: seq<Action>) {
    |actions| == 1 && (actions[0].Deconfigure? || actions[0].Failed?)
  }

  lemma PerformSend(wheel: seq<Entry<Timer>>, actions: seq<Action>, now: nat, secs: u32, unicast: bool)
    requires SendsAndWaits(actions, secs, unicast)
    ensures ArmAll(wheel, actions, now) == Arm(wheel, Retransmit, now + secs * SECOND)
    ensures !Grants(actions) && (Asks(actions) <==> unicast)
  {
    hide Arm;
    assert actions[..1][..0] == [] && actions[..1][0] == actions[0];
    assert ArmAll(wheel, [], now) == wheel;
    assert ArmAll(wheel, actions[..1], now) == wheel;
  }

  lemma PerformGrant(wheel: seq<Entry<Timer>>, actions: seq<Action>, now: nat, l: Lease)
    requires GrantsLease(actions, l)
    ensures ArmAll(wheel, actions, now) ==
              Arm(Arm(Arm(wheel, Renew, now + l.renewSecs * SECOND), Rebind, now + l.rebindSecs * SECOND),
                  Expire, now + l.leaseSecs * SECOND)
    ensures Grants(actions) && !Asks(actions)
  {
    hide Arm;
    assert actions[3].Configured?;
    assert actions[..1][..0] == [] && actions[..2][..1] == actions[..1] && actions[..3][..2] == actions[..2];
    assert ArmAll(wheel, [], now) == wheel;
    assert ArmAll(wheel, actions[..1], now) == Arm(wheel, Renew, now + l.renewSecs * SECOND);
    assert ArmAll(wheel, actions[..2], now) == Arm(ArmAll(wheel, actions[..1], now), Rebind, now + l.rebindSecs * SECOND);
    assert ArmAll(wheel, actions[..3], now) == Arm(ArmAll(wheel, actions[..2], now), Expire, now + l.leaseSecs * SECOND);
  }

  lemma PerformReport(wheel: seq<Entry<Timer>>, actions: seq<Action>, now: nat)
    requires actions == [] || Reports(actions)
    ensures ArmAll(wheel, actions, now) == wheel && !Grants(actions) && !Asks(actions)
  {
    if actions != [] { assert actions[..0] == []; }
  }

  // ---- one input keeps it all -----------------------------------------------------------

  // Which shape each input can take, and what becomes of phase and lease.
  lemma ShapeOfTimeout(m: Client, timer: Timer) returns (secs: u32)
    requires LeaseFitsPhase(m)
    ensures var o := OnTimeout(m, timer);
            || (o.actions == [] && o.next == m && (timer == Expire ==> m.lease.None?))
            || (Reports(o.actions) && o.next.phase == Init && o.next.lease.None?)
            || (SendsAndWaits(o.actions, secs, false) && o.next.phase == m.phase && o.next.lease == m.lease
                && m.phase in {Selecting, Requesting, Rebinding} && timer == Retransmit)
            || (SendsAndWaits(o.actions, secs, true) && secs >= 60 && m.phase == Renewing && o.next.phase == Renewing
                && o.next.lease == m.lease && timer == Retransmit)
            || (SendsAndWaits(o.actions, secs, true) && secs >= 60 && m.phase == Bound && o.next.phase == Renewing
                && o.next.lease == m.lease && timer == Renew)
            || (SendsAndWaits(o.actions, secs, false) && m.phase in {Bound, Renewing} && o.next.phase == Rebinding
                && o.next.lease == m.lease && timer == Rebind)
  {
    hide EncodeMessage, DiscoverMessage, SelectingRequest, RenewingRequest, Orderly, Backoff;
    var o := OnTimeout(m, timer);
    secs := if |o.actions| == 2 && o.actions[1].SetTimer? then o.actions[1].secs else 0;
  }

  lemma ShapeOfDatagram(lossy: Lossy, m: Client, bytes: seq<byte>) returns (secs: u32)
    requires LeaseFitsPhase(m)
    ensures var o := OnDatagram(lossy, m, bytes);
            || (o.actions == [] && o.next == m)
            || (Reports(o.actions) && o.next.phase == Init && o.next.lease.None?)
            || (SendsAndWaits(o.actions, secs, false) && m.phase == Selecting && o.next.phase == Requesting && o.next.lease.None?)
            || (o.next.phase == Bound && o.next.lease.Some? && Orderly(o.next.lease.value)
                && GrantsLease(o.actions, o.next.lease.value))
  {
    hide DecodeMessage, EncodeMessage, KindOf, ServerOf, LeaseOfAck, SelectingRequest, Orderly, Backoff;
    var o := OnDatagram(lossy, m, bytes);
    secs := if |o.actions| == 2 && o.actions[1].SetTimer? then o.actions[1].secs else 0;
    var d := DecodeMessage(lossy, bytes);
    if d.Some? && LeaseOfAck(d.value).Ok? { TimersFitTheLease(d.value); }
  }

  // One timer of a batch, due now, is delivered.
  lemma TimeoutKeepsSound(lossy: Lossy, w: World, keys: seq<Timer>)
    requires w.dhcp.Some? && keys != [] && Sound(w, keys)
    ensures Sound(Drive(lossy, w, Timeout(keys[0])), keys[1..])
  {
    hide OnTimeout, ArmAll, Grants, Asks, Arm, Lookup, Position, LeaseFitsPhase, Tidy, NonePassed;
    var m, key := w.dhcp.value, keys[0];
    var o := OnTimeout(m, key);
    var secs := ShapeOfTimeout(m, key);
    PollKeepsLease(lossy, m, Timeout(key));
    assert Poll(lossy, m, Timeout(key)) == o;
    if o.actions == [] || Reports(o.actions) {
      PerformReport(w.wheel, o.actions, w.now);
    } else {
      PerformSend(w.wheel, o.actions, w.now, secs, o.actions[0].Unicast?);
      ArmRetransmit(w.wheel, w.now + secs * SECOND);
      ArmKeepsNonePassed(w.wheel, Retransmit, w.now + secs * SECOND, w.now);
    }
  }

  lemma DatagramKeepsSound(lossy: Lossy, w: World, bytes: seq<byte>)
    requires w.dhcp.Some? && Sound(w, [])
    ensures Sound(Drive(lossy, w, Datagram(bytes)), [])
  {
    hide OnDatagram, ArmAll, Grants, Asks, Arm, Lookup, Position, LeaseFitsPhase, Tidy, NonePassed;
    var m := w.dhcp.value;
    var o := OnDatagram(lossy, m, bytes);
    var secs := ShapeOfDatagram(lossy, m, bytes);
    PollKeepsLease(lossy, m, Datagram(bytes));
    assert Poll(lossy, m, Datagram(bytes)) == o;
    if o.actions == [] || Reports(o.actions) {
      PerformReport(w.wheel, o.actions, w.now);
    } else if o.next.phase == Requesting {
      PerformSend(w.wheel, o.actions, w.now, secs, false);
      ArmRetransmit(w.wheel, w.now + secs * SECOND);
      ArmKeepsNonePassed(w.wheel, Retransmit, w.now + secs * SECOND, w.now);
    } else {
      PerformGrant(w.wheel, o.actions, w.now, o.next.lease.value);
      GrantKeepsSound(w, Drive(lossy, w, Datagram(bytes)), o.actions, o.next.lease.value);
    }
  }

  // A lease taken at this instant, its three timers armed.
  lemma GrantKeepsSound(w: World, next: World, actions: seq<Action>, l: Lease)
    requires Sound(w, []) && GrantsLease(actions, l) && Orderly(l)
    requires next.dhcp.Some? && next.dhcp.value.phase == Bound && next.dhcp.value.lease == Some(l) && LeaseFitsPhase(next.dhcp.value)
    requires next.now == w.now && next.granted == w.now && next.asked == [] && next.wheel == ArmAll(w.wheel, actions, w.now)
    ensures Sound(next, [])
  {
    hide ArmAll, Arm, Lookup, Position, LeaseFitsPhase, Tidy, NonePassed, GrantsLease;
    var t1, t2, end := w.now + l.renewSecs * SECOND, w.now + l.rebindSecs * SECOND, w.now + l.leaseSecs * SECOND;
    PerformGrant(w.wheel, actions, w.now, l);
    ArmLease(w.wheel, t1, t2, end);
    ArmKeepsNonePassed(w.wheel, Renew, t1, w.now);
    ArmKeepsNonePassed(Arm(w.wheel, Renew, t1), Rebind, t2, w.now);
    ArmKeepsNonePassed(Arm(Arm(w.wheel, Renew, t1), Rebind, t2), Expire, end, w.now);
  }

  lemma NothingArmed(now: nat)
    ensures var none: seq<Entry<Timer>> := []; Tidy(none) && NonePassed(none, now) && Lookup(none, Renew).None?
  {
  }

  lemma StartIsSound(lossy: Lossy, w: World, xid: u32)
    requires w.dhcp.Some? && w.wheel == [] && LeaseFitsPhase(w.dhcp.value)
    ensures Sound(Drive(lossy, w, Start(xid)), [])
  {
    hide OnTimeout, ArmAll, Grants, Asks, LeaseFitsPhase, EncodeMessage, DiscoverMessage, Backoff, Arm, Lookup, Position, Tidy, NonePassed;
    var o := OnStart(w.dhcp.value, xid);
    var secs := o.actions[1].secs;
    PollKeepsLease(lossy, w.dhcp.value, Start(xid));
    PerformSend(w.wheel, o.actions, w.now, secs, false);
    NothingArmed(w.now);
    ArmRetransmit(w.wheel, w.now + secs * SECOND);
    ArmKeepsNonePassed(w.wheel, Retransmit, w.now + secs * SECOND, w.now);
    assert o.next.lease.None? && o.next.phase == Selecting;
  }

  lemma {:induction false} BatchKeepsSound(lossy: Lossy, w: World, keys: seq<Timer>)
    requires Sound(w, keys)
    ensures Sound(Deliver(lossy, w, keys), [])
    decreases |keys|
  {
    hide Drive, Tidy, NonePassed, LeaseFitsPhase, Lookup, Position;
    if keys != [] {
      if w.dhcp.Some? {
        TimeoutKeepsSound(lossy, w, keys);
        BatchKeepsSound(lossy, Drive(lossy, w, Timeout(keys[0])), keys[1..]);
      } else {
        assert Sound(w, keys[1..]);
        BatchKeepsSound(lossy, w, keys[1..]);
      }
    }
  }

  // What a wake-up takes off a wheel nothing on which is overdue.
  lemma BatchTaken(wheel: seq<Entry<Timer>>, now: nat, key: Timer)
    requires Distinct(wheel) && NonePassed(wheel, now)
    ensures T.Expired(wheel, now) == Keys(Due(wheel, now))
    ensures Lookup(Remaining(wheel, now), key) == if Lookup(wheel, key) == Some(now) then None else Lookup(wheel, key)
    ensures key in T.Expired(wheel, now) <==> Lookup(wheel, key) == Some(now)
  {
    hide Keep, Lookup;
    var due := Due(wheel, now);
    forall i | 0 <= i < |due| ensures due[i].at == now {
      assert due[i] in wheel && due[i].at <= now;
    }
    OneInstantIsSorted(due, now);
    LookupOfKeep(wheel, (e: Entry<Timer>) => e.at > now, key);
    LookupOfKeep(wheel, (e: Entry<Timer>) => e.at <= now, key);
    KeepIsDistinct(wheel, (e: Entry<Timer>) => e.at <= now);
    var p := Position(wheel, key);
    assert Lookup(wheel, key).Some? ==> now <= wheel[p].at;
    var q := Position(due, key);
    assert q < |due| ==> Keys(due)[q] == key;
    if key in Keys(due) {
      var i :| 0 <= i < |due| && due[i].key == key;
      LookupAt(due, i);
    }
  }

  lemma BatchInOrder(wheel: seq<Entry<Timer>>, now: nat)
    requires Tidy(wheel) && NonePassed(wheel, now)
    ensures Outstanding(T.Expired(wheel, now))
  {
    hide Keep, Lookup, Position;
    var due, keys := Due(wheel, now), T.Expired(wheel, now);
    BatchTaken(wheel, now, Renew);
    BatchTaken(wheel, now, Retransmit);
    KeepIsDistinct(wheel, (e: Entry<Timer>) => e.at <= now);
    forall i, j | 0 <= i < j < |keys| && keys[i] == Renew ensures keys[j] != Retransmit {
      if keys[j] == Retransmit {
        LookupAt(due, i);
        LookupAt(due, j);
        PositionsOfKeep(wheel, (e: Entry<Timer>) => e.at <= now, Retransmit, Renew);
        assert false;
      }
    }
  }

  lemma RemainingIsTidy(wheel: seq<Entry<Timer>>, now: nat)
    requires Tidy(wheel)
    ensures Tidy(Remaining(wheel, now)) && NonePassed(Remaining(wheel, now), now)
  {
    hide Keep, Lookup, Position;
    var later := (e: Entry<Timer>) => e.at > now;
    KeepIsDistinct(wheel, later);
    LookupOfKeep(wheel, later, Retransmit);
    LookupOfKeep(wheel, later, Renew);
    LookupOfKeep(wheel, later, Rebind);
    if Lookup(Remaining(wheel, now), Retransmit).Some? && Lookup(Remaining(wheel, now), Renew).Some? {
      PositionsOfKeep(wheel, later, Retransmit, Renew);
    }
  }

  lemma WakeBeginsSound(w: World)
    requires Sound(w, [])
    ensures Sound(w.(wheel := Remaining(w.wheel, w.now)), T.Expired(w.wheel, w.now))
  {
    hide LeaseFitsPhase, T.Expired, Remaining, NonePassed, Lookup, Position;
    BatchInOrder(w.wheel, w.now);
    RemainingIsTidy(w.wheel, w.now);
    BatchTaken(w.wheel, w.now, Retransmit);
    BatchTaken(w.wheel, w.now, Renew);
    BatchTaken(w.wheel, w.now, Rebind);
    BatchTaken(w.wheel, w.now, Expire);
    NotPassedYet(w.wheel, w.now, Renew);
  }

  lemma NotPassedYet(wheel: seq<Entry<Timer>>, now: nat, key: Timer)
    requires NonePassed(wheel, now)
    ensures Lookup(wheel, key).Some? ==> now <= Lookup(wheel, key).value
  {
    var p := Position(wheel, key);
  }

  lemma StepKeepsSound(s: Station, w: World, e: Event)
    requires Sound(w, []) && Punctual(w, e)
    ensures Sound(Step(s, w, e), [])
  {
    hide Drive, Deliver, LeaseFitsPhase, T.Expired, Remaining;
    match e {
      case StartDhcp(xid) =>
        FreshFits(s.mac, s.hostname, xid);
        StartIsSound(s.lossy, w.(dhcp := Some(Fresh(s.mac, s.hostname, xid)), wheel := []), xid);
      case Receive(bytes) => if w.dhcp.Some? { DatagramKeepsSound(s.lossy, w, bytes); }
      case Wake =>
        WakeBeginsSound(w);
        BatchKeepsSound(s.lossy, w.(wheel := Remaining(w.wheel, w.now)), T.Expired(w.wheel, w.now));
      case _ =>
    }
  }

  lemma {:induction false} RunKeepsSound(s: Station, now: nat, r: Run, k: nat)
    requires PunctualRun(s, now, r) && k < |r.worlds|
    ensures Sound(r.worlds[k], [])
  {
    hide Step, Sound, Punctual;
    if k == 0 {
      InitialIsSound(now);
    } else {
      RunKeepsSound(s, now, r, k - 1);
      assert PunctualStep(s, r, k - 1);
      StepKeepsSound(s, r.worlds[k - 1], r.events[k - 1]);
    }
  }

  lemma InitialIsSound(now: nat)
    ensures Sound(Initial(now), [])
  {
  }

  // In every punctual run, no lease is held past its end, and REQUESTs of one
  // stay in Renewing go out at least a minute apart.
  lemma LeasesEndInTime(s: Station, now: nat, r: Run, k: nat)
    requires PunctualRun(s, now, r) && k < |r.worlds|
    ensures var w := r.worlds[k];
            && (w.dhcp.Some? && w.dhcp.value.lease.Some? ==>
                  && w.now <= w.granted + w.dhcp.value.lease.value.leaseSecs * SECOND
                  && Orderly(w.dhcp.value.lease.value))
            && Spaced(w.asked)
            && (w.dhcp.Some? && w.dhcp.value.phase == Renewing ==> w.asked != [])
  {
    hide PunctualStep;
    RunKeepsSound(s, now, r, k);
    var w := r.worlds[k];
    if w.dhcp.Some? && w.dhcp.value.lease.Some? {
      var p := Position(w.wheel, Expire);
      assert w.now <= w.wheel[p].at;
    }
  }

  // ---- the wake-up at the end of a lease ------------------------------------------------

  // A batch never re-arms the expiry or grants anything.
  lemma {:induction false} BatchLeavesExpiry(lossy: Lossy, w: World, keys: seq<Timer>)
    requires Sound(w, keys)
    ensures var r := Deliver(lossy, w, keys);
            && Lookup(r.wheel, Expire) == Lookup(w.wheel, Expire) && r.granted == w.granted && r.now == w.now
            && (r.dhcp.Some? && r.dhcp.value.lease.Some? ==> w.dhcp.Some? && r.dhcp.value.lease == w.dhcp.value.lease)
    decreases |keys|
  {
    hide OnTimeout, ArmAll, Grants, Asks, Arm, Lookup, Position, LeaseFitsPhase, Tidy, NonePassed;
    if keys != [] {
      if w.dhcp.Some? {
        var m := w.dhcp.value;
        var o := OnTimeout(m, keys[0]);
        var secs := ShapeOfTimeout(m, keys[0]);
        assert Poll(lossy, m, Timeout(keys[0])) == o;
        if o.actions == [] || Reports(o.actions) {
          PerformReport(w.wheel, o.actions, w.now);
        } else {
          PerformSend(w.wheel, o.actions, w.now, secs, o.actions[0].Unicast?);
          ArmRetransmit(w.wheel, w.now + secs * SECOND);
        }
        TimeoutKeepsSound(lossy, w, keys);
        BatchLeavesExpiry(lossy, Drive(lossy, w, Timeout(keys[0])), keys[1..]);
      } else {
        BatchLeavesExpiry(lossy, w, keys[1..]);
      }
    }
  }

  // The wake-up at the very end of a lease takes it away.
  lemma WakeEndsTheLease(s: Station, now: nat, r: Run, k: nat)
    requires PunctualRun(s, now, r) && k < |r.events| && r.events[k].Wake?
    ensures var w := r.worlds[k + 1];
            w.dhcp.Some? && w.dhcp.value.lease.Some? ==>
              w.now < w.granted + w.dhcp.value.lease.value.leaseSecs * SECOND
  {
    hide T.Expired, Remaining, Tidy, LeaseFitsPhase, Position, Lookup, Deliver, NonePassed, Outstanding, RenewingPaced, Punctual;
    RunKeepsSound(s, now, r, k);
    assert PunctualStep(s, r, k);
    var w := r.worlds[k];
    var begun, keys := w.(wheel := Remaining(w.wheel, w.now)), T.Expired(w.wheel, w.now);
    WakeBeginsSound(w);
    BatchKeepsSound(s.lossy, begun, keys);
    BatchLeavesExpiry(s.lossy, begun, keys);
    RemainingIsLater(w.wheel, w.now);
  }

  lemma RemainingIsLater(wheel: seq<Entry<Timer>>, now: nat)
    ensures Lookup(Remaining(wheel, now), Expire).Some? ==> now < Lookup(Remaining(wheel, now), Expire).value
  {
    var p := Position(Remaining(wheel, now), Expire);
  }
}
