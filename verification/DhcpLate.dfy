// The DHCP client on the timer wheel when wake-ups may come late: what can
// then go wrong, and exactly when (crates/cawd/src/reactor.rs:348-363).

module DhcpLate {
  import opened Bytes
  import opened DhcpWire
  import opened DhcpClient
  import opened TimerWheel
  import opened DhcpTimed
  import T = TimerWheel

  // ---- runs in which a wake-up comes whenever it does ---------------------------------

  predicate StepAt(s: Station, r: DhcpTimed.Run, i: nat)
    requires i < |r.events| && |r.worlds| == |r.events| + 1
  {
    r.worlds[i + 1] == Step(s, r.worlds[i], r.events[i])
  }

  ghost predicate AnyRun(s: Station, now: nat, r: DhcpTimed.Run) {
    && |r.worlds| == |r.events| + 1 && r.worlds[0] == Initial(now)
    && forall i :: 0 <= i < |r.events| ==> StepAt(s, r, i)
  }

  lemma PunctualIsAny(s: Station, now: nat, r: DhcpTimed.Run)
    requires PunctualRun(s, now, r)
    ensures AnyRun(s, now, r)
  {
    hide Step, Punctual;
    forall i | 0 <= i < |r.events| ensures StepAt(s, r, i) { assert PunctualStep(s, r, i); }
  }

  // ---- what is kept however late -------------------------------------------------------

  predicate InOrder(w: World) {
    Distinct(w.wheel) && (w.dhcp.Some? ==> LeaseFitsPhase(w.dhcp.value))
  }

  lemma {:induction false} ArmAllIsDistinct(wheel: seq<Entry<Timer>>, actions: seq<Action>, now: nat)
    requires Distinct(wheel)
    ensures Distinct(ArmAll(wheel, actions, now))
  {
    hide Arm;
    if actions != [] {
      var before, last := actions[..|actions| - 1], actions[|actions| - 1];
      ArmAllIsDistinct(wheel, before, now);
      if last.SetTimer? {
        ArmChangesOne(ArmAll(wheel, before, now), last.timer, now + last.secs * SECOND, last.timer);
      }
    }
  }

  lemma DriveKeepsOrder(lossy: Lossy, w: World, input: Input)
    requires w.dhcp.Some? && InOrder(w)
    ensures InOrder(Drive(lossy, w, input))
  {
    hide Poll, ArmAll, Grants, Asks, LeaseFitsPhase, Distinct;
    PollKeepsLease(lossy, w.dhcp.value, input);
    ArmAllIsDistinct(w.wheel, Poll(lossy, w.dhcp.value, input).actions, w.now);
  }

  lemma {:induction false} BatchKeepsOrder(lossy: Lossy, w: World, keys: seq<Timer>)
    requires InOrder(w)
    ensures InOrder(Deliver(lossy, w, keys))
    decreases |keys|
  {
    hide Drive, InOrder;
    if keys != [] {
      if w.dhcp.Some? {
        DriveKeepsOrder(lossy, w, Timeout(keys[0]));
        BatchKeepsOrder(lossy, Drive(lossy, w, Timeout(keys[0])), keys[1..]);
      } else {
        BatchKeepsOrder(lossy, w, keys[1..]);
      }
    }
  }

  lemma StepKeepsOrder(s: Station, w: World, e: Event)
    requires InOrder(w)
    ensures InOrder(Step(s, w, e))
  {
    hide Drive, Deliver, LeaseFitsPhase, T.Expired, Keep;
    match e {
      case StartDhcp(xid) =>
        FreshFits(s.mac, s.hostname, xid);
        DriveKeepsOrder(s.lossy, w.(dhcp := Some(Fresh(s.mac, s.hostname, xid)), wheel := []), Start(xid));
      case Receive(bytes) => if w.dhcp.Some? { DriveKeepsOrder(s.lossy, w, Datagram(bytes)); }
      case Wake =>
        KeepIsDistinct(w.wheel, (e: Entry<Timer>) => e.at > w.now);
        BatchKeepsOrder(s.lossy, w.(wheel := Remaining(w.wheel, w.now)), T.Expired(w.wheel, w.now));
      case _ =>
    }
  }

  lemma {:induction false} RunKeepsOrder(s: Station, now: nat, r: DhcpTimed.Run, k: nat)
    requires AnyRun(s, now, r) && k < |r.worlds|
    ensures InOrder(r.worlds[k])
  {
    hide Step, InOrder;
    if k == 0 {
      assert InOrder(Initial(now)) by { StartsInOrder(now); }
    } else {
      RunKeepsOrder(s, now, r, k - 1);
      assert StepAt(s, r, k - 1);
      StepKeepsOrder(s, r.worlds[k - 1], r.events[k - 1]);
    }
  }

  lemma StartsInOrder(now: nat)
    ensures InOrder(Initial(now))
  {
  }

  // ---- how often one batch renews ---------------------------------------------------------

  predicate NoRepeats(keys: seq<Timer>) {
    forall i, j :: 0 <= i < j < |keys| ==> keys[i] != keys[j]
  }

  lemma {:induction false} InsertedOnce<K>(e: Entry<K>, sorted: seq<Entry<K>>)
    requires Distinct(sorted) && forall i :: 0 <= i < |sorted| ==> sorted[i].key != e.key
    ensures Distinct(Insert(e, sorted))
  {
    if sorted != [] && e.at > sorted[0].at {
      InsertedOnce(e, sorted[1..]);
      InsertElements(e, sorted[1..]);
    }
  }

  lemma {:induction false} SortedIsDistinct<K>(es: seq<Entry<K>>)
    requires Distinct(es)
    ensures Distinct(Sorted(es))
  {
    hide Insert;
    if es != [] {
      SortedIsDistinct(es[1..]);
      SortedIsAPermutation(es[1..]);
      forall i | 0 <= i < |Sorted(es[1..])| ensures Sorted(es[1..])[i].key != es[0].key {
        assert Sorted(es[1..])[i] in multiset(es[1..]);
      }
      InsertedOnce(es[0], Sorted(es[1..]));
    }
  }

  lemma BatchHasNoRepeats(wheel: seq<Entry<Timer>>, now: nat)
    requires Distinct(wheel)
    ensures NoRepeats(T.Expired(wheel, now))
  {
    hide Keep, Sorted;
    KeepIsDistinct(wheel, (e: Entry<Timer>) => e.at <= now);
    SortedIsDistinct(Due(wheel, now));
  }

  // The REQUESTs to the granting server that delivering `keys` sends, all in
  // the one instant of the wake-up.
  function Renewals(lossy: Lossy, w: World, keys: seq<Timer>): nat
    decreases |keys|
  {
    if keys == [] || w.dhcp.None? then 0
    else
      (if Asks(Poll(lossy, w.dhcp.value, Timeout(keys[0])).actions) then 1 else 0)
      + Renewals(lossy, Drive(lossy, w, Timeout(keys[0])), keys[1..])
  }

  // T1 first of all that is due, and a retransmission timer next.
  predicate RenewsThenResends(keys: seq<Timer>) {
    |keys| >= 2 && keys[0] == Renew && keys[1] == Retransmit
  }

  // What one timer makes of the phase, and whether it renews.
  function PhaseAfter(m: Client, key: Timer): Phase {
    match (m.phase, key)
    case (Bound, Renew) => Renewing
    case (Bound, Rebind) => Rebinding
    case (Renewing, Rebind) => Rebinding
    case (Bound, Expire) => Init
    case (Renewing, Expire) => Init
    case (Bound, Retransmit) => Bound
    case (Renewing, _) => Renewing
    case _ => Init
  }

  lemma OneOfBatch(lossy: Lossy, w: World, key: Timer)
    requires w.dhcp.Some? && InOrder(w)
    ensures var m, next := w.dhcp.value, Drive(lossy, w, Timeout(key));
            && next.dhcp.Some? && InOrder(next)
            && (Asks(Poll(lossy, m, Timeout(key)).actions) <==> (m.phase == Bound && key == Renew) || (m.phase == Renewing && key == Retransmit))
            && (if m.phase == Bound || m.phase == Renewing then next.dhcp.value.phase == PhaseAfter(m, key)
                else next.dhcp.value.phase != Bound && next.dhcp.value.phase != Renewing)
  {
    DriveKeepsOrder(lossy, w, Timeout(key));
    hide ArmAll, InOrder, Asks, Grants, EncodeMessage, Backoff, Orderly, DiscoverMessage, SelectingRequest, RenewingRequest;
    var m := w.dhcp.value;
    var o := OnTimeout(m, key);
    assert LeaseFitsPhase(m) by { FitsOfOrder(w); }
    var secs := ShapeOfTimeout(m, key);
    if o.actions == [] || Reports(o.actions) {
      PerformReport(w.wheel, o.actions, w.now);
    } else {
      PerformSend(w.wheel, o.actions, w.now, secs, o.actions[0].Unicast?);
    }
  }

  lemma FitsOfOrder(w: World)
    requires InOrder(w) && w.dhcp.Some?
    ensures LeaseFitsPhase(w.dhcp.value)
  {
  }

  lemma {:induction false} NoRenewals(lossy: Lossy, w: World, keys: seq<Timer>)
    requires InOrder(w) && (w.dhcp.Some? ==> w.dhcp.value.phase != Bound && w.dhcp.value.phase != Renewing)
    ensures Renewals(lossy, w, keys) == 0
    decreases |keys|
  {
    hide Drive, Poll, Asks, InOrder;
    if keys != [] && w.dhcp.Some? {
      OneOfBatch(lossy, w, keys[0]);
      NoRenewals(lossy, Drive(lossy, w, Timeout(keys[0])), keys[1..]);
    }
  }

  // Once renewing, a batch asks again only for the retransmission timer.
  lemma {:induction false} RenewingOnce(lossy: Lossy, w: World, keys: seq<Timer>)
    requires InOrder(w) && w.dhcp.Some? && w.dhcp.value.phase == Renewing && NoRepeats(keys)
    ensures Renewals(lossy, w, keys) <= if Retransmit in keys then 1 else 0
    ensures keys != [] && keys[0] == Retransmit ==> Renewals(lossy, w, keys) == 1
    ensures Renew !in keys && keys != [] && keys[0] != Retransmit ==> Renewals(lossy, w, keys) == 0
    decreases |keys|
  {
    hide Drive, Poll, Asks, InOrder;
    if keys != [] {
      OneOfBatch(lossy, w, keys[0]);
      var next := Drive(lossy, w, Timeout(keys[0]));
      if next.dhcp.value.phase == Renewing {
        RenewingOnce(lossy, next, keys[1..]);
      } else {
        NoRenewals(lossy, next, keys[1..]);
      }
    }
  }

  lemma {:induction false} BoundAtMostTwice(lossy: Lossy, w: World, keys: seq<Timer>)
    requires InOrder(w) && w.dhcp.Some? && w.dhcp.value.phase == Bound && NoRepeats(keys)
    ensures Renewals(lossy, w, keys) <= 2
    ensures Renewals(lossy, w, keys) == 2 <==> RenewsThenResends(keys)
    ensures Retransmit !in keys ==> Renewals(lossy, w, keys) <= 1
    decreases |keys|
  {
    hide Drive, Poll, Asks, InOrder;
    if keys != [] {
      OneOfBatch(lossy, w, keys[0]);
      var next := Drive(lossy, w, Timeout(keys[0]));
      if keys[0] == Renew {
        RenewingOnce(lossy, next, keys[1..]);
      } else if keys[0] == Retransmit {
        BoundAtMostTwice(lossy, next, keys[1..]);
      } else {
        NoRenewals(lossy, next, keys[1..]);
      }
    }
  }

  // However late: in every run, one wake-up renews at most twice, and twice in
  // its one instant exactly when a bound client's batch begins with T1 and,
  // right behind it, a retransmission timer left from before.
  lemma WakeAsksTwice(s: Station, now: nat, r: DhcpTimed.Run, k: nat)
    requires AnyRun(s, now, r) && k < |r.events| && r.events[k].Wake?
    ensures var w := r.worlds[k];
            var begun, keys := w.(wheel := Remaining(w.wheel, w.now)), T.Expired(w.wheel, w.now);
            && r.worlds[k + 1] == Deliver(s.lossy, begun, keys)
            && Renewals(s.lossy, begun, keys) <= 2
            && (Renewals(s.lossy, begun, keys) == 2 <==>
                  w.dhcp.Some? && w.dhcp.value.phase == Bound && RenewsThenResends(keys))
  {
    hide Deliver, T.Expired, Keep, Renewals, NoRepeats, RenewsThenResends, LeaseFitsPhase;
    RunKeepsOrder(s, now, r, k);
    assert StepAt(s, r, k);
    var w := r.worlds[k];
    var begun, keys := w.(wheel := Remaining(w.wheel, w.now)), T.Expired(w.wheel, w.now);
    KeepIsDistinct(w.wheel, (e: Entry<Timer>) => e.at > w.now);
    BatchHasNoRepeats(w.wheel, w.now);
    if w.dhcp.Some? && w.dhcp.value.phase == Bound {
      BoundAtMostTwice(s.lossy, begun, keys);
    } else if w.dhcp.Some? && w.dhcp.value.phase == Renewing {
      RenewingOnce(s.lossy, begun, keys);
    } else {
      NoRenewals(s.lossy, begun, keys);
    }
  }

  // A punctual one renews at most once.
  lemma PunctualWakeAsksOnce(s: Station, now: nat, r: DhcpTimed.Run, k: nat)
    requires PunctualRun(s, now, r) && k < |r.events| && r.events[k].Wake?
    ensures var w := r.worlds[k];
            Renewals(s.lossy, w.(wheel := Remaining(w.wheel, w.now)), T.Expired(w.wheel, w.now)) <= 1
  {
    hide PunctualStep, Renewals, T.Expired, Keep, LeaseFitsPhase, ExpiryArmed, RenewingPaced;
    PunctualIsAny(s, now, r);
    RunKeepsSound(s, now, r, k);
    WakeAsksTwice(s, now, r, k);
    BatchInOrder(r.worlds[k].wheel, r.worlds[k].now);
  }

  // ---- in deadlines ----------------------------------------------------------------------

  // What a late wake-up of a bound client finds due, T2 and the end of the
  // lease still being ahead.
  lemma LateBatch(wheel: seq<Entry<Timer>>, now: nat)
    requires Tidy(wheel) && Lookup(wheel, Renew).Some? && Lookup(wheel, Renew).value <= now
    requires forall i :: 0 <= i < |wheel| && wheel[i].key in {Rebind, Expire} ==> now < wheel[i].at
    ensures T.Expired(wheel, now) ==
              if Lookup(wheel, Retransmit).None? || Lookup(wheel, Retransmit).value > now then [Renew]
              else if Lookup(wheel, Renew).value < Lookup(wheel, Retransmit).value then [Renew, Retransmit]
              else [Retransmit, Renew]
  {
    hide Keep, Lookup, Position, Sorted, Keys, Due, Tidy;
    DistinctOfTidy(wheel);
    DueWhenLate(wheel, now);
    var due := Due(wheel, now);
    if |due| == 1 {
      SortedOne(due[0]);
    } else {
      SortedPair(due[0], due[1]);
      assert due == [due[0], due[1]];
    }
  }

  lemma DistinctOfTidy(wheel: seq<Entry<Timer>>)
    requires Tidy(wheel)
    ensures Distinct(wheel)
  {
  }

  lemma DueWhenLate(wheel: seq<Entry<Timer>>, now: nat)
    requires Tidy(wheel) && Lookup(wheel, Renew).Some? && Lookup(wheel, Renew).value <= now
    requires forall i :: 0 <= i < |wheel| && wheel[i].key in {Rebind, Expire} ==> now < wheel[i].at
    ensures var due, left := Due(wheel, now), Lookup(wheel, Retransmit);
            if left.None? || left.value > now then due == [Entry(Renew, Lookup(wheel, Renew).value)]
            else due == [Entry(Retransmit, left.value), Entry(Renew, Lookup(wheel, Renew).value)]
  {
    hide Keep, Lookup;
    var due := Due(wheel, now);
    var early := (e: Entry<Timer>) => e.at <= now;
    LookupOfKeep(wheel, early, Renew);
    LookupOfKeep(wheel, early, Retransmit);
    assert Keep(wheel, early) == due;
    var p, q := Position(due, Renew), Position(due, Retransmit);
    OnlyTwoDue(wheel, now, 0);
    if |due| > 1 { OnlyTwoDue(wheel, now, 1); }
    if |due| > 2 { OnlyTwoDue(wheel, now, 2); }
    if Lookup(due, Retransmit).Some? {
      PositionsOfKeep(wheel, early, Retransmit, Renew);
    }
  }

  lemma OnlyTwoDue(wheel: seq<Entry<Timer>>, now: nat, i: nat)
    requires Distinct(wheel) && i < |Due(wheel, now)|
    requires forall i :: 0 <= i < |wheel| && wheel[i].key in {Rebind, Expire} ==> now < wheel[i].at
    ensures i == Position(Due(wheel, now), Renew) || i == Position(Due(wheel, now), Retransmit)
  {
    hide Keep, Lookup, Position;
    var due := Due(wheel, now);
    KeepIsDistinct(wheel, (e: Entry<Timer>) => e.at <= now);
    assert due[i] in wheel && due[i].at <= now;
    var j :| 0 <= j < |wheel| && wheel[j] == due[i];
    assert wheel[j].key !in {Rebind, Expire};
    LookupAt(due, i);
    assert due[i].key == Renew || due[i].key == Retransmit;
  }

  lemma SortedOne(a: Entry<Timer>)
    ensures Sorted([a]) == [a] && Keys([a]) == [a.key]
  {
    assert [a][1..] == [];
  }

  lemma SortedPair(a: Entry<Timer>, b: Entry<Timer>)
    ensures Sorted([a, b]) == (if a.at <= b.at then [a, b] else [b, a])
    ensures Keys([a, b]) == [a.key, b.key] && Keys([b, a]) == [b.key, a.key]
  {
    assert [a, b][1..] == [b] && [b][1..] == [] && [b, a][1..] == [a];
    SortedOne(b);
    assert Insert(a, []) == [a];
  }

  // A retransmission timer left over from the exchange that won the lease is
  // stale while T1 is ahead. When the wake-up is so late that both are due and
  // T1 was due first, it is taken for a renewal's own: the REQUEST goes out
  // twice in one instant. It does in exactly that case.
  lemma LateWakeAsksTwice(s: Station, w: World)
    requires Tidy(w.wheel) && w.dhcp.Some? && w.asked == []
    requires w.dhcp.value.phase == Bound && LeaseFitsPhase(w.dhcp.value)
    requires Lookup(w.wheel, Renew).Some? && Lookup(w.wheel, Renew).value <= w.now
    requires forall i :: 0 <= i < |w.wheel| && w.wheel[i].key in {Rebind, Expire} ==> w.now < w.wheel[i].at
    ensures var left := Lookup(w.wheel, Retransmit);
            var asked := Step(s, w, Wake).asked;
            && (Spaced(asked) <==> !(left.Some? && Lookup(w.wheel, Renew).value < left.value <= w.now))
            && (!Spaced(asked) ==> asked == [w.now, w.now])
  {
    hide Drive, Deliver, Lookup, Position, LeaseFitsPhase, Tidy, T.Expired, Remaining;
    LateBatch(w.wheel, w.now);
    var begun, keys := w.(wheel := Remaining(w.wheel, w.now)), T.Expired(w.wheel, w.now);
    if keys == [Retransmit, Renew] {
      BoundIgnoresRetransmit(s.lossy, begun);
      DeliverTwo(s.lossy, begun, Retransmit, Renew);
      RenewAsks(s.lossy, Drive(s.lossy, begun, Timeout(Retransmit)));
    } else {
      RenewAsks(s.lossy, begun);
      if keys == [Renew] {
        DeliverOne(s.lossy, begun, Renew);
      } else {
        DeliverTwo(s.lossy, begun, Renew, Retransmit);
        RenewingAsksAgain(s.lossy, Drive(s.lossy, begun, Timeout(Renew)));
        var twice := [w.now] + [w.now];
        assert twice == [w.now, w.now] && twice[1] == twice[0];
      }
    }
  }

  lemma DeliverOne(lossy: Lossy, w: World, key: Timer)
    requires w.dhcp.Some?
    ensures Deliver(lossy, w, [key]) == Drive(lossy, w, Timeout(key))
  {
    hide Drive;
    assert [key][1..] == [];
  }

  lemma DeliverTwo(lossy: Lossy, w: World, first: Timer, second: Timer)
    requires w.dhcp.Some?
    ensures var next := Drive(lossy, w, Timeout(first));
            next.dhcp.Some? && Deliver(lossy, w, [first, second]) == Drive(lossy, next, Timeout(second))
  {
    hide Poll;
    assert [first, second][1..] == [second];
    DeliverOne(lossy, Drive(lossy, w, Timeout(first)), second);
  }

  lemma BoundIgnoresRetransmit(lossy: Lossy, w: World)
    requires w.dhcp.Some? && w.dhcp.value.phase == Bound
    ensures var r := Drive(lossy, w, Timeout(Retransmit)); r.dhcp == w.dhcp && r.asked == [] && r.now == w.now
  {
  }

  lemma RenewAsks(lossy: Lossy, w: World)
    requires w.dhcp.Some? && w.dhcp.value.phase == Bound && LeaseFitsPhase(w.dhcp.value)
    ensures var r := Drive(lossy, w, Timeout(Renew));
            && r.asked == [w.now] && r.now == w.now
            && r.dhcp.Some? && r.dhcp.value.phase == Renewing && LeaseFitsPhase(r.dhcp.value)
  {
    hide OnTimeout, ArmAll, Grants, Asks, LeaseFitsPhase;
    var m := w.dhcp.value;
    var secs := ShapeOfTimeout(m, Renew);
    PollKeepsLease(lossy, m, Timeout(Renew));
    BoundRenews(m);
    assert Poll(lossy, m, Timeout(Renew)) == OnTimeout(m, Renew);
    PerformSend(w.wheel, OnTimeout(m, Renew).actions, w.now, secs, true);
  }

  lemma BoundRenews(m: Client)
    requires m.phase == Bound && LeaseFitsPhase(m)
    ensures OnTimeout(m, Renew).next.phase == Renewing
  {
  }

  lemma RenewingAsksAgain(lossy: Lossy, w: World)
    requires w.dhcp.Some? && w.dhcp.value.phase == Renewing && LeaseFitsPhase(w.dhcp.value)
    ensures Drive(lossy, w, Timeout(Retransmit)).asked == w.asked + [w.now]
  {
    hide ArmAll, Grants, Asks, EncodeMessage, RenewingRequest;
    var m := w.dhcp.value;
    var secs := ShapeOfTimeout(m, Retransmit);
    PerformSend(w.wheel, OnTimeout(m, Retransmit).actions, w.now, secs, true);
  }

  // Any bound client of a punctual run can come to that: it takes a clock that
  // moves past T1 and a left-over deadline behind it before the wake-up.
  lemma LateAfterPunctual(s: Station, now: nat, r: DhcpTimed.Run, to: nat)
    requires PunctualRun(s, now, r)
    requires var w := r.worlds[|r.events|];
             && w.dhcp.Some? && w.dhcp.value.phase == Bound
             && Lookup(w.wheel, Renew).Some? && Lookup(w.wheel, Renew).value <= to
             && forall i :: 0 <= i < |w.wheel| && w.wheel[i].key in {Rebind, Expire} ==> to < w.wheel[i].at
    ensures var w := r.worlds[|r.events|];
            var left, asked := Lookup(w.wheel, Retransmit), Step(s, Step(s, w, Pass(to)), Wake).asked;
            && (Spaced(asked) <==> !(left.Some? && Lookup(w.wheel, Renew).value < left.value <= to))
            && (!Spaced(asked) ==> asked == [to, to])
  {
    hide Punctual, Lookup, Position, LeaseFitsPhase, Tidy, Deliver, NonePassed, Drive;
    RunKeepsSound(s, now, r, |r.events|);
    LateWakeAsksTwice(s, r.worlds[|r.events|].(now := to));
  }

  // ---- one such run ---------------------------------------------------------------------------

  const SERVER: Ip := [10, 0, 0, 1]
  const GIVEN: Ip := [10, 0, 0, 2]

  // An offer, and an acknowledgement of a lease of eight seconds.
  function ReplyTo(mac: Mac, options: seq<DhcpOption>): Message {
    Message(BOOTREPLY, HTYPE_ETHERNET, 6, 0, 1, 0, 0,
            UNSPECIFIED, GIVEN, UNSPECIFIED, UNSPECIFIED, mac + Zeros(10), [], [], options)
  }

  function OfferTo(mac: Mac): Message {
    ReplyTo(mac, [MessageKind(Offer), ServerId(SERVER)])
  }

  function AckTo(mac: Mac): Message {
    ReplyTo(mac, [MessageKind(Ack), ServerId(SERVER), SubnetMask(UNSPECIFIED), LeaseTime(8)])
  }

  const GRANTED: Lease := Lease(GIVEN, 0, None, [], SERVER, 8, 4, 7)

  lemma {:induction false} ZeroBits(width: nat)
    ensures var bits := BitsOf(0, width); |bits| == width && forall i :: 0 <= i < width ==> !bits[i]
  {
    if width > 0 { ZeroBits(width - 1); }
  }

  lemma {:induction false} NoOnes(bits: seq<bool>)
    requires forall i :: 0 <= i < |bits| ==> !bits[i]
    ensures CountOnes(bits) == 0 && LeadingOnes(bits) == 0
  {
    if bits != [] { NoOnes(bits[1..]); }
  }

  lemma ZeroPrefix()
    ensures PrefixLength(UNSPECIFIED) == Some(0)
  {
    hide BitsOf, CountOnes, LeadingOnes;
    var width: nat := 32;
    ZeroBits(width);
    NoOnes(BitsOf(0, width));
    assert BE32(UNSPECIFIED) == 0;
  }

  lemma OneMore(first: DhcpOption, rest: seq<DhcpOption>, code: byte)
    ensures Get([first] + rest, code) == if CodeOf(first) == code then Some(first) else Get(rest, code)
    ensures KindOf([first] + rest) == if first.MessageKind? then Some(first.kind) else KindOf(rest)
    ensures ServerOf([first] + rest) == if first.ServerId? then Some(first.server) else ServerOf(rest)
  {
    hide CodeOf;
    assert ([first] + rest)[1..] == rest;
  }

  lemma AckOption(kind: DhcpOption, server: DhcpOption, mask: DhcpOption, time: DhcpOption, code: byte)
    requires kind.MessageKind? && server.ServerId? && mask.SubnetMask? && time.LeaseTime?
    ensures var options := [kind, server, mask, time];
            && KindOf(options) == Some(kind.kind) && ServerOf(options) == Some(server.server)
            && Get(options, code) ==
                 if code == OPT_MESSAGE_TYPE then Some(kind) else if code == OPT_SERVER_ID then Some(server)
                 else if code == OPT_SUBNET_MASK then Some(mask) else if code == OPT_LEASE_TIME then Some(time) else None
  {
    hide Get, KindOf, ServerOf;
    assert [kind, server, mask, time] == [kind] + ([server] + ([mask] + ([time] + [])));
    OneMore(kind, [server] + ([mask] + ([time] + [])), code);
    OneMore(server, [mask] + ([time] + []), code);
    OneMore(mask, [time] + [], code);
    OneMore(time, [], code);
    NoOption(code);
  }

  lemma NoOption(code: byte)
    ensures Get([], code) == None
  {
  }

  lemma AckRead(mac: Mac)
    ensures KindOf(AckTo(mac).options) == Some(Ack) && LeaseOfAck(AckTo(mac)) == Ok(GRANTED)
  {
    hide Get, KindOf, ServerOf, PrefixLength, CodeOf;
    var k, v, m, t := MessageKind(Ack), ServerId(SERVER), SubnetMask(UNSPECIFIED), LeaseTime(8);
    AckOption(k, v, m, t, OPT_SUBNET_MASK);
    AckOption(k, v, m, t, OPT_LEASE_TIME);
    AckOption(k, v, m, t, OPT_ROUTER);
    AckOption(k, v, m, t, OPT_DNS);
    AckOption(k, v, m, t, OPT_T1);
    AckOption(k, v, m, t, OPT_T2);
    ZeroPrefix();
  }

  lemma OfferRead(mac: Mac)
    ensures KindOf(OfferTo(mac).options) == Some(Offer) && ServerOf(OfferTo(mac).options) == Some(SERVER)
  {
    hide KindOf, ServerOf;
    assert [MessageKind(Offer), ServerId(SERVER)] == [MessageKind(Offer)] + ([ServerId(SERVER)] + []);
    OneMore(MessageKind(Offer), [ServerId(SERVER)] + [], 0);
    OneMore(ServerId(SERVER), [], 0);
  }

  function SameText(): Lossy {
    b => b
  }

  lemma RepliesAreWellFormed(mac: Mac)
    ensures WellFormed(SameText(), OfferTo(mac)) && WellFormed(SameText(), AckTo(mac))
  {
  }

  // A client in the exchange those replies are for.
  predicate Expects(m: Client, mac: Mac, phase: Phase) {
    m.mac == mac && m.xid == 1 && m.phase == phase && m.tries == 0 && LeaseFitsPhase(m)
  }

  lemma OfferHeard(m: Client, mac: Mac)
    requires Expects(m, mac, Selecting)
    ensures OnDatagram(SameText(), m, EncodeMessage(OfferTo(mac))) == OnOffer(m, OfferTo(mac))
  {
    assert Addressed(m, OfferTo(mac)) by { assert (mac + Zeros(10))[..6] == mac; }
    hide DecodeMessage, EncodeMessage, OnOffer, KindOf, WellFormed, Addressed;
    RepliesAreWellFormed(mac);
    OfferRead(mac);
    MessageRoundTrip(SameText(), OfferTo(mac));
  }

  lemma AckHeard(m: Client, mac: Mac)
    requires Expects(m, mac, Requesting)
    ensures OnDatagram(SameText(), m, EncodeMessage(AckTo(mac))) == OnAck(m, AckTo(mac))
  {
    assert Addressed(m, AckTo(mac)) by { assert (mac + Zeros(10))[..6] == mac; }
    hide DecodeMessage, EncodeMessage, OnAck, KindOf, WellFormed, Addressed;
    RepliesAreWellFormed(mac);
    AckRead(mac);
    MessageRoundTrip(SameText(), AckTo(mac));
  }

  function Waiting5s(): seq<Entry<Timer>> {
    [Entry(Retransmit, 5 * SECOND)]
  }

  lemma FirstWaitIs5s()
    ensures Backoff(1, 0) == 5
  {
    assert Pow2(0) == 1;
  }

  lemma Started(s: Station)
    requires s == Station(SameText(), s.mac, None)
    ensures var w := Step(s, Initial(0), StartDhcp(1));
            w.now == 0 && w.dhcp.Some? && Expects(w.dhcp.value, s.mac, Selecting) && w.wheel == Waiting5s() && w.asked == []
  {
    FirstWaitIs5s();
    hide Arm, ArmAll, Asks, Grants, EncodeMessage, DiscoverMessage, Backoff;
    var o := OnStart(Fresh(s.mac, None, 1), 1);
    PerformSend([], o.actions, 0, 5, false);
    ArmsFirst(5 * SECOND);
  }

  lemma ArmsFirst(at: nat)
    ensures Arm([], Retransmit, at) == [Entry(Retransmit, at)]
    ensures Arm([Entry(Retransmit, at)], Retransmit, at) == [Entry(Retransmit, at)]
  {
    assert Position([Entry(Retransmit, at)], Retransmit) == 0;
  }

  lemma Offered(s: Station, w: World)
    requires s == Station(SameText(), s.mac, None)
    requires w.now == 0 && w.dhcp.Some? && Expects(w.dhcp.value, s.mac, Selecting) && w.wheel == Waiting5s()
    ensures var n := Step(s, w, Receive(EncodeMessage(OfferTo(s.mac))));
            n.now == 0 && n.dhcp.Some? && Expects(n.dhcp.value, s.mac, Requesting) && n.wheel == Waiting5s()
  {
    hide Arm, ArmAll, Asks, Grants, EncodeMessage, SelectingRequest, Backoff, OnDatagram, KindOf, ServerOf, ReplyTo, Deliver;
    FirstWaitIs5s();
    OfferHeard(w.dhcp.value, s.mac);
    OfferRead(s.mac);
    ArmsFirst(5 * SECOND);
    var o := OnOffer(w.dhcp.value, OfferTo(s.mac));
    PerformSend(w.wheel, o.actions, 0, 5, false);
  }

  function BoundWheel(): seq<Entry<Timer>> {
    [Entry(Retransmit, 5 * SECOND), Entry(Renew, 4 * SECOND), Entry(Rebind, 7 * SECOND), Entry(Expire, 8 * SECOND)]
  }

  lemma ArmsLease()
    ensures Arm(Arm(Arm(Waiting5s(), Renew, 4 * SECOND), Rebind, 7 * SECOND), Expire, 8 * SECOND) == BoundWheel()
  {
    hide Lookup, Position;
    var a := Arm(Waiting5s(), Renew, 4 * SECOND);
    var p := Position(Waiting5s(), Renew);
    assert a == [Entry(Retransmit, 5 * SECOND), Entry(Renew, 4 * SECOND)];
    var q := Position(a, Rebind);
    var b := Arm(a, Rebind, 7 * SECOND);
    assert b == a + [Entry(Rebind, 7 * SECOND)];
    var r := Position(b, Expire);
  }

  lemma Acknowledged(s: Station, w: World)
    requires s == Station(SameText(), s.mac, None)
    requires w.now == 0 && w.dhcp.Some? && Expects(w.dhcp.value, s.mac, Requesting) && w.wheel == Waiting5s()
    ensures var n := Step(s, w, Receive(EncodeMessage(AckTo(s.mac))));
            && n.now == 0 && n.dhcp.Some? && n.dhcp.value.phase == Bound && n.dhcp.value.lease == Some(GRANTED)
            && n.wheel == BoundWheel()
  {
    hide Arm, ArmAll, Asks, Grants, EncodeMessage, OnDatagram, OnAck, AckTo, Waiting5s, BoundWheel, Expects, GrantsLease, Deliver;
    AckHeard(w.dhcp.value, s.mac);
    Granted(w.dhcp.value, s.mac);
    ArmsLease();
    PerformGrant(w.wheel, OnAck(w.dhcp.value, AckTo(s.mac)).actions, 0, GRANTED);
  }

  lemma Granted(m: Client, mac: Mac)
    ensures var o := OnAck(m, AckTo(mac));
            o.next.phase == Bound && o.next.lease == Some(GRANTED) && GrantsLease(o.actions, GRANTED)
  {
    hide LeaseOfAck, AckTo;
    AckRead(mac);
  }

  lemma DeadlinesOfBound()
    ensures Lookup(BoundWheel(), Retransmit) == Some(5 * SECOND) && Lookup(BoundWheel(), Renew) == Some(4 * SECOND)
  {
    hide Lookup, Position;
    LookupAt(BoundWheel(), 0);
    LookupAt(BoundWheel(), 1);
  }

  // A lease of eight seconds, won at once, leaves its retransmission timer a
  // second behind T1; a wake-up two seconds late sends the renewal twice.
  lemma LateRenewalGoesOutTwice(mac: Mac) returns (s: Station, r: DhcpTimed.Run)
    ensures AnyRun(s, 0, r) && |r.events| == 5 && r.events[3] == Pass(6 * SECOND) && r.events[4] == Wake
    ensures PunctualRun(s, 0, DhcpTimed.Run(r.worlds[..4], r.events[..3]))
    ensures r.worlds[5].asked == [6 * SECOND, 6 * SECOND] && !Spaced(r.worlds[5].asked)
  {
    hide Step, EncodeMessage, Lookup, OfferTo, AckTo, Expects, LeaseFitsPhase;
    s := Station(SameText(), mac, None);
    var events := [StartDhcp(1), Receive(EncodeMessage(OfferTo(mac))), Receive(EncodeMessage(AckTo(mac))), Pass(6 * SECOND), Wake];
    var w0 := Initial(0);
    var w1 := Step(s, w0, events[0]);
    var w2 := Step(s, w1, events[1]);
    var w3 := Step(s, w2, events[2]);
    var w4 := Step(s, w3, events[3]);
    var w5 := Step(s, w4, events[4]);
    r := DhcpTimed.Run([w0, w1, w2, w3, w4, w5], events);
    Started(s);
    Offered(s, w1);
    Acknowledged(s, w2);
    DeadlinesOfBound();
    var before := DhcpTimed.Run(r.worlds[..4], r.events[..3]);
    forall i | 0 <= i < 3 ensures PunctualStep(s, before, i) {
      assert before.worlds[i] == r.worlds[i] && before.worlds[i + 1] == r.worlds[i + 1] && before.events[i] == r.events[i];
      assert i == 0 || i == 1 || i == 2;
    }
    forall i | 0 <= i < 5 ensures StepAt(s, r, i) {
      assert i == 0 || i == 1 || i == 2 || i == 3 || i == 4;
    }
    LateAfterPunctual(s, 0, before, 6 * SECOND);
  }
}
