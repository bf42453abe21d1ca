// The DHCP client, as what one input does to it (crates/caw-dhcp/src/client.rs;
// RFC 2131 section 4.4).

module DhcpClient {
  import opened Bytes
  import opened DhcpWire

  const MIN_RENEW_INTERVAL: u32 := 60
  const MAX_TRIES: nat := 4
  const PARAM_REQUEST: seq<byte> := [OPT_SUBNET_MASK, OPT_ROUTER, OPT_DNS, OPT_LEASE_TIME, OPT_T1, OPT_T2]

  datatype DhcpError = Malformed | Incomplete(code: byte) | Refused

  // Durations count from the moment of the grant.
  datatype Lease = Lease(
    addr: Ip, prefixLen: nat, gateway: Option<Ip>, dns: seq<Ip>, server: Ip,
    leaseSecs: u32, renewSecs: u32, rebindSecs: u32)

  datatype Phase = Init | Selecting | Requesting | Bound | Renewing | Rebinding

  datatype Timer = Retransmit | Renew | Rebind | Expire

  datatype Reason = NakReceived | Expired

  datatype Input = Start(xid: u32) | Datagram(bytes: seq<byte>) | Timeout(timer: Timer)

  datatype Action =
    | Broadcast(data: seq<byte>)
    | Unicast(to: Ip, data: seq<byte>)
    | SetTimer(timer: Timer, secs: u32)
    | Configured(lease: Lease)
    | Deconfigure(reason: Reason)
    | Failed

  datatype Client = Client(
    mac: Mac, hostname: Option<seq<byte>>, xid: u32, phase: Phase,
    server: Option<Ip>, offered: Ip, lease: Option<Lease>,
    tries: nat, elapsed: u32, renewInterval: u32)

  function Fresh(mac: Mac, hostname: Option<seq<byte>>, xid: u32): Client {
    Client(mac, hostname, xid, Init, None, UNSPECIFIED, None, 0, 0, MIN_RENEW_INTERVAL)
  }

  // ---- reading a lease ----------------------------------------------------------

  function BitsOf(v: u32, width: nat): (bits: seq<bool>) {
    if width == 0 then [] else BitsOf(v / 2, width - 1) + [v % 2 == 1]
  }

  function LeadingOnes(bits: seq<bool>): nat {
    if bits == [] || !bits[0] then 0 else 1 + LeadingOnes(bits[1..])
  }

  function CountOnes(bits: seq<bool>): nat {
    if bits == [] then 0 else (if bits[0] then 1 else 0) + CountOnes(bits[1..])
  }

  // Defined for masks whose ones all lead.
  function PrefixLength(mask: Ip): Option<nat> {
    var bits := BitsOf(BE32(mask), 32);
    if CountOnes(bits) == LeadingOnes(bits) then Some(LeadingOnes(bits)) else None
  }

  function FirstRouter(list: seq<Ip>): Option<Ip> {
    if list == [] then None
    else if list[0] != UNSPECIFIED then Some(list[0])
    else FirstRouter(list[1..])
  }

  function Max(a: u32, b: u32): u32 {
    if a >= b then a else b
  }

  function LeaseOfAck(msg: Message): Result<Lease, DhcpError> {
    var kind := KindOf(msg.options);
    if kind == Some(Nak) then Err(Refused)
    else if kind != Some(Ack) || msg.yiaddr == UNSPECIFIED then Err(Malformed)
    else
      var mask := Get(msg.options, OPT_SUBNET_MASK);
      if mask.None? || !mask.value.SubnetMask? then Err(Incomplete(OPT_SUBNET_MASK))
      else
        var prefix := PrefixLength(mask.value.mask);
        var time := Get(msg.options, OPT_LEASE_TIME);
        var server := ServerOf(msg.options);
        if prefix.None? then Err(Malformed)
        else if time.None? || !time.value.LeaseTime? then Err(Incomplete(OPT_LEASE_TIME))
        else if server.None? then Err(Incomplete(OPT_SERVER_ID))
        else
          var routers, dns := Get(msg.options, OPT_ROUTER), Get(msg.options, OPT_DNS);
          var secs := time.value.secs;
          var t1 := RenewAfter(msg.options, secs);
          Ok(Lease(msg.yiaddr, prefix.value,
                   if routers.Some? && routers.value.Router? then FirstRouter(routers.value.routers) else None,
                   if dns.Some? && dns.value.Dns? then dns.value.servers else [],
                   server.value, secs, t1, RebindAfter(msg.options, secs, t1)))
  }

  // The server's T1 and T2 where they fall strictly inside the lease, and the
  // fractions of it otherwise.
  function RenewAfter(options: seq<DhcpOption>, secs: u32): u32 {
    var t := Get(options, OPT_T1);
    if t.Some? && t.value.T1? && 0 < t.value.renew < secs then t.value.renew else secs / 2
  }

  function RebindAfter(options: seq<DhcpOption>, secs: u32, t1: u32): u32 {
    var t := Get(options, OPT_T2);
    if t.Some? && t.value.T2? && t1 < t.value.rebind < secs then t.value.rebind else Max(secs * 7 / 8, t1)
  }

  // However a server sets its timers, renewal comes no later than rebinding,
  // and both before the lease is over.
  lemma TimersFitTheLease(msg: Message)
    requires LeaseOfAck(msg).Ok?
    ensures Orderly(LeaseOfAck(msg).value)
  {
    hide Get, PrefixLength, FirstRouter, KindOf, ServerOf;
  }

  predicate Orderly(l: Lease) {
    && l.renewSecs <= l.rebindSecs <= l.leaseSecs
    && (l.leaseSecs > 0 ==> l.rebindSecs < l.leaseSecs)
  }

  // ---- what it sends --------------------------------------------------------------

  function Request(xid: u32, mac: Mac): Message {
    Message(BOOTREQUEST, HTYPE_ETHERNET, 6, 0, xid, 0, 0,
            UNSPECIFIED, UNSPECIFIED, UNSPECIFIED, UNSPECIFIED, mac + Zeros(10), [], [], [])
  }

  function Base(m: Client, kind: MessageType): Message {
    Request(m.xid, m.mac).(
      secs := if m.elapsed < 0xffff then m.elapsed else 0xffff,
      options := [MessageKind(kind), ClientId([HTYPE_ETHERNET] + m.mac)]
                 + (if m.hostname.Some? then [HostName(m.hostname.value)] else [])
                 + [ParameterRequest(PARAM_REQUEST)])
  }

  function DiscoverMessage(m: Client): Message {
    Base(m, Discover).(flags := FLAG_BROADCAST)
  }

  // Answers an offer: the address and the server chosen travel as options.
  function SelectingRequest(m: Client): Message {
    var b := Base(m, MessageType.Request);
    b.(flags := FLAG_BROADCAST,
       options := b.options + [RequestedIp(m.offered)] + if m.server.Some? then [ServerId(m.server.value)] else [])
  }

  // Asks for the lease in hand: its address stands in `ciaddr`, and neither
  // option of a selecting request is there.
  function RenewingRequest(m: Client): Message {
    Base(m, MessageType.Request).(ciaddr := if m.lease.Some? then m.lease.value.addr else UNSPECIFIED)
  }

  // ---- one input --------------------------------------------------------------------

  datatype Outcome = Outcome(next: Client, actions: seq<Action>)

  // 4, 8, 16, 32 and then 64 seconds; the bit of `xid` at the try decides
  // between one more and one less.
  function Backoff(xid: u32, tries: nat): u32 {
    var base := 4 * match tries case 0 => 1 case 1 => 2 case 2 => 4 case 3 => 8 case _ => 16;
    if Bit(xid, Pow2(tries % 32)) then base + 1 else base - 1
  }

  function Send(m: Client, msg: Message): Outcome {
    Outcome(m, [Broadcast(EncodeMessage(msg)), SetTimer(Retransmit, Backoff(m.xid, m.tries))])
  }

  function OnStart(m: Client, xid: u32): Outcome {
    var n := m.(xid := xid, phase := Selecting, server := None, offered := UNSPECIFIED, lease := None, tries := 0, elapsed := 0);
    Send(n, DiscoverMessage(n))
  }

  function OnOffer(m: Client, msg: Message): Outcome {
    var server := ServerOf(msg.options);
    if server.None? then Outcome(m, [])
    else
      var n := m.(server := server, offered := msg.yiaddr, phase := Requesting, tries := 0);
      Send(n, SelectingRequest(n))
  }

  function OnAck(m: Client, msg: Message): Outcome {
    var lease := LeaseOfAck(msg);
    if lease.Err? then Outcome(m, [])
    else
      var l := lease.value;
      Outcome(m.(phase := Bound, server := Some(l.server), tries := 0, lease := Some(l)),
              [SetTimer(Renew, l.renewSecs), SetTimer(Rebind, l.rebindSecs), SetTimer(Expire, l.leaseSecs), Configured(l)])
  }

  function Released(m: Client, why: Reason): Outcome {
    Outcome(m.(phase := Init, server := None, lease := None), [Deconfigure(why)])
  }

  // A reply to this client, in this exchange.
  predicate Addressed(m: Client, msg: Message) {
    msg.op == BOOTREPLY && msg.xid == m.xid && msg.chaddr[..6] == m.mac
  }

  function OnDatagram(lossy: Lossy, m: Client, bytes: seq<byte>): Outcome {
    var decoded := DecodeMessage(lossy, bytes);
    if decoded.None? || !Addressed(m, decoded.value) then Outcome(m, [])
    else
      var msg := decoded.value;
      var kind := KindOf(msg.options);
      if m.phase == Selecting && kind == Some(Offer) then OnOffer(m, msg)
      else if m.phase in {Requesting, Renewing, Rebinding} && kind == Some(Ack) then OnAck(m, msg)
      else if m.phase in {Requesting, Renewing, Rebinding} && kind == Some(Nak) then Released(m, NakReceived)
      else Outcome(m, [])
  }

  function Aged(m: Client): Client {
    var spent := m.elapsed + Backoff(m.xid, m.tries);
    m.(elapsed := if spent < 0x1_0000_0000 then spent else 0xffff_ffff, tries := m.tries + 1)
  }

  function HalfFloored(secs: u32): u32 {
    Max(secs / 2, MIN_RENEW_INTERVAL)
  }

  // Ask the granting server again, or anybody, and wait `secs`.
  function AskAgain(m: Client, secs: u32, send: Action): Outcome {
    Outcome(m.(renewInterval := secs), [send, SetTimer(Retransmit, secs)])
  }

  function Resend(m: Client): Outcome {
    match m.phase
    case Selecting =>
      if m.tries + 1 >= MAX_TRIES then GivenUp(m) else Send(Aged(m), DiscoverMessage(Aged(m)))
    case Requesting =>
      if m.tries + 1 >= MAX_TRIES then GivenUp(m) else Send(Aged(m), SelectingRequest(Aged(m)))
    case Renewing =>
      AskAgain(m, HalfFloored(m.renewInterval), Unicast(m.server.GetOr(LIMITED_BROADCAST), EncodeMessage(RenewingRequest(m))))
    case Rebinding =>
      AskAgain(m, HalfFloored(m.renewInterval), Broadcast(EncodeMessage(RenewingRequest(m))))
    case _ => Outcome(m, [])
  }

  function GivenUp(m: Client): Outcome {
    Outcome(m.(phase := Init, server := None, offered := UNSPECIFIED), [Failed])
  }

  function Minus(a: u32, b: u32): u32 {
    if a >= b then a - b else 0
  }

  function EnterRenewing(m: Client): Outcome {
    if m.lease.None? then Outcome(m, [])
    else
      var l := m.lease.value;
      AskAgain(m.(phase := Renewing), HalfFloored(Minus(l.rebindSecs, l.renewSecs)),
               Unicast(l.server, EncodeMessage(RenewingRequest(m))))
  }

  function EnterRebinding(m: Client): Outcome {
    if m.lease.None? then Outcome(m, [])
    else
      var l := m.lease.value;
      AskAgain(m.(phase := Rebinding), HalfFloored(Minus(l.leaseSecs, l.rebindSecs)),
               Broadcast(EncodeMessage(RenewingRequest(m))))
  }

  // Where the phase has no use for the timer, nothing changes.
  function OnTimeout(m: Client, timer: Timer): Outcome {
    match timer
    case Retransmit => Resend(m)
    case Renew => if m.phase == Bound then EnterRenewing(m) else Outcome(m, [])
    case Rebind => if m.phase == Bound || m.phase == Renewing then EnterRebinding(m) else Outcome(m, [])
    case Expire => if m.lease.Some? then Released(m, Expired) else Outcome(m, [])
  }

  function Poll(lossy: Lossy, m: Client, input: Input): Outcome {
    match input
    case Start(xid) => OnStart(m, xid)
    case Datagram(bytes) => OnDatagram(lossy, m, bytes)
    case Timeout(timer) => OnTimeout(m, timer)
  }

  // ---- whole runs -----------------------------------------------------------------

  // A recorded run: the client before and after each input, and what it asked for.
  datatype Run = Run(states: seq<Client>, inputs: seq<Input>, outputs: seq<seq<Action>>)

  predicate StepOf(lossy: Lossy, r: Run, i: nat)
    requires i < |r.inputs| && |r.states| == |r.inputs| + 1 && |r.outputs| == |r.inputs|
  {
    Outcome(r.states[i + 1], r.outputs[i]) == Poll(lossy, r.states[i], r.inputs[i])
  }

  ghost predicate IsRun(lossy: Lossy, r: Run) {
    && |r.states| == |r.inputs| + 1 && |r.outputs| == |r.inputs|
    && forall i :: 0 <= i < |r.inputs| ==> StepOf(lossy, r, i)
  }

  // Whatever is put in, there is a run of it.
  lemma {:induction false} EveryInputHasARun(lossy: Lossy, m: Client, ins: seq<Input>) returns (r: Run)
    ensures IsRun(lossy, r) && r.states[0] == m && r.inputs == ins
  {
    hide Poll;
    if ins == [] {
      r := Run([m], [], []);
    } else {
      var n := |ins| - 1;
      var before := EveryInputHasARun(lossy, m, ins[..n]);
      var o := Poll(lossy, before.states[n], ins[n]);
      r := Run(before.states + [o.next], before.inputs + [ins[n]], before.outputs + [o.actions]);
      assert ins[..n] + [ins[n]] == ins;
      forall i | 0 <= i < |r.inputs| ensures StepOf(lossy, r, i) {
        if i < n { assert StepOf(lossy, before, i); }
      }
    }
  }

  // Everything asked for in the first `n` steps.
  function LogAt(r: Run, n: nat): seq<Action>
    requires n <= |r.outputs|
  {
    if n == 0 then [] else LogAt(r, n - 1) + r.outputs[n - 1]
  }

  // A lease is held exactly in the three phases that have one, and it names
  // the server being talked to.
  predicate LeaseFitsPhase(m: Client) {
    && (m.lease.Some? <==> m.phase in {Bound, Renewing, Rebinding})
    && (m.lease.Some? ==> m.server == Some(m.lease.value.server) && Orderly(m.lease.value))
    && (m.phase in {Selecting, Requesting} ==> m.tries < MAX_TRIES)
    && (m.phase == Requesting ==> m.server.Some?)
  }

  lemma PollKeepsLease(lossy: Lossy, m: Client, input: Input)
    requires LeaseFitsPhase(m)
    ensures LeaseFitsPhase(Poll(lossy, m, input).next)
  {
    hide DecodeMessage, EncodeMessage, Backoff, KindOf, ServerOf, LeaseOfAck, DiscoverMessage, SelectingRequest, RenewingRequest, Orderly;
    if input.Datagram? {
      var d := DecodeMessage(lossy, input.bytes);
      if d.Some? && LeaseOfAck(d.value).Ok? { TimersFitTheLease(d.value); }
    }
  }

  // In every run a lease is held exactly when bound, renewing or rebinding.
  lemma {:induction false} LeaseExactlyWhenBound(lossy: Lossy, mac: Mac, hostname: Option<seq<byte>>, xid: u32, r: Run, k: nat)
    requires IsRun(lossy, r) && r.states[0] == Fresh(mac, hostname, xid) && k < |r.states|
    ensures LeaseFitsPhase(r.states[k])
  {
    hide Poll, LeaseFitsPhase;
    if k == 0 {
      FreshFits(mac, hostname, xid);
    } else {
      LeaseExactlyWhenBound(lossy, mac, hostname, xid, r, k - 1);
      assert StepOf(lossy, r, k - 1);
      PollKeepsLease(lossy, r.states[k - 1], r.inputs[k - 1]);
    }
  }

  lemma FreshFits(mac: Mac, hostname: Option<seq<byte>>, xid: u32)
    ensures LeaseFitsPhase(Fresh(mac, hostname, xid))
  {
  }

  // ---- unanswered phases ------------------------------------------------------------

  function Sends(log: seq<Action>): nat {
    if log == [] then 0 else Sends(log[..|log| - 1]) + if log[|log| - 1].Broadcast? || log[|log| - 1].Unicast? then 1 else 0
  }

  // Seconds asked for between transmissions.
  function Waits(log: seq<Action>): nat {
    if log == [] then 0
    else Waits(log[..|log| - 1]) + if log[|log| - 1].SetTimer? && log[|log| - 1].timer == Retransmit then log[|log| - 1].secs else 0
  }

  function Failures(log: seq<Action>): nat {
    if log == [] then 0 else Failures(log[..|log| - 1]) + if log[|log| - 1].Failed? then 1 else 0
  }

  // Retransmission timeouts among inputs 1 to `n - 1`.
  function Retries(ins: seq<Input>, n: nat): nat
    requires n <= |ins|
  {
    if n <= 1 then 0 else Retries(ins, n - 1) + if ins[n - 1] == Timeout(Retransmit) then 1 else 0
  }

  lemma {:induction false} CountsAdd(a: seq<Action>, b: seq<Action>)
    ensures Sends(a + b) == Sends(a) + Sends(b)
    ensures Waits(a + b) == Waits(a) + Waits(b)
    ensures Failures(a + b) == Failures(a) + Failures(b)
  {
    if b == [] {
      assert a + b == a;
    } else {
      CountsAdd(a, b[..|b| - 1]);
      assert (a + b)[..|a + b| - 1] == a + b[..|b| - 1];
    }
  }

  lemma CountsOfPair(a: Action, b: Action)
    ensures Sends([a, b]) == Sends([a]) + Sends([b])
    ensures Waits([a, b]) == Waits([a]) + Waits([b])
    ensures Failures([a, b]) == Failures([a]) + Failures([b])
  {
    CountsAdd([a], [b]);
    assert [a] + [b] == [a, b];
  }

  // A phase begins with the first input, a start or an offer that is taken;
  // after that nobody restarts the exchange and nothing heard moves it.
  ghost predicate Unanswered(lossy: Lossy, r: Run) {
    && IsRun(lossy, r) && r.inputs != [] && LeaseFitsPhase(r.states[0])
    && Begins(r) && forall i :: 1 <= i < |r.inputs| ==> !r.inputs[i].Start? && (r.inputs[i].Datagram? ==> r.outputs[i] == [])
  }

  predicate Begins(r: Run)
    requires |r.states| == |r.inputs| + 1 && |r.outputs| == |r.inputs| && r.inputs != []
  {
    r.outputs[0] != [] && r.states[1].phase in {Selecting, Requesting} && !r.inputs[0].Timeout?
  }

  function Fewer(a: nat, b: nat): nat {
    if a <= b then a else b
  }

  // The intervals after the first, for the given number of retransmissions.
  function LaterWaits(xid: u32, n: nat): nat {
    if n == 0 then 0 else LaterWaits(xid, n - 1) + Backoff(xid, n)
  }

  predicate Asking(m: Client) {
    m.phase in {Selecting, Requesting} && m.lease.None?
  }

  // What a phase comes to after `n` retransmission timeouts, and any noise.
  predicate PhaseProgress(began: Client, n: nat, now: Client, log: seq<Action>) {
    && now.xid == began.xid && now.lease.None?
    && now.phase == (if n < MAX_TRIES then began.phase else Init)
    && (n < MAX_TRIES ==> now.tries == n)
    && Sends(log) == 1 + Fewer(n, MAX_TRIES - 1)
    && Waits(log) == Backoff(began.xid, 0) + LaterWaits(began.xid, Fewer(n, MAX_TRIES - 1))
    && Failures(log) == if n < MAX_TRIES then 0 else 1
  }

  // One timeout of an unanswered exchange.
  lemma TimeoutWhileAsking(m: Client, timer: Timer)
    requires m.lease.None? && (m.phase == Init || (Asking(m) && m.tries < MAX_TRIES))
    ensures var o := OnTimeout(m, timer);
            && o.next.xid == m.xid && o.next.lease.None?
            && (timer != Retransmit || m.phase == Init ==> o.next == m && o.actions == [])
            && (timer == Retransmit && Asking(m) && m.tries + 1 < MAX_TRIES ==>
                  && o.next.phase == m.phase && o.next.tries == m.tries + 1
                  && Sends(o.actions) == 1 && Waits(o.actions) == Backoff(m.xid, m.tries + 1) && Failures(o.actions) == 0)
            && (timer == Retransmit && Asking(m) && m.tries + 1 == MAX_TRIES ==>
                  && o.next.phase == Init && o.actions == [Failed])
  {
    hide EncodeMessage, Backoff, DiscoverMessage, SelectingRequest;
    var o := OnTimeout(m, timer);
    if timer == Retransmit && Asking(m) && m.tries + 1 < MAX_TRIES {
      CountsOfPair(o.actions[0], o.actions[1]);
      assert [o.actions[0]][..0] == [] && [o.actions[1]][..0] == [];
    }
  }

  lemma DatagramKeepsWhenSilent(lossy: Lossy, m: Client, bytes: seq<byte>)
    requires OnDatagram(lossy, m, bytes).actions == []
    ensures OnDatagram(lossy, m, bytes).next == m
  {
    hide DecodeMessage, EncodeMessage, KindOf, ServerOf, LeaseOfAck;
  }

  lemma CountsOfGivingUp()
    ensures Sends([Failed]) == 0 && Waits([Failed]) == 0 && Failures([Failed]) == 1
    ensures Sends([]) == 0 && Waits([]) == 0 && Failures([]) == 0
  {
    assert [Failed][..0] == [];
  }

  // The step that begins a phase.
  lemma FirstOfPhase(lossy: Lossy, m: Client, input: Input)
    requires LeaseFitsPhase(m) && !input.Timeout?
    requires Poll(lossy, m, input).actions != [] && Poll(lossy, m, input).next.phase in {Selecting, Requesting}
    ensures var o := Poll(lossy, m, input);
            && Asking(o.next) && o.next.tries == 0
            && Sends(o.actions) == 1 && Waits(o.actions) == Backoff(o.next.xid, 0) && Failures(o.actions) == 0
  {
    hide DecodeMessage, EncodeMessage, Backoff, KindOf, ServerOf, LeaseOfAck, DiscoverMessage, SelectingRequest;
    var o := Poll(lossy, m, input);
    CountsOfPair(o.actions[0], o.actions[1]);
    assert [o.actions[0]][..0] == [] && [o.actions[1]][..0] == [];
  }

  lemma {:induction false} PhaseUnanswered(lossy: Lossy, r: Run, k: nat)
    requires Unanswered(lossy, r) && 1 <= k <= |r.inputs|
    ensures Asking(r.states[1]) && PhaseProgress(r.states[1], Retries(r.inputs, k), r.states[k], LogAt(r, k))
  {
    hide OnStart, OnDatagram, OnTimeout, Backoff, LeaseFitsPhase;
    assert StepOf(lossy, r, k - 1);
    CountsAdd(LogAt(r, k - 1), r.outputs[k - 1]);
    CountsOfGivingUp();
    if k == 1 {
      FirstOfPhase(lossy, r.states[0], r.inputs[0]);
    } else {
      PhaseUnanswered(lossy, r, k - 1);
      var now, input := r.states[k - 1], r.inputs[k - 1];
      if input.Datagram? {
        DatagramKeepsWhenSilent(lossy, now, input.bytes);
      } else {
        TimeoutWhileAsking(now, input.timer);
      }
    }
  }

  lemma WaitsInAll(xid: u32)
    ensures 56 <= Backoff(xid, 0) + LaterWaits(xid, MAX_TRIES - 1) <= 64
  {
    hide Bit, Pow2;
    assert LaterWaits(xid, 3) == LaterWaits(xid, 2) + Backoff(xid, 3);
    assert LaterWaits(xid, 2) == LaterWaits(xid, 1) + Backoff(xid, 2);
    assert LaterWaits(xid, 1) == LaterWaits(xid, 0) + Backoff(xid, 1);
  }

  // An unanswered phase sends at most MAX_TRIES messages, and when its timer
  // has run out as often it has sent exactly that many, asked for about a
  // minute in all, and reported failure once.
  lemma UnansweredPhaseGivesUp(lossy: Lossy, r: Run)
    requires Unanswered(lossy, r)
    ensures var n, log, end := Retries(r.inputs, |r.inputs|), LogAt(r, |r.inputs|), r.states[|r.inputs|];
            && Sends(log) == Fewer(1 + n, MAX_TRIES)
            && (n < MAX_TRIES ==> Failures(log) == 0 && end.phase == r.states[1].phase)
            && (n >= MAX_TRIES ==> Failures(log) == 1 && 56 <= Waits(log) <= 64 && end.phase == Init)
  {
    hide Poll, StepOf, LogAt, Backoff;
    PhaseUnanswered(lossy, r, |r.inputs|);
    WaitsInAll(r.states[1].xid);
  }

  // ---- one exchange -------------------------------------------------------------------

  predicate Ends(a: Action) {
    a.Configured? || a.Deconfigure? || a.Failed?
  }

  predicate Ended(log: seq<Action>) {
    exists i :: 0 <= i < |log| && Ends(log[i])
  }

  // How many messages an exchange still under way can have sent.
  predicate WithinBudget(m: Client, log: seq<Action>) {
    && Asking(m) && m.tries < MAX_TRIES
    && (m.phase == Selecting ==> Sends(log) == m.tries + 1)
    && (m.phase == Requesting ==> Sends(log) <= MAX_TRIES + m.tries + 1)
  }

  lemma StepWithinBudget(lossy: Lossy, m: Client, log: seq<Action>, input: Input)
    requires WithinBudget(m, log) && !input.Start?
    ensures var o := Poll(lossy, m, input); Ended(o.actions) || WithinBudget(o.next, log + o.actions)
  {
    hide DecodeMessage, EncodeMessage, Backoff, KindOf, ServerOf, LeaseOfAck, DiscoverMessage, SelectingRequest;
    var o := Poll(lossy, m, input);
    CountsAdd(log, o.actions);
    if |o.actions| == 2 {
      CountsOfPair(o.actions[0], o.actions[1]);
      assert [o.actions[0]][..0] == [] && [o.actions[1]][..0] == [];
    } else if |o.actions| == 1 {
      assert Ends(o.actions[0]);
    } else if |o.actions| == 4 {
      assert Ends(o.actions[3]);
    } else {
      assert o.actions == [];
    }
  }

  lemma {:induction false} ExchangeWithinBudget(lossy: Lossy, r: Run, k: nat)
    requires IsRun(lossy, r) && 1 <= k <= |r.inputs| && r.inputs[0].Start?
    requires forall i :: 1 <= i < |r.inputs| ==> !r.inputs[i].Start?
    ensures Ended(LogAt(r, k)) || WithinBudget(r.states[k], LogAt(r, k))
  {
    hide WithinBudget, Ends, OnStart, OnDatagram, OnTimeout;
    assert StepOf(lossy, r, k - 1);
    var log, out := LogAt(r, k - 1), r.outputs[k - 1];
    if k == 1 {
      StartWithinBudget(r.states[0], r.inputs[0].xid);
      assert log + out == out;
    } else {
      ExchangeWithinBudget(lossy, r, k - 1);
      if Ended(log) {
        var i :| 0 <= i < |log| && Ends(log[i]);
        assert Ends((log + out)[i]);
      } else {
        StepWithinBudget(lossy, r.states[k - 1], log, r.inputs[k - 1]);
        if Ended(out) {
          var i :| 0 <= i < |out| && Ends(out[i]);
          assert Ends((log + out)[|log| + i]);
        }
      }
    }
  }

  lemma StartWithinBudget(m: Client, xid: u32)
    ensures WithinBudget(OnStart(m, xid).next, OnStart(m, xid).actions)
  {
    hide EncodeMessage, Backoff, DiscoverMessage;
    var o := OnStart(m, xid);
    CountsOfPair(o.actions[0], o.actions[1]);
    assert [o.actions[0]][..0] == [] && [o.actions[1]][..0] == [];
  }

  // From a start until a lease, its loss or a failure is reported, an exchange
  // never sends more than twice MAX_TRIES messages.
  lemma OneExchangeIsBounded(lossy: Lossy, r: Run)
    requires IsRun(lossy, r) && r.inputs != [] && r.inputs[0].Start?
    requires forall i :: 1 <= i < |r.inputs| ==> !r.inputs[i].Start?
    requires !Ended(LogAt(r, |r.inputs|))
    ensures Sends(LogAt(r, |r.inputs|)) <= 2 * MAX_TRIES
  {
    ExchangeWithinBudget(lossy, r, |r.inputs|);
  }

  // ---- what a server reads ----------------------------------------------------------

  predicate HostNameFits(lossy: Lossy, m: Client) {
    m.hostname.Some? ==> |m.hostname.value| <= 255 && lossy(m.hostname.value) == m.hostname.value
  }

  lemma {:induction false} LooksThrough(a: seq<DhcpOption>, b: seq<DhcpOption>, code: byte)
    ensures Get(a + b, code) == if Get(a, code).Some? then Get(a, code) else Get(b, code)
    ensures ServerOf(a + b) == if ServerOf(a).Some? then ServerOf(a) else ServerOf(b)
    ensures KindOf(a + b) == if KindOf(a).Some? then KindOf(a) else KindOf(b)
  {
    if a == [] {
      assert a + b == b;
    } else {
      LooksThrough(a[1..], b, code);
      assert (a + b)[1..] == a[1..] + b;
    }
  }

  lemma {:induction false} NotAmong(options: seq<DhcpOption>)
    requires forall i :: 0 <= i < |options| ==> CodeOf(options[i]) != OPT_REQUESTED_IP && !options[i].ServerId?
    ensures ServerOf(options) == None && Get(options, OPT_REQUESTED_IP) == None
  {
    if options != [] { NotAmong(options[1..]); }
  }

  lemma BaseOptions(m: Client, kind: MessageType)
    ensures var options := Base(m, kind).options;
            KindOf(options) == Some(kind) && ServerOf(options) == None && Get(options, OPT_REQUESTED_IP) == None
  {
    NotAmong(Base(m, kind).options);
  }

  lemma BaseIsWellFormed(lossy: Lossy, m: Client, kind: MessageType)
    requires HostNameFits(lossy, m) && lossy([]) == [] && !kind.OtherType?
    ensures WellFormed(lossy, Base(m, kind))
  {
    hide Octets;
    assert |[HTYPE_ETHERNET] + m.mac| == 7;
  }

  lemma OwnMessagesAreWellFormed(lossy: Lossy, m: Client, kind: MessageType)
    requires HostNameFits(lossy, m) && lossy([]) == [] && !kind.OtherType?
    ensures WellFormed(lossy, Base(m, kind)) && WellFormed(lossy, SelectingRequest(m))
  {
    hide Base;
    assert Canonical(lossy, RequestedIp(m.offered)) && (m.server.Some? ==> Canonical(lossy, ServerId(m.server.value)));
    hide Canonical;
    BaseIsWellFormed(lossy, m, kind);
    BaseIsWellFormed(lossy, m, MessageType.Request);
  }

  // Every message the client composes survives the wire, and carries what
  // table 5 of RFC 2131 asks of it: the address as an option with the server
  // that offered it, or in `ciaddr` with neither.
  lemma MessagesRead(lossy: Lossy, m: Client)
    requires HostNameFits(lossy, m) && lossy([]) == []
    ensures DecodeMessage(lossy, EncodeMessage(DiscoverMessage(m))) == Some(DiscoverMessage(m))
    ensures DecodeMessage(lossy, EncodeMessage(SelectingRequest(m))) == Some(SelectingRequest(m))
    ensures DecodeMessage(lossy, EncodeMessage(RenewingRequest(m))) == Some(RenewingRequest(m))
    ensures KindOf(DiscoverMessage(m).options) == Some(Discover)
    ensures KindOf(SelectingRequest(m).options) == Some(MessageType.Request) == KindOf(RenewingRequest(m).options)
    ensures ServerOf(SelectingRequest(m).options) == m.server
    ensures Get(SelectingRequest(m).options, OPT_REQUESTED_IP) == Some(RequestedIp(m.offered))
    ensures ServerOf(RenewingRequest(m).options) == None && Get(RenewingRequest(m).options, OPT_REQUESTED_IP) == None
    ensures m.lease.Some? ==> RenewingRequest(m).ciaddr == m.lease.value.addr
  {
    hide DecodeMessage, EncodeMessage, Base, Canonical, KindOf, Get, ServerOf;
    OwnMessagesAreWellFormed(lossy, m, Discover);
    OwnMessagesAreWellFormed(lossy, m, MessageType.Request);
    MessageRoundTrip(lossy, DiscoverMessage(m));
    MessageRoundTrip(lossy, SelectingRequest(m));
    MessageRoundTrip(lossy, RenewingRequest(m));
    BaseOptions(m, Discover);
    BaseOptions(m, MessageType.Request);
    var options := Base(m, MessageType.Request).options;
    var server := if m.server.Some? then [ServerId(m.server.value)] else [];
    LooksThrough(options + [RequestedIp(m.offered)], server, OPT_REQUESTED_IP);
    LooksThrough(options, [RequestedIp(m.offered)], OPT_REQUESTED_IP);
    SingleOptions(m.offered, m.server);
  }

  lemma SingleOptions(offered: Ip, server: Option<Ip>)
    ensures Get([RequestedIp(offered)], OPT_REQUESTED_IP) == Some(RequestedIp(offered))
    ensures ServerOf([RequestedIp(offered)]) == None && KindOf([RequestedIp(offered)]) == None
    ensures ServerOf(if server.Some? then [ServerId(server.value)] else []) == server
    ensures KindOf(if server.Some? then [ServerId(server.value)] else []) == None
  {
    assert [RequestedIp(offered)][1..] == [];
    assert server.Some? ==> [ServerId(server.value)][1..] == [];
  }
}
