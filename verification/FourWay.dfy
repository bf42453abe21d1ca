// What the supplicant does with EAPOL-Key frames, pairwise and group
// (crates/caw-eapol/src/lib.rs; IEEE 802.11-2016 section 12.7.6).

module FourWayHandshake {
  import opened Bytes
  import opened Suites
  import opened Crypto
  import opened Eapol

  const RETRY_INTERVAL_MS: nat := 1000

  datatype Config = Config(akm: Akm, ownMac: Mac, bssid: Mac, assocIe: KeyData, beaconIe: seq<byte>)

  datatype Input = Frame(bytes: seq<byte>) | Expiry

  datatype Action =
    | Send(frame: seq<byte>)
    | ArmTimer(millis: nat)
    | DisarmTimer
    | Complete(ptk: Ptk, gtk: Gtk)
    | NewGtk(group: Gtk)

  datatype Phase = Idle | AwaitingMsg3 | Established | Failed

  datatype FourWay = FourWay(
    pmk: seq<byte>,
    config: Config,
    snonce: Nonce,
    anonce: Nonce,
    ptk: Option<Ptk>,
    dv: DescriptorVersion,
    version: byte,
    rx: Option<nat>,
    phase: Phase,
    lastSent: Option<seq<byte>>,
    retries: nat)

  function Fresh(pmk: seq<byte>, config: Config, snonce: Nonce): FourWay {
    FourWay(pmk, config, snonce, Zeros(32), None, HmacSha1Version, 2, None, Idle, None, 0)
  }

  // ---- one input ----------------------------------------------------------------

  type Handled = Result<(FourWay, seq<Action>), EapolError>

  // How a handler of the machine below reports what the specification says.
  predicate Follows(h: Handled, before: FourWay, r: Result<seq<Action>, EapolError>, after: FourWay) {
    if h.Ok? then r == Ok(h.value.1) && after == h.value.0 else r == Err(h.error) && after == before
  }

  datatype Outcome = Outcome(next: FourWay, result: Result<seq<Action>, EapolError>)

  // A frame from the station: nonce and data only where the message has them.
  function Reply(flags: u16, replay: Octets8, nonce: Nonce, data: KeyData): (k: KeyFrame)
    ensures k.Valid()
  {
    KeyFrame(DESCRIPTOR_TYPE_RSN, flags, 0, replay, nonce, Zeros(16), Zeros(8), Zeros(16), data)
  }

  function SignedReply(c: Primitives, version: byte, dv: DescriptorVersion, kck: Block16, k: KeyFrame): seq<byte>
    requires k.Valid()
  {
    EncodeKey(Signed(c, k, version, kck, dv), version)
  }

  function Msg2(m: FourWay, dv: DescriptorVersion, replay: Octets8): KeyFrame {
    Reply(dv.Bits() + PAIRWISE + MIC, replay, m.snonce, m.config.assocIe)
  }

  function Msg4(dv: DescriptorVersion, replay: Octets8): KeyFrame {
    Reply(dv.Bits() + PAIRWISE + MIC + SECURE, replay, Zeros(32), [])
  }

  function GroupMsg2(dv: DescriptorVersion, replay: Octets8): KeyFrame {
    Reply(dv.Bits() + MIC + SECURE, replay, Zeros(32), [])
  }

  function OnMsg1(c: Primitives, m: FourWay, eapol: EapolFrame, k: KeyFrame): Handled {
    var dv := VersionOf(k.keyInfo, m.config.akm);
    if dv.Err? then Err(Crypto(dv.error))
    else
      var ptk := DerivePtk(c, m.pmk, m.config.akm, m.config.bssid, m.config.ownMac, k.nonce, m.snonce);
      if ptk.Err? then Err(Crypto(ptk.error))
      else
        var msg2 := SignedReply(c, eapol.version, dv.value, ptk.value.kck, Msg2(m, dv.value, k.replay));
        var next := m.(anonce := k.nonce, dv := dv.value, version := eapol.version, rx := Some(k.Counter()),
                       ptk := Some(ptk.value), phase := AwaitingMsg3, retries := 0, lastSent := Some(msg2));
        Ok((next, [Send(msg2), ArmTimer(RETRY_INTERVAL_MS)]))
  }

  // The key data of an authenticated frame, in the clear.
  function OpenKeyData(c: Primitives, m: FourWay, eapol: EapolFrame, k: KeyFrame): Result<seq<Item>, EapolError> {
    if m.ptk.None? then Err(UnexpectedMessage)
    else
      var ptk := m.ptk.value;
      var verified := VerifyFrameMic(c, eapol.raw, ptk.kck, m.dv, k.mic);
      if verified.Err? then Err(verified.error)
      else if k.Has(PAIRWISE) && k.nonce != m.anonce then Err(NonceMismatch)
      else if !k.Has(ENCRYPTED) then Err(Malformed)
      else
        var plain := UnwrapKeyData(c, ptk.kek, k.data);
        if plain.Err? then Err(Crypto(plain.error)) else Ok(ItemsOf(plain.value))
  }

  function OnMsg3(c: Primitives, m: FourWay, eapol: EapolFrame, k: KeyFrame, install: bool): Handled {
    var items :- OpenKeyData(c, m, eapol, k);
    var advertised := RsnElementOf(items);
    if advertised.None? then Err(RsnMissing)
    else if advertised.value != m.config.beaconIe then Err(EapolError.RsnMismatch)
    else
      var gtk :- GtkOf(items);
      assert m.ptk.Some?;
      var msg4 := SignedReply(c, m.version, m.dv, m.ptk.value.kck, Msg4(m.dv, k.replay));
      var next := m.(rx := Some(k.Counter()), phase := Established, lastSent := None, retries := 0);
      Ok((next, [Send(msg4), DisarmTimer] + if install then [Complete(m.ptk.value, gtk)] else []))
  }

  function OnGroupMsg1(c: Primitives, m: FourWay, eapol: EapolFrame, k: KeyFrame): Handled {
    var items :- OpenKeyData(c, m, eapol, k);
    var gtk :- GtkOf(items);
    var msg2 := SignedReply(c, m.version, m.dv, m.ptk.value.kck, GroupMsg2(m.dv, k.replay));
    Ok((m.(rx := Some(k.Counter())), [Send(msg2), NewGtk(gtk)]))
  }

  function OnFrame(c: Primitives, m: FourWay, bytes: seq<byte>): Handled {
    if m.phase == Failed then Err(UnexpectedMessage)
    else
      var eapol :- ParseEapol(bytes);
      if eapol.packetType != KeyType then Ok((m, []))
      else
        var k :- ParseKey(eapol.body);
        if k.descriptor != DESCRIPTOR_TYPE_RSN then Err(UnsupportedDescriptor(k.descriptor))
        else if !k.Has(ACK) || k.Has(REQUEST) then Ok((m, []))
        else if m.rx.Some? && k.Counter() <= m.rx.value then Err(ReplayedCounter)
        else if k.Has(PAIRWISE) && !k.Has(MIC) then OnMsg1(c, m, eapol, k)
        else if m.phase == AwaitingMsg3 && k.Has(PAIRWISE) then OnMsg3(c, m, eapol, k, true)
        else if m.phase == Established && k.Has(PAIRWISE) then OnMsg3(c, m, eapol, k, false)
        else if m.phase == Established && k.Has(MIC) then OnGroupMsg1(c, m, eapol, k)
        else Err(UnexpectedMessage)
  }

  function OnExpiry(m: FourWay): Handled {
    if m.lastSent.None? then Ok((m, []))
    else if m.retries >= RETRY_LIMIT then Err(EapolError.Timeout)
    else Ok((m.(retries := m.retries + 1), [Send(m.lastSent.value), ArmTimer(RETRY_INTERVAL_MS)]))
  }

  // Whatever goes wrong, the phase becomes `Failed`.
  function Poll(c: Primitives, m: FourWay, input: Input): Outcome {
    var handled := match input case Frame(bytes) => OnFrame(c, m, bytes) case Expiry => OnExpiry(m);
    if handled.Err? then Outcome(m.(phase := Failed), Err(handled.error))
    else Outcome(handled.value.0, Ok(handled.value.1))
  }

  // ---- whole runs ---------------------------------------------------------------

  // A recorded run: the machine before and after each input, and what came of it.
  datatype Run = Run(states: seq<FourWay>, inputs: seq<Input>, results: seq<Result<seq<Action>, EapolError>>)

  predicate Stepped(c: Primitives, r: Run, i: nat)
    requires i < |r.inputs| && |r.states| == |r.inputs| + 1 && |r.results| == |r.inputs|
  {
    Outcome(r.states[i + 1], r.results[i]) == Poll(c, r.states[i], r.inputs[i])
  }

  ghost predicate IsRun(c: Primitives, r: Run) {
    && |r.states| == |r.inputs| + 1 && |r.results| == |r.inputs|
    && forall i :: 0 <= i < |r.inputs| ==> Stepped(c, r, i)
  }

  // Whatever is put in, there is a run of it.
  lemma {:induction false} EveryInputHasARun(c: Primitives, m: FourWay, ins: seq<Input>) returns (r: Run)
    ensures IsRun(c, r) && r.states[0] == m && r.inputs == ins
  {
    hide Poll;
    if ins == [] {
      r := Run([m], [], []);
    } else {
      var n := |ins| - 1;
      var before := EveryInputHasARun(c, m, ins[..n]);
      var o := Poll(c, before.states[n], ins[n]);
      r := Run(before.states + [o.next], before.inputs + [ins[n]], before.results + [o.result]);
      assert ins[..n] + [ins[n]] == ins;
      forall i | 0 <= i < |r.inputs| ensures Stepped(c, r, i) {
        if i < n { assert Stepped(c, before, i); }
      }
    }
  }

  // The key frame an input carries, if it carries one.
  function KeyOf(input: Input): Option<KeyFrame> {
    if input.Expiry? then None
    else
      var eapol := ParseEapol(input.bytes);
      if eapol.Err? || eapol.value.packetType != KeyType then None
      else
        var k := ParseKey(eapol.value.body);
        if k.Err? then None else Some(k.value)
  }

  // A frame the station replied to, as opposed to one dropped or refused.
  predicate Answers(c: Primitives, m: FourWay, input: Input) {
    var r := Poll(c, m, input).result;
    input.Frame? && r.Ok? && r.value != []
  }

  predicate AnsweredAt(r: Run, k: nat)
    requires k < |r.inputs| == |r.results|
  {
    r.inputs[k].Frame? && r.results[k].Ok? && r.results[k].value != []
  }

  predicate TakesMsg1(c: Primitives, m: FourWay, input: Input) {
    Answers(c, m, input) && KeyOf(input).Some? && KeyOf(input).value.Has(PAIRWISE) && !KeyOf(input).value.Has(MIC)
  }

  // A message 1 that was answered.
  predicate Msg1At(r: Run, k: nat)
    requires k < |r.inputs| == |r.results|
  {
    AnsweredAt(r, k) && KeyOf(r.inputs[k]).Some? && KeyOf(r.inputs[k]).value.Has(PAIRWISE) && !KeyOf(r.inputs[k]).value.Has(MIC)
  }

  predicate Installs(actions: seq<Action>) {
    exists i :: 0 <= i < |actions| && actions[i].Complete?
  }

  predicate Rekeys(actions: seq<Action>) {
    exists i :: 0 <= i < |actions| && actions[i].NewGtk?
  }

  predicate CompleteAt(r: Run, k: nat)
    requires k < |r.results|
  {
    r.results[k].Ok? && Installs(r.results[k].value)
  }

  // What the three message handlers do when they accept.
  lemma MessageShapes(c: Primitives, m: FourWay, eapol: EapolFrame, k: KeyFrame, install: bool)
    ensures var h := OnMsg1(c, m, eapol, k);
            h.Ok? ==>
              && Kept(m, h.value.0) && h.value.0.rx == Some(k.Counter()) && h.value.0.phase == AwaitingMsg3
              && h.value.0.ptk.Some?
              && DerivePtk(c, m.pmk, m.config.akm, m.config.bssid, m.config.ownMac, k.nonce, m.snonce) == Ok(h.value.0.ptk.value)
              && |h.value.1| == 2 && h.value.1[0].Send? && h.value.1[1].ArmTimer?
    ensures var h := OnMsg3(c, m, eapol, k, install);
            h.Ok? ==>
              && Kept(m, h.value.0) && h.value.0.rx == Some(k.Counter()) && h.value.0.phase == Established
              && m.ptk.Some? && h.value.0.ptk == m.ptk
              && |h.value.1| == (if install then 3 else 2) && h.value.1[0].Send? && h.value.1[1].DisarmTimer?
              && (install ==> h.value.1[2].Complete? && h.value.1[2].ptk == m.ptk.value)
    ensures var h := OnGroupMsg1(c, m, eapol, k);
            h.Ok? ==>
              && Kept(m, h.value.0) && h.value.0 == m.(rx := Some(k.Counter()))
              && |h.value.1| == 2 && h.value.1[0].Send? && h.value.1[1].NewGtk?
  {
    hide SignedReply, DerivePtk, VersionOf, GtkOf, RsnElementOf, VerifyFrameMic, UnwrapKeyData, ItemsOf, Bit, Reply, KeyFrame.Counter;
  }

  predicate Kept(m: FourWay, n: FourWay) {
    n.pmk == m.pmk && n.config == m.config && n.snonce == m.snonce
  }

  // What a frame that gets through the common checks comes to.
  lemma FrameShape(c: Primitives, m: FourWay, bytes: seq<byte>)
    ensures var h := OnFrame(c, m, bytes);
            var k := KeyOf(Frame(bytes));
            && (h.Ok? ==> Kept(m, h.value.0))
            && (h.Ok? && h.value.1 == [] ==> h.value.0 == m)
            && (h.Ok? && h.value.1 != [] ==>
                  && m.phase != Failed && k.Some? && h.value.0.rx == Some(k.value.Counter())
                  && (m.rx.Some? ==> m.rx.value < k.value.Counter()))
            && (h.Ok? && h.value.1 != [] && k.value.Has(PAIRWISE) && !k.value.Has(MIC) ==>
                  && h.value.0.phase == AwaitingMsg3 && h.value.0.ptk.Some? && PtkOf(c, m, Frame(bytes)) == Ok(h.value.0.ptk.value)
                  && !Installs(h.value.1))
            && (h.Ok? && h.value.1 != [] && !(k.value.Has(PAIRWISE) && !k.value.Has(MIC)) ==>
                  && h.value.0.phase == Established)
            && (h.Ok? && Installs(h.value.1) ==>
                  && m.phase == AwaitingMsg3 && m.ptk.Some? && |h.value.1| == 3 && h.value.1[0].Send?
                  && h.value.1[1].DisarmTimer? && h.value.1[2].Complete? && h.value.1[2].ptk == m.ptk.value)
  {
    hide ParseEapol, ParseKey, DerivePtk, OnMsg1, OnMsg3, OnGroupMsg1, Bit, KeyFrame.Counter;
    var eapol := ParseEapol(bytes);
    if eapol.Ok? {
      var k := ParseKey(eapol.value.body);
      if k.Ok? {
        MessageShapes(c, m, eapol.value, k.value, m.phase == AwaitingMsg3);
      }
    }
  }

  // Everything one input can do.
  lemma StepShape(c: Primitives, m: FourWay, input: Input)
    ensures var o := Poll(c, m, input);
            && Kept(m, o.next)
            && (o.result.Err? ==> o.next == m.(phase := Failed))
            && (m.phase == Failed ==> o.next.phase == Failed)
            && (!Answers(c, m, input) && o.result.Ok? ==>
                  (o.next == m || (input.Expiry? && m.lastSent.Some? && o.next == m.(retries := m.retries + 1))))
            && (Answers(c, m, input) ==>
                  && KeyOf(input).Some? && o.next.rx == Some(KeyOf(input).value.Counter())
                  && (m.rx.Some? ==> m.rx.value < KeyOf(input).value.Counter()))
  {
    hide OnFrame, KeyOf;
    if input.Frame? { FrameShape(c, m, input.bytes); }
  }

  lemma {:induction false} RunShape(c: Primitives, r: Run, k: nat)
    requires IsRun(c, r) && k < |r.states|
    ensures Kept(r.states[0], r.states[k])
  {
    hide Poll;
    if k > 0 {
      RunShape(c, r, k - 1);
      assert Stepped(c, r, k - 1);
      StepShape(c, r.states[k - 1], r.inputs[k - 1]);
    }
  }

  lemma {:induction false} CounterRemembered(c: Primitives, r: Run, j: nat, n: nat)
    requires IsRun(c, r) && j < n < |r.states| && AnsweredAt(r, j)
    ensures KeyOf(r.inputs[j]).Some?
    ensures var rx := r.states[n].rx; rx.Some? && KeyOf(r.inputs[j]).value.Counter() <= rx.value
  {
    hide Poll, KeyOf;
    assert Stepped(c, r, n - 1);
    StepShape(c, r.states[n - 1], r.inputs[n - 1]);
    if j < n - 1 {
      CounterRemembered(c, r, j, n - 1);
    }
  }

  // Replay protection over a whole run: frames that are answered carry
  // strictly increasing counters.
  lemma AnsweredCountersIncrease(c: Primitives, r: Run, j: nat, k: nat)
    requires IsRun(c, r) && j < k < |r.inputs|
    requires AnsweredAt(r, j) && AnsweredAt(r, k)
    ensures KeyOf(r.inputs[j]).Some? && KeyOf(r.inputs[k]).Some?
    ensures KeyOf(r.inputs[j]).value.Counter() < KeyOf(r.inputs[k]).value.Counter()
  {
    hide Poll, KeyOf;
    CounterRemembered(c, r, j, k);
    assert Stepped(c, r, k);
    StepShape(c, r.states[k], r.inputs[k]);
  }

  // The PTK a message 1 leads to in this run.
  function PtkOf(c: Primitives, m: FourWay, input: Input): Result<Ptk, CryptoError>
    requires KeyOf(input).Some?
  {
    DerivePtk(c, m.pmk, m.config.akm, m.config.bssid, m.config.ownMac, KeyOf(input).value.nonce, m.snonce)
  }

  // Message 1 at `j` is the one being answered: nothing since has replaced or
  // used it.
  ghost predicate Outstanding(r: Run, j: nat, n: nat)
    requires j < n <= |r.inputs| == |r.results|
  {
    && Msg1At(r, j)
    && forall i :: j < i < n ==> !Msg1At(r, i) && !CompleteAt(r, i)
  }

  // What a step means for a handshake under way.
  lemma PhaseStep(c: Primitives, m: FourWay, input: Input)
    ensures var o := Poll(c, m, input);
            && (TakesMsg1(c, m, input) ==>
                  && o.next.phase == AwaitingMsg3 && KeyOf(input).Some? && o.next.ptk.Some?
                  && PtkOf(c, m, input) == Ok(o.next.ptk.value) && !Installs(o.result.value))
            && (o.result.Ok? && Installs(o.result.value) ==>
                  && m.phase == AwaitingMsg3 && m.ptk.Some? && o.next.phase == Established && !TakesMsg1(c, m, input)
                  && |o.result.value| == 3 && o.result.value[2].Complete? && o.result.value[2].ptk == m.ptk.value
                  && o.result.value[0].Send? && o.result.value[1].DisarmTimer?)
            && (o.next.phase == AwaitingMsg3 && !TakesMsg1(c, m, input) ==>
                  m.phase == AwaitingMsg3 && o.next.ptk == m.ptk)
  {
    hide OnFrame, KeyOf, PtkOf, Bit;
    if input.Frame? { FrameShape(c, m, input.bytes); }
  }

  lemma {:induction false} AwaitingHasMsg1(c: Primitives, r: Run, n: nat) returns (j: nat)
    requires IsRun(c, r) && r.states[0].phase == Idle
    requires n < |r.states| && r.states[n].phase == AwaitingMsg3
    ensures j < n && Outstanding(r, j, n) && KeyOf(r.inputs[j]).Some?
    ensures r.states[n].ptk.Some? && PtkOf(c, r.states[0], r.inputs[j]) == Ok(r.states[n].ptk.value)
  {
    hide Poll, KeyOf, Installs, DerivePtk;
    assert Stepped(c, r, n - 1);
    PhaseStep(c, r.states[n - 1], r.inputs[n - 1]);
    RunShape(c, r, n - 1);
    if Msg1At(r, n - 1) {
      j := n - 1;
    } else {
      j := AwaitingHasMsg1(c, r, n - 1);
    }
  }

  // Keys are installed at most once for each accepted message 1, and they are
  // the keys of that message's ANonce and this handshake's one SNonce.
  lemma OneInstallPerMsg1(c: Primitives, r: Run, k: nat) returns (j: nat)
    requires IsRun(c, r) && r.states[0].phase == Idle
    requires k < |r.inputs| && CompleteAt(r, k)
    ensures j < k && Outstanding(r, j, k) && KeyOf(r.inputs[j]).Some?
    ensures var sent := r.results[k].value;
            && |sent| == 3 && sent[0].Send? && sent[2].Complete?
            && PtkOf(c, r.states[0], r.inputs[j]) == Ok(sent[2].ptk)
    ensures forall i :: 0 <= i < |r.results[k].value| && i != 2 ==> !r.results[k].value[i].Complete?
  {
    hide Poll, KeyOf, PtkOf;
    assert Stepped(c, r, k);
    PhaseStep(c, r.states[k], r.inputs[k]);
    j := AwaitingHasMsg1(c, r, k);
  }

  lemma {:induction false} FailedStays(c: Primitives, r: Run, j: nat, k: nat)
    requires IsRun(c, r) && j < k < |r.states| && r.results[j].Err?
    ensures r.states[k].phase == Failed
  {
    hide KeyOf, OnFrame;
    assert Stepped(c, r, k - 1);
    StepShape(c, r.states[k - 1], r.inputs[k - 1]);
    if j < k - 1 {
      FailedStays(c, r, j, k - 1);
    }
  }

  // After any error no key of either kind is ever handed over again; at most
  // the frame already out is resent.
  lemma ErrorsAreFinal(c: Primitives, r: Run, j: nat, k: nat)
    requires IsRun(c, r) && j < k < |r.inputs| && r.results[j].Err?
    ensures r.inputs[k].Frame? ==> r.results[k].Err?
    ensures r.results[k].Ok? ==> !Installs(r.results[k].value) && !Rekeys(r.results[k].value)
  {
    FailedStays(c, r, j, k);
    assert Stepped(c, r, k);
  }
}
