// EAP packets and the 802.1X provider that carries one EAP method to a PMK
// (crates/caw-eapol/src/eap/packet.rs, dot1x.rs; RFC 3748 section 4).

module Dot1x {
  import opened Bytes
  import opened Crypto
  import opened Eapol

  // ---- EAP packets ------------------------------------------------------------------

  const EAP_HEADER: nat := 4
  const IDENTITY: byte := 1
  const NOTIFICATION: byte := 2
  const NAK: byte := 3

  datatype EapCode = Request | Response | Success | Failure {
    function Code(): byte {
      match this case Request => 1 case Response => 2 case Success => 3 case Failure => 4
    }
  }

  function EapCodeOf(b: byte): Result<EapCode, EapolError> {
    match b
    case 1 => Ok(Request)
    case 2 => Ok(Response)
    case 3 => Ok(Success)
    case 4 => Ok(Failure)
    case _ => Err(UnsupportedEapCode(b))
  }

  datatype EapPacket = EapPacket(code: EapCode, identifier: byte, data: seq<byte>) {
    function Kind(): Option<byte> {
      if (code == Request || code == Response) && data != [] then Some(data[0]) else None
    }

    function TypeData(): seq<byte> {
      if data == [] then [] else data[1..]
    }
  }

  // Octets past the declared length are padding; a length below the header's
  // own is nonsense.
  function ParseEap(buf: seq<byte>): Result<EapPacket, EapolError> {
    if |buf| < EAP_HEADER then Err(Malformed)
    else
      var declared := BE16(buf[2..4]);
      if declared < EAP_HEADER || |buf| < declared then Err(Malformed)
      else
        var code :- EapCodeOf(buf[0]);
        Ok(EapPacket(code, buf[1], buf[4..declared]))
  }

  // What fits after the Type octet of one packet.
  type TypeData = s: seq<byte> | |s| <= 0xffff - EAP_HEADER - 1 witness []

  function EncodeResponse(identifier: byte, kind: byte, typeData: TypeData): (b: seq<byte>)
    ensures |b| == 5 + |typeData| < 0x1_0000
  {
    [Response.Code(), identifier] + ToBE16(5 + |typeData|) + ([kind] + typeData)
  }

  lemma ResponseReads(identifier: byte, kind: byte, typeData: TypeData, padding: seq<byte>)
    ensures ParseEap(EncodeResponse(identifier, kind, typeData) + padding)
         == Ok(EapPacket(Response, identifier, [kind] + typeData))
  {
    var b := EncodeResponse(identifier, kind, typeData);
    var buf := b + padding;
    assert buf[2..4] == ToBE16(|b|) && BE16(ToBE16(|b|)) == |b|;
    assert buf[4..|b|] == [kind] + typeData;
  }

  // ---- the provider ------------------------------------------------------------------

  type Octets64 = s: seq<byte> | |s| == 64 witness Zeros(64)
  type Pmk = s: seq<byte> | |s| == 32 witness Zeros(32)

  // One EAP method, as what it does with a request and the key it has so far.
  datatype EapMethod<!M> = EapMethod(
    typeCode: byte,
    step: (M, seq<byte>) -> (M, Result<Option<TypeData>, EapolError>),
    msk: M -> Option<Octets64>)

  datatype Phase = Running | Finished | Failed

  datatype Step = Send(frame: seq<byte>) | Wait | Done(pmk: Pmk)

  datatype Provider<M> = Provider(
    identity: TypeData, inner: M, phase: Phase, lastResponse: Option<seq<byte>>,
    answered: Option<byte>, version: byte, idleRounds: nat)

  function NewProvider<M>(identity: TypeData, inner: M): Provider<M> {
    Provider(identity, inner, Running, None, None, 2, 0)
  }

  datatype Outcome<M> = Outcome(next: Provider<M>, result: Result<Step, EapolError>)

  function PmkOfMsk(msk: Octets64): Pmk {
    msk[..32]
  }

  function Reply<M>(p: Provider<M>, identifier: byte, kind: byte, typeData: TypeData): Outcome<M> {
    var frame := EncodeEapol(p.version, EapPacketType, EncodeResponse(identifier, kind, typeData));
    Outcome(p.(lastResponse := Some(frame), answered := Some(identifier), idleRounds := 0), Ok(Send(frame)))
  }

  function OnRequest<M>(em: EapMethod<M>, p: Provider<M>, request: EapPacket): Outcome<M> {
    var kind := request.Kind();
    if kind.None? then Outcome(p, Err(Malformed))
    else if kind.value == IDENTITY then Reply(p, request.identifier, IDENTITY, p.identity)
    else if kind.value == NOTIFICATION then Reply(p, request.identifier, NOTIFICATION, [])
    else if kind.value != em.typeCode then Reply(p, request.identifier, NAK, [em.typeCode])
    else
      var (inner, answer) := em.step(p.inner, request.TypeData());
      var q := p.(inner := inner);
      if answer.Err? then Outcome(q, Err(answer.error))
      else if answer.value.None? then Outcome(q, Ok(Wait))
      else Reply(q, request.identifier, em.typeCode, answer.value.value)
  }

  // A repeat of the request already answered gets the stored answer back.
  function OnEap<M>(em: EapMethod<M>, p: Provider<M>, packet: EapPacket): Outcome<M> {
    match packet.code
    case Response => Outcome(p, Ok(Wait))
    case Request =>
      if p.answered == Some(packet.identifier) && p.lastResponse.Some? then
        Outcome(p.(idleRounds := 0), Ok(Send(p.lastResponse.value)))
      else OnRequest(em, p, packet)
    case Success =>
      var msk := em.msk(p.inner);
      if msk.None? then Outcome(p, Err(PrematureSuccess))
      else Outcome(p.(phase := Finished, lastResponse := None), Ok(Done(PmkOfMsk(msk.value))))
    case Failure => Outcome(p, Err(Rejected))
  }

  function Read<M>(em: EapMethod<M>, p: Provider<M>, frame: seq<byte>): Outcome<M> {
    var eapol := ParseEapol(frame);
    if eapol.Err? then Outcome(p, Err(eapol.error))
    else if eapol.value.packetType != EapPacketType then Outcome(p, Ok(Wait))
    else if p.phase != Running then Outcome(p, Err(UnexpectedMessage))
    else
      var q := p.(version := eapol.value.version);
      if |eapol.value.body| < EAP_HEADER then Outcome(q, Ok(Wait))
      else
        var packet := ParseEap(eapol.value.body);
        if packet.Err? then Outcome(q, Err(packet.error)) else OnEap(em, q, packet.value)
  }

  function OnFrame<M>(em: EapMethod<M>, p: Provider<M>, frame: seq<byte>): Outcome<M> {
    var o := Read(em, p, frame);
    if o.result.Err? then Outcome(o.next.(phase := Failed), o.result) else o
  }

  function OnTimeout<M>(p: Provider<M>): Outcome<M> {
    if p.phase != Running then Outcome(p, Err(UnexpectedMessage))
    else if p.idleRounds + 1 > RETRY_LIMIT then Outcome(p.(idleRounds := p.idleRounds + 1, phase := Failed), Err(EapolError.Timeout))
    else Outcome(p.(idleRounds := p.idleRounds + 1), Ok(Wait))
  }

  function After<M>(em: EapMethod<M>, p: Provider<M>, frames: seq<seq<byte>>): Provider<M> {
    if frames == [] then p else OnFrame(em, After(em, p, frames[..|frames| - 1]), frames[|frames| - 1]).next
  }

  // ---- repeated requests ----------------------------------------------------------------

  // A method that has something to say to whatever it accepts.
  ghost predicate AlwaysAnswers<M(!new)>(em: EapMethod<M>) {
    forall m: M, data: seq<byte> :: var r := em.step(m, data).1; r.Ok? ==> r.value.Some?
  }

  // The EAP request in a frame, if that is what it holds.
  function RequestIn(frame: seq<byte>): Option<EapPacket> {
    var eapol := ParseEapol(frame);
    if eapol.Err? || eapol.value.packetType != EapPacketType || |eapol.value.body| < EAP_HEADER then None
    else
      var packet := ParseEap(eapol.value.body);
      if packet.Err? || packet.value.code != Request then None else Some(packet.value)
  }

  // One request sent again. It need not be the same octets: the identifier is
  // all that is looked at.
  predicate Repeats(frame: seq<byte>, again: seq<byte>) {
    && RequestIn(frame).Some? && RequestIn(again).Some?
    && RequestIn(frame).value.identifier == RequestIn(again).value.identifier
    && ParseEapol(frame).value.version == ParseEapol(again).value.version
  }

  // A repeat is answered with the very frame that was sent, and changes nothing.
  lemma RepeatReplays<M(!new)>(em: EapMethod<M>, p: Provider<M>, frame: seq<byte>, again: seq<byte>)
    requires AlwaysAnswers(em) && Repeats(frame, again)
    ensures var first := OnFrame(em, p, frame);
            var second := OnFrame(em, first.next, again);
            && second.next == first.next
            && (first.result.Ok? ==> first.result.value.Send? && second.result == first.result)
            && (first.result.Err? ==> second.result == Err(UnexpectedMessage))
  {
    hide ParseEapol, ParseEap, EncodeEapol, EncodeResponse, EapPacket.Kind, EapPacket.TypeData;
    var request := RequestIn(frame).value;
    assert var r := em.step(p.inner, request.TypeData()).1; r.Ok? ==> r.value.Some?;
  }

  datatype Turn = Turn(frame: seq<byte>, repeats: seq<seq<byte>>)

  ghost predicate HonestTurn(t: Turn) {
    forall i :: 0 <= i < |t.repeats| ==> Repeats(t.frame, t.repeats[i])
  }

  function Firsts(turns: seq<Turn>): (frames: seq<seq<byte>>)
    ensures |frames| == |turns| && forall i :: 0 <= i < |turns| ==> frames[i] == turns[i].frame
  {
    if turns == [] then [] else Firsts(turns[..|turns| - 1]) + [turns[|turns| - 1].frame]
  }

  function Flatten(turns: seq<Turn>): seq<seq<byte>> {
    if turns == [] then []
    else Flatten(turns[..|turns| - 1]) + [turns[|turns| - 1].frame] + turns[|turns| - 1].repeats
  }

  lemma {:induction false} AfterMore<M>(em: EapMethod<M>, p: Provider<M>, a: seq<seq<byte>>, b: seq<seq<byte>>)
    ensures After(em, p, a + b) == After(em, After(em, p, a), b)
  {
    hide OnFrame;
    if b == [] {
      assert a + b == a;
    } else {
      AfterMore(em, p, a, b[..|b| - 1]);
      assert (a + b)[..|a + b| - 1] == a + b[..|b| - 1];
    }
  }

  lemma {:induction false} RepeatsChangeNothing<M(!new)>(em: EapMethod<M>, p: Provider<M>, frame: seq<byte>, repeats: seq<seq<byte>>)
    requires AlwaysAnswers(em) && forall i :: 0 <= i < |repeats| ==> Repeats(frame, repeats[i])
    ensures After(em, OnFrame(em, p, frame).next, repeats) == OnFrame(em, p, frame).next
  {
    hide OnFrame, Repeats, AlwaysAnswers;
    if repeats != [] {
      RepeatsChangeNothing(em, p, frame, repeats[..|repeats| - 1]);
      RepeatReplays(em, p, frame, repeats[|repeats| - 1]);
    }
  }

  // However often each request is repeated before the next, the method has
  // been through exactly what it would have been without the repeats.
  lemma {:induction false} RepeatsAreInvisible<M(!new)>(em: EapMethod<M>, p: Provider<M>, turns: seq<Turn>)
    requires AlwaysAnswers(em) && forall i :: 0 <= i < |turns| ==> HonestTurn(turns[i])
    ensures After(em, p, Flatten(turns)) == After(em, p, Firsts(turns))
  {
    hide OnFrame, Repeats, AlwaysAnswers;
    if turns != [] {
      var before, t := turns[..|turns| - 1], turns[|turns| - 1];
      RepeatsAreInvisible(em, p, before);
      AfterMore(em, p, Flatten(before) + [t.frame], t.repeats);
      AfterMore(em, p, Flatten(before), [t.frame]);
      AfterOne(em, After(em, p, Flatten(before)), t.frame);
      assert HonestTurn(t);
      RepeatsChangeNothing(em, After(em, p, Firsts(before)), t.frame, t.repeats);
    }
  }

  lemma AfterOne<M>(em: EapMethod<M>, p: Provider<M>, frame: seq<byte>)
    ensures After(em, p, [frame]) == OnFrame(em, p, frame).next
  {
    hide OnFrame;
    assert [frame][..0] == [];
  }

  // And every repeat is sent the answer its request was sent.
  lemma RepeatsAreAnswered<M(!new)>(em: EapMethod<M>, p: Provider<M>, turns: seq<Turn>, k: nat, j: nat)
    requires AlwaysAnswers(em) && forall i :: 0 <= i < |turns| ==> HonestTurn(turns[i])
    requires k < |turns| && j < |turns[k].repeats|
    ensures var before := After(em, p, Firsts(turns[..k]));
            var sofar := Flatten(turns[..k]) + [turns[k].frame] + turns[k].repeats[..j];
            var first := OnFrame(em, before, turns[k].frame);
            first.result.Ok? ==>
              OnFrame(em, After(em, p, sofar), turns[k].repeats[j]).result == first.result
  {
    hide OnFrame, Repeats, AlwaysAnswers;
    var t := Turn(turns[k].frame, turns[k].repeats[..j]);
    var some := turns[..k] + [t];
    assert HonestTurn(turns[k]);
    forall i | 0 <= i < |some| ensures HonestTurn(some[i]) {
      assert i < k ==> HonestTurn(turns[i]);
    }
    assert some[..|some| - 1] == turns[..k];
    RepeatsAreInvisible(em, p, some);
    assert Firsts(some) == Firsts(turns[..k]) + [t.frame];
    assert Firsts(some)[..k] == Firsts(turns[..k]);
    RepeatReplays(em, After(em, p, Firsts(turns[..k])), turns[k].frame, turns[k].repeats[j]);
  }

  // ---- the end of the conversation ---------------------------------------------------------

  lemma {:induction false} FailedStays<M>(em: EapMethod<M>, p: Provider<M>, frames: seq<seq<byte>>)
    requires p.phase == Failed
    ensures After(em, p, frames) == p
  {
    hide ParseEapol;
    if frames != [] {
      FailedStays(em, p, frames[..|frames| - 1]);
    }
  }

  // A PMK is handed over only on a key the method itself has produced, and
  // never by a provider that has failed or already finished.
  lemma PmkOnlyFromMethod<M>(em: EapMethod<M>, p: Provider<M>, frame: seq<byte>)
    ensures var o := OnFrame(em, p, frame);
            o.result.Ok? && o.result.value.Done? ==>
              && p.phase == Running && o.next.phase == Finished && em.msk(p.inner).Some?
              && o.result.value.pmk == PmkOfMsk(em.msk(p.inner).value)
  {
    hide ParseEapol, ParseEap, EncodeEapol, EncodeResponse;
  }

  datatype Input = Frame(bytes: seq<byte>) | Silence

  function Poll<M>(em: EapMethod<M>, p: Provider<M>, input: Input): Outcome<M> {
    match input
    case Frame(bytes) => OnFrame(em, p, bytes)
    case Silence => OnTimeout(p)
  }

  // A recorded run: the provider before and after each input, and its answers.
  datatype Run<M> = Run(states: seq<Provider<M>>, inputs: seq<Input>, results: seq<Result<Step, EapolError>>)

  ghost predicate StepOf<M>(em: EapMethod<M>, r: Run<M>, i: nat)
    requires i < |r.inputs| && |r.states| == |r.inputs| + 1 && |r.results| == |r.inputs|
  {
    Outcome(r.states[i + 1], r.results[i]) == Poll(em, r.states[i], r.inputs[i])
  }

  ghost predicate IsRun<M>(em: EapMethod<M>, r: Run<M>) {
    && |r.states| == |r.inputs| + 1 && |r.results| == |r.inputs|
    && forall i :: 0 <= i < |r.inputs| ==> StepOf(em, r, i)
  }

  // Whatever is put in, there is a run of it.
  lemma {:induction false} EveryInputHasARun<M>(em: EapMethod<M>, p: Provider<M>, ins: seq<Input>) returns (r: Run<M>)
    ensures IsRun(em, r) && r.states[0] == p && r.inputs == ins
  {
    hide Poll;
    if ins == [] {
      r := Run([p], [], []);
    } else {
      var n := |ins| - 1;
      var before := EveryInputHasARun(em, p, ins[..n]);
      var o := Poll(em, before.states[n], ins[n]);
      r := Run(before.states + [o.next], before.inputs + [ins[n]], before.results + [o.result]);
      assert ins[..n] + [ins[n]] == ins;
      forall i | 0 <= i < |r.inputs| ensures StepOf(em, r, i) {
        if i < n { assert StepOf(em, before, i); }
      }
    }
  }

  predicate DoneAt<M>(r: Run<M>, k: nat)
    requires k < |r.results|
  {
    r.results[k].Ok? && r.results[k].value.Done?
  }

  lemma LeavesRunning<M>(em: EapMethod<M>, p: Provider<M>, input: Input)
    ensures p.phase != Running ==> Poll(em, p, input).next.phase != Running
    ensures var o := Poll(em, p, input);
            o.result.Ok? && o.result.value.Done? ==> p.phase == Running && o.next.phase != Running
  {
    hide ParseEapol, ParseEap, OnRequest;
    if input.Frame? { PmkOnlyFromMethod(em, p, input.bytes); }
  }

  // A provider that has finished or failed never runs again.
  lemma {:induction false} NeverRunsAgain<M>(em: EapMethod<M>, r: Run<M>, j: nat, k: nat)
    requires IsRun(em, r) && j <= k < |r.states| && r.states[j].phase != Running
    ensures r.states[k].phase != Running
    decreases k
  {
    hide Poll;
    if j < k {
      NeverRunsAgain(em, r, j, k - 1);
      assert StepOf(em, r, k - 1);
      LeavesRunning(em, r.states[k - 1], r.inputs[k - 1]);
    }
  }

  // In every run a PMK is handed over at most once, and after an end of either
  // kind not at all.
  lemma PmkAtMostOnce<M>(em: EapMethod<M>, r: Run<M>, j: nat, k: nat)
    requires IsRun(em, r) && j < k < |r.inputs|
    requires DoneAt(r, j) || r.states[j].phase != Running
    ensures !DoneAt(r, k)
  {
    hide Poll;
    assert StepOf(em, r, j) && StepOf(em, r, k);
    LeavesRunning(em, r.states[j], r.inputs[j]);
    LeavesRunning(em, r.states[k], r.inputs[k]);
    NeverRunsAgain(em, r, j + 1, k);
  }
}
