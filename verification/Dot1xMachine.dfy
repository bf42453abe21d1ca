// The 802.1X provider as the object the connection holds.

module Dot1xMachine {
  import opened Bytes
  import opened Eapol
  import D = Dot1x
  import opened Dot1x

  class Dot1xProvider<!M> {
    const em: EapMethod<M>
    const identity: TypeData
    var inner: M
    var phase: Phase
    var lastResponse: Option<seq<byte>>
    var answered: Option<byte>
    var version: byte
    var idleRounds: nat

    ghost function Now(): Provider<M>
      reads this
    {
      Provider(identity, inner, phase, lastResponse, answered, version, idleRounds)
    }

    constructor (em: EapMethod<M>, identity: TypeData, inner: M)
      ensures Now() == NewProvider(identity, inner) && this.em == em
    {
      this.em, this.identity, this.inner := em, identity, inner;
      phase, lastResponse, answered, version, idleRounds := Running, None, None, 2, 0;
    }

    // The EAPOL frame around a response, kept as the answer to repeats.
    method Reply(identifier: byte, kind: byte, typeData: TypeData) returns (r: Result<Step, EapolError>)
      modifies this
      ensures Outcome(Now(), r) == D.Reply(old(Now()), identifier, kind, typeData)
    {
      var frame := EncodeEapol(version, EapPacketType, EncodeResponse(identifier, kind, typeData));
      lastResponse, answered, idleRounds := Some(frame), Some(identifier), 0;
      r := Ok(Send(frame));
    }

    method OnRequest(request: EapPacket) returns (r: Result<Step, EapolError>)
      modifies this
      ensures Outcome(Now(), r) == D.OnRequest(em, old(Now()), request)
    {
      hide EncodeEapol, EncodeResponse;
      var kind := request.Kind();
      if kind.None? { return Err(Malformed); }
      if kind.value == IDENTITY {
        r := Reply(request.identifier, IDENTITY, identity);
      } else if kind.value == NOTIFICATION {
        r := Reply(request.identifier, NOTIFICATION, []);
      } else if kind.value != em.typeCode {
        r := Reply(request.identifier, NAK, [em.typeCode]);
      } else {
        var (next, answer) := em.step(inner, request.TypeData());
        inner := next;
        if answer.Err? { return Err(answer.error); }
        if answer.value.None? { return Ok(Wait); }
        r := Reply(request.identifier, em.typeCode, answer.value.value);
      }
    }

    method OnEap(packet: EapPacket) returns (r: Result<Step, EapolError>)
      modifies this
      ensures Outcome(Now(), r) == D.OnEap(em, old(Now()), packet)
    {
      hide D.OnRequest;
      match packet.code {
        case Response => r := Ok(Wait);
        case Request =>
          if answered == Some(packet.identifier) && lastResponse.Some? {
            idleRounds := 0;
            return Ok(Send(lastResponse.value));
          }
          r := OnRequest(packet);
        case Success =>
          var msk := em.msk(inner);
          if msk.None? { return Err(PrematureSuccess); }
          phase, lastResponse := Finished, None;
          r := Ok(Done(PmkOfMsk(msk.value)));
        case Failure => r := Err(Rejected);
      }
    }

    method Read(frame: seq<byte>) returns (r: Result<Step, EapolError>)
      modifies this
      ensures Outcome(Now(), r) == D.Read(em, old(Now()), frame)
    {
      hide ParseEapol, ParseEap, D.OnEap;
      var eapol := ParseEapol(frame);
      if eapol.Err? { return Err(eapol.error); }
      if eapol.value.packetType != EapPacketType { return Ok(Wait); }
      if phase != Running { return Err(UnexpectedMessage); }
      version := eapol.value.version;
      if |eapol.value.body| < EAP_HEADER { return Ok(Wait); }
      var packet := ParseEap(eapol.value.body);
      if packet.Err? { return Err(packet.error); }
      r := OnEap(packet.value);
    }

    method OnFrame(frame: seq<byte>) returns (r: Result<Step, EapolError>)
      modifies this
      ensures Outcome(Now(), r) == D.OnFrame(em, old(Now()), frame)
    {
      hide D.Read;
      r := Read(frame);
      if r.Err? {
        phase := Failed;
      }
    }

    method OnTimeout() returns (r: Result<Step, EapolError>)
      modifies this
      ensures Outcome(Now(), r) == D.OnTimeout(old(Now()))
    {
      if phase != Running { return Err(UnexpectedMessage); }
      idleRounds := idleRounds + 1;
      if idleRounds > RETRY_LIMIT {
        phase := Failed;
        return Err(EapolError.Timeout);
      }
      r := Ok(Wait);
    }
  }
}
