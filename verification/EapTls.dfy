// A TLS-based EAP method over the fragment exchange, driven by the 802.1X
// provider: a whole flight crosses to the authenticator through lost and
// repeated requests (crates/caw-eapol/src/eap/frag.rs, dot1x.rs).

module EapTls {
  import opened Bytes
  import opened Eapol
  import F = EapFragments
  import opened Dot1x

  // Small enough that flags, length and fragment fit one EAP packet.
  const MAX_FRAGMENT: nat := 0xffff - EAP_HEADER - 1 - 5

  type Framing = e: F.Exchange | e.Valid() && e.outbound.size <= MAX_FRAGMENT witness F.NewExchange(1, false)

  // The TLS stack: what it has to say to a message, or on its own at a start.
  datatype TlsStack<!T> = TlsStack(typeCode: byte, answer: (T, Option<seq<byte>>) -> (T, Result<F.Flight, EapolError>), msk: T -> Option<Octets64>)

  datatype Tls<T> = Tls(framing: Framing, stack: T)

  // A start says nothing to the stack; only a complete message does.
  function Heard(incoming: F.Incoming): Option<seq<byte>> {
    if incoming.Message? then Some(incoming.tls) else None
  }

  // What a request amounts to for the TLS stack: nothing, a start, or a message.
  function Spoken<T>(ts: TlsStack<T>, m: Tls<T>, data: seq<byte>): Option<F.Flight> {
    var h := F.OnRequest(m.framing, data);
    if h.result.Err? || h.result.value.Reply? then None
    else
      var out := ts.answer(m.stack, Heard(h.result.value)).1;
      if out.Err? then None else Some(out.value)
  }

  // Send the flight, or an empty packet when there is none.
  function Flush<T>(framing: Framing, stack: T, out: F.Flight): (Tls<T>, Result<Option<TypeData>, EapolError>) {
    var (sent, first) := F.Send(framing, out);
    SendFits(framing, out);
    (Tls(sent, stack), Ok(Some(if first.Some? then first.value else [framing.baseFlags])))
  }

  function Step<T>(ts: TlsStack<T>, m: Tls<T>, data: seq<byte>): (Tls<T>, Result<Option<TypeData>, EapolError>) {
    var h := F.OnRequest(m.framing, data);
    RequestFits(m.framing, data);
    if h.result.Err? then (Tls(h.next, m.stack), Err(h.result.error))
    else
      match h.result.value
      case Reply(bytes) => (Tls(h.next, m.stack), Ok(Some(bytes)))
      case _ =>
        var (stack, out) := ts.answer(m.stack, Heard(h.result.value));
        if out.Err? then (Tls(h.next, stack), Err(out.error)) else Flush(h.next, stack, out.value)
  }

  function MethodOf<T>(ts: TlsStack<T>): EapMethod<Tls<T>> {
    EapMethod(ts.typeCode, (m: Tls<T>, data: seq<byte>) => Step(ts, m, data), (m: Tls<T>) => ts.msk(m.stack))
  }

  lemma PieceFits(o: F.Outgoing, baseFlags: byte)
    requires o.Valid() && o.size <= MAX_FRAGMENT
    ensures var (n, piece) := F.Next(o, baseFlags);
            n.Valid() && n.size == o.size && (piece.None? <==> o.Spent()) && (piece.Some? ==> |piece.value| <= 0xffff - EAP_HEADER - 1)
  {
    hide F.Or, ToBE32;
  }

  lemma SendFits(framing: Framing, out: F.Flight)
    ensures var (sent, first) := F.Send(framing, out);
            sent.outbound.size <= MAX_FRAGMENT && (first.Some? ==> |first.value| <= 0xffff - EAP_HEADER - 1)
  {
    PieceFits(framing.outbound.(pending := out, sent := 0), framing.baseFlags);
  }

  lemma RequestFits(framing: Framing, data: seq<byte>)
    ensures var h := F.OnRequest(framing, data);
            && h.next.outbound.size <= MAX_FRAGMENT
            && (h.result.Ok? && h.result.value.Reply? ==> |h.result.value.typeData| <= 0xffff - EAP_HEADER - 1)
  {
    hide F.Next, F.ParseFragment, F.Push;
    var f := F.ParseFragment(data);
    if f.Ok? {
      var n := if framing.mirrorVersion then framing.(baseFlags := f.value.Version()) else framing;
      PieceFits(n.outbound, n.baseFlags);
      if !f.value.Start() && !n.outbound.Spent() && f.value.data == [] {
        assert F.OnRequest(framing, data).result == Ok(F.Reply(F.Next(n.outbound, n.baseFlags).1.value));
      } else {
        var h := F.OnRequest(framing, data);
        assert h.result.Ok? && h.result.value.Reply? ==> h.result.value.typeData == [n.baseFlags];
      }
    }
  }

  lemma TlsAlwaysAnswers<T(!new)>(ts: TlsStack<T>)
    ensures AlwaysAnswers(MethodOf(ts))
  {
    forall m: Tls<T>, data: seq<byte>
      ensures var r := MethodOf(ts).step(m, data).1; r.Ok? ==> r.value.Some?
    {
      hide F.OnRequest, F.Send;
    }
  }

  // ---- one flight --------------------------------------------------------------------

  // An authenticator's request of this method under a new identifier.
  predicate Asks<T>(ts: TlsStack<T>, p: Provider<Tls<T>>, frame: seq<byte>) {
    && RequestIn(frame).Some?
    && RequestIn(frame).value.Kind() == Some(ts.typeCode)
    && p.answered != Some(RequestIn(frame).value.identifier)
  }

  // What the authenticator takes out of a frame sent in answer to a request.
  function AnswerTo(request: seq<byte>, frame: seq<byte>): Option<seq<byte>> {
    var eapol := ParseEapol(frame);
    if RequestIn(request).None? || eapol.Err? || eapol.value.packetType != EapPacketType then None
    else
      var packet := ParseEap(eapol.value.body);
      var asked := RequestIn(request).value;
      if packet.Ok? && packet.value.code == Response && packet.value.identifier == asked.identifier
         && packet.value.Kind() == asked.Kind()
      then Some(packet.value.TypeData()) else None
  }

  predicate Plain(ts: byte) {
    ts !in {IDENTITY, NOTIFICATION}
  }

  // A request of the method is passed to it, and the answer reads back.
  lemma AskedAndAnswered<T(!new)>(ts: TlsStack<T>, p: Provider<Tls<T>>, frame: seq<byte>)
    requires Plain(ts.typeCode) && p.phase == Running && Asks(ts, p, frame)
    requires Step(ts, p.inner, RequestIn(frame).value.TypeData()).1.Ok?
    ensures var o := OnFrame(MethodOf(ts), p, frame);
            var (inner, answer) := Step(ts, p.inner, RequestIn(frame).value.TypeData());
            && o.next.phase == Running && o.next.inner == inner
            && o.next.answered == Some(RequestIn(frame).value.identifier)
            && answer.value.Some?
            && o.result.Ok? && o.result.value.Send?
            && AnswerTo(frame, o.result.value.frame) == answer.value
  {
    hide Step, ParseEapol, ParseEap, EncodeEapol, EncodeResponse;
    TlsAlwaysAnswers(ts);
    var request := RequestIn(frame).value;
    var (inner, answer) := MethodOf(ts).step(p.inner, request.TypeData());
    assert (inner, answer) == Step(ts, p.inner, request.TypeData());
    var typeData: TypeData := answer.value.value;
    var version := ParseEapol(frame).value.version;
    var body := EncodeResponse(request.identifier, ts.typeCode, typeData);
    var sent := EncodeEapol(version, EapPacketType, body);
    EapolRoundTrip(version, EapPacketType, body, []);
    ResponseReads(request.identifier, ts.typeCode, typeData, []);
    assert sent + [] == sent && body + [] == body;
    assert ([ts.typeCode] + typeData)[1..] == typeData;
  }

  // The conversation of one flight: a request that makes the stack speak, then
  // acknowledgements, each under an identifier other than the last.
  ghost predicate Conversation<T(!new)>(ts: TlsStack<T>, p: Provider<Tls<T>>, frames: seq<seq<byte>>, flight: F.Flight) {
    && frames != [] && p.phase == Running && Plain(ts.typeCode)
    && (forall i :: 0 <= i < |frames| ==> RequestIn(frames[i]).Some? && RequestIn(frames[i]).value.Kind() == Some(ts.typeCode))
    && Asks(ts, p, frames[0]) && Spoken(ts, p.inner, RequestIn(frames[0]).value.TypeData()) == Some(flight)
    && (forall i :: 0 < i < |frames| ==>
          && RequestIn(frames[i]).value.identifier != RequestIn(frames[i - 1]).value.identifier
          && F.IsAck(RequestIn(frames[i]).value.TypeData()))
  }

  function Acks(frames: seq<seq<byte>>): (acks: seq<seq<byte>>)
    requires frames != []
    ensures |acks| == |frames| - 1
    ensures forall i :: 0 <= i < |acks| ==>
              acks[i] == if RequestIn(frames[i + 1]).Some? then RequestIn(frames[i + 1]).value.TypeData() else []
  {
    seq(|frames| - 1, i requires 0 <= i < |frames| - 1 =>
      if RequestIn(frames[i + 1]).Some? then RequestIn(frames[i + 1]).value.TypeData() else [])
  }

  // The framing as it stands when the flight is queued.
  function Opening<T>(p: Provider<Tls<T>>, frame: seq<byte>): F.Exchange
    requires RequestIn(frame).Some?
  {
    F.OnRequest(p.inner.framing, RequestIn(frame).value.TypeData()).next
  }

  // The provider after k + 1 of the frames is where the bare exchange would be,
  // and has answered with what the bare exchange would have sent.
  lemma {:induction false} FollowsTheExchange<T(!new)>(ts: TlsStack<T>, p: Provider<Tls<T>>, frames: seq<seq<byte>>, flight: F.Flight, k: nat)
    requires Conversation(ts, p, frames, flight) && flight != []
    requires k < |frames| && |frames| <= F.Pieces(|flight|, p.inner.framing.outbound.size)
    ensures var q := After(MethodOf(ts), p, frames[..k + 1]);
            var opening := Opening(p, frames[0]);
            && opening.outbound.size == p.inner.framing.outbound.size
            && q.phase == Running && q.answered == Some(RequestIn(frames[k]).value.identifier)
            && q.inner.framing == F.After(F.Send(opening, flight).0, Acks(frames)[..k])
            && OnFrame(MethodOf(ts), After(MethodOf(ts), p, frames[..k]), frames[k]).result.Ok?
            && var step := OnFrame(MethodOf(ts), After(MethodOf(ts), p, frames[..k]), frames[k]).result.value;
               step.Send? && F.Wire(opening, flight, Acks(frames), k).Some?
               && AnswerTo(frames[k], step.frame) == F.Wire(opening, flight, Acks(frames), k)
  {
    hide OnFrame, RequestIn, F.OnRequest, F.Send, F.Pieces, F.IsAck, F.Handing, F.Wire, AnswerTo, MethodOf, F.PieceAt;
    var em := MethodOf(ts);
    assert frames[..k + 1][..k] == frames[..k];
    if k == 0 {
      assert frames[..0] == [];
      FirstStep(ts, p, frames, flight);
      AskedAndAnswered(ts, p, frames[0]);
    } else {
      FollowsTheExchange(ts, p, frames, flight, k - 1);
      var before := After(em, p, frames[..k]);
      NextStep(ts, before, Opening(p, frames[0]), frames, flight, k);
      AskedAndAnswered(ts, before, frames[k]);
    }
  }

  // The first answer is the first fragment.
  lemma FirstStep<T(!new)>(ts: TlsStack<T>, p: Provider<Tls<T>>, frames: seq<seq<byte>>, flight: F.Flight)
    requires Conversation(ts, p, frames, flight) && flight != []
    ensures var opening := Opening(p, frames[0]);
            var (inner, answer) := Step(ts, p.inner, RequestIn(frames[0]).value.TypeData());
            && opening.outbound.size == p.inner.framing.outbound.size
            && inner.framing == F.After(F.Send(opening, flight).0, Acks(frames)[..0])
            && answer.Ok? && answer.value == F.Wire(opening, flight, Acks(frames), 0)
  {
    hide RequestIn, F.IsAck, F.Piece, F.Push, F.ParseFragment;
  }

  // Each later answer is the next fragment.
  lemma NextStep<T(!new)>(ts: TlsStack<T>, before: Provider<Tls<T>>, opening: F.Exchange, frames: seq<seq<byte>>, flight: F.Flight, k: nat)
    requires 0 < k < |frames| && opening.Valid() && flight != []
    requires forall i :: 0 <= i < |Acks(frames)| ==> F.IsAck(Acks(frames)[i])
    requires |frames| <= F.Pieces(|flight|, opening.outbound.size)
    requires before.inner.framing == F.After(F.Send(opening, flight).0, Acks(frames)[..k - 1])
    ensures var (inner, answer) := Step(ts, before.inner, Acks(frames)[k - 1]);
            && inner.framing == F.After(F.Send(opening, flight).0, Acks(frames)[..k])
            && answer.Ok? && answer.value == F.Wire(opening, flight, Acks(frames), k)
  {
    hide RequestIn, F.OnRequest, F.Send, F.Pieces, F.IsAck, F.Handing, F.PieceAt, Acks;
    var acks, size := Acks(frames), opening.outbound.size;
    F.HandsOut(opening, flight, acks, k - 1);
    F.AckTakesNext(before.inner.framing, flight, size, k, acks[k - 1]);
    assert acks[..k][..k - 1] == acks[..k - 1];
  }

  // What the authenticator has put together from the first k answers.
  function Gathered<T>(em: EapMethod<Tls<T>>, p: Provider<Tls<T>>, turns: seq<Turn>, k: nat): F.Pushed
    requires k <= |turns|
  {
    if k == 0 then F.Pushed(F.NOTHING, Ok(None))
    else
      var r := Gathered(em, p, turns, k - 1);
      var o := OnFrame(em, After(em, p, Flatten(turns[..k - 1])), turns[k - 1].frame);
      var answer := if o.result.Ok? && o.result.value.Send? then AnswerTo(turns[k - 1].frame, o.result.value.frame) else None;
      var f := if answer.Some? then F.ParseFragment(answer.value) else Err(Malformed);
      if f.Err? then F.Pushed(r.next, Err(f.error)) else F.Push(r.next, f.value)
  }

  lemma {:induction false} GathersTheWire<T(!new)>(ts: TlsStack<T>, p: Provider<Tls<T>>, turns: seq<Turn>, flight: F.Flight, k: nat)
    requires forall i :: 0 <= i < |turns| ==> HonestTurn(turns[i])
    requires Conversation(ts, p, Firsts(turns), flight) && flight != []
    requires k <= |turns| <= F.Pieces(|flight|, p.inner.framing.outbound.size)
    ensures Gathered(MethodOf(ts), p, turns, k) == F.Received(Opening(p, turns[0].frame), flight, Acks(Firsts(turns)), k)
  {
    hide OnFrame, RequestIn, F.OnRequest, F.Send, F.Pieces, F.IsAck, F.Handing, F.Wire, AnswerTo, MethodOf, F.PieceAt,
      AlwaysAnswers, HonestTurn, Conversation, F.After;
    var em, frames := MethodOf(ts), Firsts(turns);
    ConversationHas(ts, p, frames, flight);
    if k > 0 {
      GathersTheWire(ts, p, turns, flight, k - 1);
      TlsAlwaysAnswers(ts);
      RepeatsAreInvisible(em, p, turns[..k - 1]);
      FirstsOfSome(turns, k - 1);
      FollowsTheExchange(ts, p, frames, flight, k - 1);
    }
  }

  lemma ConversationHas<T(!new)>(ts: TlsStack<T>, p: Provider<Tls<T>>, frames: seq<seq<byte>>, flight: F.Flight)
    requires Conversation(ts, p, frames, flight)
    ensures frames != [] && RequestIn(frames[0]).Some?
  {
  }

  lemma FirstsOfSome(turns: seq<Turn>, k: nat)
    requires k <= |turns|
    ensures Firsts(turns[..k]) == Firsts(turns)[..k]
  {
    assert |Firsts(turns[..k])| == |Firsts(turns)[..k]|;
  }

  // One flight, of any length up to the ceiling and at any fragment size an
  // EAP packet holds, over a link that loses answers: each request is repeated
  // any number of times before the next, and the authenticator still ends up
  // with exactly the flight, after as many turns as there are fragments.
  lemma FlightCrosses<T(!new)>(ts: TlsStack<T>, p: Provider<Tls<T>>, turns: seq<Turn>, flight: F.Flight)
    requires forall i :: 0 <= i < |turns| ==> HonestTurn(turns[i])
    requires Conversation(ts, p, Firsts(turns), flight)
    requires 1 <= |flight| <= F.MAX_TLS_MESSAGE
    requires |turns| == F.Pieces(|flight|, p.inner.framing.outbound.size)
    ensures Gathered(MethodOf(ts), p, turns, |turns|) == F.Pushed(F.NOTHING, Ok(Some(flight)))
    ensures forall k :: 0 <= k < |turns| ==> Gathered(MethodOf(ts), p, turns, k).result == Ok(None)
    ensures After(MethodOf(ts), p, Flatten(turns)).inner.framing.outbound.Spent()
  {
    hide OnFrame, F.OnRequest, F.Send, F.Pieces, F.IsAck, F.Handing, F.Wire, AnswerTo, MethodOf, F.PieceAt, AlwaysAnswers,
      HonestTurn, F.After, Gathered, F.Received, F.Push, RequestIn, F.Bounded, F.Offset, F.ParseFragment;
    var em, frames := MethodOf(ts), Firsts(turns);
    var acks := Acks(frames);
    FirstStep(ts, p, frames, flight);
    var opening := Opening(p, frames[0]);
    F.MessageArrives(opening, flight, acks);
    GathersTheWire(ts, p, turns, flight, |turns|);
    forall k | 0 <= k < |turns| ensures Gathered(em, p, turns, k).result == Ok(None) {
      GathersTheWire(ts, p, turns, flight, k);
    }
    TlsAlwaysAnswers(ts);
    RepeatsAreInvisible(em, p, turns);
    FollowsTheExchange(ts, p, frames, flight, |turns| - 1);
    assert frames[..|turns|] == frames && acks[..|turns| - 1] == acks;
  }
}
