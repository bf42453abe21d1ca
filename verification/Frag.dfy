// Cutting a TLS message into EAP packets and putting it together again
// (crates/caw-eapol/src/eap/frag.rs; section 3.1 of RFC 5216).

module EapFragments {
  import opened Bytes
  import opened Eapol

  const FLAG_LENGTH_INCLUDED: nat := 0x80
  const FLAG_MORE_FRAGMENTS: nat := 0x40
  const FLAG_START: nat := 0x20
  const VERSION_MASK: nat := 0x07
  const MAX_TLS_MESSAGE: nat := 0x1_0000

  // What a 32-bit length can declare.
  type Flight = s: seq<byte> | |s| < 0x1_0000_0000 witness []

  datatype Fragment = Fragment(flags: byte, declared: Option<u32>, data: seq<byte>) {
    predicate More() { Bit(flags, FLAG_MORE_FRAGMENTS) }

    predicate Start() { Bit(flags, FLAG_START) }

    function Version(): (v: byte)
      ensures v <= VERSION_MASK
    {
      flags % (VERSION_MASK + 1)
    }
  }

  function ParseFragment(typeData: seq<byte>): Result<Fragment, EapolError> {
    if typeData == [] then Err(Malformed)
    else if !Bit(typeData[0], FLAG_LENGTH_INCLUDED) then Ok(Fragment(typeData[0], None, typeData[1..]))
    else if |typeData| < 5 then Err(Malformed)
    else Ok(Fragment(typeData[0], Some(BE32(typeData[1..5])), typeData[5..]))
  }

  // ---- receiving ------------------------------------------------------------------

  datatype Assembly = Assembly(buf: seq<byte>, declared: Option<nat>) {
    predicate InProgress() { declared.Some? || buf != [] }
  }

  const NOTHING: Assembly := Assembly([], None)

  datatype Pushed = Pushed(next: Assembly, result: Result<Option<seq<byte>>, EapolError>)

  function Push(r: Assembly, f: Fragment): Pushed {
    if f.declared.Some? && r.InProgress() then Pushed(r, Err(FragmentOutOfOrder))
    else if f.declared.Some? && f.declared.value > MAX_TLS_MESSAGE then Pushed(r, Err(FragmentTooLarge))
    else if f.declared.None? && !r.InProgress() && f.More() then Pushed(r, Err(FragmentOutOfOrder))
    else
      var declared: Option<nat> := if f.declared.Some? then Some(f.declared.value) else r.declared;
      var buf := r.buf + f.data;
      if |buf| > declared.GetOr(MAX_TLS_MESSAGE) then Pushed(NOTHING, Err(FragmentTooLarge))
      else if f.More() then Pushed(Assembly(buf, declared), Ok(None))
      else if declared.Some? && |buf| != declared.value then Pushed(NOTHING, Err(FragmentTooLarge))
      else Pushed(NOTHING, Ok(Some(buf)))
  }

  // What a peer can make the receiver hold, whatever it sends: no more than it
  // declared, and never more than the ceiling.
  predicate Bounded(r: Assembly) {
    |r.buf| <= r.declared.GetOr(MAX_TLS_MESSAGE) <= MAX_TLS_MESSAGE
  }

  lemma PushKeepsBounded(r: Assembly, f: Fragment)
    requires Bounded(r)
    ensures Bounded(Push(r, f).next)
    ensures var p := Push(r, f);
            p.result.Ok? && p.result.value.Some? ==>
              && p.next == NOTHING && p.result.value.value == r.buf + f.data
              && (r.declared.Some? ==> |p.result.value.value| == r.declared.value)
  {
  }

  // ---- sending --------------------------------------------------------------------

  datatype Outgoing = Outgoing(pending: Flight, sent: nat, size: nat) {
    predicate Valid() { size > 0 }

    predicate Spent() { sent >= |pending| }
  }

  function Or(flags: byte, mask: byte): byte
    requires mask == FLAG_LENGTH_INCLUDED || mask == FLAG_MORE_FRAGMENTS
  {
    if Bit(flags, mask) then flags else flags + mask
  }

  function Fewer(a: nat, b: nat): nat {
    if a <= b then a else b
  }

  // One fragment's Type-Data: with the total length exactly when more than one
  // is needed and this one starts the message.
  function Piece(message: Flight, from: nat, upto: nat, baseFlags: byte): seq<byte>
    requires from <= upto <= |message|
  {
    var flags := if upto < |message| then Or(baseFlags, FLAG_MORE_FRAGMENTS) else baseFlags;
    var chunk := message[from..upto];
    if from == 0 && upto < |message| then [Or(flags, FLAG_LENGTH_INCLUDED)] + ToBE32(|message|) + chunk
    else [flags] + chunk
  }

  function Next(o: Outgoing, baseFlags: byte): (Outgoing, Option<seq<byte>>)
    requires o.Valid()
  {
    if o.Spent() then (o, None)
    else
      var end := Fewer(o.sent + o.size, |o.pending|);
      (o.(sent := end), Some(Piece(o.pending, o.sent, end, baseFlags)))
  }

  // ---- the lock-step of both --------------------------------------------------------

  datatype Exchange = Exchange(inbound: Assembly, outbound: Outgoing, baseFlags: byte, mirrorVersion: bool) {
    predicate Valid() { outbound.Valid() && baseFlags <= VERSION_MASK }
  }

  datatype Incoming = Restart | Reply(typeData: seq<byte>) | Message(tls: seq<byte>)

  datatype Handled = Handled(next: Exchange, result: Result<Incoming, EapolError>)

  function NewExchange(size: nat, mirrorVersion: bool): (e: Exchange)
    ensures e.Valid()
  {
    Exchange(NOTHING, Outgoing([], 0, if size > 0 then size else 1), 0, mirrorVersion)
  }

  function OnRequest(e: Exchange, typeData: seq<byte>): (h: Handled)
    requires e.Valid()
    ensures h.next.Valid()
  {
    var parsed := ParseFragment(typeData);
    if parsed.Err? then Handled(e, Err(parsed.error))
    else
      var f := parsed.value;
      var n := if e.mirrorVersion then e.(baseFlags := f.Version()) else e;
      if f.Start() then Handled(n.(inbound := NOTHING), Ok(Restart))
      else if !n.outbound.Spent() then
        if f.data != [] then Handled(n, Err(FragmentOutOfOrder))
        else
          var (outbound, next) := Next(n.outbound, n.baseFlags);
          Handled(n.(outbound := outbound), Ok(Reply(next.value)))
      else
        var p := Push(n.inbound, f);
        Handled(n.(inbound := p.next),
                if p.result.Err? then Err(p.result.error)
                else if p.result.value.None? then Ok(Reply([n.baseFlags]))
                else Ok(Message(p.result.value.value)))
  }

  function Send(e: Exchange, message: Flight): (r: (Exchange, Option<seq<byte>>))
    requires e.Valid()
    ensures r.0.Valid()
  {
    if message == [] then (e, None)
    else
      var (outbound, first) := Next(e.outbound.(pending := message, sent := 0), e.baseFlags);
      (e.(outbound := outbound), first)
  }

  // Whatever an unauthenticated peer sends, an exchange never holds more than
  // the length that peer declared, nor more than the ceiling.
  lemma {:induction false} NeverHoldsMore(e: Exchange, requests: seq<seq<byte>>)
    requires e.Valid() && Bounded(e.inbound)
    ensures Bounded(After(e, requests).inbound)
  {
    hide Push, ParseFragment, Next, Bounded;
    if requests != [] {
      var before, last := After(e, requests[..|requests| - 1]), requests[|requests| - 1];
      NeverHoldsMore(e, requests[..|requests| - 1]);
      EmptyIsBounded();
      if ParseFragment(last).Ok? { PushKeepsBounded(before.inbound, ParseFragment(last).value); }
    }
  }

  lemma EmptyIsBounded()
    ensures Bounded(NOTHING)
  {
  }

  // ---- one message, fragment by fragment ---------------------------------------------

  // How many fragments a message takes.
  function Pieces(n: nat, size: nat): nat
    requires size > 0
  {
    (n + size - 1) / size
  }

  // Where the k-th fragment starts.
  function Offset(n: nat, size: nat, k: nat): nat {
    Fewer(k * size, n)
  }

  lemma OffsetSteps(n: nat, size: nat, k: nat)
    requires size > 0
    ensures Offset(n, size, k + 1) == Fewer(Offset(n, size, k) + size, n)
    ensures k < Pieces(n, size) <==> Offset(n, size, k) < n
    ensures Offset(n, size, 0) == 0
  {
    assert (k + 1) * size == k * size + size;
    var p := Pieces(n, size);
    assert p * size <= n + size - 1 < p * size + size by { DivisionBounds(n + size - 1, size); }
    if k < p { Scaled(k + 1, p, size); } else { Scaled(p, k, size); }
  }

  lemma DivisionBounds(a: nat, b: nat)
    requires b > 0
    ensures a / b * b <= a < a / b * b + b
  {
  }

  lemma Scaled(a: nat, b: nat, c: nat)
    requires a <= b
    ensures a * c <= b * c
  {
  }

  lemma OrSets(flags: byte)
    requires flags <= VERSION_MASK
    ensures !Bit(flags, FLAG_MORE_FRAGMENTS) && !Bit(flags, FLAG_LENGTH_INCLUDED) && !Bit(flags, FLAG_START)
    ensures Or(flags, FLAG_MORE_FRAGMENTS) == flags + 0x40
    ensures Bit(flags + 0x40, FLAG_MORE_FRAGMENTS) && !Bit(flags + 0x40, FLAG_LENGTH_INCLUDED) && !Bit(flags + 0x40, FLAG_START)
    ensures Or(flags + 0x40, FLAG_LENGTH_INCLUDED) == flags + 0xc0
    ensures Bit(flags + 0xc0, FLAG_MORE_FRAGMENTS) && Bit(flags + 0xc0, FLAG_LENGTH_INCLUDED) && !Bit(flags + 0xc0, FLAG_START)
  {
  }

  // A fragment reads back as what it was cut from.
  lemma PieceReads(message: Flight, from: nat, upto: nat, baseFlags: byte)
    requires from < upto <= |message| && baseFlags <= VERSION_MASK
    ensures var f := ParseFragment(Piece(message, from, upto, baseFlags));
            && f.Ok? && f.value.data == message[from..upto] && !f.value.Start()
            && (f.value.More() <==> upto < |message|)
            && f.value.declared == if from == 0 && upto < |message| then Some(|message|) else None
  {
    hide Bit, Or, ToBE32, BE32;
    OrSets(baseFlags);
    var p := Piece(message, from, upto, baseFlags);
    if from == 0 && upto < |message| {
      assert p == [baseFlags + 0xc0] + ToBE32(|message|) + message[from..upto];
      Spliced([baseFlags + 0xc0], ToBE32(|message|), message[from..upto]);
      BE32OfToBE32(|message|);
    }
  }

  // What the receiver holds after k fragments.
  function Holding(message: seq<byte>, size: nat, k: nat): Assembly {
    if k == 0 then NOTHING else Assembly(message[..Offset(|message|, size, k)], Some(|message|))
  }

  function PieceAt(message: Flight, size: nat, k: nat, baseFlags: byte): seq<byte>
    requires size > 0
  {
    OffsetSteps(|message|, size, k);
    Piece(message, Offset(|message|, size, k), Offset(|message|, size, k + 1), baseFlags)
  }

  lemma PushPiece(message: Flight, size: nat, k: nat, baseFlags: byte)
    requires size > 0 && |message| <= MAX_TLS_MESSAGE && k < Pieces(|message|, size) && baseFlags <= VERSION_MASK
    ensures var f := ParseFragment(PieceAt(message, size, k, baseFlags));
            && f.Ok?
            && Push(Holding(message, size, k), f.value) ==
                 if k + 1 < Pieces(|message|, size) then Pushed(Holding(message, size, k + 1), Ok(None))
                 else Pushed(NOTHING, Ok(Some(message)))
  {
    hide Pieces, Offset, Piece, ParseFragment, Bit;
    var from, upto := Offset(|message|, size, k), Offset(|message|, size, k + 1);
    OffsetSteps(|message|, size, k);
    OffsetSteps(|message|, size, k + 1);
    PieceReads(message, from, upto, baseFlags);
    if k == 0 {
      OffsetSteps(|message|, size, 0);
      assert [] + message[0..upto] == message[..upto];
    } else {
      FirstIsShort(message, size, k);
      assert message[..from] + message[from..upto] == message[..upto];
    }
    assert message[..|message|] == message;
  }

  // A fragment that is not the first does not start at the front.
  lemma FirstIsShort(message: seq<byte>, size: nat, k: nat)
    requires size > 0 && 0 < k && message != []
    ensures 0 < Offset(|message|, size, k)
  {
    Scaled(1, k, size);
  }

  // ---- a whole message in lock-step ------------------------------------------------

  // An acknowledgement: a well-formed packet that neither starts nor carries
  // anything. Its version bits are whatever the peer likes.
  predicate IsAck(typeData: seq<byte>) {
    var f := ParseFragment(typeData);
    f.Ok? && !f.value.Start() && f.value.data == []
  }

  function After(e: Exchange, requests: seq<seq<byte>>): (r: Exchange)
    requires e.Valid()
    ensures r.Valid()
  {
    if requests == [] then e else OnRequest(After(e, requests[..|requests| - 1]), requests[|requests| - 1]).next
  }

  // What goes out: the first fragment, then the reply to each request.
  function Wire(e: Exchange, message: Flight, requests: seq<seq<byte>>, k: nat): Option<seq<byte>>
    requires e.Valid() && k <= |requests|
  {
    var (begun, first) := Send(e, message);
    if k == 0 then first
    else
      var h := OnRequest(After(begun, requests[..k - 1]), requests[k - 1]);
      if h.result.Ok? && h.result.value.Reply? then Some(h.result.value.typeData) else None
  }

  // The receiver's buffer after the first k of those.
  function Received(e: Exchange, message: Flight, requests: seq<seq<byte>>, k: nat): Pushed
    requires e.Valid() && k <= |requests| + 1
  {
    if k == 0 then Pushed(NOTHING, Ok(None))
    else
      var r := Received(e, message, requests, k - 1);
      var wire := Wire(e, message, requests, k - 1);
      var f := if wire.Some? then ParseFragment(wire.value) else Err(Malformed);
      if f.Err? then Pushed(r.next, Err(f.error)) else Push(r.next, f.value)
  }

  // The sender has handed out k fragments of `message`.
  predicate Handing(e: Exchange, message: Flight, size: nat, k: nat) {
    && e.Valid() && size > 0 && message != []
    && e.outbound == Outgoing(message, Offset(|message|, size, k), size)
  }

  lemma AckTakesNext(e: Exchange, message: Flight, size: nat, k: nat, ack: seq<byte>)
    requires Handing(e, message, size, k) && k < Pieces(|message|, size) && IsAck(ack)
    ensures var h := OnRequest(e, ack);
            && Handing(h.next, message, size, k + 1) && h.next.inbound == e.inbound
            && h.result == Ok(Reply(PieceAt(message, size, k, h.next.baseFlags)))
  {
    hide Pieces, Offset, Piece, ParseFragment, Bit;
    OffsetSteps(|message|, size, k);
  }

  lemma {:induction false} HandsOut(e: Exchange, message: Flight, requests: seq<seq<byte>>, k: nat)
    requires e.Valid() && message != []
    requires forall i :: 0 <= i < |requests| ==> IsAck(requests[i])
    requires k <= |requests| && k < Pieces(|message|, e.outbound.size)
    ensures var after := After(Send(e, message).0, requests[..k]);
            Handing(after, message, e.outbound.size, k + 1)
            && Wire(e, message, requests, k) == Some(PieceAt(message, e.outbound.size, k, after.baseFlags))
  {
    hide Pieces, Piece, OnRequest, IsAck;
    var size := e.outbound.size;
    OffsetSteps(|message|, size, 0);
    if k > 0 {
      HandsOut(e, message, requests, k - 1);
      AckTakesNext(After(Send(e, message).0, requests[..k - 1]), message, size, k, requests[k - 1]);
      assert requests[..k][..k - 1] == requests[..k - 1];
    }
  }

  lemma {:induction false} ReceivedSoFar(e: Exchange, message: Flight, requests: seq<seq<byte>>, k: nat)
    requires e.Valid() && message != [] && |message| <= MAX_TLS_MESSAGE
    requires forall i :: 0 <= i < |requests| ==> IsAck(requests[i])
    requires k <= |requests| + 1 && k <= Pieces(|message|, e.outbound.size)
    ensures Received(e, message, requests, k) ==
              if k < Pieces(|message|, e.outbound.size) then Pushed(Holding(message, e.outbound.size, k), Ok(None))
              else Pushed(NOTHING, Ok(Some(message)))
  {
    hide Pieces, Wire, After, IsAck, PieceAt, Push, Holding, Handing;
    var size := e.outbound.size;
    if k > 0 {
      ReceivedSoFar(e, message, requests, k - 1);
      HandsOut(e, message, requests, k - 1);
      PushPiece(message, size, k - 1, After(Send(e, message).0, requests[..k - 1]).baseFlags);
    } else {
      SomePieces(message, size);
      assert Holding(message, size, 0) == NOTHING by { HoldingNothing(message, size); }
    }
  }

  lemma SomePieces(message: seq<byte>, size: nat)
    requires size > 0 && message != []
    ensures Pieces(|message|, size) > 0
  {
    OffsetSteps(|message|, size, 0);
  }

  lemma HoldingNothing(message: seq<byte>, size: nat)
    ensures Holding(message, size, 0) == NOTHING
  {
  }

  // Every message up to the ceiling, at every fragment size, arrives whole
  // after exactly ceil(n / size) fragments, nothing before the last, and the
  // receiver holds no more than was declared between them.
  lemma MessageArrives(e: Exchange, message: Flight, acks: seq<seq<byte>>)
    requires e.Valid() && 1 <= |message| <= MAX_TLS_MESSAGE
    requires |acks| + 1 == Pieces(|message|, e.outbound.size)
    requires forall i :: 0 <= i < |acks| ==> IsAck(acks[i])
    ensures Received(e, message, acks, |acks| + 1) == Pushed(NOTHING, Ok(Some(message)))
    ensures forall k :: 0 <= k <= |acks| ==>
              && Received(e, message, acks, k).result == Ok(None)
              && Received(e, message, acks, k).next.buf == message[..Offset(|message|, e.outbound.size, k)]
              && Bounded(Received(e, message, acks, k).next)
    ensures After(Send(e, message).0, acks).outbound.Spent()
  {
    hide Received, After, IsAck, Pieces;
    ReceivedSoFar(e, message, acks, |acks| + 1);
    forall k | 0 <= k <= |acks|
      ensures && Received(e, message, acks, k).result == Ok(None)
              && Received(e, message, acks, k).next.buf == message[..Offset(|message|, e.outbound.size, k)]
              && Bounded(Received(e, message, acks, k).next)
    {
      ReceivedSoFar(e, message, acks, k);
      OffsetSteps(|message|, e.outbound.size, 0);
    }
    HandsOut(e, message, acks, |acks|);
    assert acks[..|acks|] == acks;
    OffsetSteps(|message|, e.outbound.size, |acks| + 1);
  }

  // ---- and the other way: a message coming in ---------------------------------------

  function Requests(message: Flight, size: nat, baseFlags: seq<byte>, k: nat): seq<seq<byte>>
    requires size > 0 && k <= |baseFlags|
  {
    if k == 0 then [] else Requests(message, size, baseFlags, k - 1) + [PieceAt(message, size, k - 1, baseFlags[k - 1])]
  }

  lemma TakesPiece(e: Exchange, message: Flight, size: nat, k: nat, baseFlags: byte)
    requires e.Valid() && e.outbound.Spent() && e.inbound == Holding(message, size, k)
    requires size > 0 && |message| <= MAX_TLS_MESSAGE && k < Pieces(|message|, size) && baseFlags <= VERSION_MASK
    ensures var h := OnRequest(e, PieceAt(message, size, k, baseFlags));
            && h.next.outbound == e.outbound
            && (if k + 1 < Pieces(|message|, size)
                then h.next.inbound == Holding(message, size, k + 1) && h.result == Ok(Reply([h.next.baseFlags]))
                else h.next.inbound == NOTHING && h.result == Ok(Message(message)))
  {
    hide Pieces, Offset, Piece, ParseFragment, Push, Holding, Bit;
    PushPiece(message, size, k, baseFlags);
    OffsetSteps(|message|, size, k);
    PieceReads(message, Offset(|message|, size, k), Offset(|message|, size, k + 1), baseFlags);
  }

  lemma {:induction false} Acknowledges(e: Exchange, message: Flight, size: nat, baseFlags: seq<byte>, k: nat)
    requires e.Valid() && e.outbound.Spent() && e.inbound == NOTHING
    requires size > 0 && |message| <= MAX_TLS_MESSAGE && k < Pieces(|message|, size) && k <= |baseFlags|
    requires forall i :: 0 <= i < |baseFlags| ==> baseFlags[i] <= VERSION_MASK
    ensures var r := After(e, Requests(message, size, baseFlags, k));
            r.inbound == Holding(message, size, k) && r.outbound == e.outbound
  {
    hide Pieces, PieceAt, Holding, OnRequest;
    if k > 0 {
      Acknowledges(e, message, size, baseFlags, k - 1);
      var sofar := Requests(message, size, baseFlags, k - 1);
      var last := PieceAt(message, size, k - 1, baseFlags[k - 1]);
      assert (sofar + [last])[..|sofar + [last]| - 1] == sofar;
      TakesPiece(After(e, sofar), message, size, k - 1, baseFlags[k - 1]);
    } else {
      HoldingNothing(message, size);
    }
  }

  // An idle exchange acknowledges every fragment but the last with an empty
  // packet and hands the whole message to the TLS stack at the last.
  lemma MessageComesIn(e: Exchange, message: Flight, size: nat, baseFlags: seq<byte>, k: nat)
    requires e.Valid() && e.outbound.Spent() && e.inbound == NOTHING
    requires size > 0 && 1 <= |message| <= MAX_TLS_MESSAGE
    requires |baseFlags| == Pieces(|message|, size) && k < |baseFlags|
    requires forall i :: 0 <= i < |baseFlags| ==> baseFlags[i] <= VERSION_MASK
    ensures var h := OnRequest(After(e, Requests(message, size, baseFlags, k)), PieceAt(message, size, k, baseFlags[k]));
            h.result == if k + 1 < |baseFlags| then Ok(Reply([h.next.baseFlags])) else Ok(Message(message))
  {
    hide Pieces, PieceAt, Holding, OnRequest, After;
    Acknowledges(e, message, size, baseFlags, k);
    TakesPiece(After(e, Requests(message, size, baseFlags, k)), message, size, k, baseFlags[k]);
  }
}
