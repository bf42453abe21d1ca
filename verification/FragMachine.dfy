// The fragment buffers and the exchange over them as the objects an EAP method
// owns, updated in place.

module FragMachine {
  import opened Bytes
  import opened Eapol
  import opened EapFragments
  import F = EapFragments

  class Reassembler {
    var buf: seq<byte>
    var declared: Option<nat>

    ghost function Now(): Assembly
      reads this
    {
      Assembly(buf, declared)
    }

    constructor ()
      ensures Now() == NOTHING
    {
      buf, declared := [], None;
    }

    method Reset()
      modifies this
      ensures Now() == NOTHING
    {
      buf, declared := [], None;
    }

    method Push(f: Fragment) returns (r: Result<Option<seq<byte>>, EapolError>)
      modifies this
      ensures Pushed(Now(), r) == F.Push(old(Now()), f)
    {
      var inProgress := declared.Some? || buf != [];
      if f.declared.Some? {
        if inProgress { return Err(FragmentOutOfOrder); }
        if f.declared.value > MAX_TLS_MESSAGE { return Err(FragmentTooLarge); }
        declared := Some(f.declared.value);
      } else if !inProgress && f.More() {
        return Err(FragmentOutOfOrder);
      }
      buf := buf + f.data;
      if |buf| > declared.GetOr(MAX_TLS_MESSAGE) {
        Reset();
        return Err(FragmentTooLarge);
      }
      if f.More() { return Ok(None); }
      if declared.Some? && |buf| != declared.value {
        Reset();
        return Err(FragmentTooLarge);
      }
      r := Ok(Some(buf));
      Reset();
    }
  }

  class Fragmenter {
    var pending: Flight
    var sent: nat
    const size: nat

    ghost function Now(): Outgoing
      reads this
    {
      Outgoing(pending, sent, size)
    }

    predicate IsEmpty()
      reads this
    {
      sent >= |pending|
    }

    constructor (size: nat)
      ensures Now() == Outgoing([], 0, if size > 0 then size else 1)
    {
      pending, sent, this.size := [], 0, if size > 0 then size else 1;
    }

    method Queue(message: Flight)
      modifies this
      ensures Now() == old(Now()).(pending := message, sent := 0)
    {
      pending, sent := message, 0;
    }

    method Next(baseFlags: byte) returns (out: Option<seq<byte>>)
      requires size > 0
      modifies this`sent
      ensures (Now(), out) == F.Next(old(Now()), baseFlags)
    {
      if IsEmpty() { return None; }
      var first := sent == 0;
      var end := Fewer(sent + size, |pending|);
      var chunk := pending[sent..end];
      var more := end < |pending|;
      var flags := baseFlags;
      if more {
        flags := Or(flags, FLAG_MORE_FRAGMENTS);
      }
      var includeLen := first && more;
      if includeLen {
        flags := Or(flags, FLAG_LENGTH_INCLUDED);
      }
      var bytes := [flags];
      if includeLen {
        bytes := bytes + ToBE32(|pending|);
      }
      bytes := bytes + chunk;
      sent := end;
      out := Some(bytes);
    }
  }

  class Exchange {
    const inbound: Reassembler
    const outbound: Fragmenter
    var baseFlags: byte
    const mirrorVersion: bool

    ghost function Now(): F.Exchange
      reads this, inbound, outbound
    {
      F.Exchange.Exchange(inbound.Now(), outbound.Now(), baseFlags, mirrorVersion)
    }

    constructor (size: nat, mirrorVersion: bool)
      ensures Now() == NewExchange(size, mirrorVersion)
      ensures fresh(inbound) && fresh(outbound)
    {
      inbound := new Reassembler();
      outbound := new Fragmenter(size);
      baseFlags, this.mirrorVersion := 0, mirrorVersion;
    }

    method OnRequest(typeData: seq<byte>) returns (r: Result<Incoming, EapolError>)
      requires Now().Valid()
      modifies this, inbound, outbound
      ensures F.Handled(Now(), r) == F.OnRequest(old(Now()), typeData)
    {
      hide F.Push, F.Piece, ParseFragment, Bit;
      var parsed := ParseFragment(typeData);
      if parsed.Err? { return Err(parsed.error); }
      var f := parsed.value;
      if mirrorVersion {
        baseFlags := f.Version();
      }
      if f.Start() {
        inbound.Reset();
        return Ok(Restart);
      }
      if !outbound.IsEmpty() {
        if f.data != [] { return Err(FragmentOutOfOrder); }
        var next := outbound.Next(baseFlags);
        return Ok(Reply(next.value));
      }
      var pushed := inbound.Push(f);
      if pushed.Err? { return Err(pushed.error); }
      if pushed.value.None? {
        r := Ok(Reply([baseFlags]));
      } else {
        r := Ok(Message(pushed.value.value));
      }
    }

    method Send(message: Flight) returns (first: Option<seq<byte>>)
      requires Now().Valid()
      modifies outbound
      ensures (Now(), first) == F.Send(old(Now()), message)
    {
      if message == [] { return None; }
      outbound.Queue(message);
      first := outbound.Next(baseFlags);
    }
  }
}
