// The 4-way handshake as the object the connection holds: fields updated in
// place, each handler proved against its specification.

module FourWayMachine {
  import opened Bytes
  import opened Crypto
  import opened Eapol
  import F = FourWayHandshake
  import opened FourWayHandshake

  class Supplicant {
    const c: Primitives
    const pmk: seq<byte>
    const config: Config
    const snonce: Nonce
    var anonce: Nonce
    var ptk: Option<Ptk>
    var dv: DescriptorVersion
    var version: byte
    var rx: Option<nat>
    var phase: Phase
    var lastSent: Option<seq<byte>>
    var retries: nat

    ghost function Now(): FourWay
      reads this
    {
      FourWay(pmk, config, snonce, anonce, ptk, dv, version, rx, phase, lastSent, retries)
    }

    constructor WithSnonce(c: Primitives, pmk: seq<byte>, config: Config, snonce: Nonce)
      ensures Now() == Fresh(pmk, config, snonce) && this.c == c
    {
      this.c, this.pmk, this.config, this.snonce := c, pmk, config, snonce;
      anonce, ptk, dv, version := Zeros(32), None, HmacSha1Version, 2;
      rx, phase, lastSent, retries := None, Idle, None, 0;
    }

    method Poll(input: Input) returns (r: Result<seq<Action>, EapolError>)
      modifies this
      ensures Outcome(Now(), r) == F.Poll(c, old(Now()), input)
    {
      hide F.OnFrame, F.OnExpiry;
      match input {
        case Frame(bytes) => r := OnFrame(bytes);
        case Expiry => r := OnExpiry();
      }
      if r.Err? {
        phase := Failed;
      }
    }

    method OnFrame(bytes: seq<byte>) returns (r: Result<seq<Action>, EapolError>)
      modifies this
      ensures F.Follows(F.OnFrame(c, old(Now()), bytes), old(Now()), r, Now())
    {
      hide F.OnMsg1, F.OnMsg3, F.OnGroupMsg1, ParseEapol, ParseKey, KeyFrame.Counter, KeyFrame.Has;
      if phase == Failed { return Err(UnexpectedMessage); }
      var parsed := ParseEapol(bytes);
      if parsed.Err? { return Err(parsed.error); }
      var eapol := parsed.value;
      if eapol.packetType != KeyType { return Ok([]); }
      var key := ParseKey(eapol.body);
      if key.Err? { return Err(key.error); }
      var k := key.value;
      if k.descriptor != DESCRIPTOR_TYPE_RSN { return Err(UnsupportedDescriptor(k.descriptor)); }
      if !k.Has(ACK) || k.Has(REQUEST) { return Ok([]); }
      if rx.Some? && k.Counter() <= rx.value { return Err(ReplayedCounter); }
      if k.Has(PAIRWISE) && !k.Has(MIC) {
        r := OnMsg1(eapol, k);
      } else if phase == AwaitingMsg3 && k.Has(PAIRWISE) {
        r := OnMsg3(eapol, k, true);
      } else if phase == Established && k.Has(PAIRWISE) {
        r := OnMsg3(eapol, k, false);
      } else if phase == Established && k.Has(MIC) {
        r := OnGroupMsg1(eapol, k);
      } else {
        r := Err(UnexpectedMessage);
      }
    }

    method OnExpiry() returns (r: Result<seq<Action>, EapolError>)
      modifies this
      ensures F.Follows(F.OnExpiry(old(Now())), old(Now()), r, Now())
    {
      if lastSent.None? { return Ok([]); }
      if retries >= RETRY_LIMIT { return Err(EapolError.Timeout); }
      retries := retries + 1;
      r := Ok([Send(lastSent.value), ArmTimer(RETRY_INTERVAL_MS)]);
    }

    method OnMsg1(eapol: EapolFrame, k: KeyFrame) returns (r: Result<seq<Action>, EapolError>)
      modifies this
      ensures F.Follows(F.OnMsg1(c, old(Now()), eapol, k), old(Now()), r, Now())
    {
      hide VersionOf, DerivePtk, Signed, EncodeKey, KeyFrame.Counter, KeyFrame.Has;
      var named := VersionOf(k.keyInfo, config.akm);
      if named.Err? { return Err(Crypto(named.error)); }
      var derived := DerivePtkInPlace(c, pmk, config.akm, config.bssid, config.ownMac, k.nonce, snonce);
      if derived.Err? { return Err(Crypto(derived.error)); }
      var reply := Reply(named.value.Bits() + PAIRWISE + MIC, k.replay, snonce, config.assocIe);
      var buf := EncodeSigned(c, reply, eapol.version, derived.value.kck, named.value);
      var msg2 := buf[..];
      anonce, dv, version, rx := k.nonce, named.value, eapol.version, Some(k.Counter());
      ptk, phase, retries, lastSent := Some(derived.value), AwaitingMsg3, 0, Some(msg2);
      r := Ok([Send(msg2), ArmTimer(RETRY_INTERVAL_MS)]);
    }

    method OnMsg3(eapol: EapolFrame, k: KeyFrame, install: bool) returns (r: Result<seq<Action>, EapolError>)
      requires k.Has(PAIRWISE)
      modifies this
      ensures F.Follows(F.OnMsg3(c, old(Now()), eapol, k, install), old(Now()), r, Now())
    {
      hide VersionOf, DerivePtk, Signed, EncodeKey, KeyFrame.Counter, KeyFrame.Has, VerifyFrameMic, UnwrapKeyData, ItemsOf, GtkOf, RsnElementOf;
      if ptk.None? { return Err(UnexpectedMessage); }
      var verified := VerifyFrameMic(c, eapol.raw, ptk.value.kck, dv, k.mic);
      if verified.Err? { return Err(verified.error); }
      if k.nonce != anonce { return Err(NonceMismatch); }
      if !k.Has(ENCRYPTED) { return Err(Malformed); }
      var plain := UnwrapKeyData(c, ptk.value.kek, k.data);
      if plain.Err? { return Err(Crypto(plain.error)); }
      var advertised := RsnElement(plain.value);
      if advertised.None? { return Err(RsnMissing); }
      if advertised.value != config.beaconIe { return Err(EapolError.RsnMismatch); }
      var gtk := GtkKde(plain.value);
      if gtk.Err? { return Err(gtk.error); }
      var reply := Reply(dv.Bits() + PAIRWISE + MIC + SECURE, k.replay, Zeros(32), []);
      var buf := EncodeSigned(c, reply, version, ptk.value.kck, dv);
      rx, phase, lastSent, retries := Some(k.Counter()), Established, None, 0;
      var actions := [Send(buf[..]), DisarmTimer];
      assert actions + [] == actions;
      if install {
        actions := actions + [Complete(ptk.value, gtk.value)];
      }
      r := Ok(actions);
    }

    method OnGroupMsg1(eapol: EapolFrame, k: KeyFrame) returns (r: Result<seq<Action>, EapolError>)
      requires !k.Has(PAIRWISE)
      modifies this
      ensures F.Follows(F.OnGroupMsg1(c, old(Now()), eapol, k), old(Now()), r, Now())
    {
      hide VersionOf, DerivePtk, Signed, EncodeKey, KeyFrame.Counter, KeyFrame.Has, VerifyFrameMic, UnwrapKeyData, ItemsOf, GtkOf, RsnElementOf;
      if ptk.None? { return Err(UnexpectedMessage); }
      var verified := VerifyFrameMic(c, eapol.raw, ptk.value.kck, dv, k.mic);
      if verified.Err? { return Err(verified.error); }
      if !k.Has(ENCRYPTED) { return Err(Malformed); }
      var plain := UnwrapKeyData(c, ptk.value.kek, k.data);
      if plain.Err? { return Err(Crypto(plain.error)); }
      var gtk := GtkKde(plain.value);
      if gtk.Err? { return Err(gtk.error); }
      var reply := Reply(dv.Bits() + MIC + SECURE, k.replay, Zeros(32), []);
      var buf := EncodeSigned(c, reply, version, ptk.value.kck, dv);
      rx := Some(k.Counter());
      r := Ok([Send(buf[..]), NewGtk(gtk.value)]);
    }
  }
}
