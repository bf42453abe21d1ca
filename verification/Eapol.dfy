// EAPOL frames, the EAPOL-Key descriptor of IEEE 802.11-2016 section 12.7.2,
// and the Key Data field inside it (crates/caw-eapol/src/lib.rs, key.rs).

module Eapol {
  import opened Bytes
  import opened Suites
  import opened Crypto

  datatype EapolError =
    | Malformed | Crypto(inner: CryptoError) | Rejected | EntropyFailed
    | UnsupportedPacketType(packetType: byte) | UnsupportedEapCode(code: byte)
    | UnsupportedDescriptor(descriptor: byte) | UnexpectedMessage | ReplayedCounter
    | NonceMismatch | RsnMissing | RsnMismatch | GtkMissing | Timeout
    | FragmentOutOfOrder | FragmentTooLarge | PrematureSuccess

  // How long either conversation over EAPOL may stay silent.
  const RETRY_LIMIT: nat := 3

  datatype PacketType = EapPacketType | StartType | LogoffType | KeyType {
    function Code(): byte {
      match this case EapPacketType => 0 case StartType => 1 case LogoffType => 2 case KeyType => 3
    }
  }

  // `body` is trimmed to the declared length and `raw` is header and body:
  // whatever padding followed is in neither.
  datatype EapolFrame = EapolFrame(version: byte, packetType: PacketType, body: seq<byte>, raw: seq<byte>)

  function PacketTypeOf(b: byte): Result<PacketType, EapolError> {
    match b
    case 0 => Ok(EapPacketType)
    case 1 => Ok(StartType)
    case 2 => Ok(LogoffType)
    case 3 => Ok(KeyType)
    case _ => Err(UnsupportedPacketType(b))
  }

  function ParseEapol(buf: seq<byte>): Result<EapolFrame, EapolError> {
    if |buf| < 4 then Err(Malformed)
    else
      var len := BE16(buf[2..4]);
      if |buf| - 4 < len then Err(Malformed)
      else
        var t :- PacketTypeOf(buf[1]);
        Ok(EapolFrame(buf[0], t, buf[4..4 + len], buf[..4 + len]))
  }

  function EncodeEapol(version: byte, t: PacketType, body: seq<byte>): seq<byte>
    requires |body| < 0x1_0000
  {
    [version, t.Code()] + ToBE16(|body|) + body
  }

  // Parsing undoes encoding, and padding after the body changes nothing.
  lemma EapolRoundTrip(version: byte, t: PacketType, body: seq<byte>, padding: seq<byte>)
    requires |body| < 0x1_0000
    ensures ParseEapol(EncodeEapol(version, t, body) + padding)
         == Ok(EapolFrame(version, t, body, EncodeEapol(version, t, body)))
  {
    var raw := EncodeEapol(version, t, body);
    var buf := raw + padding;
    assert buf[2..4] == ToBE16(|body|);
    assert BE16(ToBE16(|body|)) == |body|;
    assert buf[4..4 + |body|] == body;
    assert buf[..4 + |body|] == raw;
  }

  // ---- the EAPOL-Key descriptor ---------------------------------------------

  const DESCRIPTOR_TYPE_RSN: byte := 2
  const BODY_MIN: nat := 95
  const MIC_OFFSET: nat := 81
  const MIC_LEN: nat := 16

  const PAIRWISE: nat := 0x0008
  const ACK: nat := 0x0080
  const MIC: nat := 0x0100
  const SECURE: nat := 0x0200
  const REQUEST: nat := 0x0800
  const ENCRYPTED: nat := 0x1000

  type Octets8 = s: seq<byte> | |s| == 8 witness Zeros(8)

  // Key Data small enough for the frame that carries it.
  type KeyData = s: seq<byte> | |s| < 0x1_0000 - BODY_MIN witness []

  datatype KeyFrame = KeyFrame(
    descriptor: byte,
    keyInfo: u16,
    keyLength: u16,
    replay: Octets8,
    nonce: Nonce,
    iv: Block16,
    rsc: Octets8,
    mic: Block16,
    data: seq<byte>)
  {
    // The replay counter as a number.
    function Counter(): nat { FromBE(replay) }

    predicate Has(flag: nat)
      requires flag > 0
    {
      Bit(keyInfo, flag)
    }

    // What a 16-bit body length can declare.
    predicate Valid() { |data| < 0x1_0000 - BODY_MIN }
  }

  function ParseKey(body: seq<byte>): Result<KeyFrame, EapolError> {
    if |body| < BODY_MIN then Err(Malformed)
    else
      var len := BE16(body[93..95]);
      if |body| - BODY_MIN < len then Err(Malformed)
      else Ok(KeyFrame(body[0], BE16(body[1..3]), BE16(body[3..5]), body[5..13], body[13..45],
                       body[45..61], body[61..69], body[77..93], body[95..95 + len]))
  }

  function BeforeMic(k: KeyFrame): (b: seq<byte>)
    requires k.Valid()
    ensures |b| == 77
  {
    [k.descriptor] + ToBE16(k.keyInfo) + ToBE16(k.keyLength) + k.replay + k.nonce + k.iv + k.rsc + Zeros(8)
  }

  function KeyBody(k: KeyFrame): (b: seq<byte>)
    requires k.Valid()
    ensures |b| == BODY_MIN + |k.data|
  {
    BeforeMic(k) + (k.mic + (ToBE16(|k.data|) + k.data))
  }

  function EncodeKey(k: KeyFrame, version: byte): (frame: seq<byte>)
    requires k.Valid()
    ensures |frame| == 4 + BODY_MIN + |k.data|
  {
    EncodeEapol(version, KeyType, KeyBody(k))
  }

  lemma BeforeMicParses(k: KeyFrame)
    requires k.Valid()
    ensures var b := BeforeMic(k);
            && b[0] == k.descriptor && BE16(b[1..3]) == k.keyInfo && BE16(b[3..5]) == k.keyLength
            && b[5..13] == k.replay && b[13..45] == k.nonce && b[45..61] == k.iv && b[61..69] == k.rsc
  {
    var b := BeforeMic(k);
    assert b[1..3] == ToBE16(k.keyInfo) && b[3..5] == ToBE16(k.keyLength);
  }

  lemma KeyBodyParses(k: KeyFrame)
    requires k.Valid()
    ensures ParseKey(KeyBody(k)) == Ok(k)
  {
    var b, before := KeyBody(k), BeforeMic(k);
    BeforeMicParses(k);
    assert b[..77] == before;
    assert forall lo, hi | 0 <= lo <= hi <= 77 :: b[lo..hi] == before[lo..hi];
    assert b[77..] == k.mic + (ToBE16(|k.data|) + k.data);
    assert b[77..93] == k.mic;
    assert b[93..95] == ToBE16(|k.data|) && BE16(ToBE16(|k.data|)) == |k.data|;
    assert b[95..95 + |k.data|] == k.data;
  }

  // A frame reads back field for field, padding or not.
  lemma KeyFrameRoundTrip(k: KeyFrame, version: byte, padding: seq<byte>)
    requires k.Valid()
    ensures var parsed := ParseEapol(EncodeKey(k, version) + padding);
            && parsed == Ok(EapolFrame(version, KeyType, KeyBody(k), EncodeKey(k, version)))
            && ParseKey(parsed.value.body) == Ok(k)
  {
    EapolRoundTrip(version, KeyType, KeyBody(k), padding);
    KeyBodyParses(k);
  }

  // ---- the MIC ----------------------------------------------------------------

  function Unsigned(k: KeyFrame): KeyFrame {
    k.(mic := Zeros(16))
  }

  // The MIC is over the frame with the field it will occupy cleared.
  function Signed(c: Primitives, k: KeyFrame, version: byte, kck: seq<byte>, dv: DescriptorVersion): KeyFrame
    requires k.Valid()
  {
    k.(mic := ComputeMic(c, kck, dv, EncodeKey(Unsigned(k), version)))
  }

  function Zeroed(frame: seq<byte>): seq<byte>
    requires |frame| >= MIC_OFFSET + MIC_LEN
  {
    frame[..MIC_OFFSET] + Zeros(16) + frame[MIC_OFFSET + MIC_LEN..]
  }

  function VerifyFrameMic(c: Primitives, frame: seq<byte>, kck: seq<byte>, dv: DescriptorVersion, mic: seq<byte>)
    : Result<(), EapolError>
  {
    if |frame| < MIC_OFFSET + MIC_LEN then Err(Malformed)
    else if ComputeMic(c, kck, dv, Zeroed(frame)) == mic then Ok(())
    else Err(Crypto(MicMismatch))
  }

  lemma ZeroedIsUnsigned(k: KeyFrame, version: byte)
    requires k.Valid()
    ensures Zeroed(EncodeKey(k, version)) == EncodeKey(Unsigned(k), version)
  {
    var head := [version, KeyType.Code()] + ToBE16(|KeyBody(k)|) + BeforeMic(k);
    var tail := ToBE16(|k.data|) + k.data;
    assert BeforeMic(Unsigned(k)) == BeforeMic(k);
    assert EncodeKey(k, version) == head + k.mic + tail;
    assert EncodeKey(Unsigned(k), version) == head + Zeros(16) + tail;
  }

  // The MIC the builder fills in is the MIC the receiver checks, and under no
  // other value of the field does the check pass.
  lemma SignedVerifies(c: Primitives, k: KeyFrame, version: byte, kck: seq<byte>, dv: DescriptorVersion, mic: Block16)
    requires k.Valid()
    ensures VerifyFrameMic(c, EncodeKey(k.(mic := mic), version), kck, dv, mic).Ok?
        <==> mic == Signed(c, k, version, kck, dv).mic
  {
    ZeroedIsUnsigned(k.(mic := mic), version);
    assert Unsigned(k.(mic := mic)) == Unsigned(k);
  }

  // A signed frame is the cleared one with the MIC written over its field.
  lemma MicInPlace(k: KeyFrame, version: byte, mic: Block16)
    requires k.Valid()
    ensures var clean, signed := EncodeKey(Unsigned(k), version), EncodeKey(k.(mic := mic), version);
            && |clean| == |signed| == |EncodeKey(k, version)|
            && signed[..MIC_OFFSET] == clean[..MIC_OFFSET]
            && signed[MIC_OFFSET..MIC_OFFSET + MIC_LEN] == mic
            && signed[MIC_OFFSET + MIC_LEN..] == clean[MIC_OFFSET + MIC_LEN..]
  {
    var head := [version, KeyType.Code()] + ToBE16(|KeyBody(k)|) + BeforeMic(k);
    var tail := ToBE16(|k.data|) + k.data;
    assert BeforeMic(Unsigned(k)) == BeforeMic(k) == BeforeMic(k.(mic := mic));
    assert EncodeKey(Unsigned(k), version) == head + Zeros(16) + tail;
    assert EncodeKey(k.(mic := mic), version) == head + mic + tail;
  }

  // The builder, filling the buffer and overwriting the field in place.
  method EncodeSigned(c: Primitives, k: KeyFrame, version: byte, kck: seq<byte>, dv: DescriptorVersion)
    returns (frame: array<byte>)
    requires k.Valid()
    ensures fresh(frame) && frame[..] == EncodeKey(Signed(c, k, version, kck, dv), version)
  {
    hide EncodeKey, ComputeMic;
    var plain := EncodeKey(k, version);
    frame := new byte[|plain|](i requires 0 <= i < |plain| => plain[i]);
    MicInPlace(k, version, k.mic);
    assert k.(mic := k.mic) == k;
    forall i | MIC_OFFSET <= i < MIC_OFFSET + MIC_LEN { frame[i] := 0; }
    ghost var clean := EncodeKey(Unsigned(k), version);
    MicInPlace(k, version, Zeros(16));
    assert clean[MIC_OFFSET..MIC_OFFSET + MIC_LEN] == Zeros(16);
    assert frame[..] == clean by {
      SameParts(frame[..], clean, MIC_OFFSET, MIC_OFFSET + MIC_LEN);
    }
    var mic := ComputeMic(c, kck, dv, frame[..]);
    forall i | MIC_OFFSET <= i < MIC_OFFSET + MIC_LEN { frame[i] := mic[i - MIC_OFFSET]; }
    MicInPlace(k, version, mic);
    SameParts(frame[..], EncodeKey(k.(mic := mic), version), MIC_OFFSET, MIC_OFFSET + MIC_LEN);
  }

  lemma SameParts(a: seq<byte>, b: seq<byte>, lo: nat, hi: nat)
    requires lo <= hi <= |a| == |b|
    requires a[..lo] == b[..lo] && a[lo..hi] == b[lo..hi] && a[hi..] == b[hi..]
    ensures a == b
  {
    assert a == a[..lo] + a[lo..hi] + a[hi..];
    assert b == b[..lo] + b[lo..hi] + b[hi..];
  }

  // ---- the Key Data field -------------------------------------------------------

  const KDE_GTK: byte := 1
  const EID_VENDOR: byte := 221

  datatype Gtk = Gtk(key: seq<byte>, index: byte)

  // One element of the decrypted field: a KDE, or a bare element with header.
  datatype Item = Kde(oui: seq<byte>, dataType: byte, payload: seq<byte>) | Ie(id: byte, raw: seq<byte>)

  function ItemOf(element: seq<byte>): Item
    requires |element| >= 2
  {
    if element[0] == EID_VENDOR && |element| >= 6 then Kde(element[2..5], element[5], element[6..])
    else Ie(element[0], element)
  }

  // Where the next element ends, if there is one.
  function NextEnd(data: seq<byte>): (end: Option<nat>)
    ensures end.Some? ==> 3 <= end.value <= |data|
  {
    if |data| < 2 || data[1] == 0 || |data| < 2 + (data[1] as int) then None else Some(2 + (data[1] as int))
  }

  function ItemsOf(data: seq<byte>): seq<Item> {
    var end := NextEnd(data);
    if end.None? then [] else [ItemOf(data[..end.value])] + ItemsOf(data[end.value..])
  }

  class KeyDataItems {
    var rest: seq<byte>

    constructor (data: seq<byte>)
      ensures rest == data
    {
      rest := data;
    }

    method Next() returns (item: Option<Item>)
      modifies this
      ensures item.None? ==> ItemsOf(old(rest)) == [] && rest == old(rest)
      ensures item.Some? ==> ItemsOf(old(rest)) == [item.value] + ItemsOf(rest) && |rest| < |old(rest)|
    {
      if |rest| < 2 { return None; }
      var len := rest[1] as int;
      if len == 0 || |rest| < 2 + len { return None; }
      var element := rest[..2 + len];
      rest := rest[2 + len..];
      item := Some(ItemOf(element));
    }
  }

  predicate IsGtkKde(item: Item) {
    item.Kde? && item.oui == OUI_IEEE && item.dataType == KDE_GTK
  }

  predicate IsRsn(item: Item) {
    item.Ie? && item.id == EID_RSN
  }

  function GtkOfPayload(payload: seq<byte>): Result<Gtk, EapolError> {
    if |payload| < 2 || (|payload| != 18 && |payload| != 34) then Err(Malformed)
    else Ok(Gtk(payload[2..], payload[0] % 4))
  }

  // The first GTK KDE decides, well formed or not.
  function GtkOf(items: seq<Item>): Result<Gtk, EapolError> {
    if items == [] then Err(GtkMissing)
    else if IsGtkKde(items[0]) then GtkOfPayload(items[0].payload)
    else GtkOf(items[1..])
  }

  function RsnElementOf(items: seq<Item>): Option<seq<byte>> {
    if items == [] then None
    else if IsRsn(items[0]) then Some(items[0].raw)
    else RsnElementOf(items[1..])
  }

  method GtkKde(data: seq<byte>) returns (r: Result<Gtk, EapolError>)
    ensures r == GtkOf(ItemsOf(data))
  {
    var items := new KeyDataItems(data);
    var item := items.Next();
    while item.Some?
      invariant fresh(items)
      invariant GtkOf(ItemsOf(data))
             == if item.Some? then GtkOf([item.value] + ItemsOf(items.rest)) else Err(GtkMissing)
      decreases |items.rest| + if item.Some? then 1 else 0
    {
      if IsGtkKde(item.value) { return GtkOfPayload(item.value.payload); }
      assert ([item.value] + ItemsOf(items.rest))[1..] == ItemsOf(items.rest);
      item := items.Next();
    }
    r := Err(GtkMissing);
  }

  method RsnElement(data: seq<byte>) returns (r: Option<seq<byte>>)
    ensures r == RsnElementOf(ItemsOf(data))
  {
    var items := new KeyDataItems(data);
    var item := items.Next();
    while item.Some?
      invariant fresh(items)
      invariant RsnElementOf(ItemsOf(data))
             == if item.Some? then RsnElementOf([item.value] + ItemsOf(items.rest)) else None
      decreases |items.rest| + if item.Some? then 1 else 0
    {
      if IsRsn(item.value) { return Some(item.value.raw); }
      assert ([item.value] + ItemsOf(items.rest))[1..] == ItemsOf(items.rest);
      item := items.Next();
    }
    r := None;
  }

  // ---- building Key Data, as an authenticator does ---------------------------

  predicate Element(e: seq<byte>) {
    |e| >= 3 && |e| == 2 + (e[1] as int)
  }

  predicate Elements(es: seq<seq<byte>>) {
    forall i :: 0 <= i < |es| ==> Element(es[i])
  }

  function Joined(elements: seq<seq<byte>>): seq<byte> {
    if elements == [] then [] else elements[0] + Joined(elements[1..])
  }

  // What may follow the last element: nothing a reader takes for one.
  predicate Padding(p: seq<byte>) {
    NextEnd(p).None?
  }

  function ItemsOfElements(elements: seq<seq<byte>>): (items: seq<Item>)
    requires Elements(elements)
    ensures |items| == |elements|
    ensures forall i :: 0 <= i < |items| ==> items[i] == ItemOf(elements[i])
  {
    seq(|elements|, i requires 0 <= i < |elements| => ItemOf(elements[i]))
  }

  // Walking a field gives back exactly the elements it was built from.
  lemma {:induction false} KeyDataRoundTrip(elements: seq<seq<byte>>, padding: seq<byte>)
    requires Elements(elements)
    requires Padding(padding)
    ensures ItemsOf(Joined(elements) + padding) == ItemsOfElements(elements)
  {
    var data := Joined(elements) + padding;
    if elements == [] {
      assert data == padding;
    } else {
      var e, rest := elements[0], elements[1..];
      assert data == e + (Joined(rest) + padding);
      assert data[0] == e[0] && data[1] == e[1];
      assert NextEnd(data) == Some(|e|);
      assert data[..|e|] == e && data[|e|..] == Joined(rest) + padding;
      KeyDataRoundTrip(rest, padding);
      assert ItemsOfElements(elements) == [ItemOf(e)] + ItemsOfElements(rest);
    }
  }
}
