// DHCP on the wire: the option area of section 2 of RFC 2132 and the message
// around it, section 2 of RFC 2131 (crates/caw-dhcp/src/options.rs, message.rs).

module DhcpWire {
  import opened Bytes

  type Ip = s: seq<byte> | |s| == 4 witness [0, 0, 0, 0]

  const UNSPECIFIED: Ip := [0, 0, 0, 0]
  const LIMITED_BROADCAST: Ip := [255, 255, 255, 255]

  const OPT_PAD: byte := 0
  const OPT_SUBNET_MASK: byte := 1
  const OPT_ROUTER: byte := 3
  const OPT_DNS: byte := 6
  const OPT_HOSTNAME: byte := 12
  const OPT_REQUESTED_IP: byte := 50
  const OPT_LEASE_TIME: byte := 51
  const OPT_OVERLOAD: byte := 52
  const OPT_MESSAGE_TYPE: byte := 53
  const OPT_SERVER_ID: byte := 54
  const OPT_PARAM_REQUEST: byte := 55
  const OPT_T1: byte := 58
  const OPT_T2: byte := 59
  const OPT_CLIENT_ID: byte := 61
  const OPT_END: byte := 255

  // How the platform reads octets as text: invalid ones are replaced, valid
  // text is left alone. Text is its octets.
  type Lossy = seq<byte> -> seq<byte>

  datatype MessageType = Discover | Offer | Request | Decline | Ack | Nak | Release | Inform | OtherType(kind: byte) {
    function Code(): byte {
      match this
      case Discover => 1
      case Offer => 2
      case Request => 3
      case Decline => 4
      case Ack => 5
      case Nak => 6
      case Release => 7
      case Inform => 8
      case OtherType(k) => k
    }
  }

  function MessageTypeOf(code: byte): MessageType {
    match code
    case 1 => Discover
    case 2 => Offer
    case 3 => Request
    case 4 => Decline
    case 5 => Ack
    case 6 => Nak
    case 7 => Release
    case 8 => Inform
    case _ => OtherType(code)
  }

  datatype DhcpOption =
    | SubnetMask(mask: Ip)
    | Router(routers: seq<Ip>)
    | Dns(servers: seq<Ip>)
    | HostName(name: seq<byte>)
    | RequestedIp(requested: Ip)
    | LeaseTime(secs: u32)
    | MessageKind(kind: MessageType)
    | ServerId(server: Ip)
    | ParameterRequest(codes: seq<byte>)
    | T1(renew: u32)
    | T2(rebind: u32)
    | ClientId(id: seq<byte>)
    | OtherOption(other: byte, data: seq<byte>)

  // ---- one option -----------------------------------------------------------

  function CodeOf(o: DhcpOption): byte {
    match o
    case SubnetMask(_) => OPT_SUBNET_MASK
    case Router(_) => OPT_ROUTER
    case Dns(_) => OPT_DNS
    case HostName(_) => OPT_HOSTNAME
    case RequestedIp(_) => OPT_REQUESTED_IP
    case LeaseTime(_) => OPT_LEASE_TIME
    case MessageKind(_) => OPT_MESSAGE_TYPE
    case ServerId(_) => OPT_SERVER_ID
    case ParameterRequest(_) => OPT_PARAM_REQUEST
    case T1(_) => OPT_T1
    case T2(_) => OPT_T2
    case ClientId(_) => OPT_CLIENT_ID
    case OtherOption(c, _) => c
  }

  function Octets(list: seq<Ip>): seq<byte> {
    if list == [] then [] else list[0] + Octets(list[1..])
  }

  function Payload(o: DhcpOption): seq<byte> {
    match o
    case SubnetMask(a) => a
    case RequestedIp(a) => a
    case ServerId(a) => a
    case Router(list) => Octets(list)
    case Dns(list) => Octets(list)
    case HostName(name) => name
    case LeaseTime(v) => ToBE32(v)
    case T1(v) => ToBE32(v)
    case T2(v) => ToBE32(v)
    case MessageKind(k) => [k.Code()]
    case ParameterRequest(d) => d
    case ClientId(d) => d
    case OtherOption(_, d) => d
  }

  // A length is one octet, so anything longer is cut.
  function Tlv(code: byte, data: seq<byte>): seq<byte> {
    var len := if |data| < 255 then |data| else 255;
    [code, len] + data[..len]
  }

  function EncodeOption(o: DhcpOption): seq<byte> {
    Tlv(CodeOf(o), Payload(o))
  }

  function Addresses(data: seq<byte>): (list: seq<Ip>)
    requires |data| % 4 == 0
    ensures |list| == |data| / 4
  {
    if data == [] then [] else [data[..4]] + Addresses(data[4..])
  }

  function One(data: seq<byte>): Option<Ip> {
    if |data| == 4 then Some(data) else None
  }

  function List(data: seq<byte>): Option<seq<Ip>> {
    if data == [] || |data| % 4 != 0 then None else Some(Addresses(data))
  }

  function Number(data: seq<byte>): Option<u32> {
    if |data| == 4 then Some(BE32(data)) else None
  }

  // `None` is the one error there is: malformed.
  function DecodeOption(lossy: Lossy, code: byte, data: seq<byte>): Option<DhcpOption> {
    var one, list, number := One(data), List(data), Number(data);
    match code
    case 1 => if one.Some? then Some(SubnetMask(one.value)) else None
    case 3 => if list.Some? then Some(Router(list.value)) else None
    case 6 => if list.Some? then Some(Dns(list.value)) else None
    case 12 => Some(HostName(lossy(data)))
    case 50 => if one.Some? then Some(RequestedIp(one.value)) else None
    case 51 => if number.Some? then Some(LeaseTime(number.value)) else None
    case 53 => if |data| == 1 then Some(MessageKind(MessageTypeOf(data[0]))) else None
    case 54 => if one.Some? then Some(ServerId(one.value)) else None
    case 55 => Some(ParameterRequest(data))
    case 58 => if number.Some? then Some(T1(number.value)) else None
    case 59 => if number.Some? then Some(T2(number.value)) else None
    case 61 => Some(ClientId(data))
    case _ => Some(OtherOption(code, data))
  }

  predicate Reserved(code: byte) {
    code in {OPT_PAD, OPT_END, OPT_OVERLOAD}
  }

  predicate Named(code: byte) {
    code in {1, 3, 6, 12, 50, 51, 53, 54, 55, 58, 59, 61}
  }

  // An option the decoder could have produced from a payload that fits.
  predicate Canonical(lossy: Lossy, o: DhcpOption) {
    && |Payload(o)| <= 255
    && match o
       case Router(list) => list != []
       case Dns(list) => list != []
       case HostName(name) => lossy(name) == name
       case MessageKind(k) => k.OtherType? ==> !(1 <= k.kind <= 8)
       case OtherOption(c, _) => !Named(c) && !Reserved(c)
       case _ => true
  }

  lemma {:induction false} AddressesOfOctets(list: seq<Ip>)
    ensures |Octets(list)| == 4 * |list| && Addresses(Octets(list)) == list
  {
    if list != [] {
      AddressesOfOctets(list[1..]);
      assert Octets(list)[..4] == list[0] && Octets(list)[4..] == Octets(list[1..]);
    }
  }

  lemma OptionRoundTrip(lossy: Lossy, o: DhcpOption)
    requires Canonical(lossy, o)
    ensures DecodeOption(lossy, CodeOf(o), Payload(o)) == Some(o)
    ensures !Reserved(CodeOf(o))
  {
    hide ToBE32, BE32, Octets, Addresses;
    match o {
      case Router(list) => AddressesOfOctets(list);
      case Dns(list) => AddressesOfOctets(list);
      case LeaseTime(v) => BE32OfToBE32(v);
      case T1(v) => BE32OfToBE32(v);
      case T2(v) => BE32OfToBE32(v);
      case _ =>
    }
  }

  // ---- the option area --------------------------------------------------------

  // Which BOOTP fields option 52 says hold options too.
  datatype Overload = Overload(file: bool, sname: bool)

  datatype Area = Area(options: seq<DhcpOption>, overload: Overload)

  function Plus(bits: byte, a: Overload): Overload {
    Overload(a.file || bits % 2 == 1, a.sname || bits / 2 % 2 == 1)
  }

  lemma PlusGathers(bits: byte, a: Overload, b: Overload)
    ensures var c, d := Plus(bits, a), Plus(bits, b);
            (a.file || d.file) == (c.file || b.file) && (a.sname || d.sname) == (c.sname || b.sname)
  {
  }

  function DecodeArea(lossy: Lossy, buf: seq<byte>): Option<Area> {
    if buf == [] || buf[0] == OPT_END then Some(Area([], Overload(false, false)))
    else if buf[0] == OPT_PAD then DecodeArea(lossy, buf[1..])
    else if |buf| < 2 || |buf| < 2 + (buf[1] as int) then None
    else
      var end := 2 + (buf[1] as int);
      var data := buf[2..end];
      var rest := DecodeArea(lossy, buf[end..]);
      if buf[0] == OPT_OVERLOAD then
        if |data| != 1 || rest.None? then None
        else Some(rest.value.(overload := Plus(data[0], rest.value.overload)))
      else
        var o := DecodeOption(lossy, buf[0], data);
        if o.None? || rest.None? then None
        else Some(rest.value.(options := [o.value] + rest.value.options))
  }

  // An option's payload and what is left, from its tag on or from the front.
  lemma TailSlices(buf: seq<byte>, i: nat, len: nat)
    requires i + 2 + len <= |buf|
    ensures buf[i..][2..2 + len] == buf[i + 2..i + 2 + len] && buf[i..][2 + len..] == buf[i + 2 + len..]
  {
  }

  // The index loop, pushing options as they are found.
  method DecodeInto(lossy: Lossy, buf: seq<byte>, before: seq<DhcpOption>) returns (r: Option<Area>)
    ensures var area := DecodeArea(lossy, buf);
            r == if area.None? then None else Some(area.value.(options := before + area.value.options))
  {
    hide DecodeOption, Plus;
    var out, overload := before, Overload(false, false);
    var i := 0;
    ghost var area := DecodeArea(lossy, buf);
    assert buf[0..] == buf;
    while i < |buf|
      invariant 0 <= i <= |buf|
      invariant area.None? <==> DecodeArea(lossy, buf[i..]).None?
      invariant area.Some? ==>
                  var rest := DecodeArea(lossy, buf[i..]).value;
                  && before + area.value.options == out + rest.options
                  && area.value.overload == Overload(overload.file || rest.overload.file, overload.sname || rest.overload.sname)
    {
      ghost var tail := buf[i..];
      if buf[i] == OPT_PAD {
        assert tail[1..] == buf[i + 1..];
        i := i + 1;
        continue;
      }
      if buf[i] == OPT_END {
        assert DecodeArea(lossy, tail) == Some(Area([], Overload(false, false)));
        assert out + [] == out;
        return Some(Area(out, overload));
      }
      if i + 1 >= |buf| || i + 2 + (buf[i + 1] as int) > |buf| {
        return None;
      }
      var code, len := buf[i], buf[i + 1] as int;
      var data := buf[i + 2..i + 2 + len];
      TailSlices(buf, i, len);
      i := i + 2 + len;
      if code == OPT_OVERLOAD {
        if |data| != 1 { return None; }
        PlusGathers(data[0], overload, DecodeArea(lossy, buf[i..]).GetOr(Area([], overload)).overload);
        overload := Plus(data[0], overload);
        continue;
      }
      var o := DecodeOption(lossy, code, data);
      if o.None? { return None; }
      ghost var rest := DecodeArea(lossy, buf[i..]);
      assert rest.Some? ==> out + ([o.value] + rest.value.options) == (out + [o.value]) + rest.value.options;
      out := out + [o.value];
    }
    assert DecodeArea(lossy, buf[i..]) == Some(Area([], Overload(false, false)));
    assert out + [] == out;
    r := Some(Area(out, overload));
  }

  function EncodeOptions(options: seq<DhcpOption>): seq<byte> {
    if options == [] then [OPT_END] else EncodeOption(options[0]) + EncodeOptions(options[1..])
  }

  method EncodeAll(options: seq<DhcpOption>, before: seq<byte>) returns (out: seq<byte>)
    ensures out == before + EncodeOptions(options)
  {
    hide EncodeOption;
    out := before;
    for i := 0 to |options|
      invariant out + EncodeOptions(options[i..]) == before + EncodeOptions(options)
    {
      ghost var tail := options[i..];
      assert tail[1..] == options[i + 1..];
      out := out + EncodeOption(options[i]);
    }
    out := out + [OPT_END];
  }

  // Whatever follows the end option, the options come back in order.
  lemma {:induction false} AreaRoundTrip(lossy: Lossy, options: seq<DhcpOption>, after: seq<byte>)
    requires forall i :: 0 <= i < |options| ==> Canonical(lossy, options[i])
    ensures DecodeArea(lossy, EncodeOptions(options) + after) == Some(Area(options, Overload(false, false)))
  {
    hide DecodeOption, Payload, CodeOf, Canonical;
    var buf := EncodeOptions(options) + after;
    if options == [] {
      assert buf[0] == OPT_END;
    } else {
      var o, rest := options[0], EncodeOptions(options[1..]) + after;
      AreaRoundTrip(lossy, options[1..], after);
      OptionRoundTrip(lossy, o);
      PayloadFits(lossy, o);
      assert EncodeOption(o) == [CodeOf(o), |Payload(o)|] + Payload(o);
      assert buf == [CodeOf(o), |Payload(o)|] + Payload(o) + rest;
      Spliced([CodeOf(o), |Payload(o)|], Payload(o), rest);
      assert buf[2..2 + |Payload(o)|] == Payload(o);
      assert [o] + options[1..] == options;
    }
  }

  lemma PayloadFits(lossy: Lossy, o: DhcpOption)
    requires Canonical(lossy, o)
    ensures |Payload(o)| <= 255
  {
  }

  // ---- the message --------------------------------------------------------------

  const BOOTREQUEST: byte := 1
  const BOOTREPLY: byte := 2
  const HTYPE_ETHERNET: byte := 1
  const FLAG_BROADCAST: u16 := 0x8000
  const MAGIC_COOKIE: seq<byte> := [0x63, 0x82, 0x53, 0x63]
  const SNAME_WIDTH: nat := 64
  const FILE_WIDTH: nat := 128
  const MIN_LEN: nat := 300

  type Chaddr = s: seq<byte> | |s| == 16 witness Zeros(16)

  datatype Message = Message(
    op: byte, htype: byte, hlen: byte, hops: byte,
    xid: u32, secs: u16, flags: u16,
    ciaddr: Ip, yiaddr: Ip, siaddr: Ip, giaddr: Ip,
    chaddr: Chaddr, sname: seq<byte>, file: seq<byte>,
    options: seq<DhcpOption>)

  // Up to the first NUL, or all of it.
  function UpToNul(field: seq<byte>): (text: seq<byte>)
    ensures |text| <= |field|
  {
    if field == [] || field[0] == 0 then [] else [field[0]] + UpToNul(field[1..])
  }

  function TextOut(text: seq<byte>, width: nat): (field: seq<byte>)
    requires width > 0
    ensures |field| == width
  {
    var len := if |text| < width then |text| else width - 1;
    text[..len] + Zeros(width - len)
  }

  function FixedPart(m: Message): (b: seq<byte>)
    ensures |b| == 44
  {
    [m.op, m.htype, m.hlen, m.hops] + ToBE32(m.xid) + ToBE16(m.secs) + ToBE16(m.flags)
    + m.ciaddr + m.yiaddr + m.siaddr + m.giaddr + m.chaddr
  }

  function Padded(b: seq<byte>): seq<byte> {
    if |b| < MIN_LEN then b + Zeros(MIN_LEN - |b|) else b
  }

  function EncodeMessage(m: Message): seq<byte> {
    Padded(FixedPart(m) + TextOut(m.sname, SNAME_WIDTH) + TextOut(m.file, FILE_WIDTH)
           + (MAGIC_COOKIE + EncodeOptions(m.options)))
  }

  function FixedFields(b: seq<byte>, sname: seq<byte>, file: seq<byte>, options: seq<DhcpOption>): Message
    requires |b| >= 44
  {
    Message(b[0], b[1], b[2], b[3], BE32(b[4..8]), BE16(b[8..10]), BE16(b[10..12]),
            b[12..16], b[16..20], b[20..24], b[24..28], b[28..44], sname, file, options)
  }

  // Options first from the area after the cookie, then from `file`, then from
  // `sname`, each only when the area's own overload option says so.
  function DecodeMessage(lossy: Lossy, buf: seq<byte>): Option<Message> {
    if |buf| < 240 || buf[236..240] != MAGIC_COOKIE then None
    else
      var area := DecodeArea(lossy, buf[240..]);
      if area.None? then None
      else
        var over := area.value.overload;
        var inFile := if over.file then DecodeArea(lossy, buf[108..236]) else Some(Area([], over));
        var inSname := if over.sname then DecodeArea(lossy, buf[44..108]) else Some(Area([], over));
        if inFile.None? || inSname.None? then None
        else
          Some(FixedFields(buf[..44],
                           if over.sname then [] else lossy(UpToNul(buf[44..108])),
                           if over.file then [] else lossy(UpToNul(buf[108..236])),
                           area.value.options + inFile.value.options + inSname.value.options))
  }

  predicate Text(lossy: Lossy, text: seq<byte>, width: nat) {
    |text| < width && 0 !in text && lossy(text) == text
  }

  // A message whose every part has a form of its own on the wire.
  predicate WellFormed(lossy: Lossy, m: Message) {
    && Text(lossy, m.sname, SNAME_WIDTH)
    && Text(lossy, m.file, FILE_WIDTH)
    && forall i :: 0 <= i < |m.options| ==> Canonical(lossy, m.options[i])
  }

  lemma {:induction false} TextReads(text: seq<byte>, zeros: nat)
    requires 0 !in text && zeros > 0
    ensures UpToNul(text + Zeros(zeros)) == text
  {
    var f := text + Zeros(zeros);
    if text != [] {
      assert f[1..] == text[1..] + Zeros(zeros);
      TextReads(text[1..], zeros);
    }
  }

  // The five addresses behind the first twelve octets.
  lemma AddressesRead(head: seq<byte>, ciaddr: Ip, yiaddr: Ip, siaddr: Ip, giaddr: Ip, chaddr: Chaddr)
    requires |head| == 12
    ensures var b := head + ciaddr + yiaddr + siaddr + giaddr + chaddr;
            && |b| == 44 && b[..12] == head && b[12..16] == ciaddr && b[16..20] == yiaddr
            && b[20..24] == siaddr && b[24..28] == giaddr && b[28..44] == chaddr
  {
    var rest := ciaddr + yiaddr + siaddr + giaddr;
    var b := head + ciaddr + yiaddr + siaddr + giaddr + chaddr;
    assert b == head + rest + chaddr;
    assert |head + rest| == 28 && b[28..] == chaddr && b[..28] == head + rest;
    assert rest[..4] == ciaddr && rest[4..8] == yiaddr && rest[8..12] == siaddr && rest[12..16] == giaddr;
    assert b[12..28] == rest;
    assert b[12..16] == rest[..4] && b[16..20] == rest[4..8] && b[20..24] == rest[8..12] && b[24..28] == rest[12..16];
  }

  lemma FixedFieldsRead(m: Message)
    ensures FixedFields(FixedPart(m), m.sname, m.file, m.options) == m
  {
    var head := [m.op, m.htype, m.hlen, m.hops] + ToBE32(m.xid) + ToBE16(m.secs) + ToBE16(m.flags);
    var b := FixedPart(m);
    AddressesRead(head, m.ciaddr, m.yiaddr, m.siaddr, m.giaddr, m.chaddr);
    assert b == head + m.ciaddr + m.yiaddr + m.siaddr + m.giaddr + m.chaddr;
    assert b[..4] == head[..4] && b[4..8] == head[4..8] == ToBE32(m.xid);
    assert b[8..10] == head[8..10] == ToBE16(m.secs) && b[10..12] == head[10..12] == ToBE16(m.flags);
    BE32OfToBE32(m.xid);
    BE16OfToBE16(m.secs);
    BE16OfToBE16(m.flags);
    assert b[0] == m.op && b[1] == m.htype && b[2] == m.hlen && b[3] == m.hops;
  }

  lemma BE16OfToBE16(v: u16)
    ensures BE16(ToBE16(v)) == v
  {
  }

  // Where the parts of an encoded message lie, padding included.
  lemma MessageLayout(m: Message) returns (after: seq<byte>)
    ensures var buf := EncodeMessage(m);
            && |buf| >= 300 && buf[..44] == FixedPart(m) && buf[44..108] == TextOut(m.sname, SNAME_WIDTH)
            && buf[108..236] == TextOut(m.file, FILE_WIDTH) && buf[236..240] == MAGIC_COOKIE
            && buf[240..] == EncodeOptions(m.options) + after
  {
    hide FixedPart, TextOut, EncodeOptions, Zeros;
    var fixed, sname, file := FixedPart(m), TextOut(m.sname, SNAME_WIDTH), TextOut(m.file, FILE_WIDTH);
    var head, rest := fixed + sname + file, EncodeOptions(m.options);
    var b := head + (MAGIC_COOKIE + rest);
    after := if |b| < MIN_LEN then Zeros(MIN_LEN - |b|) else [];
    var buf := EncodeMessage(m);
    assert buf == b + after;
    assert buf == head + MAGIC_COOKIE + (rest + after);
    Spliced(head, MAGIC_COOKIE, rest + after);
    Spliced(fixed, sname, file);
    assert buf[..236] == head;
    assert buf[..44] == buf[..236][..44] && buf[44..108] == buf[..236][44..108] && buf[108..236] == buf[..236][108..];
  }

  // Decoding undoes encoding, for every well-formed message.
  lemma MessageRoundTrip(lossy: Lossy, m: Message)
    requires WellFormed(lossy, m)
    ensures DecodeMessage(lossy, EncodeMessage(m)) == Some(m)
  {
    hide FixedPart, FixedFields, EncodeOptions, EncodeMessage, DecodeArea, Canonical;
    var after := MessageLayout(m);
    AreaRoundTrip(lossy, m.options, after);
    FixedFieldsRead(m);
    assert TextOut(m.sname, SNAME_WIDTH) == m.sname + Zeros(SNAME_WIDTH - |m.sname|);
    assert TextOut(m.file, FILE_WIDTH) == m.file + Zeros(FILE_WIDTH - |m.file|);
    TextReads(m.sname, SNAME_WIDTH - |m.sname|);
    TextReads(m.file, FILE_WIDTH - |m.file|);
    assert m.options + [] + [] == m.options;
  }

  // The buffer is appended to field by field and stretched to the minimum.
  method Encode(m: Message) returns (buf: seq<byte>)
    ensures buf == EncodeMessage(m)
  {
    hide ToBE32, ToBE16, EncodeOptions;
    buf := [m.op, m.htype, m.hlen, m.hops];
    buf := buf + ToBE32(m.xid);
    buf := buf + ToBE16(m.secs);
    buf := buf + ToBE16(m.flags);
    buf := buf + m.ciaddr + m.yiaddr + m.siaddr + m.giaddr + m.chaddr;
    buf := AppendText(buf, m.sname, SNAME_WIDTH);
    buf := AppendText(buf, m.file, FILE_WIDTH);
    ghost var head := buf;
    buf := buf + MAGIC_COOKIE;
    buf := EncodeAll(m.options, buf);
    assert buf == head + (MAGIC_COOKIE + EncodeOptions(m.options));
    if |buf| < MIN_LEN {
      buf := buf + Zeros(MIN_LEN - |buf|);
    }
  }

  method AppendText(buf: seq<byte>, text: seq<byte>, width: nat) returns (out: seq<byte>)
    requires width > 0
    ensures out == buf + TextOut(text, width)
  {
    var len := if |text| < width then |text| else width - 1;
    out := buf + text[..len];
    out := out + Zeros(|buf| + width - |out|);
    assert out == buf + (text[..len] + Zeros(width - len));
  }

  // One options vector collects from the area, then `file`, then `sname`.
  method Decode(lossy: Lossy, buf: seq<byte>) returns (m: Option<Message>)
    ensures m == DecodeMessage(lossy, buf)
  {
    hide DecodeArea, FixedFields, UpToNul;
    if |buf| < 240 || buf[236..240] != MAGIC_COOKIE { return None; }
    var area := DecodeInto(lossy, buf[240..], []);
    if area.None? { return None; }
    var over, options := area.value.overload, area.value.options;
    ghost var first := DecodeArea(lossy, buf[240..]).value.options;
    assert [] + first == first;
    if over.file {
      area := DecodeInto(lossy, buf[108..236], options);
      if area.None? { return None; }
      options := area.value.options;
    }
    if over.sname {
      area := DecodeInto(lossy, buf[44..108], options);
      if area.None? { return None; }
      options := area.value.options;
    }
    ghost var inFile := if over.file then DecodeArea(lossy, buf[108..236]) else Some(Area([], over));
    ghost var inSname := if over.sname then DecodeArea(lossy, buf[44..108]) else Some(Area([], over));
    assert options == first + inFile.value.options + inSname.value.options;
    m := Some(FixedFields(buf[..44],
                          if over.sname then [] else lossy(UpToNul(buf[44..108])),
                          if over.file then [] else lossy(UpToNul(buf[108..236])),
                          options));
  }

  // ---- what the client reads out of a message --------------------------------------

  function KindOf(options: seq<DhcpOption>): Option<MessageType> {
    if options == [] then None
    else if options[0].MessageKind? then Some(options[0].kind)
    else KindOf(options[1..])
  }

  function ServerOf(options: seq<DhcpOption>): Option<Ip> {
    if options == [] then None
    else if options[0].ServerId? then Some(options[0].server)
    else ServerOf(options[1..])
  }

  function Get(options: seq<DhcpOption>, code: byte): Option<DhcpOption> {
    if options == [] then None
    else if CodeOf(options[0]) == code then Some(options[0])
    else Get(options[1..], code)
  }
}
