// Cipher and AKM suites, the RSN element the access point advertises, and the
// RSN element the station answers with (crates/caw-80211, crates/caw-core/src/rsn.rs).

module Suites {
  import opened Bytes

  const OUI_IEEE: seq<byte> := [0x00, 0x0f, 0xac]
  const OUI_MICROSOFT: seq<byte> := [0x00, 0x50, 0xf2]
  const EID_RSN: byte := 48
  const CAP_MFPC: nat := 0x40
  const CAP_MFPR: nat := 0x80

  // Three OUI octets, then the suite type.
  type Selector = s: seq<byte> | |s| == 4 witness [0, 0, 0, 0]

  datatype Cipher =
    | UseGroup | Wep40 | Tkip | Ccmp128 | Wep104 | BipCmac128 | Gcmp128 | Gcmp256 | Ccmp256
    | UnknownCipher(cipherSelector: Selector)

  datatype Akm =
    | Psk | PskSha256 | Sae | Dot1x | Dot1xSha256 | Owe | FtPsk | FtSae | FtDot1x | Dot1xSuiteB192
    | UnknownAkm(akmSelector: Selector)
  {
    predicate IsPsk() { Psk? || PskSha256? || FtPsk? }
    predicate IsSae() { Sae? || FtSae? }
    predicate IsEnterprise() { Dot1x? || Dot1xSha256? || FtDot1x? || Dot1xSuiteB192? }
  }

  datatype Security =
    | Open | Wep | Wpa1Personal | Wpa1Enterprise | Wpa2Personal | Wpa3Personal
    | Wpa2Wpa3Personal | Wpa2Enterprise | Wpa3Enterprise | OweSecurity

  // ---- selectors ------------------------------------------------------------

  predicate StandardOui(s: Selector) {
    s[..3] == OUI_IEEE || s[..3] == OUI_MICROSOFT
  }

  function CipherOf(s: Selector): Cipher {
    if !StandardOui(s) then UnknownCipher(s)
    else match s[3]
      case 0 => UseGroup
      case 1 => Wep40
      case 2 => Tkip
      case 4 => Ccmp128
      case 5 => Wep104
      case 6 => BipCmac128
      case 8 => Gcmp128
      case 9 => Gcmp256
      case 10 => Ccmp256
      case _ => UnknownCipher(s)
  }

  function AkmOf(s: Selector): Akm {
    if !StandardOui(s) then UnknownAkm(s)
    else match s[3]
      case 1 => Dot1x
      case 2 => Psk
      case 3 => FtDot1x
      case 4 => FtPsk
      case 5 => Dot1xSha256
      case 6 => PskSha256
      case 8 => Sae
      case 9 => FtSae
      case 12 => Dot1xSuiteB192
      case 18 => Owe
      case _ => UnknownAkm(s)
  }

  function Ieee(suite: byte): Selector {
    OUI_IEEE + [suite]
  }

  // The suite type of every cipher that has one of its own.
  function CipherType(c: Cipher): byte {
    match c
    case UseGroup => 0
    case Wep40 => 1
    case Tkip => 2
    case Ccmp128 => 4
    case Wep104 => 5
    case BipCmac128 => 6
    case Gcmp128 => 8
    case Gcmp256 => 9
    case Ccmp256 => 10
    case UnknownCipher(s) => s[3]
  }

  // What goes in the element, where "use the group key" has a selector too.
  function CipherSelector(c: Cipher): Selector {
    if c.UnknownCipher? then c.cipherSelector else Ieee(CipherType(c))
  }

  // What goes to the kernel, which a station cannot ask for "use the group key".
  function KernelCipher(c: Cipher): Option<Selector> {
    if c == UseGroup then None else Some(CipherSelector(c))
  }

  function AkmType(a: Akm): byte {
    match a
    case Dot1x => 1
    case Psk => 2
    case FtDot1x => 3
    case FtPsk => 4
    case Dot1xSha256 => 5
    case PskSha256 => 6
    case Sae => 8
    case FtSae => 9
    case Dot1xSuiteB192 => 12
    case Owe => 18
    case UnknownAkm(s) => s[3]
  }

  function AkmSelector(a: Akm): Selector {
    if a.UnknownAkm? then a.akmSelector else Ieee(AkmType(a))
  }

  // Ciphers and AKMs that can have come out of a selector. An "unknown" value
  // wrapping a selector that names a known suite cannot.
  predicate CanonicalCipher(c: Cipher) {
    c.UnknownCipher? ==> CipherOf(c.cipherSelector) == c
  }

  predicate CanonicalAkm(a: Akm) {
    a.UnknownAkm? ==> AkmOf(a.akmSelector) == a
  }

  // Reading back a selector names the same suite, for exactly the suites a
  // selector can name.
  lemma SelectorsRoundTrip(c: Cipher, a: Akm)
    ensures CipherOf(CipherSelector(c)) == c <==> CanonicalCipher(c)
    ensures AkmOf(AkmSelector(a)) == a <==> CanonicalAkm(a)
  {
    assert forall b: byte :: Ieee(b)[..3] == OUI_IEEE && Ieee(b)[3] == b;
  }

  // ---- reading an element ---------------------------------------------------

  datatype RsnError = Truncated | BadElement

  datatype RsnIe = RsnIe(
    group: Cipher,
    pairwise: seq<Cipher>,
    akms: seq<Akm>,
    capabilities: u16,
    mfpCapable: bool,
    mfpRequired: bool,
    groupMgmt: Option<Cipher>,
    raw: seq<byte>)

  // A field read off the front, and what is left; a short read leaves
  // everything.
  datatype Read<+T> = Read(value: Option<T>, rest: seq<byte>)

  function TakeN(s: seq<byte>, n: nat): Read<seq<byte>> {
    if |s| < n then Read(None, s) else Read(Some(s[..n]), s[n..])
  }

  function ReadU16(s: seq<byte>): Read<u16> {
    if |s| < 2 then Read(None, s) else Read(Some(LE16(s[..2])), s[2..])
  }

  function ReadSelector(s: seq<byte>): Read<Selector> {
    if |s| < 4 then Read(None, s) else Read(Some(s[..4]), s[4..])
  }

  // As many of `count` selectors as the octets hold.
  function Selectors(s: seq<byte>, count: nat): (r: Read<seq<Selector>>)
    ensures r.value.Some?
  {
    if count == 0 || |s| < 4 then Read(Some([]), s)
    else
      var more := Selectors(s[4..], count - 1);
      Read(Some([s[..4]] + more.value.value), more.rest)
  }

  function ReadSuiteList(s: seq<byte>): Read<seq<Selector>> {
    var count := ReadU16(s);
    if count.value.None? then Read(None, s) else Selectors(count.rest, count.value.value)
  }

  function CiphersOf(s: seq<Selector>): (c: seq<Cipher>)
    ensures |c| == |s| && forall i :: 0 <= i < |s| ==> c[i] == CipherOf(s[i])
  {
    seq(|s|, i requires 0 <= i < |s| => CipherOf(s[i]))
  }

  function AkmsOf(s: seq<Selector>): (a: seq<Akm>)
    ensures |a| == |s| && forall i :: 0 <= i < |s| ==> a[i] == AkmOf(s[i])
  {
    seq(|s|, i requires 0 <= i < |s| => AkmOf(s[i]))
  }

  // The part of the element after its capabilities: PMKIDs stepped over, then
  // the group management cipher.
  function GroupMgmtOf(afterCaps: seq<byte>): Option<Cipher> {
    var count := ReadU16(afterCaps);
    var skipped := TakeN(count.rest, 16 * count.value.GetOr(0));
    if skipped.value.None? then None
    else
      var s := ReadSelector(skipped.rest);
      if s.value.None? then None else Some(CipherOf(s.value.value))
  }

  // A body may stop after any field; what is missing takes its default.
  function RsnOfBody(body: seq<byte>): Result<RsnIe, RsnError> {
    var version := ReadU16(body);
    if version.value.None? then Err(Truncated)
    else if version.value.value != 1 then Err(BadElement)
    else
      var group := ReadSelector(version.rest);
      var pairwise := ReadSuiteList(group.rest);
      var akms := ReadSuiteList(pairwise.rest);
      var caps := ReadU16(akms.rest);
      var bits := caps.value.GetOr(0);
      Ok(RsnIe(
           if group.value.Some? then CipherOf(group.value.value) else Ccmp128,
           if pairwise.value.Some? then CiphersOf(pairwise.value.value) else [Ccmp128],
           if akms.value.Some? then AkmsOf(akms.value.value) else [Dot1x],
           bits, Bit(bits, CAP_MFPC), Bit(bits, CAP_MFPR),
           GroupMgmtOf(caps.rest), []))
  }

  // The whole element, header included; octets past its declared length are
  // somebody else's.
  function ParseRsn(element: seq<byte>): Result<RsnIe, RsnError> {
    if |element| < 2 || element[0] != EID_RSN || |element| - 2 < element[1] then Err(Truncated)
    else
      var end := 2 + (element[1] as int);
      var body := RsnOfBody(element[2..end]);
      if body.Err? then body else Ok(body.value.(raw := element[..end]))
  }

  // What a scan can have put in a BSS entry: the element, parsed.
  predicate Scanned(rsn: RsnIe) {
    ParseRsn(rsn.raw) == Ok(rsn)
  }

  lemma NamedIsCanonical(s: Selector)
    ensures CanonicalCipher(CipherOf(s)) && CanonicalAkm(AkmOf(s))
  {
  }

  lemma DefaultsAreCanonical()
    ensures CanonicalCipher(Ccmp128) && CanonicalAkm(Dot1x)
  {
  }

  lemma BodyIsCanonical(body: seq<byte>)
    requires RsnOfBody(body).Ok?
    ensures var rsn := RsnOfBody(body).value;
            && CanonicalCipher(rsn.group)
            && (rsn.groupMgmt.Some? ==> CanonicalCipher(rsn.groupMgmt.value))
            && (forall c :: c in rsn.pairwise ==> CanonicalCipher(c))
            && (forall a :: a in rsn.akms ==> CanonicalAkm(a))
    ensures |body| >= 2
  {
    assert |body| >= 2;
    hide CipherOf, AkmOf, CanonicalCipher, CanonicalAkm, ReadU16, ReadSuiteList, ReadSelector, TakeN, Bit;
    forall s: Selector ensures CanonicalCipher(CipherOf(s)) && CanonicalAkm(AkmOf(s)) { NamedIsCanonical(s); }
    DefaultsAreCanonical();
  }

  // An advertised element is a complete, non-empty element of id 48 naming
  // only suites that a selector can name.
  lemma ScannedShape(rsn: RsnIe)
    requires Scanned(rsn)
    ensures |rsn.raw| >= 4 && rsn.raw[0] == EID_RSN && |rsn.raw| == 2 + (rsn.raw[1] as int)
    ensures CanonicalCipher(rsn.group)
    ensures rsn.groupMgmt.Some? ==> CanonicalCipher(rsn.groupMgmt.value)
    ensures forall c :: c in rsn.pairwise ==> CanonicalCipher(c)
    ensures forall a :: a in rsn.akms ==> CanonicalAkm(a)
  {
    var body := rsn.raw[2..2 + (rsn.raw[1] as int)];
    var inner := RsnOfBody(body).value;
    assert rsn == inner.(raw := rsn.raw);
    BodyIsCanonical(body);
  }

  // The element's reader, advancing over what is left of it.
  class Cursor {
    var rest: seq<byte>

    constructor (body: seq<byte>)
      ensures rest == body
    {
      rest := body;
    }

    method Take(n: nat) returns (r: Option<seq<byte>>)
      modifies this
      ensures Read(r, rest) == TakeN(old(rest), n)
    {
      if |rest| < n { return None; }
      r := Some(rest[..n]);
      rest := rest[n..];
    }

    method U16le() returns (r: Option<u16>)
      modifies this
      ensures Read(r, rest) == ReadU16(old(rest))
    {
      var b := Take(2);
      r := if b.Some? then Some(LE16(b.value)) else None;
    }

    method NextSelector() returns (r: Option<Selector>)
      modifies this
      ensures Read(r, rest) == ReadSelector(old(rest))
    {
      var b := Take(4);
      r := if b.Some? then Some(b.value) else None;
    }

    method SuiteList() returns (r: Option<seq<Selector>>)
      modifies this
      ensures Read(r, rest) == ReadSuiteList(old(rest))
    {
      var count := U16le();
      if count.None? { return None; }
      var out: seq<Selector> := [];
      ghost var all := Selectors(rest, count.value);
      var left: nat := count.value;
      assert out + all.value.value == all.value.value;
      while left > 0
        invariant all == Read(Some(out + Selectors(rest, left).value.value), Selectors(rest, left).rest)
      {
        ghost var before, start := out, rest;
        var s := NextSelector();
        if s.None? { break; }
        out := out + [s.value];
        left := left - 1;
        assert Selectors(start, left + 1).value.value == [s.value] + Selectors(rest, left).value.value;
        assert before + ([s.value] + Selectors(rest, left).value.value)
            == out + Selectors(rest, left).value.value;
      }
      assert out + [] == out;
      r := Some(out);
    }
  }

  method ParseBody(body: seq<byte>) returns (r: Result<RsnIe, RsnError>)
    ensures r == RsnOfBody(body)
  {
    var cur := new Cursor(body);
    var version := cur.U16le();
    if version.None? { return Err(Truncated); }
    if version.value != 1 { return Err(BadElement); }
    var group := cur.NextSelector();
    var pairwise := cur.SuiteList();
    var akms := cur.SuiteList();
    var caps := cur.U16le();
    var pmkids := cur.U16le();
    var mgmt := None;
    var skipped := cur.Take(16 * pmkids.GetOr(0));
    if skipped.Some? {
      var s := cur.NextSelector();
      if s.Some? { mgmt := Some(CipherOf(s.value)); }
    }
    var bits := caps.GetOr(0);
    r := Ok(RsnIe(
              if group.Some? then CipherOf(group.value) else Ccmp128,
              if pairwise.Some? then CiphersOf(pairwise.value) else [Ccmp128],
              if akms.Some? then AkmsOf(akms.value) else [Dot1x],
              bits, Bit(bits, CAP_MFPC), Bit(bits, CAP_MFPR), mgmt, []));
  }

  // ---- the station's own element --------------------------------------------

  datatype StationRsn = StationRsn(
    group: Cipher,
    pairwise: Cipher,
    akm: Akm,
    mfpCapable: bool,
    mfpRequired: bool,
    pmkid: Option<seq<byte>>,
    groupMgmt: Option<Cipher>)

  predicate ValidStation(s: StationRsn) {
    s.pmkid.Some? ==> |s.pmkid.value| == 16
  }

  function Capabilities(s: StationRsn): u16 {
    (if s.mfpCapable then CAP_MFPC else 0) + (if s.mfpRequired then CAP_MFPR else 0)
  }

  // The positional fields that follow the capabilities, absent together.
  function StationTail(s: StationRsn): seq<byte> {
    if s.pmkid.None? && s.groupMgmt.None? then []
    else
      ToLE16(if s.pmkid.Some? then 1 else 0)
      + s.pmkid.GetOr([])
      + (if s.groupMgmt.Some? then CipherSelector(s.groupMgmt.value) else [])
  }

  // The fixed fields of an element naming one suite of each kind.
  function AfterGroup(pairwise: Selector, akm: Selector, caps: u16, tail: seq<byte>): (b: seq<byte>)
    ensures |b| == 14 + |tail|
  {
    ToLE16(1) + (pairwise + (ToLE16(1) + (akm + (ToLE16(caps) + tail))))
  }

  function OneOfEach(group: Selector, pairwise: Selector, akm: Selector, caps: u16, tail: seq<byte>): (b: seq<byte>)
    ensures |b| == 20 + |tail|
  {
    ToLE16(1) + (group + AfterGroup(pairwise, akm, caps, tail))
  }

  function StationSuites(s: StationRsn): (b: seq<byte>)
    ensures |b| == 20 + |StationTail(s)|
  {
    OneOfEach(CipherSelector(s.group), CipherSelector(s.pairwise), AkmSelector(s.akm), Capabilities(s), StationTail(s))
  }

  function StationElement(s: StationRsn): (e: seq<byte>)
    requires ValidStation(s)
    ensures 22 <= |e| <= 44
  {
    [EID_RSN, |StationSuites(s)|] + StationSuites(s)
  }

  lemma Regrouped(g: Selector, p: Selector, a: Selector, caps: u16, tail: seq<byte>)
    ensures [EID_RSN, 0] + ToLE16(1) + g + ToLE16(1) + p + ToLE16(1) + a + ToLE16(caps) + tail
         == [EID_RSN, 0] + OneOfEach(g, p, a, caps, tail)
  {
    var h := [EID_RSN, 0] + ToLE16(1) + g;
    assert h == [EID_RSN, 0] + (ToLE16(1) + g);
    var q := ToLE16(1) + p + ToLE16(1) + a + ToLE16(caps) + tail;
    assert q == AfterGroup(p, a, caps, tail);
    assert h + ToLE16(1) + p + ToLE16(1) + a + ToLE16(caps) + tail == h + q;
  }

  method EncodeStation(s: StationRsn) returns (out: seq<byte>)
    requires ValidStation(s)
    ensures out == StationElement(s)
  {
    out := [EID_RSN, 0];
    out := out + ToLE16(1);
    out := out + CipherSelector(s.group);
    out := out + ToLE16(1);
    out := out + CipherSelector(s.pairwise);
    out := out + ToLE16(1);
    out := out + AkmSelector(s.akm);
    var capabilities: u16 := 0;
    if s.mfpCapable { capabilities := capabilities + CAP_MFPC; }
    if s.mfpRequired { capabilities := capabilities + CAP_MFPR; }
    out := out + ToLE16(capabilities);
    out := EncodeTail(s, out);
    Regrouped(CipherSelector(s.group), CipherSelector(s.pairwise), AkmSelector(s.akm), capabilities, StationTail(s));
    var len := |out| - 2;
    out := out[1 := len];
  }

  method EncodeTail(s: StationRsn, before: seq<byte>) returns (out: seq<byte>)
    requires ValidStation(s)
    ensures out == before + StationTail(s)
  {
    out := before;
    if s.pmkid.Some? || s.groupMgmt.Some? {
      out := out + ToLE16(if s.pmkid.Some? then 1 else 0);
      if s.pmkid.Some? { out := out + s.pmkid.value; }
      if s.groupMgmt.Some? { out := out + CipherSelector(s.groupMgmt.value); }
    }
  }

  lemma TailParses(s: StationRsn)
    requires ValidStation(s)
    ensures GroupMgmtOf(StationTail(s))
         == if s.groupMgmt.Some? then Some(CipherOf(CipherSelector(s.groupMgmt.value))) else None
  {
    var t := StationTail(s);
    if s.pmkid.Some? || s.groupMgmt.Some? {
      var n := if s.pmkid.Some? then 1 else 0;
      var sel := if s.groupMgmt.Some? then CipherSelector(s.groupMgmt.value) else [];
      assert t[..2] == ToLE16(n);
      assert t[2..] == s.pmkid.GetOr([]) + sel;
      assert LE16(t[..2]) == n;
      assert t[2..][16 * n..] == sel;
      assert sel != [] ==> sel[..4] == sel;
    }
  }

  lemma OneSuite(sel: Selector, rest: seq<byte>)
    ensures ReadSuiteList(ToLE16(1) + (sel + rest)) == Read(Some([sel]), rest)
  {
    var s := ToLE16(1) + (sel + rest);
    assert s[2..] == sel + rest;
    assert (sel + rest)[4..] == rest && (sel + rest)[..4] == sel;
    assert Selectors(rest, 0) == Read(Some([]), rest);
    assert [sel] + [] == [sel];
  }

  lemma AfterGroupParses(p: Selector, a: Selector, caps: u16, tail: seq<byte>)
    ensures var pairwise := ReadSuiteList(AfterGroup(p, a, caps, tail));
            var akms := ReadSuiteList(pairwise.rest);
            && pairwise.value == Some([p])
            && akms.value == Some([a])
            && ReadU16(akms.rest) == Read(Some(caps), tail)
  {
    var afterAkm := ToLE16(caps) + tail;
    OneSuite(p, ToLE16(1) + (a + afterAkm));
    OneSuite(a, afterAkm);
    assert afterAkm[..2] == ToLE16(caps) && afterAkm[2..] == tail;
  }

  lemma BodyParses(g: Selector, p: Selector, a: Selector, caps: u16, tail: seq<byte>)
    ensures RsnOfBody(OneOfEach(g, p, a, caps, tail))
         == Ok(RsnIe(CipherOf(g), [CipherOf(p)], [AkmOf(a)], caps, Bit(caps, CAP_MFPC), Bit(caps, CAP_MFPR),
                     GroupMgmtOf(tail), []))
  {
    var body := OneOfEach(g, p, a, caps, tail);
    var afterVersion := g + AfterGroup(p, a, caps, tail);
    assert body[..2] == ToLE16(1) && body[2..] == afterVersion;
    assert ReadU16(body) == Read(Some(1), afterVersion);
    assert afterVersion[..4] == g && afterVersion[4..] == AfterGroup(p, a, caps, tail);
    AfterGroupParses(p, a, caps, tail);
    assert CiphersOf([p]) == [CipherOf(p)];
    assert AkmsOf([a]) == [AkmOf(a)];
  }

  lemma WrappedParses(body: seq<byte>, after: seq<byte>)
    requires |body| < 256
    ensures var element := [EID_RSN, |body|] + body;
            var inner := RsnOfBody(body);
            ParseRsn(element + after) == if inner.Err? then inner else Ok(inner.value.(raw := element))
  {
    var e := [EID_RSN, |body|] + body + after;
    assert e[2..2 + |body|] == body;
    assert e[..2 + |body|] == [EID_RSN, |body|] + body;
  }

  lemma CapabilityBits(s: StationRsn)
    ensures Bit(Capabilities(s), CAP_MFPC) == s.mfpCapable
    ensures Bit(Capabilities(s), CAP_MFPR) == s.mfpRequired
  {
  }

  lemma StationSuitesParse(s: StationRsn)
    requires ValidStation(s) && CanonicalCipher(s.group) && CanonicalCipher(s.pairwise) && CanonicalAkm(s.akm)
    requires s.groupMgmt.Some? ==> CanonicalCipher(s.groupMgmt.value)
    ensures RsnOfBody(StationSuites(s))
         == Ok(RsnIe(s.group, [s.pairwise], [s.akm], Capabilities(s), s.mfpCapable, s.mfpRequired, s.groupMgmt, []))
  {
    BodyParses(CipherSelector(s.group), CipherSelector(s.pairwise), AkmSelector(s.akm), Capabilities(s), StationTail(s));
    SelectorsRoundTrip(s.group, s.akm);
    SelectorsRoundTrip(s.pairwise, s.akm);
    TailParses(s);
    if s.groupMgmt.Some? { SelectorsRoundTrip(s.groupMgmt.value, s.akm); }
    CapabilityBits(s);
  }

  // The element in an association request says, to any reader of RSN elements,
  // exactly the suites and protection the station chose, whatever follows it.
  lemma StationElementParses(s: StationRsn, after: seq<byte>)
    requires ValidStation(s) && CanonicalCipher(s.group) && CanonicalCipher(s.pairwise) && CanonicalAkm(s.akm)
    requires s.groupMgmt.Some? ==> CanonicalCipher(s.groupMgmt.value)
    ensures ParseRsn(StationElement(s) + after)
         == Ok(RsnIe(s.group, [s.pairwise], [s.akm], Capabilities(s), s.mfpCapable, s.mfpRequired,
                     s.groupMgmt, StationElement(s)))
  {
    StationSuitesParse(s);
    WrappedParses(StationSuites(s), after);
  }

  // ---- classification -------------------------------------------------------

  // Undefined for a list of strangers.
  function SecurityOfAkms(akms: seq<Akm>, mfpRequired: bool): Option<Security> {
    var sae := exists a :: a in akms && a.IsSae();
    var psk := exists a :: a in akms && a.IsPsk();
    var enterprise := exists a :: a in akms && a.IsEnterprise();
    if sae && psk then Some(Wpa2Wpa3Personal)
    else if sae then Some(Wpa3Personal)
    else if Owe in akms then Some(OweSecurity)
    else if enterprise then
      Some(if mfpRequired || Dot1xSuiteB192 in akms then Wpa3Enterprise else Wpa2Enterprise)
    else if psk then Some(Wpa2Personal)
    else None
  }

  // `wpaAkms` are the AKMs of a legacy WPA1 element, if the beacon has one.
  function Classify(rsn: Option<RsnIe>, wpaAkms: Option<seq<Akm>>, privacy: bool): Security {
    var fromRsn := if rsn.Some? then SecurityOfAkms(rsn.value.akms, rsn.value.mfpRequired) else None;
    if fromRsn.Some? then fromRsn.value
    else if wpaAkms.Some? then
      if exists a :: a in wpaAkms.value && a.IsEnterprise() then Wpa1Enterprise else Wpa1Personal
    else if privacy then Wep
    else Open
  }
}
