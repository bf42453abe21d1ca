// The file a saved network lives in: any SSID spelled as a path component, and
// read back (crates/caw-core/src/profile.rs).

module ProfileNames {
  import opened Bytes

  const PERCENT: byte := 37
  const PLUS: byte := 43
  const DASH: byte := 45
  const UNDERSCORE: byte := 95
  const SUFFIX: seq<byte> := [46, 106, 115, 111, 110]

  predicate Plain(b: byte) {
    65 <= b <= 90 || 97 <= b <= 122 || 48 <= b <= 57 || b == DASH || b == UNDERSCORE
  }

  function HexDigit(n: nat): (b: byte)
    requires n < 16
  {
    if n < 10 then 48 + n else 55 + n
  }

  // Upper or lower case.
  function DigitOf(b: byte): (n: Option<nat>)
    ensures n.Some? ==> n.value < 16
  {
    if 48 <= b <= 57 then Some(b - 48)
    else if 65 <= b <= 70 then Some(b - 55)
    else if 97 <= b <= 102 then Some(b - 87)
    else None
  }

  // Two octets read as a base-16 number, which may begin with a plus sign.
  function Radix16(a: byte, b: byte): Option<byte> {
    var high, low := DigitOf(a), DigitOf(b);
    if low.None? then None
    else if a == PLUS then Some(low.value)
    else if high.None? then None
    else Some(16 * high.value + low.value)
  }

  function Escaped(b: byte): (s: seq<byte>)
    ensures |s| > 0
  {
    if Plain(b) then [b] else [PERCENT, HexDigit(b / 16), HexDigit(b % 16)]
  }

  function Stem(ssid: seq<byte>): seq<byte> {
    if ssid == [] then [] else Escaped(ssid[0]) + Stem(ssid[1..])
  }

  function FileName(ssid: seq<byte>): seq<byte> {
    Stem(ssid) + SUFFIX
  }

  function Unescaped(stem: seq<byte>): Option<seq<byte>> {
    if stem == [] then Some([])
    else if Plain(stem[0]) then
      var rest := Unescaped(stem[1..]);
      if rest.None? then None else Some([stem[0]] + rest.value)
    else if stem[0] != PERCENT || |stem| < 3 || Radix16(stem[1], stem[2]).None? then None
    else
      var rest := Unescaped(stem[3..]);
      if rest.None? then None else Some([Radix16(stem[1], stem[2]).value] + rest.value)
  }

  predicate HasSuffix(name: seq<byte>) {
    |name| >= |SUFFIX| && name[|name| - |SUFFIX|..] == SUFFIX
  }

  function SsidOf(name: seq<byte>): Option<seq<byte>> {
    if !HasSuffix(name) then None
    else
      var ssid := Unescaped(name[..|name| - |SUFFIX|]);
      if ssid.None? || ssid.value == [] then None else ssid
  }

  method BuildFileName(ssid: seq<byte>) returns (out: seq<byte>)
    ensures out == FileName(ssid)
  {
    hide Escaped;
    out := [];
    for i := 0 to |ssid|
      invariant out + Stem(ssid[i..]) == Stem(ssid)
    {
      ghost var tail := ssid[i..];
      assert tail[1..] == ssid[i + 1..];
      Joins(out, Escaped(ssid[i]), Stem(tail[1..]));
      out := out + Escaped(ssid[i]);
    }
    assert out + [] == out;
    out := out + SUFFIX;
  }

  method ReadFileName(name: seq<byte>) returns (ssid: Option<seq<byte>>)
    ensures ssid == SsidOf(name)
  {
    if !HasSuffix(name) { return None; }
    var stem := name[..|name| - |SUFFIX|];
    var out, rest := [], stem;
    ghost var whole := Unescaped(stem);
    assert whole.Some? ==> [] + whole.value == whole.value;
    while rest != []
      invariant whole.None? <==> Unescaped(rest).None?
      invariant whole.Some? ==> whole.value == out + Unescaped(rest).value
      decreases |rest|
    {
      ghost var left := Unescaped(rest);
      if Plain(rest[0]) {
        ghost var more := Unescaped(rest[1..]);
        if more.Some? { Joins(out, [rest[0]], more.value); }
        out, rest := out + [rest[0]], rest[1..];
      } else if rest[0] == PERCENT {
        if |rest| < 3 { return None; }
        var octet := Radix16(rest[1], rest[2]);
        if octet.None? { return None; }
        ghost var more := Unescaped(rest[3..]);
        if more.Some? { Joins(out, [octet.value], more.value); }
        out, rest := out + [octet.value], rest[3..];
      } else {
        return None;
      }
    }
    assert out + [] == out;
    ssid := if out == [] then None else Some(out);
  }

  // ---- there and back --------------------------------------------------------------

  lemma EscapeReads(b: byte)
    requires !Plain(b)
    ensures Radix16(HexDigit(b / 16), HexDigit(b % 16)) == Some(b) && HexDigit(b / 16) != PLUS
  {
  }

  lemma {:induction false} StemReads(ssid: seq<byte>)
    ensures Unescaped(Stem(ssid)) == Some(ssid)
  {
    hide Radix16, HexDigit;
    if ssid != [] {
      var b, rest := ssid[0], Stem(ssid[1..]);
      StemReads(ssid[1..]);
      assert [b] + ssid[1..] == ssid;
      if Plain(b) {
        assert ([b] + rest)[1..] == rest;
      } else {
        EscapeReads(b);
        assert (Escaped(b) + rest)[3..] == rest;
      }
    }
  }

  // Every SSID but the empty one comes back out of its file name, whatever
  // octets it is made of; the empty one has no file.
  lemma NamesReadBack(ssid: seq<byte>)
    ensures SsidOf(FileName(ssid)) == if ssid == [] then None else Some(ssid)
  {
    StemReads(ssid);
    var name := FileName(ssid);
    assert name[..|name| - |SUFFIX|] == Stem(ssid) && name[|name| - |SUFFIX|..] == SUFFIX;
  }

  lemma NamesAreDistinct(a: seq<byte>, b: seq<byte>)
    requires a != b && a != [] && b != []
    ensures FileName(a) != FileName(b)
  {
    NamesReadBack(a);
    NamesReadBack(b);
  }

  // ---- names nobody wrote ---------------------------------------------------------------

  predicate UpperHex(b: byte) {
    48 <= b <= 57 || 65 <= b <= 70
  }

  // Escapes in capitals, and only of what needs one.
  predicate Canonical(stem: seq<byte>) {
    || stem == []
    || (Plain(stem[0]) && Canonical(stem[1..]))
    || (stem[0] == PERCENT && |stem| >= 3 && UpperHex(stem[1]) && UpperHex(stem[2])
        && Radix16(stem[1], stem[2]).Some? && !Plain(Radix16(stem[1], stem[2]).value) && Canonical(stem[3..]))
  }

  lemma EscapeIsCanonical(a: byte, b: byte)
    requires Radix16(a, b).Some? && !Plain(Radix16(a, b).value)
    ensures Escaped(Radix16(a, b).value) == [PERCENT, a, b] <==> UpperHex(a) && UpperHex(b)
  {
  }

  lemma {:induction false} StemRebuilds(stem: seq<byte>)
    requires Unescaped(stem).Some?
    ensures Stem(Unescaped(stem).value) == stem <==> Canonical(stem)
  {
    hide Radix16, UpperHex, HexDigit;
    if stem != [] {
      var octets := Unescaped(stem).value;
      if Plain(stem[0]) {
        StemRebuilds(stem[1..]);
        var rest := Unescaped(stem[1..]).value;
        assert octets[0] == stem[0] && octets[1..] == rest;
        assert Stem(octets) == [stem[0]] + Stem(rest);
        assert ([stem[0]] + Stem(rest))[1..] == Stem(rest);
        assert stem == [stem[0]] + stem[1..];
      } else {
        StemRebuilds(stem[3..]);
        var b, rest := Radix16(stem[1], stem[2]).value, Unescaped(stem[3..]).value;
        assert octets[0] == b && octets[1..] == rest;
        assert Stem(octets) == Escaped(b) + Stem(rest);
        if Plain(b) {
          assert Stem(octets)[0] == b && b != PERCENT;
        } else {
          EscapeIsCanonical(stem[1], stem[2]);
          assert |Escaped(b)| == 3 && (Escaped(b) + Stem(rest))[..3] == Escaped(b) && (Escaped(b) + Stem(rest))[3..] == Stem(rest);
          assert stem == [PERCENT, stem[1], stem[2]] + stem[3..] && stem[..3] == [PERCENT, stem[1], stem[2]];
        }
      }
    }
  }

  // A name that is read is one that would have been written exactly when every
  // escape in it is in capitals and of an octet that needs escaping.
  lemma ReadNamesWereWritten(name: seq<byte>)
    requires SsidOf(name).Some?
    ensures FileName(SsidOf(name).value) == name <==> Canonical(name[..|name| - |SUFFIX|])
  {
    var stem := name[..|name| - |SUFFIX|];
    StemRebuilds(stem);
    var built := Stem(SsidOf(name).value);
    assert (built + SUFFIX)[..|built + SUFFIX| - |SUFFIX|] == built;
    assert name == stem + SUFFIX;
  }

  // So a file nobody wrote can be read as a network: `%41.json` is taken for
  // the network `A`, whose own file is `A.json`, and `%+1.json` for an SSID of
  // one control octet.
  lemma OthersAreReadToo()
    ensures var name := [PERCENT, 52, 49] + SUFFIX; SsidOf(name) == Some([65]) && FileName([65]) != name
    ensures var name := [PERCENT, PLUS, 49] + SUFFIX; SsidOf(name) == Some([1]) && FileName([1]) != name
  {
    ReadsAs(52, 49);
    ReadsAs(PLUS, 49);
    assert Stem([65]) == [65] && |FileName([65])| == 6;
    assert Stem([1]) == [PERCENT, 48, 49] && FileName([1])[1] == 48;
  }

  lemma ReadsAs(a: byte, b: byte)
    requires Radix16(a, b).Some?
    ensures SsidOf([PERCENT, a, b] + SUFFIX) == Some([Radix16(a, b).value])
  {
    hide Radix16;
    var stem := [PERCENT, a, b];
    var name := stem + SUFFIX;
    assert name[..|name| - |SUFFIX|] == stem && name[|name| - |SUFFIX|..] == SUFFIX;
    assert stem[3..] == [] && Unescaped(stem[3..]) == Some([]);
    var read := [Radix16(a, b).value];
    assert read + [] == read && Unescaped(stem) == Some(read);
  }
}
