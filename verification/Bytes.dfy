// Octets, fixed-width integers on the wire, and the few sequence facts that
// every codec of the supplicant leans on.

module Bytes {
  type byte = x: int | 0 <= x < 0x100
  type u16 = x: int | 0 <= x < 0x1_0000
  type u32 = x: int | 0 <= x < 0x1_0000_0000

  // A hardware address.
  type Mac = m: seq<byte> | |m| == 6 witness [0, 0, 0, 0, 0, 0]

  datatype Option<+T> = None | Some(value: T) {
    function GetOr(default: T): T {
      if Some? then value else default
    }
  }

  datatype Result<+T, +E> = Ok(value: T) | Err(error: E) {
    predicate IsFailure() { Err? }

    function PropagateFailure<U>(): Result<U, E>
      requires Err?
    {
      Err(error)
    }

    function Extract(): T
      requires Ok?
    {
      value
    }
  }

  function Pow2(n: nat): (p: nat)
    ensures p > 0
  {
    if n == 0 then 1 else 2 * Pow2(n - 1)
  }

  function Zeros(n: nat): (z: seq<byte>)
    ensures |z| == n
  {
    seq(n, i => 0)
  }

  // Whether the flag whose place value is `mask` is set in `v`.
  predicate Bit(v: nat, mask: nat)
    requires mask > 0
  {
    (v / mask) % 2 == 1
  }

  // ---- big-endian integers ------------------------------------------------

  function Pow256(n: nat): (p: nat)
    ensures p > 0
  {
    if n == 0 then 1 else 256 * Pow256(n - 1)
  }

  // The low `n` octets of `v`, most significant first.
  function BE(v: nat, n: nat): (s: seq<byte>)
    ensures |s| == n
  {
    if n == 0 then [] else BE(v / 256, n - 1) + [v % 256]
  }

  function FromBE(s: seq<byte>): (v: nat)
    ensures v < Pow256(|s|)
  {
    if s == [] then 0 else 256 * FromBE(s[..|s| - 1]) + s[|s| - 1]
  }

  lemma HighFits(v: nat, n: nat)
    requires n > 0 && v < Pow256(n)
    ensures v / 256 < Pow256(n - 1)
  {
    var p := Pow256(n - 1);
    assert Pow256(n) == 256 * p;
  }

  lemma LastOfBE(high: nat, low: byte, n: nat)
    requires n > 0
    ensures BE(256 * high + low, n) == BE(high, n - 1) + [low]
  {
    assert (256 * high + low) / 256 == high && (256 * high + low) % 256 == low;
  }

  lemma LastOfFromBE(s: seq<byte>, low: byte)
    ensures FromBE(s + [low]) == 256 * FromBE(s) + low
  {
    assert (s + [low])[..|s|] == s;
  }

  lemma {:induction false} FromBEOfBE(v: nat, n: nat)
    requires v < Pow256(n)
    ensures FromBE(BE(v, n)) == v
  {
    if n > 0 {
      HighFits(v, n);
      var high, low := v / 256, v % 256;
      assert v == 256 * high + low;
      hide Pow256, BE, FromBE;
      FromBEOfBE(high, n - 1);
      LastOfBE(high, low, n);
      LastOfFromBE(BE(high, n - 1), low);
    }
  }

  lemma WidthsOfBE()
    ensures Pow256(1) == 0x100 && Pow256(2) == 0x1_0000 && Pow256(4) == 0x1_0000_0000
    ensures Pow256(8) == 0x1_0000_0000_0000_0000
  {
    assert Pow256(3) == 0x100_0000;
    assert Pow256(5) == 256 * Pow256(4);
    assert Pow256(6) == 256 * Pow256(5);
    assert Pow256(7) == 256 * Pow256(6);
  }

  function ToBE16(v: u16): (s: seq<byte>)
    ensures |s| == 2
  {
    [v / 256, v % 256]
  }

  function BE16(s: seq<byte>): (v: u16)
    requires |s| == 2
  {
    256 * (s[0] as int) + s[1]
  }

  function ToBE32(v: u32): (s: seq<byte>)
    ensures |s| == 4
  {
    [v / 0x100_0000, v / 0x1_0000 % 256, v / 256 % 256, v % 256]
  }

  function BE32(s: seq<byte>): (v: u32)
    requires |s| == 4
  {
    0x100_0000 * (s[0] as int) + 0x1_0000 * (s[1] as int) + 256 * (s[2] as int) + s[3]
  }

  lemma BE32OfToBE32(v: u32)
    ensures BE32(ToBE32(v)) == v
  {
    var a, b := v / 256, v / 0x1_0000;
    assert v == 256 * a + v % 256;
    assert a / 256 == b && a == 256 * b + a % 256;
    assert b / 256 == v / 0x100_0000 && b == 256 * (v / 0x100_0000) + b % 256;
  }

  // Little-endian, the order of every 802.11 fixed field.
  function ToLE16(v: u16): (s: seq<byte>)
    ensures |s| == 2
  {
    [v % 256, v / 256]
  }

  function LE16(s: seq<byte>): (v: u16)
    requires |s| == 2
  {
    s[0] + 256 * (s[1] as int)
  }

  // ---- bytewise order -----------------------------------------------------

  // The order a memcmp gives to two strings of one length.
  predicate LexLess(a: seq<byte>, b: seq<byte>)
  {
    if a == [] || b == [] then b != []  && a == []
    else a[0] < b[0] || (a[0] == b[0] && LexLess(a[1..], b[1..]))
  }

  lemma {:induction false} LexTotal(a: seq<byte>, b: seq<byte>)
    requires |a| == |b|
    ensures LexLess(a, b) || LexLess(b, a) || a == b
    ensures !(LexLess(a, b) && LexLess(b, a))
    ensures a == b ==> !LexLess(a, b)
  {
    if a != [] && a[0] == b[0] {
      LexTotal(a[1..], b[1..]);
      assert a == [a[0]] + a[1..] && b == [b[0]] + b[1..];
    }
  }

  function Lower(a: seq<byte>, b: seq<byte>): (lo: seq<byte>)
    ensures lo == a || lo == b
  {
    if LexLess(a, b) then a else b
  }

  function Higher(a: seq<byte>, b: seq<byte>): (hi: seq<byte>)
    ensures hi == a || hi == b
  {
    if LexLess(a, b) then b else a
  }

  // Sorting a pair forgets which end supplied which half.
  lemma SortedPairSymmetric(a: seq<byte>, b: seq<byte>)
    requires |a| == |b|
    ensures Lower(a, b) == Lower(b, a) && Higher(a, b) == Higher(b, a)
  {
    LexTotal(a, b);
  }

  // ---- slices of concatenations -------------------------------------------

  lemma Joins<T>(a: seq<T>, b: seq<T>, c: seq<T>)
    ensures a + (b + c) == (a + b) + c
  {
  }

  lemma Spliced(a: seq<byte>, b: seq<byte>, c: seq<byte>)
    ensures (a + b + c)[|a|..|a| + |b|] == b
    ensures (a + b + c)[|a| + |b|..] == c
    ensures (a + b + c)[..|a|] == a
  {
  }
}
