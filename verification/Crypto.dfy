// The cryptographic primitives, as a parameter, and the pairwise key hierarchy
// built on them (crates/caw-crypto/src/kdf.rs, mic.rs, keywrap.rs).

module Crypto {
  import opened Bytes
  import opened Suites

  datatype CryptoError =
    | MicMismatch | MalformedInput | UnsupportedAkm | AuthFailed
    | UnsupportedVersion | KeyUnwrapFailed | OutOfOrder

  type Block16 = s: seq<byte> | |s| == 16 witness Zeros(16)
  type Block48 = s: seq<byte> | |s| == 48 witness Zeros(48)

  // Every primitive the supplicant calls, with its output width. Only the
  // functional law below is ever used; nothing is said about secrecy or forgery.
  datatype Primitives = Primitives(
    prfSha1: (seq<byte>, seq<byte>) -> Block48,
    kdfSha256: (seq<byte>, seq<byte>) -> Block48,
    hmacSha1: (seq<byte>, seq<byte>) -> Block16,
    cmac: (seq<byte>, seq<byte>) -> Block16,
    wrap: (seq<byte>, seq<byte>) -> seq<byte>,
    unwrap: (seq<byte>, seq<byte>) -> Option<seq<byte>>)

  // Key data is wrapped in whole semiblocks.
  predicate Wrappable(data: seq<byte>) {
    |data| >= 8 && |data| % 8 == 0
  }

  // Unwrapping undoes wrapping under the same key, at the cost of one
  // semiblock of check value.
  ghost predicate Lawful(c: Primitives) {
    forall k, d :: Wrappable(d) ==> |c.wrap(k, d)| == |d| + 8 && c.unwrap(k, c.wrap(k, d)) == Some(d)
  }

  lemma LawIsSatisfiable()
    ensures exists c :: Lawful(c)
  {
    var block48: (seq<byte>, seq<byte>) -> Block48 := (k, d) => Zeros(48);
    var block16: (seq<byte>, seq<byte>) -> Block16 := (k, d) => Zeros(16);
    var wrap: (seq<byte>, seq<byte>) -> seq<byte> := (k, d) => Zeros(8) + d;
    var unwrap: (seq<byte>, seq<byte>) -> Option<seq<byte>> := (k, d) => if |d| < 8 then None else Some(d[8..]);
    var c := Primitives(block48, block48, block16, block16, wrap, unwrap);
    forall k, d | Wrappable(d) ensures |c.wrap(k, d)| == |d| + 8 && c.unwrap(k, c.wrap(k, d)) == Some(d) {
      assert (Zeros(8) + d)[8..] == d;
    }
    assert Lawful(c);
  }

  type Nonce = n: seq<byte> | |n| == 32 witness Zeros(32)

  datatype Ptk = Ptk(kck: Block16, kek: Block16, tk: Block16)

  // ---- the pairwise transient key -------------------------------------------

  datatype PtkHash = Sha1 | Sha256

  function HashOf(akm: Akm): Result<PtkHash, CryptoError> {
    if akm.Dot1x? || akm.Psk? then Ok(Sha1)
    else if akm.Dot1xSha256? || akm.PskSha256? || akm.Sae? || akm.Owe? then Ok(Sha256)
    else Err(UnsupportedAkm)
  }

  function PtkInput(aa: Mac, spa: Mac, anonce: Nonce, snonce: Nonce): (d: seq<byte>)
    ensures |d| == 76
  {
    Lower(aa, spa) + Higher(aa, spa) + Lower(anonce, snonce) + Higher(anonce, snonce)
  }

  // A straight split of 48 octets.
  function SplitPtk(bytes: Block48): Ptk {
    Ptk(bytes[..16], bytes[16..32], bytes[32..])
  }

  function DerivePtk(c: Primitives, pmk: seq<byte>, akm: Akm, aa: Mac, spa: Mac, anonce: Nonce, snonce: Nonce)
    : Result<Ptk, CryptoError>
  {
    var hash :- HashOf(akm);
    var data := PtkInput(aa, spa, anonce, snonce);
    Ok(SplitPtk(match hash case Sha1 => c.prfSha1(pmk, data) case Sha256 => c.kdfSha256(pmk, data)))
  }

  // Swapping the addresses and the nonces leaves the key as it is.
  lemma DerivePtkSymmetric(c: Primitives, pmk: seq<byte>, akm: Akm, a: Mac, b: Mac, m: Nonce, n: Nonce)
    ensures DerivePtk(c, pmk, akm, a, b, m, n) == DerivePtk(c, pmk, akm, b, a, n, m)
  {
    SortedPairSymmetric(a, b);
    SortedPairSymmetric(m, n);
  }

  method DerivePtkInPlace(c: Primitives, pmk: seq<byte>, akm: Akm, aa: Mac, spa: Mac, anonce: Nonce, snonce: Nonce)
    returns (r: Result<Ptk, CryptoError>)
    ensures r == DerivePtk(c, pmk, akm, aa, spa, anonce, snonce)
  {
    var hash := HashOf(akm);
    if hash.Err? { return Err(hash.error); }
    var addrLo, addrHi := if LexLess(aa, spa) then aa else spa, if LexLess(aa, spa) then spa else aa;
    var nonceLo, nonceHi :=
      if LexLess(anonce, snonce) then anonce else snonce, if LexLess(anonce, snonce) then snonce else anonce;
    var data := new byte[76](i => 0);
    forall i | 0 <= i < 6 { data[i] := addrLo[i]; }
    forall i | 6 <= i < 12 { data[i] := addrHi[i - 6]; }
    forall i | 12 <= i < 44 { data[i] := nonceLo[i - 12]; }
    forall i | 44 <= i < 76 { data[i] := nonceHi[i - 44]; }
    assert data[..] == PtkInput(aa, spa, anonce, snonce);
    var ptk := match hash.value case Sha1 => c.prfSha1(pmk, data[..]) case Sha256 => c.kdfSha256(pmk, data[..]);
    r := Ok(SplitPtk(ptk));
  }

  // ---- the key descriptor version -------------------------------------------

  datatype DescriptorVersion = HmacSha1Version | AesCmacVersion | AkmDefinedVersion {
    function Bits(): u16 {
      match this case HmacSha1Version => 2 case AesCmacVersion => 3 case AkmDefinedVersion => 0
    }
  }

  // The low three bits of Key Information, under the negotiated AKM.
  function VersionOf(keyInfo: u16, akm: Akm): Result<DescriptorVersion, CryptoError> {
    var v := keyInfo % 8;
    if v == 0 && akm.IsSae() then Ok(AkmDefinedVersion)
    else if v == 2 then Ok(HmacSha1Version)
    else if v == 3 then Ok(AesCmacVersion)
    else Err(UnsupportedVersion)
  }

  function ComputeMic(c: Primitives, kck: seq<byte>, version: DescriptorVersion, frame: seq<byte>): Block16 {
    if version.HmacSha1Version? then c.hmacSha1(kck, frame) else c.cmac(kck, frame)
  }

  function UnwrapKeyData(c: Primitives, kek: seq<byte>, wrapped: seq<byte>): Result<seq<byte>, CryptoError> {
    if |wrapped| < 16 || |wrapped| % 8 != 0 then Err(MalformedInput)
    else
      var plain := c.unwrap(kek, wrapped);
      if plain.None? then Err(KeyUnwrapFailed) else Ok(plain.value)
  }
}
