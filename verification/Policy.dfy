// Choosing a BSS, an AKM and ciphers, and the floor under that choice
// (crates/caw-core/src/policy.rs, profile.rs).

module Policy {
  import opened Bytes
  import opened Suites

  type i32 = x: int | -0x8000_0000 <= x < 0x8000_0000

  const ROAM_MARGIN_DB: int := 8

  // What an enterprise profile names, from identity to certificates, is kept
  // as one value standing for it.
  datatype Credential = NoCredential | Passphrase(secret: seq<byte>) | Enterprise(account: nat)

  datatype Profile = Profile(
    ssid: seq<byte>, security: Security, credential: Credential, autoconnect: bool, minSecurity: Security)

  datatype Bss = Bss(bssid: Mac, ssid: seq<byte>, freqMhz: u32, signal: i32, security: Security, rsn: Option<RsnIe>)

  // ---- the downgrade floor ---------------------------------------------------------

  function Strength(s: Security): nat {
    match s
    case Open => 0
    case Wep => 1
    case Wpa1Personal => 2
    case Wpa1Enterprise => 2
    case OweSecurity => 3
    case Wpa2Personal => 4
    case Wpa2Enterprise => 4
    case Wpa2Wpa3Personal => 5
    case Wpa3Personal => 6
    case Wpa3Enterprise => 6
  }

  predicate IsAtLeast(offered: Security, floor: Security) {
    Strength(offered) >= Strength(floor)
  }

  function SecurityFloor(observed: Security): Security {
    if observed == Wpa2Wpa3Personal then Wpa2Personal else observed
  }

  function NewProfile(ssid: seq<byte>, security: Security, credential: Credential): Profile {
    Profile(ssid, security, credential, credential != NoCredential, SecurityFloor(security))
  }

  predicate Accepts(p: Profile, offered: Security) {
    IsAtLeast(offered, p.minSecurity)
  }

  // ---- choosing a BSS ----------------------------------------------------------------

  // The strongest, and of equals the last.
  function Strongest(scan: seq<Bss>): (best: Option<Bss>)
    ensures best.None? <==> scan == []
    ensures best.Some? ==> best.value in scan
  {
    if scan == [] then None
    else
      var before, last := Strongest(scan[..|scan| - 1]), scan[|scan| - 1];
      if before.Some? && before.value.signal > last.signal then before else Some(last)
  }

  function Filter(scan: seq<Bss>, wanted: Bss -> bool): (kept: seq<Bss>)
    ensures forall b :: b in kept <==> b in scan && wanted(b)
  {
    if scan == [] then []
    else Filter(scan[..|scan| - 1], wanted) + if wanted(scan[|scan| - 1]) then [scan[|scan| - 1]] else []
  }

  function BestBss(scan: seq<Bss>, ssid: seq<byte>): Option<Bss> {
    Strongest(Filter(scan, (b: Bss) => b.ssid == ssid))
  }

  function Autoconnecting(profiles: seq<Profile>, ssid: seq<byte>): Option<Profile> {
    if profiles == [] then None
    else if profiles[0].autoconnect && profiles[0].ssid == ssid then Some(profiles[0])
    else Autoconnecting(profiles[1..], ssid)
  }

  function BestKnown(scan: seq<Bss>, profiles: seq<Profile>): Option<(Bss, Profile)> {
    var best := Strongest(Filter(scan, (b: Bss) => Autoconnecting(profiles, b.ssid).Some?));
    if best.None? || Autoconnecting(profiles, best.value.ssid).None? then None
    else Some((best.value, Autoconnecting(profiles, best.value.ssid).value))
  }

  function RoamFloor(signal: i32): i32 {
    if signal + ROAM_MARGIN_DB < 0x8000_0000 then signal + ROAM_MARGIN_DB else 0x7fff_ffff
  }

  function RoamTarget(scan: seq<Bss>, ssid: seq<byte>, current: Mac, signal: i32): Option<Bss> {
    Strongest(Filter(scan, (b: Bss) => b.ssid == ssid && b.bssid != current && b.signal >= RoamFloor(signal)))
  }

  // Nothing offered is stronger than what is chosen.
  lemma {:induction false} StrongestIsStrongest(scan: seq<Bss>)
    ensures forall b :: b in scan ==> Strongest(scan).Some? && b.signal <= Strongest(scan).value.signal
  {
    if scan != [] {
      StrongestIsStrongest(scan[..|scan| - 1]);
      assert scan == scan[..|scan| - 1] + [scan[|scan| - 1]];
    }
  }

  // The network joined is the strongest of its name, the one autoconnected to
  // the strongest known, and a roam is to the strongest that is markedly better.
  lemma ChoicesAreStrongest(scan: seq<Bss>, ssid: seq<byte>, profiles: seq<Profile>, current: Mac, signal: i32)
    ensures BestBss(scan, ssid).None? <==> forall b :: b in scan ==> b.ssid != ssid
    ensures BestBss(scan, ssid).Some? ==>
              var best := BestBss(scan, ssid).value;
              best in scan && best.ssid == ssid && forall b :: b in scan && b.ssid == ssid ==> b.signal <= best.signal
    ensures BestKnown(scan, profiles).None? <==> forall b :: b in scan ==> Autoconnecting(profiles, b.ssid).None?
    ensures BestKnown(scan, profiles).Some? ==>
              var (best, profile) := BestKnown(scan, profiles).value;
              && best in scan && profile in profiles && profile.autoconnect && profile.ssid == best.ssid
              && forall b :: b in scan && Autoconnecting(profiles, b.ssid).Some? ==> b.signal <= best.signal
    ensures RoamTarget(scan, ssid, current, signal).Some? ==>
              var to := RoamTarget(scan, ssid, current, signal).value;
              && to in scan && to.ssid == ssid && to.bssid != current && to.signal >= RoamFloor(signal)
              && forall b :: b in scan && b.ssid == ssid && b.bssid != current ==> b.signal <= to.signal
  {
    hide Strongest, Filter, Autoconnecting;
    StrongestIsStrongest(Filter(scan, (b: Bss) => b.ssid == ssid));
    StrongestIsStrongest(Filter(scan, (b: Bss) => Autoconnecting(profiles, b.ssid).Some?));
    StrongestIsStrongest(Filter(scan, (b: Bss) => b.ssid == ssid && b.bssid != current && b.signal >= RoamFloor(signal)));
    if BestKnown(scan, profiles).Some? {
      FoundIsListed(profiles, BestKnown(scan, profiles).value.0.ssid);
    }
  }

  lemma {:induction false} FoundIsListed(profiles: seq<Profile>, ssid: seq<byte>)
    ensures Autoconnecting(profiles, ssid).Some? ==>
              var p := Autoconnecting(profiles, ssid).value; p in profiles && p.autoconnect && p.ssid == ssid
  {
    if profiles != [] { FoundIsListed(profiles[1..], ssid); }
  }

  // ---- choosing suites -------------------------------------------------------------------

  predicate Satisfies(akm: Akm, credential: Option<Credential>) {
    match credential
    case None => true
    case Some(NoCredential) => false
    case Some(Passphrase(_)) => akm.IsPsk() || akm.IsSae()
    case Some(Enterprise(_)) => akm.IsEnterprise()
  }

  // The AKMs there is code for in this build.
  predicate Runnable(akm: Akm, enterpriseBuild: bool) {
    akm.Psk? || akm.PskSha256? || akm.Sae? || (enterpriseBuild && (akm.Dot1x? || akm.Dot1xSha256?))
  }

  predicate Usable(akm: Akm, rsn: RsnIe, credential: Option<Credential>, enterpriseBuild: bool) {
    akm in rsn.akms && Satisfies(akm, credential) && Runnable(akm, enterpriseBuild)
  }

  const PREFERENCE: seq<Akm> := [Sae, Dot1xSha256, PskSha256, Dot1x, Psk]

  function FirstUsable(preference: seq<Akm>, rsn: RsnIe, credential: Option<Credential>, enterpriseBuild: bool): Option<Akm> {
    if preference == [] then None
    else if Usable(preference[0], rsn, credential, enterpriseBuild) then Some(preference[0])
    else FirstUsable(preference[1..], rsn, credential, enterpriseBuild)
  }

  function ChooseAkm(rsn: RsnIe, credential: Option<Credential>, enterpriseBuild: bool): Option<Akm> {
    FirstUsable(PREFERENCE, rsn, credential, enterpriseBuild)
  }

  function ChoosePairwise(rsn: RsnIe): Option<Cipher> {
    if Ccmp128 in rsn.pairwise then Some(Ccmp128)
    else if Gcmp128 in rsn.pairwise then Some(Gcmp128)
    else None
  }

  function NegotiatedSecurity(akm: Akm, mfpRequired: bool): Security {
    if akm.IsSae() then Wpa3Personal
    else if akm.IsPsk() then Wpa2Personal
    else if akm.Owe? then OweSecurity
    else if akm.IsEnterprise() then if mfpRequired || akm.Dot1xSuiteB192? then Wpa3Enterprise else Wpa2Enterprise
    else Open
  }

  lemma ChooseAkmUnfolds(rsn: RsnIe, credential: Option<Credential>, enterpriseBuild: bool)
    ensures ChooseAkm(rsn, credential, enterpriseBuild) ==
              if Usable(Sae, rsn, credential, enterpriseBuild) then Some(Sae)
              else if Usable(Dot1xSha256, rsn, credential, enterpriseBuild) then Some(Dot1xSha256)
              else if Usable(PskSha256, rsn, credential, enterpriseBuild) then Some(PskSha256)
              else if Usable(Dot1x, rsn, credential, enterpriseBuild) then Some(Dot1x)
              else if Usable(Psk, rsn, credential, enterpriseBuild) then Some(Psk)
              else None
  {
    hide Usable;
    var one, two, three, four := [Psk], [Dot1x, Psk], [PskSha256, Dot1x, Psk], [Dot1xSha256, PskSha256, Dot1x, Psk];
    assert one[1..] == [] && two[1..] == one && three[1..] == two && four[1..] == three && PREFERENCE[1..] == four;
    assert FirstUsable(one, rsn, credential, enterpriseBuild) == if Usable(Psk, rsn, credential, enterpriseBuild) then Some(Psk) else None;
    assert FirstUsable(two, rsn, credential, enterpriseBuild) ==
      if Usable(Dot1x, rsn, credential, enterpriseBuild) then Some(Dot1x) else FirstUsable(one, rsn, credential, enterpriseBuild);
    assert FirstUsable(three, rsn, credential, enterpriseBuild) ==
      if Usable(PskSha256, rsn, credential, enterpriseBuild) then Some(PskSha256) else FirstUsable(two, rsn, credential, enterpriseBuild);
    assert FirstUsable(four, rsn, credential, enterpriseBuild) ==
      if Usable(Dot1xSha256, rsn, credential, enterpriseBuild) then Some(Dot1xSha256) else FirstUsable(three, rsn, credential, enterpriseBuild);
  }

  // With a credential in hand, some AKM is chosen whenever one could be used,
  // it can be used, and no other usable one would give a stronger association.
  lemma ChosenAkmIsStrongest(rsn: RsnIe, credential: Credential, enterpriseBuild: bool, other: Akm)
    ensures ChooseAkm(rsn, Some(credential), enterpriseBuild).Some? ==>
              Usable(ChooseAkm(rsn, Some(credential), enterpriseBuild).value, rsn, Some(credential), enterpriseBuild)
    ensures Usable(other, rsn, Some(credential), enterpriseBuild) ==>
              && ChooseAkm(rsn, Some(credential), enterpriseBuild).Some?
              && Strength(NegotiatedSecurity(other, rsn.mfpRequired || other.IsSae()))
                 <= Strength(NegotiatedSecurity(ChooseAkm(rsn, Some(credential), enterpriseBuild).value,
                                                rsn.mfpRequired || ChooseAkm(rsn, Some(credential), enterpriseBuild).value.IsSae()))
  {
    hide ChooseAkm;
    ChooseAkmUnfolds(rsn, Some(credential), enterpriseBuild);
  }

  // ---- the suites of one association -----------------------------------------------------

  datatype Negotiated = Negotiated(
    akm: Akm, pairwise: Cipher, group: Cipher, groupMgmt: Option<Cipher>,
    mfpCapable: bool, mfpRequired: bool, beaconIe: seq<byte>)

  // `None` is the one failure: unsupported security.
  function Negotiate(rsn: RsnIe, credential: Option<Credential>, enterpriseBuild: bool): Option<Negotiated> {
    var akm, pairwise := ChooseAkm(rsn, credential, enterpriseBuild), ChoosePairwise(rsn);
    if akm.None? || pairwise.None? then None
    else
      var required := rsn.mfpRequired || akm.value.IsSae();
      Some(Negotiated(akm.value, pairwise.value, rsn.group, rsn.groupMgmt, rsn.mfpCapable || required, required, rsn.raw))
  }

  function SecurityOf(n: Negotiated): Security {
    NegotiatedSecurity(n.akm, n.mfpRequired)
  }

  // ---- what is saved accepts what was joined --------------------------------------------

  // The profile written after a first join would let that very join through
  // again, for every AKM list a beacon can carry, unless the beacon counts as
  // WPA3-Enterprise: the passphrase was then used with a PSK AKM.
  lemma SavedProfileAccepts(ssid: seq<byte>, rsn: RsnIe, wpaAkms: Option<seq<Akm>>, privacy: bool, secret: seq<byte>, enterpriseBuild: bool)
    requires Negotiate(rsn, Some(Passphrase(secret)), enterpriseBuild).Some?
    ensures var n := Negotiate(rsn, Some(Passphrase(secret)), enterpriseBuild).value;
            var advertised := Classify(Some(rsn), wpaAkms, privacy);
            Accepts(NewProfile(ssid, advertised, Passphrase(secret)), SecurityOf(n))
            <==> advertised != Wpa3Enterprise
  {
    hide ChooseAkm;
    ChooseAkmUnfolds(rsn, Some(Passphrase(secret)), enterpriseBuild);
    var akm := ChooseAkm(rsn, Some(Passphrase(secret)), enterpriseBuild).value;
    var i :| 0 <= i < |rsn.akms| && rsn.akms[i] == akm;
    assert rsn.akms[i].IsSae() || rsn.akms[i].IsPsk();
  }

  // The exception is real: a network offering both under mandatory frame
  // protection is saved with a floor its own passphrase half cannot meet.
  lemma SavedProfileCanRefuse(ssid: seq<byte>, secret: seq<byte>, raw: seq<byte>)
    ensures var rsn := RsnIe(Ccmp128, [Ccmp128], [Dot1xSha256, PskSha256], 0xc0, true, true, None, raw);
            var n := Negotiate(rsn, Some(Passphrase(secret)), false);
            && n.Some? && n.value.akm == PskSha256
            && !Accepts(NewProfile(ssid, Classify(Some(rsn), None, true), Passphrase(secret)), SecurityOf(n.value))
  {
    hide ChooseAkm;
    var rsn := RsnIe(Ccmp128, [Ccmp128], [Dot1xSha256, PskSha256], 0xc0, true, true, None, raw);
    ChooseAkmUnfolds(rsn, Some(Passphrase(secret)), false);
    assert rsn.akms[0].IsEnterprise() && rsn.akms[1].IsPsk();
    SavedProfileAccepts(ssid, rsn, None, true, secret, false);
  }
}
