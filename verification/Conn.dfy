// The connection as functions of its state: one per handler, from an input to
// the next state and the actions asked of the daemon (crates/caw-core/src/conn.rs, auth.rs).

module Connection {
  import opened Bytes
  import opened Suites
  import opened Policy
  import C = Crypto
  import E = Eapol
  import H = FourWayHandshake
  import S = SaeExchange
  import D = Dot1x
  import Y = DhcpClient

  const SCAN_TIMEOUT_MS: nat := 10_000
  const AUTH_TIMEOUT_MS: nat := 3_000
  const ASSOC_TIMEOUT_MS: nat := 8_000
  const BACKOFF_BASE_MS: nat := 1_000
  const BACKOFF_MAX_MS: nat := 60_000
  const REASON_LEAVING: u16 := 3
  const RSNXE_SAE_H2E: seq<byte> := [244, 1, 0x20]
  const MGMT_HEADER_LEN: nat := 24
  const FC_AUTH: byte := 0xb0
  const AUTHTYPE_OPEN_SYSTEM: nat := 0
  const AUTHTYPE_SAE: nat := 4
  const WPA_VERSION_2: nat := 2
  const WPA_VERSION_3: nat := 4
  const MFP_NO: nat := 0
  const MFP_REQUIRED: nat := 1
  const MFP_OPTIONAL: nat := 2

  // ---- what stands around a connection ------------------------------------------------

  // The primitives, the group, PBKDF2 and the EAP methods by account, with a
  // number standing for the state of a method.
  datatype Surroundings = Surroundings(
    c: C.Primitives, g: S.Curve, pbkdf2: (seq<byte>, seq<byte>) -> S.Block32,
    methods: nat -> D.EapMethod<nat>, enterpriseBuild: bool)
  {
    predicate Valid() { S.Sized(g) }
  }

  // What one input may draw from the system: an SAE seed, a nonce (the pool can
  // fail), and the method an enterprise account's files make (they may not).
  datatype Drawn = Drawn(seed: S.Seed, snonce: Option<C.Nonce>, account: Option<(D.TypeData, nat)>)

  datatype DeviceCaps = DeviceCaps(offloads4wayPsk: bool, offloads4way1x: bool, offloadsSae: bool)

  datatype Device = Device(ifindex: u32, mac: Mac, caps: DeviceCaps)

  datatype State = Idle | Scanning | Authenticating | Associating | Handshaking | Configuring | Connected | Reconnecting

  datatype TimerId = ScanTimeout | AuthTimeout | AssocTimeout | HandshakeRetry | ReconnectBackoff

  // ---- inputs and actions -----------------------------------------------------------------

  datatype Command = Connect(ssid: seq<byte>) | Autoconnect | Secret(value: seq<byte>) | Disconnecting

  datatype ConnectStatus = Joined | RefusedWith(code: u16) | TimedOut

  datatype Event =
    | ScanComplete | ScanAborted | Answered(status: ConnectStatus) | Dropped(reason: u16, byAp: bool)
    | ExternalAuth(abort: bool) | AuthFrame(frame: seq<byte>) | AuthTimedOut | OtherFrame

  datatype LeaseEvent = Acquired(lease: Y.Lease) | Lost(why: Y.Reason) | NoLease

  datatype Input =
    | Commanded(command: Command) | Wireless(event: Event) | ScanResults(scan: seq<Bss>)
    | EapolFrame(bytes: seq<byte>) | Leased(lease: LeaseEvent) | Timer(id: TimerId)

  datatype Failure =
    | NotFound | NoKnownNetwork | Downgrade(recorded: Security, offered: Security) | UnsupportedSecurity
    | NoCredentialGiven | Refused(status: u16) | AssocTimedOut | WrongCredential | RsnMismatch | AuthRejected
    | HandshakeFailed | Disconnected(reason: u16, byAp: bool) | DhcpFailed | EnterpriseFailed | Internal

  datatype Offload = PmkOffload(pmk: S.Block32) | SaePassword(password: seq<byte>)

  datatype AssocRequest = AssocRequest(
    ifindex: u32, ssid: seq<byte>, bssid: Mac, freqMhz: u32, authType: nat, wpaVersions: nat,
    pairwise: seq<Selector>, group: Option<Selector>, akms: seq<Selector>, mfp: Option<nat>,
    ies: E.KeyData, offload: Option<Offload>, authenticated: bool)

  datatype AuthRequest = AuthRequest(ifindex: u32, ssid: seq<byte>, bssid: Mac, freqMhz: u32, authType: nat, data: seq<byte>)

  datatype PairwiseKey = PairwiseKey(peer: Mac, cipher: Selector, ptk: C.Ptk)

  datatype GroupKey = GroupKey(cipher: Selector, gtk: E.Gtk)

  // `Crashed` is an `expect` that does not hold.
  datatype Action =
    | TriggerScan(ifindex: u32) | FetchScanResults(ifindex: u32)
    | Associate(request: AssocRequest) | Authenticate(auth: AuthRequest) | Disconnect(reason: u16)
    | SendEapol(frame: seq<byte>) | InstallKeys(pairwise: Option<PairwiseKey>, group: GroupKey)
    | StartDhcp | ApplyLease(lease: Y.Lease)
    | SetTimer(id: TimerId, millis: nat) | ClearTimer(id: TimerId)
    | RequestSecret(ssid: seq<byte>) | SaveProfile(profile: Profile)
    | Notify(state: State) | Failed(failure: Failure)
    | Crashed

  // ---- the state -----------------------------------------------------------------------------

  datatype Target = Target(ssid: seq<byte>, secret: Option<seq<byte>>, retry: bool, save: bool)

  datatype Choice = Choice(
    bssid: Mac, freqMhz: u32, signal: i32, advertised: Security, negotiated: Security,
    rsn: Option<Negotiated>, roaming: bool)

  datatype Auth =
    | OpenAuth | Offloaded(offload: Offload) | PreAssoc(sae: S.Provider)
    | PostAssoc(account: nat, eap: D.Provider<nat>) | Ready(pmk: seq<byte>) | Running

  // The BSS a session was planned for and the floor its profile had at that
  // moment. Recorded at planning, never read.
  datatype Origin = Origin(bss: Bss, floor: Option<Security>)

  datatype Session = Session(
    choice: Choice, auth: Auth, pmkid: Option<C.Block16>, assocIe: E.KeyData,
    handshake: Option<H.FourWay>, origin: Origin)

  datatype Conn = Conn(
    device: Device, profiles: seq<Profile>, state: State, target: Option<Target>, session: Option<Session>,
    attempts: u32, armed: Option<TimerId>, pending: Option<Bss>)

  function NewConnection(device: Device, profiles: seq<Profile>): Conn {
    Conn(device, profiles, Idle, None, None, 0, None, None)
  }

  // A connection part-way through an input, and what it has asked for so far.
  datatype Turn = Turn(c: Conn, out: seq<Action>)

  // ---- profiles ---------------------------------------------------------------------------------

  function Others(profiles: seq<Profile>, ssid: seq<byte>): (kept: seq<Profile>)
    ensures forall p :: p in kept <==> p in profiles && p.ssid != ssid
  {
    if profiles == [] then []
    else (if profiles[0].ssid != ssid then [profiles[0]] else []) + Others(profiles[1..], ssid)
  }

  function InsertProfile(c: Conn, p: Profile): Conn {
    c.(target := if c.target.Some? && c.target.value.ssid == p.ssid then Some(c.target.value.(retry := p.autoconnect)) else c.target,
       profiles := Others(c.profiles, p.ssid) + [p])
  }

  function ForgetProfile(c: Conn, ssid: seq<byte>): Conn {
    c.(profiles := Others(c.profiles, ssid))
  }

  function ProfileFor(profiles: seq<Profile>, ssid: seq<byte>): (p: Option<Profile>)
    ensures p.Some? ==> p.value in profiles && p.value.ssid == ssid
    ensures p.None? ==> forall q :: q in profiles ==> q.ssid != ssid
  {
    if profiles == [] then None
    else if profiles[0].ssid == ssid then Some(profiles[0])
    else ProfileFor(profiles[1..], ssid)
  }

  function TargetProfile(c: Conn): Option<Profile> {
    if c.target.None? then None else ProfileFor(c.profiles, c.target.value.ssid)
  }

  // The credential to plan with; `None` where the user has yet to give one.
  function CredentialFor(c: Conn, open: bool): Option<Credential> {
    if open then Some(NoCredential)
    else if TargetProfile(c).Some? then Some(TargetProfile(c).value.credential)
    else if c.target.None? || c.target.value.secret.None? then None
    else Some(Passphrase(c.target.value.secret.value))
  }

  function Ssid(c: Conn): seq<byte> {
    if c.target.Some? then c.target.value.ssid else []
  }

  // ---- transitions ---------------------------------------------------------------------------------

  function Push(t: Turn, a: Action): Turn {
    t.(out := t.out + [a])
  }

  function Arm(t: Turn, id: TimerId, millis: nat): Turn {
    Push(t.(c := t.c.(armed := Some(id))), SetTimer(id, millis))
  }

  function Disarm(t: Turn): Turn {
    if t.c.armed.None? then t else Push(t.(c := t.c.(armed := None)), ClearTimer(t.c.armed.value))
  }

  function TimerOf(s: State): Option<TimerId> {
    match s
    case Scanning => Some(ScanTimeout)
    case Authenticating => Some(AuthTimeout)
    case Associating => Some(AssocTimeout)
    case Handshaking => Some(HandshakeRetry)
    case Connected => Some(HandshakeRetry)
    case Reconnecting => Some(ReconnectBackoff)
    case Idle => None
    case Configuring => None
  }

  function Enter(t: Turn, s: State): Turn {
    var u := if t.c.armed.Some? && t.c.armed != TimerOf(s) then Disarm(t) else t;
    Push(u.(c := u.c.(state := s)), Notify(s))
  }

  predicate Associated(s: State) {
    s in {Associating, Handshaking, Configuring, Connected}
  }

  predicate Terminal(f: Failure) {
    match f
    case Downgrade(_, _) => true
    case UnsupportedSecurity => true
    case NoCredentialGiven => true
    case WrongCredential => true
    case RsnMismatch => true
    case AuthRejected => true
    case EnterpriseFailed => true
    case Internal => true
    case _ => false
  }

  // Doubling from a second and stopping at a minute.
  function BackoffMs(attempt: u32): nat {
    var shift := if attempt == 0 then 0 else if attempt <= 20 then attempt - 1 else 20;
    var millis := BACKOFF_BASE_MS * Pow2(shift);
    if millis < BACKOFF_MAX_MS then millis else BACKOFF_MAX_MS
  }

  function GoIdle(t: Turn): Turn {
    var u := Disarm(t);
    Push(u.(c := u.c.(state := Idle, target := None, session := None, pending := None, attempts := 0)), Notify(Idle))
  }

  // The two ways out of an attempt: `Reconnecting` under a backoff timer, or
  // `Idle` with the failure reported.
  function Fail(t: Turn, f: Failure): Turn {
    var u := if Associated(t.c.state) && !f.Disconnected? then Push(t, Disconnect(REASON_LEAVING)) else t;
    var v := u.(c := u.c.(session := None, pending := None));
    if !Terminal(f) && v.c.target.Some? && v.c.target.value.retry then
      var attempts: u32 := (v.c.attempts + 1) % 0x1_0000_0000;
      Arm(Enter(v.(c := v.c.(attempts := attempts)), Reconnecting), ReconnectBackoff, BackoffMs(attempts))
    else
      var w := Disarm(v);
      Push(w.(c := w.c.(state := Idle, target := None, attempts := 0)), Failed(f))
  }

  function FailureOfCrypto(e: C.CryptoError): Failure {
    match e
    case MicMismatch => WrongCredential
    case KeyUnwrapFailed => WrongCredential
    case AuthFailed => AuthRejected
    case _ => HandshakeFailed
  }

  function FailureOfEapol(e: E.EapolError): Failure {
    match e
    case Crypto(inner) => FailureOfCrypto(inner)
    case RsnMismatch => Failure.RsnMismatch
    case Rejected => AuthRejected
    case PrematureSuccess => AuthRejected
    case _ => HandshakeFailed
  }

  // 802.1X reports its failures in the vocabulary of the key layer.
  function CryptoOfEapol(e: E.EapolError): C.CryptoError {
    match e
    case Crypto(inner) => inner
    case Rejected => C.AuthFailed
    case PrematureSuccess => C.AuthFailed
    case Timeout => C.AuthFailed
    case Malformed => C.MalformedInput
    case FragmentOutOfOrder => C.MalformedInput
    case FragmentTooLarge => C.MalformedInput
    case UnsupportedPacketType(_) => C.MalformedInput
    case UnsupportedEapCode(_) => C.MalformedInput
    case UnsupportedDescriptor(_) => C.MalformedInput
    case _ => C.OutOfOrder
  }

  // ---- planning ---------------------------------------------------------------------------------------

  function SaeContext(c: Conn, choice: Choice): S.Context {
    S.Context(Ssid(c), choice.bssid, c.device.mac, if choice.rsn.Some? then choice.rsn.value.akm else Psk)
  }

  // Who derives the PMK, and when.
  function Assemble(env: Surroundings, drawn: Drawn, akm: Akm, credential: Credential, caps: DeviceCaps, ssid: seq<byte>): Result<Auth, Failure> {
    match credential
    case NoCredential => Ok(OpenAuth)
    case Passphrase(secret) =>
      if akm.IsSae() then
        Ok(if caps.offloadsSae then Offloaded(SaePassword(secret)) else PreAssoc(S.WithSeed(secret, drawn.seed)))
      else if akm.IsPsk() then
        var pmk := env.pbkdf2(secret, ssid);
        Ok(if caps.offloads4wayPsk then Offloaded(PmkOffload(pmk)) else Ready(pmk))
      else Err(UnsupportedSecurity)
    case Enterprise(account) =>
      if !akm.IsEnterprise() then Err(UnsupportedSecurity)
      else if !env.enterpriseBuild || drawn.account.None? then Err(EnterpriseFailed)
      else Ok(PostAssoc(account, D.NewProvider(drawn.account.value.0, drawn.account.value.1)))
  }

  // The choice a BSS leads to, or why it is refused.
  function Evaluate(env: Surroundings, c: Conn, bss: Bss, credential: Option<Credential>, roaming: bool): Result<Choice, Failure> {
    if bss.rsn.None? && bss.security != Open then Err(UnsupportedSecurity)
    else
      var rsn := if bss.rsn.None? then None else Negotiate(bss.rsn.value, credential, env.enterpriseBuild);
      if bss.rsn.Some? && rsn.None? then Err(UnsupportedSecurity)
      else
        var offered := if rsn.Some? then SecurityOf(rsn.value) else Open;
        var profile := TargetProfile(c);
        if profile.Some? && !Accepts(profile.value, offered) then Err(Downgrade(profile.value.minSecurity, offered))
        else Ok(Choice(bss.bssid, bss.freqMhz, bss.signal, bss.security, offered, rsn, roaming))
  }

  datatype Decision = Unsuitable(failure: Failure) | Abandon(failure: Failure) | Ask | Stay | Go(session: Session)

  function Decide(env: Surroundings, drawn: Drawn, c: Conn, bss: Bss, roaming: bool): Decision {
    var credential := CredentialFor(c, bss.rsn.None?);
    var evaluated := Evaluate(env, c, bss, credential, roaming);
    if evaluated.Err? then Unsuitable(evaluated.error)
    else
      var choice := evaluated.value;
      if credential.None? then
        if choice.rsn.Some? && choice.rsn.value.akm.IsEnterprise() then Abandon(NoCredentialGiven) else Ask
      else
        var auth := if choice.rsn.None? then Ok(OpenAuth)
                    else Assemble(env, drawn, choice.rsn.value.akm, credential.value, c.device.caps, Ssid(c));
        if auth.Err? then Abandon(auth.error)
        else if roaming && auth.value.PreAssoc? then Stay
        else
          var profile := TargetProfile(c);
          Go(Session(choice, auth.value, None, [], None,
                     Origin(bss, if profile.Some? then Some(profile.value.minSecurity) else None)))
  }

  function Plan(env: Surroundings, drawn: Drawn, t: Turn, bss: Bss, roaming: bool): Turn
    requires env.Valid()
  {
    match Decide(env, drawn, t.c, bss, roaming)
    case Unsuitable(failure) => if roaming then t else Fail(t, failure)
    case Abandon(failure) => Fail(t, failure)
    case Ask =>
      var u := Push(Disarm(t), RequestSecret(Ssid(t.c)));
      u.(c := u.c.(pending := Some(bss)))
    case Stay => t
    case Go(session) =>
      var u := t.(c := t.c.(session := Some(session)));
      if session.auth.PreAssoc? then StartSae(env, u) else SendAssociation(u)
  }

  // ---- SAE, before association ---------------------------------------------------------------------------

  function StartSae(env: Surroundings, t: Turn): Turn
    requires env.Valid()
  {
    DriveSae(env, Enter(t, Authenticating), None, true)
  }

  // Feed the provider its start, a frame, or a timeout.
  function DriveSae(env: Surroundings, t: Turn, frame: Option<seq<byte>>, start: bool): Turn
    requires env.Valid()
  {
    if t.c.target.None? || t.c.session.None? || !t.c.session.value.auth.PreAssoc? then t
    else
      var s := t.c.session.value;
      var o := if start then S.Start(env.g, s.auth.sae, SaeContext(t.c, s.choice))
               else if frame.Some? then S.OnFrame(env.g, s.auth.sae, frame.value)
               else S.OnTimeout(s.auth.sae);
      OnSaeStep(t.(c := t.c.(session := Some(s.(auth := PreAssoc(o.next))))), o.result)
  }

  function OnSaeStep(t: Turn, r: S.Stepped): Turn {
    if r.Err? then Fail(t, FailureOfCrypto(r.error))
    else
      match r.value
      case Send(frame) =>
        if t.c.target.None? || t.c.session.None? || |frame| < 2 then Fail(t, Internal)
        else
          var choice := t.c.session.value.choice;
          Arm(Push(t, Authenticate(AuthRequest(t.c.device.ifindex, Ssid(t.c), choice.bssid, choice.freqMhz, AUTHTYPE_SAE, frame[2..]))),
              AuthTimeout, AUTH_TIMEOUT_MS)
      case Wait => t
      case Done(pmk) =>
        if t.c.session.None? then Push(t, Crashed)
        else
          var s := t.c.session.value;
          var pmkid := if s.auth.PreAssoc? then s.auth.sae.pmkid else s.pmkid;
          SendAssociation(t.(c := t.c.(session := Some(s.(pmkid := pmkid, auth := Ready(pmk))))))
  }

  // What follows the management header, when the frame is the session's BSS's.
  function AuthBody(c: Conn, frame: seq<byte>): Option<seq<byte>> {
    if c.session.None? || |frame| < MGMT_HEADER_LEN || frame[0] != FC_AUTH || frame[10..16] != c.session.value.choice.bssid then None
    else Some(frame[MGMT_HEADER_LEN..])
  }

  // ---- association --------------------------------------------------------------------------------------------

  function StationOf(n: Negotiated, pmkid: Option<C.Block16>): (s: StationRsn)
    ensures ValidStation(s)
  {
    StationRsn(n.group, n.pairwise, n.akm, n.mfpCapable, n.mfpRequired,
               if pmkid.Some? then Some(pmkid.value) else None,
               if n.mfpCapable then n.groupMgmt else None)
  }

  // SAE run here is declared by an RSNXE after the RSN element.
  function Elements(n: Negotiated, pmkid: Option<C.Block16>, offloaded: bool): (e: E.KeyData) {
    StationElement(StationOf(n, pmkid)) + if n.akm.IsSae() && !offloaded then RSNXE_SAE_H2E else []
  }

  function RequestFor(device: Device, ssid: seq<byte>, s: Session): AssocRequest {
    var offload := if s.auth.Offloaded? then Some(s.auth.offload) else None;
    var choice := s.choice;
    if choice.rsn.None? then
      AssocRequest(device.ifindex, ssid, choice.bssid, choice.freqMhz, AUTHTYPE_OPEN_SYSTEM, 0, [], None, [], None, [], offload, false)
    else
      var n := choice.rsn.value;
      var sae := n.akm.IsSae();
      AssocRequest(device.ifindex, ssid, choice.bssid, choice.freqMhz,
                   if sae then AUTHTYPE_SAE else AUTHTYPE_OPEN_SYSTEM,
                   if sae then WPA_VERSION_2 + WPA_VERSION_3 else WPA_VERSION_2,
                   if KernelCipher(n.pairwise).Some? then [KernelCipher(n.pairwise).value] else [],
                   KernelCipher(n.group), [AkmSelector(n.akm)],
                   Some(if n.mfpRequired then MFP_REQUIRED else if n.mfpCapable then MFP_OPTIONAL else MFP_NO),
                   Elements(n, s.pmkid, offload.Some?), offload, sae && offload.None?)
  }

  // The association request, taking an offloaded credential along with it.
  function SendAssociation(t: Turn): Turn {
    if t.c.target.None? || t.c.session.None? then Push(t, Crashed)
    else
      var s := t.c.session.value;
      var request := RequestFor(t.c.device, Ssid(t.c), s);
      var sent := s.(auth := if s.auth.Offloaded? then OpenAuth else s.auth,
                     assocIe := if s.choice.rsn.Some? then request.ies else s.assocIe);
      Arm(Push(Enter(t.(c := t.c.(session := Some(sent))), Associating), Associate(request)), AssocTimeout, ASSOC_TIMEOUT_MS)
  }

  function OnAssociated(env: Surroundings, drawn: Drawn, t: Turn): Turn {
    if t.c.session.None? then t
    else
      var s := t.c.session.value;
      match s.auth
      case OpenAuth => Configured(t)
      case Offloaded(_) => Configured(t.(c := t.c.(session := Some(s.(auth := OpenAuth)))))
      case Ready(pmk) => StartHandshake(t.(c := t.c.(session := Some(s.(auth := Running)))), pmk, drawn)
      case PostAssoc(_, _) => DriveDot1x(env, drawn, Enter(t, Handshaking), None)
      case _ => Fail(t, Internal)
  }

  // ---- the 4-way handshake --------------------------------------------------------------------------------------

  function StartHandshake(t: Turn, pmk: seq<byte>, drawn: Drawn): Turn {
    if t.c.session.None? || t.c.session.value.choice.rsn.None? then Push(t, Crashed)
    else if drawn.snonce.None? then Fail(t, FailureOfEapol(E.EntropyFailed))
    else
      var s := t.c.session.value;
      var n := s.choice.rsn.value;
      var config := H.Config(n.akm, t.c.device.mac, s.choice.bssid, s.assocIe, n.beaconIe);
      Enter(t.(c := t.c.(session := Some(s.(handshake := Some(H.Fresh(pmk, config, drawn.snonce.value)))))), Handshaking)
  }

  // Routed by packet type, so two conversations share one EtherType.
  function OnEapol(env: Surroundings, drawn: Drawn, t: Turn, frame: seq<byte>): Turn {
    if t.c.state != Handshaking && t.c.state != Connected then t
    else
      var eapol := E.ParseEapol(frame);
      if eapol.Err? then t
      else
        match eapol.value.packetType
        case KeyType => DriveHandshake(env, t, H.Frame(frame))
        case EapPacketType => DriveDot1x(env, drawn, t, Some(frame))
        case _ => t
  }

  function DriveHandshake(env: Surroundings, t: Turn, input: H.Input): Turn {
    if t.c.session.None? || t.c.session.value.handshake.None? then t
    else
      var s := t.c.session.value;
      var o := H.Poll(env.c, s.handshake.value, input);
      var u := t.(c := t.c.(session := Some(s.(handshake := Some(o.next)))));
      if o.result.Err? then Fail(u, FailureOfEapol(o.result.error))
      else
        var v := Perform(u, o.result.value);
        if H.Installs(o.result.value) then Configured(v) else v
  }

  function Suite(cipher: Cipher): Selector {
    KernelCipher(cipher).GetOr(Ieee(4))
  }

  function GroupSuite(c: Conn): Selector {
    if c.session.None? || c.session.value.choice.rsn.None? then Ieee(4) else Suite(c.session.value.choice.rsn.value.group)
  }

  // One action of the handshake after another.
  function Perform(t: Turn, actions: seq<H.Action>): Turn {
    if actions == [] then t else PerformOne(Perform(t, actions[..|actions| - 1]), actions[|actions| - 1])
  }

  function PerformOne(t: Turn, a: H.Action): Turn {
    match a
    case Send(frame) => Push(t, SendEapol(frame))
    case ArmTimer(millis) => Arm(t, HandshakeRetry, millis)
    case DisarmTimer => Disarm(t)
    case Complete(ptk, gtk) =>
      if t.c.session.None? || t.c.session.value.choice.rsn.None? then Push(t, Crashed)
      else
        var choice := t.c.session.value.choice;
        Push(t, InstallKeys(Some(PairwiseKey(choice.bssid, Suite(choice.rsn.value.pairwise), ptk)), GroupKey(GroupSuite(t.c), gtk)))
    case NewGtk(gtk) => Push(t, InstallKeys(None, GroupKey(GroupSuite(t.c), gtk)))
  }

  // ---- 802.1X, after association ----------------------------------------------------------------------------------

  function DriveDot1x(env: Surroundings, drawn: Drawn, t: Turn, frame: Option<seq<byte>>): Turn {
    if t.c.target.None? || t.c.session.None? || !t.c.session.value.auth.PostAssoc? || frame.None? then t
    else
      var s := t.c.session.value;
      var o := D.OnFrame(env.methods(s.auth.account), s.auth.eap, frame.value);
      var u := t.(c := t.c.(session := Some(s.(auth := PostAssoc(s.auth.account, o.next)))));
      if o.result.Err? then Fail(u, FailureOfCrypto(CryptoOfEapol(o.result.error)))
      else
        match o.result.value
        case Send(reply) => Push(u, SendEapol(reply))
        case Wait => u
        case Done(pmk) => StartHandshake(u.(c := u.c.(session := Some(s.(auth := Running)))), pmk, drawn)
  }

  // ---- address configuration -----------------------------------------------------------------------------------------

  function Configured(t: Turn): Turn {
    if t.c.session.Some? && t.c.session.value.choice.roaming then
      var u := Enter(t, Connected);
      u.(c := u.c.(attempts := 0))
    else Push(Enter(t, Configuring), StartDhcp)
  }

  function OnLease(t: Turn, event: LeaseEvent): Turn {
    match event
    case Acquired(lease) =>
      var u := Enter(Push(t, ApplyLease(lease)), Connected);
      SaveJoined(u.(c := u.c.(attempts := 0)))
    case Lost(_) => if t.c.state == Connected then Push(Enter(t, Configuring), StartDhcp) else t
    case NoLease => Fail(t, DhcpFailed)
  }

  // Remember an explicitly joined network once it has an address.
  function SaveJoined(t: Turn): Turn {
    if t.c.target.None? || !t.c.target.value.save || t.c.session.None? then t
    else
      var target, choice := t.c.target.value, t.c.session.value.choice;
      if choice.rsn.Some? && target.secret.None? then t
      else
        var credential := if choice.rsn.Some? then Passphrase(target.secret.value) else NoCredential;
        var profile := NewProfile(target.ssid, choice.advertised, credential).(autoconnect := true);
        var c := InsertProfile(t.c.(target := Some(target.(save := false))), profile);
        Push(t.(c := c), SaveProfile(profile))
  }

  // ---- scanning and roaming ---------------------------------------------------------------------------------------------

  function StartScan(t: Turn): Turn {
    var u := Enter(t, Scanning);
    Arm(Push(u, TriggerScan(u.c.device.ifindex)), ScanTimeout, SCAN_TIMEOUT_MS)
  }

  // The first entry with this address.
  function FindBss(scan: seq<Bss>, bssid: Mac): (b: Option<Bss>)
    ensures b.Some? ==> b.value in scan && b.value.bssid == bssid
    ensures b.None? ==> forall x :: x in scan ==> x.bssid != bssid
  {
    if scan == [] then None
    else if scan[0].bssid == bssid then Some(scan[0])
    else FindBss(scan[1..], bssid)
  }

  function PlanFound(env: Surroundings, drawn: Drawn, t: Turn, scan: seq<Bss>, bssid: Mac, roaming: bool): Turn
    requires env.Valid()
  {
    var bss := FindBss(scan, bssid);
    if bss.None? then Push(t, Crashed) else Plan(env, drawn, t, bss.value, roaming)
  }

  function Select(env: Surroundings, drawn: Drawn, t: Turn, scan: seq<Bss>): Turn
    requires env.Valid()
  {
    if t.c.target.Some? then
      var best := BestBss(scan, t.c.target.value.ssid);
      if best.None? then Fail(t, NotFound) else PlanFound(env, drawn, t, scan, best.value.bssid, false)
    else
      var best := BestKnown(scan, t.c.profiles);
      if best.None? then Fail(t, NoKnownNetwork)
      else
        var u := t.(c := t.c.(target := Some(Target(best.value.1.ssid, None, true, false))));
        PlanFound(env, drawn, u, scan, best.value.0.bssid, false)
  }

  function ConsiderRoam(env: Surroundings, drawn: Drawn, t: Turn, scan: seq<Bss>): Turn
    requires env.Valid()
  {
    if t.c.session.None? || t.c.target.None? then t
    else
      var s := t.c.session.value;
      var heard := FindBss(scan, s.choice.bssid);
      var signal := if heard.Some? then heard.value.signal else s.choice.signal;
      var better := RoamTarget(scan, t.c.target.value.ssid, s.choice.bssid, signal);
      if better.None? then t.(c := t.c.(session := Some(s.(choice := s.choice.(signal := signal)))))
      else PlanFound(env, drawn, t, scan, better.value.bssid, true)
  }

  // ---- one input -----------------------------------------------------------------------------------------------------------

  function OnCommand(env: Surroundings, drawn: Drawn, t: Turn, command: Command): Turn
    requires env.Valid()
  {
    match command
    case Connect(ssid) =>
      var u := if t.c.state != Idle then Push(t, Disconnect(REASON_LEAVING)) else t;
      var profile := ProfileFor(u.c.profiles, ssid);
      var target := Target(ssid, None, profile.Some? && profile.value.autoconnect, profile.None?);
      StartScan(u.(c := u.c.(target := Some(target), session := None, pending := None, attempts := 0)))
    case Autoconnect =>
      if t.c.state != Idle then t
      else StartScan(t.(c := t.c.(target := None, session := None, pending := None, attempts := 0)))
    case Secret(value) =>
      if t.c.target.None? then t
      else
        var c := t.c.(target := Some(t.c.target.value.(secret := Some(value))));
        if c.pending.None? then t.(c := c)
        else Plan(env, drawn, t.(c := c.(pending := None)), c.pending.value, false)
    case Disconnecting => GoIdle(Push(t, Disconnect(REASON_LEAVING)))
  }

  function OnScanResults(env: Surroundings, drawn: Drawn, t: Turn, scan: seq<Bss>): Turn
    requires env.Valid()
  {
    match t.c.state
    case Scanning => Select(env, drawn, t, scan)
    case Connected => ConsiderRoam(env, drawn, t, scan)
    case _ => t
  }

  function OnWireless(env: Surroundings, drawn: Drawn, t: Turn, event: Event): Turn
    requires env.Valid()
  {
    match event
    case ScanComplete =>
      if t.c.state == Scanning || t.c.state == Connected then Push(t, FetchScanResults(t.c.device.ifindex)) else t
    case ScanAborted => if t.c.state == Scanning then Fail(t, NotFound) else t
    case Answered(status) =>
      if t.c.state != Associating then t
      else
        (match status
         case Joined => OnAssociated(env, drawn, t)
         case RefusedWith(code) => Fail(t, Refused(code))
         case TimedOut => Fail(t, AssocTimedOut))
    case Dropped(reason, byAp) => if Associated(t.c.state) then Fail(t, Failure.Disconnected(reason, byAp)) else t
    case ExternalAuth(abort) => if abort && t.c.state == Authenticating then Fail(t, AuthRejected) else t
    case AuthFrame(frame) =>
      if t.c.state == Authenticating && AuthBody(t.c, frame).Some? then DriveSae(env, t, AuthBody(t.c, frame), false) else t
    case AuthTimedOut => t
    case OtherFrame => t
  }

  function OnTimer(env: Surroundings, t: Turn, id: TimerId): Turn
    requires env.Valid()
  {
    match (id, t.c.state)
    case (ScanTimeout, Scanning) => if t.c.pending.None? then Fail(t, NotFound) else t
    case (AssocTimeout, Associating) => Fail(t, AssocTimedOut)
    case (AuthTimeout, Authenticating) => DriveSae(env, t, None, false)
    case (HandshakeRetry, Handshaking) => DriveHandshake(env, t, H.Expiry)
    case (HandshakeRetry, Connected) => DriveHandshake(env, t, H.Expiry)
    case (ReconnectBackoff, Reconnecting) => StartScan(t)
    case _ => t
  }

  function Poll(env: Surroundings, drawn: Drawn, c: Conn, input: Input): Turn
    requires env.Valid()
  {
    var t := Turn(c, []);
    match input
    case Commanded(command) => OnCommand(env, drawn, t, command)
    case Wireless(event) => OnWireless(env, drawn, t, event)
    case ScanResults(scan) => OnScanResults(env, drawn, t, scan)
    case EapolFrame(bytes) => OnEapol(env, drawn, t, bytes)
    case Leased(event) => OnLease(t, event)
    case Timer(id) => OnTimer(env, t, id)
  }
}
