// A handshake against an authenticator that holds the same PMK
// (IEEE 802.11-2016 section 12.7.6; crates/caw-eapol/src/lib.rs:253-469).

module Authenticator {
  import opened Bytes
  import opened Suites
  import opened Crypto
  import opened Eapol
  import opened FourWayHandshake

  // The access point's end: its address, the station's, the element it
  // beacons, the element the station associated with, and the group key.
  datatype Ap = Ap(pmk: seq<byte>, akm: Akm, aa: Mac, spa: Mac, beaconIe: seq<byte>, stationIe: KeyData, gtk: Gtk)

  predicate Sound(ap: Ap) {
    && HashOf(ap.akm).Ok?
    && Element(ap.beaconIe) && ap.beaconIe[0] == EID_RSN
    && (|ap.gtk.key| == 16 || |ap.gtk.key| == 32) && ap.gtk.index < 4
  }

  function StationOf(ap: Ap, snonce: Nonce): FourWay {
    Fresh(ap.pmk, Config(ap.akm, ap.spa, ap.aa, ap.stationIe, ap.beaconIe), snonce)
  }

  // The authenticator derives with itself first, the station's nonce second.
  function ApPtk(c: Primitives, ap: Ap, anonce: Nonce, snonce: Nonce): Ptk
    requires Sound(ap)
  {
    DerivePtk(c, ap.pmk, ap.akm, ap.spa, ap.aa, snonce, anonce).value
  }

  // ---- what the authenticator sends ------------------------------------------

  // Any message 1: key type and ACK set, no MIC, a descriptor version the AKM
  // allows, and whatever else the access point puts in it.
  predicate IsMsg1(ap: Ap, k: KeyFrame) {
    && k.Valid() && k.descriptor == DESCRIPTOR_TYPE_RSN && VersionOf(k.keyInfo, ap.akm).Ok?
    && k.Has(PAIRWISE) && k.Has(ACK) && !k.Has(MIC) && !k.Has(REQUEST)
  }

  function GtkElement(g: Gtk): seq<byte>
    requires |g.key| == 16 || |g.key| == 32
    requires g.index < 4
  {
    [EID_VENDOR, 6 + |g.key|] + OUI_IEEE + [KDE_GTK, g.index, 0] + g.key
  }

  function Elements3(ap: Ap, others: seq<seq<byte>>): seq<seq<byte>>
    requires Sound(ap)
  {
    [ap.beaconIe, GtkElement(ap.gtk)] + others
  }

  // The Key Data of message 3: the beaconed element, the group key, anything
  // else, and padding to a whole number of semiblocks.
  predicate IsKeyData3(ap: Ap, plain: seq<byte>, others: seq<seq<byte>>, padding: seq<byte>)
    requires Sound(ap)
  {
    Elements(others) && Padding(padding) && Wrappable(plain) && plain == Joined(Elements3(ap, others)) + padding
  }

  // An authenticated frame carrying `plain` wrapped under the KEK.
  predicate Protected(c: Primitives, k: KeyFrame, version: byte, ptk: Ptk, dv: DescriptorVersion, plain: seq<byte>) {
    && k.Valid() && k.descriptor == DESCRIPTOR_TYPE_RSN
    && k.Has(ACK) && k.Has(MIC) && k.Has(ENCRYPTED) && !k.Has(REQUEST)
    && k.data == c.wrap(ptk.kek, plain)
    && k.mic == Signed(c, k, version, ptk.kck, dv).mic
  }

  // ---- what the authenticator checks ------------------------------------------

  // Message 2: the nonce it carries must lead to the key its MIC is under, and
  // its Key Data must be the element the station associated with.
  function AcceptMsg2(c: Primitives, ap: Ap, dv: DescriptorVersion, anonce: Nonce, replay: Octets8, frame: seq<byte>): Option<Ptk>
    requires Sound(ap)
  {
    var k := KeyOf(Frame(frame));
    if k.None? || !k.value.Has(PAIRWISE) || !k.value.Has(MIC) || k.value.Has(ACK) then None
    else if k.value.replay != replay || k.value.data != ap.stationIe then None
    else
      var ptk := ApPtk(c, ap, anonce, k.value.nonce);
      if VerifyFrameMic(c, ParseEapol(frame).value.raw, ptk.kck, dv, k.value.mic).Ok? then Some(ptk) else None
  }

  // Message 4, and the second message of a group rekey.
  predicate AcceptsAck(c: Primitives, ptk: Ptk, dv: DescriptorVersion, pairwise: bool, replay: Octets8, frame: seq<byte>) {
    var k := KeyOf(Frame(frame));
    && k.Some? && k.value.Has(PAIRWISE) == pairwise && k.value.Has(MIC) && k.value.Has(SECURE) && !k.value.Has(ACK)
    && k.value.replay == replay && k.value.data == []
    && VerifyFrameMic(c, ParseEapol(frame).value.raw, ptk.kck, dv, k.value.mic).Ok?
  }

  // ---- frames on the wire -------------------------------------------------------

  function Wire(k: KeyFrame, version: byte, padding: seq<byte>): Input
    requires k.Valid()
  {
    Frame(EncodeKey(k, version) + padding)
  }

  lemma WireParses(k: KeyFrame, version: byte, padding: seq<byte>)
    requires k.Valid()
    ensures var parsed := ParseEapol(Wire(k, version, padding).bytes);
            && parsed == Ok(EapolFrame(version, KeyType, KeyBody(k), EncodeKey(k, version)))
            && ParseKey(parsed.value.body) == Ok(k)
            && KeyOf(Wire(k, version, padding)) == Some(k)
  {
    KeyFrameRoundTrip(k, version, padding);
  }

  lemma SignedFrameVerifies(c: Primitives, k: KeyFrame, version: byte, kck: Block16, dv: DescriptorVersion)
    requires k.Valid() && k.mic == Signed(c, k, version, kck, dv).mic
    ensures VerifyFrameMic(c, EncodeKey(k, version), kck, dv, k.mic) == Ok(())
  {
    hide EncodeKey;
    SignedVerifies(c, k, version, kck, dv, k.mic);
    assert k.(mic := k.mic) == k;
  }

  lemma ReplyFlags(dv: DescriptorVersion, pairwise: bool, secure: bool)
    ensures var flags := dv.Bits() + (if pairwise then PAIRWISE else 0) + MIC + (if secure then SECURE else 0);
            && flags < 0x1_0000 && Bit(flags, PAIRWISE) == pairwise && Bit(flags, MIC) && !Bit(flags, ACK)
            && Bit(flags, SECURE) == secure
  {
  }

  // ---- one exchange of each kind --------------------------------------------------

  // Where a message 1 leaves a station that has not failed.
  function AnsweredMsg1(c: Primitives, ap: Ap, m: FourWay, k: KeyFrame, version: byte): FourWay
    requires Sound(ap) && IsMsg1(ap, k)
  {
    var dv := VersionOf(k.keyInfo, ap.akm).value;
    var ptk := ApPtk(c, ap, k.nonce, m.snonce);
    m.(anonce := k.nonce, dv := dv, version := version, rx := Some(k.Counter()), ptk := Some(ptk),
       phase := AwaitingMsg3, retries := 0,
       lastSent := Some(SignedReply(c, version, dv, ptk.kck, Msg2(m, dv, k.replay))))
  }

  predicate Serves(ap: Ap, m: FourWay) {
    m.pmk == ap.pmk && m.config == Config(ap.akm, ap.spa, ap.aa, ap.stationIe, ap.beaconIe)
  }

  lemma Msg1Answered(c: Primitives, ap: Ap, m: FourWay, k: KeyFrame, version: byte, padding: seq<byte>)
    requires Sound(ap) && Serves(ap, m) && m.phase != Failed
    requires IsMsg1(ap, k) && (m.rx.Some? ==> m.rx.value < k.Counter())
    ensures var next := AnsweredMsg1(c, ap, m, k, version);
            Poll(c, m, Wire(k, version, padding))
              == Outcome(next, Ok([Send(next.lastSent.value), ArmTimer(RETRY_INTERVAL_MS)]))
  {
    hide ParseEapol, ParseKey, EncodeKey, DerivePtk, VersionOf, SignedReply, KeyFrame.Has, KeyFrame.Counter, OnMsg3, OnGroupMsg1, Reply, HashOf;
    WireParses(k, version, padding);
    DerivePtkSymmetric(c, ap.pmk, ap.akm, ap.aa, ap.spa, k.nonce, m.snonce);
    PtkDerivable(c, ap, k.nonce, m.snonce);
  }

  lemma PtkDerivable(c: Primitives, ap: Ap, anonce: Nonce, snonce: Nonce)
    requires Sound(ap)
    ensures DerivePtk(c, ap.pmk, ap.akm, ap.spa, ap.aa, snonce, anonce).Ok?
  {
  }

  // Message 2, padded or not, is one the authenticator accepts, and it derives
  // the station's own PTK from it.
  lemma Msg2Accepted(c: Primitives, ap: Ap, m: FourWay, k: KeyFrame, version: byte, padding: seq<byte>)
    requires Sound(ap) && Serves(ap, m) && IsMsg1(ap, k)
    ensures var next := AnsweredMsg1(c, ap, m, k, version);
            AcceptMsg2(c, ap, next.dv, k.nonce, k.replay, next.lastSent.value + padding) == next.ptk
  {
    hide EncodeKey, ParseEapol, ParseKey, DerivePtk, VersionOf, ComputeMic, HashOf, VerifyFrameMic, Bit;
    var next := AnsweredMsg1(c, ap, m, k, version);
    var msg2 := Msg2(m, next.dv, k.replay);
    var signed := Signed(c, msg2, version, next.ptk.value.kck, next.dv);
    assert Unsigned(signed) == Unsigned(msg2);
    WireParses(signed, version, padding);
    SignedFrameVerifies(c, signed, version, next.ptk.value.kck, next.dv);
    ReplyFlags(next.dv, true, false);
  }

  lemma GtkElementReads(g: Gtk)
    requires (|g.key| == 16 || |g.key| == 32) && g.index < 4
    ensures Element(GtkElement(g))
    ensures var item := ItemOf(GtkElement(g)); IsGtkKde(item) && GtkOfPayload(item.payload) == Ok(g)
  {
    var e := GtkElement(g);
    assert e[2..5] == OUI_IEEE && e[5] == KDE_GTK;
    assert e[6..] == [g.index, 0] + g.key;
    assert e[6..][2..] == g.key;
  }

  // The Key Data of message 3 reads back as the beaconed element and the
  // group key, whatever other elements and padding surround them.
  lemma KeyData3Reads(ap: Ap, plain: seq<byte>, others: seq<seq<byte>>, padding: seq<byte>)
    requires Sound(ap) && IsKeyData3(ap, plain, others, padding)
    ensures RsnElementOf(ItemsOf(plain)) == Some(ap.beaconIe)
    ensures GtkOf(ItemsOf(plain)) == Ok(ap.gtk)
  {
    var elements := Elements3(ap, others);
    GtkElementReads(ap.gtk);
    assert Elements(elements);
    KeyDataRoundTrip(elements, padding);
    var items := ItemsOf(plain);
    assert items[0] == Ie(EID_RSN, ap.beaconIe) && items[1] == ItemOf(GtkElement(ap.gtk));
    assert items[1..][0] == items[1];
  }

  lemma ProtectedOpens(c: Primitives, m: FourWay, k: KeyFrame, version: byte, plain: seq<byte>)
    requires Lawful(c) && Wrappable(plain) && m.ptk.Some?
    requires Protected(c, k, version, m.ptk.value, m.dv, plain)
    requires k.Has(PAIRWISE) ==> k.nonce == m.anonce
    ensures OpenKeyData(c, m, EapolFrame(version, KeyType, KeyBody(k), EncodeKey(k, version)), k) == Ok(ItemsOf(plain))
  {
    hide EncodeKey, VerifyFrameMic, ItemsOf, KeyBody, Bit, ComputeMic, Signed;
    SignedFrameVerifies(c, k, version, m.ptk.value.kck, m.dv);
  }

  function Msg4Frame(c: Primitives, m: FourWay, replay: Octets8): seq<byte>
    requires m.ptk.Some?
  {
    SignedReply(c, m.version, m.dv, m.ptk.value.kck, Msg4(m.dv, replay))
  }

  predicate IsMsg3(c: Primitives, m: FourWay, k: KeyFrame, version: byte, plain: seq<byte>) {
    && m.ptk.Some? && Protected(c, k, version, m.ptk.value, m.dv, plain)
    && k.Has(PAIRWISE) && k.nonce == m.anonce && (m.rx.Some? ==> m.rx.value < k.Counter())
  }

  // Message 3 completes a handshake that is waiting for it, and answers one
  // that is already established without handing the pairwise key over again.
  lemma Msg3Answered(c: Primitives, ap: Ap, m: FourWay, k: KeyFrame, version: byte, padding: seq<byte>,
                     plain: seq<byte>, others: seq<seq<byte>>, fill: seq<byte>)
    requires Lawful(c) && Sound(ap) && Serves(ap, m) && (m.phase == AwaitingMsg3 || m.phase == Established)
    requires IsKeyData3(ap, plain, others, fill) && IsMsg3(c, m, k, version, plain)
    ensures Poll(c, m, Wire(k, version, padding))
         == Outcome(m.(rx := Some(k.Counter()), phase := Established, lastSent := None, retries := 0),
                    Ok([Send(Msg4Frame(c, m, k.replay)), DisarmTimer]
                       + if m.phase == AwaitingMsg3 then [Complete(m.ptk.value, ap.gtk)] else []))
  {
    hide ParseEapol, ParseKey, EncodeKey, SignedReply, Bit, KeyFrame.Counter, OnMsg1, OnGroupMsg1, OpenKeyData,
         ItemsOf, GtkOf, RsnElementOf, IsKeyData3, Wrappable, Lawful, Reply;
    WireParses(k, version, padding);
    assert Wrappable(plain) by { KeyData3IsWrappable(ap, plain, others, fill); }
    ProtectedOpens(c, m, k, version, plain);
    KeyData3Reads(ap, plain, others, fill);
  }

  lemma KeyData3IsWrappable(ap: Ap, plain: seq<byte>, others: seq<seq<byte>>, padding: seq<byte>)
    requires Sound(ap) && IsKeyData3(ap, plain, others, padding)
    ensures Wrappable(plain)
  {
  }

  // Message 4 is one the authenticator accepts, padded or not.
  lemma Msg4Accepted(c: Primitives, m: FourWay, replay: Octets8, padding: seq<byte>)
    requires m.ptk.Some?
    ensures AcceptsAck(c, m.ptk.value, m.dv, true, replay, Msg4Frame(c, m, replay) + padding)
  {
    hide EncodeKey, ParseEapol, ParseKey, ComputeMic, VerifyFrameMic, Bit;
    var k := Msg4(m.dv, replay);
    var signed := Signed(c, k, m.version, m.ptk.value.kck, m.dv);
    assert Unsigned(signed) == Unsigned(k);
    WireParses(signed, m.version, padding);
    SignedFrameVerifies(c, signed, m.version, m.ptk.value.kck, m.dv);
    ReplyFlags(m.dv, true, true);
  }

  // ---- a group rekey -----------------------------------------------------------

  // An established station takes the new group key and nothing else, and its
  // answer is one the authenticator accepts.
  lemma GroupRekeyAnswered(c: Primitives, m: FourWay, k: KeyFrame, version: byte, padding: seq<byte>, gtk: Gtk,
                           others: seq<seq<byte>>, fill: seq<byte>, plain: seq<byte>, ackPadding: seq<byte>)
    requires Lawful(c) && m.phase == Established && m.ptk.Some? && Wrappable(plain)
    requires (|gtk.key| == 16 || |gtk.key| == 32) && gtk.index < 4
    requires Elements(others) && Padding(fill) && plain == Joined([GtkElement(gtk)] + others) + fill
    requires Protected(c, k, version, m.ptk.value, m.dv, plain)
    requires !k.Has(PAIRWISE) && (m.rx.Some? ==> m.rx.value < k.Counter())
    ensures var ack := SignedReply(c, m.version, m.dv, m.ptk.value.kck, GroupMsg2(m.dv, k.replay));
            && Poll(c, m, Wire(k, version, padding))
                 == Outcome(m.(rx := Some(k.Counter())), Ok([Send(ack), NewGtk(gtk)]))
            && AcceptsAck(c, m.ptk.value, m.dv, false, k.replay, ack + ackPadding)
  {
    hide ParseEapol, ParseKey, EncodeKey, Bit, KeyFrame.Counter, OnMsg1, OnMsg3, OpenKeyData, ItemsOf, Wrappable, Lawful,
         ComputeMic, VerifyFrameMic;
    var elements := [GtkElement(gtk)] + others;
    GtkElementReads(gtk);
    assert Elements(elements);
    KeyDataRoundTrip(elements, fill);
    assert ItemsOf(plain)[0] == ItemOf(GtkElement(gtk));
    WireParses(k, version, padding);
    ProtectedOpens(c, m, k, version, plain);
    var reply := GroupMsg2(m.dv, k.replay);
    var signed := Signed(c, reply, m.version, m.ptk.value.kck, m.dv);
    assert Unsigned(signed) == Unsigned(reply);
    WireParses(signed, m.version, ackPadding);
    SignedFrameVerifies(c, signed, m.version, m.ptk.value.kck, m.dv);
    ReplyFlags(m.dv, false, true);
  }

  // ---- any number of retries ------------------------------------------------------

  datatype Attempt = Msg1(k: KeyFrame, version: byte, padding: seq<byte>) | Lull

  function InputOf(attempt: Attempt): Input
    requires attempt.Msg1? ==> attempt.k.Valid()
  {
    if attempt.Lull? then Expiry else Wire(attempt.k, attempt.version, attempt.padding)
  }

  function InputsOf(attempts: seq<Attempt>): (ins: seq<Input>)
    requires forall i :: 0 <= i < |attempts| && attempts[i].Msg1? ==> attempts[i].k.Valid()
    ensures |ins| == |attempts|
    ensures forall i :: 0 <= i < |ins| ==>
              ins[i] == InputOf(attempts[i])
  {
    seq(|attempts|, i requires 0 <= i < |attempts| => InputOf(attempts[i]))
  }

  // The last message 1 sent so far.
  function LastMsg1(attempts: seq<Attempt>): (last: Option<Attempt>)
    ensures last.Some? ==> last.value.Msg1?
  {
    if attempts == [] then None
    else
      var last := attempts[|attempts| - 1];
      if last.Msg1? then Some(last) else LastMsg1(attempts[..|attempts| - 1])
  }

  // Station timeouts since then.
  function Lulls(attempts: seq<Attempt>): nat {
    if attempts == [] || attempts[|attempts| - 1].Msg1? || LastMsg1(attempts).None? then 0
    else 1 + Lulls(attempts[..|attempts| - 1])
  }

  // Message 1 sent over and over, with fresh counters and the same or another
  // ANonce, and station timeouts short of the retry limit in between.
  ghost predicate Retrying(ap: Ap, attempts: seq<Attempt>) {
    if attempts == [] then true
    else
      var before, last := attempts[..|attempts| - 1], attempts[|attempts| - 1];
      && Retrying(ap, before)
      && (last.Msg1? ==> IsMsg1(ap, last.k))
      && (last.Msg1? ==> (LastMsg1(before).Some? ==> LastMsg1(before).value.k.Counter() < last.k.Counter()))
      && Lulls(attempts) <= RETRY_LIMIT
  }

  lemma {:induction false} RetryingIsValid(ap: Ap, attempts: seq<Attempt>)
    requires Retrying(ap, attempts)
    ensures forall i :: 0 <= i < |attempts| && attempts[i].Msg1? ==> attempts[i].k.Valid()
    ensures LastMsg1(attempts).Some? ==> IsMsg1(ap, LastMsg1(attempts).value.k)
  {
    if attempts != [] {
      RetryingIsValid(ap, attempts[..|attempts| - 1]);
    }
  }

  // Where the retries leave the station: fresh, or waiting for message 3 with
  // the keys of the last message 1.
  function Waiting(c: Primitives, ap: Ap, snonce: Nonce, attempts: seq<Attempt>): FourWay
    requires Sound(ap) && (LastMsg1(attempts).Some? ==> IsMsg1(ap, LastMsg1(attempts).value.k))
  {
    var last := LastMsg1(attempts);
    if last.None? then StationOf(ap, snonce)
    else AnsweredMsg1(c, ap, StationOf(ap, snonce), last.value.k, last.value.version).(retries := Lulls(attempts))
  }

  // An answer that neither ends a handshake nor completes it: nothing, or a
  // frame to be sent again if need be.
  predicate GoesOn(result: Result<seq<Action>, EapolError>) {
    result.Ok? && (result.value == [] || (|result.value| == 2 && result.value[0].Send? && result.value[1].ArmTimer?))
  }

  // One more message 1, or one more lull, leaves the station waiting as it should.
  lemma AttemptAnswered(c: Primitives, ap: Ap, snonce: Nonce, attempts: seq<Attempt>)
    requires Sound(ap) && Retrying(ap, attempts) && attempts != []
    ensures var before, last := attempts[..|attempts| - 1], attempts[|attempts| - 1];
            && (last.Msg1? ==> last.k.Valid())
            && (LastMsg1(before).Some? ==> IsMsg1(ap, LastMsg1(before).value.k))
            && (LastMsg1(attempts).Some? ==> IsMsg1(ap, LastMsg1(attempts).value.k))
            && var o := Poll(c, Waiting(c, ap, snonce, before), InputOf(last));
               o.next == Waiting(c, ap, snonce, attempts) && GoesOn(o.result)
  {
    hide ParseEapol, ParseKey, EncodeKey, SignedReply, Bit, KeyFrame.Counter, OnFrame, DerivePtk, VersionOf, Wire;
    var before, last := attempts[..|attempts| - 1], attempts[|attempts| - 1];
    RetryingIsValid(ap, before);
    RetryingIsValid(ap, attempts);
    if last.Msg1? {
      Msg1Answered(c, ap, Waiting(c, ap, snonce, before), last.k, last.version, last.padding);
    }
  }

  lemma {:induction false} RetriesLeadToWaiting(c: Primitives, ap: Ap, snonce: Nonce, attempts: seq<Attempt>, r: Run)
    requires Sound(ap) && Retrying(ap, attempts)
    requires forall i :: 0 <= i < |attempts| && attempts[i].Msg1? ==> attempts[i].k.Valid()
    requires LastMsg1(attempts).Some? ==> IsMsg1(ap, LastMsg1(attempts).value.k)
    requires IsRun(c, r) && r.states[0] == StationOf(ap, snonce) && |attempts| <= |r.inputs|
    requires r.inputs[..|attempts|] == InputsOf(attempts)
    ensures r.states[|attempts|] == Waiting(c, ap, snonce, attempts)
  {
    hide Poll, IsMsg1, Lulls;
    if attempts != [] {
      var n := |attempts| - 1;
      var before := attempts[..n];
      RetryingIsValid(ap, before);
      assert r.inputs[..n] == r.inputs[..n + 1][..n] == InputsOf(before);
      RetriesLeadToWaiting(c, ap, snonce, before, r);
      assert r.inputs[n] == r.inputs[..n + 1][n] == InputOf(attempts[n]);
      assert Stepped(c, r, n);
      AttemptAnswered(c, ap, snonce, attempts);
    }
  }

  // A run of the station: message 1 however often, lulls in between, then a
  // message 3 under the keys of the last message 1.
  ghost predicate Completing(c: Primitives, ap: Ap, snonce: Nonce, attempts: seq<Attempt>, k3: KeyFrame, version: byte, padding: seq<byte>, r: Run) {
    && Sound(ap) && Retrying(ap, attempts) && LastMsg1(attempts).Some? && k3.Valid()
    && (forall i :: 0 <= i < |attempts| && attempts[i].Msg1? ==> attempts[i].k.Valid())
    && IsRun(c, r) && r.states[0] == StationOf(ap, snonce) && r.inputs == InputsOf(attempts) + [Wire(k3, version, padding)]
  }

  // Message 3 as this authenticator sends it: protected under the PTK both can
  // derive, with the nonce of the message 1 it follows and a fresh counter.
  ghost predicate Follows3(c: Primitives, ap: Ap, snonce: Nonce, k1: KeyFrame, k3: KeyFrame, version: byte, plain: seq<byte>)
    requires Sound(ap)
  {
    && VersionOf(k1.keyInfo, ap.akm).Ok?
    && Protected(c, k3, version, ApPtk(c, ap, k1.nonce, snonce), VersionOf(k1.keyInfo, ap.akm).value, plain)
    && k3.Has(PAIRWISE) && k3.nonce == k1.nonce && k1.Counter() < k3.Counter()
  }

  lemma CompletingWaits(c: Primitives, ap: Ap, snonce: Nonce, attempts: seq<Attempt>, k3: KeyFrame, version: byte, padding: seq<byte>, r: Run)
    requires Completing(c, ap, snonce, attempts, k3, version, padding, r)
    ensures IsMsg1(ap, LastMsg1(attempts).value.k)
    ensures r.states[|attempts|] == Waiting(c, ap, snonce, attempts) && r.inputs[|attempts|] == Wire(k3, version, padding)
  {
    hide IsMsg1, StationOf;
    RetryingIsValid(ap, attempts);
    assert r.inputs[..|attempts|] == InputsOf(attempts);
    RetriesLeadToWaiting(c, ap, snonce, attempts, r);
  }

  // The handshake completes. However often message 1 was retried, the next
  // message 3 ends in exactly the authenticator's PTK and group key.
  lemma HandshakeCompletes(c: Primitives, ap: Ap, snonce: Nonce, attempts: seq<Attempt>, k3: KeyFrame, version: byte,
                           padding: seq<byte>, plain: seq<byte>, others: seq<seq<byte>>, fill: seq<byte>, r: Run)
    requires Lawful(c) && Completing(c, ap, snonce, attempts, k3, version, padding, r)
    requires IsKeyData3(ap, plain, others, fill) && Follows3(c, ap, snonce, LastMsg1(attempts).value.k, k3, version, plain)
    ensures var actions := r.results[|attempts|];
            && actions.Ok? && |actions.value| == 3 && actions.value[0].Send? && actions.value[1] == DisarmTimer
            && actions.value[2] == Complete(ApPtk(c, ap, LastMsg1(attempts).value.k.nonce, snonce), ap.gtk)
  {
    hide ParseEapol, ParseKey, EncodeKey, SignedReply, Bit, KeyFrame.Counter, OnFrame, DerivePtk, VersionOf,
         IsKeyData3, Protected, IsMsg1, HashOf, Wire;
    CompletingWaits(c, ap, snonce, attempts, k3, version, padding, r);
    assert Stepped(c, r, |attempts|);
    Msg3Answered(c, ap, r.states[|attempts|], k3, version, padding, plain, others, fill);
  }

  // And the authenticator accepts both of the station's messages in it, padded
  // or not: the message 2 it is left resending, and the message 4 that answers.
  lemma HandshakeIsAccepted(c: Primitives, ap: Ap, snonce: Nonce, attempts: seq<Attempt>, k3: KeyFrame, version: byte,
                            padding: seq<byte>, plain: seq<byte>, others: seq<seq<byte>>, fill: seq<byte>, r: Run,
                            padding2: seq<byte>, padding4: seq<byte>)
    requires Lawful(c) && Completing(c, ap, snonce, attempts, k3, version, padding, r)
    requires IsKeyData3(ap, plain, others, fill) && Follows3(c, ap, snonce, LastMsg1(attempts).value.k, k3, version, plain)
    ensures var k1 := LastMsg1(attempts).value.k;
            var dv, ptk := VersionOf(k1.keyInfo, ap.akm).value, ApPtk(c, ap, k1.nonce, snonce);
            var sent, actions := r.states[|attempts|].lastSent, r.results[|attempts|];
            && sent.Some? && AcceptMsg2(c, ap, dv, k1.nonce, k1.replay, sent.value + padding2) == Some(ptk)
            && actions.Ok? && actions.value != [] && actions.value[0].Send?
            && AcceptsAck(c, ptk, dv, true, k3.replay, actions.value[0].frame + padding4)
  {
    hide ParseEapol, ParseKey, EncodeKey, SignedReply, Bit, KeyFrame.Counter, OnFrame, DerivePtk, VersionOf,
         IsKeyData3, AcceptMsg2, AcceptsAck, Protected, IsMsg1, HashOf, Wire;
    CompletingWaits(c, ap, snonce, attempts, k3, version, padding, r);
    assert Stepped(c, r, |attempts|);
    var last, m := LastMsg1(attempts).value, r.states[|attempts|];
    Msg2Accepted(c, ap, StationOf(ap, snonce), last.k, last.version, padding2);
    Msg3Answered(c, ap, m, k3, version, padding, plain, others, fill);
    Msg4Accepted(c, m, k3.replay, padding4);
  }
}
