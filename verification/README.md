# A Dafny model of CAW

CAW is a WPA supplicant whose protocols are state machines without I/O: each
takes an input and returns actions. This project models those machines in Dafny
and proves what their inputs, their runs and their combinations keep.

Each machine is written twice. A specification module holds one function per
handler, from a state and an input to a state and actions, and the lemmas about
single inputs, whole runs and two-party exchanges. Where the code updates fields
in place, a class in a module of its own updates the same fields, and each of
its methods is proved to do what the specification function says of the old
state. Round trips, agreement and invariants are then lemmas about the
functions.

| files | what they model |
|---|---|
| `Bytes`, `Suites`, `Crypto` | octets, suites and RSN elements, the pairwise key hierarchy over abstract primitives |
| `Eapol`, `FourWay`, `FourWayMachine`, `Authenticator` | EAPOL-Key frames, the station of the 4-way handshake, and an authenticator to run it against |
| `Sae`, `SaeMachine`, `SaeAgreement` | SAE over an abstract prime-order group, its runs, and two providers against each other |
| `DhcpWire`, `Dhcp`, `DhcpMachine`, `Timers`, `DhcpTimed`, `DhcpLate` | DHCP messages, the client, the timer wheel, and the client on the wheel, in time and late |
| `Frag`, `FragMachine`, `Dot1x`, `Dot1xMachine`, `EapTls` | EAP-TLS fragmentation, 802.1X with duplicate suppression, and both together |
| `Decoder`, `ProfileNames` | the incremental line decoder, and the file names of saved networks |
| `Policy` | choosing a BSS, an AKM and a cipher, and the downgrade floor |
| `Conn`, `ConnParts`, `ConnInvariant`, `ConnSteps`, `ConnRuns`, `ConnOrigins`, `ConnLinks`, `ConnLeases`, `ConnSilence`, `ConnJoins`, `ConnWpa3`, `ConnEnterprise`, `ConnInstances`, `ConnMachine` | the connection: its handlers, what they keep, its runs, whole joins against an access point, and the object |
| `Engine` | the feedback loop of the daemon |

## How the model reads the code

- Primitives, the SAE group, PBKDF2, EAP methods and JSON parsing are function
  parameters. The laws used are named: unwrapping undoes wrapping; the group is
  abelian of prime order and its points decode. Both sets have a model
  (`Crypto.LawIsSatisfiable`, `SaeAgreement.LawsAreSatisfiable`). Nothing is said
  of secrecy or forgery.
- What the code draws or reads from the system is an argument of the input that
  draws it: SAE seeds, nonces (the pool can fail), transaction ids, and the
  method an enterprise account's files make (they may not).
- A failed `expect` is the action `Crashed`, and `Failure::Internal` is a
  failure like any other; both are proved never to occur.
- Integer widths are explicit: the one-octet retransmission counter of SAE and
  the retry count of a connection wrap, the BOOTP seconds saturate, signal
  readings saturate at the top of their range.
- A session records the BSS it was planned for and the floor its profile had at
  that moment; the timed DHCP world records when its lease was granted and when
  it last asked. These records are never read by a step.
- Text is its octets, with the replacement of invalid ones a parameter. Suites
  handed to the kernel are four octets rather than one 32-bit number.

## Where the code and its promises differ

- `SaeProvider::on_timeout` counts in one octet. The bound of SYNC_MAX resends
  holds exactly below 256 timeouts (`SaeExchange.AtMostSyncMaxResends`, and
  `SaeExchange.OneResendTooMany` for a run past it); a caller that stops at the
  first refusal never gets there.
- An honest SAE commit is refused when its scalar is 0 or 1, or when it equals
  our own (`SaeAgreement.CommitAccepted`, `SaeAgreement.HonestCommitRefused`).
- A wake-up that comes late can deliver a stale retransmission timer after T1 in
  one batch, and the renewal REQUEST goes out twice in one instant: in exactly
  that case (`DhcpLate.WakeAsksTwice`), with a whole run that gets there
  (`DhcpLate.LateRenewalGoesOutTwice`). A punctual wake-up never does.
- A failure is documented as terminal when retrying could never succeed. An
  access point that falls silent during SAE counts as having rejected the
  station, so a saved network is given up on for good there, and there only
  (`ConnSilence.SilenceLaw`); silence anywhere else is tried again.
- A network that offers 802.1X and a passphrase under mandatory frame protection
  is saved with a floor its passphrase half cannot meet
  (`Policy.SavedProfileAccepts`, `Policy.SavedProfileCanRefuse`).
- `ssid_from_file_name` is documented as refusing whatever `file_name` did not
  write. It also reads escapes in small letters, needless escapes, and a plus
  sign for a digit (`ProfileNames.ReadNamesWereWritten`).
- An address acquired moves a connection to Connected from any state. Sessions
  are where they belong, and keyed, for as long as addresses arrive in
  Configuring or Connected, or in Associating with nothing left to prove, and no
  longer (`ConnLeases.KeyedExactlyWhenLeasesFit`). A renewal
  behind the loss of its link does not fit, and leaves the connection Connected
  to nothing (`ConnLeases.LateLeaseConnectsNothing`).
- The decoder notices an overlong line only when the newline has not come with
  it, so chopping matters exactly when a chunk ends past the limit
  (`LineFraming.ChoppingLaw`).

## Model

The theorems come first, machine by machine; the rows from `ConnMachine` on are the
methods that update state in place, each proved to follow its specification.

| member | source | states |
|---|---|---|
| `ConnRuns.OneTimer` | crates/caw-core/src/conn.rs:1297-1393 | In every run, expiries and late expiries included, at most one core timer runs, it is the one in `armed` and the one of the state; Authenticating, Associating and Reconnecting always have theirs running, and so has Scanning unless a passphrase prompt is parked |
| `ConnRuns.KeyedBeforeConfigured` | crates/caw-core/src/conn.rs:963-1176 | In every run in which each address acquired fits the session it finds, a session exists exactly in the five states from Authenticating to Connected, and a secured, non-offloaded one is Configuring or Connected only after pairwise keys for its own BSSID were installed since its association request |
| `ConnLeases.KeyedExactlyWhenLeasesFit` | crates/caw-core/src/conn.rs:1159-1176 | And only then: in every run, sessions are where they belong, and keyed, after each of the first n happenings if and only if every address acquired in them arrives in Configuring or Connected, or in Associating for a session that needs no handshake |
| `ConnSteps.FittingIsConfigurable` | crates/caw-core/src/conn.rs:1159-1176 | That guard, on the state alone, holds exactly when the session is past SAE, asked for its association, and needs no keys of its own or has them |
| `ConnLeases.LateLeaseConnectsNothing` | crates/caw-core/src/conn.rs:1159-1166 | From any associated state, a lease acquired behind the loss of the link leaves the connection Connected with no session and no timer |
| `ConnLeases.LeaseOutOfPlace` | crates/caw-core/src/conn.rs:1159-1166 | A run of three happenings from a new connection in which that takes a retry that was pending off its timer |
| `ConnSteps.AcquiredKeepsKeyed` | crates/caw-core/src/conn.rs:1159-1166 | One acquired lease keeps sessions where they belong, and keyed, if and only if it fits the session it finds |
| `ConnRuns.NoExpectFails` | crates/caw-core/src/conn.rs:634-1103 | In every run, no action is a failed `expect` or `Failure::Internal` |
| `ConnRuns.RequestSaysTheChoice` | crates/caw-core/src/conn.rs:884-961 | In every run, the elements of an association request for a scanned, secured BSS parse back to exactly the AKM, ciphers and frame protection chosen from what that BSS advertised |
| `ConnRuns.Message2CarriesTheRequest` | crates/caw-core/src/conn.rs:993-1073 | In every run, the handshake retry timer is set only right behind a message 2, first or resent, and that message carries octet for octet the elements of the last association request, made to the same BSS |
| `ConnRuns.KeyDataRepeatsTheRequest` | crates/caw-core/src/conn.rs:993-1035 | Conversely, in every run, any Key Data sent at all is octet for octet the elements of that request |
| `ConnRuns.KeysFollowTheBeacon` | crates/caw-core/src/conn.rs:1048-1103 | In every run, pairwise keys are installed only for the planned BSS, under the PTK of a frame whose opened Key Data held the very RSN element that BSS advertised |
| `ConnRuns.FloorHolds` | crates/caw-core/src/conn.rs:673-715 | In every run, an Associate would be joined at no less than the floor recorded at planning, read off the request itself; an Authenticate is SAE and no less either |
| `ConnOrigins.OriginWasPlanned` | crates/caw-core/src/conn.rs:718-788 | The BSS of any standing session was offered by an earlier input, a scan or the parked BSS of a secret, and its recorded floor is the minimum the profile of the target had at that very step |
| `ConnOrigins.PollOrigin` | crates/caw-core/src/conn.rs:539-550 | One input keeps the origin of the session, ends the session, or plans a new one from the BSSs it brought |
| `ConnLinks.NoLinkLeftBehind` | crates/caw-core/src/conn.rs:1345-1371 | In every run, an association asked for and not dropped since exists only in the four states that use one: no attempt ends with a link left up |
| `ConnLinks.FailedIsOver` | crates/caw-core/src/conn.rs:1345-1371 | A `Failed` action leaves the connection idle, with no target, session or armed timer: never alongside a retry |
| `ConnLinks.FailTidy` | crates/caw-core/src/conn.rs:1345-1371 | Failing drops the association unless the kernel already did, and backs off only from a non-terminal failure of a target to be retried |
| `ConnJoins.KnownNetworkIsJoined` | crates/caw-core/src/conn.rs:554-1176 | From whatever the connection was doing, told to connect to a network with a saved passphrase and shown its BSS, against an access point with that passphrase, it asks for that BSS, installs exactly the keys of the access point and ends Connected with the lease, through any retries of message 1 and timeouts short of the limit |
| `ConnJoins.AssociationConnects` | crates/caw-core/src/conn.rs:963-1176 | An association asked for with the PMK of the access point becomes a connection under its keys |
| `ConnJoins.ScanRequests` | crates/caw-core/src/conn.rs:634-961 | A scan with a BSS the profile allows leads to an association request for it that says what was negotiated |
| `ConnWpa3.Wpa3NetworkIsJoined` | crates/caw-core/src/conn.rs:554-1176 | The same for WPA3: through SAE with any anti-clogging tokens, the association names the PMKID both ends came to, and the keys installed are those the access point derives from the PMK of its own end |
| `ConnWpa3.ProofFollows` | crates/caw-core/src/conn.rs:819-863 | During SAE the connection goes through the exchange as its provider would on its own and says every frame the provider says, to that BSS |
| `ConnEnterprise.EnterpriseNetworkIsJoined` | crates/caw-core/src/conn.rs:554-1176 | The same for 802.1X: once the conversation over the association has settled, the keys installed are those of the access point handed its PMK |
| `ConnEnterprise.ConversationConnects` | crates/caw-core/src/conn.rs:963-1143 | From an association made for 802.1X, through the conversation to its success and the handshake under its PMK, to Connected with the lease |
| `ConnEnterprise.ConversationFollows` | crates/caw-core/src/conn.rs:1115-1143 | During 802.1X the connection goes through the conversation as its provider would on its own and sends every answer of the provider |
| `ConnEnterprise.PmkIsTheMethods` | crates/caw-eapol/src/eap/dot1x.rs:170-183 | The PMK the conversation settles on is the first half of the MSK of the method |
| `ConnInstances.FairHappens` | crates/caw-eapol/src/lib.rs:253-434 | Any lawful primitives and any sound access point get through a handshake with one message 1 |
| `ConnInstances.PskJoinHappens` | crates/caw-core/src/conn.rs:554-1176 | A whole run that meets every hypothesis of the join with a passphrase, and so ends Connected |
| `ConnInstances.SaeJoinHappens` | crates/caw-core/src/conn.rs:554-1176 | The same for the WPA3 join, over the integers modulo 5 |
| `ConnInstances.Dot1xJoinHappens` | crates/caw-core/src/conn.rs:554-1176 | The same for the enterprise join |
| `ConnSilence.SilenceLaw` | crates/caw-core/src/conn.rs:1297-1371 | In every run, a timer that fires ends the attempt if and only if what it counts is used up; a network to be retried is then given up on if and only if it fell silent during SAE, and backed off from otherwise |
| `ConnSilence.SilenceEndsTheAttempt` | crates/caw-core/src/conn.rs:1297-1371 | In every run, however the connection stands, no more expiries in a row than its remaining resends allow, and never more than six, pass before the attempt ends |
| `ConnRuns.PollKeeps` | crates/caw-core/src/conn.rs:539-550 | Every input keeps timer belief, session structure and keying, and leaves no state waiting on nothing |
| `ConnRuns.EveryActionIsOk` | crates/caw-core/src/conn.rs:539-550 | Every action of every step meets what is claimed of its kind against the session after the step |
| `ConnRuns.EverythingHasARun` | crates/caw-core/src/conn.rs:539-550 | Whatever happens to a connection, there is a run of it |
| `ConnSteps.AssembledFits` | crates/caw-core/src/auth.rs:89-153 | An AKM that satisfies the credential and is runnable is never refused as a mismatch, and never assembled as an open network |
| `ConnSteps.DecisionIsOk` | crates/caw-core/src/conn.rs:718-788 | A plan that goes ahead has a choice taken from the BSS and clearing the floor, and authentication of the right kind; otherwise it is refused for a nameable reason |
| `ConnSteps.NegotiatedFrom` | crates/caw-core/src/conn.rs:1451-1467 | What is negotiated is among what was advertised, satisfies the credential, can be run, and has frame protection required by the AP or by SAE |
| `ConnSteps.PlanKeeps` | crates/caw-core/src/conn.rs:718-788 | Planning from a scan or a secret keeps the invariant whichever way it decides |
| `ConnSteps.SendAssociationKeeps` | crates/caw-core/src/conn.rs:884-961 | Sending the request establishes the session the later states rely on and starts its timer |
| `ConnSteps.SaeStepKeeps` | crates/caw-core/src/conn.rs:819-845 | Each SAE answer is sent with its timer armed, ends the exchange, or leads to an association; only a wait leaves all as it was |
| `ConnSteps.OnAssociatedKeeps` | crates/caw-core/src/conn.rs:963-989 | An accepted association leads to addresses, to a handshake with the PMK in hand, or to 802.1X |
| `ConnSteps.DriveHandshakeKeeps` | crates/caw-core/src/conn.rs:1037-1086 | Every answer of the handshake keeps the invariant, and keys go in only for what the frame was heard to say |
| `ConnSteps.DriveDot1xKeeps` | crates/caw-core/src/conn.rs:1115-1143 | 802.1X answers, ends the attempt or hands its PMK to a handshake of the same session |
| `ConnSteps.OnLeaseKeeps` | crates/caw-core/src/conn.rs:1159-1206 | Lease events keep the invariant in any state, and the keyed part of it where the address fits the session |
| `ConnSteps.ConsiderRoamKeeps` | crates/caw-core/src/conn.rs:1210-1238 | A survey while connected roams, or only refreshes the reading of the current AP |
| `ConnSteps.OnTimerKeeps` | crates/caw-core/src/conn.rs:1297-1319 | An expiry, even of a timer already taken off, restores what the state waits on or leaves the state |
| `ConnInvariant.FailKeeps` | crates/caw-core/src/conn.rs:1345-1371 | However an attempt ends, no session is left, and a retry has its backoff timer running |
| `ConnParts.HandshakeStep` | crates/caw-eapol/src/lib.rs:242-317 | The five shapes of handshake answer, what their frames carry, and that installation follows the RSN element of the beacon |
| `ConnParts.SaeRetries` | crates/caw-crypto/src/sae.rs:478-492 | A timeout of an exchange under way always sends again or fails, never waits in silence |
| `ConnParts.Dot1xStep` | crates/caw-eapol/src/eap/dot1x.rs:203-240 | What 802.1X sends or repeats carries no Key Data |
| `Policy.SavedProfileAccepts` | crates/caw-core/src/profile.rs:62-77 | The profile saved after a first join accepts the security that join negotiated if and only if the beacon does not count as WPA3-Enterprise |
| `Policy.SavedProfileCanRefuse` | crates/caw-core/src/policy.rs:175-195 | A beacon for which the saved profile refuses its own join |
| `Policy.ChosenAkmIsStrongest` | crates/caw-core/src/policy.rs:116-155 | With a credential, an AKM is chosen whenever one is usable, it is usable, and no usable one would join at greater strength |
| `Policy.ChoicesAreStrongest` | crates/caw-core/src/policy.rs:65-97 | The BSS joined, the known one and the roam target are the strongest of those eligible, and are found exactly when one is |
| `EngineLoop.SettlesInTwoTurns` | crates/cawd/src/engine.rs:481-504 | Whatever the system answers, the feedback loop ends within two turns, two only for a finished scan: the 32-turn guard never trips |
| `EngineLoop.OnlyScanCompleteFetches` | crates/caw-core/src/conn.rs:1242-1251 | Only a finished scan makes a poll ask for results, and then for nothing else |
| `EngineLoop.StartingDhcpIsSilent` | crates/cawd/src/engine.rs:607-653 | Starting DHCP yields no lease event |
| `Authenticator.HandshakeCompletes` | crates/caw-eapol/src/lib.rs:253-434 | Against an authenticator with the same PMK, any retries of message 1 and timeouts short of the limit, then message 3, end in exactly its PTK and GTK |
| `Authenticator.HandshakeIsAccepted` | crates/caw-eapol/src/lib.rs:322-434 | In that run the authenticator accepts message 2 as resent and message 4, padded or not, and comes to the same PTK from message 2 |
| `Authenticator.AttemptAnswered` | crates/caw-eapol/src/lib.rs:303-361 | One more message 1, or one more timeout short of the limit, leaves the station waiting under the keys of the last message 1 |
| `Authenticator.RetriesLeadToWaiting` | crates/caw-eapol/src/lib.rs:303-361 | Any such retries leave the station waiting with the keys of the last message 1 |
| `Authenticator.Msg2Accepted` | crates/caw-eapol/src/lib.rs:322-361 | Message 2 parses, verifies and leads the authenticator to the PTK of the station |
| `Authenticator.Msg3Answered` | crates/caw-eapol/src/lib.rs:365-434 | Message 3 completes a waiting handshake, and an established one answers it without handing the keys over again |
| `Authenticator.Msg4Accepted` | crates/caw-eapol/src/lib.rs:410-434 | Message 4 verifies at the authenticator |
| `Authenticator.GroupRekeyAnswered` | crates/caw-eapol/src/lib.rs:438-468 | A group rekey hands over exactly the new group key, and its answer verifies |
| `FourWayHandshake.AnsweredCountersIncrease` | crates/caw-eapol/src/lib.rs:253-301 | In every run, frames that are answered carry strictly increasing replay counters |
| `FourWayHandshake.OneInstallPerMsg1` | crates/caw-eapol/src/lib.rs:322-434 | Keys are handed over at most once per accepted message 1, and are those of its ANonce and the fixed SNonce |
| `FourWayHandshake.ErrorsAreFinal` | crates/caw-eapol/src/lib.rs:242-251 | After an error every frame is refused and no key of either kind is handed over again |
| `Eapol.EapolRoundTrip` | crates/caw-eapol/src/lib.rs:87-112 | Parsing undoes encoding whatever padding follows |
| `Eapol.KeyFrameRoundTrip` | crates/caw-eapol/src/key.rs:118-175 | An EAPOL-Key frame reads back field for field, padded or not |
| `Eapol.SignedVerifies` | crates/caw-eapol/src/key.rs:181-212 | The MIC check passes for exactly the MIC the builder fills in |
| `Eapol.KeyDataRoundTrip` | crates/caw-eapol/src/key.rs:252-279 | Walking Key Data gives back exactly the elements it was built from, and stops at padding |
| `Crypto.DerivePtkSymmetric` | crates/caw-crypto/src/kdf.rs:67-104 | Both ends derive one PTK, whichever is called authenticator |
| `SaeAgreement.BothEndsAgree` | crates/caw-crypto/src/sae.rs:252-379 | Two providers with one password and each the address of the other, asked for any tokens, taking the last commit of each other, verify the confirm of each other and end with the same PMK and PMKID |
| `SaeAgreement.ExchangeHappens` | crates/caw-crypto/src/sae.rs:387-476 | Such a pair of runs exists: each end can be played what the other sent |
| `SaeAgreement.EveryFrameIsAnswered` | crates/caw-crypto/src/sae.rs:252-379 | Up to its confirm, an end answers whatever it hears with the frame it then stands ready to resend |
| `SaeAgreement.CommitAccepted` | crates/caw-crypto/src/sae.rs:252-315 | The commit of an honest peer is accepted if and only if its scalar is at least 2 and it is not a copy of our own |
| `SaeAgreement.SamePoint` | crates/caw-crypto/src/sae.rs:252-315 | Both ends compute the same shared point, never the identity |
| `SaeAgreement.ConfirmAccepted` | crates/caw-crypto/src/sae.rs:339-364 | The confirm one end sends is the one the other computes |
| `SaeAgreement.TokenAnswered` | crates/caw-crypto/src/sae.rs:369-379 | A token request is answered with the same commit and that token |
| `SaeAgreement.LawsAreSatisfiable` | crates/caw-crypto/src/sae.rs:545-569 | The group laws assumed have a model |
| `SaeAgreement.AgreementHappens` | crates/caw-crypto/src/sae.rs:252-379 | In that model two providers take the commit of each other and finish with one PMK |
| `SaeAgreement.HonestCommitRefused` | crates/caw-crypto/src/sae.rs:630-637 | And an honest commit is refused there, its scalar being 0 |
| `SaeExchange.OneCommit` | crates/caw-crypto/src/sae.rs:232-248 | In every run all commits sent carry one scalar and one element |
| `SaeExchange.OneSendConfirm` | crates/caw-crypto/src/sae.rs:318-336 | In every run the only send-confirm value used is one |
| `SaeExchange.ResendIsIdentical` | crates/caw-crypto/src/sae.rs:478-492 | A timeout sends the last frame again, octet for octet |
| `SaeExchange.ResendLaw` | crates/caw-crypto/src/sae.rs:478-492 | After an accepted frame the t-th timeout resends if and only if t modulo 256 is at most SYNC_MAX |
| `SaeExchange.AtMostSyncMaxResends` | crates/caw-crypto/src/sae.rs:478-492 | A frame is resent at most SYNC_MAX times if and only if fewer than 256 timeouts are delivered |
| `SaeExchange.OneResendTooMany` | crates/caw-crypto/src/sae.rs:478-492 | A run of 256 timeouts behind a commit, in which that commit is resent more than SYNC_MAX times |
| `SaeExchange.DoneOnce` | crates/caw-crypto/src/sae.rs:424-476 | The PMK is handed over at most once in a run |
| `SaeExchange.DoneMeansVerified` | crates/caw-crypto/src/sae.rs:339-364 | The PMK is handed over only on a confirm that verifies against the session |
| `Suites.StationElementParses` | crates/caw-core/src/rsn.rs:38-72 | The element of the station, whatever follows it, reads as exactly the suites and protection it was made from |
| `Suites.SelectorsRoundTrip` | crates/caw-80211/src/lib.rs:67-149 | A selector reads back as its suite, for exactly the suites a selector can name |
| `Suites.ScannedShape` | crates/caw-80211/src/lib.rs:399-455 | An advertised element is complete and names only suites selectors can name |
| `DhcpTimed.LeasesEndInTime` | crates/caw-dhcp/src/client.rs:321-457 | In every punctual run on the timer wheel no lease is held past its grant time plus its length, T1 <= T2 < length for any nonzero length, and REQUESTs of one stay in Renewing are at least 60 seconds apart |
| `DhcpTimed.WakeEndsTheLease` | crates/cawd/src/timers.rs:73-79 | The wake-up at the very end of a lease takes it away |
| `DhcpLate.WakeAsksTwice` | crates/cawd/src/reactor.rs:348-363 | In every run, however late its wake-ups, one wake-up sends at most two renewal REQUESTs, and two in its one instant if and only if a bound client is handed T1 first and a left-over retransmission timer right behind it |
| `DhcpLate.PunctualWakeAsksOnce` | crates/cawd/src/timers.rs:73-79 | In every punctual run a wake-up sends at most one |
| `DhcpLate.LateWakeAsksTwice` | crates/cawd/src/reactor.rs:348-363 | In deadlines: a bound client woken with T2 ahead sends its REQUEST twice if and only if a left-over retransmission timer became due after T1 and before the wake-up |
| `DhcpLate.LateAfterPunctual` | crates/cawd/src/reactor.rs:348-363 | The same for the end of any punctual run, once the clock passes T1 before the wake-up |
| `DhcpLate.LateRenewalGoesOutTwice` | crates/caw-dhcp/src/client.rs:357-393 | A whole run, from the start of the client through offer and acknowledgement to a wake-up two seconds late, that sends the renewal twice in one instant |
| `DhcpTimed.TimeoutKeepsSound` | crates/caw-dhcp/src/client.rs:357-457 | One timer of a batch keeps the timed invariant |
| `DhcpTimed.DatagramKeepsSound` | crates/caw-dhcp/src/client.rs:288-348 | A datagram keeps the timed invariant |
| `DhcpClient.LeaseExactlyWhenBound` | crates/caw-dhcp/src/client.rs:277-374 | In every run a lease is held exactly in Bound, Renewing and Rebinding, from the server being talked to, with its timers in order |
| `DhcpClient.TimersFitTheLease` | crates/caw-dhcp/src/client.rs:97-122 | However a server sets T1 and T2, renewal comes no later than rebinding and both before the end |
| `DhcpClient.UnansweredPhaseGivesUp` | crates/caw-dhcp/src/client.rs:376-488 | An unanswered phase sends at most MAX_TRIES messages, and once its timer ran out that often, exactly that many, 56 to 64 seconds of waiting and one failure |
| `DhcpClient.OneExchangeIsBounded` | crates/caw-dhcp/src/client.rs:277-420 | An exchange sends at most twice MAX_TRIES messages before it is configured, deconfigured or failed |
| `DhcpClient.MessagesRead` | crates/caw-dhcp/src/client.rs:495-543 | Every message composed decodes to itself at the server, with the address and server where table 5 of RFC 2131 wants them |
| `DhcpWire.MessageRoundTrip` | crates/caw-dhcp/src/message.rs:90-154 | Decoding undoes encoding for every well-formed message, padding to 300 octets ignored |
| `DhcpWire.AreaRoundTrip` | crates/caw-dhcp/src/options.rs:187-223 | Options come back in order whatever follows the end option |
| `DhcpWire.OptionRoundTrip` | crates/caw-dhcp/src/options.rs:123-179 | A canonical option reads back from its payload |
| `DhcpWire.TextReads` | crates/caw-dhcp/src/message.rs:184-196 | A text field reads back to its first NUL |
| `TimerWheel.SortedIsAPermutation` | crates/cawd/src/timers.rs:73-79 | A batch is exactly what was due, soonest first |
| `TimerWheel.SortedIsStable` | crates/cawd/src/timers.rs:73-79 | Timers of one instant fire in the order they stand in |
| `TimerWheel.ArmChangesOne` | crates/cawd/src/timers.rs:50-56 | Arming changes one deadline and the place of no other |
| `TimerWheel.PositionsOfKeep` | crates/cawd/src/timers.rs:58-66 | Removing timers keeps the order of the rest |
| `EapFragments.MessageArrives` | crates/caw-eapol/src/eap/frag.rs:138-252 | Every message of 1 to MAX_TLS_MESSAGE octets, at every fragment size, arrives whole after exactly ceil(n / size) fragments, the receiver never holding more than was declared |
| `EapFragments.MessageComesIn` | crates/caw-eapol/src/eap/frag.rs:307-334 | An idle exchange acknowledges every fragment but the last and hands over the whole message at the last |
| `EapFragments.NeverHoldsMore` | crates/caw-eapol/src/eap/frag.rs:138-186 | Whatever a peer sends, an exchange never holds more than was declared, nor more than the ceiling |
| `EapFragments.PieceReads` | crates/caw-eapol/src/eap/frag.rs:76-94 | A fragment parses back to what it was cut from |
| `EapTls.FlightCrosses` | crates/caw-eapol/src/eap/dot1x.rs:105-168 | A whole flight crosses to the authenticator over EAP and EAPOL although each request is repeated any number of times, in as many turns as fragments |
| `EapTls.TlsAlwaysAnswers` | crates/caw-eapol/src/eap/tls/mod.rs:313-336 | A method over the exchange answers whatever it accepts |
| `Dot1x.RepeatsAreInvisible` | crates/caw-eapol/src/eap/dot1x.rs:150-168 | However often each request is repeated before the next, the method has been through exactly what it would have been without |
| `Dot1x.RepeatsAreAnswered` | crates/caw-eapol/src/eap/dot1x.rs:150-168 | Every repeat is sent the very frame its request was sent |
| `Dot1x.PmkOnlyFromMethod` | crates/caw-eapol/src/eap/dot1x.rs:170-183 | A PMK is handed over only on an MSK the method has produced, by a provider still running, which then is not |
| `Dot1x.PmkAtMostOnce` | crates/caw-eapol/src/eap/dot1x.rs:170-240 | In every run a PMK is handed over at most once, and never after the provider has finished or failed |
| `Dot1x.ResponseReads` | crates/caw-eapol/src/eap/packet.rs:79-146 | A response reads back, padded or not |
| `LineFraming.ChoppingIsInvisible` | crates/caw-ipc/src/frame.rs:90-146 | For every stream within the limit and every way of chopping it, draining after each chunk yields what splitting the whole at newlines yields, and holds back the tail |
| `LineFraming.ChoppingLaw` | crates/caw-ipc/src/frame.rs:90-146 | For every chopping of every stream, draining after each chunk yields what splitting the whole at newlines yields if and only if no chunk leaves more than the limit behind its last newline |
| `LineFraming.LongLinesAreNoticed` | crates/caw-ipc/src/frame.rs:109-118 | For every stream past the limit some chopping yields something else |
| `LineFraming.HeldBackWithinLimit` | crates/caw-ipc/src/frame.rs:109-118 | Whatever the stream, no more than the limit is held back |
| `ProfileNames.NamesReadBack` | crates/caw-core/src/profile.rs:166-201 | Every non-empty SSID reads back from its file name |
| `ProfileNames.NamesAreDistinct` | crates/caw-core/src/profile.rs:166-176 | Distinct SSIDs have distinct files |
| `ProfileNames.ReadNamesWereWritten` | crates/caw-core/src/profile.rs:181-201 | A name that is read would have been written if and only if its escapes are in capitals and of octets that need them |
| `ProfileNames.OthersAreReadToo` | crates/caw-core/src/profile.rs:178-201 | Two names nobody writes that are read as networks |
| `ConnMachine.Link.Poll` | crates/caw-core/src/conn.rs:539-550 | The object follows the specification on every input |
| `ConnMachine.Link.OnCommand` | crates/caw-core/src/conn.rs:554-606 | Commands, against their specification |
| `ConnMachine.Link.Select` | crates/caw-core/src/conn.rs:634-669 | Choosing a BSS from a scan, against its specification |
| `ConnMachine.Link.Plan` | crates/caw-core/src/conn.rs:718-788 | Acting on the decision about one BSS, against its specification |
| `ConnMachine.Link.OnSaeStep` | crates/caw-core/src/conn.rs:819-845 | Acting on an SAE answer, against its specification |
| `ConnMachine.Link.BuildRequest` | crates/caw-core/src/conn.rs:884-947 | The request built field by field, RSN element encoded and RSNXE appended, is the specified one |
| `ConnMachine.Link.SendAssociation` | crates/caw-core/src/conn.rs:884-961 | The association request and the state it leaves |
| `ConnMachine.Link.OnAssociated` | crates/caw-core/src/conn.rs:963-989 | Acting on an accepted association |
| `ConnMachine.Link.StartHandshake` | crates/caw-core/src/conn.rs:993-1019 | A handshake for the session just associated |
| `ConnMachine.Link.OnEapol` | crates/caw-core/src/conn.rs:1021-1035 | Frames routed by EAPOL packet type |
| `ConnMachine.Link.DriveHandshake` | crates/caw-core/src/conn.rs:1037-1086 | The loop over the handshake actions, in order, then configuration when it installed keys |
| `ConnMachine.Link.DriveDot1x` | crates/caw-core/src/conn.rs:1115-1143 | One 802.1X frame and what its answer leads to |
| `ConnMachine.Link.Configured` | crates/caw-core/src/conn.rs:1149-1157 | Straight back to Connected after a roam, DHCP otherwise |
| `ConnMachine.Link.OnLease` | crates/caw-core/src/conn.rs:1159-1176 | Lease events, against their specification |
| `ConnMachine.Link.SaveJoined` | crates/caw-core/src/conn.rs:1180-1206 | Remembering an explicitly joined network, once |
| `ConnMachine.Link.ConsiderRoam` | crates/caw-core/src/conn.rs:1210-1238 | A survey while connected |
| `ConnMachine.Link.OnWireless` | crates/caw-core/src/conn.rs:1242-1295 | Kernel events, each only in the states it is about |
| `ConnMachine.Link.OnTimer` | crates/caw-core/src/conn.rs:1297-1319 | Timers, each only in the state that armed it |
| `ConnMachine.Link.Enter` | crates/caw-core/src/conn.rs:1323-1332 | Changing state clears exactly a timer of another state |
| `ConnMachine.Link.Fail` | crates/caw-core/src/conn.rs:1345-1371 | Backing off, or reporting and stopping |
| `ConnMachine.Link.InsertProfile` | crates/caw-core/src/conn.rs:527-533 | A profile replaces its namesakes and retunes a matching target |
| `EngineMachine.Engine.Perform` | crates/cawd/src/engine.rs:508-775 | The actions of a turn in order, up to the first that fails, and the inputs they hand back |
| `EngineMachine.Engine.Feed` | crates/cawd/src/engine.rs:481-504 | The queue loop settles or aborts within two turns, with the specified result |
| `FourWayMachine.Supplicant.Poll` | crates/caw-eapol/src/lib.rs:242-251 | The object follows the specification on every input |
| `FourWayMachine.Supplicant.OnFrame` | crates/caw-eapol/src/lib.rs:253-301 | Frames, against their specification |
| `FourWayMachine.Supplicant.OnMsg1` | crates/caw-eapol/src/lib.rs:322-361 | Message 1: PTK derived, message 2 built and signed in place |
| `FourWayMachine.Supplicant.OnMsg3` | crates/caw-eapol/src/lib.rs:365-434 | Message 3: every check in order, then message 4 |
| `FourWayMachine.Supplicant.OnGroupMsg1` | crates/caw-eapol/src/lib.rs:438-468 | The first message of a group rekey |
| `Eapol.EncodeSigned` | crates/caw-eapol/src/key.rs:181-192 | The frame signed in place in its buffer is the signed frame |
| `Eapol.KeyDataItems.Next` | crates/caw-eapol/src/key.rs:255-279 | One item off the front, or nothing left |
| `Eapol.GtkKde` | crates/caw-eapol/src/key.rs:286-310 | The first GTK KDE decides |
| `Eapol.RsnElement` | crates/caw-eapol/src/key.rs:313-318 | The first RSN element, whole |
| `Crypto.DerivePtkInPlace` | crates/caw-crypto/src/kdf.rs:67-104 | The 76-octet input filled in place gives the specified PTK |
| `SaeMachine.SaeProvider.Start` | crates/caw-crypto/src/sae.rs:387-422 | Starting, against its specification |
| `SaeMachine.SaeProvider.OnFrame` | crates/caw-crypto/src/sae.rs:424-476 | Frames, against their specification |
| `SaeMachine.SaeProvider.OnCommit` | crates/caw-crypto/src/sae.rs:252-315 | A commit, against its specification |
| `SaeMachine.SaeProvider.OnTimeout` | crates/caw-crypto/src/sae.rs:478-492 | Timeouts, with the one-octet counter |
| `Suites.ParseBody` | crates/caw-80211/src/lib.rs:414-455 | The cursor-driven parser agrees with the specification |
| `Suites.EncodeStation` | crates/caw-core/src/rsn.rs:38-72 | The element pushed step by step and its length patched is the specified one |
| `DhcpMachine.Dhcp4.Poll` | crates/caw-dhcp/src/client.rs:269-275 | The object follows the specification on every input |
| `DhcpMachine.Dhcp4.OnDatagram` | crates/caw-dhcp/src/client.rs:288-306 | Datagrams, against their specification |
| `DhcpMachine.Dhcp4.OnTimeout` | crates/caw-dhcp/src/client.rs:357-374 | Timeouts, stale ones ignored |
| `DhcpMachine.Dhcp4.Resend` | crates/caw-dhcp/src/client.rs:376-420 | Retransmission and giving up |
| `DhcpMachine.Dhcp4.Age` | crates/caw-dhcp/src/client.rs:471-474 | The interval just spent, saturating, and the next try |
| `DhcpWire.DecodeInto` | crates/caw-dhcp/src/options.rs:187-215 | The index loop pushes exactly the specified options and gathers the overload bits |
| `DhcpWire.Encode` | crates/caw-dhcp/src/message.rs:138-154 | The buffer appended to and stretched is the specified encoding |
| `DhcpWire.Decode` | crates/caw-dhcp/src/message.rs:90-136 | Options collected from the area, then file, then sname |
| `TimerWheel.Timers.ArmAt` | crates/cawd/src/timers.rs:50-56 | Arming replaces in place or appends |
| `TimerWheel.Timers.Expire` | crates/cawd/src/timers.rs:73-79 | The batch delivered, and the wheel left without it |
| `TimerWheel.Timers.NextDeadline` | crates/cawd/src/timers.rs:68-70 | The least deadline, when there is one |
| `FragMachine.Reassembler.Push` | crates/caw-eapol/src/eap/frag.rs:138-186 | The buffer updated in place, against its specification |
| `FragMachine.Fragmenter.Next` | crates/caw-eapol/src/eap/frag.rs:221-252 | The next fragment and how far sending has got |
| `FragMachine.Exchange.OnRequest` | crates/caw-eapol/src/eap/frag.rs:307-334 | Which of the two a request belongs to |
| `FragMachine.Exchange.Send` | crates/caw-eapol/src/eap/frag.rs:338-344 | Queueing a message and taking its first fragment |
| `Dot1xMachine.Dot1xProvider.OnFrame` | crates/caw-eapol/src/eap/dot1x.rs:203-240 | Frames, against their specification |
| `Dot1xMachine.Dot1xProvider.OnEap` | crates/caw-eapol/src/eap/dot1x.rs:150-186 | Packets, duplicates replayed |
| `Dot1xMachine.Dot1xProvider.OnRequest` | crates/caw-eapol/src/eap/dot1x.rs:113-148 | Identity, notification, Nak or the method |
| `Dot1xMachine.Dot1xProvider.OnTimeout` | crates/caw-eapol/src/eap/dot1x.rs:246-256 | Silence counted to the limit |
| `DecoderMachine.Decoder.Next` | crates/caw-ipc/src/frame.rs:109-141 | The scanning, draining loop against its specification |
| `DecoderMachine.Decoder.Feed` | crates/caw-ipc/src/frame.rs:90-141 | A chunk appended and drained |
| `ProfileNames.BuildFileName` | crates/caw-core/src/profile.rs:166-176 | The escaping loop against its specification |
| `ProfileNames.ReadFileName` | crates/caw-core/src/profile.rs:181-201 | The unescaping loop against its specification |

## Left out

- SaeAgreement.BothEndsAgree: supposes the password element is not the identity, which the code does not check and the hash makes negligible.
- SaeExchange.AtMostSyncMaxResends: the counter wraps as in a release build; a debug build stops at the overflow.
- ConnRuns.KeyedBeforeConfigured: supposes each acquired address fits, which the code does not check; ConnLeases.KeyedExactlyWhenLeasesFit shows that nothing less will do.
- ConnLinks.NoLinkLeftBehind: any disconnection reported clears the record of the link, even a stale echo of an earlier one heard while Associating.
- ConnRuns.FloorHolds: the floor is the one recorded at planning; a profile saved later in the attempt does not count.
- ConnRuns.RequestSaysTheChoice: supposes the RSN element of the BSS is one the parser produced, as every scan entry is.
- ConnSilence.SilenceEndsTheAttempt: speaks of expiries of timers that run; a handshake before message 1 and a configuration hold none, so nothing in the connection ends those.
- ConnJoins.KnownNetworkIsJoined: the network has a saved passphrase, no two entries of the scan share a BSSID, and nothing else happens in between; passphrases asked for on the way and keys derived by the device are left to the invariants.
- ConnWpa3.Wpa3NetworkIsJoined: the same, with frames lost in SAE left to the resend laws.
- ConnEnterprise.EnterpriseNetworkIsJoined: the same, for a conversation in which no frame is refused; what makes a method produce its key is the method's.
- Policy.ChoicesAreStrongest: speaks of the entry policy picks; with one BSSID listed twice the connection plans for the first entry of that BSSID.
- DhcpTimed.LeasesEndInTime: the wheel holds the DHCP keys only, a batch is delivered at one instant, and the minute between REQUESTs is stated within one stay in Renewing.
- EapTls.FlightCrosses: fragments of at most 65525 octets, since an EAP packet has a 16-bit length and the code stops beyond it; the fragment layer itself has no such bound.
- Dot1x.RepeatsAreInvisible: supposes a method that always answers, as the TLS-based ones do; one that consumes a request in silence is entered again.
- EapTls.TlsAlwaysAnswers: the model's method answers a flight, an empty flight included; what PEAP and TTLS do inside an established tunnel is not modelled.
- EngineMachine.Engine.Perform: what the system makes of an action is one flag for done or failed, a scan and a transaction id; the effects on sockets, routes and files are left out.
- ConnMachine.Link: holds its providers and handshake by value, so sharing between a session and them is not modelled; deciding about a BSS is one step, with no effect in between to see.
- ConnMachine.Link.Fail: the retry count wraps at 32 bits.
- Enterprise accounts: identity, certificates and method are one number, and what their files hold is an argument.
- Hash-to-curve, HMAC, the PRFs, AES-CMAC, AES key wrap and PBKDF2 are parameters, so their loops are not modelled.
- The element iterator over a whole beacon and the WPA1 element: classification starts from parsed elements.
- The TLS stack and the EAP methods inside it, MSCHAPv2, and the export of the MSK.
- EAPOL-Start and everything else an authenticator alone would send or receive.
- Sockets, netlink, routes, resolver files, profile storage, signals, suspend handling and the timer descriptor.
- IPv6 configuration, mask-from-prefix conversion, reason texts, error wording and prompts.
- Erasing secrets and constant-time comparison, which a functional model does not see.
- The clients of the daemon: their requests, permissions, tokens and replies.
