# Mercury in Dafny

Mercury is a small person-to-person protocol. Personas register at a home server, log in, pair by
exchanging relation proofs that both sign, and call each other's applications. This project models
the state machines at its core and proves what every interleaving of their steps keeps.

| file | what it models |
|---|---|
| `Prelude.dfy` | what several modules share |
| `Bytes.dfy`, `Relation.dfy` | the signed bytes, half-proofs, countersigning, two-sided proofs and their validation |
| `EventSink.dfy` | one event or call sink of a session, with every channel it hands out |
| `HomeServer.dfy` | the home server as a machine whose atomic steps are calls, polls, channel steps and drops |
| `HomeInvariants.dfy` | what every step of the server keeps |
| `HomeStores.dfy` | the two stores and the session map against the log of effects |
| `HomeSessions.dfy` | which session the server finds, and which live ones it does not |
| `HomeLifecycle.dfy` | exactly when registrations and unregistrations alternate |
| `HomeRegistration.dfy` | registering and logging in, calls and polls interleaved freely |
| `HomeCalls.dfy` | validity of everything queued, answering of calls |
| `HomeSinks.dfy` | conservation in every sink of every session, delivery of calls |
| `HomeEffects.dfy` | exactly when each call on the server succeeds, and exactly what it changes |
| `HomeNode.dfy` | the server as an object updated in place, each method one step of the machine |
| `Pairing.dfy`, `PairingAgreement.dfy`, `PairingDelivery.dfy`, `PairingRun.dfy` | any number of clients pairing over any number of homes |
| `Fanout.dfy` | a client session forwarding events to its listeners |
| `Collect.dfy` | `collect_results` and `collect_results2` |
| `Text.dfy`, `HashSpace.dfy`, `HashWeb.dfy`, `Address.dfy` | content-addressed storage, links and multi-hop addresses |
| `Handshake.dfy` | the two-party handshake over partial reads and writes |

## How the model reads the program

- The program is single-threaded and asynchronous. A method that returns a future is split where
  the futures split it: store lookups and `clear_local` take effect at the call, writes when the
  future is polled. A run is any sequence of steps, by anyone, in any order.
- A send on a channel may complete at any time or never. This includes every schedule that a bounded
  channel allows. A future of the server that starts a send counts as finished at the push; what
  waits for it may therefore go on earlier here than in the program, and never later.
- Signing, checking and the key hash are a parameter, `Scheme`. Each theorem names the properties of
  it that it needs: `Correct` (section 5.1.7 of RFC 8032), `CollisionFree`, `Binding`, `Definite`.
  `Relation.IdealSchemeExists` shows that they can hold together.
- Where a theorem says `OwnProofs`, clients log in with a home proof that names themselves; the
  server does not check this. `HomeSessions.SessionMapExact` shows that this is exactly what the
  session map needs. The theorems of `HomeStores`, `HomeLifecycle`, `HomeRegistration` and
  `HomeSinks` hold without it.

## Where code and documentation differ

The model follows the code.

- `login` is documented to close any active session of the profile (home-protocol/src/lib.rs:316).
  It closes none (home-node/src/server.rs:264): `HomeSessions.LoginClosesNoSession` says that the
  new session is the only live one exactly when none was live before.
- `get_live_session` is documented to return nothing when the profile is not online
  (home-node/src/server.rs:58-59). It also returns nothing for some live sessions:
  `HomeSessions.SecondSessionHidesFirst` and `HomeSessions.ReRegistrationHidesSession` give two ways
  to get there, `HomeSessions.LiveButNotFound` says exactly when it happens.
- A second registration is refused as already registered (home-node/src/server.rs:221-224) only if the
  first was polled before the second was called (`HomeLifecycle.OverlappingRegistrations`), and an
  update that is polled after an unregistration brings the profile back
  (`HomeLifecycle.StaleUpdateRevives`). `HomeLifecycle.AlternationExact` says exactly which runs are
  free of both.
- A pairing response to a hosted initiator who is not online is dropped and reported as sent
  (home-node/src/server.rs:93-94), and the acceptor stores the relation
  (connect/src/profile.rs:442-446): `PairingRun.OfflineInitiatorNeverHears`. What becomes of every
  acceptance is `PairingDelivery.FateOfAcceptance`, and exactly when a proof is held under an id is
  `PairingDelivery.HeldExactly`.
- The proof validators drop the boolean that `validate_signature` returns
  (home-protocol/src/lib.rs:631-674). `Relation.AcceptedUnverified` says for exactly which proofs
  this makes a difference, `Relation.UnverifiedProofExists` gives one, and
  `Relation.DefiniteVerifies` says that there are none under a scheme like Ed25519.
- The synchronous hash space writes before it encodes, the asynchronous one after.
  `HashSpace.AsyncMatchesSync` says exactly when the two end in the same state.
- An address without `#`, or a specifier without `@` that is reached, makes the resolver panic
  (storage/src/async/imp.rs:255, storage/src/format/mod.rs:45); a specifier behind an error is never
  read. The model has the panic as an outcome, `Address.AddressPanicsExactly` says exactly when it
  happens, and `Address.SafeAddressNeverPanics` what a caller can check to rule it out.

## Model

| member | source | states |
|---|---|---|
| `EventSink.RunConserves` | home-node/src/server.rs:436-476 | Conservation: after every interleaving of pushes, subscriptions, flushes, sends, cancellations, receives and drops, each channel's flush task, pending sends, queue, received log and losses together hold exactly what the calls alone say it is owed, each item once; what was buffered before the first subscription is still in push order |
| `EventSink.GenerationsSeparate` | home-node/src/server.rs:548-615 | A value pushed between the n-th and the next subscription is in channel n exactly once and in no other channel; a superseded channel has exactly one warning, the current one none |
| `EventSink.OwedCounts` | home-node/src/server.rs:436-453 | What the calls owe a channel, in closed form: one item for each push made in its generation, one warning if and only if it is superseded |
| `EventSink.ChannelStepKeepsLedger` | home-node/src/server.rs:602-614 | No step of a channel creates, destroys or duplicates a message |
| `EventSink.ChannelStepKeepsOrder` | home-node/src/server.rs:602-611 | No step of a channel reorders the buffered messages among each other, though later pushes may overtake them |
| `EventSink.StepKeepsInvariant` | home-node/src/server.rs:436-453 | Every single step, from any state with the invariant, keeps accounts and order |
| `EventSink.DrivenRunLosesNothing` | home-node/src/server.rs:445-452 | While receivers live and send futures are driven, nothing is lost |
| `EventSink.QuietRunDelivers` | home-node/src/server.rs:584-615 | Once nothing is on its way in such a run, every channel has received exactly its due, the buffered values in push order |
| `EventSink.BufferedArriveInOrder` | home-node/src/server.rs:602-611 | In any run, with dropped receivers too, the buffered values received are a prefix of the buffer |
| `EventSink.StreamIsFifo` | home-node/src/server.rs:592-611 | A stream is a queue: what its client has and what is in it only grows, at the end, by the message that a flush or a completed send puts there |
| `EventSink.ClosedIsSilent` | home-node/src/server.rs:445-452 | After its receiver is dropped a stream hands out nothing in any sequence of steps, and what was in it is lost |
| `EventSink.EveryStreamCanDrain` | home-node/src/server.rs:602-611 | From every driven run there is a driven way on after which a stream is quiet and its client has received exactly its due |
| `EventSink.SubscribeOpens` | home-node/src/server.rs:584-614 | A subscription makes one channel more, open, current and empty; the first is given the whole buffer to flush, a later one warns the channel it supersedes and touches no other |
| `EventSink.HeldWasPushed` | home-node/src/server.rs:436-453 | Nothing is in a sink that was not pushed into it |
| `EventSink.EachPushHeldOnce` | home-node/src/server.rs:436-453 | Each pushed value is in exactly one place of its sink, buffer, flush task, pending send, some channel, some received log or the losses, and nothing else is |
| `EventSink.PushAddsOne` | home-node/src/server.rs:438-452 | A push adds exactly its own message to what the sink holds, buffering or sending |
| `EventSink.ChannelStepKeepsContents` | home-node/src/server.rs:592-611 | No step of any channel changes what the sink holds in all |
| `EventSink.ReceivedOnce` | home-node/src/server.rs:456-476 | A pushed value comes out of at most one channel, at one position |
| `EventSink.ServerSink.constructor` | home-node/src/server.rs:428-433 | A new sink is an empty buffer |
| `EventSink.ServerSink.PushItem` | home-node/src/server.rs:436-453 | The push in place: buffer or pending send, keeping the invariant of all runs |
| `EventSink.ServerSink.NewStream` | home-node/src/server.rs:584-615 | The subscription in place: new sender, flush of the buffer or warning to the superseded channel, keeping the invariant |
| `EventSink.ServerSink.Next` | home-node/src/server.rs:614 | The client takes the head of its stream and nothing else changes hands |
| `Relation.SerializedRoundTrip` | home-protocol/src/lib.rs:202-210 | The signed bytes decode to the statement they were made from, whatever bytes follow |
| `Relation.SerializedInjective` | home-protocol/src/lib.rs:546-573 | Equal signed bytes, with any trailers, come from equal (type, signer, peer) |
| `Bytes.LittleEndianDigits` | home-protocol/src/lib.rs:202 | Byte i of a length is its i-th digit to the base 256, the lowest first |
| `Relation.OneSignatureOneStatement` | home-protocol/src/lib.rs:631-635 | Under a binding scheme one signature is accepted for one directed statement only |
| `Relation.AcceptedUnverified` | home-protocol/src/lib.rs:637-674 | A proof, of one id with itself included, is accepted although it does not verify exactly when it relates the two parties, neither signature check is an error, and one of them answers `Ok(false)` |
| `Relation.AcceptedHalfUnverified` | home-protocol/src/lib.rs:631-635 | A half-proof is accepted although it does not verify exactly when its check answers `Ok(false)`, so never under a scheme that does not answer so |
| `Relation.DefiniteVerifies` | home-protocol/src/lib.rs:631-674 | Under a scheme that never answers `Ok(false)` validation is verification |
| `Relation.UnverifiedProofExists` | home-protocol/src/lib.rs:663-671 | Under a correct scheme that does, a proof with two empty signatures is accepted |
| `Relation.ValidProofMeaning` | home-protocol/src/lib.rs:637-674 | Validation between two parties holds exactly when the proof names just these two and carries an accepted statement of each about the other |
| `Relation.SymmetricExactly` | home-protocol/src/lib.rs:637-674 | Swapping the two (id, key) pairs keeps the verdict under every scheme if and only if the ids in the proof differ, or the keys or the two signatures are equal, or one of the parties is not the one the proof names |
| `Relation.ValidProofSymmetricForProfiles` | home-protocol/src/lib.rs:637-674 | Between parties whose keys hash to their ids it keeps the verdict always |
| `Relation.SelfRelationCanBeAsymmetric` | home-protocol/src/lib.rs:663-671 | A proof that names one id twice can validate in one order only |
| `Relation.NewHalfValid` | home-protocol/src/lib.rs:226-234 | A new half-proof is accepted under its signer's key |
| `Relation.CountersignedValidates` | home-protocol/src/lib.rs:596-617 | Countersigning an accepted half-proof succeeds, and the result names and validates for both, in both orders |
| `Relation.PairingIsCanonical` | home-protocol/src/lib.rs:582-606 | Whoever starts, the two end up with one and the same proof, smaller id first, and it validates |
| `Bytes.Trichotomy` | home-protocol/src/lib.rs:586-593 | The order of ids that makes proofs canonical: exactly one of less, equal, greater |
| `Bytes.LessExactly` | home-protocol/src/lib.rs:586-593 | That order is the lexicographic one: a proper prefix, or a smaller byte at the first difference |
| `HomeInvariants.RunKeeps` | home-node/src/server.rs:154-374 | In every reachable state the stores agree, every session entry is a live session of its profile, every sink conserves, and everything pushed anywhere was validated for the owner of the session |
| `HomeInvariants.StepKeeps` | home-node/src/server.rs:168-319 | Each atomic step keeps that invariant |
| `HomeInvariants.ResponseSound` | home-node/src/server.rs:290-319 | A proof validated against the stored key is valid for the session found later, because both keys hash to the same id |
| `HomeStores.StoresInEveryRun` | home-node/src/server.rs:168-241 | In every run, whatever clients send: same keys in both stores, public is the public part of hosted, each profile under its own id, the hash of its key; the log of effects determines what is hosted and which session is entered |
| `HomeStores.StepKeepsStores` | home-node/src/server.rs:489-544 | Each atomic step, call time or poll time, keeps this |
| `HomeStores.ClaimIsLatest` | home-node/src/server.rs:156-165 | `claim` returns, for the own id only, what the latest effective register or update wrote, unless unregistered since |
| `HomeSessions.LiveSessionIsCurrent` | home-node/src/server.rs:58-79 | The session found is live, of that profile, and the first one logged in since the last drop or unregistration; none is found exactly when the hosted profile has no entry |
| `HomeSessions.LiveButNotFound` | home-node/src/server.rs:479-533 | For every hosted profile with a live session: nothing is found if and only if, after the login that opened this session, a session of the profile was dropped or the profile was unregistered, and nobody has logged in for it since |
| `HomeSessions.SecondSessionHidesFirst` | home-node/src/server.rs:479-485 | Dropping a second session makes the profile look offline although the first is live |
| `HomeSessions.ReRegistrationHidesSession` | home-node/src/server.rs:532-540 | Unregistering and registering again makes the profile look offline although its only session is live |
| `HomeSessions.LoginClosesNoSession` | home-node/src/server.rs:262-266 | After the poll of a login all earlier sessions are as they were; the new one is the only live one of its profile if and only if none was live before |
| `HomeSessions.SessionMapExact` | home-node/src/server.rs:244-271 | After every step of a run all entries are live sessions of their own profiles, if and only if every login polled in it that makes an entry named the connecting persona |
| `HomeSessions.StepKeepsLiveExactly` | home-node/src/server.rs:479-485 | From a state where they are, a step of any kind keeps them so if and only if it is not the poll of a login that enters a session for another profile |
| `HomeSessions.EntryOwnedExactlyForOwnProof` | home-node/src/server.rs:262-266 | The poll of a login that makes an entry keeps them so if and only if its proof named the connecting persona |
| `HomeLifecycle.AlternationExact` | home-node/src/server.rs:168-241 | Throughout a run, calls and polls interleaved freely, successful register and unregister of each id alternate starting with register, and hosted is what was registered last, if and only if no register or update future that passed its check is polled when the hosted status of its id differs from the status at its call |
| `HomeLifecycle.StepLawfulExactly` | home-node/src/server.rs:489-544 | From any state with that law a step keeps it if and only if the register future it polls finds its id free, or the update future it polls finds it hosted |
| `HomeLifecycle.CompletedCallsAlternate` | home-node/src/server.rs:217-238 | With calls completing one after another the law holds always |
| `HomeLifecycle.OverlappingRegistrations` | home-node/src/server.rs:217-228 | From any state with the id free, two registrations called before either is polled both succeed |
| `HomeLifecycle.StaleUpdateRevives` | home-node/src/server.rs:499-513 | An update polled after the unregistration brings the profile back, and two unregistrations in a row succeed |
| `HomeRegistration.RegisterAppendsValidProof` | home-node/src/server.rs:201-212 | What a registration appends, and all it changes, is a home proof that validates between persona and home in both orders |
| `HomeRegistration.RegisterTakesEffect` | home-node/src/server.rs:217-241 | Whatever happens between call and poll, a registration succeeds if and only if its id was free at the call, and then its poll writes the profile with that proof into both stores |
| `HomeRegistration.LoginTakesEffect` | home-node/src/server.rs:257-268 | Whatever happens between call and poll, a login of a persona hosted at the call opens a session |
| `HomeRegistration.HostedUntilUnregister` | home-node/src/server.rs:523-544 | Through any run without an unregistration of it, a hosted id stays hosted |
| `HomeRegistration.LoginAfterRegister` | home-node/src/server.rs:168-271 | Whenever a registration succeeds, with anything between its call and poll, and any later run without an unregistration of that id, a login with the appended proof succeeds, with anything between its own call and poll |
| `HomeCalls.QueuedEventsValid` | home-node/src/server.rs:274-319 | In every reachable state, each pairing request held anywhere in a session is its signer's accepted half-proof addressed to the owner, each response validates between a sender and the owner |
| `HomeCalls.QueuedCallsValid` | home-node/src/server.rs:349-362 | For each call held for an application of a session there is a step of the run that asked for that application of that owner, and its relation validates between caller and owner |
| `HomeCalls.EveryCallWasPlaced` | home-node/src/server.rs:322-340 | In every run each call there is comes from a step that asked for it, for the application asked for, over the relation given, to the other party of that relation |
| `HomeCalls.PlacingIsRecorded` | home-node/src/server.rs:337-362 | Conversely what a step has asked for stays on record, as it was asked for, in every later state |
| `HomeCalls.DeliveredToCallee` | home-node/src/server.rs:349-362 | A delivered call comes out in a session of its callee, on a stream of the application that a step of the run asked for, with a relation valid between the two |
| `HomeSinks.DeliveredOnce` | home-node/src/server.rs:456-476 | In every run, whatever clients send, a call is delivered at most once, on a stream that `checkin_app` handed out for the application that a step of the run asked for |
| `HomeSinks.OneReceiptPerPlacing` | home-node/src/server.rs:322-362 | For each step that asks for a call at most one item comes off all streams of all sessions, on a stream of the very application it asked for |
| `HomeSinks.DeliveredExactly` | home-node/src/server.rs:394-402 | In every run a call can be answered only if, and unless answered already if, it came off some stream |
| `HomeSinks.EverySinkReached` | home-node/src/server.rs:414-433 | In every run each event sink and each application's sink of each session is one that a run of a lone sink reaches, so all theorems about sinks hold of it |
| `HomeSinks.EventGenerations` | home-node/src/server.rs:584-615 | In every run and session, an event pushed between the n-th and the next `events()` is in the n-th stream once and nowhere else; superseded streams have one warning, the current one none |
| `HomeSinks.CallGenerations` | home-node/src/server.rs:548-578 | The same for every application and `checkin_app` |
| `HomeSinks.EachEventHeldOnce` | home-node/src/server.rs:436-453 | In every run and session, listened to or not, each event pushed is in exactly one place of the session's event sink, and no other event is |
| `HomeSinks.EachCallHeldOnce` | home-node/src/server.rs:456-476 | The same for the calls of every application, checked in or not |
| `HomeSinks.QuietEventsDelivered` | home-node/src/server.rs:584-615 | In runs that drop no receiver and no send, a quiet event stream of a session has delivered exactly its due, the first one the buffered events in push order |
| `HomeSinks.QuietCallsDelivered` | home-node/src/server.rs:548-578 | The same for every application |
| `HomeCalls.OutcomesAreAnswers` | home-node/src/server.rs:363-374 | An answered call was delivered; a caller who got a sink got the one its own call was answered with |
| `HomeCalls.AnswersAndOutcomesAreFinal` | home-node/src/server.rs:379-403 | A call is answered at most once and gets at most one outcome: no later run changes either |
| `HomeEffects.LoginExactly` | home-node/src/server.rs:244-271 | Whatever lies between call and poll, a login succeeds if and only if its proof is of the home type, names this home, and names with it a profile hosted at the call; then its poll opens a session and enters it unless there is an entry, otherwise nothing changes |
| `HomeEffects.RegisterExactly` | home-node/src/server.rs:168-241 | A registration succeeds if and only if it passes the checks, each said on its field, and the id was free at the call; otherwise nothing changes |
| `HomeEffects.UpdateExactly` | home-node/src/server.rs:489-518 | An update succeeds if and only if it is of the session's own id and key and the id was hosted at the call; then the very profile given is in both stores, otherwise nothing changes |
| `HomeEffects.PairRequestExactly` | home-node/src/server.rs:274-287 | A pairing request succeeds if and only if the connecting persona signed the half-proof and its peer was hosted at the call; then exactly this half-proof goes to the live session of that peer |
| `HomeEffects.PairResponseExactly` | home-node/src/server.rs:290-319 | A pairing response succeeds if and only if its relation names the connecting persona and another, hosted at call and poll, and validates between them; then exactly this relation goes to the live session of the other |
| `HomeEffects.CallExactly` | home-node/src/server.rs:322-374 | A call goes through under the same condition; then the sink of the very application asked for, in the live session of the other party, holds one message more, the call, and the caller waits; otherwise the caller's future fails and no session changes |
| `HomeEffects.AnswerReachesCaller` | home-node/src/server.rs:363-402 | From the answer of a waiting caller's call, through anything, to the resolution of the caller's future: it is the sink that was given |
| `HomeEffects.AnsweredCallerGetsTheSink` | home-node/src/server.rs:363-373 | Once a call is answered, its caller's future comes to nothing but the sink given in any run |
| `HomeEffects.CallStepExactly` | home-node/src/server.rs:363-402 | An answer is taken once, from who holds the call; the timeout and a dropped oneshot count only while there is no answer |
| `HomeEffects.EventsExactly` | home-node/src/server.rs:584-615 | `events` opens a new current stream of the event sink of its own session, and touches nothing else |
| `HomeEffects.CheckinExactly` | home-node/src/server.rs:548-578 | `checkin_app` opens a new current stream of the application named, and touches nothing else |
| `HomeEffects.DropExactly` | home-node/src/server.rs:479-485 | A drop ends its own session and removes the entry of its profile, and nothing else |
| `HomeEffects.UnregisterExactly` | home-node/src/server.rs:523-544 | Unregistering removes entry and profile of its own id, and nothing else; it ends no session and succeeds exactly when the id was hosted |
| `HomeEffects.InvalidContextRefused` | home-node/src/server.rs:52-56 | A connection gets nothing done exactly when its key does not hash to its id |
| `HomeNode.Node.constructor` | home-node/src/server.rs:52-56 | A new server is empty and satisfies what holds in all runs whatever clients send: agreement of the stores, conservation in every sink, one slot for each call |
| `HomeNode.Node.RegisterProfile` | home-node/src/server.rs:168-217 | `register` up to its future is the call step |
| `HomeNode.Node.LoginWith` | home-node/src/server.rs:244-257 | `login` up to its future is the call step; a proof of another type or that does not name this home makes a future that has failed, any other one for the other id of the proof |
| `HomeNode.Node.PollWrite` | home-node/src/server.rs:217-238 | Polling a register or update writes both stores or fails |
| `HomeNode.Node.PollLogin` | home-node/src/server.rs:257-268 | Polling a login makes the session and enters it unless there is an entry |
| `HomeNode.Node.ClaimOwn` | home-node/src/server.rs:156-165 | `claim` returns what the log says is current |
| `HomeNode.Node.RequestPairing` | home-node/src/server.rs:274-287 | `pair_request` up to its future is the call step |
| `HomeNode.Node.RespondPairing` | home-node/src/server.rs:290-306 | `pair_response` up to its future is the call step |
| `HomeNode.Node.PollPairing` | home-node/src/server.rs:306-316 | Polling either validates, looks the session up and pushes the event |
| `HomeNode.Node.Deliver` | home-node/src/server.rs:82-99 | The live session holds one message more, this event, and nothing else changes; without a live session nothing changes at all |
| `HomeNode.Node.CallPeer` | home-node/src/server.rs:322-349 | `call` up to its future is the call step; a relation that names the caller makes one call more, for the application asked for and the other party, any other none |
| `HomeNode.Node.PollCall` | home-node/src/server.rs:349-374 | Polling it validates and pushes the call, or fails it |
| `HomeNode.Node.DeliverCall` | home-node/src/server.rs:102-123 | The application of the live session holds one message more, this call, which records that place; no other session, application or call changes, and the caller waits in any case |
| `HomeNode.Node.AnswerCall` | home-node/src/server.rs:394-402 | Answering records the sink for that call alone |
| `HomeNode.Node.UpdateOwner` | home-node/src/server.rs:489-499 | `update` up to its future is the session step |
| `HomeNode.Node.UnregisterOwner` | home-node/src/server.rs:523-544 | Entry and both stores are cleared at once; it succeeds exactly when the profile was hosted |
| `HomeNode.Node.DropLast` | home-node/src/server.rs:479-485 | Dropping a session removes the entry of its profile |
| `HomeNode.Node.EventStream` | home-node/src/server.rs:584-615 | `events` of a session subscribes its event sink |
| `HomeNode.Node.CheckinApp` | home-node/src/server.rs:548-578 | `checkin_app` subscribes the sink of that application only |
| `Pairing.RelationsAlwaysValid` | connect/src/profile.rs:237-277 | For any number of clients and homes, in every reachable state, each relation a client holds validates between it and a peer whose key hashes to the id the proof names |
| `Pairing.NetStepKeeps` | connect/src/profile.rs:414-449 | Each step of any home or client keeps this |
| `Pairing.HandledIsRelated` | connect/src/profile.rs:253-277 | What the event handler stores was validated for this client |
| `Pairing.HandlerStoresExactly` | connect/src/profile.rs:253-277 | The handler stores the relation of a pairing response, once, and nothing of any other event |
| `Pairing.AcceptanceStoresExactly` | connect/src/profile.rs:438-446 | An acceptance is stored when its response has been taken, only then, and only once |
| `PairingAgreement.EveryRelationSourced` | connect/src/profile.rs:414-449 | Every relation held was accepted by its holder or sent to it by its acceptor |
| `PairingAgreement.EveryRelationHasAcceptor` | connect/src/profile.rs:237-277 | A relation between distinct ids is in canonical order, and either its holder completed the acceptance of it, or its peer accepts this very proof |
| `PairingDelivery.FateOfAcceptance` | connect/src/profile.rs:414-449 | For every acceptance that has returned, in every run: its acceptor holds the canonical proof; its response was pushed into a session of the initiator if and only if the initiator had a live session when it was polled, and otherwise nowhere; once pushed it is in exactly one place of that session, either untaken or taken; and both hold the same proof if and only if a stream of the initiator has delivered it or the initiator has completed an acceptance of it as well |
| `PairingDelivery.HeldExactly` | connect/src/profile.rs:237-277 | In every run in which handlers read the streams, a proof is held under an id if and only if a client of that id has completed an acceptance of it or a stream of a session of that id has delivered it |
| `PairingDelivery.EveryRelationExplained` | connect/src/profile.rs:237-277 | In every run at all, each relation a client holds comes from an acceptance it has completed itself or from a stream of a session of its own id |
| `PairingDelivery.PushedIffLive` | home-node/src/server.rs:290-319 | A response that its home takes is pushed exactly when the addressee has a live session at the poll |
| `PairingDelivery.EveryTakenIsHeld` | connect/src/profile.rs:253-277 | Every response that handlers have taken off a stream is held by a client of the stream's owner |
| `PairingDelivery.FinishedWasTaken` | home-node/src/server.rs:306-316 | An acceptance is finished only by the poll of its own response |
| `PairingRun.UndisturbedPairingCompletes` | connect/src/profile.rs:380-449 | From every sound state with both parties hosted and listening, whatever is queued for them: the invitation is the last thing the acceptor's handler receives, and after the acceptance the last relation of each is the same proof, canonical and valid |
| `PairingRun.OfflineInitiatorNeverHears` | home-node/src/server.rs:82-99 | From every sound state with the initiator hosted but not online, an acceptance returns well and is stored, and nothing changes for the initiator |
| `Fanout.FanOutExact` | connect/src/profile.rs:562-612 | Between dispatches a listener that has not failed received exactly the events dispatched since it was added and is listed once; a failed one received a prefix of them and is not listed |
| `Fanout.FailedGetNothingLater` | connect/src/profile.rs:597-612 | In any later run logs only grow, and a failed listener gets nothing more |
| `Fanout.FailedExactly` | connect/src/profile.rs:597-612 | A listener has failed if and only if the run fails a send to it that was still out |
| `Fanout.SendDecides` | connect/src/profile.rs:602-609 | A send that resolves well delivers the event under way to its own listener, one that fails ends it and delivers nothing, and the send is out no more |
| `Fanout.NobodyFails` | connect/src/profile.rs:606-609 | In a run in which no send fails every listener is listed between dispatches and has every event dispatched since it was added |
| `Fanout.BegunExactly` | connect/src/profile.rs:545-549 | The events dispatched are those that arrive while no dispatch is under way and the loop has not ended, and the listeners those the run added |
| `Fanout.BeginTakesAll` | connect/src/profile.rs:579-604 | A dispatch takes out exactly the listed listeners, with a send to each |
| `Fanout.MergeEnds` | connect/src/profile.rs:582-586 | A dispatch ends exactly when no send is out |
| `Fanout.StopIsFinal` | connect/src/profile.rs:589-592 | After a remote error or a dropped session no event is dispatched in any later run |
| `Fanout.RunKeeps` | connect/src/profile.rs:555-594 | In every interleaving of dispatches and registrations no live listener is lost or duplicated |
| `Fanout.SurvivorsExact` | connect/src/profile.rs:606-609 | Merged back are exactly the listeners whose send succeeded, each once |
| `Fanout.KeepSuccessful` | connect/src/profile.rs:606-609 | The filter over the results returns them in the order of the sends |
| `Fanout.EventHub.Listen` | connect/src/profile.rs:625-630 | The new listener joins the list in place |
| `Fanout.EventHub.Forward` | connect/src/profile.rs:577-587 | The list is taken out for the dispatch |
| `Fanout.EventHub.SendResolved` | connect/src/profile.rs:602-609 | A send that resolves well adds the event under way to the log of its own listener, one that fails ends that listener and adds nothing; no other listener changes |
| `Fanout.EventHub.MergeListeners` | connect/src/profile.rs:582-586 | The successful listeners join those added meanwhile |
| `Collect.CollectResults` | home-protocol/src/future.rs:31-87 | For every completion order it ends, and result i is the outcome of future i |
| `Collect.CollectResults2` | home-protocol/src/future.rs:90-137 | For every polling schedule that finishes each future, the same vector |
| `Collect.Collector.Poll` | home-protocol/src/future.rs:107-136 | One poll completes exactly when no future is left waiting, and then with all outcomes in order |
| `Collect.PollAll` | home-protocol/src/future.rs:108-123 | One round leaves exactly the futures that are not ready, in order, and loses none |
| `Collect.SortByIndex` | home-protocol/src/future.rs:74-79 | Sorted by index, and a permutation |
| `Collect.SortedUnique` | home-protocol/src/future.rs:74-79 | With distinct indices the contents determine the sorted vector |
| `HashSpace.LinksStayGood` | storage/src/async/mod.rs:69-162 | Over every run of stores each key is the hash of its value, and every link ever returned still resolves to its object, and validates that object and no other |
| `HashSpace.ValidatesExactly` | storage/src/async/mod.rs:69-79 | Validation says yes exactly when the text stands for the object's hash, no exactly when it stands for anything else, and each error has its own cause |
| `HashSpace.ResolvesExactly` | storage/src/async/mod.rs:122-155 | From any storage, sound or not, a text resolves to an object exactly when that is kept under what the text stands for and hashes to it |
| `HashSpace.StoresExactly` | storage/src/async/mod.rs:91-119 | A store succeeds with the text of the object's hash or fails for its own cause, and keeps all else as it was |
| `HashSpace.StoreKeepsLinks` | storage/src/async/mod.rs:91-119 | One store makes its own link good and changes no text that resolved before |
| `HashSpace.AsyncMatchesSync` | storage/src/sync/mod.rs:37-77 | Both forms answer every run alike; the asynchronous storage is the encodable part of the synchronous one, and they are equal if and only if every hash could be encoded |
| `HashSpace.AsyncSpace.Store` | storage/src/async/mod.rs:91-119 | The store in place, encoding first: keys stay hashes of their values, the returned link leads to the object, every text that resolved before resolves alike |
| `HashSpace.SyncSpace.Store` | storage/src/sync/mod.rs:37-48 | The same, writing first |
| `HashWeb.LinkRoundTrip` | storage/src/async/imp.rs:58-73 | A printed link parses back to itself if and only if its space id is non-empty and slash-free; the hash may contain slashes |
| `HashWeb.ParsesExactly` | storage/src/async/imp.rs:58-73 | A text is a link exactly when it is the link as printed, with a slash in front or, if the space id is not empty, without, and the space id has no slash |
| `HashWeb.WebRoutesExactly` | storage/src/async/imp.rs:184-220 | A link is answered by the space it names, text that is no link and unknown spaces are their own errors |
| `HashWeb.WebStoresInDefault` | storage/src/async/imp.rs:168-181 | A store goes to the default space, is answered with its id, a slash and the hash, and leaves all other spaces alone |
| `HashWeb.WebStoreKeepsLinks` | storage/src/async/imp.rs:168-220 | One store in the web makes its own link good and keeps every good link good |
| `HashWeb.WebLinksStayGood` | storage/src/async/imp.rs:168-220 | Over every run of stores every link ever returned resolves to its object, and validates that object and no other |
| `HashWeb.WebOfSpaces.Store` | storage/src/async/imp.rs:168-181 | The store in place, into the default space |
| `Address.ResolveBlob` | storage/src/async/imp.rs:243-280 | For every text: the result is a blob exactly when the address leads to it, link by link, each found at its attribute path in the parsed blob before it; it panics exactly without `#` or when a specifier without `@` is reached |
| `Address.AddressExactly` | storage/src/async/imp.rs:246-279 | The same for the outcome as a function |
| `Address.SpecExactly` | storage/src/format/mod.rs:27-60 | A specifier comes to a link if and only if its format is registered, the blob parses, and the path reaches that link; each of the four errors has exactly its own cause |
| `Address.LookupReaches` | storage/src/meta/mod.rs:39-65 | The lookup finds exactly the value that the path reaches: at each step the attribute at the least index of that name, an object at every step but the last |
| `Address.AddressPanicsExactly` | storage/src/async/imp.rs:246-278 | An address panics if and only if it has no `#`, or one of its specifiers has no `@` and all before it were followed without an error |
| `Address.PanicsExactly` | storage/src/format/mod.rs:43-45 | The same for a list of specifiers followed from any start |
| `Address.SafeAddressNeverPanics` | storage/src/async/imp.rs:254-257 | With a `#`, and an `@` in every specifier, nothing panics |
| `Address.PrintedAddressWalks` | storage/src/async/imp.rs:240-280 | A well-formed printed address never panics, and resolves to a blob exactly when its structured specifiers lead there from the blob behind its link |
| `Address.TextsAreWalk` | storage/src/async/imp.rs:256-278 | Following printed specifiers is the walk, from any start |
| `Address.SpecReadsBack` | storage/src/format/mod.rs:38-60 | A printed specifier leads to a link exactly when its format and path do |
| `Address.PathComposes` | storage/src/meta/mod.rs:48-65 | Looking up p ++ q is looking up q inside the object found at p |
| `Handshake.CompletedSideKnowsPeer` | home-protocol/src/handshake.rs:24-74 | In every interleaving of partial reads and writes, a completed side has consumed exactly the peer's frame if and only if the announcement is shorter than 2^32 bytes, and then holds what the peer announced |
| `Handshake.RunKeeps` | home-protocol/src/handshake.rs:43-71 | What each side has written and read at every point of every run |
| `Handshake.NeverStuck` | home-protocol/src/handshake.rs:43-61 | While a side is unfinished and none has failed, some read or write moves on |
| `Handshake.FrameAnnounces` | home-protocol/src/handshake.rs:37-44 | The frame announces the length of its payload modulo 2^32 |
| `Handshake.Endpoint.WriteSome` | home-protocol/src/handshake.rs:43-44 | What has been sent is always a prefix of the frame, every write of at least one byte makes progress, and reading starts exactly when the whole frame is sent |
| `Handshake.Endpoint.Arrived` | home-protocol/src/handshake.rs:45-71 | Reading ends exactly with the announced number of bytes; a reader of a peer's frame under 2^32 bytes ends exactly at its end, never fails, and knows the peer |

## Left out

- Cap'n Proto proxies and conversions, sockets, the reactor, timers, logging, configuration, binaries and examples: wiring. The call timeout is a step that may happen at any time.
- Ed25519, multihash, multibase, serde and bincode internals: parameters with stated properties, except the length-prefixed layout of the signed bytes. Serialising never fails.
- File stores and IPFS: the in-memory store (storage/src/async/imp.rs:474-505) stands for the key-value store, so writes never fail.
- connect/src/service.rs, connect/src/sdk.rs, connect/src/jsonrpc and simple_profile_repo.rs: they cache, filter and forward to the parts modelled here and add no protocol of their own.
- Client code besides pairing and fan-out (joining and leaving homes, the session cache, choosing a home): the network lets a client send to any home, which includes every choice.
- Error kinds of the home server: a request succeeds or fails. The storage errors are kept.
- `ProfileEvent::Unknown`, `ping`, call payloads and the message sinks inside a call: carried by identity or not at all. Facets other than persona are one case.
- The time between a push and the return of its call: a `pair_response` or `call` future counts as finished at the push, so that a returned acceptance may still have its response on the way to the channel.
- Liveness in general: no fairness is assumed. `EventSink.QuietRunDelivers`, `Handshake.NeverStuck` and `PairingRun.UndisturbedPairingCompletes` say what progress leads to.
- Aliasing through `Rc`, `Weak` and `RefCell`: sessions, futures and calls are numbered entries of one object, the sinks of a session are values in its entry (`EventSink.ServerSink` is the object form of one), and a weak reference upgrades exactly while its entry is live.
- Fan-out inside the pairing network: a client's handler takes events straight off its session's stream; `Fanout` is proved on its own.
- PairingAgreement.EveryRelationHasAcceptor: assumes that pairing responses are sent by `accept_relation`; `Pairing.RelationsAlwaysValid` and `PairingDelivery.FateOfAcceptance` do not.
- HomeInvariants.RunKeeps: assumes that clients log in with their own home proof, as do the theorems about queues that follow from it.
- Collect.SortByIndex: works on a sequence and returns it; the sort in place is not modelled.
- HomeNode.Node.AnswerCall: requires what the types of the program ensure, that the call was delivered and has not been consumed.
