# The receive half of localsend-rs, modelled and proved

localsend-rs lets one device offer files to another over HTTP. This project models
what the receiving side has to get right when many things happen at once, and proves
it for every schedule:

- **The receive engine.** One upload slot is shared by any number of prepare, upload
  and cancel handlers, a sweeper and an orderly stop. `Engine` is the state machine:
  one step per hold of the state lock or of a lifecycle lock, and one per action
  private to a handler. `EngineInvariant`, `EngineIds` and `EngineLanding` hold what
  every reachable world satisfies; `EngineCancellation`, `EngineFinality`,
  `EngineKeeping`, `EngineEvents`, `EngineRecords` and `EngineProgress` hold the theorems;
  `EngineWitness` holds four runs that show why their conditions are there. `ServerState`
  and `SessionObjects` are the same code as objects that update their fields; every method
  is proved to be one step of the machine, and adds the HTTP status. `BodyWriter` streams
  one body.
- **The atomic file sink.** `Utf8`, `Names`, `PathSafety` and `FileTree` are names,
  paths and lookup through symbolic links. `Sink`, `SinkInvariant`, `SinkTheorems` and
  `SinkLeftovers` interleave any number of receives one system call at a time. `AtomicSink`
  is the code one receive runs, over a file system whose every call may fail; with
  `SinkRuns` it carries the run of the machine it amounts to.
- **Both together.** In `Publication` every upload handler drives its own pending
  receive, and the end-to-end safety statement is proved; the engine part of every
  combined run is a run of the engine and its disk part a run of the sink, so the
  theorems about each carry over. `PublicationRest` ties the files to the records once
  everything is over.
- **The persisted TLS identity.** `Identity` interleaves any number of processes, with
  crashes and I/O failures; `IdentityFiles` is one call as code, proved to be a run of
  that machine.
- **The PIN gate** (`Pin`, `PinSweep`, `PinGate`), **the owner of a protected upload**
  (`ProtectedOwner`, `ProtectedState`) and **multicast interface selection**
  (`Interfaces`).

A step that is not enabled leaves the world as it is, so a run is any list of steps and
a theorem about `Run(steps)` covers every interleaving. Session ids, upload tokens and
key pairs are fresh by construction: a peer can present an issued token only after the
session was disclosed to it, or a guess that matches none. Digests are an uninterpreted
function. Clocks are parameters (`now`, `timedOut`). UTF-8 is sections 3 and 4 of
RFC 3629; path lookup is section 4.13 of POSIX.1-2017 Base Definitions, giving up after
40 symbolic links.

## Where the code and its comments differ

The model follows the code. These comments say more than it keeps.

- "The publication permit prevents cancellation/replacement from clearing this exact
  session" (src/server/handlers.rs:795-797): the decline, refuse, install and message
  steps of a parked prepare handler do not ask whose session is current.
  `EngineWitness.ParkedDeclineEvictsAnother` is a run in which a committed file finds no
  session; `EngineKeeping.KeptExactlyWithoutDisplacement` says exactly which runs keep
  the promise, and the guard of those steps is the condition.
- A file that is "one receive body allowed" (src/core/session.rs:202-203) can land twice
  if the upload future is dropped between the commit and its record:
  `EngineWitness.LostCommitLandsTwice`. `EngineLanding.LandsTwiceIffLost` says that this
  is the only way, and that it always is one.
- "Once this succeeds, session cancellation must wait for the handler to publish and record
  the file" (src/core/session.rs:46-48): a rename handed to the blocking pool goes on when
  the future of its handler is dropped, while the dropped permit frees the slot, so a
  cancellation succeeds and the file lands afterwards.
  `EngineWitness.LateRenameLandsAfterCancellation` is a run;
  `EngineFinality.CancellationIsFinalIff` says that a successful cancellation is final
  exactly when no such rename of the session is in flight.
- Dropping an expired PIN entry "costs nothing at all" (src/server/pin.rs:189-191): that is
  so exactly when the entry has reached its three failures, `PinSweep.DropIsHarmlessIff`;
  `PinSweep.SweepForgetsFailures` is a history that reaches a sweep of another one. The
  guess rate bound holds all the same.
- A process that lost a first-start race "sees the winner's pair" on reading back
  (src/crypto/tls.rs:253-256): under the lock no foreign pair is ever seen, and the
  error exit is unreachable, `Identity.ReadBackMatches`.
- Upload cancellation by id of a protected upload (src/server/state.rs:60-62) reaches
  only the upload recorded last: `ProtectedOwner.SecondUploadHidesTheFirst`. The record
  names a running upload exactly as long as no later stop or protected upload overwrote
  it: `ProtectedOwner.RecordNamesUnlessOverwritten`.
- A body longer than its declared size clamps the shared counter and is then rolled back
  in full (src/server/handlers.rs:462-480), which takes other files' bytes off it:
  `EngineWitness.OverrunTakesAnothersBytes`. `EngineProgress.CountersExactIffUnclamped`
  says that all through a run every counter is exact if and only if no report of the run
  was clamped.
- The series of names tried for a file (src/core/sink.rs:271-290) need not be 1025 different
  names. It repeats one exactly when the file's name fills the 255 bytes of a component and
  its stem already ends in a number of the series: `Names.SeriesRepeatsIff`.
- Removing the published certificate avoids "the incomplete pair this function refuses to
  create" (src/crypto/tls.rs:283-285) only where there was no key: when a mismatched pair is
  replaced, it leaves the old key beside no certificate, for good.
  `Identity.UndoLeavesHalfAPair` is that run from any such pair; `Identity.HalfPairIff` says
  exactly which steps leave half a pair.

## Model

| member | source | states |
|---|---|---|
| Lifecycle.TryCancelOutcome | src/core/session.rs:227-243 | Cancelling leaves every slot final exactly when no slot was publishing, and then every unpublished slot's token has fired; otherwise nothing changes; final slots never change |
| Lifecycle.CancelSlots | src/core/session.rs:227-243 | The two passes of a cancellation answer whether no slot is publishing and leave the table the specification names |
| SessionObjects.StandardReceiveLease.BeginPublication | src/core/session.rs:50-72 | A permit is handed out exactly when the slot is Receiving; the refused lease is gone either way and changed nothing |
| SessionObjects.StandardReceiveLease.Drop | src/core/session.rs:75-88 | An armed lease frees a Receiving slot and nothing else; a disarmed one does nothing |
| SessionObjects.StandardPublicationPermit.Finish | src/core/session.rs:99-108 | The slot becomes Published and the permit is disarmed |
| SessionObjects.StandardPublicationPermit.Drop | src/core/session.rs:111-123 | An armed permit frees a Publishing slot and nothing else |
| SessionObjects.Session.constructor | src/core/session.rs:141-177 | A new session has exactly its files, all Ready, nothing received, its own lifecycle |
| SessionObjects.Session.BeginReceive | src/core/session.rs:204-221 | A lease is handed out exactly when the slot is Ready, and the slot is then Receiving |
| SessionObjects.Session.TryCancelReceives | src/core/session.rs:227-243 | Answers whether no slot is publishing, and leaves the table the specification names |
| SessionObjects.Session.MarkReceived | src/core/session.rs:251-258 | A foreign id is ignored; true exactly when a known id makes the received set as large as the file set |
| SessionObjects.Session.AddProgress | src/server/handlers.rs:462-470 | The counter is clamped at 64 bits and at the total, and that is what is reported |
| SessionObjects.Session.RollbackProgress | src/server/handlers.rs:472-480 | The counter loses the amount, not going below zero, and that is what is reported |
| SessionObjects.CancelThenPublish | src/core/session.rs:50-72 | A cancellation that came first makes the publication impossible and the slot stays Cancelled |
| SessionObjects.PublishThenCancel | src/core/session.rs:227-243 | A publication that came first makes the cancellation fail without a trace |
| ServerState.ServerState.TryCancelReceives | src/core/session.rs:227-243 | The code that cancels a session is the engine's cancellation, and its answer is whether it could |
| ServerState.ServerState.ReserveSlot | src/server/handlers.rs:221-290 | One engine step; 204 for an empty offer, 409 exactly when the slot is held by a session that is not timed out or is publishing |
| ServerState.ServerState.ClearConsent | src/server/handlers.rs:339-352 | One engine step: the waiting reservation goes exactly if it is the handler's own, and the slot stays |
| ServerState.ServerState.ResolveOffer | src/server/handlers.rs:356-405 | One engine step; 400 for a refusal, 403 when no offered file was accepted, otherwise a session of the accepted files is installed |
| ServerState.ServerState.Answer | src/server/handlers.rs:407-433 | One engine step: a message is delivered and closed with 204, anything else is disclosed with 200 |
| ServerState.ServerState.AnswerOffer | src/server/handlers.rs:339-433 | From the answer of the user to the response, uninterrupted: 400, 403, 204 and 200 exactly as decided, with the slot, the disclosure and the events each leaves |
| ServerState.ServerState.ReleaseReservation | src/server/handlers.rs:62-88 | One engine step: what a dropped reservation guard does |
| ServerState.ServerState.HandleCancel | src/server/handlers.rs:868-965 | The standard branches, for whatever id is named: 400, 403 and 409 exactly when the guards say so, changing nothing; otherwise the session is closed, announced and loses the slot; the protected branches are ProtectedState.CancelSession |
| ServerState.ServerState.SweepSession | src/server/server.rs:386-392 | One engine step: the slot is freed exactly when its session timed out and let itself be cancelled |
| ServerState.ServerState.StopStandard | src/server/server.rs:253-260 | One engine step: the slot is freed exactly when its session let itself be cancelled |
| ServerState.ServerState.ClaimSlot | src/server/handlers.rs:587-657 | One engine step: a claim succeeds exactly for the current session, a known file, its issued token and a Ready slot; 409 exactly when only the slot is not Ready; 404 is unreachable |
| ServerState.ServerState.RecordUpload | src/server/handlers.rs:793-852 | One engine step; 500 exactly when the session lost the slot |
| ServerState.ServerState.HandlePrepareUpload | src/server/handlers.rs:200-433 | An uninterrupted prepare: on 200 the slot holds exactly the accepted files, all ready, disclosed to the sender; on 400 and 403 it is free; a message leaves it free with its text and its end announced; on 409 nothing changed; no reservation is left |
| ServerState.TotalBytes | src/server/handlers.rs:636-640 | Saturating additions in any order give the sum of the sizes, clamped once |
| EngineInvariant.RunKeepsInv | src/core/session.rs:43-258 | In every run session tables stay coherent, received sets are the Published slots, and every handler holds the token its program point says |
| EngineCancellation.SlotsHaveOneOwner | src/core/session.rs:43-123 | In every run a slot is Publishing exactly when an armed permit for it exists, Receiving exactly when an armed lease exists and it was not cancelled, and nobody shares a slot |
| EngineCancellation.RunPreserves | src/core/session.rs:43-123 | Published and Cancelled are absorbing under every later part of every run, and sessions keep their files |
| EngineCancellation.CancelOutcome | src/server/handlers.rs:946-962 | A step that honours the answer either closes the asked session and takes the slot from it, or changes nothing at all |
| EngineCancellation.ClosedNeverPublishes | src/core/session.rs:50-72 | In a closed session no step starts a publication, and none lands a file but the end of a rename that lost its handler |
| EngineFinality.CancellationLinearizes | src/core/session.rs:227-243 | After a cancellation by id, timeout, sweep or stop that got true, no later step of the run starts a publication of that session, and the only file of it that can land is one whose rename was already in flight without its handler; after false the step changed nothing |
| EngineFinality.CancellationIsFinalIff | src/core/sink.rs:192-194 | In every continuation of a run a successful cancellation lets nothing of its session land, if and only if no rename of the session was in flight without its handler |
| EngineIds.NoOrphanedReservation | src/server/handlers.rs:57-89 | A reservation waits only while its own handler is before its clear or its release is pending; when all are over none is left |
| EngineIds.ReleaseFreesOnlyItsOwn | src/server/handlers.rs:67-87 | A release frees the slot only from its own placeholder, in which nothing was in transfer |
| EngineLanding.LandsTwiceIffLost | src/server/handlers.rs:775-844 | An upload whose file was claimed again later landed if and only if its future was dropped between its commit and its record |
| EngineKeeping.DisplacedIsForeign | src/server/handlers.rs:356-405 | A decline, refuse, install or message step that displaces a transfer always hits a session its handler did not install |
| EngineKeeping.KeptExactlyWithoutDisplacement | src/server/handlers.rs:356-425 | All through a run every transfer belongs to the current session if and only if no step of the run displaces one |
| EngineKeeping.PermitKeepsItsSession | src/server/handlers.rs:775-821 | Without displacement an outstanding permit keeps its session current, and a committed file is always recorded: the invariant-violated exit is unreachable |
| EngineKeeping.CompleteMeansPublished | src/core/session.rs:251-258 | Counting received files decides whether every accepted file is Published |
| EngineEvents.ReceivedExactly | src/server/handlers.rs:818-844 | A file is in the received set exactly when its slot is Published, exactly when it was announced, and it was announced once |
| EngineEvents.ClosedAtMostOnce | src/server/handlers.rs:846-851 | SessionDone is issued at most once a session, and never for a session that still holds the slot |
| EngineEvents.CompletionIsExact | src/server/handlers.rs:818-851 | An upload closes its session, with SessionDone, exactly when every accepted file is Published |
| EngineRecords.PublishedIffRecorded | src/server/handlers.rs:775-852 | In a run without displacement a slot is Published if and only if an upload of its file landed, came to its record and is over, and there is never a second one |
| EngineProgress.LandedCredit | src/server/handlers.rs:784-844 | What the counter owes to a landed file is its whole size |
| EngineProgress.OwnerCredit | src/server/handlers.rs:693-713 | What it owes to a file an upload is at work on is what that upload reported, whatever earlier uploads of the file did |
| EngineProgress.RestCredit | src/server/handlers.rs:713-791 | Once a session's uploads are over it owes nothing to a file that did not land |
| EngineProgress.CountersExactIffUnclamped | src/server/handlers.rs:461-480 | Through any run every counter is the sum of what its uploads reported and did not take back, if and only if no report of the run went beyond the declared total; overruns, dropped futures and totals beyond 64 bits included |
| EngineProgress.FittingRunsNeverClamp | src/server/handlers.rs:461-480 | Handlers that return, bodies within their declared size and totals within 64 bits are enough for no report to be clamped |
| EngineProgress.ProgressConserved | src/server/handlers.rs:461-480 | In an unclamped run the counter is the sum over the files of landed sizes and live reports; if its handlers return, at rest it is the total of the landed files |
| EngineProgress.RollbackTakesItsOwn | src/server/handlers.rs:472-480 | In an unclamped run a rollback takes exactly its own upload's bytes and leaves every other file's credit |
| EngineProgress.ProgressWithinTotal | src/server/handlers.rs:462-480 | In every run whatever, no counter exceeds its session's declared total |
| EngineProgress.RollbackRestoresIffUnclamped | src/server/handlers.rs:462-480 | For one upload from its first report, uninterrupted: reporting the body and rolling it back restores the counter if and only if the report was not clamped or there was nothing to lose |
| EngineWitness.ParkedDeclineEvictsAnother | src/server/handlers.rs:376-384 | A run: a parked handler declines after its offer was withdrawn and evicts another peer's session mid-publication |
| EngineWitness.LostCommitLandsTwice | src/core/session.rs:111-123 | A run: an upload dropped after its commit frees the slot and the file lands again |
| EngineWitness.LateRenameLandsAfterCancellation | src/core/sink.rs:192-194 | A run: an upload is dropped with its rename in flight, its session is cancelled with success, and the file lands |
| EngineWitness.OverrunTakesAnothersBytes | src/server/handlers.rs:462-480 | A run: the rollback of an overrunning body takes the byte another live upload reported off the counter |
| BodyWriter.SamplesAreCumulative | src/server/state.rs:126-139 | Each progress sample is the length of the body up to and including its chunk |
| BodyWriter.Reporter.Report | src/server/handlers.rs:704-710 | The callback adds what the file gained since its last report, and remembers the whole |
| BodyWriter.WriteBody | src/server/state.rs:109-147 | Success writes exactly the stream in order and answers its length and digest; failure stops after whole reported chunks; the counter gains what was reported, clamped once |
| BodyWriter.ReceiveBody | src/server/handlers.rs:700-730 | A failed body leaves the counter as it was if and only if it was not clamped, or was zero |
| Utf8.ValidConcat | src/core/sink.rs:301-314 | Joining well-formed texts gives a well-formed text |
| Utf8.ValidSplit | src/core/sink.rs:316-325 | Cutting well-formed text at a character boundary leaves both sides well formed |
| Utf8.TruncatedValid | src/core/sink.rs:316-325 | Truncation is the longest boundary prefix within the limit, keeps text well formed and gives up at most three bytes |
| Utf8.TruncateUtf8 | src/core/sink.rs:316-325 | The loop terminates with exactly that prefix |
| Names.CollisionLeafWellFormed | src/core/sink.rs:301-314 | For every name and attempt the budget does not underflow, the candidate has at most 255 bytes, and it is well formed if the name is |
| Names.MakeCollisionLeaf | src/core/sink.rs:301-314 | The code with its two reassigned locals computes that candidate |
| Names.CandidatesDistinct | src/core/sink.rs:273-314 | The 1025 candidates of any well-formed leaf that fits a component are pairwise distinct, unless it has 255 bytes and a stem ending in its own number |
| Names.RepeatsTheLeafIff | src/core/sink.rs:301-325 | The n-th variant of a leaf of at most 255 bytes is the leaf itself if and only if it has 255 bytes and its stem ends in the n-th suffix |
| Names.SeriesRepeatsIff | src/core/sink.rs:273-325 | The series of any well-formed leaf that fits a component repeats a name if and only if the leaf has 255 bytes and its stem ends in a number of the series |
| Names.LongNameIsItsOwnVariant | src/core/sink.rs:307-312 | A longer name can be its own numbered variant |
| PathSafety.SafeJoin | src/path_safety.rs:4-46 | A wire name is accepted exactly when it is acceptable, and gives its components |
| PathSafety.AcceptedIsPlain | src/path_safety.rs:23-46 | An accepted name is a nonempty list of components, none empty, `.`, `..` or with a slash |
| PathSafety.JoinRoundTrip | src/path_safety.rs:23-46 | Every plain path can be asked for by its joined name and is understood exactly |
| PathSafety.CandidatePlain | src/core/sink.rs:301-314 | Every candidate of a plain leaf is plain: not empty, no dots alone, no slash, whatever was cut off |
| FileTree.LookupBelow | src/core/sink.rs:240-269 | Below a chain of real directories a lookup sees exactly the entry of the real directory, whatever links led to its start |
| AtomicSink.DirectoriesOnly | src/core/sink.rs:240-269 | Adding the chain's directories changes and removes nothing and adds only directories of the chain |
| AtomicSink.EnterComponent | src/core/sink.rs:245-267 | A component is entered exactly when it is a real directory or could be made in a vacant place; it is refused when anything else is there |
| AtomicSink.WalkOrCreateDirectory | src/core/sink.rs:240-269 | Only missing directories of the chain are added; what was entered is a chain of real directories; a refusal names an entry that was not a directory; all of it is a run of the machine |
| AtomicSink.TryCandidate | src/core/sink.rs:274-290 | One exclusive create: it succeeds only in a vacant place, and already-exists means the candidate is taken |
| AtomicSink.ExhaustedMeansFull | src/core/sink.rs:273-295 | The series of every well-formed leaf that fits a component and is none of its own variants is exhausted only in a directory of at least 1025 entries |
| AtomicSink.ReserveFreeName | src/core/sink.rs:273-295 | Creates the first free name of the series and nothing else; all-taken is reported only when all are, which takes 1025 entries unless the leaf is one of its own variants, and on a healthy file system exactly then |
| AtomicSink.OpenDestination | src/core/sink.rs:131-153 | Success adds two new empty files, the first free name and the temporary; failure adds at most the reservation |
| AtomicSink.Create | src/core/sink.rs:111-153 | Unacceptable names are rejected untouched; on a healthy file system Rejected means exactly that or a component that is not a directory, and Failed only that the series is exhausted or the temporary name is taken; success gives an open destination in the prepared directory; failure loses nothing and leaves at most one empty file |
| AtomicSink.AtomicPendingFile.Write | src/core/sink.rs:165-169 | Bytes go to the end of the temporary only |
| AtomicSink.AtomicPendingFile.Commit | src/core/sink.rs:175-197 | Success moves the temporary onto the reserved name; failure leaves both files as they were |
| AtomicSink.AtomicPendingFile.Abort | src/core/sink.rs:199-208 | Removes both files, each tried whatever becomes of the other; success means both went |
| AtomicSink.AtomicPendingFile.Drop | src/core/sink.rs:211-221 | After commit or abort nothing; otherwise both files are removed where possible |
| AtomicSink.Finish | src/core/sink.rs:175-208 | From an open destination, success means exactly the complete body under the reserved name, or exactly the tree without the two files |
| AtomicSink.ReceiveFile | src/core/sink.rs:111-208 | A whole receive is a run of the machine and ends as the old tree plus directories plus the complete body under the first free name, or as the old tree plus directories |
| SinkRuns.DiscardedShows | src/core/sink.rs:199-208 | Whatever becomes of the two removals, a discard is a run of the machine that took away exactly what was removed |
| SinkInvariant.RunKeepsInv | src/core/sink.rs:111-295 | In every interleaving the tree is the old tree, plus directories inside the root, plus exactly the files the receives hold, with the contents they wrote |
| SinkTheorems.NothingOutsideTheRoot | src/core/sink.rs:111-153 | Old entries stay, and every new one is the real root followed by one or more plain names, and is a directory or a file |
| SinkTheorems.ReservedThroughRealDirectories | src/core/sink.rs:223-269 | A destination is the root plus plain components, the chosen name included, through real directories, and its path means that file |
| SinkTheorems.DestinationsDisjoint | src/core/sink.rs:131-153 | No two receives hold the same final or temporary path |
| SinkTheorems.NoInterference | src/core/sink.rs:175-221 | No step changes an entry that existed before or that another receive holds |
| SinkTheorems.DiscardReleases | src/core/sink.rs:199-221 | Once both removals succeed exactly the two files are gone and nothing is held |
| SinkTheorems.NothingHeldNothingLeft | src/core/sink.rs:199-221 | When no receive holds a file, the tree is the old one apart from directories |
| SinkTheorems.UnresolvedRootStaysUntouched | src/core/sink.rs:240-269 | Under a receive directory that does not resolve nothing is ever created |
| SinkLeftovers.LeftBehindIff | src/core/sink.rs:131-221 | In every run an ended receive that published nothing still holds its temporary, or its reservation, if and only if one of its steps failed or its future ended where nobody was left to remove it |
| Publication.OnlyCompleteBodiesAreVisible | src/server/handlers.rs:659-791 | In every interleaving a new file is one upload's temporary, or its reserved name holding nothing or the complete body of declared size and digest |
| Publication.RunKeepsInv | src/server/handlers.rs:659-791 | Handler and destination agree at every point: what was written, whether it is open, whether it landed |
| Publication.EnginePartIsARun | src/server/handlers.rs:559-852 | The engine part of every combined run is a run of the engine |
| Publication.DiskPartIsARun | src/server/handlers.rs:659-791 | The disk part of every combined run is a run of the sink |
| Publication.CancelledStaysInvisible | src/server/handlers.rs:946-962 | After a successful cancellation an upload of the session that had neither landed nor lost its handler with its rename in flight never lands, and the name reserved for it stays empty |
| PublicationRest.FilesOnRecordIff | src/server/handlers.rs:659-852 | When everything is over, in a run without displacement, every new file is the complete body of a Published slot if and only if no future was dropped between a commit and its record and no step left a file behind |
| PublicationRest.OneFileARecord | src/server/handlers.rs:775-852 | Then exactly the Published slots have a new file with their body, each has one, and no two have the same |
| Identity.UsablePairIsKept | src/crypto/tls.rs:98-112 | No step of any call changes a usable pair on disk |
| Identity.AllLoadsAgree | src/crypto/tls.rs:132-189 | All calls of a run that return a pair return the same one, it was generated together, it is the pair on disk, and a pair usable at the start is that pair |
| Identity.ReadBackMatches | src/crypto/tls.rs:289-308 | The read-back always answers the pair just published |
| Identity.LockedSectionIsExclusive | src/crypto/tls.rs:191-240 | At most one call is inside the locked section |
| Identity.IncompletePairStays | src/crypto/tls.rs:174-188 | From any point of a run at which half a pair is on disk and nobody is at work on it, the files stay, nobody gets as far as writing, and every call that returns fails |
| Identity.HalfPairIff | src/crypto/tls.rs:281-287 | A run leaves half a pair if and only if it began with one, or the certificate was taken back from beside an old key, or could not be taken back from beside none, or a call died between the renames over a missing key |
| Identity.UndoLeavesHalfAPair | src/crypto/tls.rs:281-287 | From any pair that does not match: a run whose key rename fails leaves the old key without a certificate |
| IdentityFiles.IdentityFiles.LoadValidIdentity | src/crypto/tls.rs:105-110 | The fast path answers only a matching pair, and always on a healthy disk |
| IdentityFiles.IdentityFiles.WriteNewIdentity | src/crypto/tls.rs:258-308 | A new pair is a run of the protocol, is fresh, and on a healthy disk always succeeds |
| IdentityFiles.IdentityFiles.LoadOrGenerate | src/crypto/tls.rs:132-189 | One call is a run of the protocol: the old pair if usable, untouched; an error and untouched if incomplete; else a fresh pair; on a healthy disk nothing but an incomplete pair fails |
| Pin.ConstantTimeEqIsEquality | src/server/pin.rs:208-213 | The fold without early exit decides equality |
| Pin.CheckKeepsTable | src/server/pin.rs:138-204 | A check keeps at most 1024 entries with counts from 1 to 3 |
| Pin.HistoryKeepsTable | src/server/pin.rs:95-204 | So does every run of checks and changes of the PIN |
| Pin.TrackedPeerEvictsNobody | src/server/pin.rs:166-171 | A check from a tracked peer, expired lockout included, changes no other peer's entry |
| Pin.OnlyExpiredOrOldestGo | src/server/pin.rs:185-204 | Another peer's check removes an entry only if it expired or was an oldest live one |
| Pin.WrongValuesCounted | src/server/pin.rs:157-162 | The counter is the wrong values since the last right one or the last change, saturating |
| Pin.GuessRateBound | src/server/pin.rs:138-194 | A peer that only guesses and is never evicted gets at most three wrong-value verdicts for every started five minutes |
| PinSweep.DropIsHarmlessIff | src/server/pin.rs:138-194 | Whatever the peer and all others present later, dropping a peer's expired entry never changes its verdicts, as long as no check takes a counting entry of it away, if and only if the entry had reached the lockout |
| PinSweep.SweepForgetsFailures | src/server/pin.rs:189-194 | A history from an empty gate that reaches a full table, where a newcomer's sweep drops an entry and that does change its peer's verdicts |
| PinGate.PinGate.Set | src/server/pin.rs:95-102 | The code is the specified change of the PIN |
| PinGate.PinGate.Check | src/server/pin.rs:138-179 | The code is a specified check, with its verdict and its victim |
| PinGate.PinGate.MakeRoom | src/server/pin.rs:185-204 | Nothing, a sweep, or a sweep and an eviction, exactly as specified |
| PinGate.FindOldest | src/server/pin.rs:196-200 | The victim's timestamp is minimal |
| ProtectedOwner.OwnerIsInOnePlace | src/server/handlers.rs:144-196 | At every point each owner taken is in exactly one of: one handler, installed, received, cancelled |
| ProtectedOwner.StoppingIsFinal | src/server/server.rs:247-279 | Once stopping, no owner is ever installed again |
| ProtectedOwner.AllOwnersSettled | src/server/server.rs:247-279 | After a stop, when all handlers returned, owners taken are owners received plus owners cancelled |
| ProtectedOwner.RecordNamesUnlessOverwritten | src/server/handlers.rs:524-554 | In every run the record names a running protected upload if and only if no later step was a stop or another protected upload of an installed session |
| ProtectedOwner.CancelReachesUnlessOverwritten | src/server/handlers.rs:932-944 | So a cancel by id signals a running upload exactly as long as nothing overwrote its record |
| ProtectedOwner.SecondUploadHidesTheFirst | src/server/handlers.rs:524-528 | A run: the first of two protected uploads cannot be cancelled by id any more |
| ProtectedState.ProtectedState.Preflight | src/server/handlers.rs:149-161 | 503 when stopping, 409 when occupied, otherwise the gate may be asked |
| ProtectedState.ProtectedState.InstallSession | src/server/handlers.rs:182-196 | The owner is installed, or stays with its handler to be cancelled, with 503 or 409 |
| ProtectedState.ProtectedState.TakeForUpload | src/server/handlers.rs:508-528 | The session is taken whatever the token says; a wrong one costs the owner |
| ProtectedState.ProtectedState.ClearActiveUpload | src/server/handlers.rs:545-554 | The record goes only if it still names this upload |
| ProtectedState.ProtectedState.CancelSession | src/server/handlers.rs:918-944 | The installed owner is taken to be cancelled, or the recorded upload is signalled |
| ProtectedState.ProtectedState.SweepProtected | src/server/server.rs:393-406 | A timed-out installed owner is taken to be cancelled |
| ProtectedState.ProtectedState.StopProtected | src/server/server.rs:247-279 | The barrier is set and owner and cancellation are taken in one step |
| Interfaces.SortedIsUnique | src/discovery/multicast/interfaces.rs:18-20 | A strictly ascending list is determined by its elements |
| Interfaces.SelectInterfaceAddresses | src/discovery/multicast/interfaces.rs:4-21 | The ascending, repetition-free list of the chosen addresses |
| Interfaces.WithoutContainerBridges | src/discovery/multicast/interfaces.rs:67-78 | A nonempty list stays nonempty, the primary and every non-bridge stays, and a bridge stays only if there is nothing else |
| Interfaces.SelectMulticastCandidates | src/discovery/multicast/interfaces.rs:23-41 | The code with its growing list gives the near block followed by the rest |
| Interfaces.CandidatesAreSortedBlocks | src/discovery/multicast/interfaces.rs:32-41 | No repetition, everything on the primary's subnet first, and each block ascending |
| Interfaces.CandidatesAreTheUsableAddresses | src/discovery/multicast/interfaces.rs:32-41 | As a set the candidates are the usable addresses of the kept interfaces |

## Left out

- EngineCancellation.SlotsHaveOneOwner: a cancelled slot's lease can still be outstanding until its handler ends, so an armed lease does not mean Receiving; the statement excludes Cancelled.
- EngineProgress.ProgressConserved: rests on no report being clamped, the exact condition; that the counter at rest is the landed total also rests on handlers that return, since a dropped future never takes its bytes back.
- When an upload is dropped with a call of its `create` or `abort` in flight, that call may still have its effect at any later time; a call the runtime would have finished at once is covered as well.
- PinSweep.DropIsHarmlessIff: about the verdicts of the peer whose entry goes; the room it leaves can decide who else is evicted, which OnlyExpiredOrOldestGo bounds.
- Pin.GuessRateBound: supposes a clock that never goes back and one instant for each check.
- Nothing cleans up after a failed commit or a failed opening of the temporary, in the code and so in the model; `SinkLeftovers.LeftBehindIff` says exactly what stays.
- The interleaved protocols (Engine, Sink, Publication, Identity, ProtectedOwner) are state machines on values; the objects beside them show the same code updating its fields, one lock hold at a time, without aliasing between handlers.
- `SessionDone` once a session also rests on message sessions having ids nobody was told.
- HTTP routing, JSON, header parsing and the TLS stack: libraries.
- The browser share, the sending client, discovery probes, the text interface and the command line.
- Receive rate pacing, the capacity of the event channel, logging, flushing to stable storage and file permissions.
- The digest function, certificate parsing and key matching: uninterpreted, with a matching relation for generated halves.
- The contents and names of the identity's temporary files and of its lock file.
- Processes outside the receiver that swap directories for links during a walk, which the code excludes too (src/core/sink.rs:233-239).
- Windows path prefixes and file systems that ignore case.
- Handlers of protected uploads whose futures are dropped; the machine supposes that they return.
- Overflow of the 64-bit byte count of a single body.
