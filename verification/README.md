# Verified models of the run-supervision protocols

This project models, in Dafny, the in-memory protocols of a server that supervises long-lived agent
runs, and proves that they hold for every interleaving of messages, timers, reconnects and late
endings. Time is explicit (whole milliseconds); one step is one synchronous block of the program, and
between two blocks any other step may come.

Where the program changes state in place the model does too: a class holds the fields, each method's
contract equates the new state with a function of the old one, and the lemmas prove what that function
guarantees over whole runs.

| file | what it models |
|---|---|
| `TaskTracker.dfy`, `TaskHistory.dfy` | the background-task tracker, and its state as a function of the message history |
| `InputClose.dfy`, `InputDecisions.dfy` | the decision when to close a run's input, as a timed automaton, and what each decision comes to |
| `Canonical.dfy`, `JsonText.dfy` | the canonical serializer, and a JSON reader that reads its text back |
| `PendingIdentity.dfy` | the pending-identity texts |
| `StartupReplies.dfy`, `PollRounds.dfy` | what an arbitrary endpoint may answer, and the two polling loops as runs of rounds |
| `StartupAdmission.dfy`, `AdmissionChain.dfy` | startup admission, and whole histories of it |
| `SessionRegistry.dfy`, `RegistryRuns.dfy` | the replay registry on the heap, its size bound, eviction and replay |
| `DropTimers.dfy` | the post-close drop timers and the preamble of a run |
| `CodexLocks.dfy`, `CodexRuns.dfy` | the Codex turn locks, and what a run gets from them |
| `Discovery.dfy` | the Antigravity discovery lock |
| `LineBuffers.dfy`, `KimiHandler.dfy`, `QwenDecoder.dfy` | line-buffered stream decoding and the Qwen fold |
| `SidecarTail.dfy` | the incremental tail of an agent file |
| `KimiTranscript.dfy` | the Kimi transcript builder, with its aliasing |
| `Approvals.dfy` | tool approvals |
| `GhostDetach.dfy` | the ghost-detach sweep |
| `LossMeter.dfy` | intervals and classification of the loss meter |
| `Common.dfy` | shared datatypes |

`dafny verify dfyconfig.toml` checks everything.

Six properties hold only under a condition; each is proved under it, with the inputs that show why it
is needed:

- the anchored wait for an answer counts top-level `result` messages only (`InputClose.NestedResultIsUnbounded`);
- discovery binds distinct ids only if no attempt follows the run's own release and every snapshot of the
  directory is complete (`Discovery.LateAttemptCanCollide`, `Discovery.IncompleteSnapshotCanCollide`);
- a waiting fresh run enters the discovery window only if every run before it releases: an await that throws
  between acquiring the lock and the spawn frees nothing (`Discovery.KeptWaitingExactly`,
  `Discovery.ThrowBeforeSpawnStalls`);
- an ended run's replay entry is gone after the retention time if and only if the run ended with a drop
  scheduled or without an entry, or its entry was evicted: a throwing spawn, an owner's stop, a throw in the
  close handler and a record after the drop has fired leave it behind (`DropTimers.EndedEntryIsGoneExactly`,
  `DropTimers.FailedSpawnLeavesEntry`, `DropTimers.FailedCloseLeavesEntry`, `DropTimers.LateRecordLeavesEntry`);
- the ghost clock needs positive times (`GhostDetach.TimeZeroDoesNotStartTheClock`);
- a core of the loss meter is non-empty only if a finish closes it or `post` is not negative (`LossMeter.CoresAreOrdered`).

## Model

| member | source | states |
|---|---|---|
| `TaskTracker.BackgroundTaskTracker.constructor` | server/claude-sdk.js:909-913 | the tracker starts with no pending task, not quiet, anchored at its creation time |
| `TaskTracker.BackgroundTaskTracker.SettleEnded` | server/claude-sdk.js:916-935 | an end report settles the named task if it is pending, else every pending task with its tool_use_id; the reported ids are exactly those |
| `TaskTracker.BackgroundTaskTracker.ObserveLevel` | server/claude-sdk.js:938-946 | a background level marks the listed pending tasks and settles exactly the known-backgrounded ones it does not list |
| `TaskTracker.BackgroundTaskTracker.ObserveSystem` | server/claude-sdk.js:936-968 | the effects and the two answers of every `system` message, including ambient tasks, missing ids and non-terminal updates |
| `TaskTracker.BackgroundTaskTracker.ObserveResumedAgent` | server/claude-sdk.js:974-986 | a resumed agent opens a backgrounded task unless its id is already pending |
| `TaskTracker.BackgroundTaskTracker.ObserveNotified` | server/claude-sdk.js:996-998 | the notified tasks are settled one after the other |
| `TaskTracker.BackgroundTaskTracker.ObserveActivity` | server/claude-sdk.js:999-1007 | activity of a pending task re-anchors the hold; a `result` makes the run quiet, main-loop activity ends that |
| `TaskTracker.BackgroundTaskTracker.Observe` | server/claude-sdk.js:990-1010 | one message is its elementary effects in order; the reported background flag and ended tool_use ids |
| `TaskHistory.OpenerStands` | server/claude-sdk.js:884-897 | the recursive reading of a trace of messages is the start that no later end or start undid |
| `TaskHistory.PendingIsHistory` | server/claude-sdk.js:884-997 | after any trace of messages, read off their own fields, a task id is pending exactly when its latest counted start follows its latest end, with the tool_use_id and background flag the trace gives it |
| `TaskHistory.ContinuationIsHistory` | server/claude-sdk.js:898-1007 | after any trace of messages `quiet` holds exactly since a `result` without the main loop speaking, `continuationExpected` exactly when a message since then settled a pending task |
| `TaskHistory.AnchorIsHistory` | server/claude-sdk.js:902-1003 | after any trace of messages `holdAnchorAt` is the time of the latest `result` or message about a pending task, else the creation time |
| `TaskHistory.AnswersAreHistory` | server/claude-sdk.js:907-1010 | the tool_use ids a message is answered to have ended are those its reports carry and those of the tasks it settles; `backgrounded` says that it started a task in the background, moved one there or resumed one |
| `TaskHistory.UnrelatedKeepsHold` | server/claude-sdk.js:936-1007 | observing a message that, by its own fields, is no `result` and names no pending task changes nothing, except that main-loop activity ends the quiet phase |
| `InputClose.RunInput.ReleaseInput` | server/claude-sdk.js:3732-3753 | the first release stands, later ones change neither its time nor its reason |
| `InputClose.RunInput.ArmInputClose` | server/claude-sdk.js:3754-3773 | arming replaces the one timer by a new one with its own reason |
| `InputClose.RunInput.ReconsiderInputClose` | server/claude-sdk.js:3786-3845 | the close decision: nothing while released or not quiet, else the plan of the run's own holds combined with the wake-up |
| `InputClose.RunInput.OnTimer` | server/claude-sdk.js:3768-3771 | the timer releases with the reason it was armed with |
| `InputClose.RunInput.OnQueued` | server/claude-sdk.js:4456-4461 | a queued steer turns an armed close into the steer hold, and arms nothing else |
| `InputClose.WakeNeverShortensOwnHold` | server/claude-sdk.js:3815-3844 | with a hold of the run's own, a wake-up plan never makes the timer due earlier; an ended or draining one changes nothing |
| `InputClose.OpenOnlyUntilDeadline` | server/claude-sdk.js:3790-3845 | in every reachable state, past the anchored deadline the input is open only while a message is being handled or at the instant that ended |
| `InputClose.UnrelatedKeepsDeadline` | server/claude-sdk.js:3790-3806 | any number of messages that concern neither a pending task nor the turn, handled without steer or wake-up, keep the deadline of either hold while the input is open |
| `InputClose.ChatterCannotExtendHold` | server/claude-sdk.js:3790-3806 | from any reachable held state, however many such messages disarm and re-arm the timer, the input outlives the deadline only while the loop has been busy since it |
| `InputClose.ClosedByDeadline` | server/claude-sdk.js:3790-3806 | from any reachable held state, with such messages only and each handled within its instant, the input is closed once time has passed the deadline |
| `InputClose.FirstReleaseIsFinal` | server/claude-sdk.js:3739-3825 | after the first release its time and reason never change and no timer is armed |
| `InputClose.AnchorIsFirstTopLevelResult` | server/claude-sdk.js:5236-5240 | while the turn is unanswered its wait counts from the first top-level `result`, and is anchored exactly when there was one |
| `InputClose.NestedResultIsUnbounded` | server/claude-sdk.js:3803-3805 | counterexample: after a `result` with a parent tool use the wait has no anchor, and chatter keeps the input open for any number of full waits |
| `InputDecisions.SteerHoldCloses` | server/claude-sdk.js:3787-3789 | a decision with steer work closes the input the idle ceiling later, or at a live wake-up that comes later still |
| `InputDecisions.TaskHoldCloses` | server/claude-sdk.js:3790-3795 | without it, pending tasks close it the idle ceiling past their anchor, at once if that is past, or at a later wake-up |
| `InputDecisions.ContinuationHoldCloses` | server/claude-sdk.js:3796-3798 | with nothing pending an expected continuation closes it one wait later, or at a later wake-up |
| `InputDecisions.TurnHoldCloses` | server/claude-sdk.js:3799-3806 | else an unanswered turn closes it one wait past its anchor, or past the decision without one, or at a later wake-up |
| `InputDecisions.AnsweredCloses` | server/claude-sdk.js:3807-3811 | held for nothing and without a wake-up, the input is released at the decision if and only if no continuation is possible; else it is open until the grace has passed and closed then |
| `InputDecisions.WakeOnlyCloses` | server/claude-sdk.js:3827-3844 | held for a wake-up only, it closes when that is due, or at the decision if the wake-up is over or the server drains |
| `InputDecisions.BusyStaysOpen` | server/claude-sdk.js:3825 | while the main loop is at work no decision closes the input, however long nothing comes |
| `InputDecisions.SteerQueuedCloses` | server/claude-sdk.js:4456-4461 | a steer queued while a close is armed moves it the idle ceiling on; queued while none is, it arms nothing |
| `InputDecisions.ContinuationPossibleExactly` | server/claude-sdk.js:5056-5176 | a continuation is possible exactly since a message that made it so |
| `InputDecisions.AnsweredExactly` | server/claude-sdk.js:5236-5238 | the turn is answered exactly since a top-level `result` that answered it |
| `Canonical.QuotedUnique` | server/bootstrap-startup-context.js:26-28 | a quoted string followed by anything is read back in one way only (strings quoted as in section 7 of RFC 8259) |
| `Canonical.SortSorts` | server/bootstrap-startup-context.js:27 | sorting members by key orders them by code unit |
| `Canonical.SortedKeysAgree` | server/bootstrap-startup-context.js:27 | two sorted member lists with the same distinct keys list them in the same order |
| `Canonical.PrintInjective` | server/bootstrap-startup-context.js:26-28 | values with equal prints are equal up to key order, whatever text follows the prints |
| `Canonical.SamePrints` | server/bootstrap-startup-context.js:26-28 | values equal up to key order print the same |
| `Canonical.CanonicalIsFaithful` | server/bootstrap-startup-context.js:26-28 | two JSON values print the same if and only if they are equal up to object key order |
| `JsonText.PrintIsJsonText` | server/bootstrap-startup-context.js:26-28 | the text is JSON text: a reader of the grammar of RFC 8259 without insignificant white space reads it back as the value up to key order, with all keys ascending and nothing left |
| `JsonText.UnitQuoted` | server/bootstrap-startup-context.js:26-28 | which code units are escaped, and how |
| `JsonText.LowerCaseHex` | server/bootstrap-startup-context.js:26-28 | the four digits of an escape are lower-case hexadecimal and denote the unit |
| `JsonText.QuotedByParts` | server/bootstrap-startup-context.js:26-28 | texts are quoted part by part wherever no surrogate pair is cut |
| `JsonText.PairQuoted` | server/bootstrap-startup-context.js:26-28 | a surrogate pair stands for itself |
| `PendingIdentity.DecimalReadsBack` | server/bootstrap-startup-context.js:349 | `Number` of a printed natural number is that number |
| `PendingIdentity.LastSegmentAfter` | server/bootstrap-startup-context.js:349 | the last colon-separated segment of a prefix, a colon and a colon-free text is that text |
| `PendingIdentity.EpochReadsBack` | server/bootstrap-startup-context.js:333-349 | the epoch read back from either identity text is the one printed into it |
| `PendingIdentity.FormatsNeverCoincide` | server/bootstrap-startup-context.js:327-341 | no text is both an initial identity and an operation identity |
| `PendingIdentity.IdentityIsInjective` | server/bootstrap-startup-context.js:333-342 | equal identity texts of one format name the same transaction or operation and the same epoch |
| `StartupReplies.Host.Exchange` | server/bootstrap-startup-context.js:185-206 | nothing is sent once the deadline has passed; the reply is arbitrary |
| `StartupReplies.EpochOfIdentity` | server/bootstrap-startup-context.js:326-349 | the identity of every pending reply that has one reads back as that reply's epoch |
| `PollRounds.EarlierReplies` | server/bootstrap-startup-context.js:322-346 | in every run of the offer loop, however it ends, all replies but the last are pending, well-formed, echo their own request, and name one identity |
| `PollRounds.OffersKeepDeadlines` | server/bootstrap-startup-context.js:321-346 | the deadlines of the requests of a run never grow |
| `PollRounds.AtMost300Offers` | server/bootstrap-startup-context.js:321-346 | no run of the offer loop sends more than 300 requests |
| `PollRounds.Exactly300Offers` | server/bootstrap-startup-context.js:321-346 | a run of exactly 300 requests, at 0, 100, .. 29900 ms, exists for any challenges: the endpoint answers at once that one operation is pending |
| `PollRounds.ElapsedClosedForm` | server/bootstrap-startup-context.js:421-432 | the least times of the serving requests, with sleeps of 100 ms doubling to one second |
| `PollRounds.AtMost93Servings` | server/bootstrap-startup-context.js:421-433 | no run of the serving loop sends more than 93 requests |
| `PollRounds.Exactly93Servings` | server/bootstrap-startup-context.js:421-433 | a run of exactly 93 requests exists for any challenges: the endpoint answers at once with the bound busy reply |
| `StartupAdmission.Admission.CheckPending` | server/bootstrap-startup-context.js:325-341 | a pending reply is accepted if and only if it is well-formed, echoes this request and, if initial, repeats what an earlier one said and has not expired; only an initial one moves the deadline, and only closer |
| `StartupAdmission.Admission.AfterPending` | server/bootstrap-startup-context.js:325-346 | the loop goes on, after the sleep, if and only if the reply is accepted, in time, in the same process and with the same descriptor, under the one identity |
| `StartupAdmission.Admission.PollOnce` | server/bootstrap-startup-context.js:322-346 | one round of the offer loop adds one exchange and keeps what was asked a run of rounds; it is the last only for one of the reasons to stop |
| `StartupAdmission.Admission.PollOffers` | server/bootstrap-startup-context.js:321-347 | however the loop ends, what was asked is a run of rounds of at most 300 requests under deadlines that never grow; all replies but the last are pending, valid and of one identity; it ends without an answer only if it is too late, nothing came back, or a pending reply was not accepted |
| `StartupAdmission.Admission.TakeOffer` | server/bootstrap-startup-context.js:321-354 | an offer is taken exactly when the loop ends with one that is accepted |
| `StartupAdmission.Admission.AcceptOffer` | server/bootstrap-startup-context.js:348-354 | an offer is accepted if and only if it answers its own challenge, is in time and has the epoch the pending identity names, and after initial pending replies their transaction and no later expiry, after an operation's is steady |
| `StartupAdmission.Admission.Consume` | server/bootstrap-startup-context.js:355-366 | a claim is accepted if and only if it echoes its request and matches the offer and the descriptor, its revision the offer's plus one, in time after initial pending replies and in the same process |
| `StartupAdmission.Admission.EstablishStartupAdmission` | server/bootstrap-startup-context.js:314-376 | one attempt per process; on success every field of the context is the named field of the last reply or of the descriptor, resting on the last two of at most 301 exchanges; it succeeds whenever these bring a matching claim in time for this very process and database |
| `StartupAdmission.Admission.ExchangeStartupPhase` | server/bootstrap-startup-context.js:379-408 | a phase reply is accepted if and only if it echoes its request and binds to the claim, in the same process; busy is reported exactly for the one busy reply bound to this request; nothing is sent only for one of the reasons named |
| `StartupAdmission.Admission.AdmitSecurityStartup` | server/bootstrap-startup-context.js:410-416 | security admission moves a claimed context on, changing revision and phase only, exactly when the one reply grants it |
| `StartupAdmission.Admission.ServeOnce` | server/bootstrap-startup-context.js:422-432 | one round of the serving loop: serving is granted exactly when the reply grants it in time; else it sleeps and asks again, or has a reason to stop |
| `StartupAdmission.Admission.ServeRound` | server/bootstrap-startup-context.js:422-432 | the same round keeps what was asked a run of rounds |
| `StartupAdmission.Admission.PollServing` | server/bootstrap-startup-context.js:421-433 | however the loop ends, what was asked is a run of rounds of at most 93 requests before the 90 second deadline; serving is granted exactly when the last reply grants it, and it ends otherwise only for a reason to stop |
| `StartupAdmission.Admission.ConfirmStartupServing` | server/bootstrap-startup-context.js:418-435 | serving is confirmed if and only if, after security admission, the last reply grants it to this very process before its deadline |
| `StartupAdmission.Admission.MintRecoveryClaim` | server/bootstrap-startup-context.js:246-262 | a recovery claim is minted at most once, only in the security phase of the same process |
| `StartupAdmission.Admission.BeginRecoveryAttempt` | server/bootstrap-startup-context.js:264-268 | an attempt is begun only on a current claim that was not attempted |
| `StartupAdmission.Admission.ReleaseRecoveryClaim` | server/bootstrap-startup-context.js:280-285 | release succeeds once per claim and is permanent |
| `AdmissionChain.ContextIsTheClaims` | server/bootstrap-startup-context.js:355-374 | in every state with a context each of its fields is the named field of one establishing call's claim reply or descriptor, and that claim takes up the offer answered right before it |
| `AdmissionChain.PhaseRepliesAgree` | server/bootstrap-startup-context.js:378-435 | every reply that moves the phase on says what the context says, field by field, for the context's claim, and brings its new revision |
| `AdmissionChain.CurrentExactly` | server/bootstrap-startup-context.js:229-285 | a recovery claim is current exactly from its mint, for the process that minted it, until it is released or the context goes on to serving; as an attempt, once one was begun |
| `AdmissionChain.ContextMoves` | server/bootstrap-startup-context.js:207-435 | for arbitrary replies, every change of the context is none to claimed, claimed to security, or security to serving, each resting on a reply that echoes its own request's challenge; the claim's revision is the offer's plus one |
| `AdmissionChain.ContextOnlyAdvances` | server/bootstrap-startup-context.js:314-435 | from the claim on the phase never moves back, the revision never falls and every other field stays |
| `AdmissionChain.RecordsPersistAlong` | server/bootstrap-startup-context.js:229-285 | a recovery record keeps its context; attempted and released are never undone |
| `AdmissionChain.AttemptBegunAtMostOnce` | server/bootstrap-startup-context.js:245-268 | over a whole history at most one recovery attempt is begun, whatever claims are presented |
| `AdmissionChain.NeverCurrentAgain` | server/bootstrap-startup-context.js:229-244 | a released claim, or one whose context was replaced, is never current again |
| `AdmissionChain.NothingCurrentWhileServing` | server/bootstrap-startup-context.js:229-244 | no claim is current once the context is serving |
| `SessionRegistry.RingBuffer.Push` | server/session-registry.js:53-60 | the payload gets the next seq, and the ring keeps the last `capacity` payloads of its log |
| `SessionRegistry.RingBuffer.Since` | server/session-registry.js:64-68 | exactly the retained items above the floor, oldest first; an unusable floor counts as none |
| `SessionRegistry.RingBuffer.Clear` | server/session-registry.js:72-74 | everything recorded so far is forgotten, the counter goes on |
| `SessionRegistry.VictimUnique` | server/session-registry.js:119-140 | touches being distinct, the least recently touched inactive entry is unique |
| `SessionRegistry.Registry.FindVictim` | server/session-registry.js:122-130 | the scan finds that entry in whatever order the map comes, and none exactly when all are active |
| `SessionRegistry.Registry.EnforceCap` | server/session-registry.js:119-140 | at the cap exactly the victim goes, and no entry when all are active |
| `SessionRegistry.Registry.Open` | server/session-registry.js:149-160 | the entry is created if missing, active and most recently touched; nothing else changes but the victim |
| `SessionRegistry.Registry.Record` | server/session-registry.js:165-176 | the payload is appended to the entry's log and its seq returned; a missing entry is created live |
| `SessionRegistry.Registry.Rekey` | server/session-registry.js:190-212 | the entry object moves with ring and counter; an existing target is refused and nothing changes |
| `SessionRegistry.Registry.IsActive` | server/session-registry.js:215-218 | an entry that exists and is active |
| `SessionRegistry.Registry.SetActive` | server/session-registry.js:221-225 | only the flag of an existing entry changes |
| `SessionRegistry.Registry.ClearInactiveBuffer` | server/session-registry.js:231-237 | only an inactive entry is cleared |
| `SessionRegistry.Registry.LastSeq` | server/session-registry.js:241-244 | the number of payloads ever recorded in the entry, 0 for an unknown key |
| `SessionRegistry.Registry.Attach` | server/session-registry.js:251-265 | what is sent and returned, and that nothing changes |
| `SessionRegistry.Registry.Drop` | server/session-registry.js:269-272 | exactly the one entry goes |
| `RegistryRuns.ApplyOk` | server/session-registry.js:108-225 | every operation keeps the touches pairwise distinct and the rings well-formed |
| `RegistryRuns.CapRemovesOnlyTheVictim` | server/session-registry.js:119-140 | an insertion at the cap removes the unique least-recently-touched inactive entry, never an active one |
| `RegistryRuns.SizeBound` | server/session-registry.js:108-225 | in every reachable state there are at most `maxEntries` entries, or no more than were active at once at some moment so far |
| `RegistryRuns.VictimIsLeastRecentlyUsed` | server/session-registry.js:119-176 | in every reachable state the entry an insertion at the cap removes is the inactive one whose latest open or record, under whatever key, lies furthest back |
| `RegistryRuns.ActiveIsLatestSaid` | server/session-registry.js:149-225 | an entry is active exactly when that was said last of it, by an open, a creating record or a change of the flag, under whatever key |
| `RegistryRuns.RekeyLosesNothing` | server/session-registry.js:165-212 | recording under a temporary key, rekeying and recording on equals recording under the final key throughout |
| `RegistryRuns.RecordAllLogs` | server/session-registry.js:165-176 | an entry's log holds what was recorded, in order |
| `RegistryRuns.ReplayAgreesWithLog` | server/session-registry.js:44-265 | a client that passes back what `attach` returned receives strictly increasing seqs, each with the payload recorded under it, and after an attach has all that is still retained |
| `RegistryRuns.ForeignFloorReplaysAll` | server/session-registry.js:251-263 | a floor above the counter, or none, replays the whole ring, and the latest seq is returned; 0, or the client's own floor if it was not above, when nothing is retained |
| `RegistryRuns.OwnFloorReplaysTheRest` | server/session-registry.js:251-264 | a floor of this entry replays what is retained above it and returns the latest seq, or the floor when nothing is retained |
| `DropTimers.PendingDrops.CancelPendingDrop` | server/agy-cli.js:71-78 | the timer of the key is disarmed and forgotten |
| `DropTimers.PendingDrops.ScheduleBufferDrop` | server/agy-cli.js:83-92 | any earlier timer of the key is replaced by one due after the retention time |
| `DropTimers.AtMostOneTimerPerKey` | server/agy-cli.js:71-92 | in every reachable state there is at most one armed timer per key and the map names it |
| `DropTimers.DropNeverHitsLaterRun` | server/agy-cli.js:71-92 | a timer that fires removes only what the run that scheduled it left, and only that key |
| `DropTimers.EndedEntryIsGoneExactly` | server/agy-cli.js:83-92 | once a run has ended, its key was not reopened and the retention time has passed, the entry is gone if and only if the run ended with a drop scheduled or without an entry, or its inactive entry was evicted since |
| `DropTimers.ScheduledExitIsCovered` | server/agy-cli.js:1334-1347 | an exit within the retention time of a drop its run scheduled is of that kind, whatever it does in between |
| `DropTimers.FailedSpawnLeavesEntry` | server/agy-cli.js:885-1003 | such an input: a run starts, its synchronous spawn throws, and after any time its entry is still there and active |
| `DropTimers.FailedCloseLeavesEntry` | server/agy-cli.js:1158-1334 | another: the close handler throws after deactivating, and after any time the entry is still there, inactive |
| `DropTimers.PreambleStartsClean` | server/agy-cli.js:809-885 | with a socket and no live run on either key a new run starts on a fresh live entry with an empty ring |
| `DropTimers.PreambleWithoutSocket` | server/agy-cli.js:809-885 | without a socket nothing is opened: only a stale entry of the session goes |
| `DropTimers.LateRecordLeavesEntry` | server/claude-sdk.js:5430-5532 | another: an error path records its frame after the drop it scheduled has fired, and after any time the new entry is still there and active |
| `DropTimers.BareExitStrandsTheEntry` | server/claude-sdk.js:5349-5377 | the entry of a run that ended before its terminal block stays, active and without a timer, as long as its key is not reopened: neither a drop nor an eviction takes it |
| `CodexLocks.TurnLocks.QueryCodex` | server/openai-codex.js:529-550 | a resume takes the session's lock or is refused and changes no lock |
| `CodexLocks.TurnLocks.RegisterSession` | server/openai-codex.js:1006-1023 | a captured session is listed as running for this run |
| `CodexLocks.TurnLocks.OnThreadStarted` | server/openai-codex.js:1102-1121 | a new thread's id is reserved and listed, or the run collides and changes nothing |
| `CodexLocks.TurnLocks.AbortCodexSession` | server/openai-codex.js:1633-1648 | an abort marks a listed session and touches no lock |
| `CodexLocks.TurnLocks.InnerFinally` | server/openai-codex.js:1493-1497 | the run's session is unlisted |
| `CodexLocks.TurnLocks.OuterFinally` | server/openai-codex.js:1498-1523 | the reserved new-thread lock is given up |
| `CodexLocks.TurnLocks.ReleaseResumeLock` | server/openai-codex.js:551-559 | the resume lock is given up |
| `CodexLocks.LockHasOneOwner` | server/openai-codex.js:529-1523 | over all interleavings an id is locked exactly when a run that has not ended holds it, and only one does |
| `CodexLocks.StepsDeleteOnlyOwnLocks` | server/openai-codex.js:540-1523 | a step removes only a lock its own run holds; refused and colliding runs remove none |
| `CodexLocks.EndedRunHoldsNothing` | server/openai-codex.js:551-1523 | an ended run has given up its resume lock and its reserved lock |
| `CodexLocks.ListedBelongsToHolder` | server/openai-codex.js:1006-1523 | an id listed as running belongs to the run that holds its lock |
| `CodexRuns.ResumeHoldsTheLock` | server/openai-codex.js:529-559 | resuming a session starts exactly when nobody holds its lock; the run then holds it until its last step, a refused one leaves everything else as it was |
| `CodexRuns.RegisteredIsListed` | server/openai-codex.js:1006-1497 | a run that registers what it captured is listed as running it until its inner finally or an abort |
| `CodexRuns.BodyCapturesResumed` | server/openai-codex.js:787-799 | a run captures what it resumed, unless its home is another one |
| `CodexRuns.NewThreadIsListed` | server/openai-codex.js:1102-1523 | the id of a new thread is locked and listed for the run, when nobody holds it, nothing was captured yet and it can be bound |
| `Discovery.FirstNew` | server/agy-cli.js:476 | the first listed id missing from the snapshot, none exactly when all are in it |
| `Discovery.DiscoveryChain.AcquireDiscoveryLock` | server/agy-cli.js:213-222 | a run is appended to the chain |
| `Discovery.DiscoveryChain.FreeDiscoveryLock` | server/agy-cli.js:710-716 | releasing twice is releasing once |
| `Discovery.DiscoveryChain.DiscoverAndRegister` | server/agy-cli.js:464-506 | an unbound run binds the first new id; a bound one is left alone |
| `Discovery.EnterInOrderOneAtATime` | server/agy-cli.js:213-222 | fresh runs enter in acquire order and no two are inside the window at once |
| `Discovery.NeverBindsOwnSnapshot` | server/agy-cli.js:464-506 | no run binds an id of its own snapshot |
| `Discovery.GuardedRunsBindDistinctIds` | server/agy-cli.js:708-1168 | no two fresh runs bind the same id, provided no attempt follows the run's own release and snapshots are complete |
| `Discovery.LateAttemptCanCollide` | server/agy-cli.js:1163-1342 | the first half of that condition is needed: once a run released unbound (the `error` handler) and can still attempt (the `close` handler), guarded steps and that attempt bind one id twice |
| `Discovery.IncompleteSnapshotCanCollide` | server/agy-cli.js:180-188 | so is the second: a failed directory read counts as an empty directory, and once any run has bound an id, guarded steps and one such snapshot bind it twice |
| `Discovery.KeptWaitingExactly` | server/agy-cli.js:213-222 | in every infinite fair run a waiting run is kept waiting forever if and only if some run before it in the chain never releases |
| `Discovery.BlockedByPredecessor` | server/agy-cli.js:213-222 | the run right before one that waits forever never releases |
| `Discovery.ThrowBeforeSpawnStalls` | server/agy-cli.js:708-796 | such a run: the first holder takes no step after it entered, as when an await before its spawn throws, and the next run waits forever |
| `LineBuffers.SplitLosesNothing` | server/kimi-agent-response-handler.js:271-272 | the lines joined by LF are the text and hold no LF |
| `LineBuffers.SplitResumes` | server/kimi-agent-response-handler.js:269-272 | splitting may stop after any prefix and resume from its unfinished last line |
| `LineBuffers.FedExtends` | server/kimi-agent-response-handler.js:269-285 | a decoder that has read a text, fed one more chunk, is the decoder of the longer text |
| `LineBuffers.FlushedIsWhole` | server/kimi-agent-response-handler.js:269-373 | after the final flush what was dispatched is exactly the value of each line of the whole text that has a character that is no white space and parses, in line order |
| `LineBuffers.LineIsDispatched` | server/kimi-agent-response-handler.js:269-285 | one more line after finished output dispatches exactly what it says, whatever the chunks |
| `LineBuffers.ChunkingDoesNotMatter` | server/kimi-agent-response-handler.js:269-373 | any two splits of the same text into chunks dispatch the same records |
| `LineBuffers.CrlfStripsFinishedLines` | server/qwen-cli.js:411-414 | splitting on CRLF or LF is splitting on LF and dropping one CR from every finished line |
| `KimiHandler.KimiAgentResponseHandler.ProcessData` | server/kimi-agent-response-handler.js:269-285 | one chunk: exactly the values of the finished lines that say something are dispatched, in order; the rest is kept |
| `KimiHandler.KimiAgentResponseHandler.ForceFlush` | server/kimi-agent-response-handler.js:364-373 | the unfinished last line is dispatched exactly if it says something |
| `KimiHandler.KimiAgentResponseHandler.Stream` | server/kimi-agent-response-handler.js:269-373 | a whole output and its close dispatch exactly the values of the lines that say something, whatever the chunks |
| `QwenDecoder.QwenRun.ParseQwenEvent` | server/qwen-cli.js:109-182 | one event of the fold |
| `QwenDecoder.QwenRun.OnData` | server/qwen-cli.js:411-427 | one chunk: exactly the values of the finished lines that say something are folded, in order; the rest is kept |
| `QwenDecoder.QwenRun.OnClose` | server/qwen-cli.js:434-447 | the final record is folded exactly if it says something, without a line end |
| `QwenDecoder.QwenRun.Stream` | server/qwen-cli.js:411-450 | the final state is the fold over exactly the values of the lines of the whole text that say something, whatever the chunks |
| `QwenDecoder.AnswerIs` | server/qwen-cli.js:111-168 | the answer is the concatenated text deltas, else the last full assistant text, else the first non-empty result text after it |
| `QwenDecoder.VerdictIsLastResult` | server/qwen-cli.js:155-168 | the verdict is a failure exactly when the last result has the error flag or subtype, or its text starts with the failure prefix, white space aside |
| `QwenDecoder.ReasonIsLastFailure` | server/qwen-cli.js:169-180 | the reason is that of the last failed result: its error text, else the message of its error, else its text, else a fixed one |
| `QwenDecoder.NoFailureNoReason` | server/qwen-cli.js:155-180 | without a failed result there is no reason, and without any result no verdict |
| `QwenDecoder.SameAnswer` | server/qwen-cli.js:411-450 | two splits of the same text end with the same answer |
| `SidecarTail.Agent.ReadNewLines` | server/claude-sdk.js:278-291 | one poll returns exactly the values of the lines it finished that say something, in order, and keeps the rest pending |
| `SidecarTail.Agent.DrainStatic` | server/claude-sdk.js:278-291 | full reads of a file that stopped growing reach its end in ceil(remaining / 262144) polls |
| `SidecarTail.TailRefinesWholeFile` | server/claude-sdk.js:278-291 | over any mix of appends, short reads and polls the tail is what a whole-file read of the first `offset` bytes gives |
| `SidecarTail.LinesAndPendingAreThePrefix` | server/claude-sdk.js:278-291 | the finished lines, each with its newline, followed by `pending`, are the first `offset` bytes |
| `SidecarTail.ReachesEndExactly` | server/claude-sdk.js:280-284 | full reads reach the end after exactly ceil(remaining / 262144) polls and no sooner |
| `KimiTranscript.TranscriptBuilder.OnContentFragment` | server/kimi-agent-cli.js:468-478 | a fragment extends the last open text block in place or opens one; pushed messages show what they showed |
| `KimiTranscript.TranscriptBuilder.OnToolUse` | server/kimi-agent-cli.js:479-488 | a tool block is opened |
| `KimiTranscript.TranscriptBuilder.PushToTranscript` | server/kimi-agent-cli.js:491-493 | the transcript gets a deep copy of the open blocks, if any, and the result |
| `KimiTranscript.TranscriptBuilder.HandOver` | server/kimi-agent-cli.js:494-504 | the session manager gets the open blocks themselves, which are open no longer |
| `KimiTranscript.TranscriptBuilder.OnToolResult` | server/kimi-agent-cli.js:489-507 | both, and no block stays open |
| `KimiTranscript.TranscriptBuilder.OnInit` | server/kimi-agent-cli.js:511-527 | the first session id starts the session's own message list with the command |
| `KimiTranscript.TranscriptConserves` | server/kimi-agent-cli.js:467-507 | the transcript flattened, followed by the open blocks, is exactly what was produced with adjacent text merged; revoked output is ignored |
| `KimiTranscript.AssistantMessagesAreProper` | server/kimi-agent-cli.js:489-493 | no assistant message is empty, none has two adjacent text blocks, each is followed by a tool result |
| `KimiTranscript.PushedMessagesStand` | server/kimi-agent-cli.js:467-507 | later events never change a message already pushed |
| `KimiTranscript.SessionIsTranscriptTail` | server/kimi-agent-cli.js:491-504 | the session manager holds the command and the transcript from the moment the session is known, all of it for a resumed session |
| `Approvals.Authorize` | server/claude-sdk.js:1346-1364 | the role is owner exactly for the same identity; a collaborator's answer is stripped of both privileged fields; a stranger's is refused |
| `Approvals.PendingApprovals.Finalize` | server/claude-sdk.js:1174-1188 | only the first decision counts; it leaves the map and clears timer and listener |
| `Approvals.PendingApprovals.WaitForToolApproval` | server/claude-sdk.js:1168-1222 | a request enters the map with its timer and listener, or is settled at once if its signal has fired |
| `Approvals.PendingApprovals.ResolveToolApproval` | server/claude-sdk.js:1392-1447 | who may answer which request and with what; everyone else changes nothing |
| `Approvals.PendingApprovals.SettleToolApproval` | server/claude-sdk.js:1232-1239 | the server's own settlement, with any decision: a waiting request gets it, no other is touched |
| `Approvals.PendingApprovals.OnTimeout` | server/claude-sdk.js:1190-1195 | a timeout settles its request without a decision |
| `Approvals.PendingApprovals.CancelPendingApprovalsForSession` | server/claude-sdk.js:5862-5872 | the loop over the map it shrinks settles exactly the session's requests |
| `Approvals.PendingApprovals.CancelAllPendingApprovals` | server/claude-sdk.js:5893-5902 | every waiting request is settled and counted |
| `Approvals.SdkOptions.AfterDecision` | server/claude-sdk.js:4628-4653 | what a decision does to a run's tool lists, and the verdict |
| `Approvals.InMapExactlyUntilSettled` | server/claude-sdk.js:1168-1222 | a request is in the map exactly until it is settled, with its timer and listener; none waits on a signal that has fired |
| `Approvals.DecisionStands` | server/claude-sdk.js:1174-1182 | under every interleaving a request gets one decision, which never changes |
| `Approvals.CancelTouchesOnlyItsSession` | server/claude-sdk.js:5862-5872 | cancelling a session empties its prompts and touches no other session's |
| `Approvals.AllowedOnlyByAnAnswer` | server/claude-sdk.js:1346-1447 | a tool call is allowed only by an answer that allows it, from the owner or, for an ordinary prompt, a collaborator; an edited input only from the owner |
| `Approvals.AllowedToolsGrowOnlyByOwner` | server/claude-sdk.js:1392-4649 | `allowedTools` grows only by an owner's allow answer to an ordinary prompt of that run |
| `Approvals.AnswerDecides` | server/claude-sdk.js:1392-4649 | an entitled answer to a waiting request decides its call: allowed if and only if it allows and does not cancel, with exactly the owner's input on an ordinary prompt; the entry the owner asked to remember is then allowed and not disallowed, and nothing else in any run's lists changes |
| `Approvals.OtherwiseDenied` | server/claude-sdk.js:4618-4635 | a request settled in any other way is denied and changes no tool list |
| `Approvals.SettledAtOnce` | server/claude-sdk.js:1168-1239 | its timer, its signal, the server and a cancellation each settle a waiting request at once, with their own outcome |
| `Approvals.StrangerChangesNothing` | server/claude-sdk.js:1392-1429 | an answer by anyone else leaves the whole state unchanged |
| `GhostDetach.Session.Visit` | server/claude-sdk.js:555-568 | what one sweep does to one session |
| `GhostDetach.ActiveSessions.AddSession` | server/claude-sdk.js:2861-2884 | registering starts with a clear clock and not detached |
| `GhostDetach.ActiveSessions.RemoveSession` | server/claude-sdk.js:2978-3020 | removal is refused when the entry belongs to another run |
| `GhostDetach.ActiveSessions.SweepGhostSessions` | server/claude-sdk.js:549-574 | one sweep updates every session object in place |
| `GhostDetach.ActiveSessions.GetDrainBlockingSessions` | server/claude-sdk.js:5847-5853 | exactly the sessions that are not detached |
| `GhostDetach.PresentExactly` | server/claude-sdk.js:2978-3010 | a session is present exactly since a registration that no removal of its own run, or of no run in particular, followed, with that registration's token |
| `GhostDetach.DrainIsTheRest` | server/claude-sdk.js:5847-5853 | the drain count is the active sessions minus the detached ones |
| `GhostDetach.DetachedExactly` | server/claude-sdk.js:549-574 | a session is detached if and only if, since it was last registered, an unbroken run of listener-less sweeps lasted at least the grace period; it stays so until registered again |
| `GhostDetach.DetachedOnlyAfterGrace` | server/claude-sdk.js:549-574 | two sweeps at least the grace period apart, without a listener in between |
| `GhostDetach.TimeZeroDoesNotStartTheClock` | server/claude-sdk.js:565 | counterexample for a sweep at time zero, which the clock takes for unset |
| `LossMeter.DedupSort` | scripts/b103-loss-meter.js:145-153 | the loop is deduplication by key followed by the stable sort |
| `LossMeter.DedupKeepsFirstOfEachKey` | scripts/b103-loss-meter.js:146-152 | one mark of every key is kept, and it is the first |
| `LossMeter.SortIsStable` | scripts/b103-loss-meter.js:152 | the marks are ordered by time, those of one time stay in order |
| `LossMeter.OperationMarksIncrease` | scripts/b103-loss-meter.js:145-154 | deduplicated sorted operation marks have strictly increasing times and none is lost |
| `LossMeter.BuildIntervals` | scripts/b103-loss-meter.js:176-201 | one interval per operation, with its end, kind and margins |
| `LossMeter.FirstFinishIsEarliest` | scripts/b103-loss-meter.js:181 | the finish found is the earliest one between this operation and the next, none exactly when there is none |
| `LossMeter.CoresAreOrdered` | scripts/b103-loss-meter.js:178-196 | a core ends by the start of the next; it starts no later than it ends exactly when a finish closes it or `post` is not negative |
| `LossMeter.CoresMeetAtMostAtAnEndpoint` | scripts/b103-loss-meter.js:178-196 | a time in two cores is the shared endpoint of neighbours |
| `LossMeter.FinishClosesAtMostOne` | scripts/b103-loss-meter.js:181-188 | a finish mark closes at most one operation |
| `LossMeter.ClassifyEvent` | scripts/b103-loss-meter.js:205-228 | an event is server-op exactly when some interval contains it; its hit, cause and nearest operation are the true ones |
| `LossMeter.Classify` | scripts/b103-loss-meter.js:203-229 | every event is classified so |
| `LossMeter.ClassesPartition` | scripts/b103-loss-meter.js:203-229 | the server-op events are those inside some interval and the organic ones those outside all, each in order, and together they are all events |
| `LossMeter.ClassificationIsUnique` | scripts/b103-loss-meter.js:203-228 | the contract leaves no choice |
| `LossMeter.ServerOpExactly` | scripts/b103-loss-meter.js:176-205 | an event is server-op exactly when it is within `pre` seconds of some operation: from its start to the first finish before the next start, or else to `post` seconds later or the next start |
| `LossMeter.RaisingLimitsKeepsServerOps` | scripts/b103-loss-meter.js:186-205 | raising `pre` or `post` never turns a server-op event into organic |

## Left out

- Common: a string or null of the program is an `Option<string>`; other wrong types are None.
- TaskTracker: the order of the ended tool_use ids (a set here); one clock reading per message; how notified tasks are parsed from text (an input).
- InputClose: timers fire exactly when due; `planWakeupHold`, `resultAnswersTurn` and the steer controller are inputs; native relay releases, the listener watch and quota closes are release steps with any reason.
- Canonical: a number is the text JavaScript prints for it, so 0 and -0 are one value; `undefined` is no JSON value.
- JsonText: the grammar of numbers (any run of number characters is read as one) and insignificant white space.
- StartupReplies: numbers, arrays and objects are matched by what `String` makes of them, but `expiresAtBootMs` compares as an integer or a text of digits only; key lists are compared as sets, while the code compares joined sorted texts (a reply key with a comma in it is not told apart); texts of the descriptor and the process are none of the protocol's fixed texts.
- StartupAdmission: descriptor, manifest, file, hash and database checks are arbitrary booleans; the 10 second cap of one exchange.
- AdmissionChain: phase calls made concurrently; the predicate that rejects recovery of a process's own intent.
- SessionRegistry: non-integer floors and capacities; that `open` also returns the entry object; logging of a full registry.
- RegistryRuns: a floor carried over from a dropped entry once the new counter has passed it.
- DropTimers: overlapping runs on one key; the temporary key of a run takes part in the preamble only; timers fire when due.
- CodexLocks: history leases, permissions, model selection and the event mapping; the age test of the sweep (any non-running session may be swept).
- Discovery: separate brain directories per user (one directory here); overlapping attempts inside one run; resumed runs, which take no lock.
- LineBuffers: UTF-8 decoding and `JSON.parse` (a parse function that may fail).
- KimiHandler: the mapping of one event to messages, and what the callbacks then do (`KimiTranscript` takes them up).
- QwenDecoder: thinking and tool cards, which do not enter the answer; chunks after revocation, which are dropped whole.
- SidecarTail: multi-byte text, which the program decodes chunk by chunk.
- KimiTranscript: the final persistence of the open blocks; session creation, presence and resume bookkeeping at `init`.
- Approvals: restoring masked input in an edited answer; rule matching, permission modes and the engine fences, which decide before a request exists; the runtime's dispatch of an abort to its listeners, which is one step here; notifications.
- GhostDetach: starting and stopping the sweep timer; the writer's socket test (an input per sweep).
- LossMeter: log parsing; the rounding of the reported distance to seconds; fractional `pre` and `post`.
- Also not modelled: process spawning, signals, sockets, file permissions and hashing; the side query, permission-mode mapping, model lists, environment building and image handling, which would add only easy members.
