# Verified model of OpenStream's stateful core

OpenStream is a remote desktop: a host shares its screen and sound, a client connects to it, and
a control plane introduces the two.  This project models the parts of it whose correctness
depends on order (queues drained by callbacks, schedules, state machines, transactions, locks,
retries) and proves what they keep over whole runs.  `dafny verify dfyconfig.toml` checks it.

| file | models |
|---|---|
| `AudioSink.dfy` | the iOS audio queue: producers, drains on the main queue, completion callbacks |
| `AnnexB.dfy`, `VideoView.dfy` | splitting an H.264 byte stream and rewriting it for the decoder |
| `AppCore.dfy`, `AppHistory.dfy`, `AppGraph.dfy` | the application state machine, what its histories say about authority, and its graph |
| `HostLifecycle.dfy` | turning hosting on and off: adopting reports, and serialised transactions |
| `Presence.dfy` | when a host renews and withdraws its presence entry |
| `Session.dfy` | the session supervisor and the process trees it must not let overlap |
| `Reassembly.dfy`, `Handoff.dfy`, `LocalMute.dfy` | the audio capture loop: frames, settings, speakers |
| `Options.dfy` | a value that may be missing |
| `Refresh.dfy`, `SignIns.dfy` | renewing a sign-in over a channel that loses replies, and the server's side of it, whoever asks |

Objects that the program updates in place are classes, loops are loops, and each is proved against
a function on values; the theorems are about those functions.  Threads, processes, networks and
clocks are steps of a run, in every order that the code allows.  What a call meets (an answer, an
exit code, a timeout) is an argument, and the theorems hold for all of them.

Where the code does not do what its comments say, the model follows the code.  Each such place has
a concrete run and the exact condition:

* Disconnecting an attempt that was approved and not yet connected leaves its permissions behind
  (`AppHistory.Residue`), and an approval without `view` leaves the model waiting on nothing
  (`AppHistory.StrandedBy`).
* A presence entry is meant to survive two missed beats.  It does, as long as a call takes at most
  11.5 seconds; a beat that first renews its token can take 20 (`Presence.LapseTable`).
* A host request that timed out and is processed later can undo a newer one
  (`HostLifecycle.InOrderIff`), and a restart is two transactions that others can come between
  (`HostLifecycle.RestartInterruptedIff`).
* A setting changed while the capture stream opens is not noticed (`Handoff.OpeningIff`), and a
  device given up for the default output is kept (`Handoff.DefaultIff`).
* Putting the speakers back can take away a person's own mute, in three ways
  (`LocalMute.PersonsMuteUndone`), and a mute that the host gave up waiting for, or failed to put
  back, is left in force (`LocalMute.LeftInForceIff`).
* A sign-out withdraws the presence entry beside the loop, which may withdraw it again
  (`Presence.SignOutIsNotRecorded`).
* A retry that is refused before it is served, or that overtakes the request it repeats, costs the
  sign-in (`Refresh.StrandedIff`, `Refresh.StrandingIsFatal`).

## Model

| member | source | states |
|---|---|---|
| AudioSink.Sink.constructor | mobile/ios/OpenStreamAudioSink.swift:6-10 | a new sink has nothing pending, nothing scheduled and no drain |
| AudioSink.Sink.Enqueue | mobile/ios/OpenStreamAudioSink.swift:27-44 | less than one frame is ignored; otherwise the oldest of eight is dropped, the buffer appended, and a drain claimed if none is |
| AudioSink.Sink.DrainNext | mobile/ios/OpenStreamAudioSink.swift:46-72 | the lock section of a drain: clears the flag when there is nothing to take or two buffers are scheduled, else takes the oldest |
| AudioSink.Sink.CompleteScheduledBuffer | mobile/ios/OpenStreamAudioSink.swift:99-112 | frees a slot, and claims a drain exactly when something is pending and none is claimed |
| AudioSink.DrainInvKept | mobile/ios/OpenStreamAudioSink.swift:27-118 | every step keeps: live drains are one if the flag is set and none if not, at most 8 pending and 2 scheduled, each scheduled one accounted for, and a queue without a drain is at the ceiling |
| AudioSink.AccountKept | mobile/ios/OpenStreamAudioSink.swift:27-72 | every buffer accepted was taken, dropped or is pending, in order; only the oldest are dropped, and only for a full queue |
| AudioSink.OrderKept | mobile/ios/OpenStreamAudioSink.swift:65-97 | what reaches the player is an in-order subsequence of what was taken |
| AudioSink.InitialInv | mobile/ios/OpenStreamAudioSink.swift:6-10 | the invariants hold of a new sink |
| AudioSink.NeverStranded | mobile/ios/OpenStreamAudioSink.swift:27-118 | in every interleaving a non-empty queue has a live drain, or two buffers are scheduled whose completions are still to come |
| AudioSink.PlayedInOrder | mobile/ios/OpenStreamAudioSink.swift:27-97 | what was played is an in-order subsequence of what was enqueued |
| AudioSink.DropsOnlyWhenFull | mobile/ios/OpenStreamAudioSink.swift:30-37 | in every run an enqueue drops the oldest of eight, and none of fewer |
| AudioSink.TakesBelowCeiling | mobile/ios/OpenStreamAudioSink.swift:48-71 | a drain takes the oldest buffer if and only if there is one and fewer than two are scheduled |
| AudioSink.CompletionClaims | mobile/ios/OpenStreamAudioSink.swift:99-112 | in every run a completion frees one slot, and claims a drain if and only if something is pending and none is claimed |
| AudioSink.StepProgress | mobile/ios/OpenStreamAudioSink.swift:46-118 | every step but an enqueue makes the remaining work smaller and drops nothing |
| AudioSink.SomethingEnabled | mobile/ios/OpenStreamAudioSink.swift:46-118 | while work remains some drain, hand-over or completion can happen |
| AudioSink.DrainsCompletely | mobile/ios/OpenStreamAudioSink.swift:46-118 | once enqueueing stops, every run is at most 59 steps long and, when it can go no further, has taken everything pending, in order |
| AnnexB.FindStarts | mobile/ios/OpenStreamVideoView.swift:202-220 | the scan finds the start codes of the specification scan, in order |
| AnnexB.NalUnits | mobile/ios/OpenStreamVideoView.swift:202-227 | the units are the non-empty spans between consecutive start codes |
| AnnexB.StartsExact | mobile/ios/OpenStreamVideoView.swift:206-220 | a start code is reported exactly where one stands that no earlier reported one covers |
| AnnexB.NothingLost | mobile/ios/OpenStreamVideoView.swift:202-227 | on arbitrary bytes the input is a prefix without a start code, then each start code found, byte for byte, with the span behind it; the units returned are the non-empty ones of these spans, in order |
| AnnexB.CleanStarts | mobile/ios/OpenStreamVideoView.swift:206-220 | in printed clean units the codes found are those printed |
| AnnexB.SurvivorsAreClean | mobile/ios/OpenStreamVideoView.swift:202-227 | units that come back as printed were clean |
| AnnexB.SplitUndoesPrint | mobile/ios/OpenStreamVideoView.swift:202-227 | for any list of units, each printed with a 3- or 4-byte code, splitting gives the list back if and only if the units are clean |
| AnnexB.ConformingSurvives | mobile/ios/OpenStreamVideoView.swift:202-227 | units as section 7.4.1 of ITU-T H.264 allows them are clean, so they come back |
| AnnexB.LengthPrefix | mobile/ios/OpenStreamVideoView.swift:112-117 | the loop builds the length-prefixed form of the units |
| AnnexB.BigEndianRoundTrip | mobile/ios/OpenStreamVideoView.swift:114-115 | four big-endian bytes read back as the length |
| AnnexB.ReadUndoesPrefix | mobile/ios/OpenStreamVideoView.swift:112-117 | reading the length-prefixed form gives the units back |
| AnnexB.PrefixUndoesRead | mobile/ios/OpenStreamVideoView.swift:112-117 | any bytes that read as length-prefixed units are the length-prefixed form of those units |
| AnnexB.RewritingKeepsUnits | mobile/ios/OpenStreamVideoView.swift:112-117 | splitting and length-prefixing keeps the units of a clean stream |
| VideoView.View.constructor | mobile/ios/OpenStreamVideoView.swift:20-22 | a new view has no parameter sets and no format |
| VideoView.View.NoteParameterSets | mobile/ios/OpenStreamVideoView.swift:89-101 | the last unit with 7, and the last with 8, in the low five bits of its first byte is kept, and a change is reported exactly when some parameter set differs from the one before it |
| VideoView.View.EnqueueOnMain | mobile/ios/OpenStreamVideoView.swift:87-117 | a sample holds all units of the access unit under the format of the current parameter sets, and exactly when it is withheld; the format is kept, remade or missing exactly as parameter sets change and are accepted |
| Reassembly.State.constructor | engine/lowlat/crates/audio/src/capture.rs:340-345 | nothing has arrived |
| Reassembly.State.Take | engine/lowlat/crates/audio/src/capture.rs:286-307 | frames handed on, each exactly whole, and a partial frame shorter than one make up the bytes that arrived; the loop ends |
| Reassembly.CutIsUnique | engine/lowlat/crates/audio/src/capture.rs:286-307 | there is one way to cut a byte stream into whole frames and a rest |
| Reassembly.FeedAll | engine/lowlat/crates/audio/src/capture.rs:286-307 | fragments add up |
| Reassembly.FragmentationDoesNotMatter | engine/lowlat/crates/audio/src/capture.rs:282-307 | two ways of fragmenting the same bytes hand on the same frames and keep the same rest |
| Handoff.Wanted.constructor | engine/lowlat/crates/audio/src/capture.rs:105-110 | the generation starts at zero |
| Handoff.Wanted.Set | engine/lowlat/crates/audio/src/capture.rs:116-134 | stores, and bumps the wrapping generation only for something new |
| Handoff.Wanted.StoreLocked | engine/lowlat/crates/audio/src/capture.rs:117-129 | the locked half of a set |
| Handoff.Wanted.Bump | engine/lowlat/crates/audio/src/capture.rs:130-133 | the unlocked half, modulo 2^32 |
| Handoff.MuteKept | engine/lowlat/crates/audio/src/capture.rs:386-470 | every step keeps: the speakers are as stored, or a bump to be noticed says otherwise, or the change fell into the opening |
| Handoff.DeviceKept | engine/lowlat/crates/audio/src/capture.rs:431-462 | the same of a stream and a named device, unless an open failed or the stream was moved |
| Handoff.HomeKept | engine/lowlat/crates/audio/src/capture.rs:438-498 | every step keeps: with no device named the stream is bound for the default output exactly when it is not adrift |
| Handoff.OpeningKept | engine/lowlat/crates/audio/src/capture.rs:377-421 | until a bump is noticed, a stream with a named device stays where it opened |
| Handoff.NothingSetIsLost | engine/lowlat/crates/audio/src/capture.rs:421-471 | in every interleaving, once setters are done, with fewer than 2^32 bumps since the last pass and one since the loop began to watch or none while opening, one more pass mutes as stored, and puts an undisturbed stream on the device stored if one is named and opens |
| Handoff.DefaultIff | engine/lowlat/crates/audio/src/capture.rs:435-462 | with no device named, one more pass leaves an undisturbed stream on the default output if and only if it is not adrift: the last named device was given up off the default output, and neither a new default nor an open followed |
| Handoff.PassIff | engine/lowlat/crates/audio/src/capture.rs:431-514 | which streams one pass puts on the stored device, 2^32 bumps counted; a stream that will not open leaves the old one |
| Handoff.OpeningIff | engine/lowlat/crates/audio/src/capture.rs:377-421 | when settings changed only while the stream opened: the mute flag is as stored if and only if it changed an even number of times since it was read or a new default is followed, and a named device is taken up if and only if the stream opened on it, as it did if the stored device has not changed since |
| Handoff.LostWhileOpening | engine/lowlat/crates/audio/src/capture.rs:377-432 | a run in which no number of passes takes up a device asked for during the opening |
| Handoff.MuteLostWhileOpening | engine/lowlat/crates/audio/src/capture.rs:386-432 | a run in which a pass leaves the speakers as they were read during the opening |
| Handoff.NoneIsNotTakenUp | engine/lowlat/crates/audio/src/capture.rs:438-443 | a run in which going back to the default output is noticed, and no number of passes takes it up |
| Handoff.StaysPut | engine/lowlat/crates/audio/src/capture.rs:431-486 | a stream that the guards leave alone stays where it is over any number of passes |
| Handoff.ActsOnlyOnChanges | engine/lowlat/crates/audio/src/capture.rs:112-134 | storing an equal value changes nothing, and no run acts more often than settings changed in it or were still to be bumped when it began |
| LocalMute.HandsAreNotOurs | engine/lowlat/crates/audio/src/capture.rs:572-594 | what people do never adds a mute of this host's |
| LocalMute.MuteRecords | engine/lowlat/crates/audio/src/capture.rs:524-570 | a mute leaves a record of the last request made and of whose mute the sink is then under; it covers every mute of this host's in force if obeyed requests are answered |
| LocalMute.RestoreUndoes | engine/lowlat/crates/audio/src/capture.rs:573-594 | a restore unmutes the recorded sink only, right after its mute; if it is described and obeyed no mute of this host's is left |
| LocalMute.Serve | engine/lowlat/crates/audio/src/capture.rs:384-517 | the capture's loop, stopped or failing at any pass, and the restore at its end |
| LocalMute.TurnsKept | engine/lowlat/crates/audio/src/capture.rs:428-514 | through device changes, default changes and failed reopens the loop holds at most one record, which covers every mute in force, and holds one only if muting is wanted |
| LocalMute.SilencedWhenWanted | engine/lowlat/crates/audio/src/capture.rs:463-513 | a server that does as it is asked leaves the speakers muted after every turn that asks for it |
| LocalMute.SpeakersPutBack | engine/lowlat/crates/audio/src/capture.rs:384-406 | over a whole capture every unmute request undoes the answered mute directly before it, takes away a person's mute exactly when the stated condition on hands and replies holds, and, if obeyed requests are answered and restores obliged, none of the host's mutes is in force at the end |
| LocalMute.UnrecordedMute | engine/lowlat/crates/audio/src/capture.rs:561-569 | a mute goes unrecorded exactly when it is obeyed and not answered in time |
| LocalMute.RestoreFails | engine/lowlat/crates/audio/src/capture.rs:573-594 | exactly when a restore leaves the host's mute in force, its record being dropped all the same |
| LocalMute.NeverUndone | engine/lowlat/crates/audio/src/capture.rs:428-514 | a mute without a record is in force at the end of every run in which nobody unmutes the sink by hand |
| LocalMute.CaptureByCalls | engine/lowlat/crates/audio/src/capture.rs:384-517 | a capture is a sequence of mutes and restores, never a mute over a record, and a restore at its end |
| LocalMute.LeftInForceIff | engine/lowlat/crates/audio/src/capture.rs:384-594 | over a whole capture, whatever the server and people do: a mute of the host's is in force at the end if and only if some call let it slip, obeyed and not answered or not described or not obeyed, and nobody unmuted the sink by hand since |
| LocalMute.LeftTwoWays | engine/lowlat/crates/audio/src/capture.rs:561-594 | a run of each kind |
| LocalMute.HandedOver | engine/lowlat/crates/audio/src/capture.rs:580-588 | whose mute a sink is left under, from what people did to it |
| LocalMute.PersonsMuteUndone | engine/lowlat/crates/audio/src/capture.rs:524-594 | for any server, mute and restore: a restore takes away a person's mute exactly when the sink was muted by hand between the host's look and its request and left so, or unmuted and muted again by hand since, or muted by hand after a request answered and not obeyed |
| LocalMute.TakenThreeWays | engine/lowlat/crates/audio/src/capture.rs:524-594 | a run of each kind |
| AppCore.AppModel.constructor | engine/lowlat/crates/app-core/src/lib.rs:541-571 | local mode starts ready, account mode signed out, both with no authority |
| AppCore.AppModel.ClearActiveSession | engine/lowlat/crates/app-core/src/lib.rs:592-597 | drops device, session and permissions |
| AppCore.AppModel.TakePendingRequest | engine/lowlat/crates/app-core/src/lib.rs:993-1021 | the pending request leaves the model only by its own id; an expired one is dropped and the model is ready again |
| AppCore.AppModel.ConnectTo | engine/lowlat/crates/app-core/src/lib.rs:904-966 | the guards of a connect in their order, the 30-second request, and the window of 256 used ids |
| AppCore.AppModel.Approve | engine/lowlat/crates/app-core/src/lib.rs:968-991 | grants what was asked and is available, if that includes view, and uses the request up |
| AppCore.AppModel.DispatchSession | engine/lowlat/crates/app-core/src/lib.rs:710-847 | the connection commands' new state and outcome |
| AppCore.AppModel.DispatchRequest | engine/lowlat/crates/app-core/src/lib.rs:635-709 | the account and request commands' new state and outcome |
| AppCore.AppModel.Dispatch | engine/lowlat/crates/app-core/src/lib.rs:633-902 | every command's new state and outcome |
| AppCore.AppModel.AddDevice | engine/lowlat/crates/app-core/src/lib.rs:599-605 | a known device is replaced in place, a new one appended while there is room |
| AppCore.AppModel.ReplaceDevices | engine/lowlat/crates/app-core/src/lib.rs:610-612 | the observed devices, cut to the limit |
| AppCore.IndexOf | engine/lowlat/crates/app-core/src/lib.rs:599-605 | the first device with an id |
| AppHistory.AuthorityKept | engine/lowlat/crates/app-core/src/lib.rs:633-1021 | every operation keeps the authority invariant |
| AppHistory.Authority | engine/lowlat/crates/app-core/src/lib.rs:633-1021 | over every run: a session id exactly when connected, reconnecting or disconnecting; a pending request only while waiting, with its ids; no permissions outside active, ready and waiting states |
| AppHistory.EveryGrantIsTraced | engine/lowlat/crates/app-core/src/lib.rs:904-1021 | every active state traces back to the latest accepted connect for that device and the latest accepted approval of the same id inside its 30 seconds, and each of the eight permissions is held if and only if the one asked for it and the other made it available, view included |
| AppHistory.NegotiationNeedsApproval | engine/lowlat/crates/app-core/src/lib.rs:710-717 | with no approval accepted since the latest accepted connect, negotiation is refused |
| AppHistory.Residue | engine/lowlat/crates/app-core/src/lib.rs:824-839 | a ready or waiting model has permissions if and only if an approved attempt was abandoned by a disconnect, and then exactly that attempt's |
| AppHistory.ResidueIsTraced | engine/lowlat/crates/app-core/src/lib.rs:824-839 | and each residual permission traces back to the connect and the approval of that attempt |
| AppHistory.ResidueExample | engine/lowlat/crates/app-core/src/lib.rs:824-839 | a run that ends ready with all permissions |
| AppHistory.StrandedBy | engine/lowlat/crates/app-core/src/lib.rs:968-991 | the only step into waiting on nothing is an approval in time without view |
| AppHistory.StrandedExample | engine/lowlat/crates/app-core/src/lib.rs:968-991 | a run into it |
| AppHistory.StrandedUntil | engine/lowlat/crates/app-core/src/lib.rs:633-902 | the only steps out of it are a disconnect and a reported failure |
| AppHistory.WindowRefinesHistory | engine/lowlat/crates/app-core/src/lib.rs:916-959 | the used ids are the last 256 accepted ones, and no id is accepted twice in 257 consecutive accepted connects |
| AppHistory.DuplicateIff | engine/lowlat/crates/app-core/src/lib.rs:916-922 | a duplicate is refused exactly when it is among the last 256 accepted ids |
| AppGraph.ConnectIff | engine/lowlat/crates/app-core/src/lib.rs:904-966 | exactly which connects are accepted, and with which error the others are refused |
| AppGraph.EdgesExact | engine/lowlat/crates/app-core/src/lib.rs:633-902 | a command changes the state exactly along the edges of the state graph |
| AppGraph.StateExplained | engine/lowlat/crates/app-core/src/lib.rs:541-902 | in every run the present state is the first one or the end of the last edge taken, and the model has been in it ever since |
| AppGraph.EventsTellTheTruth | engine/lowlat/crates/app-core/src/lib.rs:633-902 | at most one event a command, true of the model before and after it, and none only if nothing changed |
| AppGraph.RefusalsChangeNothing | engine/lowlat/crates/app-core/src/lib.rs:968-1034 | the error of every refusal, and that it changes nothing but an answered request |
| AppGraph.HostEdges | engine/lowlat/crates/app-core/src/lib.rs:848-900 | which host commands are accepted in which status, and the status they leave |
| AppGraph.IdsByBytes | engine/lowlat/crates/app-core/src/lib.rs:1024-1034 | an identifier is one to 128 bytes of UTF-8 without control characters |
| AppGraph.DeviceAdded | engine/lowlat/crates/app-core/src/lib.rs:599-605 | an added device is found, replaces the one of its id and no other, up to 256 |
| HostLifecycle.AllAccepted | desktop/src-tauri/src/runtime.rs:973-1022 | for every status and report the chosen commands are all accepted, the status then matches the report, and the report chooses nothing more |
| HostLifecycle.ReconcileHostHealth | desktop/src-tauri/src/runtime.rs:973-1022 | the loop over them does so |
| HostLifecycle.HostStartCommand | desktop/src-tauri/src/runtime.rs:138-158 | the last decisive event decides, with its message and flag; no command means no decisive event |
| HostLifecycle.LastDecides | desktop/src-tauri/src/runtime.rs:138-158 | the same of the specification |
| HostLifecycle.OutcomeAccepted | desktop/src-tauri/src/lib.rs:1004-1012 | the model never refuses a transaction's outcome |
| HostLifecycle.OutcomeShown | desktop/src-tauri/src/runtime.rs:924-951 | the status a transaction leaves: disabled, the bridge's failure, or what the last decisive event says |
| HostLifecycle.FailedStopEndsRestart | desktop/src-tauri/src/lib.rs:930-931 | a stop that fails gives up whatever was to follow it |
| HostLifecycle.HealthShown | desktop/src-tauri/src/lib.rs:1014-1030 | a reconciliation leaves the status that the report stands for |
| HostLifecycle.InvKept | desktop/src-tauri/src/lib.rs:965-1085 | every step but a late request keeps the history a sequence of whole transactions, with reconciliations and session starts between them |
| HostLifecycle.StartKept | desktop/src-tauri/src/lib.rs:539-548 | an approval starts its session between transactions |
| HostLifecycle.Serialised | desktop/src-tauri/src/lib.rs:965-1033 | in every interleaving of lifecycle tasks, approvals that start a session and the reconciler, without late requests: requests are processed in the order of their intents, each right after its own, nothing comes between an intent and its outcome, and every outcome is accepted |
| HostLifecycle.StaleBreaksOrder | desktop/src-tauri/src/lib.rs:984-1003 | a run in which a late start is processed after a newer stop |
| HostLifecycle.InOrderIff | desktop/src-tauri/src/lib.rs:965-1033 | in every run, requests are processed in order if and only if none is taken late, after a newer one |
| HostLifecycle.RestartIsOpen | desktop/src-tauri/src/lib.rs:912-932 | in every run, when a restart's stop releases the lock, any other task can go first if and only if it waits |
| HostLifecycle.RestartInterruptedIff | desktop/src-tauri/src/lib.rs:912-932 | in every run another transaction lies between a restart's stop and its start if and only if another lifecycle task takes the lock in between |
| HostLifecycle.RestartUndoesDisable | desktop/src-tauri/src/lib.rs:912-932 | a run in which a disable between the two is undone by the start |
| Presence.PresenceSchedule.constructor | desktop/src-tauri/src/presence.rs:109-117 | a new schedule is due and advertises nothing |
| Presence.PresenceSchedule.Forget | desktop/src-tauri/src/presence.rs:208-212 | due at once, no failures |
| Presence.PresenceSchedule.Decide | desktop/src-tauri/src/presence.rs:134-173 | announce, withdraw or wait, with the schedule it leaves |
| Presence.PresenceSchedule.NextJitter | desktop/src-tauri/src/presence.rs:248-258 | the 64-bit congruential step and the jitter drawn from it |
| Presence.PresenceSchedule.Succeeded | desktop/src-tauri/src/presence.rs:215-219 | the next beat, 30 seconds and a jitter later |
| Presence.PresenceSchedule.Withdrawn | desktop/src-tauri/src/presence.rs:222-225 | nothing is advertised any more |
| Presence.PresenceSchedule.FailedAt | desktop/src-tauri/src/presence.rs:233-236 | the saturating count and the retry it sets |
| Presence.LoopTurn | desktop/src-tauri/src/lib.rs:1098-1155 | one turn of the loop: pre-check, decision, call, record |
| Presence.PreCheckAgrees | desktop/src-tauri/src/presence.rs:184-194 | signed in, the pre-check says yes exactly when the decision is not to wait, in every state |
| Presence.RetryDelays | desktop/src-tauri/src/presence.rs:263-269 | 2, 4, 8, then 15 seconds for every count |
| Presence.AnnounceIff | desktop/src-tauri/src/presence.rs:134-173 | in every run a turn announces if and only if it finds the device ready, somebody signed in and nothing left to wait for from the last call, and withdraws if and only if not ready, somebody signed in, a beat standing and no failed withdrawal to wait out |
| Presence.DueBounds | desktop/src-tauri/src/presence.rs:215-236 | a beat makes the next call wait 30 to 35 seconds, a failure 2 to 15 |
| Presence.RetriedByRow | desktop/src-tauri/src/presence.rs:233-269 | in every run a failed call is retried after 2, 4, 8 and then 15 seconds by its place in a row of failures, which a withdrawal starts anew |
| Presence.BeatsAreSpread | desktop/src-tauri/src/presence.rs:215-258 | in every run each delivered beat draws the next jitter of the congruential sequence |
| Presence.NothingToWithdraw | desktop/src-tauri/src/presence.rs:151-158 | polled not ready with nothing advertised, a schedule forgets what it waited for |
| Presence.SignedOutIsSilent | desktop/src-tauri/src/presence.rs:134-142 | with nobody signed in no call is made, and a turn that would have made one leaves the schedule due at once |
| Presence.NextBeatInTime | desktop/src-tauri/src/presence.rs:134-269 | from any number of failures, when the next successful beat is done |
| Presence.RenewedInTime | desktop/src-tauri/src/presence.rs:134-269 | for every seed and every run of ticks on time, two successful beats with k failures between them are no further apart than the longest gap |
| Presence.LapseIff | desktop/src-tauri/src/presence.rs:22-45 | for every number of failures and every length of calls: some run of ticks on time lets the entry lapse between two beats if and only if twice the call, 35.999 seconds and the longest retries fill 90 seconds |
| Presence.LapseTable | desktop/src-tauri/src/presence.rs:22-45 | so if and only if calls can take longer than 27, 17, 11.5, 7.4, 3.5 or 0.715 seconds for none to five failures, and always for six |
| Presence.SlowRun | desktop/src-tauri/src/presence.rs:134-269 | a run that takes exactly the longest gap |
| Presence.WithdrawsOnlyWhatStands | desktop/src-tauri/src/presence.rs:134-225 | over every run a withdrawal is decided only between a beat that the loop delivered and its next delivered withdrawal |
| Presence.SignOutIsNotRecorded | desktop/src-tauri/src/lib.rs:422-434 | the schedule knows every entry that stands, and a turn withdraws one that does not exactly when, not ready and signed in and with no failed withdrawal to wait out, it follows a beat that only a sign-out took back |
| Presence.WithdrawnTwice | desktop/src-tauri/src/lib.rs:422-434 | a run in which one does |
| Presence.WithdrawingOnlyAfterFailure | desktop/src-tauri/src/presence.rs:222-236 | a withdrawal in progress goes back to a failed one that nothing has followed |
| Presence.OwedWithdrawal | desktop/src-tauri/src/lib.rs:1110-1153 | an owed withdrawal is held back exactly while the last one failed less than its retry delay ago, so less than 15 seconds |
| Presence.ShortReturn | desktop/src-tauri/src/lib.rs:1110-1153 | after a short return to ready the loop waits out the retry, where polling every tick would withdraw at once |
| Session.DrainContainment | desktop/src-tauri/src/session.rs:909-921 | reports drained only on seeing the container empty, and gives up only after the whole budget in which it never was |
| Session.SweepContainment | desktop/src-tauri/src/session.rs:887-905 | the same over both budgets |
| Session.SessionSupervisor.constructor | desktop/src-tauri/src/session.rs:190-209 | a new supervisor is idle and owns nothing |
| Session.SessionSupervisor.SettleTo | desktop/src-tauri/src/session.rs:569-592 | forgets the session only if its container was seen empty, else keeps it to be cleaned up and fails |
| Session.SessionSupervisor.PollRunner | desktop/src-tauri/src/session.rs:594-641 | reaps, settles and reads status, and a cleanup target goes only with its container seen empty |
| Session.SessionSupervisor.StopSession | desktop/src-tauri/src/session.rs:508-556 | the same for a disconnect |
| Session.SessionSupervisor.StartSession | desktop/src-tauri/src/session.rs:211-472 | refuses over a runner or a pending cleanup, else records the new session whole |
| Session.SupervisorKept | desktop/src-tauri/src/session.rs:211-641 | ids and cleanup target are all there or all not; a runner or an owned credential file implies a target; idle implies none |
| Session.ContainmentKept | desktop/src-tauri/src/session.rs:211-641 | after every operation only the container to be cleaned up holds live processes, and a runner is spawned with none alive |
| Session.SessionsNeverOverlap | desktop/src-tauri/src/session.rs:211-641 | in every run from a new supervisor, with processes dying and sweeps failing at any time, a runner is spawned only when nothing of an earlier session is alive, and two containers never hold live processes; idle means no runner, no target, no credential and no process |
| Session.SupervisorSays | desktop/src-tauri/src/session.rs:594-641 | in every run the supervisor says connected, running or starting if and only if its runner is there and the last recognised report of its own session said so, or there was none; once the runner is gone, what it says, its generation and its exit code follow from how it ended |
| Session.OtherReports | desktop/src-tauri/src/session.rs:615-641 | a report of another session, or none, changes nothing, and one that cannot be read or is not known is an error |
| Session.PollAnswers | desktop/src-tauri/src/session.rs:594-641 | a poll fails only over a runner it cannot ask or a report it cannot use |
| Session.DisconnectAnswers | desktop/src-tauri/src/session.rs:508-556 | a disconnect fails exactly when it cannot wait or cannot sweep, and then keeps what is to be cleaned up |
| Session.ConnectAnswers | desktop/src-tauri/src/session.rs:211-472 | what a connect answers, and that a refused one changes nothing beyond its poll |
| Session.VerdictReached | desktop/src-tauri/src/session.rs:594-641 | a poll that finds a bad exit says failed |
| Session.VerdictSurvives | desktop/src-tauri/src/session.rs:569-641 | and so do all later ones, through failed and retried sweeps, until a disconnect or a new launch |
| Refresh.ControlPlaneClient.constructor | desktop/src-tauri/src/control_plane.rs:342-358 | a new client has no token and no key |
| Refresh.ControlPlaneClient.ClearCredentials | desktop/src-tauri/src/control_plane.rs:640-646 | drops token and key |
| Refresh.ControlPlaneClient.Reconfigure | desktop/src-tauri/src/control_plane.rs:367-374 | another origin drops both, the same one neither |
| Refresh.ControlPlaneClient.AcceptAuth | desktop/src-tauri/src/control_plane.rs:648-662 | a new token spends the key |
| Refresh.ControlPlaneClient.Refresh | desktop/src-tauri/src/control_plane.rs:424-452 | what an attempt sends, and the client it leaves for every kind of answer |
| Refresh.Judge | engine/lowlat/crates/signal-server/src/control_plane.rs:735-871 | a request consumes only a live, unexpired token: its own, or the unused successor of the retired one it shows |
| Refresh.PresentKeepsServer | engine/lowlat/crates/signal-server/src/control_plane.rs:735-908 | no token is ever live and retired, and none changes its issuer |
| Refresh.PresentKeepsChain | engine/lowlat/crates/signal-server/src/control_plane.rs:735-871 | any request but a stranding one leaves a retired token's successor live, unused and unknown to the client |
| Refresh.KeysNeverCross | desktop/src-tauri/src/control_plane.rs:315-452 | over every run, requests with one key are one request sent again and again, with nothing else between them and none answered before the last |
| Refresh.StrandedIff | desktop/src-tauri/src/control_plane.rs:424-452 | exactly which steps leave the client with a token retired under another key: a refusal ahead of the refresh while its token is retired, and a late request that consumes its token |
| Refresh.RetiredOnlyUnderItsKey | desktop/src-tauri/src/control_plane.rs:315-323 | in every run a retired token that the client holds is presented under the key it was retired under if and only if no step has stranded the client since it last came by its credentials |
| Refresh.RetryOutcome | engine/lowlat/crates/signal-server/src/control_plane.rs:846-871 | a retry is granted if and only if it comes within 15 minutes of the rotation, and condemns the sign-in if and only if later |
| Refresh.LostRepliesAreHarmless | engine/lowlat/crates/signal-server/src/control_plane.rs:735-871 | the same at the end of every run in which no step has stranded the client since it last came by its credentials, however many replies are lost |
| Refresh.TokensStayHome | desktop/src-tauri/src/control_plane.rs:364-374 | over every run a token is sent only to the origin that issued it |
| Refresh.RenewalIsSound | desktop/src-tauri/src/control_plane.rs:367-422 | a sign-in, a clearing and a move to another origin end any stranding |
| Refresh.StrandingIsFatal | engine/lowlat/crates/signal-server/src/control_plane.rs:750-776 | in every run, once stranded and until it comes by new credentials, whatever happens in between, a client's attempt condemns the sign-in if the tombstone stands and is refused if not |
| Refresh.TurnedAwayStrands | engine/lowlat/crates/signal-server/src/main.rs:1958-1969 | one lost reply and one spent renewal budget lead there |
| Refresh.LateStrands | engine/lowlat/crates/signal-server/src/control_plane.rs:750-776 | so does a request that arrives after its own retry was answered |
| SignIns.PresentEffect | engine/lowlat/crates/signal-server/src/control_plane.rs:735-908 | what each verdict does to live and retired tokens, one by one |
| SignIns.OneLiveTokenPerSignIn | engine/lowlat/crates/signal-server/src/control_plane.rs:1414-1480 | whoever asks, a sign-in never has two live refresh tokens, and every token lasts thirty days from its issue and stays with its sign-in |
| SignIns.CondemnedForGood | engine/lowlat/crates/signal-server/src/control_plane.rs:889-908 | after a replay no token of that sign-in is live, every other is as it was, and nothing that descends from it is ever live again, whatever is asked later |
| SignIns.ReplayIsCaught | engine/lowlat/crates/signal-server/src/control_plane.rs:750-776 | a retired token shown under any key but its own condemns its sign-in |
| SignIns.StrangeOrigin | engine/lowlat/crates/signal-server/src/control_plane.rs:735-815 | a token means nothing to a server that did not issue it |
| SignIns.RotatedOnce | engine/lowlat/crates/signal-server/src/control_plane.rs:780-813 | a token that was consumed is never live again |

## Left out

- The video view's pending queue: the audio sink's protocol with two places and no ceiling, so only easier members.
- Converting samples to floating point, and every call into AVFoundation, VideoToolbox, CoreMedia and PulseAudio beyond whether it succeeds.
- File permissions, symbolic links, atomic writes and removal failures of the session's files: a credential file is there or not, and removing it succeeds.
- Signals and process groups: a container holds a number of live processes, which fork and die at any time, and an empty one stays empty.
- Error texts, event payloads, snapshots, diagnostics and settings, here and in the host's reports.
- HTTP, URL and origin validation, and the access token and its expiry.
- The server's caps on live and retired tokens, its device trust check inside a refresh, a failing store, and failing to draw a random key.
- The capture thread's start-up report and the device name it publishes; which device a stream lands on is left open.
- LocalMute.Serve: a capture whose session or stream never opens returns before it touches the speakers, and is not a case of the model.
- A target with neither process groups nor job objects: a launch that cannot be contained leaves nothing running, as on Unix and Windows.
- Rendering, adapters, the C header, fuzz targets and scripts.
