# Verified model of the device client's protocols and state machines

The repository drives Android phones: a TypeScript client on the device runs
AutoJS scripts, lends the screen to a browser, routes traffic, and reads the
UI tree. This project models its stateful core in Dafny and proves what it
promises over all inputs and all runs. Where the source changes state step by
step the model has a class or a loop with the same steps, proved equal to a
specification function; the results are lemmas about runs of that function.

**Publishing (`TikTokLedger`, `TikTokPolicy`, `PublishOutcomes`, `PublishDecisions`,
`PublishProtocol`, `PublishSteps`, `LedgerFleet`, `PublishLedger`, `UnsafeCatches`,
`PublishLosses`).** The script announces that it is about to
press Post and waits; the client writes that to the ledger on disk and only then
answers. The world is a client process that may die and come back, executions
that start, throw and end, any number of script instances, one ledger object per
prepared task over the same two files with saves that may stop half-way, and the
checkpoint and acknowledgement files. In every interleaving the Post tap for one
publication happens at most once, after the commit is on disk, provided that two
catches of the client are safe when they fire. A reported launch failure is safe
when its task is still active, or nothing of the report is saved, or its ledger
object holds every commit of the files. A thrown execution is safe exactly when no
other execution is on its way. The source checks neither: `UnsafeCatches` has, for
each of the two, a run from empty files that posts one publication twice, and says
exactly when a report keeps the journal. `PublishLosses` lets the main ledger file
go at any moment: the same holds as long as each loss leaves all commits in the
backup, and a run without any unsafe catch posts twice when one does not. `LedgerFleet` follows the objects and the files
over any interleaving, stale saves included; `PublishLedger` proves that every
run of the world is such an interleaving and carries the results over.
`PublishDecisions` is the decision table of a task, `PublishSteps` says exactly when
a script is answered, and `PublishOutcomes` what a record holds after each kind of
mark, checkpoint and result.

**Remote session (`RemoteSession`, `RemoteSessionSafety`, `RemoteSessionResults`,
`RemoteSessionData`, `RemoteSessionControl`, `RemoteSessionRuns`,
`RemoteSessionRecovery`, `RemoteSessionSidecar`, `RemoteSessionPeer`).** One lease as a machine over
relay messages, sidecar callbacks, the local socket and a timer, with a trace
of what arrived and what was written. Control frames keep one transport per
local socket and their order, device frames are first-in first-out across the
switch from P2P to the relay, the switch happens at most once, and signaling
is numbered without gaps while the lease is open. What the rest of the stretch that
closes a lease still sends is modelled as well: there frames and numbers may be
skipped, and it is stated exactly when. `RemoteSessionPeer` is the lease as an object with the
source's own fields, and serves any sequence of callbacks with these guarantees.
`RemoteSessionData` and `RemoteSessionControl` say for each frame and each message
exactly what becomes of it and when it closes the lease; `RemoteSessionRuns` and
`RemoteSessionRecovery` prove that leases work: whatever the contents, times and
candidates are, a lease over the relay or P2P delivers every frame both ways, and a
recovery loses none of those the device sends meanwhile.
`RemoteSessionSidecar` says exactly which step leaves a lease on P2P without a
sidecar, that no other step of a run does, and gives a run that does.

**Framing (`IpcRecords`, `ChunkFraming`, `ChunkAssembler`, `ChunkChecks`, `Transparency`).**
Length-prefixed records between the TypeScript client and the Go sidecar, and
20-byte-header chunks with a timer race. The reader works on the pieces the pipe
delivers and finds the same records for every cutting; frames come out at the far
end as they went in, whatever payload size is used; the assembler's story stays
well formed for arbitrary bytes, clocks and timer callbacks. `ChunkChecks` says
which bytes are a chunk, and what one push of any bytes leaves behind.

**Routing (`Ipv4Cidr`, `RoutingRules`, `RoutingMeaning`, `RoutingManager`,
`RoutingOutcomes`, `RoutingTruth`).**
A policy and a network snapshot become `ip rule` commands. First-match lookup
over the compiled rules is the policy, a script that stops after any command
can still be cleared, rules of others never change, and the manager's apply,
disable, restore and repair keep this over every run. The check accepts a rule list
exactly when every compiled slot is filled, `RoutingOutcomes` has the answer and the
saved state of each operation whatever fails on its way, and `RoutingTruth` says for
each operation exactly when the status ACTIVE keeps meaning installed rules.
Blocks follow section 3.1 of RFC 4632.

**Scheduler (`TaskQueue`, `Scheduler`, `SchedulerOutcomes`).** The in-place queue against an
abstract priority queue, and the client's module-level variables: one user of
the device in every reachable state, as long as no execution throws while another
task is starting. An execution is known by its arrival, because an id may come
again. Whatever starts is the best of those waiting, and a waiting task leaves the
queue only by being started, cancelled, evicted or caught by a deployment.

**UI hierarchy (`UiHierarchy`, `UiRoundTrip`, `UiScanner`, `UiTarget`, `UiBounds`).** A
hand-written XML scanner with entities, limits and a stack: printing a forest
(sections 3.1 and 4.6 of XML 1.0) and scanning it gives it back, everything
accepted is a tree in preorder, a target is found exactly when a visible
node covers the point, and it is the nearest ancestor of the deepest such node that
takes the tap.

**Two smaller machines.** `AdbKeyboard` restores the input method after a crash
anywhere; `UpgradeAdmission` bounds WebSocket upgrades per address.

`Common` holds the value types the modules share. `dafny verify dfyconfig.toml`
checks the whole project.

## Results about the code worth knowing

- A late launch failure can undo the journal and lead to a second post
  (`mobile/src/client.ts:2071-2080`).
- An execution that throws late clears the starting flag of whichever task is
  starting: a second task runs beside it, and two tasks can post the same
  publication (`mobile/src/client.ts:2097-2108`).
- Losing the main ledger file right behind the COMMITTING mark loses the mark: after
  a restart the publication is posted again (`mobile/src/tiktok-ledger.ts:177-188`).
- A device frame that does not fit closes the lease while it is drained, and a
  smaller one behind it is sent all the same
  (`mobile/src/remote-session-peer.ts:441-465` and `1150-1198`). An answer that is
  refused closes the lease too, and the candidates behind it go out without it
  (`mobile/src/remote-session-peer.ts:755-772`).
- An open lease can stay on P2P without a sidecar
  (`mobile/src/remote-session-peer.ts:972-979`).
- `10.0.0.0/7` and `192.168.0.0/13` pass as private blocks: only the base
  address is checked (`mobile/src/network-routing.ts:153-167`).
- A disable that fails behind its script leaves the status active over an
  empty rule range, and a repeated apply then answers SUCCESS without looking
  (`mobile/src/network-routing.ts:1038-1044` and `1210-1236`). An unsaved
  rollback, a drift check that renews the status over rules that only pass the
  check, and a crash inside a script break it as well.
- The check behind an apply does not look at the IPv6 rules of the bound
  interfaces (`mobile/src/network-routing.ts:843-850`).
- The decoder drops complete records that precede an invalid length in the
  same chunk (`mobile/src/rtc-sidecar-client.ts:116-136`).
- A device without a default input method does not get its settings back: the
  reset picks one (`mobile/src/adb-keyboard.ts:342-374`).

## Model

| member | source | states |
|---|---|---|
| PublishProtocol.AtMostOneTap | mobile/src/client.ts:1927-2001 | In every interleaving of starts, scripts, polls, reviews, throws, crashes, restarts and saves cut short whose catches are safe when they fire, every Post tap is for a publication the files hold at COMMITTING or later, and no two taps are for the same publication |
| PublishProtocol.TappedIsNeverPublishedAgain | mobile/src/tiktok-policy.ts:1051-1075 | Once tapped, no later request for that publication is prepared with the action publish |
| PublishProtocol.RunKeepsInv | mobile/src/client.ts:1601-2108 | Over every such run: each task cleared to post is journaled, no two cleared tasks share a publication, acknowledgements and cleared scripts trace back to a clearance, checkpoints belong to their own publication, one execution at a time, and the ledger object in use holds every clearance |
| PublishProtocol.ScriptStepKeepsInv | mobile/task-scripts/tiktok_post_v2.js:2461-2513 | The script's own steps - checkpoint, wait for the acknowledgement, tap, SUBMITTED - keep that invariant |
| PublishProtocol.PollKeepsInv | mobile/src/client.ts:1927-1996 | One poll keeps it: an acknowledgement of COMMITTING or SUBMITTED is written only behind two completed saves, also when a review defers or rejects it |
| PublishProtocol.MarkIsJournaled | mobile/src/tiktok-policy.ts:1141-1160 | A phase mark that returns without an error is in the files, not only in memory |
| PublishProtocol.PrepareKeepsInv | mobile/src/tiktok-policy.ts:959-1138 | A task prepared to publish is for a publication nobody was cleared for |
| PublishProtocol.LaunchFailureKeepsInv | mobile/src/client.ts:2071-2080 | The launch catch keeps the invariant when its task is still active, or it saves nothing, or its ledger object holds every commit of the files |
| PublishProtocol.EndKeepsInvIff | mobile/src/client.ts:2097-2108 | The catch around an execution keeps the invariant if and only if no other execution is on its way |
| PublishProtocol.LossKeepsJournalIff | mobile/src/tiktok-ledger.ts:177-187 | Losing the main file right behind a save keeps every commit if and only if the save brought no new one |
| PublishProtocol.SafeLossKeepsInv | mobile/src/tiktok-ledger.ts:177-187 | A loss that keeps the commits keeps the protocol's invariant |
| UnsafeCatches.LaunchFailureKeepsJournalIff | mobile/src/client.ts:2071-2080 | For every world: a reported launch failure keeps every commit of the files if and only if it saves nothing, or the ledger object of the failing task already held them all |
| UnsafeCatches.LateLaunchFailurePostsTwice | mobile/src/client.ts:2055-2080 | A concrete run from empty files that posts one publication twice because a launch failure comes late |
| UnsafeCatches.LateExecutorErrorPostsTwice | mobile/src/client.ts:2071-2108 | Another one: a launch fails while a second task is preparing, the report of that failure throws, and a third task starts beside the second |
| PublishLosses.AtMostOneTapDespiteLosses | mobile/src/tiktok-ledger.ts:177-188 | With losses of the main file anywhere in the run, each of which leaves every commit in the backup, every tap is still journaled and no two are for the same publication |
| PublishLosses.LostMarkPostsTwice | mobile/src/tiktok-ledger.ts:177-188 | A concrete run without any unsafe catch: a post, the loss of the main file right behind its COMMITTING mark, a restart, and a second post of the same publication |
| PublishSteps.EditorReadyIsAnsweredIff | mobile/src/client.ts:1944-1957 | The editor checkpoint is acknowledged if and only if its evidence could be merged and saved and then covers the requested settings |
| PublishSteps.MarkIsAnsweredIff | mobile/src/client.ts:1958-1996 | COMMITTING and SUBMITTED are acknowledged if and only if the mark is saved (or was before) and a commit's review accepts; a deferred review is waited for, a rejected one remembered |
| PublishSteps.ReviewIsAnsweredIff | mobile/src/client.ts:1990-1993 | The end of a deferred review clears the task if and only if it accepts and no cleanup has begun |
| PublishSteps.LaunchFailureCleansUp | mobile/src/client.ts:2071-2080 | A failed launch also begins the cleanup of whichever task is active, and acknowledges nothing |
| PublishSteps.CleanupFrees | mobile/src/client.ts:1161-1200 | The end of a cleanup frees the slot and takes along the files of that task only |
| PublishSteps.ScriptWrites | mobile/task-scripts/tiktok_post_v2.js:2461-2513 | A publishing script writes each of its three checkpoints in its turn only, for its own publication |
| PublishSteps.ScriptWaits | mobile/task-scripts/tiktok_post_v2.js:2461-2513 | It goes on if and only if the acknowledgement of its own phase is there, and taps once when it was cleared |
| PublishDecisions.StatusDecision | mobile/src/tiktok-policy.ts:971-988 | STATUS is answered if and only if the record is known and, where settings or a hash are concerned, asked for by its account with the same ones; no script, no save |
| PublishDecisions.RecoverDecision | mobile/src/tiktok-policy.ts:989-1013 | RECOVER is accepted if and only if the record is known, belongs to the account and is repeated faithfully; a confirmed link is answered without a script |
| PublishDecisions.PreflightDecision | mobile/src/tiktok-policy.ts:1015-1038 | PREFLIGHT is accepted if and only if the hash holds and, with captions, media and a caption have rested; nothing is saved |
| PublishDecisions.RepeatDecision | mobile/src/tiktok-policy.ts:1051-1075 | PUBLISH of a known identifier is accepted for the same request only and not under review; before its commit it is resumed, behind it (or after an unknown outcome with settings) recovered, with a confirmed link answered without a script |
| PublishDecisions.NewDecision | mobile/src/tiktok-policy.ts:1076-1138 | PUBLISH of a new identifier is accepted if and only if the hash holds, the posting policy allows it, a medium and a caption have rested and the save completes; it then creates exactly one fresh record over such a medium and caption and saves it |
| PublishDecisions.ResultConfirms | mobile/src/client.ts:2001-2010 | A confirming result of the active task leaves its publication in the files at LINK_CONFIRMED, with the post it names |
| PublishDecisions.ConfirmedIsCached | mobile/src/tiktok-policy.ts:1051-1075 | From then on every repeat of the request is answered from the ledger with that post, and no script runs |
| TikTokLedger.PersistIsAtomic | mobile/src/tiktok-ledger.ts:381-387 | A save that stops anywhere reopens as the state just before or just after it |
| TikTokLedger.ReopenFollowsHistory | mobile/src/tiktok-ledger.ts:132-187 | Over any run of saves, saves cut short and losses of the main file, reopening gives the last saved state, and a loss costs at most the last completed save, also after earlier recoveries |
| TikTokLedger.Ledger.constructor | mobile/src/tiktok-ledger.ts:177-188 | A fresh ledger object holds the main file's state, else the backup's, else the empty one |
| TikTokLedger.Ledger.PersistState | mobile/src/tiktok-ledger.ts:381-387 | The previous readable file becomes the backup before the main file is replaced |
| TikTokLedger.Ledger.BeginPublication | mobile/src/tiktok-ledger.ts:211-232 | Creates a record once per identifier, returns the known one for the same request, refuses another request |
| TikTokLedger.Ledger.AdvancePhase | mobile/src/tiktok-ledger.ts:243-288 | Moves a phase forward only, stamps the first commit and submission, and notes the media and caption as used at the first commit |
| TikTokLedger.Ledger.PatchRecord | mobile/src/tiktok-ledger.ts:269-285 | Assigning the patched fields in the source's order gives the specified record |
| TikTokLedger.Ledger.RecordOutcome | mobile/src/tiktok-ledger.ts:299-320 | Sets outcome and error code and saves |
| TikTokLedger.Ledger.SaveCheckpoint | mobile/src/tiktok-ledger.ts:322-351 | Merges the recovery context that is present and saves |
| TikTokPolicy.NewDecisionIsSpaced | mobile/src/tiktok-policy.ts:1076-1123 | A NEW decision is at least the interval after every recorded commit and the reuse times after those of its media and caption, with room left in the day |
| TikTokPolicy.EvaluateMatchesPolicy | mobile/src/tiktok-policy.ts:871-903 | The scan of the records allows a post if and only if every commit is far enough back and fewer than the maximum lie in the day, in whatever order the records are listed |
| TikTokPolicy.SelectIsLeast | mobile/src/tiktok-policy.ts:835-869 | Nothing is selected exactly when no candidate is eligible; otherwise the longest unused eligible one, ties by fingerprint |
| TikTokPolicy.SelectIgnoresOrder | mobile/src/tiktok-policy.ts:835-869 | The choice depends on the candidates as a set |
| TikTokPolicy.PrepareFollows | mobile/src/tiktok-policy.ts:959-1138 | Preparing keeps the ledger, and the files reopen as before or as a state between old and new memory |
| TikTokPolicy.PublishIsNeverRepeated | mobile/src/tiktok-policy.ts:1051-1075 | A script is told to publish only while the files hold no commit for that publication |
| TikTokPolicy.MarkPhaseFollows | mobile/src/tiktok-policy.ts:1141-1170 | Marking COMMITTING or SUBMITTED keeps the ledger and its files in step |
| TikTokPolicy.ApplyCheckpointFollows | mobile/src/tiktok-policy.ts:1171-1210 | So does storing a checkpoint, whatever it contains |
| TikTokPolicy.ApplyScriptResultFollows | mobile/src/tiktok-policy.ts:1229-1348 | So does merging a script result, whatever the script claims and wherever one of its three saves stops |
| TikTokPolicy.MarkPublicationPhase | mobile/src/tiktok-policy.ts:1141-1170 | The operation on the ledger object, with its evidence errors |
| TikTokPolicy.ApplyPublicationCheckpoint | mobile/src/tiktok-policy.ts:1171-1210 | The operation on the ledger object: evidence is validated before anything is saved |
| TikTokPolicy.ApplyPublicationResult | mobile/src/tiktok-policy.ts:1229-1282 | The operation on the ledger object: invalid, mismatched and unverified results, then evidence, baseline and outcome in this order |
| TikTokPolicy.SettlePublicationResult | mobile/src/tiktok-policy.ts:1283-1348 | The rest of it: link confirmed, published without link, or failed before or behind the commit |
| PublishOutcomes.EvidenceIsValidIff | mobile/src/tiktok-policy.ts:346-376 | Evidence is accepted if and only if it is absent, or names exactly the requested settings, was verified since the record exists and not in the future, and does not conflict with stored evidence |
| PublishOutcomes.CoveredIff | mobile/src/tiktok-policy.ts:1146-1151 | A record is free of an evidence error if and only if no settings were asked for or fitting evidence is stored |
| PublishOutcomes.MarkOutcome | mobile/src/tiktok-policy.ts:1141-1170 | A mark is refused exactly for an unknown record, missing evidence or a step back; else the phase is written as PENDING, commit and submission are stamped once, the reuse tables know the first commit, all else stays |
| PublishOutcomes.CheckpointOutcome | mobile/src/tiktok-policy.ts:1171-1210 | A checkpoint is refused exactly for an unknown record or bad evidence; else exactly the well-formed fields it provides are written, the baseline as its well-formed identifiers, each once |
| PublishOutcomes.SettledOutcome | mobile/src/tiktok-policy.ts:1283-1348 | The four endings of a result: with a link the record holds LINK_CONFIRMED, SUCCESS, the post id and both links; without one POST_CONFIRMED and no new link; without evidence an unknown outcome; a failure before the commit FAILURE, behind it an unknown outcome; refused exactly when evidence no longer fits or a confirmed link would be taken back |
| PublishOutcomes.RejectedOutcome | mobile/src/tiktok-policy.ts:1229-1258 | What is no result, belongs to another publication or contract, or carries bad evidence changes only the outcome and the error code, as stated |
| PublishOutcomes.MergedOutcome | mobile/src/tiktok-policy.ts:1229-1348 | Every other result whose saves complete: its evidence and baseline are merged first, then it has one of these endings |
| PublishOutcomes.ImportOutcome | mobile/src/tiktok-ledger.ts:353-378 | The older history is taken in once: the later use wins, records stay, a second import changes nothing |
| LedgerFleet.RunKeepsRecords | mobile/src/tiktok-ledger.ts:211-387 | Any number of ledger objects over the same files, in any interleaving, with restarts, stale saves and saves cut short: in the files and in every object, commit time is set exactly from COMMITTING on, a committed record is not a FAILURE, SUCCESS means LINK_CONFIRMED, LINK_CONFIRMED has a post id and both links, evidence fits its settings and is present once committed |
| LedgerFleet.RunKeepsClock | mobile/src/tiktok-ledger.ts:269-282 | Under a monotone clock no reuse table, in the files or in any object, is behind a commit of that state |
| LedgerFleet.ReportKeepsFilesIff | mobile/src/tiktok-policy.ts:1229-1348 | A result that carries only an outcome lets the files evolve if and only if its object does not know the publication, its save stops, or the object is not behind the files |
| LedgerFleet.RunKeepsFiles | mobile/src/tiktok-ledger.ts:243-351 | While every object that saves is not behind the files, from any point of a run on phases never regress and identity, evidence and commit time are final |
| LedgerFleet.NewestSavesAhead | mobile/src/tiktok-policy.ts:959-1138 | That is the case whenever only the object opened last is used, wherever saves stop |
| LedgerFleet.RunSpacesNewDecisions | mobile/src/tiktok-policy.ts:835-902 | Then a NEW decision keeps the interval and the reuse times from every commit the files held at any point of the run, and the day's commits are within the limit |
| PublishLedger.StepIsFleet | mobile/src/client.ts:1601-2108 | Every step of the publishing protocol is a sequence of ledger operations, each on the object of its own task |
| PublishLedger.RunKeepsRecords | mobile/src/client.ts:1601-2108 | So the files and every task's object are well formed on every run of the protocol, late reports and throws included |
| PublishLedger.LaunchFailureKeepsFilesIff | mobile/src/client.ts:2071-2080 | For every world: a launch report lets the files evolve if and only if it saves nothing or its object is not behind the files |
| PublishLedger.RunKeepsFiles | mobile/src/client.ts:1601-2108 | On every run whose catches are harmless, phases never regress and identity, evidence and commit time are final |
| PublishLedger.RunKeepsClock | mobile/src/client.ts:1601-2108 | Under a clock that runs forwards no reuse table is behind a commit, on every run |
| PublishLedger.RunSpacesNewDecisions | mobile/src/tiktok-policy.ts:835-902 | On every run with harmless catches and such a clock, a NEW decision is spaced from every commit the files ever held |
| RemoteSessionResults.ControlsKeepTheirTransportAndOrder | mobile/src/remote-session-peer.ts:368-432 | Over every run of a lease: what is written to a local socket arrived, in arrival order, each frame at most once and all of one transport; nothing from P2P behind the switch to the relay; the queue has one transport and an exact byte count within 256 KiB |
| RemoteSessionResults.NoControlIsLost | mobile/src/remote-session-peer.ts:529-618 | While the lease is open and no failure was reported, the frames that arrived are exactly those written followed by those queued |
| RemoteSessionResults.DeviceFramesAreFifo | mobile/src/remote-session-peer.ts:441-520 | Frames of the current local socket are, while the lease is open, those sent followed by those queued; those sent are always a subsequence of those received, also behind the closing; the queue is non-empty only while recovering and its byte count is exact and within 8 MiB |
| RemoteSessionResults.TransportSwitchesOnce | mobile/src/remote-session-peer.ts:1080-1198 | The transport history is empty, relay, P2P, or P2P then relay, and agrees with the selection; at most one sidecar is started |
| RemoteSessionResults.SignalingIsOrdered | mobile/src/remote-session-peer.ts:626-703 | Outgoing numbers rise, and while the lease is open they have no gap and candidates follow an answer; after ready or failed only failed follows (so ready comes at most once and never after failed); the sidecar sees one offer at 0 and candidates 1, 2, ... |
| RemoteSessionResults.CandidateWithoutAnswer | mobile/src/remote-session-peer.ts:755-772 | Whenever the answer is refused and a kept candidate is not, the lease closes and the candidate goes out without the answer, behind a gap |
| RemoteSessionSafety.StepKeepsInv | mobile/src/remote-session-peer.ts:282-1198 | Every callback keeps the invariant behind these results |
| RemoteSessionSafety.RunKeepsInv | mobile/src/remote-session-peer.ts:1412-1470 | It holds on every run from a fresh lease |
| RemoteSessionSafety.DrainSends | mobile/src/remote-session-peer.ts:1150-1198 | Draining sends exactly the queued frames the socket takes, in order, and closes the lease if and only if it refuses one |
| RemoteSessionSafety.DrainIsAPrefixIff | mobile/src/remote-session-peer.ts:441-465 | The frames sent are the first ones of the queue if and only if the socket takes none behind one it refused |
| RemoteSessionSafety.SmallerFrameOvertakes | mobile/src/remote-session-peer.ts:441-465 | Of two frames of which only the second fits, the lease closes and the second is sent |
| RemoteSessionData.RelayFrameOutcome | mobile/src/remote-session-peer.ts:529-567 | A frame over the relay to any open lease: in its phase and of 1 byte to 64 KiB it is written to the open local socket, or waits for it, and nothing else changes; it closes the lease if and only if it is out of phase or size, the socket is not writable or not of its transport, or the queue has no room or another transport |
| RemoteSessionData.P2PFrameOutcome | mobile/src/remote-session-peer.ts:576-618 | The same for a frame of the sidecar; out of size, or before P2P is ready, it is reported as a failure of P2P, which closes the lease if and only if it cannot be reported |
| RemoteSessionData.DeviceFrameOutcome | mobile/src/remote-session-peer.ts:497-520 | A device frame to any open lease: over 4 MiB it closes it, while recovering it is held back within 8 MiB, on the relay it is sent if and only if the relay is writable, on P2P it goes to the sidecar or is reported as a failure |
| RemoteSessionData.LocalOpenedOutcome | mobile/src/remote-session-peer.ts:996-1025 | The local socket opens: the queued controls are written in order up to the first refusal; the lease closes if and only if one is refused, they wait for a transport that is not selected, or a recovering lease cannot report |
| RemoteSessionRuns.DataFlows | mobile/src/remote-session-peer.ts:368-618 | A lease that carries data over the relay or P2P delivers any number of frames within the limits, in both directions, in order and once each, and stays as it was |
| RemoteSessionRuns.RelayLeaseDelivers | mobile/src/remote-session-peer.ts:1080-1122 | From a fresh lease, for all times and contents: the relay opens, early frames wait, the relay is selected, the local socket opens, and every frame before and behind that is delivered in order |
| RemoteSessionRuns.P2PLeaseDelivers | mobile/src/remote-session-peer.ts:732-876 | From a fresh lease, for all times, candidates and contents: the sidecar gets the offer and every candidate, its own candidates go out behind the answer and before ready, numbered without a gap, P2P is selected, and every frame is delivered in order |
| RemoteSessionRuns.SelectionClosesIff | mobile/src/remote-session-peer.ts:1080-1122 | The first selection closes an open lease if and only if it comes twice, without time left or extending the lease, against queued frames, or for P2P that is not ready and did not fail behind its report |
| RemoteSessionRuns.SignalClosesIff | mobile/src/remote-session-peer.ts:936-980 | A signal closes an open lease with its sidecar if and only if it is not the next one of the attempt, or the sidecar refuses it and that cannot be reported |
| RemoteSessionRecovery.RecoveryDelivers | mobile/src/remote-session-peer.ts:1150-1198 | From every reachable lease on P2P, whether the loss was noticed first or not: the frames the device sends during the recovery reach the relay in order, no control is lost or repeated, and the lease carries data over the relay |
| RemoteSessionRecovery.LeaseSurvivesP2P | mobile/src/remote-session-peer.ts:732-1198 | A whole lease from its opening: P2P negotiated and used, a recovery with frames meanwhile, the relay used; every control reached the device once and in order over the transport it came by, and no frame of the second socket is missing |
| RemoteSessionRecovery.SilentLossIsReported | mobile/src/remote-session-peer.ts:838-862 | A sidecar that stays disconnected until the timer fires counts as gone |
| RemoteSessionRecovery.ShortLossIsForgiven | mobile/src/remote-session-peer.ts:824-862 | One that is back in time leaves the lease on P2P |
| RemoteSessionControl.TextOutcome | mobile/src/remote-session-peer.ts:1207-1262 | Which messages each protocol version has, and that all others, errors, and a start outside the lease's time end the lease |
| RemoteSessionControl.StartOutcome | mobile/src/remote-session-peer.ts:732-813 | A second attempt ends the lease; the first has a sidecar and fresh numbers, or reports its failure as signal 0 |
| RemoteSessionControl.CandidateOutcome | mobile/src/remote-session-peer.ts:773-795 | A candidate of the sidecar is sent behind the answer, kept back before it up to 128, and a failure of P2P beyond |
| RemoteSessionControl.ReadyOutcome | mobile/src/remote-session-peer.ts:824-836 | Readiness is noted and reported once while nothing is selected |
| RemoteSessionControl.DisconnectedOutcome | mobile/src/remote-session-peer.ts:837-846 | A disconnection starts the timer exactly on the P2P path, or between the report and the selection |
| RemoteSessionControl.GoneOutcome | mobile/src/remote-session-peer.ts:864-876 | A sidecar that is gone freezes a lease on P2P for its recovery, gives P2P up before a selection, and closes the lease if and only if that cannot be reported |
| RemoteSessionControl.TimeoutOutcome | mobile/src/remote-session-peer.ts:847-860 | The timer does the same, and nothing once the relay was selected |
| RemoteSessionControl.LateSignalIsCounted | mobile/src/remote-session-peer.ts:940-952 | A candidate behind a reported failure is counted and dropped; any other signal without a sidecar ends the lease |
| RemoteSessionControl.SelectionAwaits | mobile/src/remote-session-peer.ts:1080-1122 | Selecting P2P that failed behind its report waits for the recovery with nothing selected |
| RemoteSessionControl.UnexpectedRecoveryEnds | mobile/src/remote-session-peer.ts:1154-1184 | A recovery of a lease that is not on P2P, or a commit before the new socket is bridged, ends the lease |
| RemoteSessionSidecar.P2PKeepsItsSidecarIff | mobile/src/remote-session-peer.ts:936-980 | On P2P with a live sidecar, one step leaves an open lease without one if and only if the sidecar refuses the next expected signal, or it lacks its body, and the report still goes out |
| RemoteSessionSidecar.NewP2PHasASidecar | mobile/src/remote-session-peer.ts:1080-1119 | Whatever the state, a step that newly selects P2P finds a sidecar |
| RemoteSessionSidecar.RunKeepsItsSidecar | mobile/src/remote-session-peer.ts:936-980 | On every run an open lease on P2P has its sidecar, unless one of the steps above lost it |
| RemoteSessionSidecar.P2PWithoutSidecar | mobile/src/remote-session-peer.ts:972-979 | A run of seven steps to an open lease on P2P without a sidecar |
| RemoteSessionPeer.Serve | mobile/src/remote-session-peer.ts:996-1330 | The object, from a fresh lease through any sequence of callbacks, ends where the machine's run ends: its controls are ordered and of one transport, complete, its device frames first-in first-out, its switch unique, its signaling ordered |
| RemoteSessionPeer.RemoteSessionPeer.Handle | mobile/src/remote-session-peer.ts:755-1330 | One callback on the object's own fields is one step of the machine |
| RemoteSessionPeer.RemoteSessionPeer.constructor | mobile/src/remote-session-peer.ts:1436-1463 | A fresh lease |
| RemoteSessionPeer.RemoteSessionPeer.CloseActive | mobile/src/remote-session-peer.ts:282-313 | Closing happens once and empties both queues |
| RemoteSessionPeer.RemoteSessionPeer.SendP2P | mobile/src/remote-session-peer.ts:626-703 | Takes the next number, then sends; without an attempt or beyond the last number the lease closes |
| RemoteSessionPeer.RemoteSessionPeer.QueueControl | mobile/src/remote-session-peer.ts:374-406 | Queues a control unless the transport differs or the bytes exceed the limit |
| RemoteSessionPeer.RemoteSessionPeer.Forward | mobile/src/remote-session-peer.ts:368-432 | Writes to the local socket, queues before it is open, closes on the wrong transport |
| RemoteSessionPeer.RemoteSessionPeer.HandleRelayBinary | mobile/src/remote-session-peer.ts:529-570 | A relay frame before and after pairing, with its size bounds |
| RemoteSessionPeer.RemoteSessionPeer.HandleSidecarBinary | mobile/src/remote-session-peer.ts:576-618 | A P2P frame before and after pairing, with its size bounds |
| RemoteSessionPeer.RemoteSessionPeer.ForwardToRelay | mobile/src/remote-session-peer.ts:441-465 | Sends a device frame to the relay when it is selected and writable |
| RemoteSessionPeer.RemoteSessionPeer.HandleLocalBinary | mobile/src/remote-session-peer.ts:497-520 | A device frame while recovering, on the relay and on P2P |
| RemoteSessionPeer.RemoteSessionPeer.HandleStartP2P | mobile/src/remote-session-peer.ts:732-811 | At most one attempt, with the two ways of failing to start |
| RemoteSessionPeer.RemoteSessionPeer.HandleLocalDescription | mobile/src/remote-session-peer.ts:755-772 | The answer first, then the candidates kept back, in a loop |
| RemoteSessionPeer.RemoteSessionPeer.HandleIceCandidate | mobile/src/remote-session-peer.ts:773-796 | Keeps candidates back until the answer, up to 128 |
| RemoteSessionPeer.RemoteSessionPeer.HandleSidecarState | mobile/src/remote-session-peer.ts:820-869 | Ready is reported once; a disconnection starts a timer; failed and closed report |
| RemoteSessionPeer.RemoteSessionPeer.HandleDisconnectTimeout | mobile/src/remote-session-peer.ts:847-860 | The timer reports a failure before or behind the selection |
| RemoteSessionPeer.RemoteSessionPeer.ReportInitialP2PFailure | mobile/src/remote-session-peer.ts:878-900 | Reported once; drops queued P2P controls and the sidecar |
| RemoteSessionPeer.RemoteSessionPeer.ReportActiveP2PFailure | mobile/src/remote-session-peer.ts:905-927 | Freezes the lease: no selection, no local socket, empty queues |
| RemoteSessionPeer.RemoteSessionPeer.HandleP2PSignal | mobile/src/remote-session-peer.ts:936-980 | Accepts only the next signal of the attempt; counts late ones after a failure |
| RemoteSessionPeer.RemoteSessionPeer.ConnectLocalScrcpy | mobile/src/remote-session-peer.ts:988-995 | Opens at most one local socket at a time |
| RemoteSessionPeer.RemoteSessionPeer.HandleLocalOpened | mobile/src/remote-session-peer.ts:996-1034 | Flushes the queue until one write closes the lease, then reports readiness when recovering |
| RemoteSessionPeer.RemoteSessionPeer.ApplyEffectiveExpiry | mobile/src/remote-session-peer.ts:1124-1145 | A lease is shortened, never extended |
| RemoteSessionPeer.RemoteSessionPeer.SelectInitialTransport | mobile/src/remote-session-peer.ts:1080-1119 | The first selection, or waiting for a recovery when P2P failed after ready |
| RemoteSessionPeer.RemoteSessionPeer.HandleRecoveryRequested | mobile/src/remote-session-peer.ts:1150-1174 | A recovery freezes an active P2P lease and opens a new local socket |
| RemoteSessionPeer.RemoteSessionPeer.HandleRecoveryCommitted | mobile/src/remote-session-peer.ts:1175-1198 | The relay takes over and gets the queued frames in order, in a loop |
| RemoteSessionPeer.RemoteSessionPeer.HandleRelayText | mobile/src/remote-session-peer.ts:1207-1262 | Dispatch of relay messages by protocol version |
| IpcRecords.EncodeRecord | mobile/src/rtc-sidecar-client.ts:92-104 | The frame filled in place is length, type, payload; larger payloads are refused |
| IpcRecords.RecordDecoder.Push | mobile/src/rtc-sidecar-client.ts:107-136 | The loop over the pending bytes returns the complete records and keeps the rest; an invalid length throws |
| IpcRecords.ParseAppend | mobile/src/rtc-sidecar-client.ts:116-136 | Parsing a stream in two parts is parsing it at once |
| IpcRecords.CutsDoNotMatter | mobile/src/rtc-sidecar-client.ts:116-136 | With valid lengths neither records nor residue depend on how the stream is cut |
| IpcRecords.CutsDoNotMatterIff | mobile/src/rtc-sidecar-client.ts:116-136 | For every stream: cutting is invisible if and only if no invalid length stands behind a complete record |
| IpcRecords.DeliveredIsAPrefix | mobile/src/rtc-sidecar-client.ts:116-136 | Whatever the lengths are, delivered records are a prefix of the stream's records |
| IpcRecords.PipeReader.ReadFull | mobile/rtc-sidecar/ipc.go:37-51 | Reading a full buffer over arbitrary pieces, with the two end-of-input errors |
| IpcRecords.PipeReader.ReadRecord | mobile/rtc-sidecar/ipc.go:37-51 | One record off the head of the stream, or the error |
| IpcRecords.PipeReader.ReadAllRecords | mobile/rtc-sidecar/main.go:20-60 | The read loop over the pieces finds exactly the records of the flattened stream, and ends with its error |
| IpcRecords.EveryCutReadsTheSame | mobile/rtc-sidecar/ipc.go:37-51 | Reading record by record over the pieces, for every cutting, gives the records of the stream |
| IpcRecords.TakeCuts | mobile/rtc-sidecar/ipc.go:37-51 | Taking bytes over pieces cuts the stream, and comes up short only at its end |
| IpcRecords.ReadersAgree | mobile/rtc-sidecar/ipc.go:37-51 | The Go reader and the TypeScript decoder find the same records in every stream, also a broken one |
| IpcRecords.RoundTrip | mobile/rtc-sidecar/ipc.go:53-77 | Decoding the concatenation of encoded records gives them back and leaves nothing |
| ChunkFraming.Chunker.Split | mobile/rtc-sidecar/chunk.go:66-110 | Succeeds exactly on non-empty content within bounds while ids last; the chunks are the specified cut and the id is used up |
| ChunkFraming.RunKeepsInv | mobile/rtc-sidecar/chunk.go:112-226 | After any pushes, clock readings, timer callbacks and closing, the log of every assembly is well formed |
| ChunkFraming.MessagesAreWhatWasAbsorbed | mobile/rtc-sidecar/chunk.go:165-186 | A returned message is the gap-free concatenation of the payloads absorbed since its START, also one absorbed with a refused END, and ids count up from 0 |
| ChunkFraming.AssembliesEndOnce | mobile/rtc-sidecar/chunk.go:188-226 | An assembly ends at most once - completed, expired, timed out or dropped - and nothing happens to it afterwards |
| ChunkFraming.StaleTimersAreHarmless | mobile/rtc-sidecar/chunk.go:188-207 | A callback of a timer whose assembly ended, or is not the newest, changes nothing |
| ChunkFraming.ReturnedIsLogged | mobile/rtc-sidecar/chunk.go:180-186 | The message a push returns is the one it completed |
| ChunkAssembler.Assembly.Copy | mobile/rtc-sidecar/chunk.go:169-170 | Copies a payload behind what the buffer already holds |
| ChunkAssembler.ChunkAssembler.Push | mobile/rtc-sidecar/chunk.go:112-186 | The object with its buffer does what the specification says, check by check |
| ChunkAssembler.ChunkAssembler.Absorb | mobile/rtc-sidecar/chunk.go:165-186 | The part behind the START handling |
| ChunkAssembler.ChunkAssembler.StartTimerLocked | mobile/rtc-sidecar/chunk.go:188-207 | A new timer has a generation no earlier one had |
| ChunkAssembler.ChunkAssembler.CancelTimerLocked | mobile/rtc-sidecar/chunk.go:209-215 | Cancelling outdates the running timer |
| ChunkAssembler.ChunkAssembler.TimerFired | mobile/rtc-sidecar/chunk.go:188-207 | The callback acts only for its own generation |
| ChunkAssembler.ChunkAssembler.Close | mobile/rtc-sidecar/chunk.go:217-226 | Closing drops the assembly once |
| Transparency.PushMessage | mobile/rtc-sidecar/chunk.go:66-186 | The chunks of one message, pushed before the timeout, give exactly this message and no refusal |
| Transparency.TransmitDelivers | mobile/rtc-sidecar/peer.go:213-238 | So do the chunks of any sequence of messages out of one chunker, each with its own payload size; chunker and assembler stay on the same id |
| Transparency.SenderCountsUp | mobile/rtc-sidecar/chunk.go:76-84 | Message ids are 0, 1, 2, ... and stop for good after 2^32 messages |
| Transparency.EndToEnd | mobile/rtc-sidecar/peer.go:213-238 | Frames of 1 byte to 4 MiB, encoded, cut into any pieces, read piece by piece, split by one chunker and pushed in time come out as the same sequence with nothing refused |
| Transparency.DecoderDelivers | mobile/src/rtc-sidecar-client.ts:107-136 | In the other direction the decoder delivers what was written, however it is cut |
| ChunkChecks.WellFormedIff | mobile/rtc-sidecar/chunk.go:117-144 | The checks let pass exactly the bytes of some chunk: signature, version, flags and bounds as the sender writes them |
| ChunkChecks.HeaderBytes | mobile/rtc-sidecar/chunk.go:94-104 | The first eight bytes of every chunk, with the flags of START and END |
| ChunkChecks.BigEndian | mobile/rtc-sidecar/chunk.go:99-103 | Four bytes stand for a number, the most significant first, and each number has one such form |
| ChunkChecks.PushOutcome | mobile/rtc-sidecar/chunk.go:117-184 | Every push of every byte string: refused without a trace unless it is a chunk that continues exactly where the message stands; a stale assembly is dropped; else the payload is taken in, and the message comes out exactly when it is complete and END is set |
| ChunkChecks.TimerDropsItsAssembly | mobile/rtc-sidecar/chunk.go:186-207 | The running timer drops its assembly, and the next message is still expected under its id |
| Ipv4Cidr.BlockIsRange | mobile/src/network-routing.ts:178-193 | The 32-bit mask test is membership in the address range of the canonical block |
| Ipv4Cidr.NonCanonicalMatchesNothing | mobile/src/network-routing.ts:178-193 | A block that is not canonical contains no address |
| Ipv4Cidr.CanonicalIsMultiple | mobile/src/network-routing.ts:144-167 | An address passes the canonical check exactly when it is a multiple of the block size |
| Ipv4Cidr.AcceptedIff | mobile/src/network-routing.ts:153-167 | A block is accepted if and only if its base is a multiple of its size inside 10/8, 172.16/12 or 192.168/16 |
| Ipv4Cidr.WhollyPrivateIff | mobile/src/network-routing.ts:153-167 | An accepted block is wholly private if and only if its prefix is at least 8, 12 or 16, by its base address |
| Ipv4Cidr.TooWideBlocksAreAccepted | mobile/src/network-routing.ts:153-167 | 10.0.0.0/7 and 192.168.0.0/13 are accepted and are too wide |
| RoutingRules.BuildApplyCommand | mobile/src/network-routing.ts:932-996 | The growing command list with its moving priorities is the specified script |
| RoutingRules.AddBoundRules | mobile/src/network-routing.ts:943-954 | Appends the rules of a bound interface |
| RoutingRules.AddManagementRules | mobile/src/network-routing.ts:955-960 | Appends the management routes at consecutive priorities, in a loop |
| RoutingRules.AddLanRules | mobile/src/network-routing.ts:961-974 | Appends the LAN blocks at consecutive priorities, in a loop |
| RoutingRules.AddTargetCommands | mobile/src/network-routing.ts:975-994 | Appends the default rules, the unreachable table when the target has no IPv6 default, and the default network |
| RoutingRules.ForeignRulesStay | mobile/src/network-routing.ts:908-996 | Whatever managed commands ran, and however far, the rules outside the managed priorities are exactly what they were |
| RoutingMeaning.ClearingLeavesForeignRules | mobile/src/network-routing.ts:908-930 | With at most one rule per managed slot, clearing leaves exactly the foreign rules |
| RoutingMeaning.ApplyInstallsCompiled | mobile/src/network-routing.ts:932-996 | A completed script leaves the foreign rules followed by the compiled ones |
| RoutingMeaning.CompiledAscends | mobile/src/network-routing.ts:932-996 | Compiled rules have ascending priorities per family, all managed: 32 management and 16 LAN slots do not collide |
| RoutingMeaning.StoppedScriptsStayClearable | mobile/src/network-routing.ts:908-996 | After any prefix of the script each managed slot holds at most one rule and foreign rules are unchanged |
| RoutingMeaning.BlockTableIsSetIff | mobile/src/network-routing.ts:975-990 | The unreachable IPv6 route is set exactly when there is a target without an IPv6 default |
| RoutingMeaning.CompiledMeansPolicy | mobile/src/network-routing.ts:932-996 | For every packet, lookup by priority is: bound interface, else management route, else LAN to Wi-Fi, else target, with IPv6 to the unreachable table when needed |
| RoutingMeaning.AppliedKernelFollowsPolicy | mobile/src/network-routing.ts:932-996 | So does the kernel after a completed script, unless a foreign rule that matches comes first |
| RoutingMeaning.AppliedIsAccepted | mobile/src/network-routing.ts:829-906 | The check after applying accepts what the compiler installs on the same snapshot |
| RoutingMeaning.CheckIgnoresBoundV6 | mobile/src/network-routing.ts:843-906 | For all rules, the check gives the same answer without the IPv6 rules of the bound interfaces |
| RoutingMeaning.AcceptedWithoutBoundV6 | mobile/src/network-routing.ts:843-906 | So for every policy and every Wi-Fi network with an IPv6 table there is an accepted rule list that has no rule for a forwarded packet the policy sends to that table |
| RoutingMeaning.AcceptsIff | mobile/src/network-routing.ts:829-906 | The check accepts a rule list if and only if the slot of every compiled rule, the IPv6 rules of the bound interfaces aside, holds a rule with its table, interface and destination, and a policy without a target finds no default rule |
| RoutingMeaning.MissingRuleIsNoticed | mobile/src/network-routing.ts:829-906 | A list without any rule in such a slot, or with none of its table there, is not accepted |
| RoutingManager.RunKeeps | mobile/src/network-routing.ts:1010-1372 | Over every run with failures and crashes anywhere: the generation never goes back, foreign rules never change, memory and file agree, managed slots stay single |
| RoutingManager.OneSuccessPerGeneration | mobile/src/network-routing.ts:1023-1044 | No generation reports SUCCESS for two different policies, or both applied and disabled |
| RoutingManager.RolledBackRestores | mobile/src/network-routing.ts:1107-1166 | A failed apply that rolled back leaves generation and policy as they were and the managed rules as compiled from the earlier policy, or none |
| RoutingManager.SuccessMeansInstalled | mobile/src/network-routing.ts:1046-1107 | A new policy reported successful has exactly its compiled rules installed and passed the check |
| RoutingManager.FailedDisableKeepsStatusNotRules | mobile/src/network-routing.ts:1210-1236 | A disable that fails behind its script keeps the state over an empty managed range |
| RoutingManager.HealthyDriftFillsSlots | mobile/src/network-routing.ts:1290-1372 | A drift check that reports health leaves every checked slot filled: the rules as they were when they were accepted, else rewritten |
| RoutingManager.DriftRewritesMissingRules | mobile/src/network-routing.ts:1290-1372 | A drift check that can inspect the kernel rewrites the rules whenever a checked one is missing |
| RoutingManager.ApplySucceedsIff | mobile/src/network-routing.ts:1014-1107 | An apply is rejected exactly when it is stale or malformed, and succeeds if and only if everything on its way goes through, or it repeats the active policy |
| RoutingManager.DisableSucceedsIff | mobile/src/network-routing.ts:1173-1237 | A disable succeeds if and only if it is newer and goes through; then no managed rule is left and the state says so |
| RoutingManager.RestoreSucceedsIff | mobile/src/network-routing.ts:1243-1282 | A restore succeeds if and only if nothing is active or everything goes through; then the compiled rules are installed |
| RoutingOutcomes.ApplyOutcome | mobile/src/network-routing.ts:1045-1171 | A new policy that gets to its script: the answer, the saved state with its baseline, and the report, for every combination of what may fail, the catch and its own failures included |
| RoutingOutcomes.DisableOutcome | mobile/src/network-routing.ts:1173-1237 | The same for a disable, with the default network it resets |
| RoutingOutcomes.DriftOutcome | mobile/src/network-routing.ts:1290-1372 | A drift check ends ACTIVE if and only if the rules are accepted or rewritten and both probes answer as wanted, else DEGRADED, or with its running status when that cannot be written |
| RoutingOutcomes.RestoreOutcome | mobile/src/network-routing.ts:1243-1282 | A restart that does not get through ends DEGRADED, or RECOVERING when that cannot be written |
| RoutingOutcomes.AppliedNet | mobile/src/network-routing.ts:963-993 | A completed policy with a target sets Android's default network back, one without leaves it |
| RoutingOutcomes.RemovedNet | mobile/src/network-routing.ts:998-1008 | A completed removal resets it to the one asked for, or to none |
| RoutingTruth.OperationTruthIff | mobile/src/network-routing.ts:1010-1372 | For every machine whose ACTIVE status means installed rules, and every operation, the exact condition on the machine and on what the outside answers under which it still does afterwards |
| RoutingTruth.ApplyTruthIff | mobile/src/network-routing.ts:1107-1166 | An apply that gets to its script breaks it exactly when it does not complete, verify and save, the rollback does not complete either, that cannot be recorded, and the scripts left other rules |
| RoutingTruth.DisableTruthIff | mobile/src/network-routing.ts:1173-1237 | A disable of a newer generation breaks it exactly when its script, the reconnection or the save does not complete and a command of the script ran |
| RoutingTruth.DriftTruthIff | mobile/src/network-routing.ts:1290-1372 | A drift check breaks it exactly when the probes pass and it renews a claim that was given up over rules that pass the check without being the policy's, or its rewriting stops over other rules and the standing claim cannot be taken back |
| RoutingTruth.CrashTruthIff | mobile/src/network-routing.ts:998-1008 | A crash breaks it exactly when the part of the script that ran left other rules |
| RoutingTruth.RestoreStaysTruthful | mobile/src/network-routing.ts:1243-1282 | Restoring never breaks it |
| RoutingTruth.StoppedScriptIff | mobile/src/network-routing.ts:998-1008 | A script stopped behind its first command leaves exactly a compilation if and only if that is what it added so far |
| RoutingTruth.RunStaysTruthful | mobile/src/network-routing.ts:1010-1372 | Over every run that meets these conditions, ACTIVE means installed |
| RoutingTruth.SuccessOverNothing | mobile/src/network-routing.ts:1038-1044 | A concrete run from a fresh installation: applied, a disable that fails to save, applied again; the last answer is SUCCESS and no rule is installed |
| RoutingManager.NetworkRoutingManager.SaveState | mobile/src/network-routing.ts:659-668 | The file is written first: a failed write changes neither file nor memory, a completed one both |
| RoutingManager.NetworkRoutingManager.SaveRuntimeStatus | mobile/src/network-routing.ts:678-697 | A status that cannot be written changes nothing |
| RoutingManager.NetworkRoutingManager.RunRoot | mobile/src/network-routing.ts:998-1008 | A script runs command by command until it stops |
| RoutingManager.NetworkRoutingManager.ApplyExclusive | mobile/src/network-routing.ts:1014-1107 | Rejects stale generations, answers repeated ones, applies, checks, saves |
| RoutingManager.NetworkRoutingManager.RollBack | mobile/src/network-routing.ts:1107-1166 | The catch: earlier policy or removal, else a degraded state |
| RoutingManager.NetworkRoutingManager.DisableExclusive | mobile/src/network-routing.ts:1173-1237 | Removes the rules, then saves the disabled state |
| RoutingManager.NetworkRoutingManager.RestoreOnStartup | mobile/src/network-routing.ts:1243-1282 | Compiles the stored policy again under a recovering status |
| RoutingManager.NetworkRoutingManager.CheckDriftExclusive | mobile/src/network-routing.ts:1290-1372 | Rewrites the rules only when the check fails, then probes |
| TaskQueue.InsertSplices | mobile/src/task-queue.ts:35-50 | The splice position of the source is the recursive insertion |
| TaskQueue.HighThenNormalThenLow | mobile/src/task-queue.ts:10-19 | HIGH leaves before NORMAL, NORMAL before LOW, and within a priority the older first; eviction goes the other way round |
| TaskQueue.InsertKeepsOrder | mobile/src/task-queue.ts:35-50 | Inserting the newest entry keeps rank descending, then arrival ascending, and adds exactly that entry |
| TaskQueue.InsertedIsValid | mobile/src/client.ts:2162-2170 | A task with a new id keeps the queue valid and is added to the waiting set |
| TaskQueue.EvictionIsRight | mobile/src/task-queue.ts:53-71 | An eviction happens if and only if the arrival is HIGH and some waiting task is not; it takes the oldest of the lowest rank |
| TaskQueue.HeadIsBest | mobile/src/client.ts:2085-2096 | The head is the oldest waiting task of the highest rank |
| TaskQueue.BestIsUnique | mobile/src/client.ts:2085-2096 | There is only one such task, so the list decides nothing the set leaves open |
| TaskQueue.RemovalKeepsOrder | mobile/src/client.ts:1394-1400 | Taking any entry out keeps the queue valid and removes exactly that entry |
| TaskQueue.Queue.InsertQueued | mobile/src/task-queue.ts:35-50 | The scan and splice |
| TaskQueue.Queue.Dequeue | mobile/src/client.ts:2085-2096 | Removes the oldest task of the highest rank, or reports an empty queue |
| TaskQueue.Queue.Cancel | mobile/src/client.ts:1394-1400 | Removes the task with this id, or changes nothing when there is none |
| TaskQueue.Queue.Enqueue | mobile/src/client.ts:2142-2177 | Accepts exactly when there is room or a HIGH arrival can evict; the length never exceeds the limit |
| Scheduler.RunIsSafe | mobile/src/client.ts:2085-2178 | Every state reached by steps in which an execution that throws is the one starting, or nothing is starting and its id is forgotten, has one task starting or active at most, exact known ids, a valid queue within its limit, and deployment stages that fit it |
| Scheduler.OneUserOfTheDevice | mobile/src/client.ts:2258-2317 | In the source's variables: an open lease excludes a starting or active task and an ops session, a deployment block means an empty queue, activation finds nothing queued, starting or active |
| Scheduler.StepKeepsInv | mobile/src/deployment-manager.ts:472-586 | Every stretch of code between two awaits keeps this, the catch around an execution when it is harmless |
| Scheduler.ExecutorErrorIsSafeIff | mobile/src/client.ts:2097-2108 | The catch around an execution is harmless if and only if that execution, not just one of the same id, is the one starting, or nothing is starting and its id is not known |
| Scheduler.LateExecutorErrorRunsTwo | mobile/src/client.ts:2097-2108 | Nine steps from an empty client to a task that is active beside one that is starting, for any second task, also for the first id delivered again |
| Scheduler.BestStarts | mobile/src/client.ts:2085-2096 | When a task may start, the best of those waiting does, and it alone leaves the queue |
| Scheduler.StepStartsBest | mobile/src/client.ts:2085-2178 | Whatever the step, what it starts is the best of all that waited at that moment |
| Scheduler.RunStartsBest | mobile/src/client.ts:2085-2178 | So it is at every point of every run |
| Scheduler.LookingStarts | mobile/src/client.ts:2085-2096 | A free slot and a waiting task: the steps that look at the queue start one |
| SchedulerOutcomes.EnqueueOutcome | mobile/src/client.ts:2133-2178 | A delivered task is taken in if and only if intake is open, its id is unknown and there is room, then it waits or starts; otherwise nothing changes |
| SchedulerOutcomes.LeavesIff | mobile/src/client.ts:1394-1471 | No task is lost: a waiting one leaves the queue if and only if the step starts it, cancels it by its id, begins a deployment, or makes room for a HIGH task and it is the oldest of the lowest priority |
| SchedulerOutcomes.StartingEnds | mobile/src/client.ts:1541-1550 | The end of an execution that never became active frees the slot and forgets exactly its id |
| SchedulerOutcomes.LeaseOpensIff | mobile/src/remote-session-peer.ts:1412-1479 | A lease opens if and only if intake is open, nothing is starting or active, and there is no ops session |
| SchedulerOutcomes.OpsOpensIff | mobile/src/ops-session.ts:495-551 | An ops session opens if and only if intake is open and there is no lease |
| SchedulerOutcomes.TaskRunsToItsEnd | mobile/src/client.ts:2053-2178 | A task alone on an idle device starts, becomes active, runs, is cleaned up and forgotten, and nothing else is left changed |
| SchedulerOutcomes.IdleDeploymentActivates | mobile/src/deployment-manager.ts:472-567 | A deployment that finds an idle client, forced or not, is activated over an empty queue |
| SchedulerOutcomes.DrainingDeploymentActivates | mobile/src/deployment-manager.ts:472-567 | A draining one waits for the active task and is activated once that is cleaned up |
| SchedulerOutcomes.StuckDeploymentFails | mobile/src/deployment-manager.ts:472-584 | A forced one whose task does not stop fails, and intake is open again |
| Scheduler.MobileClient.MarkTaskStarting | mobile/src/client.ts:471-475 | The slot is taken |
| Scheduler.MobileClient.ClearTaskStarting | mobile/src/client.ts:478-482 | The record goes for this task only, the flag for any |
| Scheduler.MobileClient.ProcessNextTask | mobile/src/client.ts:2085-2096 | Starts the head when nothing else uses the device |
| Scheduler.MobileClient.EnqueueTask | mobile/src/client.ts:2133-2178 | Rejects under a block, ignores known ids, evicts, inserts, and looks at the queue |
| Scheduler.MobileClient.CancelQueuedTask | mobile/src/client.ts:1394-1400 | Takes a queued task out and forgets its id |
| Scheduler.MobileClient.RejectQueuedTask | mobile/src/client.ts:1541-1550 | The end of an execution that never became active |
| Scheduler.MobileClient.TaskBecomesActive | mobile/src/client.ts:2053-2055 | The slot passes from starting to active in one stretch |
| Scheduler.MobileClient.ExecutionThrew | mobile/src/client.ts:2097-2108 | The catch forgets the id, that execution, and the flag, whoever is starting |
| Scheduler.MobileClient.CleanupActiveTask | mobile/src/client.ts:1161-1200 | The end of a cleanup frees the slot and the id |
| Scheduler.MobileClient.OpenRemoteLease | mobile/src/remote-session-peer.ts:1412-1479 | A lease opens only on an idle device |
| Scheduler.MobileClient.CloseRemoteLease | mobile/src/remote-session-peer.ts:282-313 | Closing lets the queue run |
| Scheduler.MobileClient.OpenOpsSession | mobile/src/ops-session.ts:495-551 | An ops session opens only without block, lease and other session |
| Scheduler.MobileClient.CancelQueuedTasksForDeployment | mobile/src/client.ts:1456-1471 | The loop empties the queue and forgets exactly the ids that were queued |
| Scheduler.MobileClient.HandleDeployment | mobile/src/deployment-manager.ts:515-528 | Blocks intake and cancels the queue in one stretch, unless a deployment is running |
| Scheduler.MobileClient.UnblockTaskIntake | mobile/src/deployment-manager.ts:569-584 | A failed deployment lets the queue run again |
| UiRoundTrip.PrintedForestIsRead | mobile/src/ui-target.ts:288-391 | Scanning output around a printed forest within the limits gives its nodes in preorder with the same attributes, parents and depths, and its rotation |
| UiRoundTrip.ReadForest | mobile/src/ui-target.ts:302-391 | Reading a printed forest in the middle of a document appends its preorder and goes on with the rest |
| UiRoundTrip.DecodeEscaped | mobile/src/ui-target.ts:172-195 | Decoding an escaped value gives the value back |
| UiBounds.ReferenceIsRead | mobile/src/ui-target.ts:172-195 | A decimal character reference stands for that character, and is an error for a surrogate or a number beyond the last character |
| UiBounds.OtherSpellingsFail | mobile/src/ui-target.ts:172-195 | The five predefined names match in any case, but every spelling other than lower case is an error |
| UiRoundTrip.ParsePrintedTag | mobile/src/ui-target.ts:214-269 | A printed tag is read with its attributes |
| UiRoundTrip.TagEndsThere | mobile/src/ui-target.ts:198-211 | The end of a printed tag is found although quoted values may contain what ends it |
| UiRoundTrip.StoredIsPrinted | mobile/src/ui-target.ts:226-268 | Every attribute but `__proto__` is stored as printed, and nothing else is |
| UiRoundTrip.ClosingIff | mobile/src/ui-target.ts:342-352 | A closing tag is accepted if and only if it names the innermost open element, which it closes |
| UiRoundTrip.OpeningIff | mobile/src/ui-target.ts:353-385 | A printed opening tag is accepted if and only if it is the first root, outside of everything, or a node inside it with room for one more and as deep |
| UiScanner.AcceptedIsWellShaped | mobile/src/ui-target.ts:302-391 | Whatever the text, what is accepted is a tree in preorder: parents come first and one level up, within 10000 nodes and depth 256 |
| UiScanner.ParseUiHierarchy | mobile/src/ui-target.ts:302-391 | The scanner with offsets and loops is the specification, terminates on every input, and its result is well shaped |
| UiScanner.ScanDocument | mobile/src/ui-target.ts:309-386 | The loop over the document |
| UiScanner.ReadConstruct | mobile/src/ui-target.ts:320-352 | A comment, a declaration or a tag |
| UiScanner.ReadTagAt | mobile/src/ui-target.ts:341-385 | One opening or closing tag against the stack |
| UiScanner.FindParent | mobile/src/ui-target.ts:371-371 | The innermost open node, from the top of the stack |
| UiScanner.ParseXmlStartTag | mobile/src/ui-target.ts:214-269 | Name, attributes, self-closing, with every error |
| UiScanner.ReadName | mobile/src/ui-target.ts:230-240 | One attribute name up to its equals sign, with its errors |
| UiScanner.ReadValue | mobile/src/ui-target.ts:241-251 | One quoted value, with its errors |
| UiScanner.FindXmlTagEnd | mobile/src/ui-target.ts:198-211 | The first end of a tag outside quotes |
| UiTarget.DeepestIsFirst | mobile/src/ui-target.ts:538-553 | Some node is found exactly when one covers the point; it is visible, covers the point, and no other covering node is deeper, or as deep and smaller, or later |
| UiBounds.DeepestSmallestLast | mobile/src/ui-target.ts:538-553 | Of the nodes that cover a point the deepest is found, of those the one of smallest area, of those the last |
| UiTarget.SelectionIsRight | mobile/src/ui-target.ts:533-570 | The selected node covers the point, lies on the parent chain of the deepest one, and is clickable unless it is that one |
| UiTarget.NearestActingAncestor | mobile/src/ui-target.ts:533-570 | The selected node is the deepest covering one itself if it is clickable or no ancestor is clickable and covers the point, else the nearest ancestor that does; the path is what was walked |
| UiTarget.ChosenBySemantics | mobile/src/ui-target.ts:612-627 | Which node of the walk gives the target: an identifier first, then a text, the selected node before the others, else the selected node |
| UiTarget.MappedPart | mobile/src/ui-target.ts:600-607 | A recorded coordinate maps to the part of the display it lies in, of as many equal parts as there are pixels, and to the edge outside |
| UiBounds.PrintedBoundsAreRead | mobile/src/ui-target.ts:271-286 | Printed bounds of positive area are read back, for all safe integers |
| UiBounds.CoversIff | mobile/src/ui-target.ts:448-461 | A node with printed bounds covers exactly the points inside, without its right and bottom edge, unless one of the two attributes hides it |
| UiBounds.SafeIdIff | mobile/src/ui-target.ts:463-470 | A node is identified by its trimmed resource-id of at most 200 UTF-16 units if and only if that is a name, or a package and a name |
| UiBounds.HasTextIff | mobile/src/ui-target.ts:622-626 | A node has a text if and only if its text or description holds more than white space |
| UiBounds.TargetDescribes | mobile/src/ui-target.ts:628-668 | A target has the identifier and clickability of the chosen node and exactly the part of its bounds that lies on the display |
| UiTarget.SelectTargetNode | mobile/src/ui-target.ts:533-570 | The ancestor walk as a loop |
| UiTarget.TargetIffCovered | mobile/src/ui-target.ts:574-638 | A target is returned if and only if the orientations agree and a visible node covers the mapped point; its bounds lie in the display and contain the point |
| UiTarget.ExactMeansUnique | mobile/src/ui-target.ts:637-660 | The exact confidence is given if and only if no other node has the identifier |
| UiTarget.AcceptedHierarchiesResolve | mobile/src/ui-target.ts:574-638 | Every accepted hierarchy meets what selection needs of its tree |
| AdbKeyboard.RunKeepsSettings | mobile/src/adb-keyboard.ts:215-374 | However activations, crashes, partial restores and reruns follow each other, the recovery file describes the settings before the first activation not yet undone, never the temporary ones |
| AdbKeyboard.CompletedRestoreRestores | mobile/src/adb-keyboard.ts:342-374 | A completed restore after any run brings default, enablement and package back |
| AdbKeyboard.RestoreIsExactIff | mobile/src/adb-keyboard.ts:342-374 | From wherever they start, the restore commands bring every setting back if and only if there was a default input method and it was enabled (or was the keyboard) |
| AdbKeyboard.ActivationTakesEffect | mobile/src/adb-keyboard.ts:215-335 | A successful activation leaves the keyboard enabled and the default, its package too, the rest as it was, and the file with the settings before |
| AdbKeyboard.FailedActivationIsUndone | mobile/src/adb-keyboard.ts:300-335 | A failed one whose undoing goes through leaves the user's settings and no file |
| AdbKeyboard.RecoveryCompletesIff | mobile/src/adb-keyboard.ts:186-207 | Startup recovery is done if and only if one of its restores completes; the settings are then the user's |
| AdbKeyboard.AdbKeyboardManager.ActivateForPublish | mobile/src/adb-keyboard.ts:215-335 | Restores first, writes the recovery file before the first command, undoes a failed activation |
| AdbKeyboard.AdbKeyboardManager.RestoreSettings | mobile/src/adb-keyboard.ts:342-374 | Removes the recovery file only behind the last command |
| AdbKeyboard.AdbKeyboardManager.RecoverOnStartup | mobile/src/adb-keyboard.ts:186-207 | Retries until a restore completes; false without a file, true when restored, else the last error |
| UpgradeAdmission.TableIsBounded | pc/src/remote-control-websocket.ts:136-190 | On every run, also when the clock jumps, the table holds at most the maximum of addresses, each once |
| UpgradeAdmission.AtMostTwoWindows | pc/src/remote-control-websocket.ts:136-190 | Under a monotone clock, while no more addresses call than fit, every half-open interval of one window's length admits at most twice the attempts per address |
| UpgradeAdmission.QuietCallerIsAdmitted | pc/src/remote-control-websocket.ts:157-189 | On every run, whatever the clock and the other addresses do, an address with fewer calls than the limit in the last window is admitted |
| UpgradeAdmission.TrimDropsTheOldest | pc/src/remote-control-websocket.ts:166-181 | A full table drops the windows that are over, and of the others a window stays if and only if fewer than maximum - 1 running ones come behind it |
| UpgradeAdmission.Admission.Attempt | pc/src/remote-control-websocket.ts:157-189 | One call on the table in insertion order: a running window moves to the end, one that is over restarts in place |
| UpgradeAdmission.Admission.MakeRoom | pc/src/remote-control-websocket.ts:166-181 | Drops the windows that are over, then the oldest, until there is room |

## Left out

Deliberately weaker than the code's own promise:

- PublishProtocol.AtMostOneTap: holds for runs whose launch catch and executor catch are safe when they fire (`SafeCatches`), which a caller can check before each report and the code does not; without it `LateLaunchFailurePostsTwice` and `LateExecutorErrorPostsTwice` are the failing runs.
- PublishProtocol.TappedIsNeverPublishedAgain: same assumption.
- PublishProtocol.RunKeepsInv: same assumption; `LaunchFailureKeepsInv` for one report.
- PublishLosses.AtMostOneTapDespiteLosses: the same assumption on the catches, and losses that leave every commit in the backup; `LossKeepsJournalIff` is exact for a loss right behind a save, `LostMarkPostsTwice` the failing run. The ledger results of `LedgerFleet` and `PublishLedger` are about runs without losses.
- LedgerFleet.RunKeepsFiles: assumes that each object that saves is not behind the files; `ReportKeepsFilesIff` is exact for reports that carry only an outcome, such as those of the two catches.
- LedgerFleet.RunSpacesNewDecisions: same assumption, and a clock that runs forwards.
- PublishLedger.RunKeepsFiles: assumes that the two catches are harmless when they fire (`HarmlessCatches`); `LaunchFailureKeepsFilesIff` is exact for one launch report.
- PublishLedger.RunSpacesNewDecisions: same assumption, and a clock that runs forwards. It is about NEW decisions; a resumed publication skips the posting policy in the code.
- Scheduler.RunIsSafe: assumes that an execution throws only while it is itself the one starting, or while nothing is starting and its id is not known; `ExecutorErrorIsSafeIff` makes that exact, `LateExecutorErrorRunsTwo` is the failing run.
- Scheduler.OneUserOfTheDevice: same assumption.
- Scheduler.StepKeepsInv: same assumption for the one step.
- RoutingManager.FailedDisableKeepsStatusNotRules: is one instance of the exact condition in `RoutingTruth.OperationTruthIff`.
- RoutingMeaning.CheckIgnoresBoundV6: says what the check overlooks; `AcceptsIff` is exact in terms of filled slots, and does not say that the kernel then follows the policy: the check looks neither at the unreachable route nor at other rules of the same slot.
- ChunkFraming.StaleTimersAreHarmless: generations are unbounded; the wrap of the 64-bit counter is not modelled.
- AdbKeyboard.RunKeepsSettings: assumes an enabled default input method at the start and a user who leaves the settings alone while a restoration is owed; `RestoreIsExactIff` is exact for the first part.
- AdbKeyboard.CompletedRestoreRestores: same assumptions.
- RoutingMeaning.AppliedKernelFollowsPolicy: says nothing about packets that match a foreign rule of smaller priority, which no managed rule can override.

Not modelled:

- Publishing: normalisation of requests, inspection of media files and composition of captions (a request comes with its candidates); SHA-256 and JSON text (fingerprints and structural equality); the files of the commit review (accepted, rejected or deferred); a task id that is delivered again (executions are numbered, each with an id of its own); tasks of other scripts; the old contract version without acknowledgement paths.
- Ledger files: a replacement of one file is atomic, as the source's temporary file and rename intend.
- Remote session: sockets, sidecars and frames are numbers given by the caller; backpressure and writability are booleans; the expiry timer is the closing event; the relay's authentication and envelope checks are a decoded message or `Unparsable`.
- Framing: a locked section of the Go code is one step; Pion, the data channel's buffering, and the JSON records.
- Routing: rules and snapshots are records instead of text; IPv6 blocks are ranges of numbers; a rule deletion that finds its rule succeeds; the exit identity is an opaque text; status messages; a routing state file that cannot be read or parsed, which the code takes as generation 0 (`mobile/src/network-routing.ts:641-657`); `runExclusive` is taken as the serialisation it is.
- Scheduler: results, reports and the queue-state messages; preemption, timeouts and cancellation of the active task appear as the beginning and the end of its cleanup; staging a release is one step that succeeds or fails.
- UI: reading `wm size` and `dumpsys` text; the privacy classes of texts; floating point (the recorded point is a real number); lone surrogates.
- Keyboard: the checks of package, version and digest are one flag; an unreadable recovery file.
- Upgrade limiter: the cut of long address texts, and the shape checks of the upgrade request.
- Wall-clock liveness, telemetry, installers, the relay service and the PC controllers.
