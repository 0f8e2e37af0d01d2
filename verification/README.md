# Model and proofs of ran

`ran` is a honeypot sensor. This project models its alert pipeline, its incremental readers, its
connection lifecycles and its wire codecs in Dafny, and proves what they promise.

`dafny verify dfyconfig.toml` checks the whole project.

## How the model is laid out

Stateful parts have three layers. A specification gives each operation as a function on a `State` value
(`offenders.dfy`, `cooldown.dfy`, `scan.dfy`, `probes.dfy`, ...). A class with the fields, loops and updates
of the program refines that specification method by method (`offender_table.dfy`, `cooldown_filter.dfy`,
`scan_tracker.dfy`, `probe_log.dfy`, ...). Lemmas over runs, a sequence of operations with the states between
them, state what holds after any history (`*_runs.dfy`, `offender_history.dfy`, ...). The exact answers are stated
on the operations and earlier answers alone, without the functions that compute them: `cooldown_answers.dfy`,
`offender_summaries.dfy`, `*_evictions.dfy`, `probe_lines.dfy`, `rate_law.dfy`, `rate_sources.dfy`,
`batch_sends.dfy`, `pipeline_classes.dfy`, `pipeline_windows.dfy`, `*_grants.dfy`.

Concurrent parts are step systems in which each step is one critical section or one channel operation; a
theorem quantifies over every interleaving: `pipeline*.dfy` (Submit, batch worker, Close), `tcp_*.dfy`
(dispatch, serve, Stop over one limiter), `proxy_*.dfy` (accept loop, handshakes, Close).

Parsers and codecs are functions with methods that refine them, and round-trip or equivalence lemmas:
`uel*.dfy`, `kex*.dfy`, `fixture_*.dfy`, `bson*.dfy`, `mongo*.dfy`, `ber*.dfy`, `tls_*.dfy`, `meta*.dfy`. Which bytes
a reader takes, and as what, is stated as a layout: `*_forms.dfy`, `mongo_fields.dfy`, `tls_layout.dfy`,
`meta_values.dfy`.

## Conventions

- Time is a natural number of clock ticks, 0 being the zero time; in `rate_*.dfy` it is a real number of
  seconds. Every operation carries its clock reading. Readings do not go back in the order in which the locks
  are taken; the program reads some clocks before it takes the lock.
- Addresses are normalised keys. A query that takes the table lock twice is one step: at the first
  critical section if no window is open at all, else at the second.
- `int` is a 64-bit integer; 32-bit truncation is written out where it matters.
- Digests are parameters: MD5 and SHA-256 of JA3 and JA4 are arbitrary functions, and a HASSH is the four
  name-lists that are hashed. The Unicode tables of the metadata filter, its encoding of a character
  included, are parameters too.
- A post to the API is a nondeterministic success or failure, the encoded size of an alert any number.
- The JSON walk reads the tokens delivered before the first read error; delimiters are properly nested, as the
  token reader guarantees.

## Where the code differs from what is written about it

- `boundMeta` is documented as idempotent (internal/alert/crowdsec.go:353-355). One pass can turn a key into a
  secret name by blanking a character around it, or by cutting at 64 bytes what follows it; a second pass then drops
  it. `IdempotentIff` says exactly for which inputs one pass is enough, `UnmaskedDiffers`, `OnePassIsNotEnough` and
  `CutIsNotEnough` give the keys, `TwoPassesSettle` and
  `NoSecretLeaves` show that the two passes of the program always are.
- The UEL stripper is documented to hold back at most 9 bytes (internal/trap/pjl.go:226); it holds at most 8.
  Its result depends on the chunks when removing one sequence joins bytes into another; `ChunkingIrrelevantIff`
  and `ChunkingIrrelevantUnlessSpread` give the exact condition and `NestedMarkerBreaks` a stream.
- The offender sweep drops every expired source only while windows stay within the reset period, unless shunning
  is off or the table holds one source (`SweepCompleteIff`, `LongWindowBlocks`).
- A port that a full scan set skips is forgotten, so a later verdict can miss a scan. `VerdictIsExact`,
  `SkippedIff` and `ScanMissedIff` say exactly when, `ScanMissed` gives a run.
- An alert that extends a shun window opens no new one, so taking it back does not shorten the window
  (`RevertEndsOwnWindow`, `RefusedByTakenBackAlert`). An alert inside the window of another does not extend it
  unless it reaches further, so taking the other back ends the shun of both (`StandingShunIsLost`).
  `RefusedIff` gives the exact condition of a refusal.
- A flush that writes a summary of a window after its end restarts the window there and leaves it open, so the next
  summary of it spans less than zero (`NegativeSpanIff`). The summary line rounds the span to whole seconds towards
  zero, so it shows a negative number from a full second on (`NegativeSecondsIff`, `NegativeSpanHappens`). The flush is
  the one of the shutdown; a trap that outlives it can still ask and count.
- The SSH tap can stay open with a full buffer, depending on the chunks (`OpenIff`, `ChunkingDecides`); the HASSH
  is empty either way (`AnyChunking`).
- The proxy listener can hand over a connection that Close has closed (`HandedClosedIff`, `ClosedIsHanded`).

## Model

| member | source | states |
|---|---|---|
| `Offenders.Configure` | internal/alert/offenders.go:98-137 | a defaulted reset period never undercuts the repeat cooldown, twice it where that fits; complete settings are kept |
| `Offenders.SweepFrontDrops` | internal/alert/offenders.go:464-472 | the front sweep drops only expired sources and writes exactly their summaries |
| `Offenders.MakeRoomFrees` | internal/alert/offenders.go:430-460 | makeRoom frees a slot; a live source loses an open window only if the 64 oldest left by the sweep all have one |
| `OffenderRuns.StepValid` | internal/alert/offenders.go:206-519 | every operation keeps map, list and active set consistent, the list sorted by last alert and the size within the bound |
| `OffenderRuns.StepActsLocally` | internal/alert/offenders.go:206-519 | every operation treats each source as if it were alone, apart from the sources the table loses |
| `OffenderHistory.RunValid` | internal/alert/offenders.go:255-300 | the same invariant in every reachable state |
| `OffenderHistory.RunFollows` | internal/alert/offenders.go:206-519 | in every run each source has the history it would have alone, apart from its losses |
| `OffenderHistory.RunExtends` | internal/alert/offenders.go:206-519 | every operation can follow a run, and the clock stays in order if it did not go back |
| `OffenderHistory.CountsStand` | internal/alert/offenders.go:206-300 | a per-class count never exceeds accepted minus reverted alerts, and equals them while the source was not lost |
| `OffenderHistory.RepeatNeedsStanding` | internal/alert/offenders.go:162-184 | windowFor gives the repeat cooldown only when RepeatAfter alerts stand, counting the next; exactly then for a source that was not lost |
| `OffenderHistory.RefusedHasCause` | internal/alert/offenders.go:304-334 | a refused source is inside a window whose end an accepted non-probe alert of its own set; if that alert was taken back it had only extended the window |
| `OffenderHistory.RefusedThroughout` | internal/alert/offenders.go:255-334 | from such an alert to the end of its window every query is refused, unless the source is lost or the alert that opened the window is taken back |
| `OffenderHistory.RefusedIff` | internal/alert/offenders.go:224-334 | a query is refused if and only if some alert's window reaches beyond it and since that alert the source was not lost nor the opening of its window taken back |
| `OffenderExamples.StandingShunIsLost` | internal/alert/offenders.go:230-250 | a run in which a scan that stands no longer shuns its source, because the attack that opened the window was taken back |
| `OffenderExamples.RefusedByTakenBackAlert` | internal/alert/offenders.go:230-300 | a run in which a source is refused although the only alert whose window reaches that far was taken back |
| `OffenderSpans.NegativeSpanIff` | internal/alert/offenders.go:389-412 | in every run and for every d > 0 a summary spans -d or less if and only if an earlier flush wrote a summary of the same window d or more after its end and left it open |
| `OffenderSpans.NegativeSecondsIff` | internal/alert/offenders.go:400-405 | the whole seconds of the summary line are negative if and only if such a flush came a second or more after the end |
| `OffenderSpans.NegativeSpanHappens` | internal/alert/offenders.go:304-412 | a run, each of its rejections behind a refused query, whose last query writes a negative number of seconds |
| `OffenderHistory.WindowUnchanged` | internal/alert/offenders.go:224-300 | a window id is never used again: a window that runs now ran unchanged since its id was given |
| `OffenderHistory.WindowIdsDiffer` | internal/alert/offenders.go:255-300 | two alerts never open windows with the same id |
| `OffenderHistory.RevertEndsOwnWindow` | internal/alert/offenders.go:224-250 | a revert ends the window of its source if and only if the reverted alert opened it and it ran unchanged since, also across eviction and re-creation |
| `OffenderHistory.RejectionsConserved` | internal/alert/offenders.go:338-519 | rejections counted on open windows = counts in emitted summaries + counts still in the table, through every end, revert, expiry, eviction, sweep and flush |
| `OffenderSummaries.SummaryIs` | internal/alert/offenders.go:389-412 | in every run a summary counts the rejections of its source since the alert that opened the window or the last flush that wrote one, names the first eight of their protocols and spans from there to now or to the end of the longest alert in force, whichever is earlier |
| `OffenderSummaries.SummaryNames` | internal/alert/offenders.go:338-362 | a summary names all protocols rejected, up to eight, and of more exactly eight |
| `OffenderSummaries.WrittenIff` | internal/alert/offenders.go:389-519 | a summary is written if and only if rejections of the source wait and the operation is a flush, ends its window or opens another |
| `OffenderSummaries.OpensIff` | internal/alert/offenders.go:255-300 | an alert opens a window if and only if it shuns and no earlier alert still does |
| `OffenderEvictions.LostIff` | internal/alert/offenders.go:255-491 | in every run a source is given up if and only if it and every older one are silent when a sweep or a new source comes, its own next alert finds it silent, or a new source finds the table full of sources of which the oldest is not silent and it is the oldest without an open window, or the oldest if none of the 64 oldest is without |
| `OffenderEvictions.AgeIs` | internal/alert/offenders.go:255-300 | the age of a source is the time since its last alert, taken back or not |
| `OffenderEvictions.ListedByLastAlert` | internal/alert/offenders.go:255-300 | the list is in the order of the last alerts, also of those at the same time |
| `OffenderSweep.ShortWindowsSweepClean` | internal/alert/offenders.go:188-190 | when every applied window is at most the reset period, no source is shunned or the table holds one source, a sweep leaves no expired source |
| `OffenderSweep.SilentGoFirst` | internal/alert/offenders.go:430-460 | under the same condition a live source makes room for another only when no expired one is left |
| `OffenderSweep.LongWindowBlocks` | internal/alert/offenders.go:464-472 | with a longer window there is a run whose sweep leaves an expired source behind a live one |
| `OffenderSweep.SweepCompleteIff` | internal/alert/offenders.go:464-491 | all runs with windows up to a limit sweep clean if and only if the limit is within the reset period, shunning is off or the table holds one source |
| `OffenderTables.OffenderTable.constructor` | internal/alert/offenders.go:98-137 | the table starts empty and consistent |
| `OffenderTables.OffenderTable.NextWindow` | internal/alert/offenders.go:162-184 | the method computes the specified cooldown and changes nothing |
| `OffenderTables.OffenderTable.EndWindow` | internal/alert/offenders.go:389-412 | closes one window and returns its summary exactly if something was suppressed |
| `OffenderTables.OffenderTable.RemoveEntry` | internal/alert/offenders.go:421-428 | takes one source out of map, list and active set, closing its window |
| `OffenderTables.OffenderTable.SweepOldest` | internal/alert/offenders.go:464-472 | the sweep loop is the specified front sweep |
| `OffenderTables.OffenderTable.PickVictim` | internal/alert/offenders.go:440-460 | the scan loop finds the specified victim |
| `OffenderTables.OffenderTable.FreeSlot` | internal/alert/offenders.go:440-460 | refines makeRoom |
| `OffenderTables.OffenderTable.Accepted` | internal/alert/offenders.go:206-222 | refines the accept operation and keeps the invariant |
| `OffenderTables.OffenderTable.RecordAlert` | internal/alert/offenders.go:255-300 | refines the recording of an alert, with its mark |
| `OffenderTables.OffenderTable.RevertMark` | internal/alert/offenders.go:230-250 | refines the revert operation and keeps the invariant |
| `OffenderTables.OffenderTable.IsShunned` | internal/alert/offenders.go:304-334 | refines the query and keeps the invariant |
| `OffenderTables.OffenderTable.Rejected` | internal/alert/offenders.go:338-362 | refines the counting of a refused connection |
| `OffenderTables.OffenderTable.CloseWindows` | internal/alert/offenders.go:476-491 | closing ended windows in any map order gives one result |
| `OffenderTables.OffenderTable.SweepAll` | internal/alert/offenders.go:476-491 | refines the sweep operation and keeps the invariant |
| `OffenderTables.OffenderTable.FlushAll` | internal/alert/offenders.go:495-519 | refines the flush: a summary for every open window, the windows stay |
| `Cooldown.KeyInjective` | internal/alert/cooldown.go:65-98 | keys of different sources or classes differ |
| `Cooldown.MakeRoomKeeps` | internal/alert/cooldown.go:119-138 | making room drops expired entries and at most one live one |
| `Cooldown.ReadyKeeps` | internal/alert/cooldown.go:65-98 | taking a slot gives up only the old slot of the key, expired entries and at most the evicted one |
| `CooldownRuns.StepValid` | internal/alert/cooldown.go:65-147 | every operation keeps index, order by slot and bound |
| `CooldownRuns.RunValid` | internal/alert/cooldown.go:65-147 | the same in every reachable state |
| `CooldownRuns.RunExtends` | internal/alert/cooldown.go:65-147 | every operation can follow a run if the clock did not go back |
| `CooldownRuns.RefinesUnbounded` | internal/alert/cooldown.go:65-138 | on every run without the eviction of a live entry the filter answers exactly as an unbounded map that never deletes |
| `CooldownRuns.PassesAreSpaced` | internal/alert/cooldown.go:65-98 | two alerts that pass for one source, the second of the same or a lower class, are the window of the first apart unless its slot was released under its key or evicted |
| `CooldownRuns.ClasslessSuppressesNothing` | internal/alert/cooldown.go:73-80 | the slot of an event without a class suppresses nothing |
| `CooldownRuns.ClasslessNotSpaced` | internal/alert/cooldown.go:65-98 | two events without a class pass at the same time |
| `CooldownRuns.StaleReleaseIsHarmless` | internal/alert/cooldown.go:102-111 | a release with an earlier slot never frees a later one |
| `CooldownRuns.ReleasedForGood` | internal/alert/cooldown.go:102-111 | a released slot is never held again |
| `CooldownAnswers.RefusedIff` | internal/alert/cooldown.go:65-98 | on every run, evictions included, an alert is refused if and only if the filter is on and an earlier alert of the same source and of the same or a higher class (scan over attack over probe) passed, its window reaches beyond now, and its slot was not taken again, released or evicted since |
| `CooldownAnswers.HigherClassPasses` | internal/alert/cooldown.go:65-98 | an alert of a higher class passes right behind one of a lower class |
| `CooldownAnswers.EvictsOldestWhenFull` | internal/alert/cooldown.go:119-138 | a live entry is evicted only for an alert that finds the filter full, and it is the oldest live one |
| `CooldownFilters.CooldownFilter.constructor` | internal/alert/cooldown.go:44-52 | the filter starts empty and consistent |
| `CooldownFilters.CooldownFilter.IsSuppressed` | internal/alert/cooldown.go:65-98 | the class loop finds a cooldown of the class or a higher one if and only if there is one |
| `CooldownFilters.CooldownFilter.SweepOldest` | internal/alert/cooldown.go:131-138 | the sweep loop is the specified front sweep |
| `CooldownFilters.CooldownFilter.FreeSlot` | internal/alert/cooldown.go:119-127 | refines makeRoom |
| `CooldownFilters.CooldownFilter.TryAllow` | internal/alert/cooldown.go:65-98 | refines the allow operation and keeps the invariant |
| `CooldownFilters.CooldownFilter.ReleaseSlot` | internal/alert/cooldown.go:102-111 | refines the release operation and keeps the invariant |
| `CooldownFilters.CooldownFilter.CleanUp` | internal/alert/cooldown.go:140-147 | refines the cleanup operation |
| `BatchWorker.StepKeepsOrder` | internal/alert/crowdsec.go:601-649 | every step keeps batches bounded and the given batches, followed by what waits, in queue order |
| `BatchWorker.OnHeld` | internal/alert/crowdsec.go:714-734 | a step moves alerts in from the queue and out as sent or failed and loses none |
| `BatchWorker.StepAccounted` | internal/alert/crowdsec.go:714-853 | every alert taken is held, sent or failed, exactly once |
| `BatchLoop.Batches` | internal/alert/crowdsec.go:601-649 | the batch loop sends the encodable alerts in queue order in batches within both limits, and fails exactly the others; the batches are those of the worker's own steps with every post successful |
| `BatchLoop.Push` | internal/alert/crowdsec.go:616-640 | an alert that would overflow the byte limit flushes the batch first; the result is that of the worker's own steps with every post successful |
| `BatchSends.PostedUnless` | internal/alert/crowdsec.go:714-734 | in every run of the worker a batch given to send is posted, unless the worker is abandoned (Close interrupted a pause and no post succeeded since) and a post was already made while abandoned: then it fails without a post |
| `BatchSends.OneFinalAttempt` | internal/alert/crowdsec.go:714-734 | over a whole run at most one post is made while abandoned |
| `BatchSends.HoldIff` | internal/alert/crowdsec.go:714-748 | once the failed alerts are undone the worker pauses if and only if a post failed that was not the final one |
| `BatchSends.GivenForCause` | internal/alert/crowdsec.go:614-649 | a batch is given to send only when it is full, when the next alert would make it exceed 512 KiB, at a tick or at the close of the queue; the last two give exactly what waits |
| `BatchSends.NothingOverdue` | internal/alert/crowdsec.go:614-649 | what waits while the worker selects is no full batch, and within the byte limit |
| `BatchSends.GivenAtOnce` | internal/alert/crowdsec.go:604-610 | without batching every alert is given to send by itself at once |
| `PipelineRuns.StepOrderly` | internal/alert/crowdsec.go:248-307 | every step of Submit, worker and Close keeps the counters, the lock and the queue in order; the closed channel is never sent on |
| `PipelineTheorems.Reachable` | internal/alert/crowdsec.go:248-853 | the whole invariant holds in every reachable state of every interleaving |
| `PipelineTheorems.ReceivedAccounted` | internal/alert/crowdsec.go:248-307 | received = invalid + closed + filtered + cooldown + queued + dropped + calls still running; no send on the closed channel |
| `PipelineTheorems.QueuedOnce` | internal/alert/crowdsec.go:601-649 | every queued alert is in exactly one place, once: channel, worker, sent or failed |
| `PipelineTheorems.EndsSentOrFailed` | internal/alert/crowdsec.go:714-853 | when the worker has stopped every queued alert was sent or failed, and not both |
| `PipelineTheorems.BatchesFollowQueue` | internal/alert/crowdsec.go:601-649 | the batches given to send concatenate to the queue order without unencodable alerts; a batch of two or more is at most 512 KiB |
| `PipelineTheorems.UndoneIffFailed` | internal/alert/crowdsec.go:842-853 | the table record of a queued alert is undone if and only if the alert failed |
| `PipelineTheorems.RecordsUndoneOnce` | internal/alert/crowdsec.go:283-307 | no record is undone twice, and each with its own mark |
| `PipelineTheorems.RepeatIsEarned` | internal/alert/crowdsec.go:269-307 | in the whole sink the repeat cooldown is applied only when RepeatAfter alerts stand, failed and dropped ones not counted |
| `PipelineTheorems.FailedSlotIsFree` | internal/alert/crowdsec.go:842-853 | once a failed alert is dealt with its cooldown slot is free for good |
| `PipelineClasses.AlertsAreReported` | internal/alert/crowdsec.go:248-307 | every alert ever made was brought by a received bannable event whose class, the session's own for a scan that is not reported, is reported; filter and table saw it under that source and class, and with one window |
| `PipelineClasses.ReceiveDecides` | internal/alert/crowdsec.go:248-261 | a received event goes on if and only if it is bannable |
| `PipelineClasses.EnterDecides` | internal/alert/crowdsec.go:263-281 | it is dropped as closed after Close, else as filtered if and only if its class is not reported, else it goes on |
| `PipelineClasses.CooldownDecides` | internal/alert/crowdsec.go:283-288 | it ends in cooldown if and only if an alert that passed earlier bars it |
| `PipelineClasses.QueueDecides` | internal/alert/crowdsec.go:290-307 | it is queued if and only if fewer than 256 alerts wait, else taken back |
| `PipelineWindows.WindowDecides` | internal/alert/crowdsec.go:283-292 | it asks the filter with the base cooldown, or with the repeat cooldown if RepeatAfter alerts of the source and class stand, counting it; exactly then for a source the table has not lost |
| `PipelineRefusals.RefusedIff` | internal/alert/crowdsec.go:248-307 | in every reachable state a query was refused if and only if some alert made shuns the source at its time, since which the source was not lost and no failed or dropped alert ended its window |
| `PipelineRefusals.DeliveredIsRefused` | internal/alert/crowdsec.go:283-307 | a source that was not lost and none of whose alerts failed or was dropped is refused exactly inside the window of some alert |
| `PipelineRefusals.RefusedByAlert` | internal/alert/crowdsec.go:842-853 | a refused source has an alert that set the end of its window; if that one had failed or been dropped by then it had only extended the window |
| `PipelineRefusals.FallEndsOwnWindow` | internal/alert/crowdsec.go:842-853 | every failed or dropped alert was taken back, and that ended the window of its source if and only if it opened the window and it ran unchanged since |
| `PipelineProgress.WorkerCanStep` | internal/alert/crowdsec.go:601-649 | until it has stopped, the worker of a closed sink can make a step that uses up work |
| `PipelineProgress.WorkRunsOut` | internal/alert/crowdsec.go:601-853 | in every run the worker's steps after Close, idle ticks aside, are at most the work Close found |
| `PipelineProgress.NoWorkIsStopped` | internal/alert/crowdsec.go:601-649 | no work is left if and only if the worker has stopped |
| `ScanRuns.StepValid` | internal/alert/scan.go:67-138 | every operation keeps map, list and bound |
| `ScanRuns.RunValid` | internal/alert/scan.go:67-138 | the same in every reachable state |
| `ScanRuns.EntriesAreReal` | internal/alert/scan.go:67-117 | everything an entry holds was touched at the noted time since the last eviction, and no skipped port is held |
| `ScanRuns.TouchRemembered` | internal/alert/scan.go:67-132 | a touch is remembered as long as it is recent and its source not evicted since |
| `ScanVerdicts.VerdictIsEarned` | internal/alert/scan.go:67-117 | a scan verdict has enough distinct protocols or ports really touched within the window |
| `ScanVerdicts.VerdictIsExact` | internal/alert/scan.go:58-132 | in every run a touch is called a scan if and only if the source's recent touches since its last eviction reach enough protocols, or enough ports without the skipped ones |
| `ScanVerdicts.SkippedIff` | internal/alert/scan.go:105-115 | a port is skipped if and only if sixteen others are standing and it is not among them |
| `ScanVerdicts.ScanMissedIff` | internal/alert/scan.go:58-132 | for a source not evicted within the window a scan by the whole history is missed if and only if few protocols were touched and enough ports only with the skipped ones counted |
| `ScanVerdicts.ScanMissed` | internal/alert/scan.go:105-115 | a run from the empty tracker that misses a scan |
| `ScanEvictions.EvictedIff` | internal/alert/scan.go:67-95 | in every run a touch evicts if and only if its source is new, the tracker is full and the first source in the list still has a touch in the window; that one is evicted |
| `ScanEvictions.ListedByLastTouch` | internal/alert/scan.go:67-95 | the list is in the order of the last touches, also of those at the same time |
| `ScanEvictions.GivenUpIsSilent` | internal/alert/scan.go:119-138 | any other source that is given up has no touch in the window |
| `ScanTrackers.ScanTracker.constructor` | internal/alert/scan.go:46-56 | the tracker starts empty and valid |
| `ScanTrackers.ScanTracker.SweepOldest` | internal/alert/scan.go:125-132 | the sweep loop is the specified front sweep |
| `ScanTrackers.ScanTracker.TouchPort` | internal/alert/scan.go:67-117 | refines the touch operation, verdict included, and keeps the invariant |
| `ScanTrackers.ScanTracker.CleanUp` | internal/alert/scan.go:134-138 | refines the cleanup operation |
| `ScanTrackers.DropExpired` | internal/alert/scan.go:96-110 | deleting expired keys in any map order leaves exactly the recent ones |
| `ProbeRuns.SessionsConserved` | internal/alert/sensor.go:285-372 | recorded sessions = sessions in written summaries + pending ones, in total and per protocol |
| `ProbeRuns.SummaryWithinWindow` | internal/alert/sensor.go:285-340 | every session a summary counts was recorded less than one window after its start |
| `ProbeCounts.LineCounts` | internal/alert/sensor.go:285-340 | a line counts exactly the sessions of its source recorded since the previous line of that source, in total and per protocol |
| `ProbeRuns.ClosedLeavesNothing` | internal/alert/sensor.go:357-372 | from the flush after the close on nothing is pending, so every recorded session was reported |
| `ProbeOrder.RunValid` | internal/alert/sensor.go:255-320 | in every reachable state the list is sorted by window start and within the bound |
| `ProbeOrder.DueKeysComplete` | internal/alert/sensor.go:343-353 | inspecting only the front finds exactly the sources whose window has elapsed |
| `ProbeOrder.FlushLeavesNoneDue` | internal/alert/sensor.go:343-353 | after a flush no pending source is due |
| `ProbeLines.RecordedIff` | internal/alert/sensor.go:285-320 | a session is recorded if and only if it comes before Close |
| `ProbeLines.LineSpans` | internal/alert/sensor.go:323-340 | a line covers the time from the first session of its source since the previous line, at most one window |
| `ProbeLines.WrittenIff` | internal/alert/sensor.go:285-372 | in every run a line is written if and only if the window of its source has elapsed at its next session or at a flush, a new source finds the log full and it is first in the list, or everything is flushed |
| `ProbeLines.ListedByOpening` | internal/alert/sensor.go:285-320 | the list is in the order in which the windows were opened, also of those at the same time |
| `ProbeLogs.ProbeLog.constructor` | internal/alert/sensor.go:271-280 | the log starts empty |
| `ProbeLogs.ProbeLog.EmitLine` | internal/alert/sensor.go:323-340 | writes the summary of one source and removes it |
| `ProbeLogs.ProbeLog.RecordSession` | internal/alert/sensor.go:285-320 | refines the record operation, lines included |
| `ProbeLogs.ProbeLog.FlushFront` | internal/alert/sensor.go:343-353 | the flush loop writes the specified lines in order |
| `ProbeLogs.ProbeLog.WriteDue` | internal/alert/sensor.go:343-353 | refines the flush of due sources |
| `ProbeLogs.ProbeLog.CloseLog` | internal/alert/sensor.go:357-362 | refines the close |
| `ProbeLogs.ProbeLog.WriteAll` | internal/alert/sensor.go:365-372 | refines the flush of all sources |
| `Meta.Sanitize` | internal/alert/crowdsec.go:328-345 | the character loop computes the cleaned text, cut at a character boundary |
| `Meta.PartKeys` | internal/alert/crowdsec.go:357-372 | going through the map in any order parts the sensor keys from the trap keys |
| `Meta.SortKeys` | internal/alert/crowdsec.go:373-373 | the trap keys in order, each once |
| `Meta.ByteOrderOrders` | internal/alert/crowdsec.go:373-373 | the order of the bytes is total on the keys of a map |
| `Meta.BoundMeta` | internal/alert/crowdsec.go:356-385 | collecting, sorting and adding the keys gives the bounded map of the trap keys in the order of their bytes |
| `MetaLaws.BoundIsDetermined` | internal/alert/crowdsec.go:353-355 | the result does not depend on the order in which the map is read |
| `MetaLaws.BoundKeys` | internal/alert/crowdsec.go:356-385 | the keys of the result are the sensor keys and the clean names of the trap keys looked at before 32 names are out |
| `MetaValues.CleanedIff` | internal/alert/crowdsec.go:325-345 | the cleaned text is the longest front of the text, broken bytes as question marks and control, format and line separator characters as spaces, that takes at most the given bytes |
| `MetaValues.BoundValues` | internal/alert/crowdsec.go:356-385 | a sensor key has its own value cleaned to 256 bytes, any other key that of the last trap key looked at whose name cleans to it |
| `MetaLaws.CleanTwice` | internal/alert/crowdsec.go:325-345 | cleaning clean text changes nothing |
| `MetaLaws.BoundSettles` | internal/alert/crowdsec.go:353-385 | the result has at most 32 keys, all clean with clean values, and every sensor key of the input |
| `MetaLaws.SecondPass` | internal/alert/crowdsec.go:353-385 | a second pass drops exactly the keys that became secret names |
| `MetaLaws.IdempotentIff` | internal/alert/crowdsec.go:353-356 | bounding twice is bounding once if and only if no trap key of the input that is looked at before 32 names are out cleans to a secret name |
| `MetaLaws.IdempotentWhenFew` | internal/alert/crowdsec.go:353-356 | with at most 32 keys, if and only if no trap key of the input cleans to a secret name |
| `MetaLaws.NoSecretLeaves` | internal/alert/crowdsec.go:347-374 | after the two passes of the program no trap key is a secret name |
| `MetaLaws.UnmaskedDiffers` | internal/alert/crowdsec.go:353-385 | one pass is not enough for every trap key that cleans to a secret name |
| `MetaLaws.TwoPassesSettle` | internal/alert/crowdsec.go:665-680 | after two passes nothing changes any more |
| `MetaLaws.OnePassIsNotEnough` | internal/alert/crowdsec.go:353-385 | under all rules a blanked character in front of a name is a key for which one pass is not enough, if the character hides the name and a space does not |
| `MetaLaws.HiddenPass` | internal/alert/crowdsec.go:353-385 | a zero width space in front of pass is such a key |
| `MetaLaws.CutIsNotEnough` | internal/alert/crowdsec.go:338-343 | under all rules a secret name of 64 bytes with more behind it is a key for which one pass is not enough, if that hides the name |
| `MetaLaws.CutPass` | internal/alert/crowdsec.go:338-343 | pass behind sixty spaces with more behind it is such a key |
| `Uel.UelStripper.StripChunk` | internal/trap/pjl.go:230-244 | the suffix loop lets out and holds back what is specified; the carry is a proper prefix of the sequence, at most 8 bytes |
| `Uel.UelStripper.Flush` | internal/trap/pjl.go:246-250 | returns the carry and clears it |
| `Uel.UelStripper.StripStream` | internal/trap/pjl.go:302-384 | reading chunks one after another and flushing is the chunked removal |
| `Uel.StripSplit` | internal/trap/pjl.go:217-244 | a pass over two parts is the pass over the first up to what it holds, then the pass from there |
| `UelChunks.PassConserves` | internal/trap/pjl.go:217-222 | a pass removes each occurrence and nothing else |
| `UelChunks.BytesConserved` | internal/trap/pjl.go:224-250 | bytes in = bytes out and held + 9 for each removal, over any chunks |
| `UelChunks.ChunksAgree` | internal/trap/pjl.go:224-250 | if one pass leaves no sequence every chunking gives that pass |
| `UelChunks.SpliceBreaks` | internal/trap/pjl.go:224-250 | if one pass leaves a sequence some chunking gives another result |
| `UelChunks.ChunkingIrrelevantIff` | internal/trap/pjl.go:224-250 | every chunking agrees with one pass if and only if one pass leaves no sequence behind |
| `UelSpread.LeftIffSpread` | internal/trap/pjl.go:217-244 | one pass leaves a sequence behind if and only if the stream has one with whole sequences between its bytes |
| `UelSpread.ChunkingIrrelevantUnlessSpread` | internal/trap/pjl.go:224-250 | every chunking agrees with one pass if and only if the stream has no such sequence |
| `UelChunks.NestedMarkerBreaks` | internal/trap/pjl.go:224-250 | a sequence inside another is a stream on which they differ |
| `UelChunks.SpliceFreeIrrelevant` | internal/trap/pjl.go:224-250 | if no sequence directly follows a non-empty proper prefix of one, every chunking gives one-pass removal |
| `KexInit.FindIdent` | internal/trap/ssh_identity.go:56-75 | the line loop finds the identification line or the unfinished line |
| `KexInit.ReadNameLists` | internal/trap/ssh_identity.go:89-102 | the list loop reads the lists or fails where the encoding does |
| `KexInit.ReadPacket` | internal/trap/ssh_identity.go:76-103 | the packet is too short, final without names, or final with the four names |
| `KexInit.ScanKexInitFrom` | internal/trap/ssh_identity.go:52-104 | the scan as computed is the specified scan |
| `KexPacket.ListsReadBack` | internal/trap/ssh_identity.go:89-102 | name-lists encoded as in RFC 4253 are read back |
| `KexPacket.ClientReadsBack` | internal/trap/ssh_identity.go:42-104 | for any client that sends an identification line and a KEXINIT of at most 16 KiB the scan is final with its lists 0, 2, 4 and 6 |
| `KexForms.NamesIff` | internal/trap/ssh_identity.go:42-104 | the scan finds names if and only if the stream is lines that are no identification, one that is, and a KEXINIT packet of at most 16 KiB with these lists 0, 2, 4 and 6 |
| `KexForms.PayloadIff` | internal/trap/ssh_identity.go:84-103 | a payload gives names if and only if it is the number 20, sixteen bytes and eight name-lists |
| `KexForms.DoneIff` | internal/trap/ssh_identity.go:52-104 | the scan is over if and only if the stream has identified and what follows has a length or padding that no packet has, or the whole packet |
| `KexSniffer.LinesExtend` | internal/trap/ssh_identity.go:52-75 | a found identification line stays; resuming at the stored offset loses no line |
| `KexSniffer.PacketExtend` | internal/trap/ssh_identity.go:76-103 | a verdict on the packet is final; fewer bytes than needed change nothing |
| `KexSniffer.ScanExtend` | internal/trap/ssh_identity.go:47-104 | a finished scan is stable under more input; an unfinished one resumes without loss and cannot finish below need |
| `KexSniffer.KexSniffConn.constructor` | internal/trap/ssh_identity.go:119-121 | the tap starts fresh |
| `KexSniffer.KexSniffConn.FeedBytes` | internal/trap/ssh_identity.go:131-154 | refines one feed, within the 16 KiB buffer |
| `KexSniffer.AnyChunking` | internal/trap/ssh_identity.go:106-160 | the HASSH after any chunking is that of one scan over the first 16 KiB |
| `KexSniffer.StopsWhenFinal` | internal/trap/ssh_identity.go:131-154 | the tap stops when that scan is final and else only with a full buffer |
| `KexOpen.OpenBefore` | internal/trap/ssh_identity.go:131-154 | before 16 KiB the tap is open if and only if the scan is not final |
| `KexOpen.OpenIff` | internal/trap/ssh_identity.go:131-154 | after 16 KiB the tap is open if and only if some boundary between two chunks, before that, came behind the identification line and a header that asks for more than 16 KiB |
| `KexOpen.ChunkingDecides` | internal/trap/ssh_identity.go:131-154 | a stream that stays open in two chunks and stops in one |
| `FixtureKeys.CheckDuplicateKeys` | internal/config/httpfixtures.go:144-233 | the token loop is the stack machine, which never pops an empty stack on properly nested tokens |
| `FixtureTree.WalkIsSearch` | internal/config/httpfixtures.go:140-233 | on the tokens of any object, whatever follows, the walk reports the first repetition of the tree in document order |
| `FixtureTree.CutStreamAgrees` | internal/config/httpfixtures.go:158-162 | what the walk reports for a cut stream it reports for the whole stream |
| `FixtureTree.ErrorIff` | internal/config/httpfixtures.go:140-233 | the walk reports an error if and only if some object at any depth repeats a key |
| `FixturePlaces.ErrorNamesPlace` | internal/config/httpfixtures.go:180-191 | the reported key is repeated by the object the error names: top level, fixture entry by 1-based position, headers of that entry, or elsewhere |
| `Limits.AcquireValid` | internal/trap/limiter.go:22-34 | an acquire keeps the total equal to the sum of the counts and both within the caps |
| `Limits.ReleaseValid` | internal/trap/limiter.go:36-44 | a release keeps the same |
| `Limits.ReleaseUndoes` | internal/trap/limiter.go:22-44 | a release undoes an admitted acquire |
| `Limits.SharedLimiter.constructor` | internal/trap/limiter.go:14-20 | the limiter starts empty and valid |
| `Limits.SharedLimiter.TakeSlot` | internal/trap/limiter.go:22-34 | refines the acquire and keeps the invariant |
| `Limits.SharedLimiter.GiveBack` | internal/trap/limiter.go:36-44 | refines the release and keeps the invariant |
| `TcpRuns.RunInv` | internal/trap/tcpserver.go:134-229 | the whole invariant holds in every interleaving of dispatch, serve and Stop of any number of servers on one limiter |
| `TcpRuns.SlotsWithinCaps` | internal/trap/tcpserver.go:134-193 | limiter total = sum per source = slots held, each within its cap |
| `TcpRuns.GoneIsSettled` | internal/trap/tcpserver.go:134-193 | a finished connection is closed and gave back the slot it took, at most one |
| `TcpRuns.StepStopped` | internal/trap/tcpserver.go:131-165 | a stopping server only loses connections and workers |
| `TcpRuns.StoppedForGood` | internal/trap/tcpserver.go:195-229 | once stopping is set and the wait group is zero no connection is registered and none ever will be |
| `TcpRuns.StopLeavesNoneOpen` | internal/trap/tcpserver.go:198-219 | when a Stop call has worked off its snapshot no registered connection of its server is open |
| `TcpGrants.SlotIff` | internal/trap/tcpserver.go:134-165 | in every interleaving a connection that asks gets a slot if and only if fewer connections than the caps, in all and of its source, were given one and have not given it back; else it is closed |
| `TcpGrants.ServedIff` | internal/trap/tcpserver.go:134-165 | a connection with a slot is served if and only if Stop was not called on its server before |
| `ProxyRuns.RunInv` | internal/trap/proxyproto.go:93-203 | the whole invariant holds in every interleaving of accept loop, handshakes and Close |
| `ProxyRuns.HandshakesBounded` | internal/trap/proxyproto.go:93-188 | there are never more handshakes than the semaphore admits |
| `ProxyRuns.EveryConnAccounted` | internal/trap/proxyproto.go:93-203 | every connection is in exactly one place: in a handshake, returned by Accept once, or closed |
| `ProxyRuns.HandedIsVetted` | internal/trap/proxyproto.go:81-188 | what Accept returns came from a trusted peer with a valid header |
| `ProxyRuns.CloseReachesPending` | internal/trap/proxyproto.go:190-203 | after Close every connection still pending is closed |
| `ProxyRuns.HandedClosedIff` | internal/trap/proxyproto.go:150-203 | Accept returns a closed connection if and only if Close found it pending |
| `ProxyRuns.ClosedIsHanded` | internal/trap/proxyproto.go:150-203 | a run in which Accept returns a closed connection |
| `ProxyGrants.HandshakeIff` | internal/trap/proxyproto.go:119-134 | in every interleaving a new connection gets a handshake if and only if its peer is trusted and fewer than the limit have started and not returned; else it is closed |
| `ProxyGrants.ListedIff` | internal/trap/proxyproto.go:150-161 | its header is waited for if and only if the listener was not closed before |
| `ProxyGrants.HandedCarriedHeader` | internal/trap/proxyproto.go:119-188 | what Accept returns arrived from a trusted peer and its header was read as valid |
| `Bson.ValueSize` | internal/trap/mongodb.go:125-190 | the size of a value never exceeds the remaining bytes |
| `Bson.BsonValueSize` | internal/trap/mongodb.go:125-190 | the size as computed, with every rejection |
| `Bson.WalkElems` | internal/trap/mongodb.go:194-224 | the element loop visits the specified elements, at most 64, and stops at the first malformed one |
| `Bson.BsonWalk` | internal/trap/mongodb.go:192-224 | the walk with its checks of the document frame |
| `BsonWriter.BsonDoc.constructor` | internal/trap/mongodb.go:399-399 | an empty document, all of it complete |
| `BsonWriter.BsonDoc.Append` | internal/trap/mongodb.go:401-405 | appends exactly one element; a document of complete elements stays one if it is complete |
| `BsonWriter.BsonDoc.Str` | internal/trap/mongodb.go:407-413 | appends a string element, complete if the key has no zero byte and the length fits 32 bits |
| `BsonWriter.BsonDoc.I32` | internal/trap/mongodb.go:415-419 | appends a 32-bit element, complete if the key has no zero byte |
| `BsonWriter.BsonDoc.Boolean` | internal/trap/mongodb.go:421-429 | appends a boolean element, complete if the key has no zero byte |
| `BsonWriter.BsonDoc.Wide` | internal/trap/mongodb.go:431-441 | appends a double or date element, complete if the key has no zero byte |
| `BsonWriter.BsonDoc.Ints` | internal/trap/mongodb.go:443-451 | appends an array element, itself a document that reads back to the integers, up to the first 64, if its length fits 32 bits |
| `BsonWriter.BsonDoc.Bytes` | internal/trap/mongodb.go:453-457 | the finished document of the appended elements; with complete elements and a length that fits 32 bits the walk reads it back to them, up to the first 64 |
| `BsonWriter.ErrorDoc` | internal/trap/mongodb.go:492-498 | an error reply whose length fits 32 bits reads back to its four elements, the message and the name among them |
| `BsonWriter.SizeLocal` | internal/trap/mongodb.go:128-190 | the size of a complete value does not depend on what follows it |
| `BsonWriter.ElemReadsBack` | internal/trap/mongodb.go:194-224 | a complete element is read where it stands, whatever surrounds it |
| `BsonWriter.DocumentReadsBack` | internal/trap/mongodb.go:192-224 | walking a built document yields its elements in order, up to the first 64 |
| `BsonForms.ValueSizeIff` | internal/trap/mongodb.go:125-190 | for every type the size is that of the value in front, by the layouts of the BSON specification |
| `BsonForms.WalkTells` | internal/trap/mongodb.go:192-224 | a document is refused if and only if its length or closing byte is wrong; else the walk visits the elements in front, at most 64, and ends without an error at the end or after 64, with one where no element stands |
| `BsonWriter.StringComplete` | internal/trap/mongodb.go:407-413 | a written string is one complete value and decodes to itself |
| `BsonWriter.FixedComplete` | internal/trap/mongodb.go:415-441 | a written number, boolean or date is one complete value |
| `BsonWriter.ArrayComplete` | internal/trap/mongodb.go:443-451 | a written array is one complete value |
| `BsonWriter.IntsComplete` | internal/trap/mongodb.go:443-451 | every element of a written array is complete |
| `Mongo.FindSection` | internal/trap/mongodb.go:285-306 | the section loop finds the first section of kind 0 |
| `Mongo.FindMsgDocument` | internal/trap/mongodb.go:269-309 | the command document of an OP_MSG, with every rejection |
| `Mongo.FindQueryDocument` | internal/trap/mongodb.go:308-329 | the command document or plain query of an OP_QUERY, with every rejection |
| `Mongo.ParseMongoMessage` | internal/trap/mongodb.go:261-368 | the parsed request or the verdict |
| `MongoFrames.ReplyReadsBack` | internal/trap/mongodb.go:500-522 | a reply within 64 KiB is read back as one message with its ids, whatever follows |
| `MongoFrames.MsgParsesBack` | internal/trap/mongodb.go:264-368 | a document framed as OP_MSG parses to the key of its first element and the fields of the next ones |
| `MongoFrames.FrameRoundTrip` | internal/trap/mongodb.go:82-108 | a non-empty document framed as OP_MSG within 64 KiB reads and parses back to its first key |
| `MongoFrames.DatabaseIsLast` | internal/trap/mongodb.go:336-362 | the database of a request is the last string under $db after the first element, others under that key passed over |
| `MongoFrames.DatabaseStays` | internal/trap/mongodb.go:336-362 | without such a string the database is the one of the namespace |
| `MongoFields.DocumentFills` | internal/trap/mongodb.go:330-368 | a command document gives a request if and only if it is well formed and not empty; then the command is its first key, and database, mechanism, user and payload are each the text of the last later element that has one for it, or what the message said |
| `MongoFields.MessageIff` | internal/trap/mongodb.go:82-108 | a message is read if and only if the bytes are its header, whose length counts header and body and is at most 65536, the body and the rest |
| `MongoFields.NoMessageIff` | internal/trap/mongodb.go:82-108 | else the length is too large or too small, or the bytes end first, each if and only if so |
| `MongoBodies.CommandParsesBack` | internal/trap/mongodb.go:308-368 | a document sent to db.$cmd as OP_QUERY parses to db, the key of its first element and the fields of the next ones |
| `MongoBodies.QueryParsesBack` | internal/trap/mongodb.go:308-329 | any other namespace with a dot parses to query and the part before its first dot |
| `MongoBodies.DotlessParsesBack` | internal/trap/mongodb.go:308-329 | a namespace without a dot parses to query and itself |
| `MongoBodies.LocatedIsGood` | internal/trap/mongodb.go:308-329 | every OP_QUERY body that is not rejected has flags, a namespace of at most 256 bytes, two numbers and a document |
| `MongoBodies.SequencesSkipped` | internal/trap/mongodb.go:285-306 | sections of kind 1 in front of the command document are skipped and what follows it is not read |
| `MongoBodies.CommandIsBehind` | internal/trap/mongodb.go:285-306 | a command document is only found behind sections of kind 1 |
| `MongoBodies.MsgBodyParsesBack` | internal/trap/mongodb.go:264-368 | a document in an OP_MSG with any sections around it, with or without a checksum, parses to the key of its first element and the fields of the next ones |
| `MongoBodies.MsgLocatedIff` | internal/trap/mongodb.go:264-309 | a command document is found in an OP_MSG if and only if the body is flags of which only the first two of sixteen may be set, sections of kind 1, the document, anything, and by flag a checksum |
| `RateLimit.UdpRateLimiter.constructor` | internal/trap/ratelimit.go:50-64 | a full global bucket and no sources |
| `RateLimit.UdpRateLimiter.MakeRoom` | internal/trap/ratelimit.go:93-108 | the sweep loop deletes exactly the idle sources, at most once per second |
| `RateLimit.UdpRateLimiter.AllowPacket` | internal/trap/ratelimit.go:74-89 | refines the decision on one packet |
| `RateRuns.MoveSpends` | internal/trap/ratelimit.go:20-33 | a packet let through costs a whole token |
| `RateRuns.GlobalBudget` | internal/trap/ratelimit.go:74-89 | packets admitted in any stretch of a run are at most global + global x seconds |
| `RateSweep.IdleIsFresh` | internal/trap/ratelimit.go:91-108 | a take from an idle bucket is a take from a new full one |
| `RateSweep.SweepChangesNothing` | internal/trap/ratelimit.go:91-108 | on every run the limiter decides as one that never forgets a source, packets without room being bound by the global bucket alone |
| `RateLaw.BucketIsLawful` | internal/trap/ratelimit.go:20-33 | a bucket that starts full serves a packet if and only if, counted from every earlier packet and from itself, the packets served since leave a whole token of burst + rate x seconds |
| `RateLaw.LawDecides` | internal/trap/ratelimit.go:20-33 | two trails of the same packets that both follow this law are equal |
| `RateSources.SourceDecides` | internal/trap/ratelimit.go:74-108 | on every run a packet passes if and only if, by that law, the source has a token left for it, or had no room for a bucket, and a global token is left; packets without room take no token of the source, and packets it refuses no global one |
| `RateSources.SourceBudget` | internal/trap/ratelimit.go:20-108 | packets of a source with room admitted in any stretch are at most burst + rate x seconds, however often its bucket was swept |
| `RateSources.RoomIff` | internal/trap/ratelimit.go:91-108 | a packet has room if and only if its source is tracked, fewer are than the cap, or a second has passed since the last sweep and fewer are not idle |
| `RateSources.SourcesFit` | internal/trap/ratelimit.go:91-108 | there are never more sources tracked than the cap |
| `Ber.BerLength` | internal/trap/ber.go:5-20 | the length bytes, the low 32 bits without leading zeros |
| `Ber.TwosComplement` | internal/trap/ber.go:22-34 | the byte loop gives the shortest two's complement form |
| `Ber.BerInteger` | internal/trap/ber.go:22-38 | tag, length and that form |
| `Ber.BerOctetString` | internal/trap/ber.go:40-45 | tag, length and data |
| `Ber.BerSequence` | internal/trap/ber.go:47-56 | tag, length and the concatenated children |
| `Ber.BerReadTlv` | internal/trap/ldap.go:168-202 | the reader of an element, with every rejection |
| `Ber.BerReadInteger` | internal/trap/ldap.go:204-223 | the reader of an integer, with every rejection |
| `Ber.BerReadElement` | internal/trap/ldap.go:115-157 | the reader off a stream, with the length cap |
| `BerLaws.IntBytesShortest` | internal/trap/ber.go:22-34 | the first nine bits of an encoded integer are never all equal |
| `BerLaws.NoShorterForm` | internal/trap/ber.go:22-34 | no shorter byte string spells the same integer |
| `BerLaws.SpellInRange` | internal/trap/ldap.go:215-221 | reading at most eight bytes never leaves the 64-bit range |
| `BerLaws.IntegerReadsBack` | internal/trap/ldap.go:204-223 | every 64-bit integer with any suffix is read back, from at most eight bytes |
| `BerLaws.TlvReadsBack` | internal/trap/ldap.go:168-202 | reading undoes writing for every value shorter than 2^32 bytes |
| `BerLaws.ElementReadsBack` | internal/trap/ldap.go:115-157 | an element within the cap is read off a stream and the stream goes on behind it |
| `BerForms.ReadTlvIff` | internal/trap/ldap.go:168-202 | an element is read if and only if the bytes are its tag, a length in one byte or in up to four behind their number, that many bytes, and anything |
| `BerForms.ReadElementIff` | internal/trap/ldap.go:115-157 | off a stream the same, a long length having at least one byte and being at most 65536, and the rest is left |
| `BerForms.ReadIntegerIff` | internal/trap/ldap.go:204-223 | an integer is read if and only if the bytes are the tag 2, a length from 1 to 8, that many bytes of two's complement and the rest |
| `BerLaws.BerBuildBindResponse` | internal/trap/ldap.go:236-243 | the bind response as nested elements |
| `BerLaws.BerBuildSearchDone` | internal/trap/ldap.go:245-252 | the search response as nested elements |
| `BerLaws.ResponseReadsBack` | internal/trap/ldap.go:236-252 | a response on a stream reads back to its own message ID, operation and result code |
| `Sort16.SortU16` | internal/trap/tlsfp.go:283-289 | the in-place sort leaves the sorted form of the array |
| `Sort16.SinkLast` | internal/trap/tlsfp.go:283-289 | the inner loop inserts the element into the sorted prefix |
| `Sort16.InOrderSorts` | internal/trap/tlsfp.go:283-289 | that form is sorted and a permutation |
| `Sort16.SortedUnique` | internal/trap/tlsfp.go:283-289 | sorted sequences of one multiset are equal |
| `TlsFingerprint.GreaseValues` | internal/trap/tlsfp.go:46-49 | the GREASE test accepts exactly the sixteen values of RFC 8701 |
| `TlsFingerprint.Keep` | internal/trap/tlsfp.go:188-196 | the filter loop keeps the accepted values in order |
| `TlsFingerprint.BestVersion` | internal/trap/tlsfp.go:226-236 | the version loop finds the highest plain value |
| `TlsFingerprint.Ja4Of` | internal/trap/tlsfp.go:300-348 | the JA4 string as the code builds it |
| `TlsLaws.Ja3TextIff` | internal/trap/tlsfp.go:200-216 | two hellos give JA3 the same text if and only if they agree on version, points and the lists in wire order without GREASE |
| `TlsLaws.CipherTextIff` | internal/trap/tlsfp.go:300-332 | the cipher text of JA4 is the same if and only if the ciphers are a permutation, GREASE aside |
| `TlsLaws.ExtensionTextIff` | internal/trap/tlsfp.go:306-344 | the extension text is the same if and only if the hashed extensions are a permutation and, unless there are none, the signature algorithms agree in order |
| `TlsLaws.Ja4Permutes` | internal/trap/tlsfp.go:299-348 | permuting ciphers and extensions leaves JA4 unchanged, whatever the digest |
| `TlsLaws.GreaseChangesNothing` | internal/trap/tlsfp.go:198-348 | inserting GREASE anywhere changes neither JA3 nor JA4, whatever the digests |
| `TlsLaws.HighestIsMax` | internal/trap/tlsfp.go:223-236 | the version JA4 uses is the highest plain supported version |
| `TlsLayout.Ja3Layout` | internal/trap/tlsfp.go:200-216 | the JA3 text read back: five parts, the version, ciphers, extensions, groups and point formats, in decimal and wire order without GREASE |
| `TlsLayout.CipherTextReads` | internal/trap/tlsfp.go:300-332 | the hashed cipher text read back: every cipher but GREASE as four hexadecimal digits, in ascending order |
| `TlsLayout.ExtensionTextReads` | internal/trap/tlsfp.go:306-344 | the hashed extension text read back: the extensions but GREASE, server name and ALPN in ascending order, then the signature algorithms in wire order |
| `TlsLayout.Ja4Layout` | internal/trap/tlsfp.go:300-348 | the JA4 string read back by position: t, version, server name, number of ciphers, number of extensions, ALPN, the digest of the cipher text, the digest of the extension text |
| `HelloCapture.HelloConn.constructor` | internal/trap/tlsfp.go:379-386 | the capture starts empty |
| `HelloCapture.HelloConn.Read` | internal/trap/tlsfp.go:388-414 | refines one capture, within the record limit |
| `HelloCapture.AnyChunking` | internal/trap/tlsfp.go:374-414 | any chunking of a stream captures the record the whole stream would |
| `HelloCapture.CapturedIff` | internal/trap/tlsfp.go:374-414 | in any chunks the capture ends with a record if and only if the stream starts with that handshake record of at most 16 KiB, without one if and only if it cannot, and until then keeps everything |

## Left out

- HTTP to the CrowdSec API, login, token refresh and JSON encoding: library input and output, reduced to an outcome and a size.
- Logging, metrics registration and gauges: emitted summaries and counters are values of the model.
- The retry delays and time limits of `hold`, `flushWithin` and `CloseContext`: a step may happen at any time.
- Address parsing, the routable ranges and the proxy trust tables: predicates on an event or a peer.
- The PROXY header parsers: a header is valid or not.
- The parser of the ClientHello record: fingerprints start from a parsed hello.
- `bsonWalk` with a visitor that stops early: the only caller never does.
- The SASL user name of a MongoDB login: a small text format without state.
- PJL commands and responses, and the line-protocol traps: thin input and output with little state.
- `Sensor.Alert` and `Sensor.SessionEnd`: thin callers of the scan tracker, the probe log and the sink.
- The validation of fixture entries after the duplicate check: easy bounds on single fields.
- Environment parsing, start-up, the documentation tools and the builder UI.
- RateLimit.UdpRateLimiter.MakeRoom: the idle period is an exact quotient, while the program rounds it down to a nanosecond.
- CooldownRuns.PassesAreSpaced: holds for the classes probe, attack and scan; ClasslessNotSpaced shows that it is false for events without a class.
