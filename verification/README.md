# Kinflow: a verified model

Kinflow keeps a family's events, makes reminders for them, and delivers each reminder through a
gateway. This project models its five connected parts and proves what they promise over every
sequence of calls:

- the **scheduling engine** over its in-memory store: intents, version history, reminders,
  delivery with retries, reconciliation, receipts and the attempt ledger;
- the **daemon dispatch**: destination resolution, the classification of adapter results, the life
  of an attempt that was accepted without proof, the cycle, the reconnect budget and the deferral
  counter;
- the **gateway adapter**: the mapping of provider responses and the replay cache;
- the **SQLite store**: its text-ordered queries and its version guard under several engines;
- the **migration runner**: its protocol when a run dies anywhere.

## How it is built

Each stateful part has two layers. A pure state and step function (`Engine`, `Adapter`, `Dispatch`,
`Runtime`, `Versions`, `Migrations`, `Reconnect`, `Fairness`) says what every call does, branch by
branch. A class (`Scheduler.FamilyScheduler` and `Scheduler.InMemoryStateStore`,
`AdapterRuns.OpenClawGatewayAdapter`, `DispatchCallbacks.DispatchTables`, `Runtime.DaemonRuntime`,
`Versions.SqliteEvents`, `Migrations.Database`, `Reconnect.ReconnectState`,
`Fairness.FairnessTracker`) does the same work in place, with loops and field updates, and each of
its methods is proved to do exactly one step. The theorems are about runs of steps from the empty
state, for every configuration, every provider, every clock reading and every interleaving.

What a step does is said a second time, without the step functions, in the results whose names end
in `Exact`, in `IntentReminders`, the `EngineAudit` logs and `CycleOutcome`: in terms of the raw
fields of intents, reminders, rows, answers and settings before and after, with the numbers of the
source written out.

- `Text`, `OrderedDict`, `Sorting`: text operations and code point order, insertion-ordered
  dictionaries, stable sorting.
- `Destination`: the write-time and the dispatch-time check of a destination.
- `Engine`, `EngineEffects`, `EngineTables`, `EngineLedger`, `EngineReceipts`, `EngineTheorems`,
  `EngineRebuilds`, `Scheduler`: the engine, the closed form of every step, the invariants, the
  results over runs, the objects. `EngineIntents`, `EngineAnswers`, `EngineDelivery`, `EngineAudit`:
  what an intent, a delivery pass and a reconciliation batch answer, store and log.
- `Adapter`, `AdapterRuns`, `Seam`, `AdapterOutcome`: the adapter, its cache over runs, the path from
  gateway answer to decision, and what one send does.
- `Dispatch`, `DispatchCallbacks`, `DispatchTheorems`, `DispatchOutcome`, `DispatchReconcile`,
  `DispatchRuns`, `Runtime`, `CycleOutcome`, `Drain`: the daemon, from one dispatch and one reconcile
  to dispatches through one adapter and runs of whole cycles.
- `Timestamps`, `StoreQueries`, `Versions`, `Migrations`: persistence.
- `Reconnect`, `Fairness`: the daemon's counters.

## What the proofs found

- The intent hash leaves out `confirmed` (src/kinflow/engine.py:864-878), so a confirmed resend can be
  lost. Witness: an unconfirmed intent, then the same one confirmed under a new message id an hour
  later, is answered "blocked" and makes nothing, although confirmed straight away it makes its event
  (`EngineIntents.ConfirmationMustComeFirst`, `EngineIntents.WeddingIsResent`). Exact condition, for
  every reachable state: a confirmed and applicable intent is lost if and only if a receipt with its
  hash is inside the window (`EngineIntents.ConfirmedIntentIsLostExactly`).
- Reconciling keeps the exact due list if and only if every reminder it moves back has reached its
  trigger (`EngineTheorems.ReconcileKeepsDueList`). A retry delay that is not negative guarantees
  this in every reachable state; so `has_more` never falls by reconciling. With a negative delay and a
  clock that goes back it fails: a reminder refused at its trigger is due before it, and a reconcile
  then takes it off the list (`EngineDelivery.NegativeDelayLosesDue`).
- The skip of an already visible delivery key (src/kinflow/engine.py:393) is never taken, because a
  visible key belongs to a delivered reminder (`EngineTheorems.VisibleKeysAreNeverDue`).
- The engine's evidence test lists the reminder's attempt ids besides the prefixes `att-` and
  `rcpt:att-` (src/kinflow/engine.py:514-537); the list adds nothing (`EngineDelivery.EvidenceIsExact`).
- Several candidates for an intent are always ambiguous: the test `top_count >= 1`
  (src/kinflow/engine.py:730-733) cannot fail.
- Only a returned result protects against a second send. A send that ends in an exception stores
  nothing and the same message is sent again (`AdapterRuns.ThrownSendIsSentAgain`).
- The integrity alarm sounds exactly when the result a dispatch gets is of an attempt for which the
  provider, now or earlier, gave an alarming answer (`Seam.AlarmSoundsExactly`): with the default maps
  an accepted success with a verifiable receipt and no status code (`Seam.DefaultMapsAlarmFor`). Every
  replay of such a result sounds it again (`Seam.AlarmSoundsAgain`). The production send function never
  gives such an answer, so over no production run does a dispatch stop the runner
  (`DispatchRuns.ProductionNeverStops`).
- The daemon's counters of accepted, unverified attempts balance with its gauge if and only if no row
  was open when the process started (`DispatchTheorems.ReconcileBalances`). One unproven dispatch and a
  restart are enough to unbalance them (`DispatchTheorems.OpenRowOutlivesRestart`).
- Quiet hours are stored unchecked. They mean the clock hours from start forward to end exactly when
  `EngineDelivery.Wraps` holds of the two numbers (`EngineDelivery.QuietHoursWrap`): always for hours of
  the day, still for 22 to 24, not for 22 to 30, which is loud at two in the morning
  (`EngineDelivery.SomeEndsBeyondMidnightWrap`).
- The fail-closed branch for a resolved destination with incomplete provenance
  (scripts/daemon_run.py:871-924) is never taken (`Destination.OkIsComplete`).
- Nothing clears an exhausted reconnect budget, not even a later success
  (`Reconnect.ExhaustedIsForever`), although the success does reset the attempt count.
- Two creates that read the same next id do not end as a version conflict: the second one is refused
  by the primary key (`Versions.CreateSucceedsExactly`), which the engine does not catch. Two reads and
  a write lead there (`Versions.SecondCreateIsRefused`).

## Model

| member | source | states |
|---|---|---|
| Destination.ResolveFieldWellFormed | src/kinflow/engine.py:141-178 | writing keeps stored destinations well formed, and accepts a full pair exactly when the trimmed pair is well formed |
| Destination.WellFormedPassesDispatch | scripts/daemon_run.py:758-821 | the dispatch-time check passes a destination that the engine wrote, unchanged |
| Destination.WrittenDestinationIsUsed | scripts/daemon_run.py:823-856 | an override, else a request default, resolves to exactly the written pair; only the recipient's own target can be invalid or missing |
| Destination.OkIsComplete | scripts/daemon_run.py:871-884 | a resolution is ok exactly when its provenance is complete, whatever was stored |
| EngineEffects.ScheduleEffect | src/kinflow/engine.py:737-785 | scheduling adds one reminder per person, scheduled or blocked by a missing time zone, and touches no other |
| EngineEffects.InvalidateAllEffect | src/kinflow/engine.py:796-814 | invalidation changes exactly the schedulable older reminders of the event with a future trigger |
| EngineEffects.ReconcileEffect | src/kinflow/engine.py:539-564 | reconciling a batch moves exactly its attempted reminders whose retry time has come, and keeps their attempts |
| EngineEffects.CreateEffect | src/kinflow/engine.py:618-646 | a create makes version 1 of a new event with its reminders, or nothing |
| EngineEffects.UpdateEffect | src/kinflow/engine.py:648-680 | an update appends one version, invalidates, schedules, or changes nothing |
| EngineEffects.CancelEffect | src/kinflow/engine.py:682-707 | a cancel appends an inactive copy and schedules nothing |
| EngineEffects.IntakeEffect | src/kinflow/engine.py:180-320 | the events and reminders change exactly when an intent reaches the mutation stage and is answered with a new version, then by exactly that version; deliveries are left alone |
| EngineEffects.NotReachedIsQuiet | src/kinflow/engine.py:180-271 | anything short of the mutation stage writes only audit rows and a receipt |
| EngineTables.RunKeepsTables | src/kinflow/engine.py:618-785 | numbering, exact reminder table, dead superseded reminders and inherited destinations are kept by every run |
| EngineTheorems.ReminderTableIsExact | src/kinflow/engine.py:737-785 | in every reachable state the reminders are exactly those of the audiences of the active versions, with the fields of their version |
| EngineTheorems.SupersededRemindersStayDead | src/kinflow/engine.py:796-814 | a schedulable reminder of an old version had triggered when that version was superseded |
| EngineTheorems.TerminalIsForever | src/kinflow/engine.py:322-511 | a delivered, failed, suppressed, invalidated or blocked reminder never changes again |
| EngineLedger.RunKeepsLedger | src/kinflow/engine.py:322-511 | every run keeps the ledger in step with each reminder |
| EngineTheorems.LedgerDeterminesReminder | src/kinflow/engine.py:322-511 | rows are numbered without gaps, all but the last are transient failures, attempts equal provider calls, the next attempt is due one retry delay after the last row, and final statuses are those of that row |
| EngineTheorems.ProviderCallsAreBounded | src/kinflow/engine.py:389-510 | a reminder reaches the provider at most max(0, max_retries) + 1 times and at most max(0, store limit) + 1 times, and succeeds at most once, as its last call, engine restarts included |
| EngineTheorems.VisibleKeysAreNeverDue | src/kinflow/engine.py:389-394 | no due reminder has a visible delivery key |
| EngineTheorems.ReconcileKeepsDueList | src/kinflow/engine.py:539-571 | reconciling keeps the due list if and only if what it moves back has triggered |
| EngineTheorems.ReachableReconcileKeepsDueList | src/kinflow/engine.py:539-571 | with a retry delay that is not negative, has_more is what it would have been before reconciling, and attempts stay |
| EngineDelivery.NegativeDelayLosesDue | src/kinflow/engine.py:461-571 | with a negative delay, a reminder refused at its trigger is due before its trigger, and a reconcile at that reading of the clock takes it off the due list |
| EngineTheorems.RetriesTerminate | src/kinflow/engine.py:461-510 | without new intents, provider calls are paid from a budget that only falls |
| EngineTheorems.ReachableDestinationsResolve | src/kinflow/engine.py:141-178 | for every reachable reminder with a written destination the resolver, given override before default, yields exactly that pair; that a dispatch asks it in this order is DispatchOutcome.DispatchIsExact |
| EngineTheorems.NewestVersionHasLastSetting | src/kinflow/engine.py:141-178 | the newest version carries the last explicit setting of the event's history |
| EngineReceipts.FindRecentIsNewest | src/kinflow/persistence/store.py:133-141 | the lookup finds the newest receipt with the hash inside the window, and fails only when there is none |
| EngineReceipts.IntakeReceipts | src/kinflow/engine.py:180-320 | an intent stores at most its own receipt, with its clock reading, hash and answer |
| EngineReceipts.ResendIsReplayed | src/kinflow/engine.py:194-208 | a resend inside the window gets the stored answer and changes only the receipts, even when only the resend is confirmed |
| EngineTheorems.DuplicateIntentsAgree | src/kinflow/engine.py:194-208 | with a clock that never goes back, receipts with equal hashes inside the window agree |
| EngineTheorems.ReceiptsAreWriteOnce | src/kinflow/persistence/store.py:143-153 | a stored receipt is never changed |
| EngineTheorems.MessageIsAnsweredOnce | src/kinflow/engine.py:189-191 | a message id that was answered gets its first answer again, and nothing changes |
| EngineTheorems.DuplicateIntentMutatesNothing | src/kinflow/engine.py:194-208 | a duplicate under a new message id mutates nothing, across any calls in between |
| EngineTheorems.EventsChangeOnlyByConfirmedIntents | src/kinflow/engine.py:180-320 | what a change of the event tables presupposes and is: a confirmed, unambiguous, first-seen intent, and one version of one event |
| EngineIntents.ResolutionIsExact | src/kinflow/engine.py:709-735 | an intent that names a known event is about it; any other is matched, ambiguous or unmatched exactly when one, several or no active events are similar enough |
| EngineIntents.AppliedIntentArrives | src/kinflow/engine.py:618-707 | an applied intent leaves its event with exactly what it gives, destinations trimmed and people sorted, and otherwise what the event had; a cancel keeps everything and ends the event |
| EngineIntents.IntentIsAppliedExactly | src/kinflow/engine.py:180-320 | in every reachable state an intent changes the event tables if and only if it is well shaped, its message is new, no receipt with its hash is inside the window, nothing is missing, it is unambiguous and confirmed, and its own mutation is applicable |
| EngineIntents.ConfirmedResendIsLost | src/kinflow/engine.py:194-208 | after an unconfirmed intent on an empty engine, the same intent confirmed under a new message id is answered "blocked" inside the window and makes nothing |
| EngineIntents.ConfirmationMustComeFirst | src/kinflow/engine.py:194-265 | the same resend, sent without the unconfirmed try, makes its event |
| EngineIntents.WeddingIsResent | src/kinflow/engine.py:864-878 | a concrete intent and resend of that kind, one hour apart |
| EngineIntents.ConfirmedIntentIsLostExactly | src/kinflow/engine.py:194-208 | a confirmed and applicable intent under a new message id changes nothing exactly when some receipt with its hash is inside the window |
| EngineRebuilds.SuccessIsTheLastCall | src/kinflow/engine.py:25-49 | over schedulers built one after the other on one store, each with settings of its own: a reminder's provider calls are its attempts, no call follows a success, and it is delivered exactly when one succeeded |
| EngineDelivery.QuietHoursWrap | src/kinflow/engine.py:817-820 | for any stored start and end: the quiet hours of the day are the clock hours from start forward to end, past midnight if need be and all day when both are equal, if and only if `Wraps(start, end)`, a test on the two numbers that all hours of the day pass |
| EngineDelivery.SomeEndsBeyondMidnightWrap | src/kinflow/engine.py:817-820 | 22 to 30 does not wrap and is loud at two in the morning; 22 to 24 and 22 to 48 do |
| EngineDelivery.DeliveryIsExact | src/kinflow/engine.py:322-511 | a pass handles every due reminder once, by its own state and its recipient's target alone: blocked, suppressed in quiet hours, or sent once and delivered, failed exactly when its attempts exceed max_retries or the store limit, else retried after the delay; its ledger row has these columns; no other reminder changes or is sent |
| EngineDelivery.EvidenceIsExact | src/kinflow/engine.py:514-537 | a provider reference is evidence exactly when, trimmed and in lower case, it is neither empty nor a placeholder, is not the dedupe key or the reminder id, and does not start with `att-` or `rcpt:att-` |
| EngineDelivery.ReportIsExact | src/kinflow/engine.py:322-511 | a pass reports every due reminder in due order, each with the reason of its new ledger row; in capture-only mode nothing but the log changes |
| EngineDelivery.ReconcileIsExact | src/kinflow/engine.py:539-571 | a batch looks at the first batchSize due reminders, moves back exactly the attempted ones whose retry time has come, counts them, and says whether more than a batch is due afterwards |
| EngineAnswers.HashesAgreeExactly | src/kinflow/engine.py:864-878 | without a supplied hash two intents have equal hashes if and only if they agree in action, title, start, participants and audience as multisets, offset, event id, time zone and the four destination values; a supplied hash equals only the same supplied hash |
| EngineAnswers.DifferentIntentIsApplied | src/kinflow/engine.py:194-320 | with no supplied hashes inside the window, a confirmed, applicable intent under a new message id that differs in one of these fields from every intent of the run inside the window changes the event tables |
| EngineAnswers.LiftIsExact | src/kinflow/engine.py:103-139 | lifting changes the two destinations only, each by its own keys, flat keys before the nested object, and refuses exactly a nested value of the wrong type that no flat key overrules |
| EngineAnswers.MissingIsExact | src/kinflow/engine.py:851-861 | a cancel misses nothing; any other intent misses a start unless it says all-day, somebody, and an offset, in this order |
| EngineAnswers.CandidateIsExact | src/kinflow/engine.py:709-735 | an event is a candidate exactly when its newest version is active and the weights 0.5, 0.3 and 0.2 of equal title, start and participants reach the threshold |
| EngineAnswers.AnswerIsExact | src/kinflow/engine.py:180-320 | the answer to every intent in every reachable state: the first one of its message, the newest one of its hash inside the window, else by what is missing, ambiguous, unconfirmed, applicable or refused |
| EngineAnswers.IdsAreUsedUp | src/kinflow/engine.py:618-646 | an event id is used up by exactly the intents that come to make an event of their own with accepted destinations, even when a missing field then ends them by an exception |
| EngineAnswers.IntentReminders | src/kinflow/engine.py:737-814 | an intent that makes version e invalidates exactly the schedulable reminders of its event with a future trigger, adds one per person of an active audience, triggered offset minutes before the start in UTC, scheduled or blocked by a missing time zone, and touches no other |
| EngineAudit.IntakeLog | src/kinflow/engine.py:180-320 | the audit lines of every intent: none when malformed or answered already, else intake, resolver, confirmation or time zone, one line per invalidated reminder in dedupe-key order and one per person without a time zone |
| EngineAudit.DeliveryLog | src/kinflow/engine.py:322-511 | the audit lines of a pass follow its report, with two for a refusal at the limit |
| EngineAudit.ReconcileLog | src/kinflow/engine.py:539-571 | the audit lines of a batch are one for each reminder moved back, in due order |
| EngineAudit.LogIsNumbered | src/kinflow/engine.py:822-840 | over every run the log is numbered from one and earlier lines never change |
| Scheduler.InMemoryStateStore.FindRecentReceipt | src/kinflow/persistence/store.py:133-141 | the sorted scan returns what the lookup function says |
| Scheduler.InMemoryStateStore.ListDueReminders | src/kinflow/persistence/store.py:184-195 | the scan returns the due reminders in (trigger, id) order |
| Scheduler.FamilyScheduler.ResolveEvent | src/kinflow/engine.py:709-735 | explicit id, one candidate, several, or none |
| Scheduler.FamilyScheduler.ScheduleReminders | src/kinflow/engine.py:737-785 | the loop over the audience makes the reminders of the step function |
| Scheduler.FamilyScheduler.InvalidatePriorVersionReminders | src/kinflow/engine.py:796-814 | the loop over the reminders in dedupe-key order is the step function |
| Scheduler.FamilyScheduler.ProcessIntent | src/kinflow/engine.py:180-320 | one intent, from message replay to receipt, is one step of the engine |
| Scheduler.FamilyScheduler.AttemptDueDeliveries | src/kinflow/engine.py:322-511 | one delivery pass over the due reminders is one step of the engine |
| Scheduler.FamilyScheduler.RunReconciliationBatch | src/kinflow/engine.py:539-571 | one reconciliation batch and its report are one step of the engine |
| Adapter.MappingRefusesExactly | src/kinflow/oc_adapter.py:393-482 | whatever the maps, the tuple lock never fires and the matrix refuses exactly the rules that deliver without confidence or under another reason |
| Adapter.SendStoresAtMost | src/kinflow/oc_adapter.py:235-299 | a send stores nothing or its own fresh result, and then only when its key had no result in the window |
| AdapterRuns.CacheAgrees | src/kinflow/oc_adapter.py:332-354 | after any run both indexes hold the same canonical results, each once |
| AdapterRuns.ResultsAreWriteOnce | src/kinflow/oc_adapter.py:351-354 | stored results are never replaced or dropped |
| AdapterRuns.AnsweredAttemptIsReplayed | src/kinflow/oc_adapter.py:332-336 | an attempt with a stored result never reaches the provider again; its result changes only in the replay fields |
| AdapterRuns.WindowAnswersWithoutProvider | src/kinflow/oc_adapter.py:338-349 | a result of the key inside the window answers a new attempt without the provider |
| AdapterRuns.ThrownSendIsSentAgain | src/kinflow/oc_adapter.py:281-299 | a send that ends in an exception leaves no trace in the cache and is sent again |
| AdapterRuns.AtMostOncePerWindow | src/kinflow/oc_adapter.py:235-299 | with a clock that never goes back, fresh results of one key are more than the window apart |
| AdapterRuns.AskedAgainOnlyAfterThrow | src/kinflow/oc_adapter.py:235-299 | over any run, whatever the clock does: of two calls that reached the provider for one attempt, or for one key inside the window, the earlier ended in an exception |
| AdapterRuns.WindowHitIsNewest | src/kinflow/oc_adapter.py:338-349 | with such a clock a window hit is the newest result of its key |
| AdapterRuns.AskedExactly | src/kinflow/oc_adapter.py:235-299 | exactly when a send reaches the provider, and with which target |
| AdapterRuns.OnlyPermittedIsSent | src/kinflow/oc_adapter.py:356-391 | over any run every message that reached the provider was well formed, of a supported channel and priority, and to a bare canonical target |
| AdapterRuns.OpenClawGatewayAdapter.ReplayByDedupeKeyWindow | src/kinflow/oc_adapter.py:338-349 | the reversed scan finds the newest result inside the window |
| AdapterRuns.OpenClawGatewayAdapter.SendMessage | src/kinflow/oc_adapter.py:235-299 | one send is one step of the cache |
| AdapterOutcome.SendIsExact | src/kinflow/oc_adapter.py:235-299 | one send over any cache, in order: malformed throws; a stored result of the attempt, else the last one of the key not older than the window, is replayed; an unsupported channel or priority, an unresolved target and capture-only mode are refused with their own result; else the provider gets the message with the bare target, and its result is stored in both indexes |
| AdapterOutcome.MappingIsExact | src/kinflow/oc_adapter.py:393-482 | every column of the result for an answer: accepted success before the override of the status code before the map before the fallback; or none when the matrix allows none |
| AdapterOutcome.DefaultsAreExact | src/kinflow/oc_adapter.py:179-193 | with the default maps: status, reason, retry and error class for each of the six outcome classes |
| AdapterOutcome.AgeIsExact | src/kinflow/oc_adapter.py:338-349 | a stored result is inside the window exactly when it is less than window + 1 milliseconds old |
| AdapterOutcome.VerifiableIsExact | scripts/daemon_run.py:437-456 | a provider reference counts as evidence exactly when, trimmed and in lower case, it is neither empty nor one of six placeholders and starts with none of three local prefixes |
| AdapterOutcome.JsonNames | scripts/daemon_run.py:459-482 | a JSON answer is confirmed exactly when its first field that is not blank, trimmed, is a real reference, and then carries it |
| AdapterOutcome.FailedCallIsExact | scripts/daemon_run.py:485-511 | the outcome and error class of a failed call by the words of its message, first line first, and the message cut to 500 characters |
| AdapterOutcome.GatewayIsExact | scripts/daemon_run.py:459-511 | for a message that is sent under the default maps: the daemon's verdict is delivered, with that reference as receipt and code ok, exactly when the gateway's answer names a real reference; accepted-unverified for any other answer; a failure for a failed call or an unusable answer |
| Seam.DecisionIsExact | scripts/daemon_run.py:1546-1628 | for every result the matrix allows and every exception, exactly which verdict is reached |
| Seam.RouteNeverMeetsNone | scripts/daemon_run.py:1708-1803 | entered without a result the failure route answers with branch A; no decision on an adapter call, exceptions included, meets branch NONE in the route or breaks its errata invariant |
| Seam.DefaultMapsAlarmFor | src/kinflow/oc_adapter.py:393-482 | with the default maps the alarming answers are exactly the accepted successes with a verifiable receipt and no status code |
| Seam.AlarmExactlyFor | scripts/daemon_run.py:1658-1699 | for one send after any run, any maps and any send function: an exception never sounds the alarm, a fresh result exactly when the provider's answer to this call is alarming, a replayed one exactly when the stored result of its attempt is |
| Seam.StoredAlarmsExactly | src/kinflow/oc_adapter.py:332-354 | over every run the stored result of an attempt is alarming exactly when the provider, asked for that attempt somewhere in the run, gave an alarming answer |
| Seam.AlarmSoundsExactly | scripts/daemon_run.py:1658-1699 | over every run, with any maps, send function and clock, the alarm sounds exactly when the returned result is of an attempt for which the provider gave an alarming answer, at this call or an earlier one |
| Seam.AlarmSoundsAgain | scripts/daemon_run.py:1658-1699 | after an alarming answer the alarm sounds, and sounds again when the message is sent again |
| Seam.SomethingAlarms | src/kinflow/oc_adapter.py:393-482 | with the default maps there is a message and a provider with an alarming answer |
| Seam.ProductionResponsesAreQuiet | scripts/daemon_run.py:459-482 | every normalised gateway answer has a status code, and a receipt only with confirmation; no map makes it alarming |
| Seam.ProductionNeverAlarms | scripts/daemon_run.py:1051-1098 | with the production send function every dispatch is delivered, accepted-unverified or a seam failure, over any run of the cache |
| Seam.DeliveredHasEvidence | scripts/daemon_run.py:1311-1323 | a delivered verdict rests on complete evidence |
| AdapterOutcome.AnyDecisionIsExact | scripts/daemon_run.py:1546-1699 | the verdict on every result, whether or not the matrix allows it |
| DispatchTheorems.DispatchStaysSound | scripts/daemon_run.py:926-1162 | dispatching a schedulable reminder never meets a taken row id, and leaves it delivered or failed unless the runner stops |
| DispatchTheorems.WhatsAppOutcomeIsExact | scripts/daemon_run.py:1024-1130 | a send by WhatsApp is stored as delivered exactly on proof, as open exactly when accepted without it, else as failed with the seam's reason; the runner stops exactly on an accepted verifiable receipt without a status code |
| DispatchTheorems.ReconcileStaysSound | scripts/daemon_run.py:1164-1301 | a reconcile keeps the books sound and sets the gauge to the open rows |
| DispatchTheorems.AcceptModeLifecycle | scripts/daemon_run.py:1164-1301 | each attempt is assigned at most once, then promoted or demoted at most once and never both; open at the start of the process + assigned always equals promoted + demoted + open |
| DispatchTheorems.OpenAtStartIsHistory | scripts/daemon_run.py:686-689 | the rows open at the start of the process are those that were open at the last restart of the run, and none before any restart |
| DispatchTheorems.ReconcileBalances | scripts/daemon_run.py:1164-1301 | after a reconcile the gauge counts the open rows, no open row is past its window, and assigned = promoted + demoted + gauge if and only if no row was open when the process started |
| DispatchTheorems.OpenRowOutlivesRestart | scripts/daemon_run.py:686-689 | after one unproven WhatsApp dispatch and a restart one row is open at the start, and no reconcile balances the new process |
| DispatchTheorems.SomethingEndsOpen | scripts/daemon_run.py:1071-1098 | there is such a reminder and answer |
| DispatchTheorems.DeliveredHasEvidence | scripts/daemon_run.py:1071-1130 | a delivered reminder has a delivered row with its destination, and with complete evidence when that was resolved to the channel whatsapp |
| DispatchTheorems.StopsOnlyOnAlarm | scripts/daemon_run.py:926-1098 | a dispatch stops the runner exactly when it calls the adapter and the answer is alarming |
| DispatchReconcile.ReachableReconcileIsExact | scripts/daemon_run.py:1164-1301 | in every reachable state a reconcile promotes an open row exactly when its reference is verifiable, demotes it exactly when it is not and its window is over, and leaves it open otherwise; columns, reminder, transition, totals and gauge accordingly; every other row stays, and every other reminder is at most rescheduled |
| DispatchReconcile.ReconcileIsOldestFirst | scripts/daemon_run.py:1164-1301 | the transitions a reconcile adds are in the order of the rows' times |
| DispatchReconcile.RestartIsExact | scripts/daemon_run.py:686-689 | a restart sets the counters and the gauge to zero and keeps the tables |
| DispatchOutcome.DispatchIsExact | scripts/daemon_run.py:926-1162 | the one row a dispatch stores, its reminder and its counters: failed without a target and time zone or without a valid destination; else to the override's pair, else the request default's, else the recipient's valid target, delivered by any other channel and by WhatsApp as the adapter answers for that very target |
| DispatchRuns.SendIsExact | scripts/daemon_run.py:926-1162 | over any run through one adapter: a dispatch calls the adapter exactly when it goes by WhatsApp and the adapter may be used, once, with a message to the channel and target of the stored row, and the tables become what its answer says |
| DispatchRuns.EngineReminderIsSent | scripts/daemon_run.py:926-1162 | the same for every due reminder with the destinations that any run of the engine gave it: they are well formed |
| DispatchRuns.BooksOfMoves | scripts/daemon_run.py:926-1162 | the tables of a daemon whose dispatches share one adapter are those of a run of moves, so all that holds for such runs holds for it |
| DispatchRuns.DispatchStopsExactly | scripts/daemon_run.py:1018-1098 | over any run of dispatches through one adapter, with any send function: a dispatch stops the runner exactly when it calls the adapter and gets a result of an attempt for which the provider gave this process an alarming answer |
| DispatchRuns.ProductionNeverStops | scripts/daemon_run.py:1018-1098 | over any production run no dispatch stops the runner: each leaves its reminder delivered or failed with its outcome stored |
| DispatchRuns.ProductionSceneIsQuiet | scripts/daemon_run.py:1018-1098 | after any production calls no further answer of the adapter is alarming |
| DispatchCallbacks.DispatchTables.Reopen | scripts/daemon_run.py:686-689 | a new process starts its counters at zero over the rows that are there |
| DispatchCallbacks.DispatchTables.ProcessCandidate | scripts/daemon_run.py:926-1162 | one dispatch in place is one step of the books |
| DispatchCallbacks.DispatchTables.SettleOpenRow | scripts/daemon_run.py:1188-1270 | one open row is promoted, demoted, left open or skipped as the step function says |
| DispatchCallbacks.DispatchTables.RunReconcile | scripts/daemon_run.py:1164-1301 | the two loops of a reconcile are one step of the books |
| Runtime.ReconcileOncePerBoundary | src/kinflow/daemon.py:153-159 | over any run of cycles, whatever the clock does, the boundary never goes back and each reconcile moves it strictly forward to a multiple of the tick |
| CycleOutcome.CaptureOnlyCycle | src/kinflow/daemon.py:277-341 | in capture-only mode a cycle is never stopped, dispatches nothing, reports all it scanned as blocked and none as processed, and leaves the tables as they were up to one reconcile when the boundary has moved |
| CycleOutcome.NormalCycle | src/kinflow/daemon.py:277-341 | in any other mode a cycle that is not stopped dispatches the first hundred due reminders, counts those delivered, reconciles exactly when the floor of its start is past the last boundary, and succeeds exactly when the mode is known and all were delivered |
| CycleOutcome.CaptureOnlySendsNothing | src/kinflow/daemon.py:277-341 | over any run of capture-only cycles no reminder becomes delivered or failed, no attempt is counted, assigned or stored |
| Drain.DispatchAllDrains | src/kinflow/daemon.py:297-318 | a batch that does not stop the runner delivers or fails all its reminders and leaves the others as they are |
| Drain.ReconcileKeepsLive | scripts/daemon_run.py:1164-1301 | a reconcile pass leaves every reminder that can still be sent exactly as it is, and brings none back to life |
| Drain.CycleDispatchesBatch | src/kinflow/daemon.py:277-341 | a whole cycle in normal mode dispatches its batch and leaves the rest of the line as it was |
| Drain.MissedMeansFullBatch | scripts/daemon_run.py:695-697 | a due reminder missed by a batch has a whole batch ahead of it |
| Drain.CycleBringsNearer | src/kinflow/daemon.py:277-341 | a cycle that misses a due reminder shortens the line ahead of it by a whole batch |
| Drain.DrainBound | src/kinflow/daemon.py:277-341 | from any reachable tables, over any run of cycles with other processes and restarts in between: a reminder with p live reminders ahead of it is delivered or failed within p / 100 + 1 cycles, unless it is dropped from outside; all p are due when it is |
| Drain.QuietDrainBound | src/kinflow/daemon.py:277-341 | the same bound without supposing anything of the runner, when no answer of the cycles is alarming |
| Runtime.DaemonRuntime.DispatchCandidates | src/kinflow/daemon.py:297-318 | the loop dispatches in order and stops where the runner stops |
| Runtime.DaemonRuntime.RunOneCycle | src/kinflow/daemon.py:277-341 | one cycle and its summary are one step of the runtime |
| Timestamps.FieldOrderIsTime | src/kinflow/persistence/store.py:184-195 | comparing datetime fields in order is comparing moments on the calendar |
| Timestamps.IsoOrderIsTime | src/kinflow/persistence/store.py:558-570 | comparing isoformat texts by code points is comparing moments, although the fraction is left out when it is zero (section 5.1 of RFC 3339 grants this only for equal widths) |
| StoreQueries.DueQueryAgrees | src/kinflow/persistence/store.py:558-579 | the SQL query selects, orders and counts exactly the in-memory due list, in whatever order rows are scanned |
| StoreQueries.ReachableDueQueryAgrees | src/kinflow/persistence/store.py:558-579 | the same for isoformat texts over every reachable state of the engine |
| StoreQueries.ReceiptQueryAgrees | src/kinflow/persistence/store.py:363-375 | the SQL lookup finds a receipt exactly when the in-memory one does, and then an equally new one |
| StoreQueries.ReachableReceiptQueryAgrees | src/kinflow/persistence/store.py:363-375 | when the clock never goes back the two answers are equal, whichever of several newest rows SQLite returns |
| Versions.VersionsHaveNoGaps | src/kinflow/persistence/store.py:492-552 | for any interleaving of engines the versions of an event are 1 to n |
| Versions.NoLostUpdate | src/kinflow/persistence/store.py:492-552 | every stored version was reported by one mutation, built from exactly the version before it |
| Versions.VersionsAreReportedOnce | src/kinflow/engine.py:648-707 | two successful mutations never report the same version |
| Versions.ReadIsLastReport | src/kinflow/persistence/store.py:418-428 | over any interleaving the event that a read returns is the newest version reported for it, active or cancelled as that one is |
| Versions.UpdateSucceedsExactly | src/kinflow/persistence/store.py:503-515 | an update succeeds exactly when the event is still as it was read; a conflict leaves the event tables untouched |
| Versions.CreateSucceedsExactly | src/kinflow/persistence/store.py:434-490 | a create succeeds exactly when its id is still free, and is otherwise rolled back |
| Versions.SecondCreateIsRefused | src/kinflow/persistence/store.py:434-490 | of two engines that read the next id before either writes, the second to write is refused |
| Versions.VersionsAreWriteOnce | src/kinflow/persistence/store.py:516-552 | a stored version is never changed or removed |
| Versions.SqliteEvents.NextId | src/kinflow/persistence/store.py:434-444 | the scan gives an id that no event has |
| Versions.SqliteEvents.AppendEventVersion | src/kinflow/persistence/store.py:492-552 | the guarded update and the insert take effect together or not at all |
| Migrations.RunIsExact | src/kinflow/persistence/db.py:86-128 | a dirty row or a changed script stops a run before any script; otherwise it succeeds exactly when every script still to run survives |
| Migrations.DeathIsExact | src/kinflow/persistence/db.py:86-128 | a run that dies leaves the migrations before recorded and run, and of the one it dies at nothing, a dirty row, or a dirty row and a started script, by where it dies |
| Migrations.RunsStayOrderly | src/kinflow/persistence/db.py:86-128 | wherever runs die, the rows are a prefix of the list, clean except at most the last, and no script starts twice |
| Migrations.DirtyStopsEveryRun | src/kinflow/persistence/db.py:66-69 | once a row is dirty no later run starts a script or changes the table |
| Migrations.ChangedScriptIsDetected | src/kinflow/persistence/db.py:100-104 | a script that changed after it was recorded stops the next run before any new script |
| Migrations.Database.ApplyMigrations | src/kinflow/persistence/db.py:86-128 | the loop over the list is one run of the protocol |
| Reconnect.ExhaustedExactly | src/kinflow/daemon.py:189-201 | giving up happens exactly at the failure that makes max + 1 since the last reset |
| Reconnect.ExhaustedIsForever | src/kinflow/daemon.py:189-209 | after giving up every further failure is refused, whatever succeeds meanwhile |
| Reconnect.FailureIsAnswered | src/kinflow/daemon.py:189-201 | the answer to a failure depends only on the failures since the last reset |
| Reconnect.DelaysGrow | src/kinflow/daemon.py:166-181 | delays are positive, never decrease and respect the cap |
| Reconnect.DelaysFollow | src/kinflow/daemon.py:166-181 | each delay from the one before: the same, one base more, or twice it until the cap is met and the cap from then on |
| Reconnect.TotalByStrategy | src/kinflow/daemon.py:166-181 | total waiting over n failures in closed form, by strategy |
| Reconnect.BudgetIsSpent | src/kinflow/daemon.py:184-209 | without a reset, n failures are answered with exactly the first min(n, max) delays |
| Reconnect.ReconnectState.RegisterFailure | src/kinflow/daemon.py:189-201 | one failure in place is one step of the budget |
| Fairness.CounterIsHistory | src/kinflow/daemon.py:212-230 | the counter of a row is how often it was eligible, unprocessed and unexcused since it was last processed |
| Fairness.CounterCountsLoops | src/kinflow/daemon.py:212-230 | with distinct eligible rows it is the number of such loops |
| Fairness.FairnessTracker.RecordLoop | src/kinflow/daemon.py:216-227 | the loop over the eligible rows is one step of the counters |

## Left out

- Drain.DrainBound: cycles in capture-only mode, cycles that stop the runner, and reminders put ahead of the waiting one from outside are not bounded, because each of them can hold a reminder back for ever.
- Lower-casing of letters beyond ASCII, which can matter where a provider reference is compared with texts made of reminder ids.
- Time zones and daylight saving: local-to-UTC conversion and the local hour are arbitrary functions of the configuration.
- SHA-256: the intent hash is the tuple of the fields it digests, with participants and audience as multisets; a migration checksum is a text.
- Reminder ids and dedupe keys are the tuples they are built from; their texts, which decide sort order and evidence, are arbitrary functions.
- A provider that raises at src/kinflow/engine.py:396: the provider is a total function.
- An intent field given as explicit null is the same as an absent one, except for destinations and the hash, where the code tells them apart.
- The version conflict branch of `process_intent` (src/kinflow/engine.py:301-308) cannot be taken over the in-memory store; `Versions` models the conflict of the SQLite store.
- Reminder regeneration after a SQLite version commit runs outside its transaction, so `Versions` speaks about event versions only, and the test hook inside the version guard is not modelled.
- Correlation ids, the payload texts of audit records, message bodies, trace and causation ids.
- Float rounding in `age_ms` and in the tick boundary: ages and boundaries are whole numbers.
- The pattern of canonical WhatsApp targets is an arbitrary predicate of the adapter's settings.
- The `LIKE` lookup of recorded transitions (scripts/daemon_run.py:1362-1368) is exact membership.
- Candidate rows that went stale between listing and dispatch, and one store used by engine and daemon at once.
- Alerts on the open gauge, event emission, health state beyond the first successful cycle, the `DaemonRuntime.startup` log.
- Failure texts of the gateway are classified as the code does, but the call itself, its parameters and its environment are not part of this model.
- The daily brief, conflict detection between events, operator and canary scripts, file locks, signals and the external tick kernel.
- The SQL engine and JSON encoding: tables are dictionaries and sequences, and a transaction is one step.
- What a migration script does to the schema: only its start and its end are recorded.
