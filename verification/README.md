# The email outbox, verified

This project models the durable email outbox of the budget application and proves what it
guarantees over whole histories of overlapping drain runs. Around that core it covers the Slack
notices the drainer posts, the reminder run that fills the queue, and the printer of combined
space names.

## How the model is built

- `Basics`, `Templates`: time in microseconds, optional values, and the merge of a base template
  with one event's override.
- `Outbox`: the three tables (`email_outbox`, `notification_logs`, `email_message_bodies`) as a
  value `Db`, and what each operation does to them. `Process` is `process_row`. Everything the
  source asks of the outside (entities found, template rows, rendering, suppression, SES, the
  clock at its three readings) is a field of `Inputs`.
- `RowLife`: the life of one row as a sequence of events, the ledger those events leave, and the
  row-by-row invariants.
- `World`: the interleaved machine. Any number of drain runs start, reap, claim, begin a row,
  commit it, lose it, release, prune or crash, in any order, beside enqueues, withdrawals, requeues
  and deletions of the rows an email refers to. One step is one commit, except that `LoseRow` is a
  whole `process_row`, SES call included, whose commit never happens. A claim takes any distinct due
  rows up to the batch size, as `SKIP LOCKED` allows.
- `Outcomes`: what processing a row and enqueueing a request come to, case by case, in terms of the
  columns and inputs alone.
- `Lease`, `Histories`, `Guarantees`, `Partition`, `Ledgers`, `FullBudget`, `Audit`, `Provenance`,
  `Delivery`, `AtLeastOnce`, `SendWindows`, `Retention`: theorems over all histories of that machine.
  `Scenarios` builds the histories that show a theorem cannot be strengthened.
- `DrainRun`, `DrainFacts`, `DrainStops`, `Windows`, `DailyCap`: one run of `drain_outbox` as a
  function of what it meets, what every run guarantees, when a run stops, whom it alerts and what it
  prunes, and the daily cap over sequences of serial runs.
- `DrainHistory`: a run of `drain_outbox` is a history of the machine, so the theorems about
  histories hold of it.
- `Drainer`: the operations in the form the source has them. Class `Tables` holds the tables as
  fields; its methods update them in place, with the source's loops, and each is proved against
  the functions above.
- `Slack`, `DedupKey`, `Reminders`, `SpaceNames`: the other components. `ReminderFates` says what a
  reminder run does for each recipient, `NameForms` what a printed name looks like.

Assumptions: one clock that only moves forward, positive configuration values, and atomic commits.
Two latencies are parameters: how late a claim may follow the start of its run, and how long one
row may take. Nothing bounds them except where a theorem says so.

`Log.source` is auxiliary: it names the outbox row an audit entry is about. The table does not
record it and no operation reads it; only statements about audit trails and drainer sends do.

## Where the code and what is said of it differ

- `process_row` never tests that its run still owns the row. Exclusion rests on timing alone, and
  `Lease.LeaseExact` gives the exact timing. Bounded work, absorption, the count of endings, the
  retry dates and the ownership of dedup keys need each row to be claimed by the run processing it,
  and carry that timing as a hypothesis. The other theorems hold of every history, timely or not:
  the coupling of fields, the attempt count, the audit trail, distinct keys, conservation,
  retention and the send windows.
- The closing of a window is looked at before rendering, so an SES call can trail it, by as much as
  one row can take and no more (`SendWindows.LatestCall`).
- The operator's requeue takes the present as dispatch time and sending looks only at the closing,
  so a requeued email can leave before its window opens (`SendWindows.EarliestCall`). Nor does the
  requeue restore the dedup key. `Delivery.UniqueStep` says which steps can therefore leave two live
  rows for one key; `Delivery.DedupFails` and `Delivery.RequeueDefeatsDedup` are the failing inputs.
- `process_row` cannot see whether SES took a message whose answer was lost: a read timeout is
  reported like any failed call (app/services/email.py:136-138) and retried. So a message can reach
  SES twice within the lease and with no requeue. `AtLeastOnce.TakenAgainExactly` says after which
  calls: those lost before their commit (`AtLeastOnce.AcceptedTwice`), those that halt the account,
  and refusals that are retried with attempts to spare (`AtLeastOnce.TimedOutTwice`). Losses are
  charged to nobody and have no bound (`AtLeastOnce.LostWithoutBound`).
- `docs/email-outbox.md:35` says terminal rows are kept 90 days after they end. The code counts
  from `created_at` (app/services/email_drainer.py:517-520). `Retention.KeptExactly` says how long a
  row is kept, and `Retention.PrunedAsItEnds` shows one pruned by the run that sends it.
- `docs/email-outbox.md:45` says a claimed row goes back to QUEUED. A row claimed while blocked
  goes back to RENDER_BLOCKED (app/services/email_drainer.py:121-122, 501-502).
- The run summary does not count a row whose last attempt is throttled
  (`DrainFacts.FailuresReported`, and `DrainFacts.MissedFailure` for such a run).

## Model

| member | source | states |
|---|---|---|
| Lease.LeaseExact | app/services/email_drainer.py:107-129 | in every interleaving each row a run processes, committed or lost, is still SENDING under that run's claim, if and only if claim latency, loop time and one row's processing together stay under the thirty minutes of the reaper |
| Lease.LeaseSafety | app/services/email_drainer.py:357-440 | under that timing, the row a run processes is SENDING, claimed by that run at that run's start, and was due then, also when a crash or failed commit loses what the processing did |
| Lease.OneProcessingPerClaim | app/services/email_drainer.py:149-184 | two processings of one row, committed or lost, belong to different runs, and the later run claimed the row afresh between them |
| Lease.HoldKept | app/services/email_drainer.py:107-129 | no step of another run, enqueue or operator takes a row from a run whose lease lasts |
| Lease.OwnedByClaim | app/services/email_drainer.py:172-176 | a row comes to name a run as its claimer only by that run's own claim |
| Lease.OverrunSendsTwice | app/services/email_drainer.py:594-618 | outside the timing there is a history in which two runs both call SES for one row, the first no longer holding it |
| Guarantees.CoupledAlways | app/services/email_drainer.py:116-127 | in every history, timely or not, QUEUED rows are unclaimed and unblocked, RENDER_BLOCKED rows unclaimed and blocked, SENDING rows claimed |
| RowLife.CouplingKept | app/services/email_drainer.py:276-343 | every operation keeps that coupling, processing even on a row in any state |
| Guarantees.ClaimThenRelease | app/services/email_drainer.py:488-505 | releasing a claim restores the tables exactly |
| Guarantees.ClaimThenReap | app/services/email_drainer.py:107-129 | a reap after a claim restores the claimed rows and charges one attempt to the unblocked ones when the claim is thirty minutes old, and otherwise leaves the claim alone |
| Guarantees.DueBatchUnique | app/services/email_drainer.py:132-146 | without locks in the way, the claim order and limit leave exactly one possible batch |
| Guarantees.ReleasedForGood | app/services/email_drainer.py:488-505 | once a run has released its claims no row is SENDING under it in any later state, whatever interleaves |
| Partition.ReleasePartition | app/services/email_drainer.py:553-700 | beside any other runs, when a run releases its claims within its lease each row it claimed was either committed by it, from the state it was claimed in, or is back as it was before the claim, deleted references apart |
| Guarantees.Conservation | app/services/email_drainer.py:508-522 | in every history the rows ever inserted are the rows present plus the rows pruned, none in both |
| Guarantees.PrunedWhenDone | app/services/email_drainer.py:508-522 | a row leaves the table only by a prune, terminal and past retention |
| Retention.KeptExactly | app/services/email_drainer.py:508-522 | a row created at c that ends at e is in the table until e + d in every history if and only if e + d is within retention of c |
| Retention.PrunedAsItEnds | app/services/email_drainer.py:517-520 | a row older than retention is sent and pruned by one and the same run |
| Guarantees.TerminalAbsorbs | app/services/email_drainer.py:149-184 | between prune and operator actions a terminal row never changes, though it still names its claimer |
| Histories.EveryRowHasItsStory | app/services/email_drainer.py:553-700 | in every history, timely or not, each row ever inserted has lived one life from its insert to its present, or terminal, state |
| Histories.EveryLifeIsLegal | app/services/email_drainer.py:553-700 | within the lease that life processes the row only under a claim and not before it was due |
| Histories.RowFollows | app/services/email_drainer.py:107-184 | a step changes a row by that row's own event and nothing else, or prunes it |
| Histories.RowAppears | app/services/email_enqueue.py:117-156 | a row appears only by an enqueue that was neither blocked nor a duplicate |
| Histories.EventLegal | app/services/email_drainer.py:357-366 | claims take due rows and, within the lease, processing acts on a claimed row that was due |
| Ledgers.BoundedWork | app/services/email_drainer.py:276-354 | since its insert or last requeue a row is processed and committed at most (attempts + account halts) times (ceiling of render age over retry delay, plus 1), with releases, reaps and lost processings interleaved freely, and is terminal once processed that often |
| FullBudget.BoundReached | app/services/email_drainer.py:276-354 | for every configuration, latency and number of halts a history in which a row is processed and committed exactly that often |
| AtLeastOnce.LostWithoutBound | app/services/email_drainer.py:693-697 | any number of processings can call SES for a row and be lost, leaving the tables, attempt count included, as the enqueue left them |
| RowLife.WorkStep | app/services/email_drainer.py:415-422 | the lexicographic budget behind it: an attempt or halt buys one more full block age, and each blocked retry uses part of it |
| RowLife.LifeIsBounded | app/services/email_drainer.py:276-354 | the same bound for any legal life of a single row |
| Ledgers.AttemptLedger | app/services/email_drainer.py:120-127 | in every history, timely or not, attempt_count equals retryable transport failures plus reaps of the unblocked row |
| Ledgers.RetriesWait | app/services/email_drainer.py:311-328 | within the lease and without reaps, a live row has attempts left and waits, after the k-th failure, until 10(2^(k+1) - 2) minutes after the first |
| RowLife.LadderClosedForm | app/services/email_drainer.py:102-104 | the first k retry delays add up to 10(2^(k+1) - 2) minutes |
| RowLife.AttemptsStep | app/services/email_drainer.py:311-328 | every legal event keeps the books between attempt_count, failures, reaps and the retry date |
| RowLife.LifeCounts | app/services/email_drainer.py:357-366 | what a row's life keeps whatever state the row is processed in: field coupling, attempt count and audit trail |
| Ledgers.AuditLedger | app/services/email_drainer.py:221-308 | in every history, timely or not, a row's audit trail holds one RENDER_BLOCKED entry per block episode, and the last entry of an ended row is its ending, with a stored body exactly when the template rendered in the step that ended it |
| Ledgers.EndingsCounted | app/services/email_drainer.py:221-258 | within the lease the trail holds exactly one ending per time the row ended |
| Ledgers.TrailBooked | app/services/email_drainer.py:239-257 | in every history, timely or not, the entries the log tables hold about a row are exactly those its events wrote, in order, and log and body ids stay sound |
| RowLife.AuditedStep | app/services/email_drainer.py:276-308 | every legal event keeps the count of endings as well |
| RowLife.TrailStep | app/services/email_drainer.py:276-308 | every event, on a row in any status, keeps the count of block entries and the last entry of an ended row |
| RowLife.ProcessNotes | app/services/email_drainer.py:357-440 | processing writes one ending with a body exactly if it rendered, or one block entry on the first block only, or nothing |
| Provenance.SentMeansAccepted | app/services/email_drainer.py:433-440 | in every history, timely or not, a row that is SENT became so by a committed processing that rendered it, was neither suppressed nor disabled, and whose SES call was accepted; it carries that message id and time |
| Provenance.AcceptedIsSent | app/services/email_drainer.py:433-440 | conversely, committing such a processing leaves the row SENT with that id and time and writes a SENT entry |
| Provenance.SentEntryMeansAccepted | app/services/email_drainer.py:239-257 | in every history each SENT audit entry about a row, which is what the daily limit counts, records such a processing |
| Provenance.Writer | app/services/email_drainer.py:239-257 | in every history each entry about a row was written by a committed processing or a withdrawal of that row, with its address and at that time |
| Provenance.BodyWriter | app/services/email_drainer.py:248-257 | in every history each stored body is the text some committed processing rendered |
| Provenance.RowAddressed | app/services/email_enqueue.py:117-132 | in every later state a queued row has the template key and recipient the request named, and its work item, event and department unless they were detached |
| Provenance.LogAddressed | app/services/email_drainer.py:239-247 | in every history each entry about a row carries the template key and recipient that were asked for |
| Delivery.KeysAlwaysDistinct | app/models/email_outbox.py:55 | in every history no two rows share a dedup key |
| Delivery.KeyOwned | app/services/email_drainer.py:232-237 | a row holds the key it was created with until it first fails or is cancelled, and a requeue does not give it back |
| Delivery.OneLiveRowPerKey | app/services/email_drainer.py:232-237 | of the present rows created with one key and never requeued, at most one is not failed or cancelled, hence at most one is sent or suppressed |
| Delivery.UniqueStep | app/routes/admin_final/email_debug.py:484-517 | a step leaves two live rows for one key if and only if it requeues a row whose key has another live row, or it is an unblocked enqueue of the key while its live row was requeued |
| Delivery.UniqueExactly | app/models/email_outbox.py:55 | a key has at most one live row throughout a history if and only if the history has no such step |
| Delivery.DuplicateExactly | app/services/email_enqueue.py:133-156 | an unblocked enqueue is a duplicate exactly when a present, never requeued row created with its key has neither failed nor been cancelled |
| Delivery.DedupExact | app/routes/admin_final/email_debug.py:484-517 | a corollary of DuplicateExactly: enqueues are refused exactly while an earlier row with the key is live, if and only if the live rows with the key do not all stem from a requeue; the tables do not record which do |
| Delivery.DedupFails | app/routes/admin_final/email_debug.py:501-516 | withdraw, then requeue: the row is live, yet the same notification is queued again |
| Delivery.RequeueDefeatsDedup | app/routes/admin_final/email_debug.py:501-516 | withdraw, enqueue again, requeue: two queued rows for one key |
| Delivery.TablesCannotTell | app/routes/admin_final/email_debug.py:484-517 | two histories that end in equal tables, after which the same requeue breaks uniqueness in one and not in the other, so no test on the tables can decide it |
| AtLeastOnce.TakenAgainExactly | app/services/email_drainer.py:331-354 | within the lease, a row's message can reach SES again without a requeue if and only if the last call for it was lost before its commit, halted the account, or was refused for a retried reason with attempts to spare |
| AtLeastOnce.SecondCallNeeds | app/services/email_drainer.py:331-354 | in every history within the lease, a second call for a row with no requeue between follows such a call |
| AtLeastOnce.AcceptedTwice | app/services/email_drainer.py:434-439 | a crash after SES accepted leads to a second taken message, within the lease and with no requeue |
| AtLeastOnce.TimedOutTwice | app/services/email.py:136-138 | a lost SES answer leads to a second taken message though both processings commit, within the lease and with no requeue |
| SendWindows.SendsInsideWindow | app/services/email_drainer.py:383-393 | in every history, timely or not, for a row whose event and override have not changed since its insert and which was not requeued before the opening, every SES call, committed or lost, follows the opening, its window test precedes the closing, and the call trails the closing by no more than one row can take |
| SendWindows.LatestCall | app/services/email_drainer.py:387-393 | over all histories, no such call comes after a given instant if and only if that instant is at least the closing plus the longest time one row can take |
| SendWindows.EarliestCall | app/services/email_enqueue.py:112-115 | over all histories, no SES call comes before the opening if and only if no requeue of the row does |
| SendWindows.OpeningKept | app/services/email_enqueue.py:98-115 | a row keeps its event, its dispatch time never falls before the opening, and no run that started before the opening ever claims it |
| SendWindows.RetiredIsSilent | app/services/email_drainer.py:383-386 | retiring the base template blocks every enqueue and ends every claimed row without an SES call, whatever any override says |
| SendWindows.SwitchedOffIsSilent | app/services/email_templates.py:219-224 | an override that switches its event off blocks every enqueue for it and ends every claimed row of it without an SES call |
| RowLife.DispatchNeverEarlier | app/services/email_drainer.py:292-294 | only the operator's requeue can move a dispatch time earlier |
| DrainHistory.DrainIsHistory | app/services/email_drainer.py:553-700 | whatever a punctual drain_outbox does to the tables, from any state a history reaches, is done by a longer history of the machine, which also holds every row the run processed, committed or lost, with all it met |
| DrainHistory.ReachableRowsRestore | app/services/email_drainer.py:488-505 | rows a run can claim are, in every reachable table, as their release would leave them |
| DrainFacts.EachRowHasOneFate | app/services/email_drainer.py:553-700 | after a run each claimed row is either as its own step left it or exactly as before the claim, no row is held by the run, no other row changed, and only the prune removed any |
| DrainFacts.BatchAddsUp | app/services/email_drainer.py:631-643 | the claimed count splits into the summary fields, the rows requeued with backoff, at most one row whose failure ended the run, and the rows not reached; rows are left over only if the run stopped |
| DrainFacts.FailuresReported | app/services/email_drainer.py:351-353 | the rows a run left FAILED are those its summary counts, plus one exactly when SES throttled the last attempt of the last row it reached |
| DrainFacts.MissedFailure | app/services/email_drainer.py:627-629 | a run whose only claimed row ends FAILED and whose summary reports no failure |
| DrainFacts.StopsAtFiveRefusals | app/services/email_drainer.py:645-672 | a run stops for transport failures exactly when its last five rows were refused by SES, and five refusals in a row occur nowhere else |
| DrainFacts.StuckAtHead | app/services/email_drainer.py:394-401 | why rendering is guarded: if a row's failure escapes process_row, however many runs follow each claims that row first again and the tables never change |
| DrainFacts.TransportTestExact | app/services/email_drainer.py:651-654 | of the rows that do not raise, the loop's status and blocked_since test picks exactly those SES was given and refused |
| DrainStops.StopsExactly | app/services/email_drainer.py:598-672 | every row a run took came at a turn with no SIGTERM pending, in time, and not a fiftieth turn that finds the earlier sends and its own at the limit; the run reports the stop its last row called for, otherwise the first of SIGTERM, time and limit that holds at the next turn, otherwise none; it dies exactly at a turn that goes on to a row whose failure escapes; a run over its limit at the start takes nothing and says so |
| DrainStops.AlertsExactly | app/services/email_drainer.py:620-691 | a run adds one notice for an account halt or a fifth refusal, one at the end, unless it died, if a template left a row blocked or aged out, and no others |
| DrainStops.PruneExactly | app/services/email_drainer.py:508-522 | a run that did not die removes exactly the rows that are SENT, FAILED, CANCELLED or SUPPRESSED and past retention once its claims are released, its own among them, and counts them; one that died removes none |
| DailyCap.DailyCapAlways | app/services/email_drainer.py:458-468 | over any sequence of serial runs, every 24 hours of the log hold at most the daily limit plus 49 drainer sends |
| DailyCap.CapStep | app/services/email_drainer.py:609-615 | between two counts of the limit each turn adds at most one send to the window that governs it |
| DailyCap.CapIsReached | app/services/email_drainer.py:609-615 | the excess of 49 is reached under every positive limit, from a log that keeps the cap |
| Audit.PruneKeepsIntegrity | app/services/email_drainer.py:717-757 | the audit prune deletes exactly the logs and bodies its two cutoffs select, leaves every surviving body a surviving log, and counts each removed body once |
| Outcomes.ClassifyExactly | app/services/email_errors.py:13-32 | the class of every error code, with or without the Exception suffix; every other code, or none, is transient |
| Outcomes.StatusExactly | app/services/email_drainer.py:357-440 | for every row and inputs, if-and-only-ifs for each of the six statuses a row can be left in, in terms of entities found, template and override, window, render, suppression, switch, SES answer, attempts and block age |
| Outcomes.ColumnsExactly | app/services/email_drainer.py:221-237 | what a row is about never changes, the key is given up exactly by a failure or cancellation, the claim exactly by a row that waits, and sent time and message id are written exactly by a send |
| Outcomes.ClocksExactly | app/services/email_drainer.py:276-328 | when the attempt count, the block time and the dispatch time change, and to what |
| Outcomes.EntryExactly | app/services/email_drainer.py:239-257 | which audit entry is written, with which reason, and that the rendered text is stored exactly when the template rendered |
| Outcomes.OutcomeExactly | app/services/email_drainer.py:331-354 | an exception exactly for a refusal with a halt or throttle code, and otherwise the status that was written |
| Outcomes.EnqueueExactly | app/services/email_enqueue.py:68-156 | if-and-only-ifs for each of the five outcomes, for every table, request and template |
| Outcomes.QueuedExactly | app/services/email_enqueue.py:112-156 | CREATED and DEFERRED add one row with every column as asked, due at the later of the date asked and the opening; any other outcome changes nothing |
| Templates.MergeLaws | app/services/email_templates.py:184-237 | a template speaks for an event if and only if the base is active and the override is not false; a row with no event sees no override, an empty one changes nothing, text an override sets is the text and text it leaves is the base's, windows are the override's own, and staleness follows the base version |
| Drainer.Tables.DrainOutbox | app/services/email_drainer.py:553-700 | the loop leaves the tables and the summary that DrainRun.Drain gives for the batch the database must select |
| Drainer.Tables.OpenRun | app/services/email_drainer.py:575-592 | sweep, limit test, and then either no claim or the claim of the due batch |
| Drainer.Tables.TakeTurn | app/services/email_drainer.py:600-629 | one turn: the three stop tests in order, then the row and its bookkeeping |
| Drainer.Tables.RecordOutcome | app/services/email_drainer.py:631-672 | counters, failure streak, template keys and alerts after one row |
| Drainer.Tables.CloseRun | app/services/email_drainer.py:682-700 | alert, release and prune, the release even when the run dies |
| Drainer.Tables.ProcessRow | app/services/email_drainer.py:357-418 | the row, its audit entry and body, and what is returned or raised are those of Outbox.Process; no other row changes |
| Drainer.Tables.SendRendered | app/services/email_drainer.py:420-440 | the same for a row whose template rendered, whatever blocked_since was |
| Drainer.Tables.ApplyTerminalState | app/services/email_drainer.py:221-258 | status, reason, freed key, audit entry and body land together |
| Drainer.Tables.BlockOnRender | app/services/email_drainer.py:276-308 | parks the row, or fails it once its block is too old, with an audit entry only on the first block or the end |
| Drainer.Tables.RequeueOrFail | app/services/email_drainer.py:311-328 | charges an attempt first; a row left QUEUED has attempts left |
| Drainer.Tables.HandleTransportFailure | app/services/email_drainer.py:331-354 | the four error classes, with the state committed before either exception |
| Drainer.Tables.ReapStaleClaims | app/services/email_drainer.py:107-129 | exactly the stale claims are returned, and counted |
| Drainer.Tables.DueRows | app/services/email_drainer.py:132-146 | selects the first due rows by dispatch time and id, up to the limit |
| Drainer.Tables.ClaimDueRows | app/services/email_drainer.py:149-184 | marks exactly that batch SENDING under the run |
| Drainer.Tables.ReleaseClaims | app/services/email_drainer.py:488-505 | returns exactly the rows still SENDING under the run, and counts them |
| Drainer.Tables.PruneOutbox | app/services/email_drainer.py:508-522 | deletes exactly the terminal rows past retention, and counts them |
| Drainer.Tables.PruneEmailAudit | app/services/email_drainer.py:717-757 | the three deletions, in place, with months of thirty days |
| Drainer.Tables.EnqueueEmail | app/services/email_enqueue.py:68-156 | the outcome, and a new row with the floored dispatch time exactly for CREATED and DEFERRED |
| Drainer.Tables.SendSlackMessage | app/services/slack.py:113-241 | one log row with the status of the first rule that applies, and false exactly for FAILED |
| Drainer.Tables.PostAlert | app/services/email_drainer.py:471-485 | an alert's audit row is committed whole or lost, and touches nothing else |
| Slack.SlidingWindows | app/services/slack.py:38-85 | over any serial committed calls, every breaker window holds at most the threshold of FAILED Slack rows, and two SENT rows of one notice and work item are more than an hour apart |
| Slack.PostKeeps | app/services/slack.py:113-241 | one call keeps both windows, with its clock read at each test and at the write |
| Slack.VerdictExactly | app/services/slack.py:113-241 | if-and-only-ifs for each of the five statuses a call logs, and what its one row is about |
| DedupKey.KeysEqualExactly | app/services/email_enqueue.py:51-65 | two keys are equal if and only if kind, the ids the kind uses, recipient and occasion (event stamp, UTC hour, or UTC day for reminders) are equal, for any recipient strings |
| DedupKey.KeysByKind | app/services/email_enqueue.py:51-65 | kind by kind, by name: equal keys mean equal UTC day, department and event for reminders, equal stamp for the four once-per-event kinds, and equal UTC hour for the three hourly kinds |
| DedupKey.StampReads | app/services/email_enqueue.py:62-63 | text that ends in an event stamp splits in one way, though stamps and recipients both hold colons |
| DedupKey.ColonInKindCollides | app/services/email_enqueue.py:51-65 | why kinds must hold no colon: two different notifications with one key |
| Reminders.SendSubmissionReminders | app/services/notifications.py:844-974 | the run's loops, with a commit or rollback per department, produce the tables and summary of the department-by-department account |
| Reminders.QueueRecipients | app/services/notifications.py:921-950 | one failing insert costs one recipient and nothing else |
| Reminders.RemindTarget | app/services/notifications.py:905-968 | a failed commit takes back the department's rows and leaves its blocked count |
| Reminders.ReminderAccounting | app/services/notifications.py:831-841 | rows_queued is the number of new rows that survive, old rows are untouched, and recipients_total splits into queued, blocked, duplicate, errored and rolled back |
| Reminders.SecondRunQueuesNothing | app/services/notifications.py:924-940 | a second run the same UTC day over the same targets and templates queues nothing, if the first had no insert or commit failure and no key was freed between |
| ReminderFates.RunExactly | app/services/notifications.py:905-968 | over every run, each recipient considered errored, was blocked, was a duplicate (a row held the key, or an earlier visit, in the same transaction or a committed one, had the same department, recipient and UTC day), was queued, or was rolled back, exactly as its case calls for; the table gains one row for each queued recipient, in order, with that recipient, template, event and department, and changes in nothing else |
| ReminderFates.EveryoneQueued | app/services/notifications.py:905-968 | a run queues every recipient it considers if and only if no insert or commit fails, no template is silent or closed, no row holds a key and no department, recipient and day repeats; then there is a new row for each, in order |
| ReminderFates.KeysForRecipients | app/services/notifications.py:935-940 | two reminders have one key if and only if event, department, recipient and UTC day are equal |
| ReminderFates.DepartmentsExactly | app/services/notifications.py:872-879 | each target is counted as having recipients or listed by its code, in order |
| SpaceNames.ComposeRangedName | app/models/spaces.py:87-120 | the loops print RangedName |
| SpaceNames.SplitSharedPrefix | app/models/spaces.py:63-76 | the counting loop finds SplitShared |
| SpaceNames.FormRuns | app/models/spaces.py:105-112 | the loop cuts the tails into Runs |
| SpaceNames.SplitIsLongest | app/models/spaces.py:63-76 | the prefix is the longest run of leading words all names share, and each name is the prefix's words and its tail's |
| SpaceNames.SplitFailsExactly | app/models/spaces.py:70-74 | there is no split exactly when no first word is shared or some name is all shared words |
| SpaceNames.RunsPartition | app/models/spaces.py:105-112 | the runs are the tails, in order, cut into chains of consecutive keys none of which can be extended |
| SpaceNames.RangedNameLossless | app/models/spaces.py:87-120 | the text after the prefix, in range or slash form, parses back to exactly the original sequence of keys |
| SpaceNames.AliasedNameLossless | app/models/spaces.py:48-60 | an aliased name starts with the alias, and its bracketed part still reads back as the members' keys |
| SpaceNames.TailTextLossless | app/models/spaces.py:112-120 | printing the tails of any two or more keyed names and parsing gives their keys back, in order |
| NameForms.CombinedNameLists | app/models/spaces.py:20-45 | the name with no ranges for any names: empty, the one name, the names with " + " between if there is no split, or the prefix, a space, and the tails with slashes between, each at its place and nothing more |
| NameForms.CombinedNameReads | app/models/spaces.py:39-45 | names with no plus sign read back from their sum, and tails with no slash, keyed or not, from theirs |
| NameForms.RangeShownExactly | app/models/spaces.py:112-120 | a range is shown if and only if three tails in a row each follow the one before; otherwise the tails stand between slashes |
| NameForms.KeysOfTails | app/models/spaces.py:78-84 | the key of a decimal numeral is its number, and a letter's is the same in either case |
| NameForms.WordsRead | app/models/spaces.py:63-69 | a name's words are non-empty, hold no space and lose no other character |
| NameForms.WordsOfJoin | app/models/spaces.py:63-69 | any such words, spaced, are the words of their text |

## Left out

- SES, Jinja rendering, message building and Slack's HTTP answer: each is a free input of the step that asks for it.
- SQL text and dialect branches: a claim and a conflict-free insert are single atomic steps, and locks show only as due rows a claim leaves out; commits, rollbacks and savepoints are kept.
- The SIGTERM handler, logging and the pacing sleep: a pending SIGTERM is an input of a turn, and the sleep is part of the time between turns.
- Exactly-once delivery: the code does not provide it; AtLeastOnce.TakenAgainExactly says when it fails.
- Any bound on attempt_count once reaps occur: the reaper adds attempts without testing the maximum.
- Drainer.Tables.DrainOutbox: the method has the tables to itself; interference between runs is in module World, which a lone run is shown to follow.
- DrainFacts.EachRowHasOneFate: is about a run alone with the tables; beside others, Partition.ReleasePartition and Guarantees.ReleasedForGood apply.
- Delivery.DedupExact: its condition, like that of Delivery.UniqueStep, is history the tables do not record once a key is freed; Delivery.TablesCannotTell shows that no condition on the tables would do.
- Delivery.OneLiveRowPerKey: speaks of rows still in the table; once a sent row is pruned its key can be used again.
- Ledgers.AuditLedger: is about histories without the audit prune, which Audit.PruneKeepsIntegrity covers by itself.
- DailyCap.DailyCapAlways: counts drainer sends; the admin test sends also use the limit but are not held back by it.
- DedupKey.KeysEqualExactly: assumes stamps without a UTC offset, as the application stores them, and years rendered without padding.
- SpaceNames.ComposeRangedName: reads as keys only tails of ASCII digits or one ASCII letter; other digits and letters Python accepts fall to the slash form here, where the source reads them as keys or raises.
- SpaceNames.RangedNameLossless: covers tails that are ASCII digits or one ASCII letter; other digits and letters Python accepts, and its limit on the length of integers it parses, are not modelled.
- Columns no decision reads (recipient user, work type, context, subject and provider id of a log row, override id): omitted.
- `_enqueue_emails` in app/services/notifications.py: its per-recipient loop is the one of the reminder run without departments.
- The choice of reminder targets and recipients, and `resolve_template_key`: they are the inputs of a reminder run.
- Health-page queries, routing strategies, admin pages, CSV upload and migrations: not part of this model.
