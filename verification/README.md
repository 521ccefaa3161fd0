# Verification model

A Dafny model of the parts of the program where a wrong step would be invisible: message delivery
across crashes, the selection of a packet, the derive run and the identity of its files, the vector
index codec, and credit assignment. Each imperative part of the source is a class or a method with
its own loops, proved against a specification function; the theorems are about those functions and
about state machines over their steps.

Check everything with `dafny verify dfyconfig.toml`.

## Layout

| files | part of the program |
|---|---|
| Orders | string order, the stable sort, filter |
| LedgerRows, LedgerFold, LedgerHistory, LedgerRuns, VerdictLaws, MessageLedger, ChatSightings | the message ledger and its reconcile fold |
| IngestRuns, IngestCoverage, Ingest | the ingestion seam and the offset store |
| Jsonl, EventLog | the line store and the event log |
| PipelineRuns, Deliveries, Pipeline | the turn pipeline and what becomes of a reply |
| Recovery, RecoveryRuns, RecoveryChoices, AlarmRuns | lost-reply recovery |
| Candidates, Score, Intake, Quota, PacketLaws, FillMaximal | candidates, rank normalisation, intake and fill |
| Coherence, SwapLoop, Budget, Assembly, ChannelTracks, ShippedCoherence, ReachedFailures | the coherence scanners, the swap loop, the budget, the whole assembly, and where its promises stop |
| Enumerate, DeriveRun, WorkerPool, Derive, CorpusCheck | the derive run and the corpus check |
| DerivedId | the masked-hash identity |
| VectorCodec, VectorLayout, VectorIndex | the vector index |
| Credit, NightlyCredit, CreditTimes | credit assignment |

## What the model assumes

- Ledger operations are serialised; no ledger file disappears while a snapshot names it.
- The methods of Recovery run a pass without interruption and without a throw. The theorems of
  RecoveryRuns and AlarmRuns are about runs of its stretches, the alarm or the recovery of one loss
  each, with other ledger operations between them: a pass that is interrupted or cut short by a throw
  is such a run, and the ledger write that ends a recovery may fail. Within one stretch nothing else
  touches the ledger.
- File text is one byte a character; an append reaches the file whole, or a crash leaves a prefix.
- Telegram issues increasing update ids, and a poll answers with the lowest unconfirmed ones, in any
  order. One clock reading serves one ingest batch.
- What the delivery plan makes of the decided bubbles before it sends them (blanks dropped, long ones
  split, many merged) is an arbitrary function. Sending stops short only on an abort or a throw.
- JSON text, content hashes, token counts, cosines, generation and judging are arbitrary functions;
  where a proof needs one property of them (an encoded row parses back and has no newline, a hash is
  one line) it is a stated hypothesis.
- Scores, signatures, weights and vectors in the assembler and in credit are exact reals; the vectors
  in the codec are 32-bit words.
- The match words of a dimension cap arrive lower-cased, and an empty packet mean is the zero vector.

## What the code does that its documentation does not say

Each is a theorem with its exact condition or a concrete run.

- The incremental reconcile is documented as equivalent to the whole-history one. It is, if and only
  if no later row redelivers a pruned update or re-decides a pruned restraint silence: an update that
  was answered, pruned and redelivered is reported lost (`LedgerRuns.AgreesIffUndisturbed`,
  `LedgerRuns.RedeliveredAnswerIsReportedLost`).
- `alarmDue` and `chatMovedOn` load a fold without reading the log's tail. A reconcile after them
  catches up; an append before it is counted in the place of a row that is then never read
  (`LedgerRuns.LaggingAppendSkipsARow`, `LedgerRuns.SkippedUpdateForgottenIff`).
- The two sightings kept of a chat miss another's activity exactly when both are of the excluded
  update (`ChatSightings.InboundSinceIsExact`).
- A loss that was given up is reported again when the update is redelivered after the fold let go of
  it (`RecoveryRuns.RedeliveryReopens`), and its alarms start over (`AlarmRuns.RedeliveryAlarmsAgain`,
  counted by `AlarmRuns.AlarmsPerOpening`).
- An outbound of a turn whose chat was pruned does not count as activity
  (`ChatSightings.AttributionLostIff`).
- `lastReconcileReplayedRows` adds up since the fold was loaded; its comment says the last pass only.
- The ledger store never repairs a torn tail. A handler can then run twice for one update, or the
  cursor pass one without a row, unless the update delivered next already has its row and its
  redelivery absorbs the fragment (`IngestRuns.SafeExactlyWhenTailIsAbsorbed`,
  `IngestRuns.TearSafeIffItDoesNotHurt`).
- A claim of a new update that fails in a living process puts the id in the dedupe set without a row:
  the next poll takes the update for a duplicate, and no handler ever sees it
  (`IngestCoverage.FailedClaimIsMissed`).
- `since` counts lines, its callers count parsed rows (`Jsonl.TailsExactIffNoMalformedInterior`).
- The event log recovers its sequence from the newest file alone, and repairs only when it is opened
  (`EventLog.ReopenedEmitRisesIffNewestHoldsRow`, `EventLog.RetryIsReplayedIff`).
- Work queued between the pump's last look and the reset of `running` waits for the next arrival
  (`PipelineRuns.StrandedExactlyInTheGap`); a self-entry whose turn throws after sending settles at 0
  (`PipelineRuns.OutcomeCountsDelivered`).
- A swapped-out candidate is kept out of its own group only (`SwapLoop.ExileReturnsIffRunnerElsewhere`,
  `ReachedFailures.ExileReturns`); the scarcity flag is the fill's (`SwapLoop.ScarcityFlagAfterSwap`);
  the coherence flag is taken before the budget drops slots (`ShippedCoherence.ShipsCoherentIff`,
  `ReachedFailures.DropCanBreakSanity`).
- The pool's top candidate maps to 1 only when it is alone at the top (`Score.RankRange`).
- The orphan collection deletes by content id after the new files are written
  (`DeriveRun.FilesBackedIffNoSharedId`).
- Stamping an id can change the hashed text when two rounds of newline normalisation leave a CR LF
  pair (`DerivedId.StampKeepsHashableText`).
- A turn's grade is to be applied once by the nights and once by the replay. The nights apply it once
  for each night that reads a grade of the turn (`CreditTimes.CreditedOnceIff`), the replay never when
  no packet precedes it (`CreditTimes.TimesInReplay`). The comment on
  `serializeWeightsFile` calls it the rounding point of the persisted file; the file is written
  unrounded (src/consolidate/run.ts:724-728), which is what the model does.

## Model

| member | source | states |
|---|---|---|
| LedgerFold.Fold.ApplyRow | src/bridge/ledger.ts:86-139 | One row changes the fold in place as the row says: link, outbound, decision and abandon touch the arrivals they name, an inbound opens or merges an arrival keeping the earlier message and time |
| LedgerFold.Fold.PruneDone | src/bridge/ledger.ts:185-199 | Pruning deletes exactly the arrivals that ended for good, and the chat attribution of their turns |
| LedgerFold.Fold.VerdictsOf | src/bridge/ledger.ts:142-177 | The list of losses then duplicates, each in order of age and id |
| LedgerFold.VerdictMembers | src/bridge/ledger.ts:142-177 | A discrepancy is listed if and only if the fold holds an arrival that is lost, or one that came more than once |
| VerdictLaws.ReportedOldestFirst | src/bridge/ledger.ts:142-177 | After every run of the ledger: losses come before redeliveries, the ages of the losses fall along the list, ids decide ties, and nothing is reported twice |
| VerdictLaws.ForgottenIffNeverReported | src/bridge/ledger.ts:179-199 | Pruning lets an update go if and only if no reconcile at any time would report it as it stands; what it keeps it leaves unchanged |
| LedgerRows.EscalationForAge | src/bridge/types.ts:77-90 | The rung is the number of the thresholds of one, six and twenty-four hours that the age has reached |
| LedgerRows.RungsClimb | src/bridge/types.ts:77-93 | An older loss never sits on a lower rung, and outranks the younger if and only if a threshold lies between their ages |
| LedgerHistory.LostExactlyWhenOwed | src/bridge/ledger.ts:86-177 | Over raw rows, no fold: an update is reported lost if and only if it is old enough, a request, never abandoned after arrival, had no outbound on the turn linked to it at that moment, and its last matching decision neither is a restraint silence nor defers into the future; the report carries the earliest arrival and the turn linked now |
| LedgerHistory.DuplicateExactlyWhenRedelivered | src/bridge/ledger.ts:142-177 | A duplicate is reported if and only if two inbound rows carry the id |
| LedgerRuns.TrackingVerdicts | src/bridge/ledger.ts:185-199 | A pruned fold that tracks the whole one has the same verdict list, at every time and window |
| LedgerRuns.AgreesIffUndisturbed | src/bridge/ledger.ts:233-428 | Over every run of appends, abandons, reconciles, alarm marks, peeks cold or warm, crashes and restarts from any snapshot, with nothing appended while the live fold lags the log, every state reports what the whole history reports if and only if no appended row redelivers a pruned update or re-decides a pruned restraint silence |
| LedgerRuns.FreshAgreesIffUndisturbed | src/bridge/ledger.ts:201-428 | The same from an empty ledger |
| LedgerRuns.DisturbedDiffers | src/bridge/ledger.ts:185-199 | The condition is sharp: each disturbing row separates the two readings at some reconcile time |
| LedgerRuns.RedeliveredAnswerIsReportedLost | src/bridge/ledger.ts:321-331 | A concrete run: answered, pruned, redelivered; the incremental pass says lost, the whole history only says duplicate |
| LedgerRuns.LaggingAppendSkipsARow | src/bridge/ledger.ts:280-319 | Whatever the state: an append while the fold lags makes the next reconcile fold the appended row twice and the first unread row never |
| LedgerRuns.LaggingAbandonSkipsARow | src/bridge/ledger.ts:280-370 | An abandon on a lagging fold skips the same row, and prunes before the rest is read |
| LedgerRuns.SkippedUpdateForgottenIff | src/bridge/ledger.ts:280-319 | The update whose arrival is skipped that way is forgotten if and only if no row behind it is another arrival of it |
| LedgerRuns.ColdPeekForgetsAnUpdate | src/bridge/ledger.ts:280-319 | A run that does so, from an empty ledger: a cold alarmDue or chatMovedOn, then an append, and the update is never reported |
| MessageLedger.InboundIdsAreSeen | src/bridge/ledger.ts:208-216 | The dedupe set is exactly the ids of the inbound rows |
| MessageLedger.Opened.constructor | src/bridge/ledger.ts:201-222 | A fresh open holds the rows and the snapshot and nothing else: the crash and restart path |
| MessageLedger.Opened.LoadSeen | src/bridge/ledger.ts:209-216 | Loaded once, the set holds every recorded id |
| MessageLedger.Opened.EnsureFold | src/bridge/ledger.ts:233-283 | The fold is the snapshot, or a replay of all rows when there is none |
| MessageLedger.Opened.AppendAndFold | src/bridge/ledger.ts:312-319 | A row is appended, and folded and persisted when a fold is loaded |
| MessageLedger.Opened.RecordInbound | src/bridge/ledger.ts:322-331 | Every arrival becomes a row; the answer is true if and only if no earlier row had the id |
| MessageLedger.Opened.RecordDecision | src/bridge/ledger.ts:333-351 | A mismatched turn, or a defer without due time, is refused and changes nothing |
| MessageLedger.Opened.RecordOutbound | src/bridge/ledger.ts:353-355 | The outbound step |
| MessageLedger.Opened.LinkTurn | src/bridge/ledger.ts:357-359 | The link step |
| MessageLedger.Opened.AbandonLoss | src/bridge/ledger.ts:361-370 | Append, then prune and persist the loaded fold |
| MessageLedger.Opened.AlarmDue | src/bridge/ledger.ts:372-377 | Due if and only if no rung was marked or the age outranks the marked one; marks nothing |
| MessageLedger.Opened.MarkAlarmed | src/bridge/ledger.ts:379-386 | Only a kept arrival of a loaded fold takes the mark, and it is persisted |
| MessageLedger.Opened.ChatMovedOn | src/bridge/ledger.ts:388-394 | Yes if and only if the fold remembers another arrival of the chat after the time, or an outbound to it; only the fold is loaded. ChatSightings.ChatMovedOnIsExact says what that means for the rows |
| ChatSightings.OutboundSinceIsExact | src/bridge/ledger.ts:86-139 | From any state, over every run of the ledger: the fold tells that the chat got an outbound after a time if and only if it did before or the run appends one to a turn attributed to the chat at that moment |
| ChatSightings.AttributionLostIff | src/bridge/ledger.ts:185-199 | Pruning takes the chat from a turn, and hides its later outbounds, if and only if it drops an arrival linked to the turn |
| ChatSightings.InboundSinceIsExact | src/bridge/ledger.ts:118-139 | After every run of the ledger, for a fold that has read the log: the two sightings kept tell that another arrival came after a time if and only if some row shows one and the two newest sightings of the chat are not both of the excluded update |
| ChatSightings.AttributedIff | src/bridge/ledger.ts:86-139 | After every run the fold attributes a turn to a chat if and only if the last link row of the turn for an update then held was for one of that chat, and no arrival of the turn was let go since |
| ChatSightings.OutboundSinceOfRows | src/bridge/ledger.ts:86-139 | After every run the fold tells that a chat got an outbound after a time if and only if the run wrote one, later than that, to a turn attributed to the chat when it was written |
| ChatSightings.ChatMovedOnIsExact | src/bridge/ledger.ts:388-394 | After every run, for a fold that has read the log: the answer is yes if and only if a row shows another arrival after the time and the two newest sightings are not both of the excluded update, or an outbound was written after the time to a turn attributed to the chat |
| MessageLedger.Opened.CaughtUp | src/bridge/ledger.ts:396-402 | The fold reads exactly the rows it has not seen; the replay counter adds up over the passes since the load |
| MessageLedger.Opened.ReconcilePass | src/bridge/ledger.ts:396-407 | One pass returns the verdicts of the caught-up fold, then leaves the pruned fold live and persisted |
| IngestRuns.RunKeepsInv | src/bridge/ingest.ts:43-75 | Over every run of issues, polls in any order, failures, crashes and restarts, torn link rows and torn claims of recorded updates included, whether the process dies of the torn write or lives on: no update is handled twice, every issued id at or below the cursor has a durable row, and the cursor file falls only when corrupted from outside |
| IngestRuns.FirstBootRunsAreSafe | src/bridge/ingest.ts:43-75 | The same from first boot |
| IngestRuns.LinkTornNeverHurts | src/bridge/ingest.ts:64-70 | After a torn link row, deadly or not, the update delivered next has its row, so its redelivery absorbs the fragment |
| IngestRuns.TornClaimHarmless | src/bridge/ingest.ts:48-60 | A torn claim does not hurt when its update lies past the cursor and has its row already, nor a deadly one when an earlier commit never reached the file |
| IngestRuns.CutClaimOfNewHurts | src/bridge/ledger.ts:322-331 | A claim of a new update that fails part-way in a living process always hurts: the id is in the dedupe set, and the redelivery merges with the fragment |
| IngestRuns.TornTailHandlesTwice | src/kernel/fs.ts:84-115 | From every stopped state with a torn tail and no recorded update to absorb it, some run handles one update twice |
| IngestRuns.SafeExactlyWhenTailIsAbsorbed | src/bridge/ingest.ts:43-75 | From every stopped or idle state the protocol keeps, whatever is pending: every future is safe if and only if the ledger file ends in a newline or the update delivered next, by this process and after a restart, has its row |
| IngestRuns.TearSafeIffItDoesNotHurt | src/bridge/ingest.ts:43-75 | The guarantee survives a torn write if and only if, at that moment, the update delivered next has its row |
| IngestCoverage.RecordedIsHandled | src/bridge/ingest.ts:43-75 | From first boot, over every run in which no handler is missing, no crash comes between a claim and its handler, and no claim of a new update fails in a living process: every recorded update was handled or is at hand, and once if no torn write hurts |
| IngestCoverage.MissedForever | src/bridge/ingest.ts:43-75 | Over every run whatever: an update that is recorded, unhandled and not at hand is never handled by this process or any later one |
| IngestCoverage.FailedClaimIsMissed | src/bridge/ledger.ts:322-331 | A claim of a new update that fails in a living process leaves the id in the dedupe set: the next poll records it as a duplicate and it is missed for good |
| Ingest.OffsetStore.Read | src/bridge/offsets.ts:32-52 | The cache, else the file, else 0; a missing or unparseable file stays uncached |
| Ingest.OffsetStore.Write | src/bridge/offsets.ts:57-67 | The cursor moves only forward; a regress is refused |
| Ingest.IngestMessage | src/bridge/ingest.ts:48-73 | Append, handle if new, link, then commit; a throw stops before the commit |
| Ingest.IngestUpdates | src/bridge/ingest.ts:43-75 | A batch is walked in id order and leaves ledger and cursor where the specification says |
| Ingest.AfterStaysInStep | src/bridge/ingest.ts:48-60 | Once an update has gone through, the dedupe set is again exactly the ids of the rows |
| Ingest.IngestOneIsProtocolSteps | src/bridge/ingest.ts:48-73 | The walk over one update is the protocol machine: the handler runs if and only if the id is new to the log, and the offset moves last |
| Jsonl.RepairKeepsLines | src/events/index.ts:57-63 | Cutting behind the last newline loses no complete line and leaves no fragment |
| Jsonl.AppendedLine | src/kernel/fs.ts:84-100 | A line appended to a clean text reads as itself, to a torn one as one line with the fragment |
| Jsonl.ReadLines | src/kernel/fs.ts:94-115 | The skip counter loop over one file |
| Jsonl.Read | src/kernel/fs.ts:94-115 | All rows in file order after the first `since` lines, malformed ones counted in the skip |
| Jsonl.TailsExactIffNoMalformedInterior | src/kernel/fs.ts:94-115 | Reading from a row count is exact at every count if and only if no malformed line has a readable one after it |
| EventLog.Log.RecoverLast | src/events/index.ts:41-49 | The last sequence number of the newest file, 0 when it holds no row |
| EventLog.Log.RepairTornTail | src/events/index.ts:57-63 | The newest file is cut to its complete lines |
| EventLog.Log.Emit | src/events/index.ts:68-95 | The first emit recovers and repairs; the line is in the file when it returns and the number is the next one |
| EventLog.RunDelivers | src/events/index.ts:41-95 | Over every run of emits, failed emits, appends torn at any character, and restarts with a row in the newest file: replay is what landed, in strictly rising sequence, with every resolved emit in it |
| EventLog.ResolvedExactlyOnce | src/events/index.ts:41-128 | From an empty log, each resolved emit is replayed exactly once and no other row has its number |
| EventLog.ResolvedBodies | src/events/index.ts:68-95 | Over every run the resolved emits carry the bodies they were given, in order |
| EventLog.EmitsAreNumbered | src/events/index.ts:41-95 | When nothing fails, restarts or not, replay yields the emitted bodies in order, numbered 1, 2, 3 without a gap |
| EventLog.ReopenedEmitRisesIffNewestHoldsRow | src/events/index.ts:41-49 | The proviso is exact: the first emit after a restart keeps the sequence rising if and only if the newest file holds a row or the log was empty |
| EventLog.RetryIsReplayedIff | src/events/index.ts:97-114 | After a write that failed part-way in a living process the retry resolves; its row is replayed if and only if a new day began or the fragment and its line, read as one line, parse to its envelope; what replay yields in either case |
| PipelineRuns.RunKeepsInv | src/app/pipeline.ts:140-470 | Every interleaving of arrivals with the stretches of code between awaits, and a throw in any of them, keeps the pipeline invariant |
| PipelineRuns.TurnsRunInOrder | src/app/pipeline.ts:170-201 | Turns run one at a time in enqueue order |
| PipelineRuns.OutcomesSettleOnce | src/app/pipeline.ts:149-185 | The outcome of each self-entry settles exactly once by the end of its turn, on every path, and no other does |
| PipelineRuns.CarrySlotIsEmptyWhenFilled | src/app/pipeline.ts:214-220 | The carry slot is empty whenever a turn fills it; Deliveries.FilledWithTheRest says when a turn does and with what |
| PipelineRuns.CarryReachesOneLaterTurn | src/app/pipeline.ts:214-258 | A carried bubble list reaches at most one turn, a later one, and a turn inherits at most one list |
| PipelineRuns.StrandedExactlyInTheGap | src/app/pipeline.ts:170-201 | A step strands queued work if and only if it resets `running` with an entry already queued |
| PipelineRuns.NothingStrandedWithoutGapArrivals | src/app/pipeline.ts:170-201 | With no arrival in that gap nothing is ever stranded |
| PipelineRuns.OutcomeCountsDelivered | src/app/pipeline.ts:175-183 | The settled number is the count the turn has reached, but for a turn that throws after sending, be it while the row of that send is written: it settles at 0 |
| Deliveries.FilledWithTheRest | src/app/pipeline.ts:332-358 | Over every reachable step: the slot is filled if and only if a reply meets newer words already queued or an interrupted send leaves some of it; then what the channel took and what the slot holds are together the reply in order, under the update the turn answers, and newer words are queued to take it |
| Deliveries.SlotHoldsTheRest | src/app/pipeline.ts:214-358 | In every reachable state a list in the slot is the reply of its giver minus what the channel took of it, not empty, under the update the giver answers |
| Deliveries.CarriedUntilTaken | src/app/pipeline.ts:214-258 | The list stays in the slot unchanged until a turn starts deliberating; that turn has exactly it before it, and the slot is empty |
| Deliveries.DeliberatesOnTheRest | src/app/pipeline.ts:214-258 | A turn deliberates on a list if and only if one was handed to it, and the list is the whole undelivered rest of an earlier turn |
| Deliveries.RepliesAreAccountedFor | src/app/pipeline.ts:327-363 | Every turn that ended without a throw decided on nothing, sent its whole reply in order, or left the rest in the slot or with a later turn |
| Deliveries.InterruptedIsLinked | src/app/pipeline.ts:214-220 | A link row for an interrupted update and a turn exists if and only if a list of that update was handed to the turn and the turn answers another one |
| Deliveries.EndCountsSends | src/app/pipeline.ts:340-366 | The count a turn ends with is the number of its bubbles the channel took |
| Deliveries.OutcomeCountsSends | src/app/pipeline.ts:175-183 | A settled outcome is the number of bubbles the channel took of the turn, and 0 for a turn that throws |
| Deliveries.OnlyHisWordsInterrupt | src/app/pipeline.ts:490-498 | During a send an inbound interrupts it and a self-entry does not; an interrupted send has newer words queued |
| Pipeline.TurnPipeline.Inbound | src/app/pipeline.ts:468-490 | Skipped updates, strangers and bare reactions start no turn; anything else is queued, aborts a live send, and kicks |
| Pipeline.TurnPipeline.SelfEntry | src/app/pipeline.ts:446-466 | A self-entry is queued with a waiting outcome |
| Pipeline.TurnPipeline.KickPump | src/app/pipeline.ts:187-201 | A kick starts a pump only when none is running |
| Pipeline.TurnPipeline.PumpShift | src/app/pipeline.ts:170-174 | The pump takes the head of the queue or ends |
| Pipeline.TurnPipeline.AfterPrepare | src/app/pipeline.ts:214-218 | The interrupted inbound is linked to the turn that inherits it |
| Pipeline.TurnPipeline.TakeCarry | src/app/pipeline.ts:219-220 | The slot is emptied into the turn |
| Pipeline.TurnPipeline.AfterDecisionRow | src/app/pipeline.ts:327-346 | Nothing to send goes to the silent settlement; newer words already queued carry the decided bubbles over; else the send of the shaped bubbles is armed. What the slot holds then is Deliveries.FilledWithTheRest |
| Pipeline.TurnPipeline.AfterRealize | src/app/pipeline.ts:347-362 | An aborted send fills the carry slot with what was not delivered, which Deliveries.FilledWithTheRest ties to what was; otherwise the outcome settles with the number sent |
| Pipeline.TurnPipeline.AfterDeferRow | src/app/pipeline.ts:351-363 | After the defer row the outcome settles with what was sent |
| Pipeline.TurnPipeline.TurnFailed | src/app/pipeline.ts:176-183 | A turn that throws settles at 0 and the pump goes on |
| Pipeline.TurnPipeline.FinishPump | src/app/pipeline.ts:190-196 | The pump ends and `running` falls, whatever was queued meanwhile |
| Pipeline.TurnPipeline.AfterCarryLink | src/app/pipeline.ts:216-220 | After the link row the slot is emptied into the turn |
| Pipeline.TurnPipeline.AfterLoop | src/app/pipeline.ts:288-311 | The decision is held until its row has landed |
| Pipeline.TurnPipeline.AfterSend | src/app/pipeline.ts:340-346 | One more bubble is out; its outbound row comes before the next |
| Pipeline.TurnPipeline.AfterRecord | src/app/pipeline.ts:340-346 | The row is written and the sending goes on |
| Pipeline.TurnPipeline.AfterWindow | src/app/pipeline.ts:327-331 | A silent turn settles at 0 once its window is written, and the turn ends |
| Pipeline.TurnPipeline.IsBusy | src/app/pipeline.ts:498 | Not busy if and only if every enqueued turn has ended and no pump is left; then no outcome waits |
| Pipeline.TurnPipeline.SettleSelfOutcome | src/app/pipeline.ts:149-153 | A waiter is resolved and forgotten, once |
| Recovery.Recoverer.EmitLostReplyAlarm | src/bridge/ledger.ts:445-467 | An alarm is spent only when it was heard: the mark follows the emit |
| Recovery.Recoverer.RecoverLoss | src/app/maintenance-jobs.ts:99-138 | One loss: left alone if re-run before, abandoned if aged or overtaken, deferred if busy, else re-run and linked; RecoveryChoices.RecoveredIff says by the rows alone which it is |
| RecoveryChoices.RecoveredIff | src/app/maintenance-jobs.ts:99-138 | After every run of the ledger, for a fold that has read the log: a loss is re-enqueued and linked if and only if it was not re-run, is younger than the grace age, nothing is in flight, its chat did not go on since it arrived and the pipeline takes it; it is given up as moved on if and only if the chat did, as too old if and only if it reached the grace age, and otherwise left as it is |
| Recovery.Recoverer.RecoverLost | src/app/maintenance-jobs.ts:95-140 | All alarms first, then each loss in turn |
| Recovery.Recoverer.RunReconcile | src/app/maintenance-jobs.ts:146-150 | Reconcile, alarm, recover |
| RecoveryRuns.PassIsItsSteps | src/app/maintenance-jobs.ts:95-150 | A pass is the run of its stretches: reconcile, one alarm after the other, one recovery after the other |
| RecoveryRuns.NeverReenqueuedTwice | src/app/maintenance-jobs.ts:95-140 | Over any run of passes, of stretches of passes, of stretches whose ledger write fails, and of other ledger operations between them, no update is re-enqueued twice |
| RecoveryRuns.AgedLossEnds | src/app/maintenance-jobs.ts:105-111 | A loss reported at or past the grace age, not re-run before, ends with that pass: after any later passes, stretches of passes, ledger operations, crashes and restarts that do not redeliver the pruned update, no reconcile reports it at any time |
| RecoveryRuns.AgedStretchEnds | src/app/maintenance-jobs.ts:105-111 | The same from the stretch that gives the loss up, when other operations interrupt the pass |
| RecoveryRuns.RedeliveryReopens | src/bridge/ledger.ts:185-199 | The exclusion is sharp: once the fold let go of an update, its redelivery is reported lost at exactly the times past the window, unless it is a reaction or was skipped |
| RecoveryRuns.AbandonedForever | src/bridge/ledger.ts:153-155 | In the whole history an abandon after arrival is final, whatever rows follow |
| RecoveryRuns.AtMostFourAlarms | src/bridge/types.ts:78-93 | While no alarmed update comes back after the fold let go of it, the alarms that land for one update have strictly rising rungs, so there are at most four |
| AlarmRuns.AlarmsPerOpening | src/bridge/ledger.ts:372-386 | Over any run, redeliveries, crashes and restarts included: at most four alarms for each time the update comes into the fold, and one for each alarm raised while the fold does not hold it |
| AlarmRuns.OnlyDeliveriesOpen | src/bridge/ledger.ts:86-139 | Nothing but an inbound row of the update brings it into the fold |
| AlarmRuns.RedeliveryAlarmsAgain | src/bridge/ledger.ts:185-199 | The count is sharp: once the fold let go of an update, its redelivery opens it and the next alarm lands on any rung |
| Candidates.BestFirstOrder | src/assemble/score.ts:128-134 | Score descending, id ascending is a total order |
| Orders.StringLessWhere | src/corpus/types.ts:43 | A string is less if and only if it runs out first or has the lower code unit where the two first differ |
| Candidates.FitsItsOnlyMode | src/assemble/rules.ts:11-28 | A candidate fits the register if and only if none of its tags is a mode, or exactly one is and it is the register |
| Candidates.ConflictsOverAPair | src/assemble/rules.ts:31-41 | A candidate conflicts with others if and only if it bears one side of a forbidden pair and one of them the other |
| Intake.ScoreIsSum | src/assemble/score.ts:72-98 | The score is the normalised base if there is one, the modulation, and 0.15 times the credit above neutral |
| Score.RankNormalize | src/assemble/score.ts:46-62 | The loop over runs of ties computes for every value the mean of the 1-based sorted positions of its ties, over n, stated by counting and not by sorting |
| Score.RankKeepsOrder | src/assemble/score.ts:29-36 | Ranks preserve and reflect the order, and ties are equal exactly |
| Score.RankRange | src/assemble/score.ts:29-36 | Every rank is in (0, 1]; it is 1 if and only if the value stands alone at the top |
| Score.RankIgnoresScale | src/assemble/score.ts:14-16 | Any strictly increasing rescaling leaves every rank |
| Score.RanksSum | src/assemble/score.ts:52-58 | The ranks add up to (n + 1) / 2, whatever the ties |
| Intake.NominateChannel | src/assemble/quota.ts:254-275 | The nominator decides the track; nothing crosses it, nothing suitable is lost, one insane score refuses the intake |
| Intake.DedupeById | src/assemble/quota.ts:278-284 | The loop over the sorted pool keeps the first of each id |
| Intake.DedupeUnique | src/assemble/quota.ts:278-284 | One entry for each nominated id and no other |
| Intake.DedupeKeepsBest | src/assemble/quota.ts:278-284 | The entry kept ranks before every occurrence of its id, and the pool comes out sorted |
| Intake.DedupeOrderFree | src/assemble/quota.ts:278-284 | Any permutation of the pool deduplicates to the same list |
| Quota.SumSignatures | src/assemble/score.ts:162-171 | The mean signature over the members, dimension by dimension |
| Quota.FillCharacter | src/assemble/quota.ts:136-219 | The mutable selection ends with the four groups of the fill; FillMaximal says which candidates those are |
| FillMaximal.FillHoldsTheBest | src/assemble/quota.ts:136-219 | Each group holds the best of what it may hold: nobody eligible outside the contrast group is further from the mean of the other slots than a member, nobody eligible and unused outscores a member of another group, lived material comes before seeds, ties go by score then id, and a group is short of its quota only when nothing eligible is left; the runners-up are the others, in the same order |
| FillMaximal.FillIsScarceIff | src/assemble/quota.ts:154-218 | The packet is scarce if and only if some group has fewer members than its floor |
| FillMaximal.DissimilarityIsDistance | src/assemble/score.ts:180-188 | A candidate at least as far from the mean in every dimension is at least as dissimilar, and more so if and only if it is further in one |
| PacketLaws.FillSound | src/assemble/quota.ts:136-219 | From a deduplicated pool no id fills two slots, no group exceeds its quota, the disposition group is canon only, and with strict registers every other slot is mode-compatible |
| PacketLaws.FillOrderFree | src/assemble/quota.ts:105-112 | With equal score and id meaning the same candidate, any permutation of the pool gives the same members and runners in the same order |
| Coherence.ScanForbiddenPairs | src/assemble/coherence.ts:62-81 | An offender if and only if two slots clash; it is the lower of the first clashing pair |
| Coherence.ScanDimensionCaps | src/assemble/coherence.ts:85-101 | An offender if and only if an unlifted dimension is over its cap; the lowest carrier of the first such dimension |
| Coherence.ScanRegisterTags | src/assemble/coherence.ts:105-124 | An offender if and only if there are more distinct tags than allowed; the lowest slot with a tag that at least the allowed number of tags beat by count, then by name |
| Coherence.AllowedAreCommonest | src/assemble/coherence.ts:103-122 | An allowed tag occurs more often than one that is not, or as often and comes first in the alphabet |
| Coherence.ScanSpread | src/assemble/coherence.ts:128-156 | An offender if and only if two members lie further apart than the spread; the first member at either extreme of the first such dimension |
| Coherence.FurthestIsExtreme | src/assemble/coherence.ts:142-151 | Furthest from the midpoint means holding the least or the greatest value |
| Coherence.ScanEmbeddingSanity | src/assemble/coherence.ts:160-183 | An offender if and only if a pattern or episode slot is off query and off centroid, or has no vector; the lowest of them |
| Coherence.FirstViolation | src/assemble/coherence.ts:187-196 | None if and only if no layer is broken; otherwise the slot the first broken layer names |
| Coherence.ViolationIsOne | src/assemble/coherence.ts:51-52 | A packet without repeated ids has at most one offender |
| SwapLoop.SwapOut | src/assemble/coherence.ts:198-204 | The offender leaves its group for its out list and the best free runner-up joins at the end |
| SwapLoop.SlotRefilled | src/assemble/coherence.ts:202-203 | The slot stays empty if and only if no runner-up is free; else the first free one takes it |
| SwapLoop.SwapKeepsSound | src/assemble/coherence.ts:198-204 | Every swap keeps ids apart, quotas, eligibility and exile, whichever slot leaves |
| SwapLoop.RunCoherence | src/assemble/coherence.ts:211-220 | Degraded if and only if a layer is broken in the packet it leaves; a run of forced swaps, at most maxSwapRounds, the full number when degraded |
| SwapLoop.RunsAreDetermined | src/assemble/coherence.ts:211-220 | Two forced runs of one length from one sound packet are the same |
| SwapLoop.NeverBackInItsGroup | src/assemble/coherence.ts:22-24 | An offender never again fills a slot of the group it left |
| SwapLoop.ExileReturnsIffRunnerElsewhere | src/assemble/coherence.ts:202 | A swapped-out candidate comes back into the packet by a swap if and only if the runner-up taken is in the out list of another group |
| ReachedFailures.ExileReturns | src/assemble/coherence.ts:22-24 | A pool, its fill, and the three swaps the embedding layer forces on it, after which a slot that left the pattern group fills the contrast group |
| SwapLoop.ScarcityFlagAfterSwap | src/assemble/quota.ts:217 | The scarcity flag is still true to the floors after a swap if and only if the packet was scarce, the group was above its floor, or a runner-up was free |
| Budget.DropLowestProcedural | src/assemble/budget.ts:60-65 | Drops the lowest procedural slot, or answers false when there is none |
| Budget.DropLowestExemplar | src/assemble/budget.ts:67-75 | Drops the lowest non-memory character slot from the group that holds it |
| Budget.DropLowestMemory | src/assemble/budget.ts:77-85 | Drops the lowest memory slot of the episode-memory group; memory elsewhere is never trimmed |
| Budget.EnforceBudgets | src/assemble/budget.ts:91-116 | Ends after a run of drops each called for by a budget and each of the lowest slot of its class; the packet fits, or no procedural slot and no exemplar is left and at most three memory slots |
| Budget.DropShrinks | src/assemble/budget.ts:91-116 | Every drop makes the packet smaller, so the loops end |
| Budget.DropsTrim | src/assemble/budget.ts:53-85 | Over every such run nothing is lost or invented, and within each class whatever is gone ranks below whatever is left |
| Budget.DropsKeepSound | src/assemble/budget.ts:60-85 | Every run of drops keeps the packet sound |
| Assembly.Assemble | src/assemble/assemble.ts:61-120 | Fill, coherence, budget in that order under the channel mask |
| Assembly.AssembledIsSound | src/assemble/assemble.ts:61-120 | Whatever the nominations, layers and render: no repeated id within a channel, quotas, canon keel, registers; and the channels share an id only if the nominators did |
| Assembly.StartOrderFree | src/assemble/assemble.ts:74-87 | The packet entering coherence does not depend on the order of the nominations |
| Assembly.StartTakesTheBestProcedures | src/assemble/assemble.ts:84-88 | With the procedural channel on, its slots hold the best of the procedural pool, as many as the action intent asks for or there are; off, they are empty |
| Assembly.BothChannelsCanShowOneId | src/assemble/assemble.ts:84-87 | An id nominated on both channels can fill a slot of each |
| ChannelTracks.NominateAndScore | src/assemble/assemble.ts:65-79 | Refused if and only if a consulted nominator sent an insane score; otherwise only procedures come in on the procedural track, none on the other, and nothing on a track the mask or the intent closes |
| ChannelTracks.TracksNeverMix | src/assemble/quota.ts:4-9 | From nomination through every swap and drop, no procedure fills a character slot or waits for one, and nothing else fills a procedural slot |
| ShippedCoherence.DropKeepsFourLayers | src/assemble/assemble.ts:92-120 | A budget drop never breaks pairs, caps, tags or spread |
| ShippedCoherence.ShipsCoherentIff | src/assemble/assemble.ts:92-120 | Of a coherent packet, what ships after any drops is coherent if and only if every exemplar left that is off the query is near the centroid of the vectors left |
| ShippedCoherence.DropBreaksIff | src/assemble/assemble.ts:92-120 | A legal drop breaks a coherent packet if and only if it takes a character slot without which the centroid no longer speaks for some other exemplar off the query |
| ShippedCoherence.VectorlessDropKeepsCoherence | src/assemble/assemble.ts:92-120 | A drop of a slot without a vector never does |
| ShippedCoherence.ShipsCoherent | src/assemble/assemble.ts:92-120 | So a coherent packet whose exemplars are near the query itself ships coherent, whatever is dropped |
| ReachedFailures.DropCanBreakSanity | src/assemble/assemble.ts:92-120 | A fill that passes all five layers and the legal drop an exceeded exemplar budget calls for, after which the embedding layer is broken |
| Enumerate.MaxDerived | src/derive/enumerate.ts:29-36 | The largest whole number within cap times canon |
| Enumerate.EnumerateTargets | src/derive/enumerate.ts:45-100 | Accepted if and only if names are unique, the cap is sane and every key is right and new; which error it is; the targets under the cap, which DeriveRun.TargetsFillTheCap tells by the entries and the cap, and the number dropped |
| Enumerate.OrphansByRebuiltKey | src/derive/enumerate.ts:126-136 | The keys orphanSet rebuilds are the proposed ones on every accepted enumeration |
| DeriveRun.DirtyIsKept | src/derive/enumerate.ts:111-119 | The dirty set is the first fresh proposals there is room for |
| DeriveRun.TargetsFillTheCap | src/derive/enumerate.ts:85-119 | The targets are all proposals that have an entry and then the first ones without, in registration order: as many as there are, or as the cap less the live entries leaves room for; the dirty set is the latter, and one is left out only when live entries and dirty targets reach the cap |
| DeriveRun.CapNeverOrphans | src/derive/run.ts:84-88 | The orphans found against the capped targets are those of the uncapped set |
| DeriveRun.LiveSurvivesAnyCap | src/derive/enumerate.ts:83-88 | Whatever the cap, a live entry is in the next manifest |
| DeriveRun.CountAfter | src/derive/enumerate.ts:83-90 | The manifest holds what was live and what was accepted, at most the larger of the cap and the live entries before |
| DeriveRun.RunReachesFixpoint | src/derive/run.ts:56-95 | After a run in which every dirty target was accepted nothing is dirty and nothing orphaned |
| DeriveRun.SecondRunChangesNothing | src/derive/run.ts:56-96 | A second run writes nothing and leaves the manifest identical |
| DeriveRun.FilesBackedIffNoSharedId | src/derive/run.ts:134-154 | Every entry of the new manifest has its file if and only if no orphan carries the content id of an entry that stays or was written |
| DeriveRun.SameTextUnderNewKey | src/derive/run.ts:84-95 | A template edit with the same text: the new entry loses its own file to the collection |
| WorkerPool.TurnKeepsInv | src/derive/run.ts:65-82 | Every turn of every hand keeps each claimed target with one hand or settled once, and the tallies those of the targets settled |
| WorkerPool.TurnProgresses | src/derive/run.ts:67-80 | Every turn of an unfinished hand brings the drain nearer its end |
| WorkerPool.EachSettledOnce | src/derive/run.ts:67-82 | When the pool is drained each dirty target was claimed and settled exactly once |
| WorkerPool.Pool.FindLastStage | src/derive/run.ts:223-229 | The newest failure of the key, from the end |
| WorkerPool.LastStageIsOwn | src/derive/run.ts:217-229 | A discarded target is classified by its own last failure |
| WorkerPool.OutcomeIsFirstAccepted | src/derive/run.ts:164-221 | A target gets an entry if and only if one of its two tries is accepted: the first accepted draft under its own key and generator, marked as passed |
| WorkerPool.Pool.TakeTurn | src/derive/run.ts:67-80 | What one hand does between two suspensions |
| WorkerPool.EveryInterleavingIsSequential | src/derive/run.ts:65-82 | Over every sequence of turns of any number of hands that ends with all hands finished: the entries written and the counts are those of the sequential run, each target settled once |
| WorkerPool.DrainTargets | src/derive/run.ts:65-82 | Under every schedule and concurrency the entries written are those of the sequential run and so are the counts |
| WorkerPool.DrainedManifest | src/derive/manifest.ts:65-68 | Under every interleaving, for every accepted enumeration, the sorted manifest is the sequential one |
| Derive.Derive | src/derive/run.ts:44-122 | The whole run: counts add up to the targets, the sorted manifest, the orphans, and the files left on disk |
| CorpusCheck.HashViolations | src/derive/check.ts:67-100 | Exactly the faults of the live entries; none if and only if every entry is attested |
| CorpusCheck.UnclaimedFiles | src/derive/check.ts:103-115 | Exactly the files no live entry claims |
| CorpusCheck.CapReport | src/derive/check.ts:118-141 | Holds if and only if the total and every scene are within their caps |
| CorpusCheck.Check | src/derive/check.ts:41-64 | The verdict is ok if and only if nothing is dirty or orphaned, every file is attested and claimed, and the caps hold |
| CorpusCheck.AcceptedRunIsClean | src/derive/check.ts:41-64 | After a fully accepted run whose files are attested the check passes if and only if the live entries were within the cap and the scenes within theirs |
| DerivedId.SplitJoin | src/corpus/frontmatter.ts:55-62 | Joined parts split back into themselves, the lazy group ending at the nearest fence |
| DerivedId.SplitParts | src/corpus/frontmatter.ts:55-62 | A split puts the text back together and leaves no fence inside the frontmatter |
| DerivedId.MaskKeepsFences | src/corpus/derived-id.ts:31-46 | Rewriting the id line makes no fence |
| DerivedId.MaskTwice | src/corpus/derived-id.ts:31-46 | Masking a stamped frontmatter is masking the original |
| DerivedId.StampKeepsHashableText | src/corpus/derived-id.ts:22-46 | Stamping a one-line id without `$` leaves the hashed text if and only if that text holds no CR LF pair |
| DerivedId.LfOnlyIsSafe | src/corpus/derived-id.ts:24-34 | Text without carriage returns never does |
| DerivedId.StampIsFixpoint | src/corpus/derived-id.ts:36-46 | The id of the stamped file is the id stamped into it, and its id line, if it has one, reads that id |
| DerivedId.StampWritesTheId | src/corpus/derived-id.ts:40-46 | A text that splits is stamped: what comes back splits into the same body and the same lines but the first id line, which reads the given id; a frontmatter without an id line stays as it is |
| DerivedId.StampTellsIdsApart | src/corpus/derived-id.ts:40-46 | Two different ids make two different files |
| DerivedId.HashedTextReadsPending | src/corpus/derived-id.ts:22-34 | What is hashed reads the placeholder on its id line |
| DerivedId.OtherBytesAreCovered | src/corpus/derived-id.ts:3-11 | Two texts that hash alike differ on their id lines at most |
| DerivedId.StampedFileLosesItsId | src/corpus/derived-id.ts:31-46 | A file with three carriage returns before a line feed does not keep its id |
| VectorIndex.EncodeBuffer | src/embed/vector-index.ts:51-92 | The buffer written field by field at a moving offset is the encoding, length-exact |
| VectorIndex.DecodeBuffer | src/embed/vector-index.ts:94-134 | The moving-offset reader returns what the decoding says, error by error |
| VectorCodec.RoundTrip | src/embed/vector-index.ts:51-134 | Decoding an encoding restores every id, meta and vector in order, whatever bytes trail it |
| VectorCodec.PrefixRefused | src/embed/vector-index.ts:94-134 | Every proper prefix of an encoding is refused |
| VectorIndex.DecodedShape | src/embed/vector-index.ts:103-133 | Whatever the bytes, a payload that decodes holds no id twice and only vectors of its dimension |
| VectorIndex.Store.Upsert | src/embed/vector-index.ts:148-158 | A zero-length or foreign-dimension vector is refused and changes nothing; otherwise the entry is put and the dimension is fixed |
| VectorIndex.Store.Save | src/embed/vector-index.ts:186-198 | The payload is the encoding, the sidecar its dimension and count |
| VectorIndex.Store.Load | src/embed/vector-index.ts:200-229 | Refused loads change nothing; an accepted one installs the decoded entries and the sidecar dimension |
| VectorIndex.SavedLoads | src/embed/vector-index.ts:186-229 | What one index saves another loads, entry for entry, if and only if it is bound to no other embedder and no other dimension |
| VectorIndex.LoadsIff | src/embed/vector-index.ts:200-229 | A load goes through if and only if the sidecar is of this embedder and dimension and the payload decodes to what it says; a foreign embedder is refused as such first, then a foreign dimension |
| VectorLayout.EncodedLayout | src/embed/vector-index.ts:51-92 | Byte by byte: the magic, version 1, the count and the dimension, lowest byte first, then each entry where the one before ends: id length, id, meta length, meta, vector |
| VectorIndex.TornSaveRefused | src/embed/vector-index.ts:9-12 | A payload cut short is refused whatever its sidecar says |
| Credit.ApplyOutcome | src/consolidate/credit.ts:104-118 | The loop credits the slots in turn, each from what the one before left |
| Credit.CreditedInRange | src/consolidate/credit.ts:77-78 | No update takes a weight out of 0.5 to 2.0 |
| Credit.OthersKeepTheirWeight | src/consolidate/credit.ts:104-118 | Only the exemplars of the packet move |
| Credit.MoveIsSmall | src/consolidate/credit.ts:29-46 | One grade moves a weight by at most the learning rate and half a micro-unit of rounding; without a share, and downwards for contrast, by the rounding alone |
| Credit.OneGradeMoves | src/consolidate/credit.ts:29-96 | On a weight of whole millionths one grade moves by exactly twenty thousand, half for a disposition, nothing for a contrast slot that is not vindicated, and half again when the positive aversive excursions exceed the norm 0.5; up for plus, down for minus, within 0.5 and 2 |
| Credit.AppliedMovesByWorth | src/consolidate/credit.ts:104-118 | A graded packet moves the weight of an exemplar that holds one slot by exactly that |
| Credit.GuardIsHalfWhenAverse | src/consolidate/credit.ts:56-73 | The guard is a half if and only if the five aversive excursions above baseline exceed the threshold together |
| Credit.DecayWeights | src/consolidate/credit.ts:121-134 | Every weight is pulled toward neutral once |
| Credit.NightsOfDecay | src/consolidate/credit.ts:121-134 | n nights give 1 + (w - 1) times 0.995 to the n: the clamp never fires |
| NightlyCredit.ReplayL0 | src/consolidate/run.ts:193-237 | Packets and grades in order, of a turn only the last grade in its own place; the highest number; the malformed rows counted |
| NightlyCredit.ReplayWeights | src/consolidate/credit.ts:210-225 | The fold from scratch: each grade credits the packet its turn has had so far |
| NightlyCredit.ApplyCredit | src/consolidate/run.ts:243-300 | One night: load or rebuild, apply the grades past the marker, decay once a day |
| NightlyCredit.NightsEqualReplay | src/consolidate/run.ts:243-300 | Decay aside, passes over any growing prefixes end where a replay from scratch ends, if in what the last night reads no packet follows a grade of its turn and no grade a night took in is given again; grades corrected before the night are allowed |
| NightlyCredit.SecondPassChangesNothing | src/consolidate/run.ts:287-298 | A second pass on the same day and log leaves the file, whatever the log |
| NightlyCredit.DecaysOncePerDay | src/consolidate/run.ts:287-298 | Over any passes with nothing new, each weight decays once for each day later than all before, however often the pass runs |
| NightlyCredit.UnreadableIsRebuilt | src/consolidate/run.ts:243-298 | A night that finds an unreadable file ends with the weights of a replay from scratch, a missing one with those the log gives from neutral, each decayed if a day has passed |
| NightlyCredit.NightInRange | src/consolidate/run.ts:243-300 | No night takes a weight out of its range |
| CreditTimes.NightsGive | src/consolidate/run.ts:243-300 | The weights after the nights are the listed credits applied in turn, and nothing else |
| CreditTimes.ReplayGives | src/consolidate/credit.ts:210-225 | The same of the replay |
| CreditTimes.TimesOverNights | src/consolidate/run.ts:224-286 | The nights apply a grade of a turn exactly as often as there are nights whose own window holds a grade of the turn and whose log holds a packet of it |
| CreditTimes.CreditedOnceIff | src/consolidate/run.ts:224-229 | The promised once is met if and only if there is exactly one such night |
| CreditTimes.TimesInReplay | src/consolidate/credit.ts:210-225 | The replay applies a grade of the turn once if a packet precedes its last grade, and never otherwise |
| CreditTimes.NightsAndReplayPart | src/consolidate/run.ts:224-229 | The two counts differ if and only if two nights credit the turn, or one does although no packet precedes its last grade |
| NightlyCredit.RegradeCountsTwice | src/consolidate/run.ts:224-235 | An instance: a grade after the night that took in the first counts on top of it |
| NightlyCredit.LatePacketIsCreditedByNightOnly | src/consolidate/run.ts:276-286 | An instance: a packet logged after its grade is credited by the night and ignored by the replay |

## Left out

- LedgerFold.VerdictMembers: does not state the order among equal keys, because an id occurs once in the fold.
- MessageLedger.Opened.EnsureFold: a snapshot that does not parse raises an error in the source; here a snapshot is one that parsed.
- Recovery.Recoverer.RecoverLost: runs without interruption and without a throw; RecoveryRuns covers both, one loss at a time.
- Recovery.Recoverer.RunReconcile: the catch that turns a failed pass into an empty outcome and an incident is left out.
- IngestRuns.RunKeepsInv: does not cover several messages written in one batch by the optional second transport, which ingests one message at a time.
- Coherence.ScanEmbeddingSanity: does not model the error that the cosine raises on vectors of different length, because the cosine is any total function; vectors of a pool share the query's dimension.
- Coherence.ScanDimensionCaps: a negative cap on a dimension nobody carries names no offender and counts as no violation, as in the code.
- Budget.EnforceBudgets: the section budgets hold when their own loops end; the render is arbitrary, so nothing is said of a section after later drops.
- Quota.FillCharacter: orders the contrast group by squared distance, which orders as the distance does.
- Deliveries.RepliesAreAccountedFor: what the shaping does to the words of a bubble, and the refusal to send tool-call markup, which is a throw here.
- WorkerPool.DrainTargets: does not model the time stamp of an entry, which alone depends on the interleaving.
- NightlyCredit.NightsEqualReplay: holds decay aside, as the replay does not know how many nights passed.
- VectorCodec.RoundTrip: ids and metas are byte strings and words are exact, so lone surrogates and NaN payloads are not modelled; lengths are below two to the 32.
- Telegram HTTP, model calls, file handles, fsync and rename behaviour: input and output.
- Log files that vanish: the fallback of a snapshot whose last file is gone replays everything.
- Search over the vector index: a sorted dot product.
- The affect engine, heartbeat gates, process lock, register inference, schemas, configuration and wiring.
- Prompts, rendered text, generators and judges: arbitrary functions here.
- The detached afterturn of a turn: appraisal and episodes do not touch the queue, the carry slot or the outcomes.
- The procedural quota classifier and the gravity multiplier: small tables that would only add easy members.
- Kind and payload-size rejections of an emit, and the derive report's failure list and embedder note.
