# A verified model of the control plane

The repository is a control plane for child agents: a durable engine for direct tasks over a
journal of revisions, a dispatcher that owns child agents, a two-worker batch runner, a route
selector fed by recorded evidence, a review loop, and the offline probes that produce evidence.
This project models those parts and proves what they promise.

Language models, child agents, the disk, clocks and aborts are whatever they may be: in the state
machines they are events that can happen at any time, in the methods they are nondeterministic
results. SHA-256 is modelled by what was hashed, random names by names never used before, text by
sequences of UTF-16 code units.

## How it is built

| file | what it models |
|---|---|
| `Text.dfy`, `Utf8.dfy`, `Wrappers.dfy` | UTF-16 text, trimming and inclusion, also by positions; its bytes (RFC 3629) against a strict reader; options |
| `Journal.dfy`, `Histories.dfy` | which revision is acceptable, which may follow which, and what every acceptable chain has in common |
| `JournalStore.dfy` | the journal's code: its loops, reading a directory, and the compare-and-swap save |
| `Engine.dfy` | each stretch of engine code between two waits, against the journal's rules |
| `EngineSystem.dfy`, `EngineSafety.dfy` | any number of engines on one directory, with crashes and torn writes, as a state machine, and its invariant |
| `EngineGuarantees.dfy`, `EngineOutcomes.dfy`, `EngineLimits.dfy`, `EngineRaces.dfy` | what every run of that machine guarantees, how its rounds end and what they cost, what happens at the limits of the journal, and what happens to the slower of two engines |
| `TaskEngine.dfy` | the engine's run loop as a class, each step of which is an event of that machine |
| `Admission.dfy`, `Dispatch.dfy`, `Disposals.dfy` | the two-slot gate with its line, child ownership, deletion and stored links on top of it, and the teardown of each child by its events |
| `Delegation.dfy`, `DelegatedCall.dfy` | the rounds of one delegated run with failover, and the whole call as code, in step with the dispatcher around it |
| `Batch.dfy`, `BatchRows.dfy`, `BatchAnswers.dfy`, `BatchLoop.dfy`, `RunIds.dfy` | the two-worker batch runner as a state machine, how each of its rows ends, the same with answers that are only made when asked for, one of its loops as code, and the names of its assignments |
| `Routes.dfy`, `Selection.dfy`, `Qualification.dfy`, `Capacity.dfy` | task policy, evidence rules, route selection, the record a probe leaves, and the capacity report |
| `Verdicts.dfy`, `Iterate.dfy` | verdicts, compactions and the review loop |
| `RecordStore.dfy`, `RecordQueue.dfy` | the record store and the promise queue in front of it |
| `Crc.dfy`, `Png.dfy`, `Octets.dfy` | CRC-32 and the probe images (W3C PNG Specification, Second Edition, sections 5.3, 5.5 and Annex D) |

The main results, one line each:

- `EngineGuarantees.EngineRefinesJournal`, `AtMostOnce`, `OneOpenStream`, `OpenedAfterCommit`: over every run of any number
  of engines from any directory that can be read back, the directory stays an acceptable chain, the records that do not fit
  and those the journal refuses are counted, no stream is opened twice, no two are open at once, and each is opened only
  after two durable revisions. `TaskEngine.TaskEngine.Run` shows that the code only appends such steps to the history it finds.
- `EngineOutcomes.RoundsEndAsTheyShow`, `SettledAtItsCharge`, `HeldForTheWorst`: over every run each settled round leaves the
  task in the status that its text and its finish account for, and every record carries what its tokens cost, said by
  positions in the texts and by the charge itself.
- `Histories.LaterRevision`, `TerminalIsLast`, `CommitsAreRounds`: facts about whole journals.
- `Admission.FirstComeFirstServed`, `Dispatch.EveryChildIsDisposedOnce`, `DisposeDrains`, `StoredLinksResolve`: admission,
  ownership (every child ever started is accounted for) and referential integrity over every sequence of events;
  `Disposals.LetGoInOrder` says by those events that a child is let go only after its teardown.
- `DelegatedCall.Call.Run`: the loop that steps its own index back ends, within its bounds, in the state its last answer and
  the two looks at the signal account for (`Delegation.PartialExactly`, `EndsExactly`), and makes only events of the
  dispatcher; `Delegation.FailsOverExactly` and `EveryStandbyIsTried` make failover an equivalence; `StartsAreBacked` and
  `IndependenceEndToEnd` carry the promises of the selection through its failovers.
- `Batch.BatchSafety`, `DelegatesOnlyAnnounced`, `Confluence`, `CompletedExactlyWhen`, `EveryRunEnds`, `SomeRunIsUndisturbed`,
  `BatchRows.EveryRowIsExplained`: every interleaving of the two workers, disturbed or not; `BatchAnswers.Hindsight` and
  `SameAnswersSameTable` extend them to answers made only when they are asked for, and
  `BatchLoop.Loop.Work` shows that the code of a worker only appends such steps to the history it finds.
- `Selection.SelectIgnoresOrder`, `SelectIgnoresOlder`, `FirstPassingIsChosen`, `SpreadReaches`, `IndependenceIsHonest`,
  `SelectedIsBacked` and `Qualification.HintMakesSelectable`: what a selection depends on, and that following a refusal's hint works;
  `Qualification.AcceptedExactly` and `FailedProbeIsNotSelected`: what a probe that failed is good for; `Routes.PoolExactly`:
  which pool a task gets.
- `Iterate.Iterate`, `RevisesExactlyWhen`, `StopsExactlyWhen`, `FinalTracesBack`: the review loop, decided by what its reviewers
  declared, whatever others store or remove meanwhile.
- `RecordQueue.QueueIsSerial`, `SavesAdvance`: the record store over whole runs of its queue.
- `Crc.Crc32`, `Crc.WindowDetected`, `Png.FileReads`: the table-driven checksum, what it detects, and reading an image back.

Six claims turned out to have an edge, and the exact condition is proved.

- That every record an engine passes to the journal is acceptable and may follow the engine's own last one fails in two ways,
  and in no other (`EngineGuarantees.EngineRefinesJournal` counts both as unfit, event by event, over whole runs): planning with
  evidence that `normalizeEvidence` keeps although it does not expire after it was issued, or has a negative date; and beginning
  a round while the last revision is 1023, where the commit is stopped by the revision limit and the interruption passed in its
  stead may not follow. `ExpiredWhenIssued` and `EngineLimits.RefusedAtTheLimit` give an input for each. The second is out of
  reach of a directory with fewer than 869 revisions (`RefusedExactlyForDates`).
- That the journal accepts every record that fits fails in one more way: a save that finds the directory moved on or torn since
  its engine's own last revision. `EngineGuarantees.WhyRefused` shows that a refusal is of one of these three kinds, and
  `EngineRefinesJournal` counts them over whole runs. `EngineRaces.SecondCommitIsRefused` gives an input, two engines that commit
  from the same planned task; `EngineGuarantees.OneEngineNeverConflicts` shows that one engine by itself never meets it.
- That a run which ends partial had no text or no round left to go on with, and wrote no files, fails exactly when the signal
  fires after the state of its last answer was recorded and before the child is disposed (`Delegation.PartialExactly`;
  `LateSignalEndsPartial` gives an input for either part).
- The hint of a missing qualification can be followed exactly when the task does not ask for video
  (`Qualification.FollowingTheHint`; `VideoHintIsRefused` is such a task).
- The hint of a refusal for something in a record can be followed exactly when it is not about video, nor about data that is
  ordinary: its attestation then names that class twice and is refused (`Qualification.FollowingARefusal`;
  `OrdinaryDataHintIsRefused` gives a record and a task). Where it can be followed, the reason does not come back.
- The review loop is never refused for the context it passes, except at a call that nothing else refuses and that finds
  something under the name of the context that does not stand in for the subject; it ends so exactly when one of its logged
  calls is of that kind, and then somebody else has stored something under the name of its compaction (`Iterate.Iterate`;
  `StrangerIsRefused` shows what is then refused).

## Model

| member | source | states |
|---|---|---|
| `Histories.LaterRevision` | src/journal.mjs:116-130 | between any two revisions of an accepted chain request and evidence are constant, rounds keep their names and order, text only grows at its end, settled rounds never change, holds stay until settlement, spent cost never falls |
| `Histories.TerminalIsLast` | src/journal.mjs:122-123 | a revision in a terminal state is the last of its chain |
| `Histories.CommitsAreRounds` | src/journal.mjs:122-124 | a chain commits exactly as many attempts as its last revision has rounds, at most the requested maximum |
| `Histories.CommittedEarlier` | src/journal.mjs:124-126 | every round of a revision was committed by an earlier revision naming the same attempt as its newest round |
| `Histories.ExtendHistory` | src/journal.mjs:145-151 | appending an acceptable successor keeps a directory readable from first to last |
| `Histories.NextRevision` | src/journal.mjs:116-130 | what one accepted step keeps, in particular that the recomputed ledger does not shrink |
| `JournalStore.ExpectedCost` | src/journal.mjs:54-54 | the code's price is the one charged: each kind of token at its own rate, rounded up, nothing without rates or after a write to a cache, refused exactly where the exact integers end |
| `JournalStore.CheckUsage` | src/journal.mjs:46-53 | a usage is returned with its total exactly if its counts are exact integers, add up, and reasoning is part of the output |
| `JournalStore.CheckRequest` | src/journal.mjs:23-45 | a request and its route pass the code's checks exactly if the acceptance predicate says so |
| `JournalStore.ExpectedHold` | src/journal.mjs:55-59 | the loop over earlier rounds computes the reservation, and a field stores it exactly if it covers the charge for 1024 input tokens, two for each byte that is sent, and all output tokens, each at its own rate, rounded up, or is absent without rates |
| `Journal.PriceIsCharged` | src/journal.mjs:54-54 | a price is the least number of micro-dollars that covers input tokens at the input rate and output tokens at the output rate, nothing without rates, and refused exactly if that charge leaves the exact integers |
| `Journal.OkIsRightlyPriced` | src/journal.mjs:82-89 | an acceptable round carries as cost what its usage is charged, unless tokens were written to a cache, or else as hold what it may use at most |
| `JournalStore.NormalizeRound` | src/journal.mjs:71-95 | a round is returned in normal form exactly when it is acceptable in its place, and its cost and hold then cover exactly what it used or may use |
| `JournalStore.NormalizeRounds` | src/journal.mjs:70-96 | the loop with its running totals accepts exactly the acceptable tables and returns their sums |
| `JournalStore.CheckStatus` | src/journal.mjs:97-100 | the code's checks, status by status, accept exactly the rounds that go with it |
| `JournalStore.CheckEvidence` | src/journal.mjs:103-105 | evidence passes exactly if its dates are exact integers and it expires after it was issued |
| `JournalStore.NormalizeRecord` | src/journal.mjs:60-115 | a record is refused, or returned in normal form, exactly as the acceptance predicate says |
| `JournalStore.AcceptedIsNormal` | src/journal.mjs:52-52 | normalizing is idempotent on what is accepted: a stored record reads back as itself |
| `JournalStore.CheckRound` | src/journal.mjs:124-128 | a round may become another exactly if it keeps its name, its text grows at its end, a settled one stays as it is, and an unsettled one moves on and keeps its hold until it is settled |
| `JournalStore.ValidateTransition` | src/journal.mjs:116-130 | the transition check decides exactly whether one record may follow another |
| `JournalStore.Latest` | src/journal.mjs:145-151 | reading succeeds exactly when every revision is whole, not too large, acceptable and a legal successor, and returns the last one |
| `JournalStore.AdmittedIsSound` | src/journal.mjs:155-161 | saving an admissible record leaves a directory that reads back completely |
| `JournalStore.TaskJournal.Load` | src/journal.mjs:145-155 | load returns the last revision of a sound directory and refuses any other |
| `JournalStore.TaskJournal.Save` | src/journal.mjs:155-161 | compare and swap: an admissible record of at most 3 MiB is appended whole whenever the disk writes it, and acknowledged exactly if it is also synced; a refusal changes nothing; otherwise a failing disk adds at most one torn file at the end |
| `Engine.ReservationIsExpectedHold` | src/engine.mjs:94-98 | the hold the engine computes from the messages it sends equals the hold the journal recomputes from the stored rounds |
| `Engine.ReservationNeverOverflows` | src/engine.mjs:92-98 | whatever fits the context limit is priced within exact integers, so reserving never raises an overflow |
| `Engine.LedgerNeverOverflows` | src/engine.mjs:12-12 | the ledger of any acceptable round table stays within exact integers |
| `Engine.NewTaskFits` | src/engine.mjs:77-83 | a planned task is an acceptable first revision |
| `Engine.CommittedFits` | src/engine.mjs:98-107 | a commit is acceptable and a legal successor of a planned or continuing task |
| `Engine.RunningFits` | src/engine.mjs:113-120 | a start or a checkpoint is acceptable and a legal successor |
| `Engine.InterruptedFits` | src/engine.mjs:134-139 | from any point of an attempt its interruption is acceptable and a legal successor |
| `Engine.SettledFits` | src/engine.mjs:128-133 | a settled round, in each of its four outcomes, is acceptable and a legal successor |
| `Engine.LimitedFits` | src/engine.mjs:91-93 | giving up between rounds is acceptable and a legal successor |
| `Engine.ProgressIsNew` | src/engine.mjs:130-131 | a round makes progress exactly if its trimmed text is not empty and can nowhere be read in the earlier texts, joined; that those are blank never matters |
| `Engine.SettledIsSettledAs` | src/engine.mjs:129-132 | the settlement block leaves the task in the one of its four statuses that text, finish and the number of rounds account for |
| `Text.TrimIs` | src/engine.mjs:130-130 | trimming leaves what stands between the first and the last code unit that is not blank |
| `Text.IncludesIsShown` | src/engine.mjs:131-131 | a text includes another exactly if it can be read in it from some position |
| `Utf8.ByteLengthIsBytes` | src/journal.mjs:55-58 | the length a text is priced by is the number of bytes of its UTF-8 form: some bytes are read, by a strict reader, as its code points, and any that are have that number |
| `EngineSafety.CapBound` | src/engine.mjs:118-120 | a task adds at most 154 revisions to those found in its directory: 2 to plan and give up, 3 for each of 8 rounds, and 262144/2048 checkpoints |
| `EngineSafety.StepOk` | src/engine.mjs:45-144 | every event of every engine, the disk or an accident keeps the invariant of the shared directory, and an unfit record is passed to the journal, or a record refused by it, exactly at the named events |
| `EngineGuarantees.EngineRefinesJournal` | src/engine.mjs:45-144 | over every run with any number of engines from any readable directory: it stays an acceptable chain but for a torn last file, grows by at most 154 files, no price overflows, the unfit records are exactly as many as plans with unstorable dates and rounds begun at revision 1023, and the refused ones at most as many as those and the saves that found the directory moved on or torn |
| `EngineGuarantees.WhyRefused` | src/journal.mjs:155-160 | a record is refused only for the dates of its evidence, as the interruption of a round begun at revision 1023, or because files were created after its engine's own last revision |
| `EngineGuarantees.OneEngineNeverConflicts` | src/journal.mjs:158-158 | over every run of one engine, crashes and failed writes included, no save finds the directory moved on or torn, and nothing but unfit records is refused |
| `EngineGuarantees.AtMostOnce` | src/engine.mjs:98-114 | over every run no attempt's stream is opened twice, all opened streams are rounds of the durable task, and there are at most as many as the request allows |
| `EngineGuarantees.OneOpenStream` | src/engine.mjs:85-127 | no two streams are open at once, in whichever engines |
| `EngineGuarantees.OpenedAfterCommit` | src/engine.mjs:107-114 | a stream is opened only after a durable commit and a later durable start of the same attempt, and never before on that attempt |
| `EngineGuarantees.RefusedExactlyForDates` | src/engine.mjs:75-84 | over every run from a directory with fewer than 869 revisions the unfit records are exactly the plans with evidence whose dates cannot be stored, and the refused records exactly those and the saves that found the directory moved on or torn |
| `EngineGuarantees.ExpiredWhenIssued` | src/qualification.mjs:143-158 | evidence issued and expiring at 5 passes normalization, its plan is refused, nothing is written and the engine stops saving |
| `EngineGuarantees.BadDatesExactly` | src/qualification.mjs:143-158 | evidence is kept although it cannot be stored exactly if its name is legal, its dates are exact integers, and it was issued before the epoch or does not expire after that |
| `EngineGuarantees.DurableOnlyGrows` | src/journal.mjs:155-161 | over every run a durable revision is never changed or removed |
| `EngineOutcomes.RoundsEndAsTheyShow` | src/engine.mjs:128-133 | over every run, in every revision added to those found that settles the running round: no progress exactly if its trimmed text is empty or can be read in the earlier texts; otherwise completed exactly if it stopped by itself, and if cut off by its token limit to be continued exactly while a round is left, and partial at the last |
| `EngineOutcomes.SettledAtItsCharge` | src/journal.mjs:82-88 | in every acceptable record a settled round costs the tokens read and written at their own rates, rounded up, and nothing is recorded exactly without rates or with tokens written to a cache |
| `EngineOutcomes.HeldForTheWorst` | src/journal.mjs:55-59 | in every acceptable record an unsettled round holds, exactly if there are rates, twice the bytes of the messages sent for it, 1024 more, and its maximum of answer tokens, at their rates, rounded up |
| `EngineOutcomes.OverflowIsTooDear` | src/engine.mjs:11-11 | a settlement is refused for its price exactly if its charge leaves the exact integers |
| `EngineLimits.JournalIsSound` | src/journal.mjs:116-130 | 1023 revisions ending between two rounds are accepted from first to last |
| `EngineLimits.RefusedAtTheLimit` | src/engine.mjs:105-139 | on that journal a loaded engine begins a round, its commit is stopped, and the record of the interruption is refused |
| `EngineLimits.NeverTooLarge` | src/journal.mjs:157-157 | no record an engine is about to save exceeds 3 MiB, unless its evidence is longer than 99000 code units |
| `EngineRaces.SecondCommitIsRefused` | src/journal.mjs:158-158 | a run of two engines that load the same planned task and both commit: the slower one is refused, while the file of the other is torn and once it is whole, although its record was fit |
| `TaskEngine.BuildMessages` | src/engine.mjs:13-13 | the loop builds the prompt followed by each answer and the request to continue |
| `TaskEngine.Measure` | src/engine.mjs:92-94 | the two reductions give the characters and the priced byte estimate of the turn |
| `TaskEngine.Account` | src/engine.mjs:12-12 | the loop recomputes spent, held and the unknown flag from the rounds |
| `EngineSafety.OthersUntouched` | src/engine.mjs:85-144 | an event of one engine leaves the copies of all other engines as they were |
| `TaskEngine.ComputePrice` | src/engine.mjs:11-11 | the engine's own pricing program and the journal's agree: the price is what is charged, and refused exactly where the exact integers end |
| `TaskEngine.TaskEngine.Save` | src/engine.mjs:45-45 | a save ends with the next revision durable and taken over, or with persistence failed: because the disk fails, because the directory has moved on or is torn, or, for the record of a round that was never committed, because it may not follow |
| `TaskEngine.TaskEngine.FailAttempt` | src/engine.mjs:134-139 | an attempt that cannot go on is durably interrupted, or persistence failed |
| `TaskEngine.TaskEngine.TakeText` | src/engine.mjs:118-121 | text is appended up to the room left, checkpointed every 2048 code units, and the attempt is interrupted exactly at the limit of text or, at a checkpoint, of revisions |
| `TaskEngine.TaskEngine.Settle` | src/engine.mjs:128-133 | the round is settled with that usage and that finish, at its charge, in the status that its text and the finish account for, or interrupted exactly if the charge is not an exact integer |
| `TaskEngine.TaskEngine.Stream` | src/engine.mjs:115-133 | the round is settled exactly if one usage that adds up and one finish that tells an end were heard, no tool call, nothing broke off and the charge is exact; it then shows exactly what was heard, and otherwise as much of it as there was room for |
| `TaskEngine.TaskEngine.Attempt` | src/engine.mjs:105-140 | commit, prepare, start, stream: the history found is only appended to, by events that lead from the world found to the one left; the attempt ends as what was heard accounts for, or interrupted without a stream exactly if the call could not be prepared, an abort came first, or the next revision is beyond 1022 |
| `TaskEngine.TaskEngine.StopCommit` | src/engine.mjs:134-139 | a commit stopped by the revision limit ends with persistence failed, after an interruption was passed to the journal at revision 1023 and without one at 1024 |
| `TaskEngine.TaskEngine.Limit` | src/engine.mjs:91-93 | giving up between rounds is saved as a partial result with everything else as it was, or persistence failed, or nothing happens at revision 1024 |
| `TaskEngine.TaskEngine.OneRound` | src/engine.mjs:94-140 | the reservation is computed without overflow, the attempt gets a name never used before, and the round ends interrupted or settled in the status it accounts for, or persistence failed, which it always does from revision 1023 on |
| `TaskEngine.TaskEngine.Turn` | src/engine.mjs:89-142 | a turn stops exactly when told to, gives up only out of time, rounds, context or room, or adds exactly one round within the requested maximum, and only in time and with room |
| `TaskEngine.TaskEngine.Run` | src/engine.mjs:85-144 | the run loop ends and only appends events that lead from the world found to the one left; it ends with a task that cannot go on, or persistence failed, unless it was told to stop or stands at revision 1024; it gives up only out of time, rounds, context or room; and after another round the task is in the status its last round accounts for, unless given up when it could be continued; told to stop before it began, it changes nothing, and out of time by then it adds no round |
| `TaskEngine.TaskEngine.Load` | src/engine.mjs:46-46 | an engine that loads a task holds the last durable revision |
| `TaskEngine.TaskEngine.Plan` | src/engine.mjs:75-84 | planning leaves the request and its evidence durable as revision 1, without a round, or persistence failed, as it always does for evidence whose dates cannot be stored |
| `Admission.FirstComeFirstServed` | src/agent-dispatch.mjs:65-118 | after any operations: exact slot count at most 2, at most 8 distinct leases in line, nobody waits beside a free slot, deletion excludes leases, activation in reservation order with no ticket lost |
| `Admission.GrantedExactlyWhen` | src/agent-dispatch.mjs:75-104 | a reservation is granted exactly while the gate is open, the name free and a slot, or a place for one that may wait, is left; it is active exactly if a slot was free |
| `Admission.DeletionIsUndone` | src/agent-dispatch.mjs:106-111 | a deletion keeps every reservation and other deletion out, and when it is over the gate is as it was |
| `Admission.OpOk` | src/agent-dispatch.mjs:65-118 | each operation keeps the invariant of the gate |
| `Admission.DrainOk` | src/agent-dispatch.mjs:68-74 | draining restores that no slot is free beside a waiter, skipping waiters whose signal fired |
| `Admission.Gate.DrainLine` | src/agent-dispatch.mjs:68-74 | the loop hands out slots exactly as the recursive definition does |
| `Admission.Gate.TryReserve` | src/agent-dispatch.mjs:75-104 | a reservation is refused for exactly the listed reasons, or becomes a lease, active or in line |
| `Admission.Gate.CancelLease` | src/agent-dispatch.mjs:87-92 | cancelling takes a waiting lease out of the line and does nothing to any other |
| `Admission.Gate.SignalAbort` | src/agent-dispatch.mjs:101-101 | an abort marks the lease and cancels it if it waits |
| `Admission.Gate.ReleaseLease` | src/agent-dispatch.mjs:93-99 | a release frees its own slot once and drains the line |
| `Admission.Gate.ReserveDeletion` | src/agent-dispatch.mjs:106-111 | deletion is granted exactly when the gate is open, no deletion runs and there is no lease |
| `Admission.Gate.Dispose` | src/agent-dispatch.mjs:112-117 | aborting the leases one after the other closes the gate as aborting them all at once would |
| `Admission.CloseAbsorbsAbort` | src/agent-dispatch.mjs:112-117 | the order in which the leases are aborted does not matter |
| `Dispatch.EveryChildIsDisposedOnce` | src/agent-dispatch.mjs:119-134 | over every race the children ever started are exactly those owned by a call, at most two, and those let go; none is disposed twice, and each one let go had its dispose called once and had settled |
| `Dispatch.DisposeDrains` | src/agent-dispatch.mjs:112-117 | when the dispatcher's dispose resolves no call is left and every child ever started was let go with its dispose called once |
| `Dispatch.StoredLinksResolve` | src/agent-dispatch.mjs:142-217 | without forced deletions every name a stored assignment mentions is stored |
| `Dispatch.RemovalKeepsLinksIff` | src/agent-dispatch.mjs:480-495 | a removal keeps all links exactly when nothing else refers to what is removed |
| `Dispatch.ForcedDeletionBreaksLinks` | src/agent-dispatch.mjs:480-495 | a run of two assignments, one naming the other, after which a forced deletion leaves a stored link that resolves no more |
| `Dispatch.OwnersStep` | src/agent-dispatch.mjs:119-134 | every event keeps leases, calls, children and deletions in agreement |
| `Dispatch.AccountStep` | src/agent-dispatch.mjs:119-134 | every event keeps account of the children: started ones are owned or let go, and there are no others |
| `Dispatch.LinksStep` | src/agent-dispatch.mjs:142-217 | every event but a forced deletion keeps both stored links and links about to be stored resolvable |
| `Disposals.LetGoInOrder` | src/agent-dispatch.mjs:119-134 | over every run a child is let go only after its own dispose was called exactly once, that call settled and its result arrived, each as an event since it was started |
| `Disposals.DeletionCanEnd` | src/agent-dispatch.mjs:480-495 | a deletion under way can always end, and ends by opening the gate again |
| `Delegation.Begin` | src/agent-dispatch.mjs:219-255 | a child is started exactly if the signal has not fired by either look, the prompt is not too long, the evidence has not expired by either check, the round is recorded first and the host starts it; the loop ends exactly for a recorded prompt too long, and anything else gives the run up for what was found |
| `Delegation.Take` | src/agent-dispatch.mjs:287-313 | the answer, or what stands for a blank one, becomes the text of its round and is appended to the visible text unless it makes no progress; the state is recorded from one look at the signal, the loop is left or continued on a second one after the disposal, and goes on only read-only and within its rounds; the run is given up exactly for text beyond the limit or a record or disposal that fails |
| `Delegation.NoteChild` | src/agent-dispatch.mjs:255-255 | the started child is saved in the record before its result is waited for, and the run is given up exactly if that save fails |
| `Delegation.Conclude` | src/agent-dispatch.mjs:308-313 | another round follows only a read-only child cut off by its token limit that showed new text, with no signal by the second look; otherwise the state is exactly what the last answer and the two looks account for |
| `Delegation.MoveOnOk` | src/agent-dispatch.mjs:261-285 | after a refusal up front the next standby route takes over with its own evidence and the same round number |
| `Delegation.Answer` | src/agent-dispatch.mjs:256-314 | the answer of a child brings the next standby route exactly if the provider refused up front, nothing was shown, nothing can be written and a standby route is left, and is taken into the record otherwise; the run is given up exactly for an answer that cannot be had, text beyond the limit, or a record or disposal that fails |
| `Delegation.FailsOverExactly` | src/agent-dispatch.mjs:257-286 | in every answered round of any run a standby route takes over exactly if the provider refused, no text was shown, nothing can be written and fewer have taken over before than there are |
| `Delegation.NoStandbyIsLeft` | src/agent-dispatch.mjs:261-286 | a run never ends of itself on such a refusal while a standby route is left |
| `Delegation.EveryStandbyIsTried` | src/agent-dispatch.mjs:261-286 | if every answer is such a refusal, the run has started one child more than it has standby routes |
| `Delegation.RoundsAreTrue` | src/agent-dispatch.mjs:232-238 | every round names the route its child was started on, and shows what the child answered unless that was blank, or nothing if it was handed on |
| `Delegation.GivenUpFor` | src/agent-dispatch.mjs:233-241 | a run is thrown exactly if it was given up for something; expired evidence had expired by then, and text too long was beyond the limit |
| `Delegation.GoesOnOnly` | src/agent-dispatch.mjs:298-313 | a round is followed by another only if it was handed on, or, read-only, cut off by its token limit after text that is new |
| `Delegation.WhyNotFailedOver` | src/agent-dispatch.mjs:17-25 | what stands in the way of a failover: output, an unknown code, another failure, or a write scope, and nothing exactly for a refusal without output that can write nothing |
| `DelegatedCall.Call.Attempt` | src/agent-dispatch.mjs:219-314 | one turn ends the loop, moves to the next round, or uses up a standby route without using up a round, by events of the dispatcher in which it is given as many children as its record shows; if it throws, its child is held, on its way out, or gone exactly as the run says |
| `DelegatedCall.Call.Delegate` | src/agent-dispatch.mjs:150-333 | the loop ends with at most maxRounds plus alternates children, one if it can write, all disposed, visible text that is all round texts but a last idle one, and exactly the state its last answer and the two looks at the signal account for, or as interrupted if something threw; the lease is gone then |
| `DelegatedCall.Call.Enter` | src/agent-dispatch.mjs:157-227 | before any child an assignment is stored that names exactly the subject and the context found; or the call is refused, for a name that is taken or unknown only if it is, and for an abort exactly if the lease was aborted by then |
| `DelegatedCall.Call.TearDown` | src/agent-dispatch.mjs:119-134 | a child is let go only after its result and its disposal have settled |
| `DelegatedCall.Call.Leave` | src/agent-dispatch.mjs:330-333 | the lease is released only once a child still held has settled its result and its disposal |
| `DelegatedCall.Call.Run` | src/agent-dispatch.mjs:150-333 | the whole call only appends events of the dispatcher that lead from the world found to the one left, is given as many children as its record shows, ends as its outcome says, and leaves neither call nor lease |
| `DelegatedCall.OthersStay` | src/agent-dispatch.mjs:150-333 | other calls, children, aborts and deletions never move this call; at most they bring its child further |
| `Delegation.PartialExactly` | src/agent-dispatch.mjs:308-313 | a run that ends of itself is partial exactly if its last answer was cut off by the token limit after text that can be read nowhere in the texts before it, the signal had not fired when that was recorded, and it had fired after the disposal, or the run is read-only with a blank text or at its last round; it needs reconciliation exactly in a write scope with no signal by the second look |
| `Delegation.EndsExactly` | src/agent-dispatch.mjs:230-313 | such a run is completed, without progress or out of context exactly when its last answer, by positions in the texts before it, and the first look at the signal, or a prompt too long, say so |
| `Delegation.LateSignalEndsPartial` | src/agent-dispatch.mjs:308-316 | a signal that fires while the child is disposed leaves a run partial in the first of three rounds, or in a write scope |
| `Delegation.StartsWereAuthorized` | src/agent-dispatch.mjs:235-241 | every child ran on the route then current, under that route's own unexpired evidence or none recorded |
| `Delegation.IndependenceStaysHonest` | src/agent-dispatch.mjs:272-280 | through any failovers, independent is recorded exactly when the current provider differs from the avoided one |
| `Delegation.StartsAreBacked` | src/plugin.mjs:144-155 | from selection through failover every child runs on a route that passed the selection, in its order, backed by the newest record of that route, unexpired when the child was started |
| `Delegation.IndependenceEndToEnd` | src/routes.mjs:259-269 | a run carries a claim of independence exactly if a provider was to be avoided, and the claim is true of the route in use in the end, whatever failed over |
| `Batch.StepOk` | src/batch.mjs:78-155 | every event of the loops, the store and an abort keeps the invariant of the runner |
| `Batch.BatchSafety` | src/batch.mjs:78-163 | over every interleaving: no task is delegated twice, each delegated one is durably marked running, and no row ends queued or running |
| `Batch.DelegatesOnlyAnnounced` | src/batch.mjs:118-130 | a delegate call begins only while persistence works, after a durable revision marks its task as running, and once per task |
| `Batch.Confluence` | src/batch.mjs:103-156 | without abort or failed save every interleaving ends with the table of processing the tasks one by one with the answers they get |
| `BatchAnswers.Hindsight` | src/batch.mjs:111-131 | whatever selector and dispatcher answer when asked, and however that depends on time, the run is one of the runner with those answers fixed beforehand |
| `BatchAnswers.SameAnswersSameTable` | src/batch.mjs:103-156 | two undisturbed runs in which each task got the same answers, however interleaved, end with the same table |
| `BatchAnswers.HeardForGood` | src/batch.mjs:111-131 | what was answered about a task is never asked for again |
| `Batch.AloneMeans` | src/batch.mjs:111-149 | a row ends completed exactly for a completed run with a complete result, names an assignment exactly if one answered, and carries a reason exactly when it gave no result |
| `Batch.AloneExactly` | src/batch.mjs:111-149 | the state, reason, rounds and result that each answer of selector and dispatcher leaves in a row |
| `Batch.CompletedExactlyWhen` | src/batch.mjs:153-156 | the batch is reported completed exactly when nothing was aborted, every save succeeded and every task succeeds, as failed in its persistence exactly if a save failed, and as interrupted exactly for an abort without that |
| `Batch.NeverStuck` | src/batch.mjs:103-156 | until the run is over some step can be taken |
| `Batch.EachEventCounts` | src/batch.mjs:103-156 | every step brings the end closer |
| `Batch.EveryRunEnds` | src/batch.mjs:103-156 | no run takes more than 20 steps a task and four more |
| `Batch.SomeRunIsUndisturbed` | src/batch.mjs:103-156 | every batch has a run without abort or failed save that reaches its end |
| `BatchRows.EveryRowIsExplained` | src/batch.mjs:103-163 | in every batch that is over each row is what its own answers amount to, or stopped because a save had failed or because of an abort, without an assignment, or never started, which takes an abort or a failed save too |
| `BatchLoop.Loop.AwaitCommit` | src/batch.mjs:88-96 | waiting for one's place in the chain of commits ends, with the truth about the save |
| `BatchLoop.Loop.CommitRow` | src/batch.mjs:149-150 | a finished row is committed unless persistence failed, and a failed commit ends the loop |
| `BatchLoop.Loop.TryTask` | src/batch.mjs:107-150 | one task, along every path of its try and catch, is a sequence of events of the runner appended to those before it, and ends at the top of the loop, or after it once persistence has failed |
| `BatchLoop.Loop.Work` | src/batch.mjs:103-153 | whatever happens around it, the worker's loop ends, having only appended events of the runner that lead from the world found to the one left, and for no reason but an exhausted cursor, an abort or failed persistence |
| `BatchLoop.OthersStay` | src/batch.mjs:88-153 | the other loop, the store and an abort never move this loop; at most they tell it how its commit went |
| `RunIds.DecodesWhatWasEncoded` | src/batch.mjs:34-34 | a run name reads back as the batch and the item it was made from |
| `RunIds.NamesAreUnique` | src/batch.mjs:34-34 | no two pairs share a run name |
| `RunIds.NamesFit` | src/batch.mjs:5-6 | names of legal parts meet the dispatcher's rule of 64 characters, exactly reaching it at the limits |
| `RunIds.LegalNames` | src/batch.mjs:5-6 | a name is legal exactly if it is not empty nor too long and consists of letters, digits, underscores and hyphens |
| `RunIds.HyphensAloneAreAmbiguous` | src/batch.mjs:34-34 | without the written length two different pairs would share a name |
| `Selection.Rotate` | src/routes.mjs:287-293 | the loop folds the key into a 32-bit hash and rotates by it |
| `Routes.PoolExactly` | src/routes.mjs:100-135 | a task gets the pool it asks for; otherwise the long-horizon one exactly if the caller escalates, the advanced one exactly for a demanding role, critical risk or two of high risk, complexity and restricted data, never economy; its grounds are what argued for it |
| `Routes.EffortExactly` | src/routes.mjs:85-91 | the effort of every route in every pool |
| `Selection.SelectRoute` | src/routes.mjs:173-283 | the loop over the candidates computes the selection as defined over them |
| `Selection.SelectIgnoresOrder` | src/routes.mjs:191-211 | the answer is the same for any order of the records |
| `Selection.SelectIgnoresOlder` | src/routes.mjs:209-213 | records that a newer one of the same route and effort supersedes change nothing, wherever they are added |
| `Selection.SortPartitions` | src/routes.mjs:180-188 | sorting moves the avoided provider to the back and keeps both orders |
| `Selection.FirstPassingIsChosen` | src/routes.mjs:191-249 | without spreading the first passing route in that order is chosen, and none exactly when none passes |
| `Selection.SpreadPermutes` | src/routes.mjs:249-258 | with any key the chosen route and its alternates are the passing routes, each as often as it passed |
| `Selection.SpreadReaches` | src/routes.mjs:249-293 | spreading chooses exactly the passing routes that keep the choice independent, each by some key |
| `Selection.IndependenceIsHonest` | src/routes.mjs:259-269 | a choice is marked independent exactly when it leaves the avoided provider, which happens exactly when some passing route does |
| `Selection.SelectedIsBacked` | src/routes.mjs:136-160 | the chosen route and every alternate is backed by its own strictly newest record, in force, with every needed case passed, and with a named author and basis wherever it permits more than ordinary evidence |
| `Selection.AcceptedBacks` | src/routes.mjs:136-160 | nothing is said against a record exactly if it is valid, names the route, is in force, shows every needed case passed, permits the data and the domain, and has a named author and basis wherever it permits more than is ordinary |
| `Selection.RefusedForAFault` | src/routes.mjs:136-160 | the reason of a refusal is the first, in the order of the code, of what is true against the record |
| `Qualification.FollowingTheHint` | src/routes.mjs:193-208 | a fully passing probe with the hinted arguments is accepted for a whole day; it is refused beforehand exactly when the task needs video |
| `Qualification.VideoHintIsRefused` | src/routes.mjs:193-208 | a plain task for video: the probe its refusal names is refused whatever statement comes with it |
| `Qualification.HintMakesSelectable` | src/routes.mjs:193-208 | following the hint of a missing qualification makes the same task select |
| `Qualification.HintCapabilities` | src/routes.mjs:196-200 | the hint names exactly the capabilities that need a probe, each once |
| `Qualification.HintIsAboutItsReason` | src/routes.mjs:217-225 | the hint of any other refusal names the probe, the domain or the data class it is about, and nothing else |
| `Qualification.FollowingARefusal` | src/routes.mjs:217-225 | following it, with everything passed, is refused exactly if it is about video or about ordinary data; otherwise the new record is not refused for that reason while it is in force |
| `Qualification.OrdinaryDataHintIsRefused` | src/routes.mjs:224-224 | a record attested for confidential data only and a plain task: the probe that the refusal names is itself refused |
| `Qualification.StatementAccepted` | src/qualification.mjs:161-177 | the hinted attestation is accepted and grants exactly what the task needs |
| `Qualification.CasesOfRecord` | src/qualification.mjs:242-263 | whatever happened in a probe, its record shows a case as passed exactly if that case was asked for and passed, a capability only after transport, answer and tool call |
| `Qualification.AcceptedExactly` | src/qualification.mjs:261-275 | whatever happened in a probe, its record is accepted for a task exactly within a day, if transport, answer and tool call passed, every needed capability was asked for and passed its own probe, and its statement permits the data and the domain |
| `Qualification.FailedCoreGrantsNothing` | src/qualification.mjs:264-275 | a probe with a failed core case is recorded as unavailable, permits ordinary data only and carries no attestation, whatever was stated |
| `Qualification.FailedProbeIsNotSelected` | src/routes.mjs:209-213 | while a probe that failed in what the task needs is a newest record of a route, no selection contains that route |
| `Qualification.StatementExactly` | src/qualification.mjs:161-177 | a statement is accepted exactly if its classes are known and named once each, at least one, and it names an author and a basis wherever it permits more; author and basis are kept trimmed |
| `Qualification.FlagsAreCases` | src/qualification.mjs:261-271 | the flags of a record agree with its cases |
| `Capacity.SameNewestRecord` | src/plugin.mjs:276-280 | the report's own rule for the newest record picks the record the selector judges |
| `Capacity.DispatchableExactly` | src/plugin.mjs:278-280 | a route is reported as dispatchable exactly if its provider is registered and its newest record was available and has not expired |
| `Capacity.ReduceIsFirst` | src/plugin.mjs:279-279 | of several newest records the report looks at the first |
| `Capacity.GoodIsDispatchable` | src/plugin.mjs:276-280 | every route the selector would use is reported as dispatchable if its provider is registered |
| `Capacity.SelectedIsReady` | src/plugin.mjs:275-298 | a selected route or alternate is reported as dispatchable exactly if its provider is registered |
| `Capacity.NothingReadyNothingSelected` | src/plugin.mjs:275-298 | a pool reported with nothing dispatchable selects nothing, unless one of its providers is not registered |
| `Verdicts.CoherentApproval` | src/verdict.mjs:92-108 | an approval without contradictions was declared on the objective with no blocker anywhere, even in findings that are not kept |
| `Verdicts.ParsedExactly` | src/verdict.mjs:79-108 | a verdict is read exactly if standing, objective and summary are usable, and its contradictions are exactly those of the declared fields |
| `Verdicts.DecisionIsWarranted` | src/verdict.mjs:179-198 | every decision has what it takes, said by what was declared, the end of the review and the cycle |
| `Verdicts.OneIsWarranted` | src/verdict.mjs:179-198 | no two decisions have what they take, so that what a decision takes is also enough for it |
| `Verdicts.KeptExactly` | src/verdict.mjs:85-129 | of each declared list the first entries that fit are kept, trimmed and in order, up to its bound, and what is not kept is reported with its number |
| `Verdicts.NothingDropped` | src/verdict.mjs:85-129 | no finding is reported dropped exactly when all declared ones are usable and at most fifty |
| `Verdicts.CompactionIsSmaller` | src/verdict.mjs:165-176 | a compaction is applied exactly if its summary fits and the whole is below four fifths of what it stands for; it keeps the first hundred texts that fit |
| `Iterate.Delegate` | src/agent-dispatch.mjs:142-171 | a delegated run is refused for its context exactly if nothing else refuses it and what is stored there does not stand in for the subject, and a refusal leaves nothing; otherwise it is answered as completed exactly if its child completed it and all was stored, and leaves the last version that could be stored, which names its subject |
| `Iterate.Compact` | src/agent-dispatch.mjs:384-459 | a compaction goes unless it is refused, is applied exactly if it is smaller, was stored and its child was disposed, and leaves a record that names its subject and is an applied compaction of it exactly if it was not stored once more as interrupted |
| `Iterate.Ask` | src/plugin.mjs:200-234 | a call with the loop's own context is refused for it only if somebody else stored something under its name |
| `Iterate.NextReview` | src/plugin.mjs:201-237 | one review and its decision: the loop goes on only to ask for a revision, and otherwise ends for the reason it names |
| `Iterate.NextArtifact` | src/plugin.mjs:238-262 | one revision and its compaction: the loop goes on only with a completed revision, in its applied compaction or none, and otherwise ends for the reason it names |
| `Iterate.Iterate` | src/plugin.mjs:165-265 | at most maxCycles reviews and one less revisions and compactions; each review judges the newest artifact in an applied compaction of it or none, and is followed by the decision that what it declared takes; it ends with an invalid context exactly when one of its calls, that nothing else refuses, finds something else under the name of its context, and then somebody else stored it; each revision still in place names the one before; only completed revisions are gone on with, each compaction is noted as it went, and an end without a decision is for the reason it names |
| `Iterate.RevisesExactlyWhen` | src/verdict.mjs:179-198 | a revision is asked for exactly when a cycle is left, the review was completed, and its declaration is readable, free of contradictions and asks for work |
| `Iterate.StopsExactlyWhen` | src/plugin.mjs:207-220 | the loop stops for each decision exactly when the last review has what that decision takes |
| `Iterate.VerifiedIsBacked` | src/plugin.mjs:207-220 | stopping as verified means a completed review, declared on the objective, with no blocker declared |
| `Iterate.FinalTracesBack` | src/plugin.mjs:200-256 | the final subject is what the last review judged, and the stored links lead from it through every revision back to the origin, unless somebody removed or replaced one |
| `Iterate.StrangerIsRefused` | src/agent-dispatch.mjs:170-171 | a stored run of somebody else under the name of the context gets the call refused unless it is a completed and applied compaction of the very subject |
| `Iterate.UnconvergedAtTheLimit` | src/verdict.mjs:179-198 | the loop gives up exactly at its last permitted review, when that review still asks for work |
| `RecordStore.PerformTidy` | src/qualification.mjs:84-105 | no sequence of saves and removals exceeds 256 directories or 1024 revisions, nor leaves a torn revision but a last one |
| `RecordStore.ListsEveryRecord` | src/qualification.mjs:106-110 | a listing is refused exactly if some record cannot be read, and otherwise shows each record as it would be read |
| `RecordStore.SaveIsCompareAndSwap` | src/qualification.mjs:90-105 | a save succeeds exactly at the expected revision of a readable record with room, at most 2 MiB and a working disk, is read back, and touches no other record |
| `RecordStore.SecondSaveConflicts` | src/qualification.mjs:96-97 | of two writers that read the same revision the second is refused |
| `RecordStore.Namespace.ReadRecord` | src/qualification.mjs:68-83 | a read returns exactly the last save written as a whole and not removed since, refuses if a later one was cut off, and finds nothing otherwise; unless the disk failed a save since, it does not refuse, and what it returns was acknowledged |
| `RecordStore.Namespace.SaveRecord` | src/qualification.mjs:90-105 | a save is acknowledged exactly if it expects the last revision written as a whole, none was cut off since, there is room and the disk works; nothing else changes what later reads return, but a save that the disk failed in its file |
| `RecordStore.Namespace.RemoveRecord` | src/qualification.mjs:114-121 | after a removal the record, torn or not, reads as absent and can be saved at revision 0 again, and no other record is touched |
| `RecordQueue.TwoStepsAreOne` | src/qualification.mjs:68-105 | an operation whose two steps have nothing between them is the atomic operation |
| `RecordQueue.QueueIsSerial` | src/qualification.mjs:55-61 | although idle tails are forgotten, operations settle one by one in submission order as if each ran alone |
| `RecordQueue.SavesAdvance` | src/qualification.mjs:90-121 | over every run, of two saves of a record that both succeed the later one expected a higher revision, unless the record was removed between them: so of all writers expecting one revision at most one succeeds |
| `RecordQueue.OneAtATime` | src/qualification.mjs:55-61 | no two operations of a namespace run beside each other |
| `RecordQueue.ReadsAreWhole` | src/qualification.mjs:51-83 | every read finds the record as the operations before it left it, never a revision half written by another |
| `Crc.MakeTable` | src/probes.mjs:7-15 | the nested loops fill the table with the remainders of all bytes |
| `Crc.ShiftsXor` | src/probes.mjs:7-15 | shifting the register is linear |
| `Crc.FeedIsShift` | src/probes.mjs:16-20 | feeding bits one at a time equals mixing them in at once and shifting |
| `Crc.TableStep` | src/probes.mjs:18-18 | eight shifts depend on the low byte only through the table |
| `Crc.Crc32` | src/probes.mjs:16-20 | the table-driven loop computes the bitwise checksum of the standard for every byte sequence |
| `Crc.WindowDetected` | src/probes.mjs:16-20 | messages that differ only inside four neighbouring bytes have different checksums |
| `Crc.OneByteDetected` | src/probes.mjs:16-20 | messages of one length that differ in one byte have different checksums |
| `Crc.FiveBytesCollide` | src/probes.mjs:11-11 | five bytes are too many: the polynomial itself goes unnoticed anywhere in a message |
| `Png.ChunkReads` | src/probes.mjs:21-26 | a framed chunk reads back as its kind and data, whatever follows |
| `Png.Be32Reads` | src/probes.mjs:22-24 | a 32-bit number written in big-endian order reads back as itself |
| `Png.DamageIsRefused` | src/probes.mjs:21-26 | a chunk changed inside four neighbouring bytes is refused by its checksum |
| `Png.RasterAt` | src/probes.mjs:32-39 | every row starts with filter byte 0 and every pixel holds the colour |
| `Png.FillRow` | src/probes.mjs:34-38 | the inner loop writes one row, each byte once, in order, and nothing above it |
| `Png.FillRaster` | src/probes.mjs:32-39 | the nested loops write every byte of the buffer exactly once and leave the raster |
| `Png.MakeChunk` | src/probes.mjs:21-26 | the chunk is framed with the table-driven checksum |
| `Png.SolidPng` | src/probes.mjs:28-44 | the file is signature, header, compressed raster and end, and whoever can undo the compression of this raster reads back the size and the colour of every pixel |
| `Png.FileReads` | src/probes.mjs:28-44 | under any compression that can be undone, a reader gets back the size and the colour of every pixel |

## Left out

- Verdicts.ParseVerdict: takes the declared object; finding JSON inside prose is not modelled.
- Journal.Accepts: closed schemas, JSON types and the shape of identifiers are not modelled, and a refusal carries no error code.
- EngineGuarantees.EngineRefinesJournal: does not count refusals for the size of a file, because files have no size in the engine system; `EngineLimits.NeverTooLarge` bounds it from what JSON writes for a code unit.
- TaskEngine.TaskEngine.Run: at revision 1024 the code marks the last round of its copy as interrupted before its save is refused; nothing is saved, and the mark is not modelled.
- Journal.RouteOk: the default rates filled in for one model are not modelled; a request carries its final rates.
- Batch.BatchSafety: the runner's last save of the finished table and its rendered view are not modelled.
- BatchLoop.Loop.Work: what the loop writes into its row is part of the event it performs, not a separate assignment.
- Batch.Confluence: fixes each task's selection and answer beforehand; `BatchAnswers` does not, but says nothing about which answers changing evidence leads to.
- Dispatch.StoredLinksResolve: excludes forced deletions, which do break links, as `ForcedDeletionBreaksLinks` shows.
- Delegation.Begin: whether a prompt has become too long is any answer, because the lengths of its parts are not modelled; and the record's own list of failovers is not kept beside its rounds.
- DelegatedCall.Call.Delegate: prompt texts, labels, result formats and the rendering of structured answers are not modelled; a rendered answer is any text.
- DelegatedCall.Call.Run: returns the state of the record, not `PERSISTENCE_FAILED`, which the code reports in its place once a save has failed; and starts from a granted lease: that a waiting one is granted depends on the other calls (`Admission.FirstComeFirstServed`).
- Iterate.Iterate: what others store and remove while a call is under way is taken to happen before or after it.
- RecordStore.Perform: file modes, links and digests are not modelled; an unreadable last revision is one torn cell.
- Png.FileReads: compression is a pair of functions of which one undoes the other.
- Deleting a task (`forget`) while engines hold it, the task-id index and task listings.
- File-system path safety, file modes and fsync: a directory is a sequence of revisions of which the last may be torn.
- Provider adapters, child-agent hosts, timers, attachments and abort plumbing: they are nondeterministic events.
- Diagnostics and their redaction, views, prompts, Markdown rendering and tool registration.
- The probe questions and their answers, the choice of probe colours, and the challenge of the smoke probe.
- Qualification.FollowingARefusal: says that the reason of one refusal does not come back; that following hint after hint ends is not claimed, since each names one cause only.
- Role aliases, intent text, pricing notes and the reserve routes beyond their identity.
- The governance directory, scripts, demo and bundle entry.
