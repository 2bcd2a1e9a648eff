# Showzy assistant: protocols, pools and calendars

A Dafny model of the parts of the Showzy repository whose correctness is decided
by logic rather than by its services: who wins when calls race, what a message
holds after any writes, what the day's budget counters stand for, when a worker
slot answers, and how long a clipped value or a calendar period is.

| files | what they model |
|---|---|
| `Messages.dfy`, `Host.dfy` | the parts of a chat message, and a turn that stores them one at a time and reports them at once |
| `PauseStore.dfy`, `PauseProtocol.dfy`, `PauseTheorems.dfy`, `PauseRaces.dfy`, `PauseReads.dfy`, `PauseAnswers.dfy` | the pause protocol: every operation as a read and one compare-and-set, in any interleaving, how raced operations end, what they had read, and what each is told |
| `MessageLog.dfy`, `MessageAnswers.dfy` | message writes over the log, in any interleaving, and what each is told |
| `BudgetHold.dfy`, `BudgetGuard.dfy`, `BudgetTheorems.dfy`, `BudgetAnswers.dfy` | budget reservation: two capped counters and a hold record, and what admits or denies a turn |
| `Pool.dfy`, `PoolTheorems.dfy`, `PoolDeliveries.dfy`, `PoolEngine.dfy` | the worker pool: as a state machine, when a call reaches a worker and why its caller is told what it is told, and as the handlers that run |
| `WorkerLoop.dfy`, `DeliveryLanes.dfy` | the outbox loop and the lanes of one run |
| `JsonChars.dfy`, `JsonStrings.dfy`, `JsonSize.dfy`, `ClipToolResult.dfy`, `ToolResultClipper.dfy`, `PreviewPrunes.dfy`, `ClipLosses.dfy` | the length of `jsonb` text, the clipping that relies on it, and what a clipped result says is gone |
| `CivilDate.dfy`, `KyivCalendar.dfy`, `KyivClock.dfy` | day numbers, periods, and local time to UTC |
| `ShoContext.dfy`, `ShoContextBuild.dfy`, `ContextCache.dfy`, `HistoryWindow.dfy` | the capped context, its cache and the history window |

Protocols are state machines: an operation in flight is a value in a list, each of
its store steps is one step of the machine, and a run is any sequence of steps, so
every interleaving is covered.  What the store answers, when a timer fires and what
the clock reads are free; the pause protocol's clock never goes back.  Code that
loops or updates fields is a method or a class proved against the functions the
lemmas speak of: the pool's handlers, for one, are proved to do exactly the
machine's steps.

Where the code and its comments part, the model follows the code:

- A claim is checked for expiry when it is decided and not when it lands, so it can
  be accepted after the pause expired (`PauseTheorems.ClaimCanLandExpired`).
- Bytes no build can read block every `open` of a conversation, through the branch
  that `create-kit.ts:334` calls unreachable; an open that runs alone gets there
  exactly then (`PauseRaces.OpenAloneEnds`).  One raced by others gets there over
  readable records too (`PauseRaces.RacedOpenHappens`), but never with fewer than two
  changes of the key by others while it runs (`PauseReads.OpenLosesTwice`).
- An abandon that lost both attempts answers `claimed` without looking at the
  status, over an open pause too (`PauseRaces.GuessHappens`).  In any run the answer is
  right exactly when the record its last read found had one more accepted claim than
  releases, and it is right whenever fewer than two writes of the pause were accepted
  between its start and that read (`PauseReads.AbandonIsRightIff`); alone it tells the
  truth (`PauseRaces.AbandonAloneEnds`).
- Two owners can both insert the first message of a conversation
  (`MessageLog.TwoOwnersCanBothInsert`): a log is kept under one owner in every run
  exactly when it held a message of one owner from the start
  (`MessageLog.OneOwnerIff`).
- An update can land on a message that is no longer the latest
  (`MessageLog.UpdateCanLandBehind`), exactly when an insert was accepted between its
  read and its commit (`MessageLog.UpdateLandsOnTheLastIff`).
- A hold that a retry adopted is still given back when the recorder's own bucket
  refuses it, which leaves an admitted turn that nobody is charged for
  (`BudgetTheorems.AdoptedHoldCanBeGivenBack`); an admitted turn is without a record
  exactly when a drop of it was accepted since (`BudgetTheorems.AdmittedTurnIsUnrecordedIff`),
  which takes a release or such a refusal (`BudgetTheorems.AdmittedTurnStaysRecorded`).
- A release subtracts the amounts it is given and not the recorded ones, so a counter
  can come to hold less than its records; it holds enough all through a run exactly
  when no drop overdrew it (`BudgetTheorems.BooksHoldIff`), and a drop settles exactly
  when the amounts agree (`BudgetTheorems.DropSettlesWhenItAgrees`).
- A worker that was ready and died while another was booting is never respawned
  (`PoolTheorems.LostWhileBootingIsLostForGood`); that and spent respawns are the only
  ways a slot is left without a worker (`PoolTheorems.NoWorkerForAReason`).
- A clipped result can still be too long for the column that stores it: the
  envelope is not measured, an over-long string is never cut, and a typed error is
  not looked at (`ToolResultClipper.EnvelopeCanOutgrowTheColumn`,
  `ToolResultClipper.OverlongTextIsNotCut`, `ToolResultClipper.TypedErrorCanOutgrowTheColumn`);
  `ToolResultClipper.StoredFitsIff` says exactly when, by the call's own guards.
- A field called like a property every object has, `toString` for one, is dropped from a row
  without its path being given (`ClipLosses.RowNamesIff`, `ClipLosses.PrintingNameGoesUnnamed`);
  every other loss is named (`ClipLosses.LossesAreNamed`).
- Date.UTC reads the years 0 to 99 as 1900 to 1999, so adding days composes exactly
  when the date between is of no such year (`KyivCalendar.AddingComposes`), and a named
  period is sound exactly when it means to start in no such year
  (`KyivCalendar.NamedPeriodsAreSound`).  `last_days` can give such a range on, starting
  1900 years late (`KyivCalendar.LastDaysCanStartLate`), exactly when the late start is
  not after today (`KyivCalendar.LastDaysAreThatMany`).
- A spoken range with 29 February is given only when the one year it looks in has that
  day, and never from 1 March (`KyivCalendar.SpokenIsGivenIff`).
- A history window asked for no turns is the whole history
  (`HistoryWindow.AssistantHistoryWindow`).

## Model

| member | source | states |
|---|---|---|
| Messages.AppendParts | packages/assistant-kit/src/messages.ts:219-250 | the in-place edit equals appending part by part, from empty equals the list read as a whole (`Settled`), and keeps one streaming text last and no card twice |
| Messages.AppendedIsSettled | packages/assistant-kit/src/messages.ts:219-250 | appending from empty yields, for any parts: last streaming text at the end, each card once in its first place with its last content, everything else in order |
| Messages.AppendedJoins | packages/assistant-kit/src/messages.ts:219-250 | appending in two goes is appending at once |
| Messages.AppendOneKeepsShape | packages/assistant-kit/src/messages.ts:219-250 | no single part breaks the shape of a message |
| Messages.EndStreamingText | packages/assistant-kit/src/messages.ts:194-208 | nothing changes without a streaming text; with one, only its status does |
| Messages.NotHeld | packages/assistant-kit/src/create-kit.ts:64-79 | the parts kept are exactly those not a text already held |
| Messages.NotHeldJoins | packages/assistant-kit/src/create-kit.ts:75-77 | and they keep their order |
| Messages.BuiltIsSettled | packages/assistant-kit/src/create-kit.ts:555-558 | a message built by any appends and end_texts equals one list of effective parts read as a whole |
| Messages.BuiltShape | packages/assistant-kit/src/messages.ts:197-250 | one streaming text at most and it is last, no card twice, each card under its first revision plus one per later write with its last content, absent exactly when never written |
| Messages.EndTextOnce | packages/assistant-kit/src/messages.ts:194-208 | an end_text that changes a message settles one streaming part, and a second one right after changes nothing |
| Messages.EndTextOncePerText | packages/assistant-kit/src/create-kit.ts:555-558 | over any writes the end_texts that changed the message, with the text still streaming, are no more than the streaming texts written |
| Messages.TextStoredOnce | packages/assistant-kit/src/create-kit.ts:64-79 | a text sent twice is stored once |
| Host.StopAt | packages/assistant-kit/src/host.ts:149-157 | the first event that pauses the turn or breaks it |
| Host.PlaceholderTransparent | packages/assistant-kit/src/host.ts:297-313 | a streaming placeholder stays last through any appends until a text takes its place |
| Host.AppendLands | packages/assistant-kit/src/host.ts:297-313 | no append of a turn finds its own text held, so storing in two goes is storing at once |
| Host.LiveAndReloadAgree | packages/assistant-kit/src/host.ts:487-498 | the stored parts equal the reported fold, plus the placeholder when the turn wrote no text |
| Host.TurnState.Execute | packages/assistant-kit/src/host.ts:147-186 | one tool call: skipped after a pause or failure, else run, its card stored before it returns |
| Host.TurnState.FinishStep | packages/assistant-kit/src/host.ts:364-370 | the history is saved unless the turn paused, and a refusal is held as the failure |
| Host.TurnState.Handle | packages/assistant-kit/src/host.ts:147-186 | each event keeps the state in step with the events so far |
| Host.RunEvents | packages/assistant-kit/src/host.ts:149-184 | the serial chain gives every call the answer its place before or after the stop decides |
| Host.RunLoop | packages/assistant-kit/src/host.ts:266-502 | tool bodies run on exactly the calls up to the first pause or store failure, every call is told what its outcome or the stop makes of it, the turn rejects exactly when a store refused it, and a turn that settles reports its cards, then its text (broken as it broke when interrupted, complete otherwise and only when there is one), then the interaction asked for, and no more, which is what its message holds |
| Host.ReportEndsAs | packages/assistant-kit/src/host.ts:430-498 | whatever the cards, what is reported after them is the text the run ended with, as it ended, and then the interaction asked for |
| Host.CardsOfTheCallsThatRan | packages/assistant-kit/src/host.ts:149-186 | the cards of a turn are those of its calls up to the first stop that were done and made one, all of them and in order |
| Host.CardsCountTheirWrites | packages/assistant-kit/src/host.ts:292-295 | each card written is reported once, with its last content, its revision the number of times it was written |
| PauseStore.MemoryPauseStore.Read | packages/assistant-kit/src/testing.ts:36-38 | the value under a key, or none |
| PauseStore.MemoryPauseStore.SetIfAbsent | packages/assistant-kit/src/testing.ts:39-45 | stores exactly when the key is free |
| PauseStore.MemoryPauseStore.CompareAndSet | packages/assistant-kit/src/testing.ts:46-52 | replaces exactly when the value is the expected one |
| PauseStore.MemoryPauseStore.DeleteIfEquals | packages/assistant-kit/src/testing.ts:53-59 | deletes exactly when the value is the expected one |
| PauseProtocol.ApplyKeeps | packages/assistant-kit/src/create-kit.ts:211-461 | every step of open, claim, revise, abandon, release, turn or eviction keeps the protocol's invariant |
| PauseProtocol.RunKeeps | packages/assistant-kit/src/create-kit.ts:211-461 | so every interleaving does |
| PauseTheorems.ClaimBalance | packages/assistant-kit/src/create-kit.ts:362-461 | accepted claims less accepted releases of one interaction is 0 or 1; it opens and is cancelled at most once |
| PauseTheorems.OneWinnerAtATime | packages/assistant-kit/src/create-kit.ts:394-397 | as many callers were told `claimed` as claims were accepted |
| PauseTheorems.RevisionNeverDecreases | packages/assistant-kit/src/create-kit.ts:423-442 | a stored revision is one plus the accepted revises and never falls along a run |
| PauseTheorems.ClaimsMatchTheStore | packages/assistant-kit/src/create-kit.ts:362-398 | an accepted claim replaced an open record of its owner, id and revision; its kind is registered, takes the answer, and resolves it with that record's secret into the value told |
| PauseTheorems.OpenDisplacesOnlyTheDead | packages/assistant-kit/src/create-kit.ts:317-332 | opening displaced nothing, a record not open or cancelled, or one expired by then |
| PauseTheorems.NothingAfterCancel | packages/assistant-kit/src/create-kit.ts:211-259 | once an interaction is cancelled no write of it is ever accepted |
| PauseTheorems.AbandonDeletesItsOwn | packages/assistant-kit/src/create-kit.ts:250-257 | the final delete removed the cancelled record that abandon itself wrote |
| PauseTheorems.TurnsNeverOverlap | packages/assistant-kit/src/create-kit.ts:463-476 | a turn begins only over no holder, with a token no turn had before, and ends only by its own token |
| PauseTheorems.TurnsMove | packages/assistant-kit/src/create-kit.ts:463-476 | at every point of a run a turn begins exactly when nobody holds the conversation, and its own token, and no other, ends it |
| PauseTheorems.ExpiryIsNotRechecked | packages/assistant-kit/src/create-kit.ts:261-275 | a decided claim is accepted however late it lands |
| PauseTheorems.ClaimCanLandExpired | packages/assistant-kit/src/create-kit.ts:362-398 | a run in which a claim lands after expiry |
| PauseRaces.OpenAloneEnds | packages/assistant-kit/src/create-kit.ts:317-340 | alone, an open opens exactly over a free slot or a record that does not hold it, answers with the holder otherwise, and reaches the last branch exactly over unreadable bytes |
| PauseRaces.RacedOpenFallsThrough | packages/assistant-kit/src/create-kit.ts:317-340 | over any claimed record, a release, a claim and a release between its reads and writes lead an open into that branch, and it answers with the record then open |
| PauseRaces.RacedOpenHappens | packages/assistant-kit/src/create-kit.ts:317-340 | a run from an empty store that does so |
| PauseRaces.AbandonAloneEnds | packages/assistant-kit/src/create-kit.ts:211-259 | alone, an abandon answers `claimed` exactly over a claimed record of its own and cancels exactly over an open one |
| PauseRaces.AbandonGuessesClaimed | packages/assistant-kit/src/create-kit.ts:241-249 | over any open record, two revises between its reads and writes make an abandon answer `claimed` while the record is open |
| PauseRaces.GuessHappens | packages/assistant-kit/src/create-kit.ts:241-249 | a run from an empty store that does so |
| PauseReads.OpenLosesTwice | packages/assistant-kit/src/create-kit.ts:317-340 | in every run an open comes to its last branch only after two reads each followed by a refused write, so over a readable key only after two changes of it by others while the open runs |
| PauseReads.ChangesAreWrites | packages/assistant-kit/src/create-kit.ts:211-442 | while an opened interaction stays in its slot, every change of the slot is an accepted claim, revise, release or cancel of it |
| PauseReads.AbandonIsRightIff | packages/assistant-kit/src/create-kit.ts:211-259 | in every run an abandon that answered `claimed` had found a record of its interaction by its last read; that record was claimed exactly when one more claim than releases had been accepted, and when it was not, both writes had been refused and the pause was written at least twice between the abandon's start and that read |
| PauseAnswers.AnswersAreTold | packages/assistant-kit/src/create-kit.ts:211-461 | every open, claim, revise, release and abandon of every run is told what the record its last read found, the clock at its decision and the key at its write make of it: each refusal exactly on its own ground, the resolved value from the record's secret, and the key changed as told and not otherwise |
| PauseAnswers.CancelsAreHeld | packages/assistant-kit/src/create-kit.ts:230-258 | an abandon that cancelled put its own open record on hold until its expiry or for ten seconds, whichever is sooner, then removed that record, if it was still there, and nothing else |
| PauseAnswers.OpensAreFresh | packages/assistant-kit/src/create-kit.ts:283-315 | the record an open would install was made when it began: its prompt as the kind takes it, revision one, an id of its own, its time counted from then |
| PauseAnswers.SingleAttemptEnds | packages/assistant-kit/src/create-kit.ts:362-461 | a claim, a revise or a release has answered once it read, decided and wrote |
| MessageLog.MemoryMessageLog.LatestPage | packages/assistant-kit/src/testing.ts:88-99 | the last message stored, if any |
| MessageLog.MemoryMessageLog.Insert | packages/assistant-kit/src/testing.ts:100-114 | refused for an id already stored, else appended with the next number at revision 1 |
| MessageLog.MemoryMessageLog.Update | packages/assistant-kit/src/testing.ts:115-141 | refused for an unknown pair or another revision, else replaced one revision up |
| MessageLog.RunKeeps | packages/assistant-kit/src/create-kit.ts:535-598 | every interleaving of message writes keeps the log's invariant |
| MessageLog.WritesLinearize | packages/assistant-kit/src/create-kit.ts:535-598 | a message's parts are its accepted writes applied in the order of acceptance, and its revision counts them |
| MessageLog.WrittenIsOneWrite | packages/assistant-kit/src/create-kit.ts:562-570 | `written` is exactly one accepted write, any other answer none |
| MessageLog.UpdatesSawWhatTheyReplaced | packages/assistant-kit/src/testing.ts:115-141 | an accepted update applied its write to the version it replaced, under that message's owner |
| MessageLog.ConflictIsEarned | packages/assistant-kit/src/create-kit.ts:536-597 | `conflict` only after four other accepted updates of the message since this one began |
| MessageLog.BaseIsTheStart | packages/assistant-kit/src/create-kit.ts:535-536 | that count starts when the write begins |
| MessageLog.LogKeepsItsPlaces | packages/assistant-kit/src/testing.ts:100-141 | nothing stored moves, changes owner or goes away, and revisions rise by one |
| MessageLog.TwoOwnersCanBothInsert | packages/assistant-kit/src/create-kit.ts:537-595 | a run in which two owners insert into one empty log |
| MessageLog.RunKeepsOwner | packages/assistant-kit/src/create-kit.ts:537-595 | a log that starts non-empty under one owner stays under that owner in every run |
| MessageLog.OneOwnerIff | packages/assistant-kit/src/create-kit.ts:537-595 | every run leaves one owner exactly when the log starts non-empty and under one owner |
| MessageLog.UpdateLandsOnTheLastIff | packages/assistant-kit/src/create-kit.ts:562-570 | the step that accepts an update finds its message last in the log exactly when no insert was accepted since the update's read |
| MessageLog.UpdateCanLandBehind | packages/assistant-kit/src/create-kit.ts:562-570 | from any log whose last message the write changes, a run in which the update lands behind a newer message |
| MessageAnswers.AnswersAreTold | packages/assistant-kit/src/create-kit.ts:535-598 | every write of every run is told, by the log at its last read and the log it committed to: `wrong_owner` by the last message's owner, an error over its own unreadable message, `unchanged` when it changes nothing or ends the text of a message not there, `conflict` by a change at its fourth attempt, refused for an id used meanwhile, else `written`, and the log holds it |
| MessageAnswers.MissingIsRefused | packages/assistant-kit/src/create-kit.ts:562-570 | an update of a message the log does not hold is refused and changes nothing |
| MessageAnswers.LoneWriteEnds | packages/assistant-kit/src/create-kit.ts:535-598 | a write that runs alone has answered after one read and one commit, and never `conflict` |
| BudgetHold.HoldRoundTrip | packages/assistant-runtime/src/assistant-budget-guard.ts:590-619 | decoding an encoded hold gives the hold back |
| BudgetHold.OneColonOnly | packages/assistant-runtime/src/assistant-budget-guard.ts:596-619 | a text without exactly one colon decodes to nothing |
| BudgetHold.HoldTextsDiffer | packages/assistant-runtime/src/assistant-budget-guard.ts:590-594 | two holds have one text exactly when they are one hold |
| BudgetGuard.ApplyKeeps | packages/assistant-runtime/src/assistant-budget-guard.ts:297-581 | every store step of every reserve or release keeps the books |
| BudgetGuard.RunKeeps | packages/assistant-runtime/src/assistant-budget-guard.ts:297-581 | so every interleaving does |
| BudgetTheorems.BooksBalance | packages/assistant-runtime/src/assistant-budget-guard.ts:297-570 | a counter is within its cap in every run; one that was never overdrawn holds exactly its recorded holds, the amounts in flight and the leaks, and so the first two at least |
| BudgetTheorems.BooksBalanceAsWired | packages/assistant-runtime/src/assistant-budget-guard.ts:590-619 | the same with the guard's own hold texts, whatever the caps |
| BudgetTheorems.BooksHoldIff | packages/assistant-runtime/src/assistant-budget-guard.ts:500-570 | a counter covers its records and the operations at every point of a run exactly when no drop in the run overdrew it |
| BudgetTheorems.CounterStandsAlone | packages/assistant-runtime/src/assistant-budget-guard.ts:500-570 | it does whenever the releases that touch this counter pass no more than was recorded on it, whatever happens on others |
| BudgetTheorems.RegularRunsBalance | packages/assistant-runtime/src/assistant-budget-guard.ts:297-570 | where each turn has one amount, releases pass it on and no foreign record appears, every counter covers, and balances exactly if no subtraction fails |
| BudgetTheorems.OneHoldPerTurn | packages/assistant-runtime/src/assistant-budget-guard.ts:364-395 | records written less records dropped of a turn is 0 or 1, and 1 exactly when one is stored |
| BudgetTheorems.SubtractedOncePerRecord | packages/assistant-runtime/src/assistant-budget-guard.ts:500-542 | what was subtracted from a counter for a turn is at most what each drop of one of its records passed, once |
| BudgetTheorems.NoCounterIsFloored | packages/assistant-runtime/src/assistant-budget-guard.ts:551-581 | what an operation is about to give back is in a counter that was never overdrawn |
| BudgetTheorems.DenialsAreClassified | packages/assistant-runtime/src/assistant-budget-guard.ts:186-203 | in every run a request denied for a budget had that counter answer and be full, for its turns the bucket answer no, for a store that store not answer |
| BudgetAnswers.AdmissionsAreEarned | packages/assistant-runtime/src/assistant-budget-guard.ts:205-421 | in every run an admitted turn had room in each capped counter when it was asked, goes on with the hold it recorded or the readable one it found, and, unless it skips the bucket, the bucket answered yes |
| BudgetAnswers.DeniedIff | packages/assistant-runtime/src/assistant-budget-guard.ts:186-293 | a request that ended was denied for a reason exactly when one of its own calls showed that reason, and is admitted whenever the bucket answered it yes |
| BudgetAnswers.ReleaseFailsIff | packages/assistant-runtime/src/assistant-budget-guard.ts:500-581 | a release that ended failed exactly when one of its calls was not answered |
| BudgetAnswers.CallsEnd | packages/assistant-runtime/src/assistant-budget-guard.ts:205-581 | each call, however answered, brings its operation nearer to its outcome, which is for good |
| BudgetTheorems.DropSettlesWhenItAgrees | packages/assistant-runtime/src/assistant-budget-guard.ts:500-542 | a drop leaves a counter balanced exactly when its amount is the recorded one |
| BudgetTheorems.AdmittedTurnIsUnrecordedIff | packages/assistant-runtime/src/assistant-budget-guard.ts:250-293 | an admitted turn had its record when its claim was answered, and has none exactly when a drop of it was accepted since with no record after it |
| BudgetTheorems.AdmittedTurnStaysRecorded | packages/assistant-runtime/src/assistant-budget-guard.ts:250-293 | while the turn is never released and its recorder never refused by the bucket, an admitted turn keeps its record |
| BudgetTheorems.AdoptedHoldCanBeGivenBack | packages/assistant-runtime/src/assistant-budget-guard.ts:250-293 | for any amount that fits the cap twice, a run that admits a turn on a hold its recorder then gives back |
| Pool.StepConserves | apps/sho/src/pool.ts:129-245 | no step loses a call, tells it twice or tells another id |
| Pool.StepKeepsSlot | apps/sho/src/pool.ts:139-245 | every step keeps every slot sound |
| Pool.StepTraces | apps/sho/src/pool.ts:139-223 | every step keeps the order of commands, replies and losses |
| Pool.StepKeeps | apps/sho/src/pool.ts:109-335 | every step keeps the whole pool invariant |
| Pool.RunKeeps | apps/sho/src/pool.ts:109-335 | so every run from boot does |
| PoolTheorems.EachCallInOnePlace | apps/sho/src/pool.ts:129-189 | each accepted call was told exactly once or waits in exactly one slot's queue or as its running call |
| PoolTheorems.SlotsAreSound | apps/sho/src/pool.ts:139-259 | a slot not ready holds nothing, a ready idle one queues nothing, the load is within the limit, every waiting call has its deadline armed, respawns are within their limit |
| PoolTheorems.CommandsAndReplies | apps/sho/src/pool.ts:139-223 | command ids of a slot rise, one is outstanding per worker, each reply answers a posted command once, each worker is lost once |
| PoolTheorems.OnlyTheCurrentWorkerAnswers | apps/sho/src/pool.ts:195-212 | in every run an answer told to a caller came from a worker that had been given that command and was taken once; a lost worker is in no slot, and nothing it sends later changes anything or tells anyone |
| PoolTheorems.RepliesReachTheirCallers | apps/sho/src/pool.ts:195-250 | a reply taken from a worker told its caller, unless the deadline had told it first |
| PoolTheorems.DisposeTellsEveryone | apps/sho/src/pool.ts:324-333 | after dispose went over every slot each call ever accepted was told once |
| PoolTheorems.NoWorkerForAReason | apps/sho/src/pool.ts:177-189 | a slot of a running pool has no worker and none on its way exactly when it lost more workers in a row than the limit, counted over the events of the run, or some step took its worker before the pool had booted |
| PoolTheorems.LostAtBootIff | apps/sho/src/pool.ts:177-189 | a slot is marked lost at boot exactly when some step of the run took its worker while the pool was booting |
| PoolTheorems.DeadForGood | apps/sho/src/pool.ts:177-189 | no event brings a dead slot back |
| PoolTheorems.LostWhileBootingIsLostForGood | apps/sho/src/pool.ts:177-189 | a pool that boots with a slot dead for good |
| PoolTheorems.FailuresAreLosses | apps/sho/src/pool.ts:177-203 | the failures of a slot are the workers it lost since one was last ready, counted over the events of the run |
| PoolTheorems.BootsWhole | apps/sho/src/pool.ts:280-288 | a pool that has booted had every worker ready once |
| PoolDeliveries.SendDelivers | apps/sho/src/pool.ts:225-259 | an accepted call is posted at once on an idle slot, with nobody told anything, waits last on a busy one until now plus its budget, and is told its deadline at once only with no budget |
| PoolDeliveries.FirstLiveIsPosted | apps/sho/src/pool.ts:139-165 | a free worker is given the first call of the queue with time left, those before it being told their deadline, in order |
| PoolDeliveries.CallsWereSent | apps/sho/src/pool.ts:237-257 | in every run a call in a slot was sent, and its last moment is that of its send plus its budget |
| PoolDeliveries.DeadlinesAreKept | apps/sho/src/pool.ts:139-165 | in every run a command is posted only before the last moment its call was sent with, and a caller is told its deadline on the way to a worker only from that moment on |
| PoolDeliveries.DeadlineTells | apps/sho/src/pool.ts:243-255 | a deadline that fires tells its caller so; the call leaves the queue, or runs on with nobody to tell |
| PoolDeliveries.LossTells | apps/sho/src/pool.ts:167-189 | a lost worker's running caller is told its deadline when it hung and busy when it crashed, every queued one busy in order; the slot holds nothing and a respawn is armed exactly while the pool serves and the losses allow one |
| PoolDeliveries.DisposalTells | apps/sho/src/pool.ts:324-333 | disposing of a slot tells everyone in it busy and leaves neither a worker nor a respawn |
| PoolDeliveries.RespawnSpawns | apps/sho/src/pool.ts:185-194 | a respawn that fires gives the slot a worker of its own, not yet ready, unless the pool has stopped |
| PoolDeliveries.ReplyIsTaken | apps/sho/src/pool.ts:204-212 | the current worker's reply to the command it runs is taken, and told to a caller that still waits |
| PoolDeliveries.ReadyServes | apps/sho/src/pool.ts:195-203 | a worker that says it is ready makes its slot take calls, with no failure held against it |
| PoolDeliveries.StaleChangesNothing | apps/sho/src/pool.ts:195-222 | a ready, a reply or an exit of a worker the slot no longer has, and a reply to a command that is not running, change nothing |
| PoolDeliveries.PoolMoves | apps/sho/src/pool.ts:280-333 | the pool boots exactly once every worker was ready, fails to when one was lost before, and stops when it is told to |
| PoolEngine.ShoPool.constructor | apps/sho/src/pool.ts:261-285 | every slot spawned and none ready |
| PoolEngine.ShoPool.SettleCall | apps/sho/src/pool.ts:129-137 | a caller is told unless it was told |
| PoolEngine.ShoPool.SkipOverdue | apps/sho/src/pool.ts:142-149 | overdue calls at the head are told, and pumping what is left is pumping the whole |
| PoolEngine.ShoPool.RunNext | apps/sho/src/pool.ts:142-164 | then the first live call runs and is posted |
| PoolEngine.ShoPool.Pump | apps/sho/src/pool.ts:139-165 | pump does the machine's pumping of the slot |
| PoolEngine.ShoPool.Drain | apps/sho/src/pool.ts:167-175 | every waiting call is told and the slot emptied |
| PoolEngine.ShoPool.Lose | apps/sho/src/pool.ts:177-189 | losing a worker is the machine's step |
| PoolEngine.ShoPool.Send | apps/sho/src/pool.ts:225-259 | a send is the machine's step, and is refused exactly when the slot is not ready, full, or the pool stopped |
| PoolEngine.ShoPool.OnMessageReady | apps/sho/src/pool.ts:195-203 | a ready message is the machine's step |
| PoolEngine.ShoPool.OnMessageAnswer | apps/sho/src/pool.ts:204-212 | an answer is the machine's step |
| PoolEngine.ShoPool.OnDeadline | apps/sho/src/pool.ts:243-250 | a deadline is the machine's step |
| PoolEngine.ShoPool.OnRespawn | apps/sho/src/pool.ts:185-188 | a respawn is the machine's step |
| PoolEngine.ShoPool.DisposeSlot | apps/sho/src/pool.ts:326-332 | one turn of dispose is the machine's step |
| PoolEngine.ShoPool.DisposeAll | apps/sho/src/pool.ts:324-333 | dispose empties every slot and tells every waiting call, slot after slot |
| PoolEngine.ShoSlotOf | apps/sho/src/pool.ts:60-68 | the slot is in range and is the hash of the part before the first colon |
| PoolEngine.HashLoop | apps/sho/src/pool.ts:63-66 | the loop folds the hash step over the code units |
| PoolEngine.HashIsFnv | apps/sho/src/pool.ts:60-68 | the hash is FNV-1a, by its published values for no text and for the letter a |
| PoolEngine.CompanyStaysTogether | apps/sho/src/pool.ts:60-68 | contexts of one company go to one slot |
| WorkerLoop.ApplyKeeps | apps/worker/src/loop.ts:83-243 | every step of the loop keeps its invariant |
| WorkerLoop.RunKeeps | apps/worker/src/loop.ts:83-243 | so every run does |
| WorkerLoop.RunsNeverOverlap | apps/worker/src/loop.ts:83-90 | between any two run starts a run ended or failed |
| WorkerLoop.WakeDuringARunIsFollowed | apps/worker/src/loop.ts:184-243 | a wake during a run that ends well, not stopping, is followed by a run that starts after it |
| WorkerLoop.NoWakeIsLost | apps/worker/src/loop.ts:184-243 | when the chain is empty every wake taken up was followed by a run or a failure |
| WorkerLoop.BackoffsDouble | apps/worker/src/loop.ts:206-229 | a failure with none before it, or all made good by a run that ended well, waits one poll interval; each further one twice as long as the one before; none longer than half a minute |
| WorkerLoop.TicksAreHeld | apps/worker/src/loop.ts:184-229 | in every run a tick queues work exactly outside stopping, a run, and the wait of the last failure, which a good run lifts |
| WorkerLoop.WaitingWorkRuns | apps/worker/src/loop.ts:83-90 | the first work that waits starts a run as soon as nothing runs, or ends when the loop is stopping |
| WorkerLoop.TickDuringARunIsFollowed | apps/worker/src/loop.ts:193-231 | a tick that comes during a run, and is not held back, is followed by a run that starts after it when that run ends well |
| WorkerLoop.NothingStartsAfterStop | apps/worker/src/loop.ts:200-205 | once the loop was told to stop no run starts, whatever comes |
| WorkerLoop.Loop.TickAt | apps/worker/src/loop.ts:184-197 | a tick queues work exactly when the loop is not stopping, backing off or ticking |
| WorkerLoop.Loop.Request | apps/worker/src/loop.ts:240-243 | a wake is the machine's step |
| WorkerLoop.Loop.Head | apps/worker/src/loop.ts:200-205 | the head of the inner loop takes up the wakes so far |
| WorkerLoop.Loop.Succeed | apps/worker/src/loop.ts:206-209 | a good run clears the backoff and goes on exactly when a wake came |
| WorkerLoop.Loop.Throw | apps/worker/src/loop.ts:210-229 | a failed run backs off and ends the work |
| DeliveryLanes.RunKeeps | apps/worker/src/loop.ts:130-162 | every interleaving of the lanes keeps the cursor, the lanes and the counters in step |
| DeliveryLanes.EachAtMostOnce | apps/worker/src/loop.ts:147-162 | no due delivery is executed twice, and no more at once than the concurrency asked for, which is one at least, or than are due; there are as many lanes as the smaller of the two |
| DeliveryLanes.AllAreCounted | apps/worker/src/loop.ts:92-162 | when the lanes ended the four counters sum to the deliveries executed, which are all the due ones unless stopping; each counter is how often its outcome came, a throw counting as a failure |
| DeliveryLanes.NothingBeginsAfterStop | apps/worker/src/loop.ts:147-162 | once the loop was told to stop nothing more is executed, and a lane that asks for more ends |
| DeliveryLanes.RunOnce.TakeNext | apps/worker/src/loop.ts:148-157 | a lane takes the next index, or ends |
| DeliveryLanes.RunOnce.Count | apps/worker/src/loop.ts:396-419 | one counter moves for each outcome |
| JsonChars.CountStructuralJsonSeparators | packages/ai/src/json-chars.ts:33-56 | the flag-driven loop is the scan of the text |
| JsonChars.PostgresJsonbTextChars | packages/ai/src/json-chars.ts:20-31 | the length is that of the printer that puts a space after each separator; infinity exactly when nothing can be printed |
| JsonChars.ScanQuoted | packages/ai/src/json-chars.ts:37-46 | a printed string, whatever it holds, adds nothing to the count |
| JsonChars.ScanPrint | packages/ai/src/json-chars.ts:33-56 | scanning the compact print of any value counts exactly the separators of its tree |
| JsonChars.SpacesAreSeparators | packages/ai/src/json-chars.ts:11-19 | the spaced print is longer by one per separator |
| JsonStrings.BodyReads | packages/ai/src/json-chars.ts:20-31 | a string's printed body reads back, by section 7 of RFC 8259, as the string |
| JsonStrings.UnitTakes | packages/ai/src/json-chars.ts:20-31 | a unit prints as two when it has a short escape, as six when it is another control or half of no pair, and as itself otherwise |
| JsonStrings.QuotedTellsApart | packages/ai/src/json-chars.ts:20-31 | two strings print alike exactly when they are one string |
| ClipToolResult.ArrayKeepsAPrefix | packages/ai/src/clip-tool-result.ts:146-160 | a clipped array is the first 50 entries, each clipped |
| ClipToolResult.ObjectKeepsItsFields | packages/ai/src/clip-tool-result.ts:162-170 | a clipped object has every field in its place |
| ClipToolResult.ClippedIsWithinCap | packages/ai/src/clip-tool-result.ts:141-173 | after the first stage every array is within the cap |
| ClipToolResult.ClippedKeepsWhatFits | packages/ai/src/clip-tool-result.ts:141-173 | it changes nothing where nothing is over the cap |
| ClipToolResult.NothingOmittedIff | packages/ai/src/clip-tool-result.ts:141-173 | nothing is omitted exactly when every array is within the cap |
| ClipToolResult.NothingCutIff | packages/ai/src/clip-tool-result.ts:141-173 | and no path is cut exactly then |
| ClipToolResult.StagesNeverLengthen | packages/ai/src/clip-tool-result.ts:111-252 | none of the three stages lengthens the text, hides a set value or breaks its printing |
| ClipToolResult.ShrunkKeepsThreeRows | packages/ai/src/clip-tool-result.ts:210-217 | the second stage keeps the first three rows of an array |
| ClipToolResult.IdentityHas | packages/ai/src/clip-tool-result.ts:95-105 | what is picked is exactly the identity fields the record has, with their values |
| PreviewPrunes.PreviewPrunesTheOutput | packages/ai/src/clip-tool-result.ts:254-285 | at whatever stage clipping stops, the preview is the output with parts left out: arrays are prefixes with their first three entries at least, records have only fields they had and every identity field, nested anywhere, and all else is unchanged |
| PreviewPrunes.IdentitySurvivesAnywhere | packages/ai/src/clip-tool-result.ts:254-285 | a record reached in the preview by any path is reached in the output by the same path, with the same identity fields, those that are no list or record unchanged |
| PreviewPrunes.PrunesOfPruned | packages/ai/src/clip-tool-result.ts:262-274 | one stage over another leaves out parts and nothing more |
| ClipToolResult.IdentitySurvives | packages/ai/src/clip-tool-result.ts:111-252 | the identity fields of one record are unchanged by either later stage |
| ClipLosses.SecondStageKeeps | packages/ai/src/clip-tool-result.ts:175-252 | the second stage keeps of a record exactly its identity fields, as they are, and every other field but text: of a list its first three rows, of a record its row, which is its identity fields when it has any |
| ClipLosses.ThirdStageKeeps | packages/ai/src/clip-tool-result.ts:111-139 | the third stage keeps of a record exactly its identity fields, as they are, and the lists that hold a record, compacted in turn |
| ClipLosses.ListsKeepThree | packages/ai/src/clip-tool-result.ts:116-217 | both keep the first three entries of a list, one as rows and the other compacted |
| ClipLosses.LossesAreNamed | packages/ai/src/clip-tool-result.ts:254-285 | anywhere in a preview a list whose path was not cut is whole, a field whose path was not cut is there if it was (unless it is called like a property every object has), and what is no list or record is as it was |
| ClipLosses.CutsAreLosses | packages/ai/src/clip-tool-result.ts:254-285 | and every path given is of something that is gone from the preview, or of a list that is shorter there |
| ClipLosses.RowNamesIff | packages/ai/src/clip-tool-result.ts:175-189 | a field dropped from a row goes by its path exactly when it is not called like a property every object has |
| ClipLosses.PrintingNameGoesUnnamed | packages/ai/src/clip-tool-result.ts:183-187 | over a long enough text under `toString` the preview drops it and no path says so |
| ClipLosses.PathsArePointed | packages/ai/src/clip-tool-result.ts:107-109 | a path is the names of the fields on the way, with points between |
| ClipLosses.OmittedIsTheLoss | packages/ai/src/clip-tool-result.ts:141-173 | what is counted as omitted is exactly what the lists that are kept lose |
| ClipLosses.WholeOrCounted | packages/ai/src/clip-tool-result.ts:254-285 | a result comes back as it is exactly when it says why a call failed, or prints within 22000 units and loses no entry; an envelope counts the entries lost, and one when none was |
| ToolResultClipper.Clipper.ClipUnknown | packages/ai/src/clip-tool-result.ts:141-173 | the loops build the clipped value, count what they omit and add the cut paths |
| ToolResultClipper.Clipper.ShrinkRow | packages/ai/src/clip-tool-result.ts:175-189 | a row becomes its identity fields when it has any |
| ToolResultClipper.Clipper.ShrinkRows | packages/ai/src/clip-tool-result.ts:210-217 | the rows of an array, three at most |
| ToolResultClipper.Clipper.ShrinkPreview | packages/ai/src/clip-tool-result.ts:205-252 | the second stage |
| ToolResultClipper.Clipper.CompactIdentity | packages/ai/src/clip-tool-result.ts:111-139 | the third stage, down every array of records |
| ToolResultClipper.Clipper.CompactRows | packages/ai/src/clip-tool-result.ts:116-123 | its arrays |
| ToolResultClipper.Clipper.CompactRecord | packages/ai/src/clip-tool-result.ts:127-138 | its records |
| ToolResultClipper.Measure | packages/ai/src/clip-tool-result.ts:90-93 | over budget when the value cannot be printed |
| ToolResultClipper.ClipStaffAssistantToolResult | packages/ai/src/clip-tool-result.ts:254-285 | the output comes back as it is exactly when it is a typed error or is within the cap and fits; otherwise the envelope says at least one thing is gone |
| ToolResultClipper.PreviewIsNoLonger | packages/ai/src/clip-tool-result.ts:254-285 | the preview is never longer than the output |
| ToolResultClipper.DroppedNothingIff | packages/ai/src/clip-tool-result.ts:262-278 | nothing is dropped exactly when the output is within the cap and fits |
| ToolResultClipper.OverlongTextIsNotCut | packages/ai/src/clip-tool-result.ts:254-285 | an over-long string is returned whole with no cut named |
| ToolResultClipper.StoredLength | packages/ai/src/clip-tool-result.ts:279-284 | what the envelope adds to its preview |
| ToolResultClipper.StoredFitsIff | packages/ai/src/clip-tool-result.ts:21-33 | what the call returns fits the column exactly when, for a typed error, it fits unmeasured; always when it is within the cap and fits; and else when the first stage that passes the budget also leaves room for the envelope |
| ToolResultClipper.SmallOutputIsStored | packages/ai/src/clip-tool-result.ts:21-33 | an output that leaves room for the envelope before the call is stored, whatever is cut |
| ToolResultClipper.TypedErrorCanOutgrowTheColumn | packages/ai/src/clip-tool-result.ts:255-259 | typed errors with a long message come back whole and do not fit |
| ToolResultClipper.EnvelopeCanOutgrowTheColumn | packages/ai/src/clip-tool-result.ts:21-33 | pages whose preview passes the budget and whose envelope does not |
| CivilDate.NextYear | packages/ai/src/kyiv-calendar.ts:104-112 | the closed formula for 1 January moves by the length of the year |
| CivilDate.DayNumbersAreDates | packages/ai/src/kyiv-calendar.ts:104-112 | day number and real date are inverse, over all days |
| CivilDate.DatesInOrder | packages/ai/src/kyiv-calendar.ts:240-241 | day numbers order real dates as year, month and day do |
| KyivCalendar.IsRealDateIff | packages/ai/src/kyiv-calendar.ts:229-238 | the check accepts exactly the calendar's dates within reach, of no year from 0 to 99 (`Literal`, which the other lemmas ask for) |
| KyivCalendar.AddingMoves | packages/ai/src/kyiv-calendar.ts:104-112 | adding days moves along the days, to no date beyond reach |
| KyivCalendar.AddingComposes | packages/ai/src/kyiv-calendar.ts:104-112 | adding twice is adding the sum exactly when the date between is of no short year |
| KyivCalendar.MondayIsTheMonday | packages/ai/src/kyiv-calendar.ts:114-120 | the one Monday among the day and the six before it |
| KyivCalendar.LastDayEndsTheMonth | packages/ai/src/kyiv-calendar.ts:122-129 | the last day of the date's own month |
| KyivCalendar.NamedPeriodsAreSound | packages/ai/src/kyiv-calendar.ts:184-219 | from any day, a named period is real, in order, not after today exactly when the day it means to start on is one Date.UTC reads as written; it is then given on, starts that day and ends on the day it means to |
| KyivCalendar.Weeks | packages/ai/src/kyiv-calendar.ts:193-197 | this week starts on Monday, last week is the seven days before it |
| KyivCalendar.Months | packages/ai/src/kyiv-calendar.ts:198-202 | this month starts on its first, last month is the whole of the month before |
| KyivCalendar.Quarters | packages/ai/src/kyiv-calendar.ts:203-213 | this quarter starts in January, April, July or October, last quarter is the three months before it |
| KyivCalendar.Years | packages/ai/src/kyiv-calendar.ts:214-218 | last year ends the day before this year and is a whole year long |
| KyivCalendar.LastDaysAreThatMany | packages/ai/src/kyiv-calendar.ts:278-285 | none for n of 0 or beyond reach; else n days up to today, sound exactly when the first is of no year from 0 to 99; otherwise read 1900 years late, and given on just when that is not after today |
| KyivCalendar.LastDaysCanStartLate | packages/ai/src/kyiv-calendar.ts:278-310 | in 2026 a range that starts in the year 50 is given on from 1950 |
| KyivCalendar.SpokenIsNearest | packages/ai/src/kyiv-calendar.ts:243-262 | a spoken range starts on the latest such day not after today and ends on the first such day from there |
| KyivCalendar.SpokenIsGivenIff | packages/ai/src/kyiv-calendar.ts:243-262 | it is given exactly when both ends are days of the years they fall in: every day of every year, and 29 February in a leap year but not from 1 March |
| KyivCalendar.DatedIsInOrder | packages/ai/src/kyiv-calendar.ts:264-311 | a dated range is given on exactly when both dates are real and in order |
| KyivCalendar.UnreadTodayGivesNothing | packages/ai/src/kyiv-calendar.ts:295-311 | a today that Date.UTC does not read as written gives no range, whatever is asked for |
| KyivClock.FoundIffItExists | packages/ai/src/kyiv-calendar.ts:66-94 | the instant found shows the wanted local time exactly when any instant does, for any two-valued offset |
| KyivClock.GapIsOffByTheJump | packages/ai/src/kyiv-calendar.ts:66-94 | in a gap it is off by the jump |
| KyivClock.RangeIsInOrder | packages/ai/src/kyiv-calendar.ts:96-102 | days in order give instants in order |
| KyivClock.RangeIsWholeDays | packages/ai/src/kyiv-calendar.ts:96-102 | the range runs from the first local millisecond of its first day to the last of its last |
| KyivClock.WaitReachesTomorrow | packages/ai/src/kyiv-calendar.ts:323-331 | at least one second; waiting it ends within the first second of the local day after the one `now` is in |
| ShoContext.ClipList | packages/assistant-runtime/src/sho-context.ts:115-132 | the loop keeps the first records up to the cap, partial exactly when one is missing |
| ShoContext.RecordsAreFirsts | packages/assistant-runtime/src/sho-context.ts:98-113 | records are the usable entries in source order, the first of each id |
| ShoContext.ClippedListIs | packages/assistant-runtime/src/sho-context.ts:115-132 | the first wanted entries in source order up to the cap, each by its id (not empty, 64 at most) and the first 120 of its trimmed name; nothing wanted before the last of them is left out; partial exactly when truncated or short |
| ShoContext.ClipProducts | packages/assistant-runtime/src/sho-context.ts:134-175 | the loop places variants as the shelf function does |
| ShoContext.ShelfHolds | packages/assistant-runtime/src/sho-context.ts:139-167 | buckets are those of the kept products, within their caps, ids distinct |
| ShoContext.BucketIsFrom | packages/assistant-runtime/src/sho-context.ts:150-167 | a product's variants are usable variants of that product, in source order |
| ShoContext.ClippedProductsAre | packages/assistant-runtime/src/sho-context.ts:134-175 | the first products of the source, caps on them, on variants per product and variants in all, variants in source order, and partial exactly when anything is missing |
| ShoContextBuild.Compose | packages/assistant-runtime/src/sho-context.ts:177-222 | the context under given caps |
| ShoContextBuild.CapsOnlyShrink | packages/assistant-runtime/src/sho-context.ts:234-244 | no halving widens a cap |
| ShoContextBuild.HalvingSheds | packages/assistant-runtime/src/sho-context.ts:234-248 | halving lowers the sum of the caps while any is left |
| ShoContextBuild.CapsAreHalves | packages/assistant-runtime/src/sho-context.ts:234-244 | after so many halvings each cap is its full value divided by that power of two, rounded down |
| ShoContextBuild.BuildShoContext | packages/assistant-runtime/src/sho-context.ts:257-272 | the caps are the first of the halvings under which the upload is within 8 mebibytes, or all zero |
| ShoContextBuild.EveryContextIsSound | packages/assistant-runtime/src/sho-context.ts:177-222 | a list is there exactly when its scope is, holds the first records of the source up to its cap, products within all three caps, and is named partial exactly when it is short |
| ContextCache.FittingIsLongest | apps/sho/src/contexts.ts:63-66 | what a put leaves is the longest end that fits the budget, or one entry |
| ContextCache.Cache.constructor | apps/sho/src/contexts.ts:34-38 | empty, holding nothing |
| ContextCache.Cache.Drop | apps/sho/src/contexts.ts:40-45 | the key is gone and the held bytes are the sum of what is left |
| ContextCache.Cache.Read | apps/sho/src/contexts.ts:48-54 | a hit becomes the newest entry |
| ContextCache.Cache.Fresh | apps/sho/src/contexts.ts:55-58 | a hit of another fingerprint is no answer, though it becomes the newest |
| ContextCache.Cache.Put | apps/sho/src/contexts.ts:59-67 | the new entry is last and stays, and the rest fit the budget with it or are gone |
| ContextCache.Cache.Evict | apps/sho/src/contexts.ts:63-66 | the oldest go until the rest fit or one is left |
| ContextCache.CacheIsTheRecentEnd | apps/sho/src/contexts.ts:34-77 | after any reads and puts the cache is the recent end of everything put, within its budget or one entry; a put leaves the longest end that fits and a read drops nothing |
| HistoryWindow.FindTurnStarts | packages/assistant-runtime/src/assistant-kit-history-window.ts:46-54 | the indexes where requests begin, all and in order |
| HistoryWindow.FindCut | packages/assistant-runtime/src/assistant-kit-history-window.ts:80-98 | the loop stops at the first start small enough, or at the last |
| HistoryWindow.AssistantHistoryWindow | packages/assistant-runtime/src/assistant-kit-history-window.ts:67-101 | the longest end that begins a request within both limits, or the newest request alone; everything when asked for no turns or without a request; no call parted from its result |
| HistoryWindow.CutKeepsPairs | packages/assistant-runtime/src/assistant-kit-history-window.ts:38-45 | cutting where a request begins separates no call from its result |

## Left out

- HTTP, Redis, Postgres, `streamText`, worker threads and logging: only the atomic store steps and the events they deliver are modelled.
- Schemas, kind registries and payloads: prompts, secrets and answers are opaque strings, and a kind is any functions on them.
- Raw stored text: equality of serialised records is equality of records; bytes no build can read are a case of their own.
- `peek`, `messages.read`, cursors and `resume`: they only read, or map one field, and would add easy members.
- `createdAt` of a message and the order of two messages of different conversations.
- A store step that takes effect and then reports failure: a failed step of the budget protocol is taken to have had none.
- Time to live: a pause key may vanish at any step, and budget keys never do within their Kyiv day.
- Rounding of dollars: amounts are whole micro-dollars.  Number forms other than plain decimal digits decode through an arbitrary function.
- The operations of the pause, log and budget protocols are machines over their store steps and not loops, because other callers run between any two steps; each attempt counter is part of the state.
- The real time of timers: a deadline, hang or respawn timer that is armed may fire at any step.
- The chat strings of the message and pause models are Dafny strings; only the JSON model counts UTF-16 units.
- Cyclic values, `toJSON` and properties named `__proto__` that are set on a result: a value to clip is a finite tree with distinct own keys.
- The order in which the envelope lists its cut paths.
- The `jsonb` engine's own key order, duplicate removal and number forms: only the spaces after separators are claimed.
- `Intl` and the time zone database: a local date is given, and the zone is any function with two offsets.
- The period text itself: its digits are given as numbers.  `mapOrdersListWholePeriod`, `kyivCalendarDate` and the clock line are not modelled.
- KyivCalendar.SpokenIsGivenIff: asks for a day not within two years of the farthest date there is, as does KyivCalendar.SpokenIsNearest; there the dates looked for may be none.
- KyivClock.WaitReachesTomorrow: asks that today and tomorrow are dates Date.UTC reads as written, so of no year from 0 to 99.
- Dates before year 1 as `Intl` prints them, with an era: the local date is taken as given.
- A local date within a day of the farthest instant: reach is checked on days, not on milliseconds.
- Hashes of scopes, fingerprints and keys: `shoSlotOf` is modelled, how evenly it spreads is not.
- The list of phrases of a context, its trimming rule for names (any function) and the length of its upload (any function).
- Copy, routes, configuration, prompts, planners and the core and database packages.
