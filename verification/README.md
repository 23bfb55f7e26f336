# Semora's durable effects, as a verified model

Semora runs agents whose every outside effect is a durable step. This project models the parts that make
it so and proves what they promise, for all inputs, all interleavings and all crash points.

- **The ledger** (`Ledger`, `LedgerHistory`, `StepAnswers`, `InputHistory`, `LeaseTimes`). One branch is a
  value: steps that are absent, running or done, a lease with the fencing token issued last, and a queue of
  inputs. Eleven operations move it. What holds of every history of operations is proved about that value:
  tokens, owners, how long a lease is good for, immutable effects, the queue, and what each answer tells.
- **Two stores** (`MemorySteps`, `PostgresSteps`, `StoresAgree`). The dictionaries and the tables are
  classes that are updated in place; each method is proved to move its branch as the ledger value moves
  and to leave every other branch alone. The second one writes a transition row by row and rolls back.
  `OneHistory` says where a caller could tell them apart.
- **Conversations** (`Conversations`). Filing a branch under a conversation's name isolates it.
- **The attempt protocol** (`Attempts`, `AtMostOnce`, `FencedRetry`). Any number of attempts, each with
  any number of steps under way, interleaved at every store call, crashing anywhere, under a clock that
  may expire a lease at any time; a renewal may hand an overtaken owner a token it never presents. At
  most once holds without retries, by ownership of intent and without any use of tokens; with retries
  the fence takes over.
- **The boundary itself** (`Effects`, `Fork`, `Runtime`, `Inputs`). The methods that drive the store are
  written as they run, call by call, and proved to end where the corresponding transition system ends
  when nothing comes between its steps; the gate loop of a round and the copy of a fork are proved
  against declarative specifications. What a pass, a round, an answered park and a model boundary come to is
  then told case by case (`Passes`, `Rounds`, `WorkerPasses`, `Boundaries`).
- **Replay** (`Replay`, `CrashReplay`, `ReusedIds`, `RecoverRefuses`). The model and tool loop is a deterministic
  driver given by its functions of the stripped history; the theorems quantify over all of them.
- **Suspension** (`Suspension`, `AnswersKept`). A parked round answered by competing workers.
- **Input delivery** (`InputDelivery`, `InputRecovery`, `InputLoss`). A whole attempt, store call by store call,
  beside the holders of other leases; and a chain of attempts, each ended anywhere: what it repeats, what it
  loses.
- **The transcript** (`TranscriptLog`, `TranscriptReading`, `TranscriptBranch`). A content-addressed
  append-only log with leaf markers implements a mutable list of messages.

## What the proofs found

Each of these is a lemma; the code is modelled as it is.

- `MemoryTranscript.read(limit)` is documented to give the newest tail. When the limit lies strictly
  between the number of rows and twice it, the slice start is negative and wraps, and fewer rows come
  back (`WindowIsNewestTail`, `WindowWraps`).
- A second rewind to the same leaf within one clock reading is absorbed as a duplicate and lost
  (`RewindLandsExactly`, `RewindLost`).
- A conversation id with a slash can file two conversations under one name (`CollideExactly`).
- The stores differ at the exact moment a lease expires (`LeasesAgree`, `TieParts`), in the error of a
  transition that is wrong in two ways, and for an empty list under a stale token (`AnswersDiffer` in
  `OneMeaning`).
- A run that looked for a park before it took the lease can park over a live one (`UncheckedRunReplaces`);
  let in while nothing is parked it cannot (`NoAnswerLost`).
- A repeated answer replaces the value of the first one (`LastAnswerIsRecorded`).
- Replay is not free of writes: every round with calls is recorded again before its gates are asked, so an
  overtaken attempt is fenced off at its first such round (`OvertakenReplayStops`), and a replay that ends
  midway leaves the last round it passed on record, after which `recover` refuses every history that owes a
  call outside that round, although an earlier attempt reached it (`ReplayStopsAnywhere`).
- `recover` also refuses a history whose last response came in before its round was recorded
  (`FullHistoryIsRefused`; exactly which histories it takes is `RecoverAccepts`). The transcript gets a response
  only behind its round, so this concerns hosts that keep the messages themselves.
- A call id that was denied, comes back later in the same history and runs makes the earlier round read
  otherwise. `OneTrail` and `CrashReplays` hold as long as no such call is started;
  `InconsistentStartDiverges` is the other half, `ReusedIdTellsOtherwise` a run that shows it.
- Only the gate holds up a round. A tool that asks for approval itself parks too, but the calls behind it run
  (`OnlyGateHolds`), and if it names no request the park is refused (`RoundParks`).
- An input queued under the empty id and dropped by the screening is never discarded
  (`DroppedIsDiscarded`); it is the only kind the finish check can leave behind (`FinishDelivers`), and does
  (`EmptyIdIsLeft`).
  `submit` gives an empty id a fresh one, and `run` admits a prompt at once, so such an input takes a crash
  between queueing and admitting a prompt with an empty id, or direct use of the store.
- A prompt is admitted before any request carries it. An attempt that ends in between, by a crash, a halt or
  the fence, loses it for good (`PromptIsLost`), although the code takes it for carried (runtime.py:208). No
  other input loses its chance by the end of an attempt (`LostExactly`): whatever is neither admitted nor
  discarded can still arrive (`WhereInputsAre`), and the next attempt claims it (`OpenInputsComeAgain`).
- Claims rely on the fence: a writer of statuses that presents no token can settle an input between its
  listing and its claim (`UnleasedWriterSlipsIn`).

## What is assumed

- Hashes are injective: an entry identifier is the pair of its parent or stamp and its stripped body, a
  model step is named by its digest.
- Owners of leases are not empty; the runtime makes them from fresh UUIDs.
- One transcript writer at a time for a conversation, and clock readings for leaf markers that have not
  been used in it, as in `ClockAhead`.
- An input is queued under the id its item carries, as `submit` and `run` do.
- A handler, a model, a hook, a gate, a screening and a clock are choices of the world or parameters.

## Model

| member | source | states |
|---|---|---|
| Ledger.Refusal | packages/semora-store/src/semora_store/ledger.py:423-449 | nothing is refused exactly when no effect repeats, none conflicts with its record, and no key is both effect and control |
| LedgerHistory.RefusalLeavesLedger | packages/semora-store/src/semora_store/ledger.py:416-469 | an operation refused by any check, the fence included, changes nothing |
| LedgerHistory.IssuedStep | packages/semora-store/src/semora_store/ledger.py:344-366 | only a granted takeover moves the issued token, by one, and a grant always answers the token issued last |
| LedgerHistory.TokensRise | packages/semora-store/src/semora_store/ledger.py:344-366 | over any history the issued token never falls: renewal, release and takeover included |
| LedgerHistory.AcceptedTokensRise | packages/semora-store/src/semora_store/ledger.py:465-469 | the granted tokens that accepted leased writes present form a non-decreasing sequence across all eight fenced operations |
| LedgerHistory.OneOwnerPerToken | packages/semora-store/src/semora_store/ledger.py:344-360 | each positive token is granted to one owner |
| LedgerHistory.HolderStays | packages/semora-store/src/semora_store/ledger.py:350-366 | until the token moves or it releases, a holder keeps the lease |
| LedgerHistory.RenewalKeepsToken | packages/semora-store/src/semora_store/ledger.py:352-354 | a holder that neither released nor was replaced renews under the token it has |
| LedgerHistory.EffectIsImmutable | packages/semora-store/src/semora_store/ledger.py:314-342 | a done step keeps its value over every history without a control write to its key |
| LedgerHistory.QueueOnlyGrows | packages/semora-store/src/semora_store/ledger.py:368-414 | an input keeps its number and value for ever, no id is queued twice, statuses only rise, new inputs go behind, whether enqueued or brought by a transition |
| MemoryLedger.MemorySteps.constructor | packages/semora-store/src/semora_store/ledger.py:287-293 | every branch begins empty |
| MemoryLedger.MemorySteps.ReadStep | packages/semora-store/src/semora_store/ledger.py:301-304 | the recorded step of the branch under the key, or none |
| MemoryLedger.MemorySteps.Start | packages/semora-store/src/semora_store/ledger.py:306-312 | records intent only where the step is absent and says whether it did; a stale token changes nothing; no other branch moves |
| MemoryLedger.MemorySteps.FinishEffect | packages/semora-store/src/semora_store/ledger.py:314-327 | completes a running step, accepts an equal result again, and refuses anything else without a change |
| MemoryLedger.MemorySteps.WriteControl | packages/semora-store/src/semora_store/ledger.py:329-332 | upserts a control under the fence |
| MemoryLedger.MemorySteps.Forget | packages/semora-store/src/semora_store/ledger.py:338-342 | removes unfinished intent, never a committed result |
| MemoryLedger.MemorySteps.Acquire | packages/semora-store/src/semora_store/ledger.py:344-360 | renewal, refusal and takeover of a lease, with the token each of them answers; the lease carries the issued token |
| MemoryLedger.MemorySteps.Release | packages/semora-store/src/semora_store/ledger.py:362-366 | expires an owned lease and leaves the token |
| MemoryLedger.MemorySteps.EnqueueInput | packages/semora-store/src/semora_store/ledger.py:368-376 | appends an absent input under the next number and says whether it did |
| MemoryLedger.MemorySteps.ListInputs | packages/semora-store/src/semora_store/ledger.py:378-383 | the records of the branch, numbered 0 to n-1, in that order |
| MemoryLedger.MemorySteps.Claim | packages/semora-store/src/semora_store/ledger.py:385-394 | moves the input to claimed unless it is settled; an absent id is a no-op |
| MemoryLedger.MemorySteps.Admit | packages/semora-store/src/semora_store/ledger.py:396-403 | moves the selected inputs to admitted unless discarded |
| MemoryLedger.MemorySteps.Discard | packages/semora-store/src/semora_store/ledger.py:405-414 | moves the selected inputs to discarded |
| MemoryLedger.MemorySteps.CheckEffects | packages/semora-store/src/semora_store/ledger.py:423-449 | the validation pass finds the refusal, or the effects left to assign |
| MemoryLedger.MemorySteps.CommitTransition | packages/semora-store/src/semora_store/ledger.py:416-463 | accepts or refuses as a whole; accepted, it leaves all effects, controls and inputs in and answers the ids that were new; refused, every dictionary is as it was |
| PostgresLedger.PgRefusal | packages/semora-store-pg/src/semora_store_pg/postgres.py:342-355 | nothing is refused exactly when the transition is acceptable, although the rows are judged one by one |
| PostgresLedger.PostgresSteps.Fence | packages/semora-store-pg/src/semora_store_pg/postgres.py:185-196 | a positive token below the lease row's is refused |
| PostgresLedger.PostgresSteps.Start | packages/semora-store-pg/src/semora_store_pg/postgres.py:100-114 | insert on conflict do nothing has the meaning of start |
| PostgresLedger.PostgresSteps.CompleteEffect | packages/semora-store-pg/src/semora_store_pg/postgres.py:122-164 | the conditional insert or update, and the row it is judged by, complete an effect exactly when it does not conflict |
| PostgresLedger.PostgresSteps.FinishEffect | packages/semora-store-pg/src/semora_store_pg/postgres.py:116-120 | has the meaning of finish_effect |
| PostgresLedger.PostgresSteps.WriteControl | packages/semora-store-pg/src/semora_store_pg/postgres.py:166-179 | has the meaning of write_control |
| PostgresLedger.PostgresSteps.Forget | packages/semora-store-pg/src/semora_store_pg/postgres.py:198-207 | deleting a running row has the meaning of forget |
| PostgresLedger.PostgresSteps.Acquire | packages/semora-store-pg/src/semora_store_pg/postgres.py:209-231 | the conditional upsert: renewal keeps the token, takeover moves it, only after expiry |
| PostgresLedger.PostgresSteps.Release | packages/semora-store-pg/src/semora_store_pg/postgres.py:233-248 | the owned row is expired at the epoch, its token kept |
| PostgresLedger.PostgresSteps.EnqueueInput | packages/semora-store-pg/src/semora_store_pg/postgres.py:250-262 | insert on conflict do nothing has the meaning of enqueue_input, gaps in the sequence or not |
| PostgresLedger.PostgresSteps.ListInputs | packages/semora-store-pg/src/semora_store_pg/postgres.py:264-283 | the rows of the branch in rising sequence, which is submission order |
| PostgresLedger.PostgresSteps.Claim | packages/semora-store-pg/src/semora_store_pg/postgres.py:285-298 | has the meaning of claim_input |
| PostgresLedger.PostgresSteps.Admit | packages/semora-store-pg/src/semora_store_pg/postgres.py:300-314 | has the meaning of admit_inputs, save that an empty list returns before the fence |
| PostgresLedger.PostgresSteps.Discard | packages/semora-store-pg/src/semora_store_pg/postgres.py:316-330 | has the meaning of discard_inputs, save that an empty list returns before the fence |
| PostgresLedger.PostgresSteps.CheckShape | packages/semora-store-pg/src/semora_store_pg/postgres.py:342-351 | stops at the first repeated effect, then at keys that are both effect and control |
| PostgresLedger.PostgresSteps.WriteEffects | packages/semora-store-pg/src/semora_store_pg/postgres.py:352-355 | the effects are written in order up to the first conflict |
| PostgresLedger.PostgresSteps.CommitTransition | packages/semora-store-pg/src/semora_store_pg/postgres.py:332-379 | row by row with rollback commits all or nothing; refused, steps, leases and inputs are as they were |
| PostgresLedger.ConflictsLater | packages/semora-store-pg/src/semora_store_pg/postgres.py:352-355 | a completion finds the row the ones before it left alone, so checking as one writes is checking first |
| StoresAgree.RefusalsAgree | packages/semora-store-pg/src/semora_store_pg/postgres.py:342-355 | the stores refuse the same transitions, and for the same reason except when a conflict precedes a repeat or stands beside a mixed key |
| StoresAgree.OneMeaning | packages/semora-store/src/semora_store/ledger.py:416-463 | from one state every operation but the lease ones leads both stores to one state; the answers agree exactly unless AnswersDiffer |
| StoresAgree.LeasesAgree | packages/semora-store-pg/src/semora_store_pg/postgres.py:225 | the lease rules agree exactly when nobody asks at the very moment a lease of another owner expires |
| StoresAgree.OneHistory | packages/semora-store/src/semora_store/ledger.py:306-463 | over any history under a clock that never runs back, without such ties, the stores stay alike and answer alike exactly where the branch allows it |
| StoresAgree.TieParts | packages/semora-store/src/semora_store/ledger.py:351 | at a tie the in-memory store grants the takeover and the one on tables refuses it |
| StepAnswers.OtherKeysStay | packages/semora-store/src/semora_store/ledger.py:306-342 | an operation leaves every key it does not name, and a refused one every key |
| StepAnswers.StartTells | packages/semora-store/src/semora_store/ledger.py:306-312 | a start answers true exactly if it got past the fence and found nothing, and then the step is running |
| StepAnswers.FinishTells | packages/semora-store/src/semora_store/ledger.py:314-327 | a finish is accepted exactly if it got past the fence and found the step running or done with its value, and then the step is done with its value; otherwise nothing changes |
| StepAnswers.WriteTells | packages/semora-store/src/semora_store/ledger.py:329-342 | past the fence a control is written whatever was there, and forgetting leaves nothing but a done step |
| StepAnswers.CommitTells | packages/semora-store/src/semora_store/ledger.py:416-463 | a transition is accepted exactly if it got past the fence, names no key twice and each effect finds what it expects or its own value; then every effect and every control stands with its value |
| StepAnswers.RefusalTells | packages/semora-store/src/semora_store/ledger.py:423-449 | a refused transition is refused for something that is wrong with it, in either store: a repeated key, an effect that finds something else, or all the keys named both ways |
| InputHistory.StatusIsHighest | packages/semora-store/src/semora_store/ledger.py:385-414 | over any history the status of an input is the highest of the one it had and those that operations past the fence gave it |
| InputHistory.CommitQueues | packages/semora-store/src/semora_store/ledger.py:452-463 | an accepted transition queues each input it brings once, in the order and with the value of its first mention, pending, behind what was there, and answers exactly the ids that were not queued before |
| InputHistory.EnqueueQueues | packages/semora-store/src/semora_store/ledger.py:368-376 | an enqueue appends an input that is not queued, pending, and answers whether it did |
| LeaseTimes.LeaseIsExact | packages/semora-store/src/semora_store/ledger.py:344-360 | over any history, until its owner acts on it again, a granted or renewed lease keeps everybody else out before the time it was asked for, the token standing, and from then on the next one to ask takes over under the next token |
| LeaseTimes.PgLeaseIsExact | packages/semora-store-pg/src/semora_store_pg/postgres.py:209-230 | the same on the tables, where the moment of expiry still belongs to the owner |
| LeaseTimes.HolderRenews | packages/semora-store/src/semora_store/ledger.py:350-354 | an owner nobody replaced is renewed under its token up to the new time, expired or not |
| LeaseTimes.FirstGets | packages/semora-store/src/semora_store/ledger.py:344-349 | a branch nobody leased goes to the first who asks, under token one, in either store |
| LeaseTimes.ReleasedIsFree | packages/semora-store/src/semora_store/ledger.py:362-366 | after a release whoever asks next takes over under the next token |
| LeaseTimes.PgReleasedIsFree | packages/semora-store-pg/src/semora_store_pg/postgres.py:232-247 | the same on the tables |
| Conversations.FiledInjective | packages/semora-store/src/semora_store/ledger.py:215-216 | within one conversation the filed name determines the branch |
| Conversations.Isolation | packages/semora-store/src/semora_store/ledger.py:200-281 | any history through one conversation's view gives it the branches and the replies of the same history on a private ledger, whatever is interleaved through other views or the unscoped store |
| Conversations.SlashFreeIsApart | packages/semora-store/src/semora_store/ledger.py:215-216 | slash-free conversation ids and slash-free unscoped branch ids meet the condition of isolation |
| Conversations.CollideExactly | packages/semora-store/src/semora_store/ledger.py:215-216 | two conversations can share a filed name exactly when one id continues the other behind a slash |
| Conversations.CannotCollideIsApart | packages/semora-store/src/semora_store/ledger.py:215-216 | another conversation that cannot collide stays apart, and an unscoped name exactly if it does not begin with the conversation and a slash |
| Conversations.ApartIsExact | packages/semora-store/src/semora_store/ledger.py:200-281 | a foreign call that is not apart, and only such a one, changes a reply the conversation gets in some history |
| Conversations.SlashesCollide | packages/semora-store/src/semora_store/ledger.py:215-216 | a slash in a conversation id makes two conversations one branch |
| Attempts.KeysApart | packages/semora/src/semora/effects.py:102-124 | step, journal and model keys of different steps never coincide |
| AtMostOnce.AtMostOnce | packages/semora/src/semora/effects.py:483-521 | without retry_running, over any interleaving, crash and expiry: a second invocation of one call finds every earlier one ended with nothing having happened |
| AtMostOnce.ClosedForGood | packages/semora/src/semora/effects.py:487-497 | a recorded step nobody holds the intent of keeps its record and is never invoked, for the rest of every run |
| AtMostOnce.ForkInheritsDoubt | packages/semora/src/semora/runtime.py:387-403 | a call copied as started stays running for good, and no run of the target adds an invocation of it: the invocations of the call are those there were before the copy |
| AtMostOnce.ForkReplays | packages/semora/src/semora/runtime.py:401-403 | a call copied as done keeps the source's value for good, and no run adds an invocation of it |
| FencedRetry.NewestIsUndisturbed | packages/semora-store/src/semora_store/ledger.py:465-469 | while the attempt with the newest token is in a handler, nobody else clears, restarts or completes its step |
| FencedRetry.CommitsComeFromNewest | packages/semora/src/semora/effects.py:503-521 | a step becomes done only by the attempt whose token is newest, with what its handler or its copy gave |
| FencedRetry.ResultsStay | packages/semora-store/src/semora_store/ledger.py:314-327 | a committed result never changes, retries included |
| FencedRetry.JournalIsWrittenOnce | packages/semora/src/semora/effects.py:523-552 | the upserted journal projection never changes once committed |
| FencedRetry.CommittedForGood | packages/semora/src/semora/effects.py:487-552 | over every run of leased attempts a committed result and a committed projection never change again |
| FencedRetry.ProjectionIsReturned | packages/semora/src/semora/effects.py:530-536 | an attempt that looks for the projection after its commit returns it and runs no hook |
| FencedRetry.AttemptsAgree | packages/semora/src/semora/effects.py:523-552 | all hooked attempts that get to the end of a call return the same model-visible record |
| EffectsBoundary.Effects.JournalOnce | packages/semora/src/semora/effects.py:523-552 | replays the projection on record, or hooks and writes it, in place |
| EffectsBoundary.Effects.Execute | packages/semora/src/semora/effects.py:503-521 | runs the handler and records result or error; gives the intent back only when nothing happened; leaves it running otherwise |
| EffectsBoundary.Effects.WrapToolExecute | packages/semora/src/semora/effects.py:474-501 | ends with the ledger, the result and the invocation of the frame of Attempts left to itself |
| EffectsBoundary.Effects.AskModel | packages/semora/src/semora/effects.py:388-402 | a response is recorded, a request that raised is cleared, an interrupted one stays running |
| EffectsBoundary.Effects.WrapModelRequest | packages/semora/src/semora/effects.py:364-402 | ends with the ledger, the result and the invocation of the frame of Attempts left to itself |
| EffectsBoundary.Effects.BeforeToolExecute | packages/semora/src/semora/effects.py:406-455 | the verdict on one call, whether the round is suspended after it, and the entry in calls_made |
| EffectsBoundary.Effects.RecordPending | packages/semora/src/semora/effects.py:325-335 | commits the ids of the calls under the token, and nothing for a round without calls |
| EffectsBoundary.Effects.RunCall | packages/semora/src/semora/effects.py:406-501 | one call of a round: a tool runs exactly on a verdict that lets it and without a record; the call ends the round exactly if nobody could answer its request, or its tool's pass neither returned nor reported that nothing happened |
| EffectsBoundary.Effects.RunRound | packages/semora/src/semora/effects.py:262-265 | records the calls under the token and does nothing more if that is refused; then the stateful gate loop gives every call its verdict on the ledger the calls before it left, notes what it leaves to be approved or to the outside, and stops exactly at the first call that ends it |
| EffectsBoundary.RoundMeetsSpec | packages/semora/src/semora/effects.py:406-455 | with distinct call ids the loop meets the specification by the ledger the round began with: handlers run exactly for unrecorded calls the policy lets through before the first suspension of the gate, also behind a tool that cleared its intent |
| EffectsBoundary.InvokedUnlessRecorded | packages/semora/src/semora/effects.py:483-512 | a step that answered, or reported that nothing happened, invoked its handler exactly when it was not on record |
| EffectsBoundary.AnswersAgain | packages/semora/src/semora/effects.py:112-124 | a step that answered, asked again by any attempt under the same controls, gives the same result, invokes nothing and writes nothing |
| EffectsBoundary.OnlyGateHolds | packages/semora/src/semora/effects.py:442-455 | in a round that met the specification, a call the policy lets through runs exactly if the gate suspended none before it; a suspension raised by a tool itself holds nothing up |
| EffectsBoundary.NothingRunsBehind | packages/semora/src/semora/effects.py:442-455 | a reading of RoundMeetsSpec: behind a suspension of the gate an unapproved call passes only if it is on record |
| EffectsBoundary.RoundOrder | packages/semora/src/semora/effects.py:442-455 | a reading of RoundMeetsSpec: when an unrecorded call goes, when it parks and when it is put off; an approval tool's Continue parks |
| Passes.HandledPass | packages/semora/src/semora/effects.py:503-521 | from a running step under a live token: a cancelled handler leaves it running, one that reports that nothing happened leaves none, and a tool that returned or raised goes on to its marker with the envelope of what it did |
| Passes.JournalPass | packages/semora/src/semora/effects.py:523-552 | with the effect on record: a projection there is the answer; without controls the record is; else the hook's, written and returned, in which it may rewrite a value but not a failure; a hook that raises leaves no marker |
| Passes.IdlePass | packages/semora/src/semora/effects.py:483-501 | when a pass invokes nothing and writes nothing: a record that answers, a step in doubt, a stale token |
| Passes.PassLeaves | packages/semora/src/semora/effects.py:364-521 | a pass that may run its handler runs it and leaves what the handler did: running exactly if it was cancelled, absent exactly if nothing happened, else done with what it returned or, for a tool, raised |
| Passes.CancelledIsInDoubt | packages/semora/src/semora/effects.py:503-521 | after a cancelled handler an attempt that does not retry raises and invokes nothing |
| Passes.FateIsTold | packages/semora/src/semora/effects.py:503-521 | the step a handler leaves tells what became of the world outside: absent means nothing happened, running means nobody knows, done means it happened |
| Rounds.VerdictIs | packages/semora/src/semora/effects.py:406-455 | the verdict case by case: a record passes unless it is gated again; a call a person approved is judged by the policy alone; another one is put off behind a suspension or parks itself, under the request the policy names or its own id |
| Rounds.PauseIs | packages/semora/src/semora/effects.py:406-455 | what a call leaves to wait for: the request of the gate that parked it, the one its own tool made when it ran, or an outside result |
| Rounds.PassBreaksExactly | packages/semora/src/semora/effects.py:474-521 | the pass of a call ends the round exactly if its record is in doubt or no envelope, its token stale, its tool cancelled, or its journal does not let it through |
| Rounds.RoundEndsExactly | packages/semora/src/semora/effects.py:262-265 | a round of distinct calls under a live token ends early exactly if one of its calls ends it, at the first such call, judged by the ledger the round began with; otherwise it meets every call |
| Rounds.OrdinaryRoundIsWhole | packages/semora/src/semora/effects.py:262-265 | so a round with nothing on record, routable requests, and no cancelled tool or raising hook meets every call |
| CrashReplay.OneTrail | packages/semora/src/semora/effects.py:364-402 | whatever the interleaving, any two attempts at a run stand on one trail, up to volatile fields, as long as no call is started whose id was denied earlier in its history |
| CrashReplay.ReplayReads | packages/semora/src/semora/effects.py:325-335 | a move of an attempt on its way through the trail changes no step and no marker, calls no model and no handler, and brings it closer, or records the round it is at; it is fenced off exactly if its token was overtaken when a round is to be recorded |
| CrashReplay.ReplayUndisturbed | packages/semora/src/semora/effects.py:474-501 | no move of anybody else moves an attempt that replays; a takeover shows at its next round |
| CrashReplay.ReplayReaches | packages/semora/src/semora/effects.py:474-501 | left alone, such an attempt gets to any later point of the trail and leaves the last round it passed on record |
| CrashReplay.CrashReplays | packages/semora/src/semora/effects.py:112-124 | restarted from any prefix of what a dead attempt reached, an attempt gets on the record alone through every history the dead one reached, recording the rounds on its way; with a token nobody has overtaken, or no round on its way |
| CrashReplay.OvertakenReplayStops | packages/semora-store/src/semora_store/ledger.py:465-469 | otherwise it does not, by nobody's moves |
| CrashReplay.ReplayStopsAnywhere | packages/semora/src/semora/runtime.py:331-335 | a replay may stop at any point of the trail; from then on recover judges every history of the trail, longer ones too, by the last round that replay passed: it refuses exactly those that owe a call outside it |
| CrashReplay.RecoverAccepts | packages/semora/src/semora/runtime.py:331-335 | after any run recover takes every history of the trail that ends in a request, and once a round is on record exactly those that owe calls of one certain round of the trail, its own history among them |
| RecoverRefuses.FullHistoryIsRefused | packages/semora/src/semora/runtime.py:331-335 | a run from an empty ledger, by one attempt, after which nobody can recover the history it reached: the model answered a second time and the round on record is still the first |
| ReusedIds.InconsistentStartDiverges | packages/semora/src/semora/effects.py:417-421 | a call started though its id was denied earlier makes the earlier call, and its round once closed, read otherwise in every ledger where it is done: the condition of crash replay is exact |
| ReusedIds.RoundReadsDifferently | packages/semora/src/semora/effects.py:417-421 | a decided round reads otherwise once a call it denied is on record |
| ReusedIds.ReusedIdTellsOtherwise | packages/semora/src/semora/effects.py:417-421 | a run from an empty ledger in which that happens: the message on the trail says the call was denied, the ledger now says it ran |
| Fork.UnansweredToolCalls | packages/semora/src/semora/runtime.py:716-738 | a call of the latest response is in the result exactly if no message behind it has its id among its answers, in the order and as often as the response makes it; none without a response |
| Fork.CopyOneIs | packages/semora/src/semora/runtime.py:396-403 | one round of the copy leaves an absent key with the source's status and value and a present one alone; a stale fork writes nothing |
| Fork.CutOffCopy | packages/semora/src/semora/runtime.py:397-403 | over every run of other actions at the branch, passes of overtaken attempts at the same call included, and with a crash at any point, a key that was absent when its copy began is absent, running, or done with the source's value |
| Fork.CopyBegins | packages/semora/src/semora/runtime.py:394-400 | a copy of an absent call that only overtaken attempts are at begins so |
| Fork.CopyCalls | packages/semora/src/semora/runtime.py:387-403 | after a complete copy the target holds what it had and what it lacked of the owed calls; the source is unchanged; the finished copies are listed in order; a stale fork changes nothing |
| Fork.FinishedCopiesAre | packages/semora/src/semora/runtime.py:401-403 | the listed copies are the calls the source had finished and the target knew nothing of, each once, in order |
| Suspension.SuspendKeysApart | packages/semora/src/semora/runtime.py:52-59 | call indices are distinct from each other and from the continuation |
| AnswersKept.NewParkIsWellFormed | packages/semora/src/semora/runtime.py:518-522 | distinct pending ids and one request per call id make the call ids distinct |
| AnswersKept.ParkLands | packages/semora/src/semora/runtime.py:550-565 | one transition makes the continuation live and indexes every parked call |
| AnswersKept.ParksAreWellFormed | packages/semora/src/semora/runtime.py:515-566 | in every reachable ledger a live continuation has distinct pending and call ids, answers to its own calls only, and an index under each |
| AnswersKept.FinalizedWhenAnswered | packages/semora/src/semora/runtime.py:286-291 | a worker past its last answer, overtaken or not, holds a fully answered continuation |
| AnswersKept.CompletionHitsItsOwn | packages/semora/src/semora/runtime.py:622-627 | a completion that lands replaces the continuation it finalized, never one parked since |
| AnswersKept.UndecidedParkStays | packages/semora/src/semora/runtime.py:311-330 | no step replaces a continuation with an undecided call, an unchecked run that is let in while nothing is parked included |
| AnswersKept.NoAnswerLost | packages/semora/src/semora/runtime.py:274-291 | over every run of competing workers, first runs included that are let in while nothing is parked, a continuation lives on with all its answers until it is finalized fully answered, and found live later has only more of them |
| AnswersKept.UncheckedRunReplaces | packages/semora/src/semora/runtime.py:150-162 | the other half: an unchecked run let in while a continuation is live can park over it with its next store call |
| AnswersKept.AnswerCountsDown | packages/semora/src/semora/runtime.py:768-774 | an answer to an undecided call lowers the undecided count by exactly one, any other by none |
| AnswersKept.AnyOrderFinalizes | packages/semora/src/semora/runtime.py:277-291 | answers in any order: the last resume goes on to finalize exactly when every undecided request was answered |
| AnswersKept.LastAnswerIsRecorded | packages/semora/src/semora/runtime.py:282-285 | after any batch of answers the value under a call is the last one given to its pending id, or the old one; so it is kept exactly if that last one equals it |
| AgentRuntime.AgentRuntime.ActiveContinuation | packages/semora/src/semora/runtime.py:630-635 | the live continuation, or none |
| AgentRuntime.AgentRuntime.ParkRound | packages/semora/src/semora/runtime.py:506-566 | refuses deferred calls, a call without a request and two under one pending id, then the hook may raise, else parks the round in one transition; ends as the worker of Suspension does |
| AgentRuntime.AgentRuntime.ApprovalsOf | packages/semora/src/semora/runtime.py:583-597 | each parked call whose answer objects is denied in its words, each whose answer consents is approved with the arguments it carries, and no other call is |
| AgentRuntime.AgentRuntime.FinalizePark | packages/semora/src/semora/runtime.py:568-628 | hands each call the denial or approval its answer gives, marks, drives the attempt, and completes only if it returned |
| AgentRuntime.AgentRuntime.Resume | packages/semora/src/semora/runtime.py:251-291 | ends with the ledger and the outcome of the worker of Suspension left to itself |
| AgentRuntime.AgentRuntime.PendingCalls | packages/semora/src/semora/runtime.py:331-333 | the calls of the round recorded last |
| AgentRuntime.AgentRuntime.Recover | packages/semora/src/semora/runtime.py:293-335 | ends with the ledger and the outcome of the worker of Suspension left to itself, the check against the recorded round included |
| AgentRuntime.RoundParks | packages/semora/src/semora/runtime.py:514-522 | what a round paused on is what is persisted, in model order; refused exactly if a tool deferred, one asked without a request, or two requests carry one pending id |
| AgentRuntime.AskedAre | packages/semora/src/semora/runtime.py:506-522 | what a round leaves to be approved are exactly the calls whose gate or tool asked, in order, each under the request that came with it |
| WorkerPasses.FinalizingPass | packages/semora/src/semora/runtime.py:598-628 | with every answer in, the park is marked with them and the attempt driven: only its return completes the continuation, a failure or a raising hook leaves it marked, a new round replaces it |
| WorkerPasses.ResumingPass | packages/semora/src/semora/runtime.py:251-291 | an answer nobody waits for changes nothing; any other is recorded under the call of its request and then the unanswered rest announced in order, or the park finalized; a stale token changes nothing |
| WorkerPasses.RecoveringPass | packages/semora/src/semora/runtime.py:313-344 | a live park comes first, whatever history is presented; without one a history that owes a call outside the recorded round is refused, and any other driven on |
| Inputs.InputSession.Claim | packages/semora/src/semora/runtime.py:689-703 | claims, in submission order, exactly what is neither settled nor represented nor claimed before; a stale token claims nothing |
| Inputs.InputSession.Settle | packages/semora/src/semora/runtime.py:705-713 | admits or discards the items that carry an id; none asks nothing of the store |
| Inputs.TurnBoundary.Enter | packages/semora/src/semora/effects.py:307-322 | the request becomes the other parts, the inputs and the steers, enters history and transcript under the ids of the inputs, and then they are admitted |
| Inputs.TurnBoundary.Screen | packages/semora/src/semora/effects.py:298-305 | what the screening took out is discarded if it has a non-empty id, before the controls may halt the run |
| Inputs.TurnBoundary.Admit | packages/semora/src/semora/effects.py:276-323 | the whole model boundary, with prefetched inputs first |
| Inputs.TurnBoundary.DecideFinish | packages/semora/src/semora/effects.py:337-356 | an unfinished or parked round is passed over; it stops exactly if nothing is late and the verifier does not object, and goes on exactly if something late was claimed or the verifier objects |
| Inputs.FinishIs | packages/semora/src/semora/effects.py:337-356 | a run stops exactly if its round finished, every queued input is final, represented or seen, and the verifier does not object; it goes on exactly if its round finished and either something late was claimed under a live token, or nothing was late and the verifier objects |
| Inputs.ClaimIs | packages/semora/src/semora/runtime.py:689-703 | a claim hands out the late inputs, all of them and in submission order; it is refused exactly if there is one and the token is stale |
| Inputs.ClaimTakes | packages/semora/src/semora/runtime.py:697-702 | exactly the late inputs are claimed and seen afterwards |
| Boundaries.EnteredIs | packages/semora/src/semora/effects.py:307-322 | the model is asked the other parts, then the inputs, then the steers, under the ids of the inputs in order; that is in history and transcript even under a stale token, which only keeps the inputs from being admitted |
| Boundaries.ScreeningIs | packages/semora/src/semora/effects.py:294-305 | what the screening took out is discarded, if it has a name, before the controls may halt, and the rest goes in |
| Boundaries.JudgedIs | packages/semora/src/semora/effects.py:276-306 | the prompts come before what was queued; the controls halt on the inputs, or without any, before anything changes |
| Boundaries.AdmissionIs | packages/semora/src/semora/effects.py:276-323 | a model boundary judges what was in hand and then what was late, and leaves nothing in hand |
| InputDelivery.BoundaryAlone | packages/semora/src/semora/effects.py:276-356 | left to itself, the attempt that claims, screens, records and admits call by call passes a boundary as the methods above do |
| InputDelivery.ClaimedOnceInOrder | packages/semora/src/semora/runtime.py:689-703 | over a whole attempt, whatever holders of other leases do between any two of its store calls, the numbers it claims strictly rise: each input at most once, in submission order |
| InputDelivery.ClaimsOnlyOpen | packages/semora/src/semora/runtime.py:691-702 | at the moment a claim is accepted the input is not settled, not represented and not claimed before |
| InputDelivery.UnleasedWriterSlipsIn | packages/semora-store/src/semora_store/ledger.py:385-394 | at every claim that any attempt reaches, a writer without a lease can admit the still open input between its listing and its claim, and it is handed out all the same |
| InputDelivery.FinishDelivers | packages/semora/src/semora/effects.py:337-356 | after the finish check stopped the run, every input of its last listing is admitted, discarded or represented, save one under the empty id, whatever others do |
| InputDelivery.StopsUnopposed | packages/semora/src/semora/effects.py:352-356 | over any run of an attempt: if it stopped, its last boundary was the finish check of a round that finished, to which the verifier did not object |
| InputDelivery.DroppedIsDiscarded | packages/semora/src/semora/effects.py:298-301 | an input the screening took out is discarded exactly if its id is not empty |
| InputDelivery.EmptyIdIsLeft | packages/semora/src/semora/effects.py:298-301 | a whole attempt that shows it: its screening drops an input under the empty id, the run stops through the finish check, and the input is claimed, not settled and in no request |
| InputRecovery.CarriedAtMostOnce | packages/semora/src/semora/runtime.py:689-703 | over any chain of attempts, ended by crash, halt or fence after any store call, no input enters the transcript twice |
| InputRecovery.OpenInputsComeAgain | packages/semora/src/semora/runtime.py:693-701 | the next attempt claims exactly the inputs that are neither settled nor in the transcript |
| InputLoss.WhereInputsAre | packages/semora/src/semora/runtime.py:689-703 | at any point of any chain an input outside the transcript, unless it is the admitted prompt of the attempt at hand, enters the transcript in some continuation exactly if it is neither admitted nor discarded |
| InputLoss.LostExactly | packages/semora/src/semora/runtime.py:204-210 | behind the end of an attempt an input outside the transcript can arrive exactly if it is open; so the end takes that chance from the prompt admitted and not yet in a request, and from no other input; between two turns of a live attempt that prompt still had it |
| InputLoss.PromptIsLost | packages/semora/src/semora/runtime.py:204-210 | such a chain from an empty queue: the prompt is queued and admitted, the attempt ends, the transcript is empty and no continuation brings the prompt into it |
| TranscriptLog.StrippedIsStable | packages/semora/src/semora/transcript.py:51-57 | stripping twice is stripping once |
| TranscriptLog.WalkShape | packages/semora/src/semora/transcript.py:132-141 | on arbitrary entries, cyclic parents included, the walk is parent-linked, repeats nothing, and stops at a root, a dangling link or an entry passed before |
| TranscriptLog.WalkIsPath | packages/semora/src/semora/transcript.py:132-141 | on the writers' logs the guard never fires and the walk ends at a root |
| TranscriptLog.ResolveTip | packages/semora/src/semora/transcript.py:130-132 | the newest chained entry, or the newest leaf marker if nothing grew behind it |
| TranscriptLog.WalkUp | packages/semora/src/semora/transcript.py:133-141 | the loop ends on every input and gives the visible walk in chronological order |
| TranscriptLog.ResolveActiveBranch | packages/semora/src/semora/transcript.py:122-142 | the active branch |
| TranscriptLog.ReadMessagesAt | packages/semora/src/semora/transcript.py:152-168 | the messages behind a cursor, or an error when it names no entry |
| TranscriptReading.StrippedKeeps | packages/semora/src/semora/transcript.py:51-57 | stripping takes out what lies in a volatile field at any depth, and behind every other path leaves what was there |
| TranscriptReading.OneEntryExactly | packages/semora/src/semora/transcript.py:60-63 | two records are one entry exactly if they follow one parent and agree up to volatile fields |
| TranscriptReading.OneMarkerExactly | packages/semora/src/semora/transcript.py:105-119 | two rewinds are one marker exactly if they go to one leaf at one clock reading |
| TranscriptReading.TipIs | packages/semora/src/semora/transcript.py:130-132 | the newest entry but for tombstones says where the branch ends |
| TranscriptReading.ReadingIs | packages/semora/src/semora/transcript.py:152-168 | on any log, behind a known cursor come, in order, the messages of the walk up from it that no tombstone names; an unknown one is an error |
| TranscriptReading.ActiveReadingIs | packages/semora/src/semora/transcript.py:145-149 | and the active messages are those of the walk up from the tip |
| TranscriptBranch.BranchIsPath | packages/semora/src/semora/transcript.py:122-142 | on the writers' logs the branch behind an entry spells its path from a root, linked parent to child |
| TranscriptBranch.ArrivalRises | packages/semora/src/semora/transcript.py:122-142 | along a branch entries arrived in strictly rising order |
| TranscriptBranch.ReadersSee | packages/semora/src/semora/transcript.py:253-301 | an aligned log shows every reader the writer's identifiers, its messages up to volatile fields, and its tip |
| TranscriptBranch.RecordLands | packages/semora/src/semora/transcript.py:200-216 | a record puts the tip on its entry, new or absorbed |
| TranscriptBranch.RecordAligns | packages/semora/src/semora/transcript.py:200-216 | recording one message keeps log and list aligned |
| TranscriptBranch.RewindAligns | packages/semora/src/semora/transcript.py:218-221 | rewinding keeps log and list aligned |
| TranscriptBranch.RewindLandsExactly | packages/semora/src/semora/transcript.py:105-119 | a rewind lands exactly if its timestamp is new or the tip is there already |
| TranscriptBranch.RewindLost | packages/semora/src/semora/transcript.py:105-119 | two rewinds within one clock reading: the second is lost |
| TranscriptBranch.CursorIsStable | packages/semora/src/semora/transcript.py:152-168 | a cursor reads the same messages after any later records and rewinds |
| TranscriptBranch.ActiveIsAtTip | packages/semora/src/semora/transcript.py:145-168 | the active messages are the messages at the active tip |
| TranscriptBranch.OpenedAligns | packages/semora/src/semora/transcript.py:264-280 | a restored branch is aligned with the log it was read from |
| TranscriptBranch.WindowIsNewestTail | packages/semora-store/src/semora_store/transcript.py:134-138 | read(limit) gives the newest tail exactly when the limit is at most the number of rows or at least twice it |
| TranscriptBranch.WindowWraps | packages/semora-store/src/semora_store/transcript.py:137 | five rows read with a limit of eight give three |
| TranscriptBranch.MemoryTranscript.Append | packages/semora-store/src/semora_store/transcript.py:123-132 | appends an entry unless the conversation holds its identity, and says which; other conversations stand still |
| TranscriptBranch.MemoryTranscript.Read | packages/semora-store/src/semora_store/transcript.py:134-138 | the entries in arrival order, through the window |
| TranscriptBranch.TranscriptWriter.Record | packages/semora/src/semora/transcript.py:200-216 | moves the chain position to the entry whether it was appended or absorbed, with a leaf marker when absorbed |
| TranscriptBranch.TranscriptWriter.Rewind | packages/semora/src/semora/transcript.py:218-221 | moves writer and readers to the leaf |
| TranscriptBranch.Branch.Open | packages/semora/src/semora/transcript.py:264-280 | a branch opened on any writers' log holds what readers see |
| TranscriptBranch.Branch.Append | packages/semora/src/semora/transcript.py:295-301 | appends exact messages; readers agree afterwards |
| TranscriptBranch.Branch.Replace | packages/semora/src/semora/transcript.py:282-293 | afterwards readers see exactly the desired list up to volatile fields, under the branch's identifiers, with the tip at the writer's parent; messages and identifiers stay as far as the two lists agree, and nothing is written if they agree throughout |

## Left out

- Deep copies and aliasing: values are immutable here. In the program the in-memory `commit_transition` stores the caller's objects without a copy, unlike `finish_effect` and `write_control`.
- Python equality across types (`1 == True`) and JSON decoding of recorded values.
- SQL, connection pools, isolation levels and `now()`: a method of the store on tables is one atomic update; the failure of a connection is a crash between two store calls.
- `ConversationScopedSteps` as an object: it only forwards under a filed name, and is modelled by `Filed` and the calls of `Conversations`.
- `AgentRuntime` and `Effects` without a store: they record nothing.
- AtMostOnce.AtMostOnce: speaks of one branch; calls on different branches have different ledgers, and `Conversations` says when two names are two branches.
- FencedRetry.AttemptsAgree: for attempts with controls installed; without them nothing is journaled and the record itself is returned.
- EffectsBoundary.Effects.RunRound: for a sequential batch; concurrency-safe tools run in any order. What the graph makes of a retry signal, a prompt to the model, is not modelled.
- CrashReplay.CrashReplays: no inputs are admitted, no approvals come back and nothing is regated on the way; a suspension or a raised signal ends the attempt; the gate sees the stripped history and the position of the call, not `calls_made` or the turn. A history that answers part of its last round is not among the prefixes.
- Fork.CopyCalls: both branches are in one store, and nobody else writes to them during the call; the interleaved copy is `CutOffCopy`. Reading the source's history is left to `MessagesAt`.
- AnswersKept.NoAnswerLost: the attempt that finishes a continuation is one choice of the world; what it does to other keys is traffic beside it.
- InputDelivery.FinishDelivers: the graph goes to the model after late inputs, as the code returns a model node for them; a run that halts or is fenced off ends without the finish check. Writers of statuses hold leases.
- InputRecovery.CarriedAtMostOnce: attempts follow one another. The transcript has no fence, so an overtaken attempt that still records can repeat an input its successor claimed again. A screening hands back inputs it was given, each once.
- TranscriptBranch.Branch.Open: for logs such writers made, which are the logs reached from an empty conversation.
- TranscriptBranch.Branch.Replace: logs without tombstones, which the runtime never writes; the walk itself is modelled with them.
- The rejoining of a remembered conversation in `_finalize`, and what the parked messages and rules version are handed on for.
- Run records, usage counts, `opened` and `closed`, message encoding.
- The agent class, the command router and the composition of controls: class assembly, a short loop and folds.
- Pydantic AI: the graph, message classes, validation and scheduling.
